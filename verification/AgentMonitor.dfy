/**
  server/service_windows.go and server/desktop_windows.go: the loop that keeps one
  agent process per wanted desktop and the broadcast writer pointed at their pipes,
  while the operating system answers as it likes.
*/
module AgentMonitor {
  import opened Prelude

  // ---- Which desktops are wanted ----

  const LOCKED: int := 0
  const NO_SESSION: nat := 0xFFFF_FFFF

  function DesktopForFlags(flags: int): string {
    if flags == LOCKED then "Winlogon" else "Default"
  }

  function DesiredDesktops(flags: int): seq<string> {
    var primary := DesktopForFlags(flags);
    if flags == LOCKED then ["Default", primary] else [primary]
  }

  predicate UsesUserToken(desk: string) {
    desk == "Default"
  }

  /** The wanted desktops without a live agent, in the order they are wanted. */
  function Missing(want: seq<string>, alive: set<string>): seq<string> {
    if want == [] then []
    else (if want[0] in alive then [] else [want[0]]) + Missing(want[1..], alive)
  }

  // ---- What the operating system may do ----

  /**
    How starting an agent turns out: no token, no process, a process that does not connect,
    or an Accept that fails. A process that connects in time may lose its connection to an
    Accept that an earlier timeout abandoned; one that connects too late is taken by an
    Accept that nobody waits for any more. The connection comes from the process just
    started, or from another one that still runs and has not connected yet.
  */
  datatype Outcome = NoToken | NoProcess | Silent | AcceptError | Connects(from: Option<nat>, stolen: bool) | Late

  /** One tick: the console session, its lock flags if the query succeeds, the processes
      found dead, how spawns turn out, and how many abandoned Accepts have failed. */
  datatype Env = Env(sess: nat, query: Option<int>, dead: set<nat>, spawn: string -> Outcome, broken: nat)

  function Detect(e: Env): Option<int> {
    if e.sess == NO_SESSION then None else e.query
  }

  // ---- The monitor's state ----

  datatype AgentProc = AgentProc(h: nat, conn: nat)

  /** Where a process was started. */
  datatype Home = Home(sess: nat, desk: string, asUser: bool)

  /**
    Processes and connections are numbered from 1 as they are created. live holds the
    processes that have not been terminated, taken those whose connection has been accepted
    by anyone, peer the process behind each connection the monitor got; orphans is the
    number of abandoned Accepts that still wait, and timeouts how often one was abandoned.
  */
  datatype State = State(
    agents: map<string, AgentProc>, curSess: nat, writer: Option<set<nat>>,
    spawned: nat, accepted: nat, homes: map<nat, Home>, peer: map<nat, nat>,
    live: set<nat>, taken: set<nat>, orphans: nat, timeouts: nat)

  const INIT := State(map[], 0, None, 0, 0, map[], map[], {}, {}, 0, 0)

  function Conns(agents: map<string, AgentProc>): set<nat> {
    set d | d in agents :: agents[d].conn
  }

  function Handles(agents: map<string, AgentProc>): set<nat> {
    set d | d in agents :: agents[d].h
  }

  /** The targets that fan-out should have. */
  function Targets(agents: map<string, AgentProc>): Option<set<nat>> {
    if agents == map[] then None else Some(Conns(agents))
  }

  // ---- One tick, as a function ----

  /** A process is started; it has not connected yet. */
  function Started(s: State, sess: nat, desk: string): State {
    s.(spawned := s.spawned + 1, live := s.live + {s.spawned + 1},
       homes := s.homes[s.spawned + 1 := Home(sess, desk, UsesUserToken(desk))])
  }

  /** The process that connects. */
  function From(t: State, o: Outcome): nat {
    if o.Connects? && o.from.Some? then o.from.value else t.spawned
  }

  /** A process connects in time: an agent that runs dials until it has connected once. */
  predicate Dials(t: State, o: Outcome) {
    o.Connects? && (o.from.None? || (o.from.value in t.live && o.from.value !in t.taken))
  }

  /** The Accept that waits for the process just started gets a connection. */
  predicate Answered(t: State, o: Outcome) {
    Dials(t, o) && !(o.stolen && t.orphans > 0)
  }

  function Served(t: State, o: Outcome): State {
    t.(accepted := t.accepted + 1, peer := t.peer[t.accepted + 1 := From(t, o)], taken := t.taken + {From(t, o)})
  }

  /** A timeout leaves one more Accept waiting, unless a connection has come all the same. */
  function TimedOut(t: State, o: Outcome): State {
    t.(taken := if Dials(t, o) || o.Late? then t.taken + {From(t, o)} else t.taken,
       orphans := if Dials(t, o) || o.Late? || o.AcceptError? then t.orphans else t.orphans + 1,
       timeouts := if o.AcceptError? then t.timeouts else t.timeouts + 1)
  }

  function SpawnOne(s: State, sess: nat, desk: string, o: Outcome): State {
    if o.NoToken? || o.NoProcess? then s
    else
      var t := Started(s, sess, desk);
      if Answered(t, o) then Served(t, o).(agents := t.agents[desk := AgentProc(t.spawned, t.accepted + 1)])
      else TimedOut(t, o).(live := t.live - {t.spawned})
  }

  /**
    Each outcome of a spawn in full: without a token or a process nothing happens; an
    agent is bound exactly if a process connects in time and no abandoned Accept is served
    first, and otherwise its process is terminated. A timeout abandons its Accept, which
    waits on unless a connection comes late or took the place of another that was waiting.
  */
  lemma SpawnMeans(s: State, sess: nat, desk: string, o: Outcome)
    ensures var t := SpawnOne(s, sess, desk, o);
            var n, c := s.spawned + 1, s.accepted + 1;
            var gone := s.live + {n} - {n};
            var from := if o.Connects? && o.from.Some? then o.from.value else n;
            var dials := o.Connects? && (o.from.None? || (from in s.live + {n} && from !in s.taken));
            && t.curSess == s.curSess && t.writer == s.writer
            && (o.NoToken? || o.NoProcess? ==> t == s)
            && (!o.NoToken? && !o.NoProcess? ==> t.spawned == n && t.homes == s.homes[n := Home(sess, desk, desk == "Default")])
            && (dials && (!o.stolen || s.orphans == 0) ==>
                  && t.agents == s.agents[desk := AgentProc(n, c)] && t.accepted == c && t.peer == s.peer[c := from]
                  && t.live == s.live + {n} && t.taken == s.taken + {from} && t.orphans == s.orphans && t.timeouts == s.timeouts)
            && (dials && o.stolen && s.orphans > 0 ==>
                  && t.agents == s.agents && t.accepted == s.accepted && t.peer == s.peer
                  && t.live == gone && t.taken == s.taken + {from} && t.orphans == s.orphans && t.timeouts == s.timeouts + 1)
            && (o.Late? ==>
                  && t.agents == s.agents && t.accepted == s.accepted && t.peer == s.peer
                  && t.live == gone && t.taken == s.taken + {n} && t.orphans == s.orphans && t.timeouts == s.timeouts + 1)
            && (o.Silent? || (o.Connects? && !dials) ==>
                  && t.agents == s.agents && t.accepted == s.accepted && t.peer == s.peer
                  && t.live == gone && t.taken == s.taken && t.orphans == s.orphans + 1 && t.timeouts == s.timeouts + 1)
            && (o.AcceptError? ==>
                  && t.agents == s.agents && t.accepted == s.accepted && t.peer == s.peer
                  && t.live == gone && t.taken == s.taken && t.orphans == s.orphans && t.timeouts == s.timeouts)
  {
  }

  function SpawnAll(s: State, sess: nat, start: seq<string>, spawn: string -> Outcome): State
    decreases |start|
  {
    if start == [] then s else SpawnAll(SpawnOne(s, sess, start[0], spawn(start[0])), sess, start[1..], spawn)
  }

  function Dead(agents: map<string, AgentProc>, dead: set<nat>): set<string> {
    set d | d in agents && agents[d].h in dead
  }

  function Unwanted(agents: map<string, AgentProc>, want: seq<string>): set<string> {
    set d | d in agents && d !in want
  }

  function Settled(s: State, e: Env): State {
    s.(orphans := if e.broken <= s.orphans then s.orphans - e.broken else 0)
  }

  function HandlesOf(agents: map<string, AgentProc>, desks: set<string>): set<nat> {
    set d | d in agents && d in desks :: agents[d].h
  }

  /** The agents on these desktops are terminated. */
  function Without(s: State, desks: set<string>): State {
    s.(agents := s.agents - desks, live := s.live - HandlesOf(s.agents, desks))
  }

  /** After a change of console session, everything from the old one is gone. */
  function InSession(s: State, sess: nat): State {
    if sess == s.curSess then s else Without(s, s.agents.Keys).(writer := None, curSess := sess)
  }

  /** What survives a change of session and the reaping of dead processes. */
  function Reaped(s: State, e: Env): State {
    var t := InSession(s, e.sess);
    Without(t, Dead(t.agents, e.dead))
  }

  function ToStop(s: State, e: Env, want: seq<string>): set<string> {
    Unwanted(Reaped(s, e).agents, want)
  }

  function ToStart(s: State, e: Env, want: seq<string>): seq<string> {
    Missing(want, Reaped(s, e).agents.Keys)
  }

  /** The state in which the tick comes to start agents. */
  function Before(s: State, e: Env, want: seq<string>): State {
    Without(Reaped(s, e), ToStop(s, e, want))
  }

  function Towards(s: State, e: Env, want: seq<string>): State {
    var t := SpawnAll(Before(s, e, want), e.sess, ToStart(s, e, want), e.spawn);
    if e.sess != s.curSess || Dead(InSession(s, e.sess).agents, e.dead) != {} || ToStop(s, e, want) != {} || ToStart(s, e, want) != []
    then t.(writer := Targets(t.agents)) else t
  }

  function Tick(s0: State, e: Env): State {
    var s := Settled(s0, e);
    if Detect(e).None? then s else Towards(s, e, DesiredDesktops(Detect(e).value))
  }

  function Run(s: State, es: seq<Env>): State
    decreases |es|
  {
    if es == [] then s else Tick(Run(s, es[..|es| - 1]), es[|es| - 1])
  }

  /** The flags of the last tick on which detection succeeded. */
  function LastFlags(es: seq<Env>): Option<int>
    decreases |es|
  {
    if es == [] then None
    else if Detect(es[|es| - 1]).Some? then Detect(es[|es| - 1])
    else LastFlags(es[..|es| - 1])
  }

  function Elements<T(==)>(xs: seq<T>): set<T> {
    set x | x in xs
  }

  // ---- The same loop as it is written ----

  method PlanAgents(alive: set<string>, want: seq<string>) returns (stop: seq<string>, start: seq<string>)
    ensures start == Missing(want, alive)
    ensures forall d :: d in stop <==> d in alive && d !in want
    ensures forall i, j :: 0 <= i < j < |stop| ==> stop[i] != stop[j]
  {
    var wantSet := {};
    for i := 0 to |want|
      invariant wantSet == set d | d in want[..i]
    {
      wantSet := wantSet + {want[i]};
    }
    stop := [];
    var left := alive;
    while left != {}
      invariant left <= alive
      invariant forall d :: d in stop <==> d in alive - left && d !in want
      invariant forall i, j :: 0 <= i < j < |stop| ==> stop[i] != stop[j]
      decreases left
    {
      var d :| d in left;
      assert d !in stop;
      left := left - {d};
      if d !in wantSet {
        stop := stop + [d];
      }
    }
    start := [];
    for i := 0 to |want|
      invariant start + Missing(want[i..], alive) == Missing(want, alive)
    {
      assert want[i..][1..] == want[i + 1..];
      if want[i] !in alive {
        start := start + [want[i]];
      }
    }
  }

  /** No two agents share a process or a connection. */
  ghost predicate Separate(held: map<string, AgentProc>) {
    forall d, d' :: d in held && d' in held && d != d' ==> held[d].h != held[d'].h && held[d].conn != held[d'].conn
  }

  /** Of the things numbered 1 to created, those in open have not been closed and every
      other has been closed exactly once. */
  ghost predicate Settles(open: set<nat>, created: nat, closed: multiset<nat>) {
    && (forall x :: x in open ==> 0 < x <= created)
    && (forall x: nat :: closed[x] == if 0 < x <= created && x !in open then 1 else 0)
  }

  lemma OneMoreOpen(open: set<nat>, created: nat, closed: multiset<nat>)
    requires Settles(open, created, closed)
    ensures Settles(open + {created + 1}, created + 1, closed) && created + 1 !in open
  {
  }

  lemma OneClosed(open: set<nat>, created: nat, closed: multiset<nat>, x: nat)
    requires Settles(open, created, closed) && x in open
    ensures Settles(open - {x}, created, closed + multiset{x})
  {
  }

  lemma WithoutOne(held: map<string, AgentProc>, desk: string)
    requires Separate(held) && desk in held
    ensures Separate(held - {desk})
    ensures Handles(held - {desk}) == Handles(held) - {held[desk].h}
    ensures Conns(held - {desk}) == Conns(held) - {held[desk].conn}
    ensures held[desk].h in Handles(held) && held[desk].conn in Conns(held)
  {
    var rest := held - {desk};
    forall h | h in Handles(held) && h != held[desk].h ensures h in Handles(rest) {
      var d :| d in held && held[d].h == h;
      assert d in rest && rest[d].h == h;
    }
    forall c | c in Conns(held) && c != held[desk].conn ensures c in Conns(rest) {
      var d :| d in held && held[d].conn == c;
      assert d in rest && rest[d].conn == c;
    }
  }

  lemma WithOneMore(held: map<string, AgentProc>, desk: string, ap: AgentProc)
    requires Separate(held) && desk !in held && ap.h !in Handles(held) && ap.conn !in Conns(held)
    ensures Separate(held[desk := ap])
    ensures Handles(held[desk := ap]) == Handles(held) + {ap.h}
    ensures Conns(held[desk := ap]) == Conns(held) + {ap.conn}
  {
    var more := held[desk := ap];
    OneMoreAgent(held, desk, ap);
    forall d | d in held ensures held[d].h in Handles(held) && held[d].conn in Conns(held) {}
  }

  lemma OneMoreAgent(held: map<string, AgentProc>, desk: string, ap: AgentProc)
    requires desk !in held
    ensures Handles(held[desk := ap]) == Handles(held) + {ap.h}
    ensures Conns(held[desk := ap]) == Conns(held) + {ap.conn}
  {
    var more := held[desk := ap];
    assert more[desk] == ap;
    forall d | d in held ensures more[d].h in Handles(more) && more[d].conn in Conns(more) && more[d] == held[d] {}
    forall h | h in Handles(held) ensures h in Handles(more) {
      var d :| d in held && held[d].h == h;
      assert more[d].h == h;
    }
    forall c | c in Conns(held) ensures c in Conns(more) {
      var d :| d in held && held[d].conn == c;
      assert more[d].conn == c;
    }
  }

  /** A list of different desktops, none of which has an agent. */
  ghost predicate Fresh(start: seq<string>, agents: map<string, AgentProc>) {
    && (forall i, j :: 0 <= i < j < |start| ==> start[i] != start[j])
    && (forall d :: d in start ==> d !in agents)
  }

  lemma {:induction false} MissingIsFresh(want: seq<string>, agents: map<string, AgentProc>)
    requires forall i, j :: 0 <= i < j < |want| ==> want[i] != want[j]
    ensures Fresh(Missing(want, agents.Keys), agents)
    ensures forall d :: d in Missing(want, agents.Keys) <==> d in want && d !in agents
  {
    if want != [] { MissingIsFresh(want[1..], agents); }
  }

  lemma WithoutDesk(s: State, desk: string)
    ensures Without(s, {desk}) ==
      if desk in s.agents then s.(agents := s.agents - {desk}, live := s.live - {s.agents[desk].h}) else s
  {
    if desk !in s.agents {
      assert s.agents - {desk} == s.agents && HandlesOf(s.agents, {desk}) == {};
    } else {
      assert HandlesOf(s.agents, {desk}) == {s.agents[desk].h};
    }
  }

  lemma AllDesks(agents: map<string, AgentProc>)
    ensures HandlesOf(agents, agents.Keys) == Handles(agents) && agents - agents.Keys == map[]
  {
  }

  lemma NoDesks(s: State)
    ensures Elements<string>([]) == {} && Without(s, {}) == s
  {
    assert s.agents - {} == s.agents && HandlesOf(s.agents, {}) == {};
  }

  lemma WithoutMore(s: State, desks: seq<string>, k: nat)
    requires k < |desks|
    ensures Without(Without(s, Elements(desks[..k])), {desks[k]}) == Without(s, Elements(desks[..k + 1]))
  {
    var a, b := Elements(desks[..k]), Elements(desks[..k + 1]);
    assert desks[..k + 1] == desks[..k] + [desks[k]];
    assert b == a + {desks[k]};
    var x, y := HandlesOf(s.agents, a), HandlesOf(s.agents - a, {desks[k]});
    assert s.agents - a - {desks[k]} == s.agents - b;
    forall h | h in HandlesOf(s.agents, b) ensures h in x + y {
      var d :| d in s.agents && d in b && s.agents[d].h == h;
      if d in a { assert h in x; } else { assert d in s.agents - a; }
    }
    assert HandlesOf(s.agents, b) == x + y;
  }

  class Monitor {
    var agents: map<string, AgentProc>
    var curSess: nat
    var writer: Option<seq<nat>>  // the targets bound in the pipe injector
    // The operating system, as far as this monitor has used it.
    var terminated: multiset<nat>
    var closedHandles: multiset<nat>
    var closedConns: multiset<nat>
    var spawned: nat
    var accepted: nat
    var homes: map<nat, Home>
    var peer: map<nat, nat>
    var live: set<nat>
    var taken: set<nat>
    var orphans: nat
    var timeouts: nat

    function Abs(): State
      reads this
    {
      State(agents, curSess, if writer.Some? then Some(Elements(writer.value)) else None,
            spawned, accepted, homes, peer, live, taken, orphans, timeouts)
    }

    ghost predicate Books(held: map<string, AgentProc>)
      reads `live, `spawned, `accepted, `terminated, `closedHandles, `closedConns
    {
      && Separate(held) && live == Handles(held)
      && Settles(Handles(held), spawned, closedHandles) && terminated == closedHandles
      && Settles(Conns(held), accepted, closedConns)
    }

    ghost predicate Valid()
      reads this
    {
      && Books(agents)
      && (writer.Some? ==> forall i, j :: 0 <= i < j < |writer.value| ==> writer.value[i] != writer.value[j])
    }

    constructor ()
      ensures Valid() && Abs() == INIT
    {
      agents, curSess, writer := map[], 0, None;
      terminated, closedHandles, closedConns := multiset{}, multiset{}, multiset{};
      spawned, accepted := 0, 0;
      homes, peer, live, taken, orphans, timeouts := map[], map[], {}, {}, 0, 0;
    }

    /** Closes the pipe, then ends the process: what stopAgent and killAll do to each agent. */
    method Release(desk: string, ap: AgentProc, ghost held: map<string, AgentProc>)
      requires Books(held) && desk in held && held[desk] == ap
      modifies `terminated, `closedHandles, `closedConns, `live
      ensures Books(held - {desk}) && live == old(live) - {ap.h}
    {
      WithoutOne(held, desk);
      closedConns := closedConns + multiset{ap.conn};
      End(ap.h);
    }

    /** Terminates a process and closes its handle. */
    method End(h: nat)
      modifies `terminated, `closedHandles, `live
      ensures terminated == old(terminated) + multiset{h} && closedHandles == old(closedHandles) + multiset{h}
      ensures live == old(live) - {h}
    {
      terminated := terminated + multiset{h};
      live := live - {h};
      closedHandles := closedHandles + multiset{h};
    }

    method StopAgent(desk: string)
      requires Valid()
      modifies this
      ensures Valid()
      ensures Abs() == Without(old(Abs()), {desk})
    {
      hide Settles, Separate;
      WithoutDesk(Abs(), desk);
      if desk !in agents {
        return;
      }
      var ap := agents[desk];
      ghost var held := agents;
      agents := agents - {desk};
      Release(desk, ap, held);
    }

    lemma NothingLeft()
      requires Valid()
      ensures live - HandlesOf(agents, agents.Keys) == {} && agents - agents.Keys == map[]
    {
      AllDesks(agents);
    }

    lemma NothingRuns()
      requires Books(map[])
      ensures live == {}
    {
    }

    method KillAll()
      requires Valid()
      modifies this
      ensures Valid()
      ensures Abs() == Without(old(Abs()), old(agents).Keys).(writer := None)
    {
      hide Books, HandlesOf;
      NothingLeft();
      var left := agents;
      agents := map[];
      while left != map[]
        invariant Books(left)
        invariant Abs() == old(Abs()).(agents := map[], live := live)
        decreases left.Keys
      {
        var desk :| desk in left;
        Release(desk, left[desk], left);
        left := left - {desk};
      }
      NothingRuns();
      writer := None;
    }

    method StopAgents(desks: seq<string>)
      requires Valid()
      modifies this
      ensures Valid()
      ensures Abs() == Without(old(Abs()), Elements(desks))
    {
      hide Without, Elements;
      NoDesks(Abs());
      for k := 0 to |desks|
        invariant Valid()
        invariant Abs() == Without(old(Abs()), Elements(desks[..k]))
      {
        StopAgent(desks[k]);
        WithoutMore(old(Abs()), desks, k);
      }
      assert desks[..|desks|] == desks;
    }

    /** Asks of every agent whether its process still runs. */
    method FindDead(gone: set<nat>) returns (alive: set<string>, dead: seq<string>)
      ensures Elements(dead) == Dead(agents, gone)
      ensures alive == agents.Keys - Dead(agents, gone)
      ensures |dead| > 0 <==> Dead(agents, gone) != {}
    {
      alive, dead := {}, [];
      var left := agents.Keys;
      while left != {}
        invariant left <= agents.Keys
        invariant forall d :: d in dead <==> d in Dead(agents, gone) - left
        invariant alive == agents.Keys - left - Dead(agents, gone)
        decreases left
      {
        var d :| d in left;
        left := left - {d};
        if agents[d].h in gone {
          dead := dead + [d];
        } else {
          alive := alive + {d};
        }
      }
      if |dead| > 0 { assert dead[0] in dead; }
    }

    method SpawnAgents(sess: nat, start: seq<string>, spawn: string -> Outcome)
      requires Valid() && Fresh(start, agents)
      modifies this
      ensures Valid()
      ensures Abs() == SpawnAll(old(Abs()), sess, start, spawn)
    {
      for k := 0 to |start|
        invariant Valid() && Fresh(start[k..], agents)
        invariant SpawnAll(Abs(), sess, start[k..], spawn) == SpawnAll(old(Abs()), sess, start, spawn)
      {
        assert start[k..][0] == start[k] && start[k..][1..] == start[k + 1..];
        SpawnAgent(sess, start[k], spawn(start[k]));
      }
    }

    method RebindWriters()
      requires Valid()
      modifies `writer
      ensures Valid()
      ensures Abs() == old(Abs()).(writer := Targets(agents))
    {
      var ws := [];
      var left := agents;
      while left != map[]
        invariant Separate(left) && Conns(left) <= Conns(agents)
        invariant forall c :: c in ws <==> c in Conns(agents) - Conns(left)
        invariant forall i, j :: 0 <= i < j < |ws| ==> ws[i] != ws[j]
        decreases left.Keys
      {
        var d :| d in left;
        WithoutOne(left, d);
        assert left[d].conn !in ws;
        ws := ws + [left[d].conn];
        left := left - {d};
      }
      assert Elements(ws) == Conns(agents);
      NoTargets(agents);
      if |ws| == 0 {
        assert Conns(agents) == {};
        writer := None;
        return;
      }
      assert ws[0] in Conns(agents);
      writer := Some(ws);
    }

    /** Waits for a connection; a timeout abandons the Accept. */
    method AcceptWithTimeout(o: Outcome) returns (conn: Option<nat>)
      modifies `accepted, `peer, `taken, `orphans, `timeouts
      ensures conn == if Answered(old(Abs()), o) then Some(old(accepted) + 1) else None
      ensures Abs() == if Answered(old(Abs()), o) then Served(old(Abs()), o) else TimedOut(old(Abs()), o)
    {
      var t := Abs();
      if Answered(t, o) {
        accepted := accepted + 1;
        peer, taken := peer[accepted := From(t, o)], taken + {From(t, o)};
        return Some(accepted);
      }
      if Dials(t, o) || o.Late? {
        taken := taken + {From(t, o)};
      } else if !o.AcceptError? {
        orphans := orphans + 1;
      }
      timeouts := if o.AcceptError? then timeouts else timeouts + 1;
      return None;
    }

    /** The books while process h has been started and is not an agent yet. */
    ghost predicate Spawning(h: nat)
      reads this
    {
      && Separate(agents) && live == Handles(agents) + {h} && h !in Handles(agents)
      && Settles(live, spawned, closedHandles) && terminated == closedHandles
      && Settles(Conns(agents), accepted, closedConns)
    }

    method SpawnAgent(sess: nat, desk: string, o: Outcome)
      requires Valid() && desk !in agents
      modifies this
      ensures Valid()
      ensures Abs() == SpawnOne(old(Abs()), sess, desk, o)
    {
      hide Books, Spawning, Answered, Served, TimedOut;
      if o.NoToken? || o.NoProcess? {
        return;
      }
      var h := Start(sess, desk);
      ghost var t := Abs();
      var conn := AwaitAgent(h, o);
      if conn.None? {
        GiveUp(h);
      } else {
        Attach(desk, h, conn.value);
      }
    }

    method Start(sess: nat, desk: string) returns (h: nat)
      requires Books(agents)
      modifies `spawned, `homes, `live
      ensures h == spawned == old(spawned) + 1 && Spawning(h)
      ensures Abs() == Started(old(Abs()), sess, desk)
    {
      OneMoreOpen(Handles(agents), spawned, closedHandles);
      hide Settles, Separate;
      spawned := spawned + 1;
      live := live + {spawned};
      homes := homes[spawned := Home(sess, desk, UsesUserToken(desk))];
      h := spawned;
    }

    /** Whether or not a connection comes, the process stays on the books; the connection
        is to be closed or attached. */
    method AwaitAgent(h: nat, o: Outcome) returns (conn: Option<nat>)
      requires Spawning(h)
      modifies `accepted, `peer, `taken, `orphans, `timeouts
      ensures conn == if Answered(old(Abs()), o) then Some(old(accepted) + 1) else None
      ensures Abs() == if Answered(old(Abs()), o) then Served(old(Abs()), o) else TimedOut(old(Abs()), o)
      ensures conn.None? ==> Spawning(h)
      ensures conn.Some? ==> Attaching(h, conn.value)
    {
      OneMoreOpen(Conns(agents), accepted, closedConns);
      hide Settles, Separate, Answered;
      conn := AcceptWithTimeout(o);
    }

    ghost predicate Attaching(h: nat, conn: nat)
      reads this
    {
      && Separate(agents) && live == Handles(agents) + {h} && h !in Handles(agents) && conn !in Conns(agents)
      && Settles(live, spawned, closedHandles) && terminated == closedHandles
      && Settles(Conns(agents) + {conn}, accepted, closedConns)
    }

    method GiveUp(h: nat)
      requires Spawning(h)
      modifies `terminated, `closedHandles, `live
      ensures Books(agents)
      ensures Abs() == old(Abs()).(live := old(live) - {h})
    {
      OneClosed(live, spawned, closedHandles, h);
      hide Settles, Separate;
      End(h);
      assert live == Handles(agents);
    }

    method Attach(desk: string, h: nat, conn: nat)
      requires desk !in agents && Attaching(h, conn)
      modifies `agents
      ensures Books(agents)
      ensures Abs() == old(Abs()).(agents := old(agents)[desk := AgentProc(h, conn)])
    {
      hide Settles, Separate;
      WithOneMore(agents, desk, AgentProc(h, conn));
      agents := agents[desk := AgentProc(h, conn)];
    }

    method Reconcile(e: Env)
      requires Valid()
      modifies this
      ensures Valid()
      ensures Abs() == Tick(old(Abs()), e)
    {
      orphans := if e.broken <= orphans then orphans - e.broken else 0;
      ghost var s := Abs();
      var flags := Detect(e);
      if flags == None {
        return; // retry next tick
      }
      ReconcileTo(e, DesiredDesktops(flags.value), s);
    }

    method ReconcileTo(e: Env, want: seq<string>, ghost s: State)
      requires Valid() && s == Abs()
      requires forall i, j :: 0 <= i < j < |want| ==> want[i] != want[j]
      modifies this
      ensures Valid()
      ensures Abs() == Towards(s, e, want)
    {
      var sessChanged := e.sess != curSess;
      if sessChanged {
        KillAll();
        curSess := e.sess;
      }
      ghost var s1 := InSession(s, e.sess);
      assert Abs() == s1;
      var alive, dead := FindDead(e.dead);
      StopAgents(dead);
      assert agents.Keys == alive;
      ghost var s2 := Abs();
      var stop, start := PlanAgents(alive, want);
      assert Elements(stop) == Unwanted(agents, want);
      assert |stop| > 0 ==> stop[0] in Elements(stop);
      var changed := sessChanged || |dead| > 0 || |stop| > 0 || |start| > 0;
      StopAgents(stop);
      MissingIsFresh(want, s2.agents);
      SpawnAgents(e.sess, start, e.spawn);
      if changed {
        RebindWriters();
      }
    }

    /** The service's whole life: ticks until it is told to stop, then everything goes. */
    method Loop(es: seq<Env>)
      requires Valid()
      modifies this
      ensures Valid() && writer == None && agents == map[]
      ensures var t := Run(old(Abs()), es); Abs() == Without(t, t.agents.Keys).(writer := None)
      ensures forall h: nat :: terminated[h] == closedHandles[h] == if 0 < h <= spawned then 1 else 0
      ensures forall c: nat :: closedConns[c] == if 0 < c <= accepted then 1 else 0
    {
      for k := 0 to |es|
        invariant Valid()
        invariant Abs() == Run(old(Abs()), es[..k])
      {
        Reconcile(es[k]);
        assert es[..k + 1][..k] == es[..k];
      }
      assert es[..|es|] == es;
      KillAll();
    }
  }

  /** Nothing to broadcast to exactly when there are no agents. */
  lemma NoTargets(agents: map<string, AgentProc>)
    ensures Conns(agents) == {} <==> agents == map[]
  {
    if agents != map[] {
      var d :| d in agents;
      assert agents[d].conn in Conns(agents);
    }
  }

  // ---- What every run keeps ----

  /** Every agent was started for its own desktop, in session sess, with the right token. */
  ghost predicate AtHome(s: State, sess: nat) {
    && (forall h :: h in s.homes ==> h <= s.spawned)
    && (forall d :: d in s.agents ==> s.agents[d].h in s.homes && s.homes[s.agents[d].h] == Home(sess, d, UsesUserToken(d)))
  }

  lemma {:induction false} SpawningStaysHome(s: State, sess: nat, start: seq<string>, spawn: string -> Outcome)
    requires AtHome(s, sess)
    ensures var t := SpawnAll(s, sess, start, spawn);
            AtHome(t, sess) && t.agents.Keys <= s.agents.Keys + Elements(start) && t.curSess == s.curSess && t.writer == s.writer
    ensures start == [] ==> SpawnAll(s, sess, start, spawn) == s
    decreases |start|
  {
    if start != [] {
      var t := SpawnOne(s, sess, start[0], spawn(start[0]));
      assert AtHome(t, sess);
      SpawningStaysHome(t, sess, start[1..], spawn);
      assert Elements(start) == {start[0]} + Elements(start[1..]);
    }
  }

  /** What holds between ticks. */
  ghost predicate InStep(s: State, flags: Option<int>) {
    && s.writer == Targets(s.agents)
    && s.agents.Keys <= (if flags.Some? then Elements(DesiredDesktops(flags.value)) else {})
    && AtHome(s, s.curSess)
  }

  lemma WithoutStaysHome(s: State, desks: set<string>, sess: nat)
    requires AtHome(s, sess)
    ensures AtHome(Without(s, desks), sess)
  {
  }

  lemma BeforeIsHome(s: State, e: Env, want: seq<string>)
    requires AtHome(s, s.curSess)
    ensures AtHome(Before(s, e, want), e.sess) && Before(s, e, want).curSess == e.sess
  {
    WithoutStaysHome(s, s.agents.Keys, s.curSess);
    var t := InSession(s, e.sess);
    assert AtHome(t, e.sess);
    hide AtHome, InSession;
    WithoutStaysHome(t, Dead(t.agents, e.dead), e.sess);
    WithoutStaysHome(Reaped(s, e), ToStop(s, e, want), e.sess);
  }

  lemma NothingToDo(s: State, e: Env, want: seq<string>)
    requires e.sess == s.curSess && Dead(s.agents, e.dead) == {} && ToStop(s, e, want) == {}
    ensures Before(s, e, want) == s
  {
    NoDesks(s);
  }

  lemma TickKeepsStep(s: State, e: Env, flags: Option<int>)
    requires InStep(s, flags)
    ensures InStep(Tick(s, e), if Detect(e).Some? then Detect(e) else flags)
  {
    hide SpawnAll, DesiredDesktops, Before, ToStart, ToStop, Dead;
    if Detect(e).Some? {
      var want := DesiredDesktops(Detect(e).value);
      var u := Settled(s, e);
      var before, start := Before(u, e, want), ToStart(u, e, want);
      BeforeIsHome(u, e, want);
      SpawningStaysHome(before, e.sess, start, e.spawn);
      BeforeStarting(u, e, want);
      if e.sess == u.curSess && Dead(u.agents, e.dead) == {} && ToStop(u, e, want) == {} {
        NothingToDo(u, e, want);
      }
    }
  }

  lemma BeforeStarting(s: State, e: Env, want: seq<string>)
    ensures Before(s, e, want).agents.Keys + Elements(ToStart(s, e, want)) == Elements(want)
    ensures (forall i, j :: 0 <= i < j < |want| ==> want[i] != want[j]) ==>
              Fresh(ToStart(s, e, want), Before(s, e, want).agents)
  {
    MissingIsWanted(want, Reaped(s, e).agents.Keys);
    if forall i, j :: 0 <= i < j < |want| ==> want[i] != want[j] { MissingIsFresh(want, Reaped(s, e).agents); }
  }

  lemma {:induction false} MissingIsWanted(want: seq<string>, alive: set<string>)
    ensures forall d :: d in Missing(want, alive) <==> d in want && d !in alive
    ensures (forall d :: d in want ==> d in alive) ==> Missing(want, alive) == []
  {
    if want != [] { MissingIsWanted(want[1..], alive); }
  }

  /**
    After every tick of every run the writer's targets are exactly the connections of
    the agents (nil when there are none), the agents' desktops were wanted when the
    session was last seen, and all of them belong to the current session.
  */
  lemma {:induction false} AlwaysInStep(es: seq<Env>)
    ensures InStep(Run(INIT, es), LastFlags(es))
    decreases |es|
  {
    if es != [] {
      var n := |es| - 1;
      AlwaysInStep(es[..n]);
      TickKeepsStep(Run(INIT, es[..n]), es[n], LastFlags(es[..n]));
    }
  }

  // ---- Which process is behind a connection ----

  /** The processes that run are those of the agents. Each of them has connected, and the
      connection that the monitor keeps for it is its own. */
  ghost predicate Paired(s: State) {
    && Separate(s.agents) && s.live == Handles(s.agents) && s.live <= s.taken
    && (forall p <- s.taken :: p <= s.spawned)
    && (forall c <- s.peer :: c <= s.accepted)
    && (forall d <- s.agents :: s.agents[d].conn in s.peer && s.peer[s.agents[d].conn] == s.agents[d].h)
    && s.orphans <= s.timeouts
  }

  /** Whenever the monitor waits for a connection, only the process that it has just
      started can make one: every other is an agent already, or has been terminated. */
  lemma OnlyTheNewProcessDials(s: State, sess: nat, desk: string, p: nat)
    requires Paired(s)
    ensures var t := Started(s, sess, desk); p in t.live && p !in t.taken <==> p == t.spawned
  {
  }

  lemma SpawningOneStaysPaired(s: State, sess: nat, desk: string, o: Outcome)
    requires Paired(s) && desk !in s.agents
    ensures Paired(SpawnOne(s, sess, desk, o))
  {
    hide Handles, Conns, Separate;
    var t := Started(s, sess, desk);
    OnlyTheNewProcessDials(s, sess, desk, From(t, o));
    KnownAgents(s.agents);
    WithOneMore(s.agents, desk, AgentProc(t.spawned, t.accepted + 1));
    assert Dials(t, o) ==> From(t, o) == t.spawned;
    assert t.live - {t.spawned} == s.live;
  }

  lemma KnownAgents(agents: map<string, AgentProc>)
    ensures forall c <- Conns(agents) :: exists d :: d in agents && agents[d].conn == c
  {
  }

  lemma {:induction false} SpawningStaysPaired(s: State, sess: nat, start: seq<string>, spawn: string -> Outcome)
    requires Paired(s) && Fresh(start, s.agents)
    ensures Paired(SpawnAll(s, sess, start, spawn))
    decreases |start|
  {
    hide Paired;
    if start != [] {
      var t := SpawnOne(s, sess, start[0], spawn(start[0]));
      SpawningOneStaysPaired(s, sess, start[0], spawn(start[0]));
      assert forall i :: 0 <= i < |start[1..]| ==> start[1..][i] == start[i + 1];
      assert Fresh(start[1..], t.agents);
      SpawningStaysPaired(t, sess, start[1..], spawn);
    }
  }

  lemma WithoutStaysPaired(s: State, desks: set<string>)
    requires Paired(s)
    ensures Paired(Without(s, desks))
  {
    var t := Without(s, desks);
    forall h ensures h in t.live <==> h in Handles(t.agents) {
      if h in t.live {
        var d :| d in s.agents && s.agents[d].h == h;
        assert d in t.agents && t.agents[d].h == h;
      }
    }
  }

  lemma BeforeIsPaired(s: State, e: Env, want: seq<string>)
    requires Paired(s)
    ensures Paired(Before(s, e, want))
  {
    hide Without, Paired;
    WithoutStaysPaired(s, s.agents.Keys);
    MarksDoNotMatter(Without(s, s.agents.Keys), None, e.sess);
    var t := InSession(s, e.sess);
    WithoutStaysPaired(t, Dead(t.agents, e.dead));
    WithoutStaysPaired(Reaped(s, e), ToStop(s, e, want));
  }

  lemma MarksDoNotMatter(s: State, writer: Option<set<nat>>, sess: nat)
    requires Paired(s)
    ensures Paired(s.(writer := writer, curSess := sess))
  {
  }

  /** In every run, whatever times out, dies or fails, each agent's connection leads to the
      process started for its desktop; and no Accept is abandoned without a timeout. */
  lemma {:induction false} AlwaysPaired(es: seq<Env>)
    ensures Paired(Run(INIT, es))
    decreases |es|
  {
    hide Paired;
    if es == [] {
      StartsPaired();
    } else {
      AlwaysPaired(es[..|es| - 1]);
      TickStaysPaired(Run(INIT, es[..|es| - 1]), es[|es| - 1]);
    }
  }

  lemma StartsPaired()
    ensures Paired(INIT)
  {
  }

  lemma TickStaysPaired(s: State, e: Env)
    requires Paired(s)
    ensures Paired(Tick(s, e))
  {
    hide Before, SpawnAll, ToStart, ToStop, DesiredDesktops;
    var u := Settled(s, e);
    assert Paired(u);
    if Detect(e).Some? {
      var want := DesiredDesktops(Detect(e).value);
      BeforeIsPaired(u, e, want);
      TickStarts(s, e);
      SpawningStaysPaired(Before(u, e, want), e.sess, ToStart(u, e, want), e.spawn);
      var t := SpawnAll(Before(u, e, want), e.sess, ToStart(u, e, want), e.spawn);
      MarksDoNotMatter(t, Targets(t.agents), t.curSess);
    }
  }

  // ---- What an abandoned Accept does ----

  /** Abandoned Accepts do not fail, and are served before the one that waits. */
  ghost predicate ServedFirst(e: Env) {
    e.broken == 0 && forall d :: e.spawn(d).Connects? ==> e.spawn(d).stolen
  }

  lemma {:induction false} AllStolen(s: State, sess: nat, start: seq<string>, spawn: string -> Outcome)
    requires s.orphans > 0
    requires forall d :: d in start && spawn(d).Connects? ==> spawn(d).stolen
    ensures var t := SpawnAll(s, sess, start, spawn); t.agents == s.agents && t.accepted == s.accepted && t.orphans > 0
    decreases |start|
  {
    if start != [] { AllStolen(SpawnOne(s, sess, start[0], spawn(start[0])), sess, start[1..], spawn); }
  }

  /** The agents now are some of those that were. */
  predicate Kept(now: map<string, AgentProc>, was: map<string, AgentProc>) {
    forall d <- now :: d in was && now[d] == was[d]
  }

  lemma TickIsStolen(s: State, e: Env)
    requires s.orphans > 0 && ServedFirst(e)
    ensures var t := Tick(s, e); Kept(t.agents, s.agents) && t.accepted == s.accepted && t.orphans > 0
  {
    hide SpawnAll;
    if Detect(e).Some? {
      var want := DesiredDesktops(Detect(e).value);
      AllStolen(Before(Settled(s, e), e, want), e.sess, ToStart(Settled(s, e), e, want), e.spawn);
    }
  }

  /** The gap: one abandoned Accept that is served first never goes away. Each process
      started from then on loses its connection to an abandoned Accept and is ended after
      the timeout, which abandons the next one; so nothing is ever bound again. */
  lemma {:induction false} NeverBoundAgain(s: State, es: seq<Env>)
    requires s.orphans > 0 && forall e <- es :: ServedFirst(e)
    ensures var t := Run(s, es); Kept(t.agents, s.agents) && t.accepted == s.accepted && t.orphans > 0
    decreases |es|
  {
    hide Tick, ServedFirst;
    if es != [] {
      var n := |es| - 1;
      forall e <- es[..n] ensures ServedFirst(e) { assert e in es; }
      NeverBoundAgain(s, es[..n]);
      assert es[n] in es;
      TickIsStolen(Run(s, es[..n]), es[n]);
    }
  }

  lemma {:induction false} RunAfter(s: State, a: seq<Env>, b: seq<Env>)
    ensures Run(s, a + b) == Run(Run(s, a), b)
    decreases |b|
  {
    hide Tick;
    if b == [] {
      assert a + b == a;
    } else {
      assert (a + b)[..|a + b| - 1] == a + b[..|b| - 1];
      RunAfter(s, a, b[..|b| - 1]);
    }
  }

  lemma {:induction false} NothingAlive(want: seq<string>)
    ensures Missing(want, {}) == want
  {
    if want != [] { NothingAlive(want[1..]); }
  }

  /** The first tick that sees a session starts every wanted agent, Default first. */
  lemma FirstTick(a: Env)
    requires Detect(a).Some?
    ensures var want := DesiredDesktops(Detect(a).value);
            && want != [] && want[0] == "Default" && ToStart(Settled(INIT, a), a, want) == want
            && Before(Settled(INIT, a), a, want).agents == map[]
  {
    hide Missing;
    var want := DesiredDesktops(Detect(a).value);
    assert Reaped(Settled(INIT, a), a).agents == map[];
    assert Reaped(Settled(INIT, a), a).agents.Keys == {};
    NothingAlive(want);
  }

  /** So a single timeout, of the very first agent, can keep the service from ever having
      an agent, although every later process connects in time. */
  lemma OneTimeoutIsEnough(a: Env, es: seq<Env>)
    requires Detect(a).Some? && a.spawn("Default") == Silent
    requires forall d <- DesiredDesktops(Detect(a).value) :: a.spawn(d).Connects? ==> a.spawn(d).stolen
    requires forall e <- es :: ServedFirst(e)
    ensures Run(INIT, [a] + es).agents == map[]
  {
    hide Tick, ServedFirst, DesiredDesktops, Before, ToStart;
    var want := DesiredDesktops(Detect(a).value);
    var s := Before(Settled(INIT, a), a, want);
    FirstTick(a);
    TickStarts(INIT, a);
    AllStolen(SpawnOne(s, a.sess, "Default", Silent), a.sess, want[1..], a.spawn);
    TickOrphans(INIT, a);
    assert [a][..0] == [];
    assert Run(INIT, [a]) == Tick(INIT, a);
    RunAfter(INIT, [a], es);
    NeverBoundAgain(Tick(INIT, a), es);
    assert Tick(INIT, a).agents == map[];
  }

  lemma TickOrphans(s: State, e: Env)
    requires Detect(e).Some?
    ensures var want, u := DesiredDesktops(Detect(e).value), Settled(s, e);
            Tick(s, e).orphans == SpawnAll(Before(u, e, want), e.sess, ToStart(u, e, want), e.spawn).orphans
  {
  }

  // ---- Convergence ----

  /** The process just started connects before the timeout. */
  predicate InTime(o: Outcome) {
    o.Connects? && o.from.None?
  }

  lemma OneConnect(s: State, sess: nat, d: string, o: Outcome)
    requires s.orphans == 0 && InTime(o)
    ensures var t := SpawnOne(s, sess, d, o);
            t.agents == s.agents[d := AgentProc(s.spawned + 1, s.accepted + 1)] && t.orphans == 0 && t.spawned == s.spawned + 1
  {
  }

  /** With no abandoned Accept about, processes that connect in time are all bound, in
      the order they are started. */
  lemma {:induction false} AllConnect(s: State, sess: nat, start: seq<string>, spawn: string -> Outcome)
    requires s.orphans == 0 && Fresh(start, s.agents)
    requires forall d :: d in start ==> InTime(spawn(d))
    ensures var t := SpawnAll(s, sess, start, spawn);
            && t.agents.Keys == s.agents.Keys + Elements(start)
            && (forall d :: d in s.agents ==> t.agents[d] == s.agents[d])
            && (forall i :: 0 <= i < |start| ==> start[i] in t.agents && t.agents[start[i]].h == s.spawned + 1 + i)
    decreases |start|
  {
    hide SpawnOne;
    if start != [] {
      var d, rest := start[0], start[1..];
      var t := SpawnOne(s, sess, d, spawn(d));
      OneConnect(s, sess, d, spawn(d));
      assert forall i :: 0 <= i < |rest| ==> rest[i] == start[i + 1];
      assert Fresh(rest, t.agents);
      AllConnect(t, sess, rest, spawn);
      assert Elements(start) == {d} + Elements(rest);
    } else {
      assert Elements(start) == {};
    }
  }

  lemma TickStarts(s: State, e: Env)
    requires Detect(e).Some?
    ensures var want, u := DesiredDesktops(Detect(e).value), Settled(s, e);
            && Tick(s, e).agents == SpawnAll(Before(u, e, want), e.sess, ToStart(u, e, want), e.spawn).agents
            && Before(u, e, want).orphans == u.orphans
            && Fresh(ToStart(u, e, want), Before(u, e, want).agents)
            && Before(u, e, want).agents.Keys + Elements(ToStart(u, e, want)) == Elements(want)
  {
    BeforeStarting(Settled(s, e), e, DesiredDesktops(Detect(e).value));
  }

  /** When every process started connects in time and no abandoned Accept is about, one
      tick from any state reaches exactly the desired desktops, the curtain's agent first. */
  lemma Converges(s: State, e: Env)
    requires Detect(e).Some? && Settled(s, e).orphans == 0
    requires forall d :: InTime(e.spawn(d))
    ensures var want := DesiredDesktops(Detect(e).value);
            var start, t := ToStart(Settled(s, e), e, want), Tick(s, e);
            && t.agents.Keys == Elements(want)
            && (forall i :: 0 <= i < |start| ==> start[i] in t.agents)
            && (forall i, j :: 0 <= i < j < |start| ==> t.agents[start[i]].h < t.agents[start[j]].h)
  {
    hide Tick, SpawnAll, Before, ToStart, DesiredDesktops;
    var want, u := DesiredDesktops(Detect(e).value), Settled(s, e);
    TickStarts(s, e);
    AllConnect(Before(u, e, want), e.sess, ToStart(u, e, want), e.spawn);
    assert forall i :: 0 <= i < |ToStart(u, e, want)| ==> ToStart(u, e, want)[i] in Elements(ToStart(u, e, want));
  }

  /** The started desktops whose connections are not stolen. */
  function Unstolen(start: seq<string>, spawn: string -> Outcome): set<string> {
    set d | d in start && !(spawn(d).Connects? && spawn(d).stolen)
  }

  /** With an abandoned Accept about, exactly those are bound whose connection it leaves. */
  lemma {:induction false} SomeConnect(s: State, sess: nat, start: seq<string>, spawn: string -> Outcome)
    requires s.orphans > 0 && forall d <- start :: InTime(spawn(d))
    ensures SpawnAll(s, sess, start, spawn).agents.Keys == s.agents.Keys + Unstolen(start, spawn)
    decreases |start|
  {
    if start != [] {
      SomeConnect(SpawnOne(s, sess, start[0], spawn(start[0])), sess, start[1..], spawn);
      assert start == [start[0]] + start[1..];
    }
  }

  /** If every process started connects in time, a tick reaches exactly the desired
      desktops if and only if no abandoned Accept is about or it takes none of the
      connections. */
  lemma ConvergesOnlyIf(s: State, e: Env)
    requires Detect(e).Some?
    requires forall d :: InTime(e.spawn(d))
    ensures var want, u := DesiredDesktops(Detect(e).value), Settled(s, e);
            Tick(s, e).agents.Keys == Elements(want) <==>
              u.orphans == 0 || forall d <- ToStart(u, e, want) :: e.spawn(d) == Connects(None, false)
  {
    hide Tick, SpawnAll, Before, ToStart, DesiredDesktops;
    var want, u := DesiredDesktops(Detect(e).value), Settled(s, e);
    TickStarts(s, e);
    var start := ToStart(u, e, want);
    if u.orphans == 0 {
      AllConnect(Before(u, e, want), e.sess, start, e.spawn);
    } else {
      SomeConnect(Before(u, e, want), e.sess, start, e.spawn);
      forall d <- start ensures d in Elements(want) && InTime(e.spawn(d)) { assert d in Elements(start); }
    }
  }

  /** Session and processes last, and the flags still ask for these desktops. */
  ghost predicate Stable(s: State, e: Env) {
    && Detect(e).Some? && e.sess == s.curSess && Dead(s.agents, e.dead) == {}
    && s.agents.Keys == Elements(DesiredDesktops(Detect(e).value))
  }

  lemma TickChangesNothing(s: State, e: Env)
    requires Stable(s, e)
    ensures Tick(s, e) == Settled(s, e)
  {
    var u := Settled(s, e);
    var want := DesiredDesktops(Detect(e).value);
    NoDesks(u);
    MissingIsWanted(want, s.agents.Keys);
    assert Reaped(u, e) == u;
    assert Unwanted(s.agents, want) == {};
  }

  /** Once reached, nothing changes any more for as long as the ticks are stable; at most
      some abandoned Accepts come to an end. */
  lemma {:induction false} StaysConverged(s: State, es: seq<Env>)
    requires forall e <- es :: Stable(s, e)
    ensures var t := Run(s, es); t == s.(orphans := t.orphans) && t.orphans <= s.orphans
    decreases |es|
  {
    hide Tick, DesiredDesktops;
    if es != [] {
      var n := |es| - 1;
      forall e <- es[..n] ensures Stable(s, e) { assert e in es; }
      StaysConverged(s, es[..n]);
      assert es[n] in es && Stable(s, es[n]);
      TickChangesNothing(Run(s, es[..n]), es[n]);
    }
  }

  lemma {:induction false} OneConnects(s: State, sess: nat, start: seq<string>, spawn: string -> Outcome, d: string)
    requires d in s.agents || (d in start && spawn(d) == Connects(None, false))
    ensures d in SpawnAll(s, sess, start, spawn).agents
    decreases |start|
  {
    if start != [] {
      var t := SpawnOne(s, sess, start[0], spawn(start[0]));
      assert d == start[0] || d in start[1..] || d in s.agents;
      OneConnects(t, sess, start[1..], spawn, d);
    }
  }

  /** A wanted desktop whose agent failed to start is tried again on the next tick. */
  lemma Retried(s: State, e: Env, d: string)
    requires Detect(e).Some? && d in DesiredDesktops(Detect(e).value) && e.spawn(d) == Connects(None, false)
    ensures d in Tick(s, e).agents
  {
    var want, u := DesiredDesktops(Detect(e).value), Settled(s, e);
    BeforeStarting(u, e, want);
    assert d in Elements(want);
    OneConnects(Before(u, e, want), e.sess, ToStart(u, e, want), e.spawn, d);
  }

  // ---- In so many words ----

  /** In a locked session a tick ends with exactly these two agents, the curtain's first. */
  lemma LockedTick(s: State, e: Env)
    requires e.sess != 0xFFFF_FFFF && e.query == Some(0)
    requires (forall d :: InTime(e.spawn(d))) && (s.orphans <= e.broken || forall d :: e.spawn(d) == Connects(None, false))
    ensures var t := Tick(s, e);
            && t.agents.Keys == {"Default", "Winlogon"}
            && (Paired(s) && t.agents["Default"].h > s.spawned && t.agents["Winlogon"].h > s.spawned ==>
                  t.agents["Default"].h < t.agents["Winlogon"].h)
  {
    hide Tick, SpawnAll, Before, ToStart;
    var want, u := DesiredDesktops(0), Settled(s, e);
    assert want == ["Default", "Winlogon"];
    assert Elements(want) == {"Default", "Winlogon"};
    ConvergesOnlyIf(s, e);
    TickStarts(s, e);
    BeforeSpawned(u, e, want);
    LockedStart(u, e);
    if Paired(s) {
      KnownHandles(s);
      StartsInOrder(Before(u, e, want), e.sess, ToStart(u, e, want), e.spawn);
    }
  }

  /** In any other session it ends with exactly this one. */
  lemma UnlockedTick(s: State, e: Env, flags: int)
    requires e.sess != 0xFFFF_FFFF && e.query == Some(flags) && flags != 0
    requires (forall d :: InTime(e.spawn(d))) && (s.orphans <= e.broken || forall d :: e.spawn(d) == Connects(None, false))
    ensures Tick(s, e).agents.Keys == {"Default"}
  {
    hide Tick, ToStart;
    assert DesiredDesktops(flags) == ["Default"];
    assert Elements(["Default"]) == {"Default"};
    ConvergesOnlyIf(s, e);
  }

  /** Without a session, or without an answer about it, nothing happens. */
  lemma BlindTick(s: State, e: Env)
    requires e.sess == 0xFFFF_FFFF || e.query == None
    ensures Tick(s, e) == s.(orphans := Tick(s, e).orphans)
  {
  }

  lemma KnownHandles(s: State)
    requires Paired(s)
    ensures forall d <- s.agents :: s.agents[d].h <= s.spawned
  {
    forall d <- s.agents ensures s.agents[d].h in Handles(s.agents) {}
  }

  predicate Wanted(desk: string, flags: int) {
    desk == "Default" || (desk == "Winlogon" && flags == 0)
  }

  /** A tick keeps exactly the agents of the same session whose processes live and whose
      desktops are wanted; every other agent it ends with was started by it, for a wanted
      desktop, and has connected. */
  lemma TickKeeps(s: State, e: Env, flags: int)
    requires Paired(s) && e.sess != 0xFFFF_FFFF && e.query == Some(flags)
    ensures var t := Tick(s, e);
            && t.curSess == e.sess
            && (forall d <- s.agents :: e.sess == s.curSess && s.agents[d].h !in e.dead && Wanted(d, flags) ==>
                  d in t.agents && t.agents[d] == s.agents[d])
            && (forall d <- t.agents :: Wanted(d, flags) &&
                  if t.agents[d].h > s.spawned then e.spawn(d).Connects?
                  else e.sess == s.curSess && t.agents[d].h !in e.dead && d in s.agents && t.agents[d] == s.agents[d])
  {
    hide SpawnAll, ToStart, DesiredDesktops, Paired, Before;
    var want, u := DesiredDesktops(flags), Settled(s, e);
    var b, start := Before(u, e, want), ToStart(u, e, want);
    WantedDesktops(flags);
    TickStarts(s, e);
    KnownHandles(s);
    BeforeSpawned(u, e, want);
    BeforeKeeps(u, e, want);
    StartsInOrder(b, e.sess, start, e.spawn);
    assert forall d <- start :: d in Elements(start);
    SpawnKeepsSession(b, e.sess, start, e.spawn);
  }

  lemma WantedDesktops(flags: int)
    ensures forall d :: d in DesiredDesktops(flags) <==> Wanted(d, flags)
    ensures forall d :: d in Elements(DesiredDesktops(flags)) <==> Wanted(d, flags)
  {
  }

  lemma BeforeKeeps(s: State, e: Env, want: seq<string>)
    ensures var b := Before(s, e, want);
            && b.curSess == e.sess
            && (forall d :: d in b.agents <==> d in s.agents && e.sess == s.curSess && s.agents[d].h !in e.dead && d in want)
  {
  }

  lemma {:induction false} SpawnKeepsSession(s: State, sess: nat, start: seq<string>, spawn: string -> Outcome)
    ensures SpawnAll(s, sess, start, spawn).curSess == s.curSess
    decreases |start|
  {
    if start != [] { SpawnKeepsSession(SpawnOne(s, sess, start[0], spawn(start[0])), sess, start[1..], spawn); }
  }

  /** In every run there are agents on these desktops only, started there in the current
      session, on Default with the user's token and on Winlogon with the system's. */
  lemma TokensAreRight(es: seq<Env>)
    ensures var s := Run(INIT, es);
            && (forall d <- s.agents :: d == "Default" || d == "Winlogon")
            && (forall d <- s.agents :: s.agents[d].h in s.homes)
            && ("Default" in s.agents ==> s.homes[s.agents["Default"].h] == Home(s.curSess, "Default", true))
            && ("Winlogon" in s.agents ==> s.homes[s.agents["Winlogon"].h] == Home(s.curSess, "Winlogon", false))
  {
    hide Run, DesiredDesktops;
    AlwaysInStep(es);
    if LastFlags(es).Some? { WantedDesktops(LastFlags(es).value); }
  }

  lemma BeforeSpawned(s: State, e: Env, want: seq<string>)
    ensures Before(s, e, want).spawned == s.spawned && forall d <- Before(s, e, want).agents :: d in s.agents && Before(s, e, want).agents[d] == s.agents[d]
  {
  }

  lemma LockedStart(s: State, e: Env)
    ensures var start := ToStart(s, e, ["Default", "Winlogon"]); "Default" in start && "Winlogon" in start ==> start == ["Default", "Winlogon"]
  {
    hide Reaped;
    var alive := Reaped(s, e).agents.Keys;
    assert ["Default", "Winlogon"][1..] == ["Winlogon"] && ["Winlogon"][1..] == [];
    assert Missing(["Winlogon"], alive) == (if "Winlogon" in alive then [] else ["Winlogon"]) + Missing([], alive);
  }

  /** Agents of one tick get the numbers of their processes in the order of the list. */
  lemma {:induction false} StartsInOrder(s: State, sess: nat, start: seq<string>, spawn: string -> Outcome)
    requires Fresh(start, s.agents) && forall d <- s.agents :: s.agents[d].h <= s.spawned
    ensures var t := SpawnAll(s, sess, start, spawn);
            && (forall d <- s.agents :: d in t.agents && t.agents[d] == s.agents[d])
            && (forall d <- t.agents :: d in s.agents || (d in start && t.agents[d].h > s.spawned && spawn(d).Connects?))
            && (forall i, j :: 0 <= i < j < |start| && start[i] in t.agents && start[j] in t.agents ==>
                  t.agents[start[i]].h < t.agents[start[j]].h)
    decreases |start|
  {
    hide Started, Answered, Served, TimedOut;
    if start != [] {
      var t := SpawnOne(s, sess, start[0], spawn(start[0]));
      OneStart(s, sess, start[0], spawn(start[0]));
      assert forall i :: 0 <= i < |start[1..]| ==> start[1..][i] == start[i + 1];
      StartsInOrder(t, sess, start[1..], spawn);
    }
  }

  lemma OneStart(s: State, sess: nat, desk: string, o: Outcome)
    ensures var t := SpawnOne(s, sess, desk, o);
            && s.spawned <= t.spawned
            && (t.agents == s.agents || (o.Connects? && t.spawned == s.spawned + 1 && desk in t.agents && t.agents[desk].h == t.spawned
                && t.agents == s.agents[desk := t.agents[desk]]))
  {
  }
}
