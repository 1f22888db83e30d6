/**
  The service as a whole (server/service_windows.go, server/pipe_inject.go): the monitor's
  ticks interleaved with the clients' calls. A connection is a target of the broadcast writer.
*/
module ServiceRuns {
  import opened Prelude
  import opened JsonRecord
  import opened PipeFraming
  import opened Injection
  import opened AgentMonitor

  /** A call of a client; taken(t) bounds the bytes that connection t accepts. */
  datatype Emitted = Emitted(client: nat, call: Call, taken: nat -> nat)

  /** Clients go on calling while a tick waits for the agents that it starts. */
  datatype Happening = Called(m: Emitted) | Ticked(e: Env, during: seq<Emitted>)

  function Next(s: State, h: Happening): State {
    if h.Ticked? then Tick(s, h.e) else s
  }

  function After(s: State, hs: seq<Happening>): State
    decreases |hs|
  {
    if hs == [] then s else After(Next(s, hs[0]), hs[1..])
  }

  /** The agents that a tick has not stopped when it comes to start others. */
  function Staying(s: State, e: Env): map<string, AgentProc> {
    if Detect(e).None? then s.agents else Before(Settled(s, e), e, DesiredDesktops(Detect(e).value)).agents
  }

  // ---- What the broadcast writer sees ----

  /** A connection that has been closed accepts nothing. */
  function Sending(m: Emitted, open: set<nat>): Action {
    Send(m.client, m.call, t => if t in open then m.taken(t) else 0)
  }

  function Sendings(ms: seq<Emitted>, open: set<nat>): seq<Action> {
    seq(|ms|, i requires 0 <= i < |ms| => Sending(ms[i], open))
  }

  function Binding(writer: Option<set<nat>>): Action {
    Bind(if writer.Some? then writer.value else {})
  }

  /** A change of session unbinds the writer; when a tick ends it is bound to what the
      monitor says, which is the same again if the tick has left it alone. */
  function Actions(s: State, h: Happening): seq<Action> {
    match h
    case Called(m) => Sendings([m], Conns(s.agents))
    case Ticked(e, during) =>
      (if Detect(e).Some? && e.sess != s.curSess then [Bind({})] else []) +
      Sendings(during, Conns(Staying(s, e))) + [Binding(Tick(s, e).writer)]
  }

  function History(s: State, hs: seq<Happening>): seq<Action>
    decreases |hs|
  {
    if hs == [] then [] else Actions(s, hs[0]) + History(Next(s, hs[0]), hs[1..])
  }

  // ---- What an agent should hear ----

  function CallsOf(ms: seq<Emitted>): seq<Call> {
    seq(|ms|, i requires 0 <= i < |ms| => ms[i].call)
  }

  function EmittedIn(h: Happening): seq<Emitted> {
    match h
    case Called(m) => [m]
    case Ticked(_, during) => during
  }

  function AllEmitted(hs: seq<Happening>): seq<Emitted>
    decreases |hs|
  {
    if hs == [] then [] else EmittedIn(hs[0]) + AllEmitted(hs[1..])
  }

  /** The connections of agents that live through what happens. */
  function Open(s: State, h: Happening): set<nat> {
    match h
    case Called(_) => Conns(s.agents)
    case Ticked(e, _) => Conns(Staying(s, e))
  }

  /** The calls emitted while connection t belongs to an agent. */
  function HeardBy(t: nat, s: State, hs: seq<Happening>): seq<Emitted>
    decreases |hs|
  {
    if hs == [] then []
    else (if t in Open(s, hs[0]) then EmittedIn(hs[0]) else []) + HeardBy(t, Next(s, hs[0]), hs[1..])
  }

  /** Connection t takes these frames whole. */
  ghost predicate Takes(t: nat, ms: seq<Emitted>) {
    forall i :: 0 <= i < |ms| ==> ms[i].taken(t) >= |Encode(Event(ms[i].call))|
  }

  // ---- The bytes on one connection ----

  function BoundAfter(acts: seq<Action>, bound: set<nat>): set<nat>
    decreases |acts|
  {
    if acts == [] then bound else BoundAfter(acts[1..], if acts[0].Bind? then acts[0].targets else bound)
  }

  /** What reaches connection t. */
  function Arrives(t: nat, acts: seq<Action>, bound: set<nat>): string {
    WritesArePossible(t, acts, bound);
    Stream(WritesTo(t, acts, bound))
  }

  function FramesOf(ms: seq<Emitted>): string {
    Frames(Events(CallsOf(ms)))
  }

  lemma {:induction false} StreamAppend(a: seq<Write>, b: seq<Write>)
    requires AllPossible(a) && AllPossible(b)
    ensures AllPossible(a + b) && Stream(a + b) == Stream(a) + Stream(b)
    decreases |a|
  {
    hide Encode;
    if a == [] {
      assert a + b == b;
    } else {
      assert (a + b)[0] == a[0] && (a + b)[1..] == a[1..] + b;
      StreamAppend(a[1..], b);
    }
  }

  lemma {:induction false} WritesAppend(t: nat, a: seq<Action>, b: seq<Action>, bound: set<nat>)
    ensures WritesTo(t, a + b, bound) == WritesTo(t, a, bound) + WritesTo(t, b, BoundAfter(a, bound))
    ensures BoundAfter(a + b, bound) == BoundAfter(b, BoundAfter(a, bound))
    decreases |a|
  {
    hide Accepted;
    if a == [] {
      assert a + b == b;
    } else {
      assert (a + b)[0] == a[0] && (a + b)[1..] == a[1..] + b;
      WritesAppend(t, a[1..], b, if a[0].Bind? then a[0].targets else bound);
    }
  }

  lemma ArrivesAppend(t: nat, a: seq<Action>, b: seq<Action>, bound: set<nat>)
    ensures Arrives(t, a + b, bound) == Arrives(t, a, bound) + Arrives(t, b, BoundAfter(a, bound))
    ensures BoundAfter(a + b, bound) == BoundAfter(b, BoundAfter(a, bound))
  {
    hide WritesTo, Stream, AllPossible;
    WritesAppend(t, a, b, bound);
    WritesArePossible(t, a, bound);
    WritesArePossible(t, b, BoundAfter(a, bound));
    StreamAppend(WritesTo(t, a, bound), WritesTo(t, b, BoundAfter(a, bound)));
  }

  lemma {:induction false} FramesAppend(a: seq<Emitted>, b: seq<Emitted>)
    ensures FramesOf(a + b) == FramesOf(a) + FramesOf(b)
    decreases |a|
  {
    hide Encode, Event;
    if a == [] {
      assert a + b == b;
      assert CallsOf(a) == [] && Events([]) == [];
    } else {
      FramesAppend(a[1..], b);
      FramesFirst(a + b);
      FramesFirst(a);
      assert (a + b)[0] == a[0] && (a + b)[1..] == a[1..] + b;
    }
  }

  lemma FramesFirst(ms: seq<Emitted>)
    requires ms != []
    ensures FramesOf(ms) == Encode(Event(ms[0].call)) + FramesOf(ms[1..])
  {
    hide Encode, Event;
    assert Events(CallsOf(ms))[1..] == Events(CallsOf(ms[1..]));
  }

  /** One call arrives whole at an open connection, and not at all at any other. */
  lemma OneArrives(t: nat, m: Emitted, open: set<nat>, bound: set<nat>)
    requires t in open ==> t in bound && m.taken(t) >= |Encode(Event(m.call))|
    ensures Arrives(t, [Sending(m, open)], bound) == if t in open then Encode(Event(m.call)) else ""
  {
    hide Encode, Event, Stream;
    var frame := Encode(Event(m.call));
    var acts := [Sending(m, open)];
    assert acts[1..] == [];
    assert WritesTo(t, [], bound) == [];
    assert frame[..|frame|] == frame && frame[..0] == "";
    if t in bound {
      var w := Accepted(m.call, acts[0].taken(t));
      assert WritesTo(t, acts, bound) == [w] + WritesTo(t, [], bound) == [w];
      OneWrite(w);
    } else {
      NoWrites();
    }
  }

  lemma OneWrite(w: Write)
    requires Possible(w)
    ensures AllPossible([w]) && Stream([w]) == Encode(w.m)[..w.sent]
  {
    hide Encode;
    assert [w][1..] == [];
    assert Encode(w.m)[..w.sent] + "" == Encode(w.m)[..w.sent];
  }

  lemma NoWrites()
    ensures AllPossible([]) && Stream([]) == ""
  {
  }

  lemma {:induction false} SendingsArrive(t: nat, ms: seq<Emitted>, open: set<nat>, bound: set<nat>)
    requires t in open ==> t in bound && Takes(t, ms)
    ensures Arrives(t, Sendings(ms, open), bound) == if t in open then FramesOf(ms) else ""
    ensures BoundAfter(Sendings(ms, open), bound) == bound
    decreases |ms|
  {
    hide Arrives, FramesOf, Sending, Encode, Event;
    if ms == [] {
      assert Sendings(ms, open) == [];
      NothingArrives(t, bound);
    } else {
      var first, rest := [Sending(ms[0], open)], Sendings(ms[1..], open);
      assert Sendings(ms, open) == first + rest;
      SendingsArrive(t, ms[1..], open, bound);
      OneArrives(t, ms[0], open, bound);
      SendsDoNotBind(ms[0], open, bound);
      ArrivesAppend(t, first, rest, bound);
      FramesFirst(ms);
    }
  }

  lemma SendsDoNotBind(m: Emitted, open: set<nat>, bound: set<nat>)
    ensures BoundAfter([Sending(m, open)], bound) == bound
  {
  }

  lemma NothingArrives(t: nat, bound: set<nat>)
    ensures Arrives(t, [], bound) == "" && FramesOf([]) == ""
  {
  }

  lemma BindArrives(t: nat, targets: set<nat>, bound: set<nat>)
    ensures Arrives(t, [Bind(targets)], bound) == "" && BoundAfter([Bind(targets)], bound) == targets
  {
    var acts := [Bind(targets)];
    assert acts[1..] == [] && WritesTo(t, acts, bound) == WritesTo(t, [], targets) == [];
    NoWrites();
  }

  // ---- The writer follows the agents ----

  lemma StayingWereThere(s: State, e: Env)
    ensures Conns(Staying(s, e)) <= Conns(s.agents)
    ensures Detect(e).Some? && e.sess != s.curSess ==> Staying(s, e) == map[]
  {
    if Detect(e).Some? {
      var u := Settled(s, e);
      assert forall d <- Staying(s, e) :: d in s.agents && Staying(s, e)[d] == s.agents[d];
    }
  }

  /** One happening: the writer stays in step, and an open connection gets the frames. */
  lemma HappeningArrives(t: nat, s: State, h: Happening)
    requires s.writer == Targets(s.agents) && Next(s, h).writer == Targets(Next(s, h).agents)
    requires t in Open(s, h) ==> Takes(t, EmittedIn(h))
    ensures Arrives(t, Actions(s, h), Conns(s.agents)) == if t in Open(s, h) then FramesOf(EmittedIn(h)) else ""
    ensures BoundAfter(Actions(s, h), Conns(s.agents)) == Conns(Next(s, h).agents)
  {
    hide Arrives, FramesOf, Takes, Sendings, Tick, Staying;
    match h
    case Called(m) => SendingsArrive(t, [m], Conns(s.agents), Conns(s.agents));
    case Ticked(e, during) => TickArrives(t, s, e, during);
  }

  lemma TickArrives(t: nat, s: State, e: Env, during: seq<Emitted>)
    requires Tick(s, e).writer == Targets(Tick(s, e).agents)
    requires t in Conns(Staying(s, e)) ==> Takes(t, during)
    ensures var h := Ticked(e, during);
            && Arrives(t, Actions(s, h), Conns(s.agents)) == (if t in Conns(Staying(s, e)) then FramesOf(during) else "")
            && BoundAfter(Actions(s, h), Conns(s.agents)) == Conns(Tick(s, e).agents)
  {
    hide Arrives, FramesOf, Takes, Sendings, Tick, Staying, BoundAfter, Conns;
    var bound, open := Conns(s.agents), Conns(Staying(s, e));
    var unbind: seq<Action> := if Detect(e).Some? && e.sess != s.curSess then [Bind({})] else [];
    var sends, bind := Sendings(during, open), [Binding(Tick(s, e).writer)];
    StayingWereThere(s, e);
    NoConns();
    NothingArrives(t, bound);
    BindArrives(t, {}, bound);
    NoActions(bound);
    var mid := BoundAfter(unbind, bound);
    SendingsArrive(t, during, open, mid);
    ArrivesAppend(t, unbind + sends, bind, bound);
    ArrivesAppend(t, unbind, sends, bound);
    BindArrives(t, bind[0].targets, mid);
    WriterIsConns(Tick(s, e).agents);
  }

  lemma NoActions(bound: set<nat>)
    ensures BoundAfter([], bound) == bound
  {
  }

  lemma NoConns()
    ensures Conns(map[]) == {}
  {
  }

  lemma WriterIsConns(agents: map<string, AgentProc>)
    ensures Binding(Targets(agents)) == Bind(Conns(agents))
  {
    NoTargets(agents);
  }

  lemma HeardFirst(t: nat, s: State, hs: seq<Happening>)
    ensures HeardBy(t, s, hs) == if hs == [] then [] else
              (if t in Open(s, hs[0]) then EmittedIn(hs[0]) else []) + HeardBy(t, Next(s, hs[0]), hs[1..])
  {
  }

  lemma TakesParts(t: nat, a: seq<Emitted>, b: seq<Emitted>)
    requires Takes(t, a + b)
    ensures Takes(t, a) && Takes(t, b)
  {
    forall i | 0 <= i < |a| ensures a[i] == (a + b)[i] {}
    forall i | 0 <= i < |b| ensures b[i] == (a + b)[|a| + i] {}
  }

  lemma InStepWrites(s: State, flags: Option<int>)
    requires InStep(s, flags)
    ensures s.writer == Targets(s.agents)
  {
  }

  /** Whatever happens, connection t receives the frames of what its agent should hear. */
  lemma {:induction false} HistoryArrives(t: nat, s: State, hs: seq<Happening>, flags: Option<int>)
    requires InStep(s, flags) && Takes(t, HeardBy(t, s, hs))
    ensures Arrives(t, History(s, hs), Conns(s.agents)) == FramesOf(HeardBy(t, s, hs))
    decreases |hs|
  {
    hide Arrives, FramesOf, Tick, Staying, Conns, Open, Actions, InStep, Takes, HeardBy;
    HeardFirst(t, s, hs);
    if hs == [] {
      NothingArrives(t, Conns(s.agents));
    } else {
      var h, next := hs[0], Next(s, hs[0]);
      var now, later := if t in Open(s, h) then EmittedIn(h) else [], HeardBy(t, next, hs[1..]);
      var after := if h.Ticked? && Detect(h.e).Some? then Detect(h.e) else flags;
      TakesParts(t, now, later);
      if h.Ticked? { TickKeepsStep(s, h.e, flags); }
      InStepWrites(s, flags);
      InStepWrites(next, after);
      HistoryArrives(t, next, hs[1..], after);
      HappeningArrives(t, s, h);
      ArrivesAppend(t, Actions(s, h), History(next, hs[1..]), Conns(s.agents));
      FramesAppend(now, later);
      NothingArrives(t, {});
    }
  }

  /** In every run of the service, the agent behind a connection that takes its frames makes
      the calls it should hear, up to the first whose frame is too long for it. */
  lemma AgentMakesWhatItHears(t: nat, hs: seq<Happening>, n: nat)
    requires var ms := HeardBy(t, INIT, hs);
             && Takes(t, ms) && n <= |ms| && (forall i :: 0 <= i < n ==> Small(ms[i].call))
             && (n < |ms| ==> !Small(ms[n].call))
    ensures AgentCalls(Arrives(t, History(INIT, hs), {})) == CallsOf(HeardBy(t, INIT, hs))[..n]
  {
    hide Arrives, History, HeardBy, Takes, Encode, Frames;
    var cs := CallsOf(HeardBy(t, INIT, hs));
    StartsInStep();
    HistoryArrives(t, INIT, hs, None);
    forall i | 0 <= i < n ensures |Encode(Events(cs)[i])| <= MAX_LINE { assert Small(cs[i]); }
    ReliablePipe(Events(cs), n);
    EventsReplay(cs, n);
  }

  lemma StartsInStep()
    ensures InStep(INIT, None) && Conns(INIT.agents) == {}
  {
  }

  // ---- A connection belongs to an agent for one span of time ----

  lemma {:induction false} SpawningKeepsConns(s: State, sess: nat, start: seq<string>, spawn: string -> Outcome)
    requires Fresh(start, s.agents)
    ensures var t := SpawnAll(s, sess, start, spawn);
            && s.accepted <= t.accepted && Kept(s.agents, t.agents)
            && (forall d <- t.agents :: d in s.agents || t.agents[d].conn > s.accepted)
    decreases |start|
  {
    hide Started, Answered, TimedOut;
    if start != [] {
      var t := SpawnOne(s, sess, start[0], spawn(start[0]));
      assert forall i :: 0 <= i < |start[1..]| ==> start[1..][i] == start[i + 1];
      OneSpawnKeepsConns(s, sess, start[0], spawn(start[0]));
      SpawningKeepsConns(t, sess, start[1..], spawn);
    }
  }

  lemma OneSpawnKeepsConns(s: State, sess: nat, desk: string, o: Outcome)
    ensures var t := SpawnOne(s, sess, desk, o);
            && ((t.agents == s.agents && t.accepted == s.accepted)
                || (t.accepted == s.accepted + 1 && t.agents == s.agents[desk := AgentProc(s.spawned + 1, s.accepted + 1)]))
  {
    var t := Started(s, sess, desk);
    if !o.NoToken? && !o.NoProcess? && Answered(t, o) {
      assert SpawnOne(s, sess, desk, o).agents == s.agents[desk := AgentProc(t.spawned, s.accepted + 1)];
    }
  }

  /** A tick keeps exactly the known connections of the agents that stay. */
  lemma TickConns(s: State, e: Env, t: nat)
    requires t <= s.accepted
    ensures t in Conns(Tick(s, e).agents) <==> t in Conns(Staying(s, e))
    ensures s.accepted <= Tick(s, e).accepted
  {
    hide SpawnAll, Before, ToStart, ToStop, DesiredDesktops;
    if Detect(e).Some? {
      var u, want := Settled(s, e), DesiredDesktops(Detect(e).value);
      var b := Before(u, e, want);
      TickStarts(s, e);
      BeforeAccepts(u, e, want);
      SpawningKeepsConns(b, e.sess, ToStart(u, e, want), e.spawn);
      SameConns(b.agents, Tick(s, e).agents, t, s.accepted);
    }
  }

  lemma BeforeAccepts(s: State, e: Env, want: seq<string>)
    ensures Before(s, e, want).accepted == s.accepted
  {
  }

  lemma SameConns(was: map<string, AgentProc>, now: map<string, AgentProc>, t: nat, accepted: nat)
    requires Kept(was, now) && t <= accepted
    requires forall d <- now :: d in was || now[d].conn > accepted
    ensures t in Conns(now) <==> t in Conns(was)
  {
    if t in Conns(was) {
      var d :| d in was && was[d].conn == t;
      assert d in now && now[d].conn == t;
    }
    if t in Conns(now) {
      var d :| d in now && now[d].conn == t;
      assert d in was && was[d].conn == t;
    }
  }

  lemma KnownConns(s: State)
    requires Paired(s)
    ensures forall t <- Conns(s.agents) :: t <= s.accepted
  {
  }

  /** Once gone, a connection never belongs to an agent again. */
  lemma {:induction false} Gone(t: nat, s: State, hs: seq<Happening>)
    requires t <= s.accepted && t !in Conns(s.agents)
    ensures t !in Conns(After(s, hs).agents) && HeardBy(t, s, hs) == []
    decreases |hs|
  {
    hide Tick, Staying, Conns;
    if hs != [] {
      if hs[0].Ticked? {
        TickConns(s, hs[0].e, t);
        StayingWereThere(s, hs[0].e);
      }
      Gone(t, Next(s, hs[0]), hs[1..]);
    }
  }

  /** Before it is accepted it belongs to nobody. */
  lemma {:induction false} NotYet(t: nat, s: State, hs: seq<Happening>)
    requires Paired(s) && t > After(s, hs).accepted
    ensures t > s.accepted && HeardBy(t, s, hs) == []
    decreases |hs|
  {
    hide Tick, Staying, Conns, Paired;
    if hs != [] {
      if hs[0].Ticked? {
        TickStaysPaired(s, hs[0].e);
        TickConns(s, hs[0].e, 0);
        StayingWereThere(s, hs[0].e);
      }
      NotYet(t, Next(s, hs[0]), hs[1..]);
      KnownConns(s);
    }
  }

  /** In between, its agent hears every call. */
  lemma {:induction false} HearsAll(t: nat, s: State, hs: seq<Happening>)
    requires t <= s.accepted && t in Conns(s.agents) && t in Conns(After(s, hs).agents)
    ensures HeardBy(t, s, hs) == AllEmitted(hs)
    decreases |hs|
  {
    hide Tick, Staying, Conns;
    if hs != [] {
      var next := Next(s, hs[0]);
      if hs[0].Ticked? { TickConns(s, hs[0].e, t); }
      if t !in Conns(next.agents) {
        Gone(t, next, hs[1..]);
      } else {
        HearsAll(t, next, hs[1..]);
      }
    }
  }

  lemma {:induction false} AfterAppend(t: nat, s: State, a: seq<Happening>, b: seq<Happening>)
    ensures After(s, a + b) == After(After(s, a), b)
    ensures HeardBy(t, s, a + b) == HeardBy(t, s, a) + HeardBy(t, After(s, a), b)
    decreases |a|
  {
    hide Tick, Open, EmittedIn;
    if a == [] {
      assert a + b == b;
    } else {
      assert (a + b)[0] == a[0] && (a + b)[1..] == a[1..] + b;
      AfterAppend(t, Next(s, a[0]), a[1..], b);
    }
  }

  lemma {:induction false} AfterIsPaired(s: State, hs: seq<Happening>)
    requires Paired(s)
    ensures Paired(After(s, hs))
    decreases |hs|
  {
    hide Tick, Paired;
    if hs != [] {
      if hs[0].Ticked? { TickStaysPaired(s, hs[0].e); }
      AfterIsPaired(Next(s, hs[0]), hs[1..]);
    }
  }

  lemma OneTickHeard(t: nat, s: State, e: Env, during: seq<Emitted>)
    ensures HeardBy(t, s, [Ticked(e, during)]) == if t in Conns(Staying(s, e)) then during else []
    ensures After(s, [Ticked(e, during)]) == Tick(s, e)
  {
    hide Tick, Staying, Conns;
    assert [Ticked(e, during)][1..] == [];
    assert HeardBy(t, Tick(s, e), []) == [];
  }

  /** The tick at which connection t becomes an agent's, and all before it. */
  lemma BoundHears(t: nat, before: seq<Happening>, bind: Env, during: seq<Emitted>)
    requires t !in Conns(After(INIT, before).agents) && t in Conns(Tick(After(INIT, before), bind).agents)
    ensures var s := After(INIT, before + [Ticked(bind, during)]);
            && s == Tick(After(INIT, before), bind) && Paired(s) && t <= s.accepted
            && HeardBy(t, INIT, before + [Ticked(bind, during)]) == []
  {
    hide Tick, Staying, Conns, Paired, HeardBy, After;
    var s0 := After(INIT, before);
    StartsPaired();
    AfterIsPaired(INIT, before);
    TickStaysPaired(s0, bind);
    KnownConns(Tick(s0, bind));
    if t <= s0.accepted {
      TickConns(s0, bind, t);
      StayingWereThere(s0, bind);
    }
    NotYet(t, INIT, before);
    KnownConns(s0);
    StayingWereThere(s0, bind);
    AfterAppend(t, INIT, before, [Ticked(bind, during)]);
    OneTickHeard(t, s0, bind, during);
  }

  /** The tick at which it is stopped, and all after it. */
  lemma StoppedHears(t: nat, s: State, stop: Env, during: seq<Emitted>, after: seq<Happening>)
    requires t <= s.accepted && t !in Conns(Tick(s, stop).agents)
    ensures HeardBy(t, s, [Ticked(stop, during)] + after) == []
  {
    hide Tick, Staying, Conns, HeardBy, After;
    TickConns(s, stop, t);
    AfterAppend(t, s, [Ticked(stop, during)], after);
    OneTickHeard(t, s, stop, during);
    Gone(t, Tick(s, stop), after);
  }

  lemma {:induction false} AcceptedGrows(s: State, hs: seq<Happening>)
    ensures s.accepted <= After(s, hs).accepted
    decreases |hs|
  {
    hide Tick;
    if hs != [] {
      if hs[0].Ticked? { TickConns(s, hs[0].e, 0); }
      AcceptedGrows(Next(s, hs[0]), hs[1..]);
    }
  }

  /**
    The agent behind a connection makes exactly the calls emitted between the tick that
    bound the connection and the tick that stopped the agent, up to the first frame that
    is too long for it: whatever clients, other agents and the operating system do before,
    in between and afterwards, provided that the connection takes those frames.
  */
  lemma AgentHearsItsTenure(
      t: nat, before: seq<Happening>, bind: Env, starting: seq<Emitted>, between: seq<Happening>,
      stop: Env, stopping: seq<Emitted>, after: seq<Happening>, n: nat)
    requires t !in Conns(After(INIT, before).agents) && t in Conns(Tick(After(INIT, before), bind).agents)
    requires var s := After(Tick(After(INIT, before), bind), between);
             t in Conns(s.agents) && t !in Conns(Tick(s, stop).agents)
    requires var ms := AllEmitted(between);
             && Takes(t, ms) && n <= |ms| && (forall i :: 0 <= i < n ==> Small(ms[i].call))
             && (n < |ms| ==> !Small(ms[n].call))
    ensures var hs := before + [Ticked(bind, starting)] + (between + ([Ticked(stop, stopping)] + after));
            && HeardBy(t, INIT, hs) == AllEmitted(between)
            && AgentCalls(Arrives(t, History(INIT, hs), {})) == CallsOf(AllEmitted(between))[..n]
  {
    hide Tick, Conns, HeardBy, After, Paired, Arrives, History, Takes, Small, CallsOf, AgentCalls, AllEmitted;
    var early, late := before + [Ticked(bind, starting)], [Ticked(stop, stopping)] + after;
    BoundHears(t, before, bind, starting);
    var s1 := After(INIT, early);
    HearsAll(t, s1, between);
    AcceptedGrows(s1, between);
    StoppedHears(t, After(s1, between), stop, stopping, after);
    AfterAppend(t, s1, between, late);
    AfterAppend(t, INIT, early, between + late);
    var ms := AllEmitted(between);
    assert [] + (ms + []) == ms;
    AgentMakesWhatItHears(t, early + (between + late), n);
  }
}
