/**
  server/serving_windows.go: the controller that lets the user-interface process own the
  TCP port and the mDNS announcement, and listenTCPRetry of server/service_windows.go,
  with which the service takes the port over. Other processes use ports as they like.
*/
module Serving {
  import opened Prelude

  datatype Config = Config(password: string, port: int, name: string)

  function WantStandalone(serviceRunning: bool): bool { !serviceRunning }

  function NeedsRebind(was: Config, next: Config): bool { was.port != next.port }

  function NeedsReannounce(was: Config, next: Config): bool { was.port != next.port || was.name != next.name }

  /** The address :port that was asked for and the port that is really taken. */
  datatype Listener = Listener(addr: int, port: int)

  datatype Advert = Advert(name: string, port: int)

  /** The outside world during one call: ports others hold, the port the system would
      pick for address :0, and whether an mDNS registration succeeds. */
  datatype Net = Net(busy: set<int>, ephemeral: int, announces: bool)

  predicate Free(port: int, net: Net, held: multiset<int>) {
    1 <= port <= 65535 && port !in net.busy && port !in held
  }

  function Bind(addr: int, net: Net, held: multiset<int>): Option<Listener> {
    var port := if addr == 0 then net.ephemeral else addr;
    if Free(port, net, held) then Some(Listener(addr, port)) else None
  }

  /**
    srv is the password and name the server checks and reports, once there is a server;
    held the ports this process has open; adverts the announcements on the network, of
    which zc is the one the controller refers to; failed counts the calls of Apply in
    which neither the new nor the old port could be bound.
  */
  datatype State = State(
    cfg: Config, srv: Option<(string, string)>, ln: Option<Listener>, zc: Option<nat>, running: bool,
    held: multiset<int>, adverts: map<nat, Advert>, next: nat, failed: nat)

  function Init(cfg: Config): State {
    State(cfg, None, None, None, false, multiset{}, map[], 0, 0)
  }

  // ---- The controller, as functions ----

  function Announce(s: State, net: Net): State {
    if net.announces
    then s.(zc := Some(s.next), adverts := s.adverts[s.next := Advert(s.cfg.name, s.cfg.port)], next := s.next + 1)
    else s.(zc := None)
  }

  function Withdraw(s: State): State {
    if s.zc.None? then s else s.(adverts := s.adverts - {s.zc.value})
  }

  function Listening(s: State, l: Listener): State {
    s.(ln := Some(l), held := s.held + multiset{l.port})
  }

  function Closed(s: State): State {
    if s.ln.None? then s else s.(held := s.held - multiset{s.ln.value.port})
  }

  function Start(s: State, net: Net): State {
    if s.running then s
    else
      var t := s.(srv := Some((s.cfg.password, s.cfg.name)));
      var l := Bind(s.cfg.port, net, s.held);
      if l.None? then t else Announce(Listening(t, l.value), net).(running := true)
  }

  function Stop(s: State): State {
    if !s.running then s else Closed(Withdraw(s)).(zc := None, ln := None, running := false)
  }

  /** The old listener is closed already; the new port could not be bound. */
  function Rollback(s: State, was: Config, net: Net): State {
    var l := Bind(was.port, net, s.held);
    if l.Some? then
      Listening(s, l.value).(cfg := s.cfg.(port := was.port, name := was.name), srv := Some((s.cfg.password, was.name)))
    else s.(ln := None, running := false, failed := s.failed + 1)
  }

  function Reannounced(s: State, was: Config, net: Net): State {
    if NeedsReannounce(was, s.cfg) then Announce(Withdraw(s), net) else s
  }

  /** The old listener is closed already; first and second are the world at the attempts
      to bind the new port and, failing that, the old one. */
  function Rebound(s: State, was: Config, first: Net, second: Net): State {
    var l := Bind(s.cfg.port, first, s.held);
    if l.None? then Rollback(s, was, second) else Reannounced(Listening(s, l.value), was, first)
  }

  function Apply(s: State, nc: Config, first: Net, second: Net): State {
    if !s.running then s.(cfg := nc)
    else
      var t := s.(cfg := nc, srv := Some((nc.password, nc.name)));
      if NeedsRebind(s.cfg, nc) then Rebound(Closed(t), s.cfg, first, second) else Reannounced(t, s.cfg, first)
  }

  /** What can happen to the controller; Tick is the arbiter's turn. */
  datatype Op = StartOp(net: Net) | StopOp | ApplyOp(nc: Config, first: Net, second: Net) | Tick(serviceRunning: bool, net: Net)

  function Step(s: State, op: Op): State {
    match op
    case StartOp(net) => Start(s, net)
    case StopOp => Stop(s)
    case ApplyOp(nc, first, second) => Apply(s, nc, first, second)
    case Tick(serviceRunning, net) => if WantStandalone(serviceRunning) then Start(s, net) else Stop(s)
  }

  function Run(s: State, ops: seq<Op>): State
    decreases |ops|
  {
    if ops == [] then s else Step(Run(s, ops[..|ops| - 1]), ops[|ops| - 1])
  }

  // ---- The controller as it is written ----

  class ServingController {
    var cfg: Config
    var srv: Option<(string, string)>
    var ln: Option<Listener>
    var zc: Option<nat>
    var running: bool
    // This process's ports and announcements.
    var held: multiset<int>
    var adverts: map<nat, Advert>
    var next: nat
    ghost var failed: nat

    ghost function Abs(): State
      reads this
    {
      State(cfg, srv, ln, zc, running, held, adverts, next, failed)
    }

    constructor (c: Config)
      ensures Abs() == Init(c)
    {
      cfg, srv, ln, zc, running := c, None, None, None, false;
      held, adverts, next, failed := multiset{}, map[], 0, 0;
    }

    method Listen(addr: int, net: Net) returns (l: Option<Listener>)
      modifies `held
      ensures l == Bind(addr, net, old(held))
      ensures held == if l.Some? then old(held) + multiset{l.value.port} else old(held)
    {
      l := Bind(addr, net, held);
      if l.Some? {
        held := held + multiset{l.value.port};
      }
    }

    method Close()
      modifies `held
      ensures Abs() == Closed(old(Abs()))
    {
      if ln.Some? {
        held := held - multiset{ln.value.port};
      }
    }

    method Advertise(net: Net)
      modifies `zc, `adverts, `next
      ensures Abs() == Announce(old(Abs()), net)
    {
      if net.announces {
        zc, adverts, next := Some(next), adverts[next := Advert(cfg.name, cfg.port)], next + 1;
      } else {
        zc := None;
      }
    }

    method Shutdown()
      modifies `adverts
      ensures Abs() == Withdraw(old(Abs()))
    {
      if zc.Some? {
        adverts := adverts - {zc.value};
      }
    }

    method StartServing(net: Net) returns (ok: bool)
      modifies this
      ensures Abs() == Start(old(Abs()), net)
      ensures ok == running
    {
      if running {
        return true;
      }
      srv := Some((cfg.password, cfg.name));
      var l := Listen(cfg.port, net);
      if l.None? {
        return false;
      }
      ln := l;
      Advertise(net);
      running := true;
      return true;
    }

    method StopServing()
      modifies this
      ensures Abs() == Stop(old(Abs()))
    {
      if !running {
        return;
      }
      Shutdown();
      zc := None;
      Close();
      ln := None;
      running := false;
    }

    /** The new port could not be bound: serve on the old one again, or stop. */
    method RollBack(was: Config, net: Net)
      modifies `ln, `cfg, `srv, `running, `failed, `held
      ensures Abs() == Rollback(old(Abs()), was, net)
    {
      hide Bind;
      var l := Listen(was.port, net);
      if l.Some? {
        Resume(l.value, was);
      } else {
        GiveUp();
      }
    }

    method Resume(l: Listener, was: Config)
      modifies `ln, `cfg, `srv
      ensures Abs() == var s := old(Abs());
        s.(ln := Some(l), cfg := s.cfg.(port := was.port, name := was.name), srv := Some((s.cfg.password, was.name)))
    {
      ln := Some(l);
      cfg := cfg.(port := was.port, name := was.name);
      srv := Some((cfg.password, was.name));
    }

    method GiveUp()
      modifies `ln, `running, `failed
      ensures Abs() == var s := old(Abs()); s.(ln := None, running := false, failed := s.failed + 1)
    {
      ln := None;
      running := false;
      failed := failed + 1;
    }

    method Reannounce(was: Config, net: Net)
      modifies `zc, `adverts, `next
      ensures Abs() == Reannounced(old(Abs()), was, net)
    {
      if NeedsReannounce(was, cfg) {
        Shutdown();
        Advertise(net);
      }
    }

    method Rebind(was: Config, first: Net, second: Net)
      modifies this
      ensures Abs() == Rebound(old(Abs()), was, first, second)
    {
      hide Rollback, Reannounced, Bind;
      var l := Listen(cfg.port, first);
      if l.None? {
        RollBack(was, second);
        return;
      }
      ln := l;
      Reannounce(was, first);
    }

    method ApplyConfig(nc: Config, first: Net, second: Net)
      modifies this
      ensures Abs() == Apply(old(Abs()), nc, first, second)
    {
      hide Rebound, Reannounced;
      var was := cfg;
      cfg := nc;
      if !running {
        return;
      }
      srv := Some((nc.password, nc.name));
      if NeedsRebind(was, nc) {
        Close();
        Rebind(was, first, second);
      } else {
        Reannounce(was, first);
      }
    }

    method ArbiterTick(serviceRunning: bool, net: Net)
      modifies this
      ensures Abs() == Step(old(Abs()), Tick(serviceRunning, net))
    {
      if WantStandalone(serviceRunning) {
        var _ := StartServing(net);
      } else {
        StopServing();
      }
    }
  }

  // ---- What every run keeps ----

  /** Announcements that the controller no longer refers to. */
  function Forgotten(s: State): set<nat> {
    if s.zc.Some? then s.adverts.Keys - {s.zc.value} else s.adverts.Keys
  }

  ghost predicate Consistent(s: State) {
    && (s.running ==>
      && s.ln.Some? && s.ln.value.addr == s.cfg.port && s.held == multiset{s.ln.value.port}
      && (s.cfg.port != 0 ==> s.ln.value.port == s.cfg.port)
      && s.srv == Some((s.cfg.password, s.cfg.name))
      && (s.zc.Some? ==> s.zc.value in s.adverts && s.adverts[s.zc.value] == Advert(s.cfg.name, s.cfg.port)))
    && (!s.running ==> s.ln == None && s.held == multiset{})
    && (s.zc.Some? ==> s.zc.value in s.adverts)
    && (forall a :: a in s.adverts ==> a < s.next)
    && |Forgotten(s)| + (if !s.running && s.zc.Some? then 1 else 0) <= s.failed
  }

  ghost predicate Known(s: State) {
    (s.zc.Some? ==> s.zc.value in s.adverts) && forall a :: a in s.adverts ==> a < s.next
  }

  /** An announcement takes the place of the one referred to so far. */
  lemma AnnounceForgets(s: State, net: Net)
    requires Known(s)
    ensures Forgotten(Announce(s, net)) == s.adverts.Keys && Known(Announce(s, net))
  {
    var t := Announce(s, net);
    if net.announces {
      assert t.adverts.Keys == s.adverts.Keys + {s.next};
      assert s.next !in s.adverts;
    }
  }

  /** Starting over a live announcement forgets that announcement. */
  lemma StartForgets(s: State, net: Net)
    requires Known(s)
    ensures var t := Start(s, net);
            |Forgotten(t)| == |Forgotten(s)| + (if !s.running && t.running && s.zc.Some? then 1 else 0) && Known(t)
  {
    hide Bind, Announce;
    var l := Bind(s.cfg.port, net, s.held);
    if !s.running && l.Some? {
      var t := Listening(s.(srv := Some((s.cfg.password, s.cfg.name))), l.value);
      AnnounceForgets(t, net);
      if s.zc.Some? { assert s.adverts.Keys == Forgotten(s) + {s.zc.value}; }
    }
  }

  /** Withdrawing before announcing again, or stopping, forgets nothing. */
  lemma WithdrawForgets(s: State, net: Net)
    requires Known(s)
    ensures Forgotten(Announce(Withdraw(s), net)) == Forgotten(s) && Known(Announce(Withdraw(s), net))
    ensures Forgotten(Withdraw(s).(zc := None)) == Forgotten(s)
  {
    var w := Withdraw(s);
    assert w.adverts.Keys == Forgotten(s);
    if net.announces { assert Announce(w, net).adverts.Keys == w.adverts.Keys + {s.next}; }
  }

  lemma StartIsConsistent(s: State, net: Net)
    requires Consistent(s)
    ensures Consistent(Start(s, net))
  {
    StartForgets(s, net);
  }

  lemma StopIsConsistent(s: State)
    requires Consistent(s)
    ensures Consistent(Stop(s)) && !Stop(s).running && Forgotten(Stop(s)) == Forgotten(s)
  {
    WithdrawForgets(s, Net({}, 0, false));
  }

  /** What holds of a running controller apart from its announcement. */
  ghost predicate Serves(s: State) {
    && s.running && s.ln.Some? && s.ln.value.addr == s.cfg.port && s.held == multiset{s.ln.value.port}
    && (s.cfg.port != 0 ==> s.ln.value.port == s.cfg.port)
    && s.srv == Some((s.cfg.password, s.cfg.name))
  }

  /** The announcement, if there is one, is for this name and port. */
  ghost predicate Announces(s: State, name: string, port: int) {
    s.zc.Some? ==> s.zc.value in s.adverts && s.adverts[s.zc.value] == Advert(name, port)
  }

  lemma ReannounceIsConsistent(s: State, was: Config, net: Net)
    requires Serves(s) && Known(s) && Announces(s, was.name, was.port) && |Forgotten(s)| <= s.failed
    ensures Consistent(Reannounced(s, was, net)) && Forgotten(Reannounced(s, was, net)) == Forgotten(s)
  {
    WithdrawForgets(s, net);
  }

  lemma RollbackIsConsistent(s: State, was: Config, net: Net)
    requires s.running && s.held == multiset{} && s.srv == Some((s.cfg.password, s.cfg.name))
    requires Known(s) && Announces(s, was.name, was.port) && |Forgotten(s)| <= s.failed
    ensures Consistent(Rollback(s, was, net)) && Forgotten(Rollback(s, was, net)) == Forgotten(s)
  {
  }

  lemma ApplyIsConsistent(s: State, nc: Config, first: Net, second: Net)
    requires Consistent(s)
    ensures Consistent(Apply(s, nc, first, second))
    ensures Forgotten(Apply(s, nc, first, second)) == Forgotten(s)
  {
    hide Rollback, Reannounced, Bind;
    if s.running {
      var t := s.(cfg := nc, srv := Some((nc.password, nc.name)));
      if !NeedsRebind(s.cfg, nc) {
        ReannounceIsConsistent(t, s.cfg, first);
      } else {
        var u := Closed(t);
        assert u.held == multiset{};
        var l := Bind(nc.port, first, u.held);
        if l.Some? {
          BindTakes(nc.port, first, u.held);
          ReannounceIsConsistent(Listening(u, l.value), s.cfg, first);
        } else {
          RollbackIsConsistent(u, s.cfg, second);
        }
      }
    }
  }

  lemma BindTakes(addr: int, net: Net, held: multiset<int>)
    ensures var l := Bind(addr, net, held); l.Some? ==> l.value.addr == addr && (addr != 0 ==> l.value.port == addr)
  {
  }

  /**
    Over every sequence of calls and whatever other processes do with ports: while running
    exactly one port is held, it is the configured one, the server uses the configured
    password and name, and a live announcement carries the configured name and port; while
    stopped no port is held; and announcements no longer referred to never outnumber the
    calls of Apply in which both binds failed.
  */
  lemma {:induction false} AlwaysConsistent(cfg: Config, ops: seq<Op>)
    ensures Consistent(Run(Init(cfg), ops))
    decreases |ops|
  {
    if ops != [] {
      var s, op := Run(Init(cfg), ops[..|ops| - 1]), ops[|ops| - 1];
      AlwaysConsistent(cfg, ops[..|ops| - 1]);
      match op
      case StartOp(net) => StartIsConsistent(s, net);
      case StopOp => StopIsConsistent(s);
      case ApplyOp(nc, first, second) => ApplyIsConsistent(s, nc, first, second);
      case Tick(_, net) =>
        StartIsConsistent(s, net);
        StopIsConsistent(s);
    }
  }

  /** An announcement is forgotten exactly when serving starts while one is still live. */
  lemma ForgetsExactly(s: State, op: Op)
    requires Consistent(s)
    ensures |Forgotten(Step(s, op))| == |Forgotten(s)| +
              (if !s.running && Step(s, op).running && s.zc.Some? then 1 else 0)
  {
    match op
    case StartOp(net) => StartForgets(s, net);
    case StopOp => StopIsConsistent(s);
    case ApplyOp(nc, first, second) => ApplyIsConsistent(s, nc, first, second);
    case Tick(_, net) =>
      StartForgets(s, net);
      StopIsConsistent(s);
  }

  /** It does happen: both binds fail while announced, and the next start succeeds. */
  lemma ForgettingHappens(s: State, nc: Config, free: Net)
    requires Consistent(s) && s.running && s.zc.Some? && nc.port != s.cfg.port
    requires free.busy == {} && 1 <= nc.port <= 65535
    ensures exists taken :: |Forgotten(Start(Apply(s, nc, taken, taken), free))| == |Forgotten(s)| + 1
  {
    var taken := Net({nc.port, s.cfg.port, 0}, 0, false);
    var t := Apply(s, nc, taken, taken);
    ApplyIsConsistent(s, nc, taken, taken);
    assert Closed(s.(cfg := nc, srv := Some((nc.password, nc.name)))).held == multiset{};
    assert !t.running && t.zc == s.zc && t.cfg == nc;
    StartForgets(t, free);
  }

  // ---- What each call does, in so many words ----

  /** Nobody else holds the port; for port 0, the one that the system picks. */
  predicate CanBind(port: int, net: Net) {
    if port == 0 then 1 <= net.ephemeral <= 65535 && net.ephemeral !in net.busy
    else 1 <= port <= 65535 && port !in net.busy
  }

  /**
    Applying a configuration: the new password counts in any case, at once and for the
    server too; name and port are the new ones if the port has not changed or the new one
    can be bound; if only the old one can be bound, the old name and port are served again;
    if neither, serving stops. A stopped controller only records the configuration.
  */
  lemma ApplyTakesEffect(s: State, nc: Config, first: Net, second: Net)
    requires Consistent(s)
    ensures var t := Apply(s, nc, first, second);
            && t.cfg.password == nc.password
            && (t.running ==> t.srv == Some((nc.password, t.cfg.name)))
            && (!s.running ==> t == s.(cfg := nc))
            && (s.running && (nc.port == s.cfg.port || CanBind(nc.port, first)) ==> t.running && t.cfg == nc)
            && (s.running && nc.port != s.cfg.port && !CanBind(nc.port, first) && CanBind(s.cfg.port, second) ==>
                  t.running && t.cfg == Config(nc.password, s.cfg.port, s.cfg.name) && t.zc == s.zc && t.adverts == s.adverts)
            && (s.running && nc.port != s.cfg.port && !CanBind(nc.port, first) && !CanBind(s.cfg.port, second) ==>
                  !t.running && t.cfg == nc && t.held == multiset{})
  {
    hide Announce, Withdraw;
    if s.running {
      var u := Closed(s.(cfg := nc, srv := Some((nc.password, nc.name))));
      assert u.held == multiset{};
      BindsIfFree(nc.port, first);
      BindsIfFree(s.cfg.port, second);
      AnnouncingChangesLittle(s.(cfg := nc, srv := Some((nc.password, nc.name))), first);
      if Bind(nc.port, first, multiset{}).Some? {
        AnnouncingChangesLittle(Listening(u, Bind(nc.port, first, multiset{}).value), first);
      }
    }
  }

  lemma BindsIfFree(port: int, net: Net)
    ensures Bind(port, net, multiset{}).Some? <==> CanBind(port, net)
  {
  }

  lemma AnnouncingChangesLittle(s: State, net: Net)
    ensures var t := Announce(Withdraw(s), net); t.cfg == s.cfg && t.srv == s.srv && t.running == s.running && t.held == s.held && t.ln == s.ln
  {
  }

  /** A running controller announces again exactly when the name or the port has changed,
      and otherwise leaves its announcement alone. */
  lemma ApplyAnnounces(s: State, nc: Config, first: Net, second: Net)
    requires Consistent(s) && s.running
    ensures var t := Apply(s, nc, first, second);
            && (nc.port == s.cfg.port && nc.name == s.cfg.name ==> t.zc == s.zc && t.adverts == s.adverts)
            && (t.running && t.cfg.port == nc.port && t.cfg.name == nc.name && (nc.port != s.cfg.port || nc.name != s.cfg.name)
                && (nc.port == s.cfg.port || CanBind(nc.port, first)) ==>
                  (t.zc.Some? <==> first.announces)
                  && (t.zc.Some? ==> t.zc.value in t.adverts && t.adverts[t.zc.value] == Advert(nc.name, nc.port))
                  && (s.zc.Some? ==> s.zc.value !in t.adverts))
  {
    BindsIfFree(nc.port, first);
  }

  /** Starting serves and announces whenever the port is free, and never otherwise. */
  lemma StartServes(s: State, net: Net)
    requires Consistent(s) && !s.running
    ensures var t := Start(s, net);
            && (t.running <==> CanBind(s.cfg.port, net)) && t.cfg == s.cfg
            && (t.running ==> t.srv == Some((s.cfg.password, s.cfg.name)) && (t.zc.Some? <==> net.announces))
            && (t.running && net.announces ==>
                  t.zc.value in t.adverts && t.adverts[t.zc.value] == Advert(s.cfg.name, s.cfg.port))
  {
    BindsIfFree(s.cfg.port, net);
  }

  /** Stopping takes the announcement off the network and gives the port back. */
  lemma StopEnds(s: State)
    requires Consistent(s)
    ensures var t := Stop(s);
            && !t.running && t.held == multiset{} && t.cfg == s.cfg
            && (s.running && s.zc.Some? ==> s.zc.value !in t.adverts && t.zc == None)
  {
  }

  /** The arbiter: while the service does not run, the controller serves if it can; while
      it runs, the controller does not. */
  lemma ArbiterDecides(s: State, net: Net)
    requires Consistent(s)
    ensures Step(s, Tick(false, net)).running <==> s.running || CanBind(s.cfg.port, net)
    ensures !Step(s, Tick(true, net)).running && Step(s, Tick(true, net)).held == multiset{}
  {
    if !s.running { StartServes(s, net); }
    StopEnds(s);
  }

  // ---- The service takes the port over ----

  const POLL: int := 200

  /**
    listenTCPRetry from its attempt at time t on: the port is free at the times given by
    free, and the attempt after the n-th follows it by delay(n), at least one poll.
    The result says whether it bound, and when it returned.
  */
  function Listen(t: int, n: nat, deadline: int, free: int -> bool, delay: nat -> int): (bool, int)
    requires forall k :: delay(k) >= POLL
    decreases deadline - t
  {
    if free(t) then (true, t)
    else if t > deadline then (false, t)
    else Listen(t + delay(n), n + 1, deadline, free, delay)
  }

  method ListenTCPRetry(start: int, within: int, free: int -> bool, delay: nat -> int) returns (bound: bool, at: int)
    requires forall k :: delay(k) >= POLL
    ensures (bound, at) == Listen(start, 0, start + within, free, delay)
  {
    var deadline := start + within;
    var n := 0;
    at := start;
    while !free(at)
      invariant Listen(at, n, deadline, free, delay) == Listen(start, 0, deadline, free, delay)
      decreases deadline - at
    {
      if at > deadline {
        return false, at;
      }
      at := at + delay(n);
      n := n + 1;
    }
    return true, at;
  }

  /** With attempts at most poll apart: if the port is free from release on and that is no
      later than the deadline, it is bound within one poll of the release; in any case the
      call returns within the window plus one poll, and only binds a free port. */
  lemma {:induction false} RetryBinds(t: int, n: nat, deadline: int, free: int -> bool, delay: nat -> int, poll: int, release: int)
    requires forall k :: 200 <= delay(k) <= poll
    ensures var (bound, at) := Listen(t, n, deadline, free, delay);
            && t <= at && (at == t || at <= deadline + poll)
            && (bound <==> free(at)) && (!bound ==> at > deadline)
            && (release <= deadline && (forall u :: u >= release ==> free(u)) ==>
                  bound && (at == t || at < release + poll))
    decreases deadline - t
  {
    if !free(t) && t <= deadline {
      RetryBinds(t + delay(n), n + 1, deadline, free, delay, poll, release);
    }
  }

  /** Told that the service runs, the controller holds no port, and keeps holding none
      through any calls but a start. */
  lemma {:induction false} ReleasedStaysReleased(s: State, net: Net, ops: seq<Op>)
    requires Consistent(s)
    requires forall i :: 0 <= i < |ops| ==> ops[i].StopOp? || ops[i].ApplyOp? || (ops[i].Tick? && ops[i].serviceRunning)
    ensures var t := Run(Step(s, Tick(true, net)), ops); !t.running && t.held == multiset{}
    decreases |ops|
  {
    StopIsConsistent(s);
    if ops != [] { ReleasedStaysReleased(s, net, ops[..|ops| - 1]); }
  }

  /** The ports a controller holds over time: as in s until a tick at time tick tells it
      that the service runs, and as that tick leaves it from then on. */
  function HeldAt(s: State, net: Net, tick: int, t: int): multiset<int> {
    if t < tick then s.held else Step(s, Tick(true, net)).held
  }

  /**
    The handoff: whatever the controller was doing, if it takes its releasing tick within
    five seconds of the service starting and nobody else holds the port, the service binds
    it, at the latest one poll after that tick.
  */
  lemma ServiceGetsThePort(s: State, net: Net, port: int, start: int, tick: int, delay: nat -> int, poll: int)
    requires Consistent(s) && tick <= start + 5000
    requires forall k :: 200 <= delay(k) <= poll
    ensures var (bound, at) := Listen(start, 0, start + 5000, t => port !in HeldAt(s, net, tick, t), delay);
            bound && (at == start || at < tick + poll)
  {
    StopIsConsistent(s);
    var free := t => port !in HeldAt(s, net, tick, t);
    RetryBinds(start, 0, start + 5000, free, delay, poll, tick);
  }
}
