/**
  Events become injector calls: directly (server/inject_apply.go), or through the
  broadcast pipe writer and the agent's loop (server/pipe_inject.go, server/fanout.go).
*/
module Injection {
  import opened Prelude
  import opened JsonRecord
  import opened JsonRoundTrip
  import opened PipeFraming

  /** The calls of the Injector interface. */
  datatype Call =
    | MoveRel(dx: int64, dy: int64)
    | MoveAbs(nx: int64, ny: int64)
    | Button(b: string, down: bool)
    | Scroll(sx: int64, sy: int64)
    | Text(s: string)
    | Key(code: int64, mods: int64, pressed: bool)

  predicate Pressed(down: Option<bool>) {
    down == Some(true)
  }

  /** The calls that one event stands for. */
  function Calls(m: In): seq<Call> {
    if m.t == "move" then [MoveRel(m.dx, m.dy)]
    else if m.t == "moveabs" then [MoveAbs(m.x, m.y)]
    else if m.t == "button" then [Button(m.b, Pressed(m.down))]
    else if m.t == "click" then [Button(m.b, true), Button(m.b, false)]
    else if m.t == "scroll" then [Scroll(m.dx, m.dy)]
    else if m.t == "text" then [Text(m.s)]
    else if m.t == "key" then [Key(m.code, m.mods, Pressed(m.down))]
    else []
  }

  function AllCalls(ms: seq<In>): seq<Call> {
    if ms == [] then [] else Calls(ms[0]) + AllCalls(ms[1..])
  }

  /** The event that pipeInjector sends for a call. */
  function Event(c: Call): In {
    match c
    case MoveRel(dx, dy) => ZERO_IN.(t := "move", dx := dx, dy := dy)
    case MoveAbs(nx, ny) => ZERO_IN.(t := "moveabs", x := nx, y := ny)
    case Button(b, down) => ZERO_IN.(t := "button", b := b, down := Some(down))
    case Scroll(dx, dy) => ZERO_IN.(t := "scroll", dx := dx, dy := dy)
    case Text(s) => ZERO_IN.(t := "text", s := s)
    case Key(code, mods, down) => ZERO_IN.(t := "key", code := code, mods := mods, down := Some(down))
  }

  function Events(cs: seq<Call>): seq<In> {
    seq(|cs|, i requires 0 <= i < |cs| => Event(cs[i]))
  }

  /** What the agent's injector is asked to do when its pipe delivers these bytes. */
  function AgentCalls(stream: string): seq<Call> {
    AllCalls(Records(Lines(stream)))
  }

  // ---- What events mean, call by call and over runs ----

  /** Each kind of event stands for these calls, and any other for none. */
  lemma EventMeans(m: In)
    ensures m.t == "move" ==> Calls(m) == [MoveRel(m.dx, m.dy)]
    ensures m.t == "moveabs" ==> Calls(m) == [MoveAbs(m.x, m.y)]
    ensures m.t == "button" ==> Calls(m) == [Button(m.b, m.down == Some(true))]
    ensures m.t == "click" ==> Calls(m) == [Button(m.b, true), Button(m.b, false)]
    ensures m.t == "scroll" ==> Calls(m) == [Scroll(m.dx, m.dy)]
    ensures m.t == "text" ==> Calls(m) == [Text(m.s)]
    ensures m.t == "key" ==> Calls(m) == [Key(m.code, m.mods, m.down == Some(true))]
    ensures m.t !in {"move", "moveabs", "button", "click", "scroll", "text", "key"} ==> Calls(m) == []
  {
  }

  /** Whether button b is down after these calls. */
  function HeldAfter(b: string, cs: seq<Call>): bool
    decreases |cs|
  {
    if cs == [] then false
    else
      var n := |cs| - 1;
      if cs[n].Button? && cs[n].b == b then cs[n].down else HeldAfter(b, cs[..n])
  }

  predicate AboutButton(m: In, b: string) {
    (m.t == "button" || m.t == "click") && m.b == b
  }

  lemma {:induction false} HeldAppend(b: string, cs: seq<Call>, more: seq<Call>)
    requires forall c <- more :: !(c.Button? && c.b == b)
    ensures HeldAfter(b, cs + more) == HeldAfter(b, cs)
    decreases |more|
  {
    if more == [] {
      assert cs + more == cs;
    } else {
      var n := |more| - 1;
      assert (cs + more)[..|cs + more| - 1] == cs + more[..n];
      assert more[n] in more;
      HeldAppend(b, cs, more[..n]);
    }
  }

  lemma HeldThen(b: string, cs: seq<Call>, down: bool)
    ensures HeldAfter(b, cs + [Button(b, down)]) == down
  {
  }

  lemma {:induction false} AllCallsSnoc(ms: seq<In>, m: In)
    ensures AllCalls(ms + [m]) == AllCalls(ms) + Calls(m)
    decreases |ms|
  {
    hide Calls;
    if ms == [] {
      assert (ms + [m])[1..] == [];
    } else {
      assert (ms + [m])[1..] == ms[1..] + [m];
      AllCallsSnoc(ms[1..], m);
    }
  }

  /** After any events a button is down exactly if the last event about it pressed it: a
      click never leaves it down. */
  lemma {:induction false} ButtonIsHeld(b: string, ms: seq<In>)
    ensures HeldAfter(b, AllCalls(ms)) <==>
              exists i :: 0 <= i < |ms| && ms[i].t == "button" && ms[i].b == b && ms[i].down == Some(true)
                          && forall j :: i < j < |ms| ==> !AboutButton(ms[j], b)
    decreases |ms|
  {
    hide AllCalls;
    if ms == [] {
      NoCalls();
    } else {
      var n := |ms| - 1;
      var before, m := ms[..n], ms[n];
      ButtonIsHeld(b, before);
      assert ms == before + [m];
      AllCallsSnoc(before, m);
      LastEventHolds(b, AllCalls(before), m);
      assert forall i :: 0 <= i < n ==> before[i] == ms[i];
    }
  }

  lemma NoCalls()
    ensures AllCalls([]) == []
  {
  }

  lemma LastEventHolds(b: string, cs: seq<Call>, m: In)
    ensures HeldAfter(b, cs + Calls(m)) ==
              if AboutButton(m, b) then m.t == "button" && m.down == Some(true) else HeldAfter(b, cs)
  {
    hide HeldAfter, Calls;
    EventMeans(m);
    if AboutButton(m, b) {
      if m.t == "click" {
        assert cs + Calls(m) == cs + [Button(b, true)] + [Button(b, false)];
        HeldThen(b, cs + [Button(b, true)], false);
      } else {
        HeldThen(b, cs, m.down == Some(true));
      }
    } else {
      HeldAppend(b, cs, Calls(m));
    }
  }

  // ---- The imperative side ----

  /** A platform injector, known by the calls it receives. */
  class Injector {
    var calls: seq<Call>

    constructor ()
      ensures calls == []
    {
      calls := [];
    }

    method Inject(c: Call)
      modifies this
      ensures calls == old(calls) + [c]
    {
      calls := calls + [c];
    }
  }

  method ApplyEvent(inj: Injector, m: In)
    modifies inj
    ensures inj.calls == old(inj.calls) + Calls(m)
    ensures m.t == "move" ==> inj.calls == old(inj.calls) + [MoveRel(m.dx, m.dy)]
    ensures m.t == "moveabs" ==> inj.calls == old(inj.calls) + [MoveAbs(m.x, m.y)]
    ensures m.t == "button" ==> inj.calls == old(inj.calls) + [Button(m.b, m.down == Some(true))]
    ensures m.t == "click" ==> inj.calls == old(inj.calls) + [Button(m.b, true)] + [Button(m.b, false)]
    ensures m.t == "scroll" ==> inj.calls == old(inj.calls) + [Scroll(m.dx, m.dy)]
    ensures m.t == "text" ==> inj.calls == old(inj.calls) + [Text(m.s)]
    ensures m.t == "key" ==> inj.calls == old(inj.calls) + [Key(m.code, m.mods, m.down == Some(true))]
    ensures m.t !in {"move", "moveabs", "button", "click", "scroll", "text", "key"} ==> inj.calls == old(inj.calls)
  {
    match m.t {
      case "move" => inj.Inject(MoveRel(m.dx, m.dy));
      case "moveabs" => inj.Inject(MoveAbs(m.x, m.y));
      case "button" => inj.Inject(Button(m.b, Pressed(m.down)));
      case "click" =>
        inj.Inject(Button(m.b, true));
        inj.Inject(Button(m.b, false));
      case "scroll" => inj.Inject(Scroll(m.dx, m.dy));
      case "text" => inj.Inject(Text(m.s));
      case "key" => inj.Inject(Key(m.code, m.mods, Pressed(m.down)));
      case _ =>
    }
  }

  /** The scanner gives up on this line: its buffer is full and holds no line break. */
  predicate TooLong(rest: string) {
    var i := LineBreak(rest);
    if i < |rest| then i + 1 > MAX_LINE else i >= MAX_LINE
  }

  lemma OneLine(rest: string)
    requires rest != ""
    ensures TooLong(rest) ==> AgentCalls(rest) == []
    ensures !TooLong(rest) ==>
      var i := LineBreak(rest);
      var d := Decode(DropCR(rest[..i]));
      AgentCalls(rest) == (if d.ok then Calls(d.rec) else []) + AgentCalls(if i < |rest| then rest[i + 1..] else "")
  {
    hide Decode, Calls;
    if !TooLong(rest) {
      var i := LineBreak(rest);
      var line := DropCR(rest[..i]);
      var more := Lines(if i < |rest| then rest[i + 1..] else "");
      if i == |rest| { assert rest[..i] == rest; }
      assert Lines(rest) == [line] + more;
      FirstRecord(line, more);
      FirstCalls(Decode(line), Records(more));
    }
  }

  lemma NoLine()
    ensures AgentCalls("") == []
  {
  }

  lemma FirstCalls(d: Decoded, more: seq<In>)
    ensures AllCalls((if d.ok then [d.rec] else []) + more) == (if d.ok then Calls(d.rec) else []) + AllCalls(more)
  {
    if d.ok {
      assert ([d.rec] + more)[1..] == more;
    } else {
      assert [] + more == more;
    }
  }

  /** One line off the stream. */
  method AgentStep(rest: string, inj: Injector) returns (next: string)
    requires rest != "" && !TooLong(rest)
    modifies inj
    ensures |next| < |rest|
    ensures inj.calls + AgentCalls(next) == old(inj.calls) + AgentCalls(rest)
  {
    hide Decode, LineBreak, AgentCalls;
    OneLine(rest);
    var i := LineBreak(rest);
    var d := Decode(DropCR(rest[..i]));
    next := if i < |rest| then rest[i + 1..] else "";
    if d.ok {
      ApplyEvent(inj, d.rec);
    }
  }

  /** The agent: one line at a time until the stream ends or a line is too long. */
  method RunAgentLoop(stream: string, inj: Injector)
    modifies inj
    ensures inj.calls == old(inj.calls) + AgentCalls(stream)
  {
    hide AgentCalls, TooLong;
    var rest := stream;
    while rest != "" && !TooLong(rest)
      invariant inj.calls + AgentCalls(rest) == old(inj.calls) + AgentCalls(stream)
      decreases |rest|
    {
      rest := AgentStep(rest, inj);
    }
    if rest != "" { OneLine(rest); } else { NoLine(); }
    assert inj.calls + [] == inj.calls;
  }

  /** The service's end of the pipe to one agent: the bytes the agent will see, and
      the attempts to write that left them there. */
  class Target {
    var got: string
    ghost var writes: seq<Write>

    ghost predicate Valid()
      reads this
    {
      AllPossible(writes) && got == Stream(writes)
    }

    constructor ()
      ensures Valid() && got == "" && writes == []
    {
      got, writes := "", [];
    }

    /** Accepts the first n bytes of b before its deadline passes or it fails. */
    method Write(b: string, n: nat)
      requires n <= |b|
      modifies `got
      ensures got == old(got) + b[..n]
    {
      got := got + b[..n];
    }
  }

  ghost predicate Distinct(ts: seq<Target>) {
    forall i, j :: 0 <= i < j < |ts| ==> ts[i] != ts[j]
  }

  ghost predicate AllValid(ts: seq<Target>)
    reads set t | t in ts
  {
    forall t <- ts :: t.Valid()
  }

  /** Broadcasts to every target; what one target does with the bytes is its own affair. */
  method FanoutWrite(ws: seq<Target>, b: string, taken: seq<nat>)
    requires Distinct(ws) && |taken| == |ws| && forall i :: 0 <= i < |ws| ==> taken[i] <= |b|
    modifies (set t | t in ws)`got
    ensures forall i :: 0 <= i < |ws| ==> ws[i].got == old(ws[i].got) + b[..taken[i]]
  {
    for k := 0 to |ws|
      invariant forall i :: 0 <= i < k ==> ws[i].got == old(ws[i].got) + b[..taken[i]]
      invariant forall i :: k <= i < |ws| ==> ws[i].got == old(ws[i].got)
    {
      ws[k].Write(b, taken[k]);
    }
  }

  /** Sends every call to all the targets currently bound, under one lock. */
  class PipeInjector {
    var w: Option<seq<Target>>

    ghost predicate Valid()
      reads this, if w.Some? then set t | t in w.value else {}
    {
      w.Some? ==> Distinct(w.value) && AllValid(w.value)
    }

    constructor ()
      ensures Valid() && w == None
    {
      w := None;
    }

    method SetWriter(next: Option<seq<Target>>)
      requires next.Some? ==> Distinct(next.value) && AllValid(next.value)
      modifies `w
      ensures Valid() && w == next
    {
      w := next;
    }

    method Emit(m: In, taken: seq<nat>)
      requires Valid()
      requires w.Some? ==> |taken| == |w.value| && forall i :: 0 <= i < |taken| ==> taken[i] <= |Encode(m)|
      modifies if w.Some? then set t | t in w.value else {}
      ensures Valid()
      ensures w.Some? ==> forall i :: 0 <= i < |taken| ==> w.value[i].writes == old(w.value[i].writes) + [Write(m, taken[i])]
    {
      hide Encode, Stream;
      if w == None {
        return;
      }
      var ts := w.value;
      FanoutWrite(ts, Encode(m), taken);
      for k := 0 to |ts|
        invariant forall i :: 0 <= i < |ts| ==> ts[i].got == old(ts[i].got) + Encode(m)[..taken[i]]
        invariant forall i :: 0 <= i < k ==> ts[i].writes == old(ts[i].writes) + [Write(m, taken[i])]
        invariant forall i :: k <= i < |ts| ==> ts[i].writes == old(ts[i].writes)
      {
        ts[k].writes := ts[k].writes + [Write(m, taken[k])];
      }
      forall i | 0 <= i < |ts| ensures ts[i].Valid() {
        StreamSnoc(old(ts[i].writes), Write(m, taken[i]));
      }
    }

    /** The six methods of the Injector interface, one for each kind of call. */
    method Inject(c: Call, taken: seq<nat>)
      requires Valid()
      requires w.Some? ==> |taken| == |w.value| && forall i :: 0 <= i < |taken| ==> taken[i] <= |Encode(Event(c))|
      modifies if w.Some? then set t | t in w.value else {}
      ensures Valid()
      ensures w.Some? ==>
                forall i :: 0 <= i < |taken| ==> w.value[i].writes == old(w.value[i].writes) + [Write(Event(c), taken[i])]
    {
      hide Encode, Stream;
      match c {
        case MoveRel(dx, dy) => Emit(ZERO_IN.(t := "move", dx := dx, dy := dy), taken);
        case MoveAbs(nx, ny) => Emit(ZERO_IN.(t := "moveabs", x := nx, y := ny), taken);
        case Button(b, down) => Emit(ZERO_IN.(t := "button", b := b, down := Some(down)), taken);
        case Scroll(dx, dy) => Emit(ZERO_IN.(t := "scroll", dx := dx, dy := dy), taken);
        case Text(text) => Emit(ZERO_IN.(t := "text", s := text), taken);
        case Key(code, mods, down) => Emit(ZERO_IN.(t := "key", code := code, mods := mods, down := Some(down)), taken);
      }
    }
  }

  lemma {:induction false} StreamSnoc(ws: seq<Write>, w: Write)
    requires AllPossible(ws) && Possible(w)
    ensures AllPossible(ws + [w]) && Stream(ws + [w]) == Stream(ws) + Encode(w.m)[..w.sent]
    decreases |ws|
  {
    hide Encode;
    if ws == [] {
      assert (ws + [w])[1..] == [];
    } else {
      assert (ws + [w])[1..] == ws[1..] + [w];
      StreamSnoc(ws[1..], w);
    }
  }

  // ---- The pipe is transparent ----

  /** An event that crossed the pipe causes the call it was made from, once. */
  lemma EventReplays(c: Call)
    ensures Calls(Event(c)) == [c]
  {
  }

  lemma {:induction false} EventsReplay(cs: seq<Call>, n: nat)
    requires n <= |cs|
    ensures AllCalls(Events(cs)[..n]) == cs[..n]
    decreases n
  {
    hide Event, Calls;
    if n > 0 {
      EventsReplay(cs[1..], n - 1);
      assert Events(cs)[..n][1..] == Events(cs[1..])[..n - 1];
      EventReplays(cs[0]);
      assert cs[..n] == [cs[0]] + cs[1..][..n - 1];
    }
  }

  /** A call whose frame the agent's line scanner can hold. */
  predicate Small(c: Call) {
    |Encode(Event(c))| <= MAX_LINE
  }

  /**
    Injecting events through the pipe makes the calls that injecting them directly
    makes. If some frame is too long for the agent, exactly the calls before it are made.
  */
  lemma PipedIsDirect(ms: seq<In>, n: nat)
    requires n <= |AllCalls(ms)|
    requires forall i :: 0 <= i < n ==> Small(AllCalls(ms)[i])
    requires n < |AllCalls(ms)| ==> !Small(AllCalls(ms)[n])
    ensures AgentCalls(Frames(Events(AllCalls(ms)))) == AllCalls(ms)[..n]
  {
    var cs := AllCalls(ms);
    forall i | 0 <= i < n ensures |Encode(Events(cs)[i])| <= MAX_LINE {
      assert Small(cs[i]);
    }
    ReliablePipe(Events(cs), n);
    EventsReplay(cs, n);
  }

  // ---- Many clients and changing writers, in the order of the injector's lock ----

  /** A client's call is broadcast, or the monitor binds another set of targets.
      taken(t) bounds the bytes that target t accepts. */
  datatype Action = Send(client: nat, call: Call, taken: nat -> nat) | Bind(targets: set<nat>)

  function Accepted(call: Call, n: nat): Write {
    var size := |Encode(Event(call))|;
    Write(Event(call), if n <= size then n else size)
  }

  /** The attempts to write that target t has seen. */
  function WritesTo(t: nat, acts: seq<Action>, bound: set<nat>): seq<Write>
    decreases |acts|
  {
    if acts == [] then []
    else match acts[0]
      case Send(_, call, taken) =>
        if t in bound then [Accepted(call, taken(t))] + WritesTo(t, acts[1..], bound) else WritesTo(t, acts[1..], bound)
      case Bind(targets) => WritesTo(t, acts[1..], targets)
  }

  /** The calls made while t was bound, with the clients that made them. */
  function SentTo(t: nat, acts: seq<Action>, bound: set<nat>): seq<(nat, Call)>
    decreases |acts|
  {
    if acts == [] then []
    else match acts[0]
      case Send(client, call, _) =>
        if t in bound then [(client, call)] + SentTo(t, acts[1..], bound) else SentTo(t, acts[1..], bound)
      case Bind(targets) => SentTo(t, acts[1..], targets)
  }

  function CallsIn(log: seq<(nat, Call)>): seq<Call> {
    seq(|log|, i requires 0 <= i < |log| => log[i].1)
  }

  function CallsFor(t: nat, acts: seq<Action>, bound: set<nat>): seq<Call> {
    CallsIn(SentTo(t, acts, bound))
  }

  /** One client's part of such a log. */
  function CallsBy(id: nat, log: seq<(nat, Call)>): seq<Call>
    decreases |log|
  {
    if log == [] then []
    else
      var n := |log| - 1;
      if log[n].0 == id then CallsBy(id, log[..n]) + [log[n].1] else CallsBy(id, log[..n])
  }

  lemma CallsBySnoc(id: nat, log: seq<(nat, Call)>, who: nat, call: Call)
    ensures CallsBy(id, log + [(who, call)]) == if who == id then CallsBy(id, log) + [call] else CallsBy(id, log)
  {
    assert (log + [(who, call)])[..|log|] == log;
  }

  lemma {:induction false} CallsByCons(id: nat, who: nat, call: Call, log: seq<(nat, Call)>)
    ensures CallsBy(id, [(who, call)] + log) == if who == id then [call] + CallsBy(id, log) else CallsBy(id, log)
    ensures CallsIn([(who, call)] + log) == [call] + CallsIn(log)
    decreases |log|
  {
    var all := [(who, call)] + log;
    if log == [] {
      assert all[..|all| - 1] == [] && all[|all| - 1] == (who, call);
      assert [] + [call] == [call] + [];
    } else {
      var n := |log| - 1;
      assert all[..|all| - 1] == [(who, call)] + log[..n] && all[|all| - 1] == log[n];
      CallsByCons(id, who, call, log[..n]);
      assert [call] + (CallsBy(id, log[..n]) + [log[n].1]) == [call] + CallsBy(id, log[..n]) + [log[n].1];
    }
  }

  /** Every write to t while it is bound goes through whole. */
  ghost predicate Reliable(t: nat, acts: seq<Action>) {
    forall a <- acts :: a.Send? ==> a.taken(t) >= |Encode(Event(a.call))|
  }

  lemma OneMoreFrame(call: Call, ws: seq<Write>, cs: seq<Call>)
    requires AllPossible(ws)
    ensures var w := Write(Event(call), |Encode(Event(call))|);
            AllPossible([w] + ws) && Stream([w] + ws) == Encode(Event(call)) + Stream(ws)
    ensures Frames(Events([call] + cs)) == Encode(Event(call)) + Frames(Events(cs))
  {
    var frame := Encode(Event(call));
    var w := Write(Event(call), |frame|);
    assert ([w] + ws)[1..] == ws;
    assert frame[..|frame|] == frame;
    assert Events([call] + cs)[1..] == Events(cs);
  }

  lemma {:induction false} ReliableStream(t: nat, acts: seq<Action>, bound: set<nat>)
    requires Reliable(t, acts)
    ensures AllPossible(WritesTo(t, acts, bound))
    ensures Stream(WritesTo(t, acts, bound)) == Frames(Events(CallsFor(t, acts, bound)))
    decreases |acts|
  {
    hide Encode, CallsIn, CallsBy;
    if acts == [] {
      assert CallsIn([]) == [] by { NoLog(); }
    } else {
      var next := if acts[0].Bind? then acts[0].targets else bound;
      ReliableStream(t, acts[1..], next);
      assert acts[0] in acts;
      if acts[0].Send? && t in bound {
        assert acts[0].taken(t) >= |Encode(Event(acts[0].call))|;
        CallsByCons(0, acts[0].client, acts[0].call, SentTo(t, acts[1..], next));
        OneMoreFrame(acts[0].call, WritesTo(t, acts[1..], next), CallsFor(t, acts[1..], next));
      }
    }
  }

  lemma NoLog()
    ensures CallsIn([]) == []
  {
  }

  /** A target that accepts every write gets the frames sent while it was bound, whole
      and in lock order, whatever the other targets do; so its agent makes those calls,
      up to the first whose frame is too long for it, if there is one. */
  lemma ReliableTarget(t: nat, acts: seq<Action>, bound: set<nat>, n: nat)
    requires Reliable(t, acts) && n <= |CallsFor(t, acts, bound)|
    requires forall i :: 0 <= i < n ==> Small(CallsFor(t, acts, bound)[i])
    requires n < |CallsFor(t, acts, bound)| ==> !Small(CallsFor(t, acts, bound)[n])
    ensures AllPossible(WritesTo(t, acts, bound))
    ensures Stream(WritesTo(t, acts, bound)) == Frames(Events(CallsFor(t, acts, bound)))
    ensures AgentCalls(Stream(WritesTo(t, acts, bound))) == CallsFor(t, acts, bound)[..n]
  {
    hide WritesTo, CallsFor, Encode, Frames, Reliable;
    ReliableStream(t, acts, bound);
    var cs := CallsFor(t, acts, bound);
    forall i | 0 <= i < n ensures |Encode(Events(cs)[i])| <= MAX_LINE {
      assert Small(cs[i]);
    }
    ReliablePipe(Events(cs), n);
    EventsReplay(cs, n);
  }

  lemma {:induction false} WritesArePossible(t: nat, acts: seq<Action>, bound: set<nat>)
    ensures AllPossible(WritesTo(t, acts, bound))
    decreases |acts|
  {
    if acts != [] { WritesArePossible(t, acts[1..], if acts[0].Bind? then acts[0].targets else bound); }
  }

  /** The calls an agent makes, however its writes are cut short. */
  lemma FaultyTarget(t: nat, acts: seq<Action>, bound: set<nat>)
    ensures AllPossible(WritesTo(t, acts, bound))
    ensures AgentCalls(Stream(WritesTo(t, acts, bound))) == AllCalls(Deliver(WritesTo(t, acts, bound), Clean))
  {
    WritesArePossible(t, acts, bound);
    var ws := WritesTo(t, acts, bound);
    AgentReceives(ws, Clean, "");
    assert "" + Stream(ws) == Stream(ws);
  }

  /** Only what client c and the monitor do. */
  function Alone(c: nat, acts: seq<Action>): seq<Action>
    decreases |acts|
  {
    if acts == [] then []
    else if acts[0].Send? && acts[0].client != c then Alone(c, acts[1..])
    else [acts[0]] + Alone(c, acts[1..])
  }

  /** Alone, a client is sent to t exactly its part of what t is sent. */
  lemma {:induction false} AlonePart(c: nat, t: nat, acts: seq<Action>, bound: set<nat>)
    ensures CallsFor(t, Alone(c, acts), bound) == CallsBy(c, SentTo(t, acts, bound))
    ensures Reliable(t, acts) ==> Reliable(t, Alone(c, acts))
    decreases |acts|
  {
    hide CallsIn, CallsBy;
    if acts == [] {
      NoLog();
      NoLogBy(c);
    } else {
      var next := if acts[0].Bind? then acts[0].targets else bound;
      AlonePart(c, t, acts[1..], next);
      if acts[0].Send? && t in bound {
        CallsByCons(c, acts[0].client, acts[0].call, SentTo(t, acts[1..], next));
        CallsByCons(c, acts[0].client, acts[0].call, SentTo(t, Alone(c, acts[1..]), next));
      }
      if !(acts[0].Send? && acts[0].client != c) {
        assert Alone(c, acts)[0] == acts[0] && Alone(c, acts)[1..] == Alone(c, acts[1..]);
      }
      ReliableTail(t, acts);
    }
  }

  lemma NoLogBy(c: nat)
    ensures CallsBy(c, []) == []
  {
  }

  lemma ReliableTail(t: nat, acts: seq<Action>)
    requires acts != []
    ensures Reliable(t, acts) ==> Reliable(t, acts[1..])
  {
    forall a <- acts[1..] ensures a in acts {}
  }

  lemma {:induction false} PartIsSmall(c: nat, log: seq<(nat, Call)>)
    requires forall i :: 0 <= i < |log| ==> Small(log[i].1)
    ensures forall i :: 0 <= i < |CallsBy(c, log)| ==> Small(CallsBy(c, log)[i])
    decreases |log|
  {
    hide Small;
    if log != [] { PartIsSmall(c, log[..|log| - 1]); }
  }

  lemma {:induction false} CallsByAppend(c: nat, a: seq<(nat, Call)>, b: seq<(nat, Call)>)
    ensures CallsBy(c, a + b) == CallsBy(c, a) + CallsBy(c, b)
    decreases |b|
  {
    if b == [] {
      assert a + b == a;
    } else {
      assert (a + b)[..|a + b| - 1] == a + b[..|b| - 1];
      CallsByAppend(c, a, b[..|b| - 1]);
    }
  }

  /** The first call from k on whose frame is too long. */
  lemma {:induction false} FirstLong(cs: seq<Call>, k: nat) returns (n: nat)
    requires k <= |cs|
    ensures k <= n <= |cs| && (forall i :: k <= i < n ==> Small(cs[i])) && (n < |cs| ==> !Small(cs[n]))
    decreases |cs| - k
  {
    hide Small;
    if k == |cs| || !Small(cs[k]) { n := k; } else { n := FirstLong(cs, k + 1); }
  }

  /** How a client's part of a log goes on after its first n entries. */
  lemma PartGoesOn(c: nat, log: seq<(nat, Call)>, n: nat)
    requires n <= |log|
    ensures CallsBy(c, log[..n]) <= CallsBy(c, log)
    ensures n == |log| ==> CallsBy(c, log[..n]) == CallsBy(c, log)
    ensures n < |log| && log[n].0 == c ==>
              var k := |CallsBy(c, log[..n])|; k < |CallsBy(c, log)| && CallsBy(c, log)[k] == log[n].1
  {
    hide CallsBy;
    assert log == log[..n] + log[n..];
    CallsByAppend(c, log[..n], log[n..]);
    if n == |log| {
      assert log[..n] == log;
    } else {
      assert log[n..] == [(log[n].0, log[n].1)] + log[n + 1..];
      CallsByCons(c, log[n].0, log[n].1, log[n + 1..]);
    }
  }

  /**
    Other clients neither drop nor reorder a client's calls: of the calls that the agent
    behind a reliable target makes, those of client c are, in the same order, the ones it
    would make if that client were alone; unless another client's frame, too long for the
    agent, ends them early.
  */
  lemma ClientsDoNotInterfere(c: nat, t: nat, acts: seq<Action>, bound: set<nat>, n: nat)
    requires Reliable(t, acts) && n <= |SentTo(t, acts, bound)|
    requires forall i :: 0 <= i < n ==> Small(SentTo(t, acts, bound)[i].1)
    requires n < |SentTo(t, acts, bound)| ==> !Small(SentTo(t, acts, bound)[n].1)
    ensures AllPossible(WritesTo(t, acts, bound)) && AllPossible(WritesTo(t, Alone(c, acts), bound))
    ensures var log := SentTo(t, acts, bound);
            var alone := AgentCalls(Stream(WritesTo(t, Alone(c, acts), bound)));
            && AgentCalls(Stream(WritesTo(t, acts, bound))) == CallsIn(log[..n])
            && CallsBy(c, log[..n]) <= alone
            && (n == |log| || log[n].0 == c ==> CallsBy(c, log[..n]) == alone)
  {
    hide Reliable, SentTo, WritesTo, AgentCalls, Stream, Small, CallsBy, Alone, Encode;
    var log, part := SentTo(t, acts, bound), CallsFor(t, Alone(c, acts), bound);
    AlonePart(c, t, acts, bound);
    ReliableTarget(t, acts, bound, n);
    assert CallsIn(log)[..n] == CallsIn(log[..n]);
    PartIsSmall(c, log[..n]);
    PartGoesOn(c, log, n);
    var k := |CallsBy(c, log[..n])|;
    assert part[..k] == CallsBy(c, log[..n]);
    forall i | 0 <= i < k ensures Small(part[i]) { assert part[i] == CallsBy(c, log[..n])[i]; }
    var m := FirstLong(part, k);
    ReliableTarget(t, Alone(c, acts), bound, m);
    assert part[..m][..k] == part[..k];
  }

  // ---- The broadcast writer carries such a history out ----

  predicate InRange(order: seq<nat>, n: nat) {
    forall i :: 0 <= i < |order| ==> order[i] < n
  }

  predicate Different(order: seq<nat>) {
    forall i, j :: 0 <= i < j < |order| ==> order[i] != order[j]
  }

  /** The targets with these numbers. */
  function Pick(ts: seq<Target>, order: seq<nat>): seq<Target>
    requires InRange(order, |ts|)
  {
    seq(|order|, i requires 0 <= i < |order| => ts[order[i]])
  }

  method InAnyOrder(targets: set<nat>) returns (order: seq<nat>)
    ensures Different(order) && forall t :: t in order <==> t in targets
  {
    order := [];
    var left := targets;
    while left != {}
      invariant left <= targets && Different(order) && forall t :: t in order <==> t in targets - left
      decreases left
    {
      var t :| t in left;
      assert t !in order;
      order := order + [t];
      left := left - {t};
    }
  }

  ghost predicate KnownTargets(acts: seq<Action>, n: nat) {
    forall i :: 0 <= i < |acts| && acts[i].Bind? ==> forall t <- acts[i].targets :: t < n
  }

  function Numbers(order: seq<nat>): set<nat> {
    set t | t in order
  }

  /** One call, broadcast to the targets bound. */
  method Broadcast(p: PipeInjector, ts: seq<Target>, order: seq<nat>, call: Call, taken: nat -> nat)
    requires Distinct(ts) && AllValid(ts) && InRange(order, |ts|) && Different(order)
    requires p.w == Some(Pick(ts, order))
    modifies set t | t in ts
    ensures AllValid(ts)
    ensures forall t :: 0 <= t < |ts| ==>
              ts[t].writes == old(ts[t].writes) + if t in order then [Accepted(call, taken(t))] else []
  {
    hide Encode, Event;
    var ws := Pick(ts, order);
    var size := |Encode(Event(call))|;
    var ns := seq(|order|, i requires 0 <= i < |order| => if taken(order[i]) <= size then taken(order[i]) else size);
    p.Inject(call, ns);
    forall t | 0 <= t < |ts|
      ensures ts[t].Valid() && ts[t].writes == old(ts[t].writes) + if t in order then [Accepted(call, taken(t))] else []
    {
      if t in order {
        var i :| 0 <= i < |order| && order[i] == t;
        assert ws[i] == ts[t];
      } else {
        assert ts[t] !in ws;
        assert old(ts[t].writes) + [] == old(ts[t].writes);
      }
    }
  }

  /** One action; order lists the targets bound, as the fan-out visits them. */
  method Perform(p: PipeInjector, ts: seq<Target>, order: seq<nat>, act: Action) returns (next: seq<nat>)
    requires Distinct(ts) && AllValid(ts) && InRange(order, |ts|) && Different(order)
    requires p.w == Some(Pick(ts, order))
    requires act.Bind? ==> forall t <- act.targets :: t < |ts|
    modifies p, set t | t in ts
    ensures AllValid(ts) && InRange(next, |ts|) && Different(next) && p.w == Some(Pick(ts, next))
    ensures Numbers(next) == if act.Bind? then act.targets else Numbers(order)
    ensures forall t :: 0 <= t < |ts| ==>
              ts[t].writes == old(ts[t].writes) + if act.Send? && t in order then [Accepted(act.call, act.taken(t))] else []
  {
    hide Accepted, Pick;
    match act {
      case Send(_, call, taken) =>
        next := order;
        Broadcast(p, ts, order, call, taken);
      case Bind(targets) =>
        next := InAnyOrder(targets);
        assert forall i :: 0 <= i < |next| ==> next[i] in targets;
        PickedAreDistinct(ts, next);
        p.SetWriter(Some(Pick(ts, next)));
    }
  }

  /** Whatever clients and monitor do, in the order of the lock, every target sees the
      attempts to write that WritesTo says. */
  method CarryOut(p: PipeInjector, ts: seq<Target>, acts: seq<Action>)
    requires p.w == None && Distinct(ts) && AllValid(ts) && KnownTargets(acts, |ts|)
    modifies p, set t | t in ts
    ensures AllValid(ts)
    ensures forall t :: 0 <= t < |ts| ==> ts[t].writes == old(ts[t].writes) + WritesTo(t, acts, {})
  {
    hide WritesTo, Accepted, Distinct, AllValid;
    var order: seq<nat> := [];
    NothingPicked(ts, acts);
    p.SetWriter(Some([])); // no targets do what no writer does: nothing
    for k := 0 to |acts|
      invariant AllValid(ts) && InRange(order, |ts|) && Different(order) && p.w == Some(Pick(ts, order))
      invariant forall t :: 0 <= t < |ts| ==>
                  ts[t].writes + WritesTo(t, acts[k..], Numbers(order)) == old(ts[t].writes) + WritesTo(t, acts, {})
    {
      ghost var before := order;
      forall t: nat ensures WritesTo(t, acts[k..], Numbers(before)) ==
          (if acts[k].Send? && t in before then [Accepted(acts[k].call, acts[k].taken(t))] else []) +
          WritesTo(t, acts[k + 1..], if acts[k].Bind? then acts[k].targets else Numbers(before))
      {
        WritesMore(t, acts, k, before);
      }
      order := Perform(p, ts, order, acts[k]);
    }
    NoMoreWrites(acts);
  }

  lemma WritesMore(t: nat, acts: seq<Action>, k: nat, order: seq<nat>)
    requires k < |acts|
    ensures WritesTo(t, acts[k..], Numbers(order)) ==
      (if acts[k].Send? && t in order then [Accepted(acts[k].call, acts[k].taken(t))] else []) +
      WritesTo(t, acts[k + 1..], if acts[k].Bind? then acts[k].targets else Numbers(order))
  {
    hide Accepted;
    assert acts[k..][0] == acts[k] && acts[k..][1..] == acts[k + 1..];
  }

  lemma NothingPicked(ts: seq<Target>, acts: seq<Action>)
    ensures Pick(ts, []) == [] && Numbers([]) == {} && acts[0..] == acts && Distinct([]) && AllValid([])
  {
  }

  lemma NoMoreWrites(acts: seq<Action>)
    ensures forall t: nat, order :: WritesTo(t, acts[|acts|..], Numbers(order)) == []
  {
    assert acts[|acts|..] == [];
  }

  lemma PickedAreDistinct(ts: seq<Target>, order: seq<nat>)
    requires Distinct(ts) && InRange(order, |ts|) && Different(order)
    ensures Distinct(Pick(ts, order)) && forall x <- Pick(ts, order) :: x in ts
  {
  }
}
