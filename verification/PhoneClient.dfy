/**
  ios/Sources/Models/Client.swift: the phone's serial queue. Motion is collected on two
  channels and sent by timers; every other message first flushes both channels.
  Times are in milliseconds.
*/
module PhoneClient {
  import opened Prelude

  const MOVE_INTERVAL: int := 8

  /** What goes onto the connection; anything but motion is opaque here. */
  datatype Message = Move(dx: int, dy: int) | MoveAbs(x: int, y: int) | Other(text: string)

  datatype Packet = Packet(msg: Message, at: int)

  /** A block that runs on the queue: a call by the app, or a timer that has come due. */
  datatype Block =
    | MoveBy(dx: int, dy: int) | MoveTo(x: int, y: int) | Submit(text: string) | Disconnect
    | FireMove(deadline: int) | FireAbs(deadline: int)

  datatype Event = Event(at: int, block: Block)

  /** One coalescing channel: its flag, when the flag was last raised, the deadlines of
      the timers still to fire, and the barriers since there were none. */
  datatype Channel = Channel(scheduled: bool, since: int, timers: multiset<int>, barriers: nat)

  datatype State = State(
    live: bool, sent: seq<Packet>,
    dx: int, dy: int, move: Channel,
    x: int, y: int, absPending: bool, abs: Channel)

  const QUIET := Channel(false, 0, multiset{}, 0)
  const START := State(true, [], 0, 0, QUIET, 0, 0, false, QUIET)

  // ---- The queue, as a function ----

  function Arm(c: Channel, at: int): Channel {
    if c.scheduled then c else c.(scheduled := true, since := at, timers := c.timers + multiset{at + MOVE_INTERVAL})
  }

  function Calm(c: Channel): Channel {
    if c.timers == multiset{} then c.(barriers := 0) else c
  }

  function Fired(c: Channel, deadline: int): Channel {
    Calm(c.(scheduled := false, timers := c.timers - multiset{deadline}))
  }

  /** A flush by another message: the flag falls, but a timer already set stays set. */
  function Barred(c: Channel): Channel {
    Calm(c.(scheduled := false, barriers := c.barriers + 1))
  }

  function WriteLine(s: State, at: int, m: Message): State {
    if s.live then s.(sent := s.sent + [Packet(m, at)]) else s
  }

  function FlushMove(s: State, at: int): State {
    var t := s.(dx := 0, dy := 0);
    if s.dx == 0 && s.dy == 0 then t else WriteLine(t, at, Move(s.dx, s.dy))
  }

  function FlushAbs(s: State, at: int): State {
    if s.absPending then WriteLine(s.(absPending := false), at, MoveAbs(s.x, s.y)) else s
  }

  function BarMove(s: State, at: int): State {
    FlushMove(s.(move := Barred(s.move)), at)
  }

  function BarAbs(s: State, at: int): State {
    FlushAbs(s.(abs := Barred(s.abs)), at)
  }

  /** Both channels, motion first, and then the message itself. */
  function Barrier(s: State, at: int, text: string): State {
    WriteLine(BarAbs(BarMove(s, at), at), at, Other(text))
  }

  function Step(s: State, e: Event): State {
    match e.block
    case MoveBy(dx, dy) => s.(dx := s.dx + dx, dy := s.dy + dy, move := Arm(s.move, e.at))
    case MoveTo(x, y) => s.(x := x, y := y, absPending := true, abs := Arm(s.abs, e.at))
    case Submit(text) => Barrier(s, e.at, text)
    case Disconnect => Barrier(s, e.at, "bye").(live := false)
    case FireMove(d) => FlushMove(s.(move := Fired(s.move, d)), e.at)
    case FireAbs(d) => FlushAbs(s.(abs := Fired(s.abs, d)), e.at)
  }

  function RunFrom(s: State, es: seq<Event>): State
    decreases |es|
  {
    if es == [] then s else Step(RunFrom(s, es[..|es| - 1]), es[|es| - 1])
  }

  function Run(es: seq<Event>): State {
    RunFrom(START, es)
  }

  // ---- The queue as it is written ----

  class Client {
    var live: bool  // conn is not nil
    var sent: seq<Packet>
    var pendingMoveDX: int
    var pendingMoveDY: int
    var moveFlushScheduled: bool
    var pendingAbsX: int
    var pendingAbsY: int
    var absPending: bool
    var absFlushScheduled: bool
    // The dispatch queue's timers, and what the proofs remember about them.
    var moveTimers: multiset<int>
    var absTimers: multiset<int>
    ghost var moveSince: int
    ghost var absSince: int
    ghost var moveBarriers: nat
    ghost var absBarriers: nat

    ghost function Abs(): State
      reads this
    {
      State(live, sent,
            pendingMoveDX, pendingMoveDY, Channel(moveFlushScheduled, moveSince, moveTimers, moveBarriers),
            pendingAbsX, pendingAbsY, absPending, Channel(absFlushScheduled, absSince, absTimers, absBarriers))
    }

    constructor ()
      ensures Abs() == START
    {
      live, sent := true, [];
      pendingMoveDX, pendingMoveDY, moveFlushScheduled := 0, 0, false;
      pendingAbsX, pendingAbsY, absPending, absFlushScheduled := 0, 0, false, false;
      moveTimers, absTimers := multiset{}, multiset{};
      moveSince, absSince, moveBarriers, absBarriers := 0, 0, 0, 0;
    }

    method Line(at: int, m: Message)
      modifies `sent
      ensures Abs() == WriteLine(old(Abs()), at, m)
    {
      if live {
        sent := sent + [Packet(m, at)];
      }
    }

    method FlushMotion(at: int)
      modifies `sent, `pendingMoveDX, `pendingMoveDY, `moveFlushScheduled
      ensures Abs() == var s := old(Abs()); FlushMove(s.(move := s.move.(scheduled := false)), at)
    {
      moveFlushScheduled := false;
      var dx, dy := pendingMoveDX, pendingMoveDY;
      pendingMoveDX, pendingMoveDY := 0, 0;
      if dx != 0 || dy != 0 {
        Line(at, Move(dx, dy));
      }
    }

    method FlushPosition(at: int)
      modifies `sent, `absPending, `absFlushScheduled
      ensures Abs() == var s := old(Abs()); FlushAbs(s.(abs := s.abs.(scheduled := false)), at)
    {
      absFlushScheduled := false;
      if absPending {
        absPending := false;
        Line(at, MoveAbs(pendingAbsX, pendingAbsY));
      }
    }

    method MoveOn(at: int, dx: int, dy: int)
      modifies this
      ensures Abs() == Step(old(Abs()), Event(at, MoveBy(dx, dy)))
    {
      hide Barrier, FlushMove, FlushAbs, Fired, Arm;
      pendingMoveDX := pendingMoveDX + dx;
      pendingMoveDY := pendingMoveDY + dy;
      ScheduleMove(at);
    }

    method ScheduleMove(at: int)
      modifies `moveFlushScheduled, `moveTimers, `moveSince
      ensures Abs() == old(Abs()).(move := Arm(old(Abs()).move, at))
    {
      if !moveFlushScheduled {
        moveFlushScheduled := true;
        moveTimers := moveTimers + multiset{at + MOVE_INTERVAL};
        moveSince := at;
      }
    }

    method MoveAbsTo(at: int, x: int, y: int)
      modifies this
      ensures Abs() == Step(old(Abs()), Event(at, MoveTo(x, y)))
    {
      hide Barrier, FlushMove, FlushAbs, Fired, Arm;
      pendingAbsX := x;
      pendingAbsY := y;
      absPending := true;
      ScheduleAbs(at);
    }

    method ScheduleAbs(at: int)
      modifies `absFlushScheduled, `absTimers, `absSince
      ensures Abs() == old(Abs()).(abs := Arm(old(Abs()).abs, at))
    {
      if !absFlushScheduled {
        absFlushScheduled := true;
        absTimers := absTimers + multiset{at + MOVE_INTERVAL};
        absSince := at;
      }
    }

    method Send(at: int, text: string)
      modifies this
      ensures Abs() == Step(old(Abs()), Event(at, Submit(text)))
    {
      hide BarMove, BarAbs, WriteLine;
      BarMotion(at);
      BarPosition(at);
      Line(at, Other(text));
    }

    method BarMotion(at: int)
      modifies this
      ensures Abs() == BarMove(old(Abs()), at)
    {
      hide FlushMove;
      moveBarriers := if moveTimers == multiset{} then 0 else moveBarriers + 1;
      FlushMotion(at);
    }

    method BarPosition(at: int)
      modifies this
      ensures Abs() == BarAbs(old(Abs()), at)
    {
      hide FlushAbs;
      absBarriers := if absTimers == multiset{} then 0 else absBarriers + 1;
      FlushPosition(at);
    }

    method HangUp(at: int)
      modifies this
      ensures Abs() == Step(old(Abs()), Event(at, Disconnect))
    {
      Send(at, "bye");
      live := false;
    }

    method OnMoveTimer(at: int, deadline: int)
      modifies this
      ensures Abs() == Step(old(Abs()), Event(at, FireMove(deadline)))
    {
      hide Barrier, FlushMove, FlushAbs, Arm;
      SpendMoveTimer(deadline);
      FlushMotion(at);
    }

    method SpendMoveTimer(deadline: int)
      modifies `moveTimers, `moveBarriers
      ensures Abs() == var s := old(Abs()); s.(move := Calm(s.move.(timers := s.move.timers - multiset{deadline})))
    {
      moveTimers := moveTimers - multiset{deadline};
      if moveTimers == multiset{} { moveBarriers := 0; }
    }

    method OnAbsTimer(at: int, deadline: int)
      modifies this
      ensures Abs() == Step(old(Abs()), Event(at, FireAbs(deadline)))
    {
      hide Barrier, FlushMove, FlushAbs, Arm;
      SpendAbsTimer(deadline);
      FlushPosition(at);
    }

    method SpendAbsTimer(deadline: int)
      modifies `absTimers, `absBarriers
      ensures Abs() == var s := old(Abs()); s.(abs := Calm(s.abs.(timers := s.abs.timers - multiset{deadline})))
    {
      absTimers := absTimers - multiset{deadline};
      if absTimers == multiset{} { absBarriers := 0; }
    }
  }

  // ---- What the app asked for, uncoalesced ----

  function RawOf(e: Event): seq<Message> {
    match e.block
    case MoveBy(dx, dy) => [Move(dx, dy)]
    case MoveTo(x, y) => [MoveAbs(x, y)]
    case Submit(text) => [Other(text)]
    case Disconnect => [Other("bye")]
    case _ => []
  }

  /** Hanging up says bye after everything else, and nothing is sent after that. */
  lemma {:induction false} ByeIsLast(s: State, at: int, es: seq<Event>)
    requires s.live
    ensures var sent := RunFrom(Step(s, Event(at, Disconnect)), es).sent;
            sent != [] && s.sent < sent && sent[|sent| - 1] == Packet(Other("bye"), at)
    decreases |es|
  {
    hide Step;
    if es == [] {
      StepWrites(s, Event(at, Disconnect));
    } else {
      ByeIsLast(s, at, es[..|es| - 1]);
      StaysDead(s, at, es[..|es| - 1]);
      DeadStaysDead(RunFrom(Step(s, Event(at, Disconnect)), es[..|es| - 1]), es[|es| - 1]);
    }
  }

  lemma {:induction false} StaysDead(s: State, at: int, es: seq<Event>)
    ensures !RunFrom(Step(s, Event(at, Disconnect)), es).live
    decreases |es|
  {
    if es != [] {
      StaysDead(s, at, es[..|es| - 1]);
      DeadStaysDead(RunFrom(Step(s, Event(at, Disconnect)), es[..|es| - 1]), es[|es| - 1]);
    }
  }

  /** Everything submitted while the connection was live. */
  function Raw(es: seq<Event>): seq<Message>
    decreases |es|
  {
    if es == [] then []
    else
      var before := es[..|es| - 1];
      Raw(before) + if Run(before).live then RawOf(es[|es| - 1]) else []
  }

  function Messages(ps: seq<Packet>): seq<Message> {
    seq(|ps|, i requires 0 <= i < |ps| => ps[i].msg)
  }

  // ---- What one block puts on the connection ----

  function MovePacket(s: State, at: int): seq<Packet> {
    if s.dx == 0 && s.dy == 0 then [] else [Packet(Move(s.dx, s.dy), at)]
  }

  function AbsPacket(s: State, at: int): seq<Packet> {
    if s.absPending then [Packet(MoveAbs(s.x, s.y), at)] else []
  }

  function BarrierPackets(s: State, at: int, text: string): seq<Packet> {
    MovePacket(s, at) + AbsPacket(s, at) + [Packet(Other(text), at)]
  }

  function Written(s: State, e: Event): seq<Packet> {
    if !s.live then []
    else match e.block
      case Submit(text) => BarrierPackets(s, e.at, text)
      case Disconnect => BarrierPackets(s, e.at, "bye")
      case FireMove(_) => MovePacket(s, e.at)
      case FireAbs(_) => AbsPacket(s, e.at)
      case _ => []
  }

  lemma FlushesWrite(s: State, at: int)
    requires s.live
    ensures FlushMove(s, at).sent == s.sent + MovePacket(s, at) && FlushAbs(s, at).sent == s.sent + AbsPacket(s, at)
  {
  }

  lemma BarrierWrites(s: State, at: int, text: string)
    requires s.live
    ensures Barrier(s, at, text).sent == s.sent + BarrierPackets(s, at, text)
  {
    hide Barred, MovePacket, AbsPacket;
    var s1 := s.(move := Barred(s.move));
    FlushesWrite(s1, at);
    var s2 := BarMove(s, at);
    FlushesWrite(s2.(abs := Barred(s2.abs)), at);
    SamePackets(s, s1, at);
    SamePackets(s, s2.(abs := Barred(s2.abs)), at);
  }

  lemma SamePackets(s: State, t: State, at: int)
    ensures s.dx == t.dx && s.dy == t.dy ==> MovePacket(s, at) == MovePacket(t, at)
    ensures s.x == t.x && s.y == t.y && s.absPending == t.absPending ==> AbsPacket(s, at) == AbsPacket(t, at)
  {
  }

  lemma StepWrites(s: State, e: Event)
    ensures Step(s, e).sent == s.sent + Written(s, e)
  {
    hide Barrier, BarrierPackets, MovePacket, AbsPacket, FlushMove, FlushAbs, Fired, Arm;
    if s.live {
      match e.block
      case Submit(text) => BarrierWrites(s, e.at, text);
      case Disconnect => BarrierWrites(s, e.at, "bye");
      case FireMove(d) =>
        var t := s.(move := Fired(s.move, d));
        FlushesWrite(t, e.at);
        SamePackets(s, t, e.at);
      case FireAbs(d) =>
        var t := s.(abs := Fired(s.abs, d));
        FlushesWrite(t, e.at);
        SamePackets(s, t, e.at);
      case _ => assert s.sent + [] == s.sent;
    } else {
      DeadStaysDead(s, e);
    }
  }

  lemma DeadStaysDead(s: State, e: Event)
    requires !s.live
    ensures Step(s, e).sent == s.sent && !Step(s, e).live
  {
  }

  // ---- Streams cut into windows between the messages that are not motion ----

  /** The motion of one window: total of the relative moves, whether there was any, and
      the last absolute position. */
  datatype Window = Window(dx: int, dy: int, moved: bool, abs: Option<(int, int)>)

  datatype Segment = Segment(w: Window, text: string)

  datatype Summary = Summary(done: seq<Segment>, open: Window)

  const EMPTY := Window(0, 0, false, None)

  function Add(s: Summary, m: Message): Summary {
    match m
    case Move(dx, dy) =>
      s.(open := s.open.(dx := s.open.dx + dx, dy := s.open.dy + dy, moved := s.open.moved || dx != 0 || dy != 0))
    case MoveAbs(x, y) => s.(open := s.open.(abs := Some((x, y))))
    case Other(text) => Summary(s.done + [Segment(s.open, text)], EMPTY)
  }

  function Summarize(ms: seq<Message>): Summary
    decreases |ms|
  {
    if ms == [] then Summary([], EMPTY) else Add(Summarize(ms[..|ms| - 1]), ms[|ms| - 1])
  }

  lemma SummarizeMore(ms: seq<Message>, m: Message)
    ensures Summarize(ms + [m]) == Add(Summarize(ms), m)
  {
    assert (ms + [m])[..|ms|] == ms;
  }

  /** The same motion in total, with no relative move where there was none to send. */
  predicate SameWindow(raw: Window, sent: Window) {
    raw.dx == sent.dx && raw.dy == sent.dy && raw.abs == sent.abs && (sent.moved ==> raw.moved)
  }

  predicate SameSegments(raw: seq<Segment>, sent: seq<Segment>) {
    |raw| == |sent| && forall i :: 0 <= i < |raw| ==> raw[i].text == sent[i].text && SameWindow(raw[i].w, sent[i].w)
  }

  /** The open window once the motion still held back is added. */
  function WithPending(w: Window, s: State): Window {
    Window(w.dx + s.dx, w.dy + s.dy, w.moved || s.dx != 0 || s.dy != 0, if s.absPending then Some((s.x, s.y)) else w.abs)
  }

  ghost predicate Refines(raw: Summary, s: State) {
    var sent := Summarize(Messages(s.sent));
    SameSegments(raw.done, sent.done) &&
    SameWindow(raw.open, if s.live then WithPending(sent.open, s) else sent.open)
  }

  lemma SentMore(s: State, at: int, m: Message)
    requires s.live
    ensures Summarize(Messages(WriteLine(s, at, m).sent)) == Add(Summarize(Messages(s.sent)), m)
  {
    assert Messages(s.sent + [Packet(m, at)]) == Messages(s.sent) + [m];
    SummarizeMore(Messages(s.sent), m);
  }

  /** Flushing moves pending motion onto the connection and changes nothing else. */
  lemma FlushRefines(raw: Summary, s: State, at: int)
    requires s.live && Refines(raw, s)
    ensures Refines(raw, FlushMove(s, at)) && FlushMove(s, at).live
    ensures Refines(raw, FlushAbs(s, at)) && FlushAbs(s, at).live
  {
    if s.dx != 0 || s.dy != 0 { SentMore(s.(dx := 0, dy := 0), at, Move(s.dx, s.dy)); }
    if s.absPending { SentMore(s.(absPending := false), at, MoveAbs(s.x, s.y)); }
  }

  lemma BarrierRefines(raw: Summary, s: State, at: int, text: string)
    requires s.live && Refines(raw, s)
    ensures var t := Barrier(s, at, text);
            Refines(Add(raw, Other(text)), t) && t.live && Refines(Add(raw, Other(text)), t.(live := false))
  {
    hide FlushMove, FlushAbs, Barred, Add, SameSegments;
    TimersDoNotMatter(raw, s, Barred(s.move), s.abs);
    FlushRefines(raw, s.(move := Barred(s.move)), at);
    var s1 := BarMove(s, at);
    TimersDoNotMatter(raw, s1, s1.move, Barred(s1.abs));
    FlushRefines(raw, s1.(abs := Barred(s1.abs)), at);
    var s2 := BarAbs(s1, at);
    BarrierFlushes(s, at, text);
    SentMore(s2, at, Other(text));
    OtherRefines(raw, s2, at, text);
  }

  lemma OtherRefines(raw: Summary, s: State, at: int, text: string)
    requires s.live && Refines(raw, s) && s.dx == 0 && s.dy == 0 && !s.absPending
    ensures var t := WriteLine(s, at, Other(text));
            Refines(Add(raw, Other(text)), t) && t.live && Refines(Add(raw, Other(text)), t.(live := false))
  {
    SentMore(s, at, Other(text));
  }

  lemma CollectingRefines(raw: Summary, s: State, e: Event)
    requires s.live && Refines(raw, s) && (e.block.MoveBy? || e.block.MoveTo?)
    ensures Refines(Add(raw, RawOf(e)[0]), Step(s, e))
  {
  }

  lemma TimersDoNotMatter(raw: Summary, s: State, move: Channel, abs: Channel)
    requires Refines(raw, s)
    ensures Refines(raw, s.(move := move, abs := abs))
  {
  }

  lemma StepRefines(raw: Summary, s: State, e: Event)
    requires s.live && Refines(raw, s)
    ensures Refines(if RawOf(e) == [] then raw else Add(raw, RawOf(e)[0]), Step(s, e))
  {
    hide Refines, Barrier, FlushMove, FlushAbs, Fired, Add;
    match e.block
    case MoveBy(_, _) => CollectingRefines(raw, s, e);
    case MoveTo(_, _) => CollectingRefines(raw, s, e);
    case Submit(text) => BarrierRefines(raw, s, e.at, text);
    case Disconnect => BarrierRefines(raw, s, e.at, "bye");
    case FireMove(d) =>
      TimersDoNotMatter(raw, s, Fired(s.move, d), s.abs);
      FlushRefines(raw, s.(move := Fired(s.move, d)), e.at);
    case FireAbs(d) =>
      TimersDoNotMatter(raw, s, s.move, Fired(s.abs, d));
      FlushRefines(raw, s.(abs := Fired(s.abs, d)), e.at);
  }

  /** No packet moves by nothing. */
  lemma {:induction false} NoEmptyMoves(es: seq<Event>)
    ensures forall p <- Run(es).sent :: p.msg != Move(0, 0)
    decreases |es|
  {
    hide Step, AbsPacket;
    if es != [] {
      var before, e := es[..|es| - 1], es[|es| - 1];
      NoEmptyMoves(before);
      StepWrites(Run(before), e);
      AbsIsAbs(Run(before), e.at);
    }
  }

  lemma AbsIsAbs(s: State, at: int)
    ensures forall p <- AbsPacket(s, at) :: p.msg.MoveAbs?
  {
  }

  /**
    Coalescing refines the stream the app submitted: the other messages leave in call
    order, and between two of them the moves sent add up to the moves submitted and the
    last position sent is the last position submitted. Motion not yet sent is pending.
  */
  lemma {:induction false} CoalescingRefines(es: seq<Event>)
    ensures Refines(Summarize(Raw(es)), Run(es))
    decreases |es|
  {
    if es == [] {
      assert Messages([]) == [];
    } else {
      var before, e := es[..|es| - 1], es[|es| - 1];
      var s := Run(before);
      CoalescingRefines(before);
      if s.live {
        StepRefines(Summarize(Raw(before)), s, e);
        if RawOf(e) == [] {
          assert Raw(before) + [] == Raw(before);
        } else {
          assert RawOf(e) == [RawOf(e)[0]];
          SummarizeMore(Raw(before), RawOf(e)[0]);
        }
      } else {
        DeadStaysDead(s, e);
        assert Raw(before) + [] == Raw(before);
      }
    }
  }

  // ---- Where the cursor is at each click ----

  type Point = (int, int)

  /** The cursor after a message; place says where an absolute position is on the screen. */
  function Moved(p: Point, m: Message, place: (int, int) -> Point): Point {
    match m
    case Move(dx, dy) => (p.0 + dx, p.1 + dy)
    case MoveAbs(x, y) => place(x, y)
    case Other(_) => p
  }

  function Cursor(ms: seq<Message>, p: Point, place: (int, int) -> Point): Point
    decreases |ms|
  {
    if ms == [] then p else Moved(Cursor(ms[..|ms| - 1], p, place), ms[|ms| - 1], place)
  }

  /** The cursor at each message that is not motion. */
  function Clicks(ms: seq<Message>, p: Point, place: (int, int) -> Point): seq<Point>
    decreases |ms|
  {
    if ms == [] then []
    else
      var before, m := ms[..|ms| - 1], ms[|ms| - 1];
      Clicks(before, p, place) + if m.Other? then [Cursor(before, p, place)] else []
  }

  predicate Unmixed(w: Window) {
    w.abs.Some? ==> !w.moved
  }

  predicate AllUnmixed(s: Summary) {
    Unmixed(s.open) && forall i :: 0 <= i < |s.done| ==> Unmixed(s.done[i].w)
  }

  /** Where an unmixed window takes the cursor. */
  function Through(p: Point, w: Window, place: (int, int) -> Point): Point {
    if w.abs.Some? then place(w.abs.value.0, w.abs.value.1) else (p.0 + w.dx, p.1 + w.dy)
  }

  function Stops(segs: seq<Segment>, p: Point, place: (int, int) -> Point): seq<Point>
    ensures |Stops(segs, p, place)| == |segs|
    decreases |segs|
  {
    if segs == [] then []
    else
      var before := Stops(segs[..|segs| - 1], p, place);
      before + [Through(if before == [] then p else before[|before| - 1], segs[|segs| - 1].w, place)]
  }

  function LastStop(segs: seq<Segment>, p: Point, place: (int, int) -> Point): Point {
    var stops := Stops(segs, p, place);
    if stops == [] then p else stops[|stops| - 1]
  }

  lemma UnmixedBefore(s: Summary, m: Message)
    requires AllUnmixed(Add(s, m))
    ensures AllUnmixed(s)
  {
    var t := Add(s, m);
    if m.Other? {
      assert t.done[|s.done|].w == s.open;
      forall i | 0 <= i < |s.done| ensures Unmixed(s.done[i].w) { assert t.done[i] == s.done[i]; }
    }
  }

  lemma NoStops(p: Point, place: (int, int) -> Point)
    ensures Stops([], p, place) == [] && LastStop([], p, place) == p
  {
  }

  lemma StopsMore(segs: seq<Segment>, seg: Segment, p: Point, place: (int, int) -> Point)
    ensures var q := Through(LastStop(segs, p, place), seg.w, place);
            Stops(segs + [seg], p, place) == Stops(segs, p, place) + [q] && LastStop(segs + [seg], p, place) == q
  {
    assert (segs + [seg])[..|segs|] == segs;
  }

  /** For unmixed streams the summary determines the cursor at every click. */
  lemma {:induction false} SummaryPlaces(ms: seq<Message>, p: Point, place: (int, int) -> Point)
    requires AllUnmixed(Summarize(ms))
    ensures Clicks(ms, p, place) == Stops(Summarize(ms).done, p, place)
    ensures Cursor(ms, p, place) == Through(LastStop(Summarize(ms).done, p, place), Summarize(ms).open, place)
    decreases |ms|
  {
    hide Stops, LastStop;
    if ms == [] {
      NoStops(p, place);
    } else {
      var before, m := ms[..|ms| - 1], ms[|ms| - 1];
      var sum := Summarize(before);
      UnmixedBefore(sum, m);
      SummaryPlaces(before, p, place);
      if m.Other? {
        StopsMore(sum.done, Segment(sum.open, m.text), p, place);
      } else {
        assert Clicks(before, p, place) + [] == Clicks(before, p, place);
      }
    }
  }

  lemma {:induction false} SameStops(a: seq<Segment>, b: seq<Segment>, p: Point, place: (int, int) -> Point)
    requires SameSegments(a, b)
    ensures Stops(a, p, place) == Stops(b, p, place)
    decreases |a|
  {
    if a != [] { SameStops(a[..|a| - 1], b[..|b| - 1], p, place); }
  }

  /** If no window mixes relative and absolute motion, the cursor is at every click where
      the uncoalesced stream would have put it. */
  lemma ClicksLandRight(es: seq<Event>, p: Point, place: (int, int) -> Point)
    requires AllUnmixed(Summarize(Raw(es)))
    ensures Clicks(Messages(Run(es).sent), p, place) == Clicks(Raw(es), p, place)
  {
    var raw, sent := Summarize(Raw(es)), Summarize(Messages(Run(es).sent));
    CoalescingRefines(es);
    forall i | 0 <= i < |sent.done| ensures Unmixed(sent.done[i].w) {
      assert Unmixed(raw.done[i].w) && SameWindow(raw.done[i].w, sent.done[i].w);
    }
    SummaryPlaces(Raw(es), p, place);
    SameStops(raw.done, sent.done, p, place);
    OpenWindow(es);
    SummaryPlaces(Messages(Run(es).sent), p, place);
  }

  lemma OpenWindow(es: seq<Event>)
    requires AllUnmixed(Summarize(Raw(es)))
    ensures Unmixed(Summarize(Messages(Run(es).sent)).open)
  {
    CoalescingRefines(es);
  }

  // ---- Exactly when mixing the channels does no harm ----

  predicate IsBarrier(b: Block) {
    b.Submit? || b.Disconnect?
  }

  predicate InWindow(e: Event) {
    !IsBarrier(e.block)
  }

  function Plus(p: Point, d: (int, int)): Point {
    (p.0 + d.0, p.1 + d.1)
  }

  /** The last absolute position, and the relative motion after it or, without one, in all. */
  function LastAbs(ms: seq<Message>): Option<(int, int)>
    decreases |ms|
  {
    if ms == [] then None
    else match ms[|ms| - 1]
      case MoveAbs(x, y) => Some((x, y))
      case _ => LastAbs(ms[..|ms| - 1])
  }

  function AfterLastAbs(ms: seq<Message>): (int, int)
    decreases |ms|
  {
    if ms == [] then (0, 0)
    else match ms[|ms| - 1]
      case Move(dx, dy) => Plus(AfterLastAbs(ms[..|ms| - 1]), (dx, dy))
      case MoveAbs(_, _) => (0, 0)
      case Other(_) => AfterLastAbs(ms[..|ms| - 1])
  }

  /** These two are all that the cursor depends on. */
  lemma {:induction false} CursorIs(ms: seq<Message>, p: Point, place: (int, int) -> Point)
    ensures var a := LastAbs(ms);
            Cursor(ms, p, place) == Plus(if a.Some? then place(a.value.0, a.value.1) else p, AfterLastAbs(ms))
    decreases |ms|
  {
    if ms != [] { CursorIs(ms[..|ms| - 1], p, place); }
  }

  lemma {:induction false} MotionAppend(a: seq<Message>, b: seq<Message>)
    ensures LastAbs(a + b) == if LastAbs(b).Some? then LastAbs(b) else LastAbs(a)
    ensures AfterLastAbs(a + b) == if LastAbs(b).Some? then AfterLastAbs(b) else Plus(AfterLastAbs(a), AfterLastAbs(b))
    decreases |b|
  {
    if b == [] {
      assert a + b == a;
    } else {
      assert (a + b)[..|a + b| - 1] == a + b[..|b| - 1];
      MotionAppend(a, b[..|b| - 1]);
    }
  }

  /** What the blocks of a window submit, and what they send. */
  function Submitted(es: seq<Event>): seq<Message>
    decreases |es|
  {
    if es == [] then [] else Submitted(es[..|es| - 1]) + RawOf(es[|es| - 1])
  }

  function Outgoing(s: State, es: seq<Event>): seq<Message>
    decreases |es|
  {
    if es == [] then []
    else
      var before := es[..|es| - 1];
      Outgoing(s, before) + Messages(Written(RunFrom(s, before), es[|es| - 1]))
  }

  lemma MessagesAppend(a: seq<Packet>, b: seq<Packet>)
    ensures Messages(a + b) == Messages(a) + Messages(b)
  {
  }

  lemma {:induction false} OutgoingIsSent(s: State, es: seq<Event>)
    ensures Messages(RunFrom(s, es).sent) == Messages(s.sent) + Outgoing(s, es)
    decreases |es|
  {
    hide Step, Written, Messages;
    if es == [] {
      assert Messages(s.sent) + [] == Messages(s.sent);
    } else {
      var before, e := es[..|es| - 1], es[|es| - 1];
      OutgoingIsSent(s, before);
      StepWrites(RunFrom(s, before), e);
      MessagesAppend(RunFrom(s, before).sent, Written(RunFrom(s, before), e));
    }
  }

  lemma PacketMotion(s: State, at: int)
    ensures LastAbs(Messages(MovePacket(s, at))) == None && AfterLastAbs(Messages(MovePacket(s, at))) == (s.dx, s.dy)
    ensures LastAbs(Messages(AbsPacket(s, at))) == (if s.absPending then Some((s.x, s.y)) else None)
    ensures AfterLastAbs(Messages(AbsPacket(s, at))) == (0, 0)
  {
  }

  lemma OtherMotion(at: int, text: string)
    ensures LastAbs(Messages([Packet(Other(text), at)])) == None
    ensures AfterLastAbs(Messages([Packet(Other(text), at)])) == (0, 0)
  {
  }

  lemma BarrierMotion(s: State, at: int, text: string)
    ensures var ms := Messages(BarrierPackets(s, at, text));
            && LastAbs(ms) == (if s.absPending then Some((s.x, s.y)) else None)
            && AfterLastAbs(ms) == if s.absPending then (0, 0) else (s.dx, s.dy)
  {
    hide Messages, LastAbs, AfterLastAbs, MovePacket, AbsPacket;
    var a, b, c := MovePacket(s, at), AbsPacket(s, at), [Packet(Other(text), at)];
    PacketMotion(s, at);
    OtherMotion(at, text);
    MessagesAppend(a + b, c);
    MessagesAppend(a, b);
    MotionAppend(Messages(a) + Messages(b), Messages(c));
    MotionAppend(Messages(a), Messages(b));
  }

  predicate Flushed(s: State) {
    s.live && s.dx == 0 && s.dy == 0 && !s.absPending
  }

  /** How pending and sent motion make up the motion submitted: all of it while no position
      has been submitted; afterwards the last position is pending, or was the last one sent. */
  predicate Collected(t: State, sent: seq<Message>, raw: seq<Message>) {
    && t.live
    && (if LastAbs(raw).None? then
          !t.absPending && LastAbs(sent) == None && Plus(AfterLastAbs(sent), (t.dx, t.dy)) == AfterLastAbs(raw)
        else LastAbs(raw) == if t.absPending then Some((t.x, t.y)) else LastAbs(sent))
  }

  lemma RawMotion(e: Event)
    requires InWindow(e)
    ensures LastAbs(RawOf(e)) == (if e.block.MoveTo? then Some((e.block.x, e.block.y)) else None)
    ensures AfterLastAbs(RawOf(e)) == if e.block.MoveBy? then (e.block.dx, e.block.dy) else (0, 0)
  {
  }

  lemma WrittenMotion(s: State, e: Event)
    requires InWindow(e) && s.live
    ensures var ms := Messages(Written(s, e));
            && LastAbs(ms) == (if e.block.FireAbs? && s.absPending then Some((s.x, s.y)) else None)
            && AfterLastAbs(ms) == if e.block.FireMove? then (s.dx, s.dy) else (0, 0)
  {
    hide MovePacket, AbsPacket;
    PacketMotion(s, e.at);
  }

  lemma CollectOne(t: State, sent: seq<Message>, raw: seq<Message>, e: Event)
    requires Collected(t, sent, raw) && InWindow(e)
    ensures Collected(Step(t, e), sent + Messages(Written(t, e)), raw + RawOf(e))
  {
    hide Messages, Written, RawOf, LastAbs, AfterLastAbs, Fired, Arm;
    RawMotion(e);
    WrittenMotion(t, e);
    MotionAppend(sent, Messages(Written(t, e)));
    MotionAppend(raw, RawOf(e));
  }

  lemma {:induction false} WindowCollects(s: State, es: seq<Event>)
    requires Flushed(s) && forall i :: 0 <= i < |es| ==> InWindow(es[i])
    ensures Collected(RunFrom(s, es), Outgoing(s, es), Submitted(es))
    decreases |es|
  {
    hide Step, Written;
    if es != [] {
      var before, e := es[..|es| - 1], es[|es| - 1];
      WindowCollects(s, before);
      CollectOne(RunFrom(s, before), Outgoing(s, before), Submitted(before), e);
    }
  }

  /**
    For any window of motion and timers that starts flushed and ends with a barrier: the
    packets sent leave the cursor where the motion submitted would have left it exactly
    if no position was submitted; or the last one is still pending at the barrier, and no
    relative motion remains after it; or it has been sent, and the relative motion submitted
    after it is what was sent after its packet together with what is pending.
  */
  lemma WindowIsExact(s: State, es: seq<Event>, at: int, text: string, p: Point, place: (int, int) -> Point)
    requires Flushed(s) && forall i :: 0 <= i < |es| ==> InWindow(es[i])
    ensures var t, raw := RunFrom(s, es), Submitted(es);
            var sent := Outgoing(s, es) + Messages(BarrierPackets(t, at, text));
            && Messages(Barrier(t, at, text).sent) == Messages(s.sent) + sent
            && (Cursor(sent, p, place) == Cursor(raw, p, place) <==>
                  LastAbs(raw).None?
                  || AfterLastAbs(raw) == if t.absPending then (0, 0) else Plus(AfterLastAbs(Outgoing(s, es)), (t.dx, t.dy)))
  {
    hide Barrier, BarrierPackets, RunFrom, Cursor, LastAbs, AfterLastAbs, Messages, Outgoing, Submitted;
    var t, raw := RunFrom(s, es), Submitted(es);
    var last := BarrierPackets(t, at, text);
    WindowCollects(s, es);
    OutgoingIsSent(s, es);
    BarrierWrites(t, at, text);
    MessagesAppend(t.sent, last);
    assert Messages(s.sent) + Outgoing(s, es) + Messages(last) == Messages(s.sent) + (Outgoing(s, es) + Messages(last));
    BarrierMotion(t, at, text);
    MotionAppend(Outgoing(s, es), Messages(last));
    CursorIs(Outgoing(s, es) + Messages(last), p, place);
    CursorIs(raw, p, place);
  }

  const MIXED: seq<Event> := [] + [Event(0, MoveTo(10, 10))] + [Event(1, MoveBy(5, 0))]

  lemma RunMore(s: State, es: seq<Event>, e: Event)
    ensures RunFrom(s, es + [e]) == Step(RunFrom(s, es), e) && Submitted(es + [e]) == Submitted(es) + RawOf(e)
  {
    assert (es + [e])[..|es|] == es;
  }

  lemma MixedIsLegal(at: int, text: string)
    requires at >= 1
    ensures Legal(MIXED + [Event(at, Submit(text))])
  {
    hide Legal, Run, Step;
    var a, b := Event(0, MoveTo(10, 10)), Event(1, MoveBy(5, 0));
    NothingIsLegal();
    LegalMore([], a);
    LegalMore([] + [a], b);
    LegalMore(MIXED, Event(at, Submit(text)));
  }

  /** An absolute position followed by a move: the packets leave the cursor elsewhere. */
  lemma MixedChannelsMisplace(at: int, text: string, p: Point, place: (int, int) -> Point)
    ensures at >= 1 ==> Legal(MIXED + [Event(at, Submit(text))])
    ensures var sent := Outgoing(START, MIXED) + Messages(BarrierPackets(RunFrom(START, MIXED), at, text));
            Cursor(sent, p, place) != Cursor(Submitted(MIXED), p, place)
  {
    hide BarrierPackets, Cursor, Messages, RunFrom, Outgoing, Submitted, Written, Legal;
    var a, b := Event(0, MoveTo(10, 10)), Event(1, MoveBy(5, 0));
    RunMore(START, [], a);
    RunMore(START, [] + [a], b);
    NoEvents(START);
    assert Submitted(MIXED) == [MoveAbs(10, 10)] + [Move(5, 0)];
    assert RunFrom(START, MIXED).absPending;
    MotionAppend([MoveAbs(10, 10)], [Move(5, 0)]);
    WindowIsExact(START, MIXED, at, text, p, place);
    if at >= 1 { MixedIsLegal(at, text); }
  }

  /** A window in which nothing moves after the position, but a timer sends what moved
      before it afterwards. */
  const LATE: seq<Event> :=
    [] + [Event(2, MoveBy(5, 0))] + [Event(3, MoveTo(20, 20))] + [Event(8, FireAbs(8))] + [Event(10, FireMove(10))]

  lemma LateWindow(s: State, at: int, text: string, p: Point, place: (int, int) -> Point)
    requires Flushed(s)
    ensures AfterLastAbs(Submitted(LATE)) == (0, 0)
    ensures var sent := Outgoing(s, LATE) + Messages(BarrierPackets(RunFrom(s, LATE), at, text));
            Cursor(sent, p, place) != Cursor(Submitted(LATE), p, place)
  {
    hide BarrierPackets, Cursor, Messages, RunFrom, Outgoing, Submitted, Fired, Arm;
    var a, b, c, d := Event(2, MoveBy(5, 0)), Event(3, MoveTo(20, 20)), Event(8, FireAbs(8)), Event(10, FireMove(10));
    NoEvents(s);
    RunMore(s, [], a);
    RunMore(s, [] + [a], b);
    RunMore(s, [] + [a] + [b], c);
    RunMore(s, [] + [a] + [b] + [c], d);
    var t := RunFrom(s, [] + [a] + [b] + [c]);
    assert t.live && t.dx == 5 && t.dy == 0 && !t.absPending;
    assert Submitted(LATE) == [Move(5, 0)] + [MoveAbs(20, 20)];
    MotionAppend([Move(5, 0)], [MoveAbs(20, 20)]);
    OutgoingMore(s, [] + [a] + [b] + [c], d);
    WrittenMotion(t, d);
    MotionAppend(Outgoing(s, [] + [a] + [b] + [c]), Messages(Written(t, d)));
    OutgoingMore(s, [] + [a] + [b], c);
    var u := RunFrom(s, [] + [a] + [b]);
    WrittenMotion(u, c);
    MotionAppend(Outgoing(s, [] + [a] + [b]), Messages(Written(u, c)));
    WindowIsExact(s, LATE, at, text, p, place);
  }

  /** A position and a barrier, which leave a timer due at 8. */
  const EARLY: seq<Event> := [] + [Event(0, MoveTo(1, 1))] + [Event(1, Submit("ping"))]

  lemma EarlyIsFlushed()
    ensures Flushed(Run(EARLY)) && Legal(EARLY)
    ensures Run(EARLY).abs.timers == multiset{8} && Run(EARLY).move == QUIET
  {
    hide Run, Step, Barrier, Legal;
    var a, b := Event(0, MoveTo(1, 1)), Event(1, Submit("ping"));
    NothingIsLegal();
    LegalMore([], a);
    LegalMore([] + [a], b);
    var s := Run([] + [a]);
    assert s.live by { MoveToArms(START, a); }
    BarrierChannels(s, 1, "ping");
    StepChannels(START, a, true);
    StepChannels(START, a, false);
    SubmitFlushes(s, b);
  }

  lemma MoveToArms(s: State, e: Event)
    requires e.block.MoveTo?
    ensures Step(s, e).live == s.live
  {
  }

  lemma SubmitFlushes(s: State, e: Event)
    requires e.block.Submit? && s.live
    ensures Flushed(Step(s, e)) && Step(s, e) == Barrier(s, e.at, e.block.text)
  {
  }

  lemma LateIsLegal(at: int, text: string)
    requires at >= 10
    ensures Legal(EARLY + LATE + [Event(at, Submit(text))]) && Run(EARLY + LATE) == RunFrom(Run(EARLY), LATE)
  {
    hide Legal, Run, Step, Barred, Fired, Calm;
    var a, b, c, d := Event(2, MoveBy(5, 0)), Event(3, MoveTo(20, 20)), Event(8, FireAbs(8)), Event(10, FireMove(10));
    EarlyIsFlushed();
    var s := Run(EARLY);
    LegalMore(EARLY, a);
    StepChannels(s, a, true);
    StepChannels(s, a, false);
    LegalMore(EARLY + [a], b);
    StepChannels(Run(EARLY + [a]), b, true);
    StepChannels(Run(EARLY + [a]), b, false);
    LegalMore(EARLY + [a] + [b], c);
    StepChannels(Run(EARLY + [a] + [b]), c, false);
    LegalMore(EARLY + [a] + [b] + [c], d);
    assert EARLY + [a] + [b] + [c] + [d] == EARLY + LATE;
    LegalMore(EARLY + LATE, Event(at, Submit(text)));
    NoEvents(s);
    RunMore(s, [], a);
    RunMore(s, [] + [a], b);
    RunMore(s, [] + [a] + [b], c);
    RunMore(s, [] + [a] + [b] + [c], d);
  }

  /** In a run that the timers allow, nothing moves after the position, and yet the packets
      leave the cursor elsewhere. */
  lemma LateTimerMisplaces(at: int, text: string, p: Point, place: (int, int) -> Point)
    requires at >= 10
    ensures Flushed(Run(EARLY)) && Legal(EARLY + LATE + [Event(at, Submit(text))])
    ensures AfterLastAbs(Submitted(LATE)) == (0, 0) && Run(EARLY + LATE) == RunFrom(Run(EARLY), LATE)
    ensures var s := Run(EARLY);
            var sent := Outgoing(s, LATE) + Messages(BarrierPackets(RunFrom(s, LATE), at, text));
            Cursor(sent, p, place) != Cursor(Submitted(LATE), p, place)
  {
    hide Run, RunFrom, Legal, Cursor, Outgoing, Messages, BarrierPackets, Submitted, AfterLastAbs, Flushed;
    EarlyIsFlushed();
    LateIsLegal(at, text);
    LateWindow(Run(EARLY), at, text, p, place);
  }

  lemma OutgoingMore(s: State, es: seq<Event>, e: Event)
    ensures Outgoing(s, es + [e]) == Outgoing(s, es) + Messages(Written(RunFrom(s, es), e))
  {
    assert (es + [e])[..|es|] == es;
  }

  lemma NoEvents(s: State)
    ensures RunFrom(s, []) == s && Submitted([]) == []
  {
  }

  // ---- Timers ----

  /** Events happen in order, and a timer fires only once, when it is due. */
  predicate Legal(es: seq<Event>)
    decreases |es|
  {
    es == [] ||
    var before, e := es[..|es| - 1], es[|es| - 1];
    && Legal(before) && (before != [] ==> before[|before| - 1].at <= e.at)
    && (e.block.FireMove? ==> e.block.deadline <= e.at && e.block.deadline in Run(before).move.timers)
    && (e.block.FireAbs? ==> e.block.deadline <= e.at && e.block.deadline in Run(before).abs.timers)
  }

  function ChannelOf(s: State, absolute: bool): Channel {
    if absolute then s.abs else s.move
  }

  /** What a block does to one channel. */
  function NextChannel(c: Channel, e: Event, absolute: bool): Channel {
    match e.block
    case MoveBy(_, _) => if absolute then c else Arm(c, e.at)
    case MoveTo(_, _) => if absolute then Arm(c, e.at) else c
    case FireMove(d) => if absolute then c else Fired(c, d)
    case FireAbs(d) => if absolute then Fired(c, d) else c
    case _ => Barred(c)
  }

  lemma FlushKeepsChannels(s: State, at: int)
    ensures FlushMove(s, at).move == s.move && FlushMove(s, at).abs == s.abs
    ensures FlushAbs(s, at).move == s.move && FlushAbs(s, at).abs == s.abs
  {
  }

  lemma BarrierChannels(s: State, at: int, text: string)
    ensures Barrier(s, at, text).move == Barred(s.move) && Barrier(s, at, text).abs == Barred(s.abs)
  {
    hide FlushMove, FlushAbs, Barred;
    FlushKeepsChannels(s.(move := Barred(s.move)), at);
    var s1 := BarMove(s, at);
    FlushKeepsChannels(s1.(abs := Barred(s1.abs)), at);
  }

  lemma StepChannels(s: State, e: Event, absolute: bool)
    ensures ChannelOf(Step(s, e), absolute) == NextChannel(ChannelOf(s, absolute), e, absolute)
  {
    hide Barrier, FlushMove, FlushAbs, Barred, Fired, Arm;
    match e.block
    case Submit(text) => BarrierChannels(s, e.at, text);
    case Disconnect => BarrierChannels(s, e.at, "bye");
    case FireMove(d) => FlushKeepsChannels(s.(move := Fired(s.move, d)), e.at);
    case FireAbs(d) => FlushKeepsChannels(s.(abs := Fired(s.abs, d)), e.at);
    case _ =>
  }

  /** A raised flag has its timer outstanding; timers are no more than the barriers since
      there were none, plus one if the flag is up. */
  predicate Timed(c: Channel) {
    && (c.scheduled ==> c.since + MOVE_INTERVAL in c.timers)
    && |c.timers| <= c.barriers + (if c.scheduled then 1 else 0)
  }

  lemma ChannelStaysTimed(c: Channel, at: int, deadline: int)
    requires Timed(c)
    ensures Timed(Arm(c, at)) && Timed(Barred(c)) && (deadline in c.timers ==> Timed(Fired(c, deadline)))
  {
  }

  predicate Waiting(s: State) {
    && (s.dx != 0 || s.dy != 0 ==> s.move.scheduled) && (s.absPending ==> s.abs.scheduled)
    && Timed(s.move) && Timed(s.abs)
  }

  lemma StepKeepsWaiting(s: State, e: Event)
    requires Waiting(s)
    requires e.block.FireMove? ==> e.block.deadline in s.move.timers
    requires e.block.FireAbs? ==> e.block.deadline in s.abs.timers
    ensures Waiting(Step(s, e))
  {
    hide Timed, Arm, Barred, Fired, Step;
    var d := if e.block.FireMove? || e.block.FireAbs? then e.block.deadline else 0;
    ChannelStaysTimed(s.move, e.at, d);
    ChannelStaysTimed(s.abs, e.at, d);
    StepChannels(s, e, false);
    StepChannels(s, e, true);
    KeepsFlags(s, e);
  }

  lemma BarrierFlushes(s: State, at: int, text: string)
    ensures var t := Barrier(s, at, text); t.dx == 0 && t.dy == 0 && !t.absPending
  {
  }

  lemma KeepsFlags(s: State, e: Event)
    requires (s.dx != 0 || s.dy != 0 ==> s.move.scheduled) && (s.absPending ==> s.abs.scheduled)
    ensures var t := Step(s, e); (t.dx != 0 || t.dy != 0 ==> t.move.scheduled) && (t.absPending ==> t.abs.scheduled)
  {
    hide Barrier;
    if e.block.Submit? { BarrierFlushes(s, e.at, e.block.text); }
    if e.block.Disconnect? { BarrierFlushes(s, e.at, "bye"); }
  }

  /** No motion is stranded: whatever is pending has a timer that will send it, at most
      one interval after the flag was raised for it. */
  lemma {:induction false} NothingStranded(es: seq<Event>)
    requires Legal(es)
    ensures Waiting(Run(es))
    decreases |es|
  {
    hide Waiting, Step;
    if es == [] {
      StartWaits();
    } else {
      NothingStranded(es[..|es| - 1]);
      StepKeepsWaiting(Run(es[..|es| - 1]), es[|es| - 1]);
    }
  }

  lemma StartWaits()
    ensures Waiting(START)
  {
  }

  // ---- Pace ----

  predicate OfKind(p: Packet, absolute: bool) {
    if absolute then p.msg.MoveAbs? else p.msg.Move?
  }

  /** The motion packets of one kind are an interval apart. */
  predicate Paced(sent: seq<Packet>, absolute: bool) {
    forall i, j :: 0 <= i < j < |sent| && OfKind(sent[i], absolute) && OfKind(sent[j], absolute) ==>
      sent[i].at + MOVE_INTERVAL <= sent[j].at
  }

  predicate HasPending(s: State, absolute: bool) {
    if absolute then s.absPending else s.dx != 0 || s.dy != 0
  }

  predicate IsTimer(b: Block, absolute: bool) {
    if absolute then b.FireAbs? else b.FireMove?
  }

  /** A packet of this kind is less than an interval old. */
  predicate TooSoon(sent: seq<Packet>, absolute: bool, at: int) {
    exists i :: 0 <= i < |sent| && OfKind(sent[i], absolute) && at < sent[i].at + MOVE_INTERVAL
  }

  /** The block sends pending motion too early. */
  predicate Breaks(s: State, e: Event, absolute: bool) {
    && s.live && HasPending(s, absolute) && (IsBarrier(e.block) || IsTimer(e.block, absolute))
    && TooSoon(s.sent, absolute, e.at)
  }

  /** The packets that one block sends: all of its time, and at most one of each kind. */
  lemma OneOfAKind(s: State, e: Event, absolute: bool)
    ensures var w := Written(s, e);
            && (forall i :: 0 <= i < |w| ==> w[i].at == e.at)
            && (forall i, j :: 0 <= i < j < |w| ==> !OfKind(w[i], absolute) || !OfKind(w[j], absolute))
            && ((exists i :: 0 <= i < |w| && OfKind(w[i], absolute)) <==>
                  s.live && HasPending(s, absolute) && (IsBarrier(e.block) || IsTimer(e.block, absolute)))
  {
    var w := Written(s, e);
    if s.live && HasPending(s, absolute) && (IsBarrier(e.block) || IsTimer(e.block, absolute)) {
      var i := if absolute && IsBarrier(e.block) then |MovePacket(s, e.at)| else 0;
      assert OfKind(w[i], absolute);
    }
  }

  lemma PacedAppend(sent: seq<Packet>, w: seq<Packet>, at: int, absolute: bool)
    requires forall i :: 0 <= i < |w| ==> w[i].at == at
    requires forall i, j :: 0 <= i < j < |w| ==> !OfKind(w[i], absolute) || !OfKind(w[j], absolute)
    ensures Paced(sent + w, absolute) <==>
              Paced(sent, absolute) && ((exists i :: 0 <= i < |w| && OfKind(w[i], absolute)) ==> !TooSoon(sent, absolute, at))
  {
    hide OfKind;
    var all := sent + w;
    if Paced(all, absolute) {
      forall i, j | 0 <= i < j < |sent| && OfKind(sent[i], absolute) && OfKind(sent[j], absolute)
        ensures sent[i].at + MOVE_INTERVAL <= sent[j].at
      {
        assert all[i] == sent[i] && all[j] == sent[j];
      }
      if j :| 0 <= j < |w| && OfKind(w[j], absolute) {
        assert all[|sent| + j] == w[j];
        forall i | 0 <= i < |sent| && OfKind(sent[i], absolute) ensures sent[i].at + MOVE_INTERVAL <= at {
          assert all[i] == sent[i];
        }
      }
    }
  }

  lemma StepPace(s: State, e: Event, absolute: bool)
    ensures Paced(Step(s, e).sent, absolute) <==> Paced(s.sent, absolute) && !Breaks(s, e, absolute)
  {
    hide Step, Written, Paced, TooSoon, HasPending, OfKind;
    StepWrites(s, e);
    OneOfAKind(s, e, absolute);
    PacedAppend(s.sent, Written(s, e), e.at, absolute);
  }

  /** In every run the packets of a kind keep their distance exactly as long as no barrier
      and no timer of their channel sends pending motion too soon after the last of them. */
  lemma {:induction false} PaceIsExact(es: seq<Event>, absolute: bool)
    ensures Paced(Run(es).sent, absolute) <==> forall n :: 0 <= n < |es| ==> !Breaks(Run(es[..n]), es[n], absolute)
    decreases |es|
  {
    hide Step, Breaks, Paced;
    if es == [] {
      NothingSent(absolute);
    } else {
      var before, e := es[..|es| - 1], es[|es| - 1];
      PaceIsExact(before, absolute);
      StepPace(Run(before), e, absolute);
      assert forall n :: 0 <= n < |before| ==> before[..n] == es[..n] && before[n] == es[n];
    }
  }

  lemma NothingSent(absolute: bool)
    ensures Paced(Run([]).sent, absolute)
  {
  }

  /** While the flag is up, the packets of the channel are no later than its raising. */
  ghost predicate Timely(s: State, now: int) {
    && (forall i :: 0 <= i < |s.sent| ==> s.sent[i].at <= now)
    && Prompt(s, false) && Prompt(s, true)
  }

  ghost predicate Prompt(s: State, absolute: bool) {
    var c := ChannelOf(s, absolute);
    c.scheduled ==> forall i :: 0 <= i < |s.sent| && OfKind(s.sent[i], absolute) ==> s.sent[i].at <= c.since
  }

  /** What a block does to a channel's flag. */
  lemma FlagAfter(s: State, e: Event, absolute: bool)
    ensures var c, d := ChannelOf(s, absolute), ChannelOf(Step(s, e), absolute);
            d.scheduled ==> !IsBarrier(e.block) && !IsTimer(e.block, absolute) && d.since == if c.scheduled then c.since else e.at
  {
    hide Step, ChannelOf;
    StepChannels(s, e, absolute);
  }

  lemma StaysPrompt(s: State, now: int, e: Event, absolute: bool)
    requires Timely(s, now) && now <= e.at
    ensures Prompt(Step(s, e), absolute)
  {
    hide Step, Written, OfKind, IsBarrier, IsTimer;
    StepWrites(s, e);
    OneOfAKind(s, e, absolute);
    FlagAfter(s, e, absolute);
    assert Prompt(s, absolute);
  }

  lemma {:induction false} AlwaysTimely(es: seq<Event>, start: int)
    requires Legal(es) && (es != [] ==> start <= es[0].at)
    ensures Timely(Run(es), if es == [] then start else Last(es)) && (es != [] ==> start <= Last(es))
    decreases |es|
  {
    hide Step, Prompt, Written;
    if es == [] {
      StartTimely(start);
    } else {
      var before, e := es[..|es| - 1], es[|es| - 1];
      AlwaysTimely(before, start);
      var now := if before == [] then start else Last(before);
      StaysPrompt(Run(before), now, e, false);
      StaysPrompt(Run(before), now, e, true);
      StepWrites(Run(before), e);
      OneOfAKind(Run(before), e, false);
    }
  }

  lemma StartTimely(now: int)
    ensures Timely(START, now)
  {
  }

  /** A timer breaks the pace only if it is stale: the motion it sends was submitted under
      a later flag, which has a timer of its own. */
  lemma OnlyStaleTimersBreak(es: seq<Event>, e: Event, absolute: bool)
    requires Legal(es + [e]) && IsTimer(e.block, absolute) && Breaks(Run(es), e, absolute)
    ensures var c := ChannelOf(Run(es), absolute);
            c.scheduled && e.block.deadline < c.since + MOVE_INTERVAL && c.since + MOVE_INTERVAL in c.timers
  {
    hide Step, Run;
    assert (es + [e])[..|es|] == es;
    AlwaysTimely(es, if es == [] then e.at else es[0].at);
    NothingStranded(es);
  }

  predicate BarrierFree(es: seq<Event>) {
    forall i :: 0 <= i < |es| ==> !IsBarrier(es[i].block)
  }

  predicate OneTimer(c: Channel) {
    c.timers == if c.scheduled then multiset{c.since + MOVE_INTERVAL} else multiset{}
  }

  lemma StaysOneTimer(c: Channel, at: int, deadline: int)
    requires OneTimer(c)
    ensures OneTimer(Arm(c, at)) && (deadline in c.timers ==> OneTimer(Fired(c, deadline)))
  {
  }

  /** Only barriers leave stale timers behind. */
  lemma {:induction false} NoStaleTimers(es: seq<Event>, absolute: bool)
    requires Legal(es) && BarrierFree(es)
    ensures OneTimer(ChannelOf(Run(es), absolute))
    decreases |es|
  {
    hide OneTimer, Step, Arm, Fired;
    if es == [] {
      QuietHasNone();
    } else {
      var before, e := es[..|es| - 1], es[|es| - 1];
      NoStaleTimers(before, absolute);
      var d := if IsTimer(e.block, absolute) then e.block.deadline else 0;
      StaysOneTimer(ChannelOf(Run(before), absolute), e.at, d);
      StepChannels(Run(before), e, absolute);
      assert !IsBarrier(e.block);
    }
  }

  lemma QuietHasNone()
    ensures OneTimer(QUIET)
  {
  }

  /** In a run without barriers the packets of each channel are at least one interval apart. */
  lemma PacketsArePaced(es: seq<Event>)
    requires Legal(es) && BarrierFree(es)
    ensures Paced(Run(es).sent, false) && Paced(Run(es).sent, true)
  {
    hide Legal, Run, Paced, Breaks;
    forall absolute: bool, n | 0 <= n < |es| ensures !Breaks(Run(es[..n]), es[n], absolute) {
      NoEarlyTimer(es, n, absolute);
    }
    PaceIsExact(es, false);
    PaceIsExact(es, true);
  }

  lemma NoEarlyTimer(es: seq<Event>, n: nat, absolute: bool)
    requires n < |es| && Legal(es) && BarrierFree(es)
    ensures !Breaks(Run(es[..n]), es[n], absolute)
  {
    hide Run, OneTimer;
    LegalPrefix(es, n + 1);
    assert es[..n + 1] == es[..n] + [es[n]];
    assert BarrierFree(es[..n]) && !IsBarrier(es[n].block);
    if Breaks(Run(es[..n]), es[n], absolute) {
      OnlyStaleTimersBreak(es[..n], es[n], absolute);
      StaleIsSecond(es, n, absolute);
    }
  }

  lemma StaleIsSecond(es: seq<Event>, n: nat, absolute: bool)
    requires n < |es| && Legal(es[..n] + [es[n]]) && BarrierFree(es[..n]) && IsTimer(es[n].block, absolute)
    ensures var c := ChannelOf(Run(es[..n]), absolute); c.scheduled ==> es[n].block.deadline == c.since + MOVE_INTERVAL
  {
    hide Run;
    assert (es[..n] + [es[n]])[..n] == es[..n];
    NoStaleTimers(es[..n], absolute);
  }

  lemma {:induction false} LegalPrefix(es: seq<Event>, n: nat)
    requires n <= |es| && Legal(es)
    ensures Legal(es[..n])
    decreases |es|
  {
    hide Run;
    if n < |es| {
      LegalPrefix(es[..|es| - 1], n);
      assert es[..|es| - 1][..n] == es[..n];
    } else {
      assert es[..n] == es;
    }
  }

  // ---- How many packets a span of time can hold ----

  function CountOf(sent: seq<Packet>, absolute: bool): nat
    decreases |sent|
  {
    if sent == [] then 0
    else CountOf(sent[..|sent| - 1], absolute) + if OfKind(sent[|sent| - 1], absolute) then 1 else 0
  }

  lemma {:induction false} CountAppend(a: seq<Packet>, b: seq<Packet>, absolute: bool)
    ensures CountOf(a + b, absolute) == CountOf(a, absolute) + CountOf(b, absolute)
    decreases |b|
  {
    if b == [] {
      assert a + b == a;
    } else {
      assert (a + b)[..|a + b| - 1] == a + b[..|b| - 1];
      CountAppend(a, b[..|b| - 1], absolute);
    }
  }

  lemma {:induction false} CountFew(w: seq<Packet>, absolute: bool)
    requires forall i, j :: 0 <= i < j < |w| ==> !OfKind(w[i], absolute) || !OfKind(w[j], absolute)
    ensures CountOf(w, absolute) <= 1
    ensures (forall i :: 0 <= i < |w| ==> !OfKind(w[i], absolute)) ==> CountOf(w, absolute) == 0
    decreases |w|
  {
    if w != [] { CountFew(w[..|w| - 1], absolute); }
  }

  function BarriersIn(es: seq<Event>): nat
    decreases |es|
  {
    if es == [] then 0 else BarriersIn(es[..|es| - 1]) + if IsBarrier(es[|es| - 1].block) then 1 else 0
  }

  /** Of these timers, those that have not fired yet. */
  function Unspent(timers: multiset<int>, es: seq<Event>, absolute: bool): multiset<int>
    decreases |es|
  {
    if es == [] then timers
    else
      var before, b := Unspent(timers, es[..|es| - 1], absolute), es[|es| - 1].block;
      if IsTimer(b, absolute) then before - multiset{b.deadline} else before
  }

  lemma StepCounts(s: State, e: Event, absolute: bool)
    ensures CountOf(Step(s, e).sent, absolute) <=
              CountOf(s.sent, absolute) + if IsBarrier(e.block) || IsTimer(e.block, absolute) then 1 else 0
  {
    hide Step, Written, CountOf, OfKind;
    StepWrites(s, e);
    OneOfAKind(s, e, absolute);
    CountAppend(s.sent, Written(s, e), absolute);
    CountFew(Written(s, e), absolute);
  }

  lemma CalmKeepsTimers(c: Channel)
    ensures Calm(c).timers == c.timers
  {
  }

  lemma ArmedTimers(c: Channel, at: int)
    ensures Arm(c, at).timers == c.timers || Arm(c, at).timers == c.timers + multiset{at + MOVE_INTERVAL}
  {
  }

  lemma FiredTimers(c: Channel, deadline: int)
    ensures Fired(c, deadline).timers == c.timers - multiset{deadline} && Barred(c).timers == c.timers
  {
    hide Calm;
    CalmKeepsTimers(c.(scheduled := false, timers := c.timers - multiset{deadline}));
    CalmKeepsTimers(c.(scheduled := false, barriers := c.barriers + 1));
  }

  lemma NextTimers(c: Channel, e: Event, absolute: bool)
    ensures var d := NextChannel(c, e, absolute);
            && (IsTimer(e.block, absolute) ==> d.timers == c.timers - multiset{e.block.deadline})
            && (!IsTimer(e.block, absolute) ==> d.timers == c.timers || d.timers == c.timers + multiset{e.at + MOVE_INTERVAL})
  {
    hide Arm, Fired, Barred;
    ArmedTimers(c, e.at);
    FiredTimers(c, if IsTimer(e.block, absolute) then e.block.deadline else 0);
  }

  /** What a block does to a channel's timers. */
  lemma TimersAfter(s: State, e: Event, absolute: bool)
    ensures var c, d := ChannelOf(s, absolute), ChannelOf(Step(s, e), absolute);
            && (IsTimer(e.block, absolute) ==> d.timers == c.timers - multiset{e.block.deadline})
            && (!IsTimer(e.block, absolute) ==> d.timers == c.timers || d.timers == c.timers + multiset{e.at + MOVE_INTERVAL})
  {
    hide Step, ChannelOf, NextChannel;
    StepChannels(s, e, absolute);
    NextTimers(ChannelOf(s, absolute), e, absolute);
  }

  /** Within one interval only timers set before it can fire, and each sends once. */
  ghost predicate Rationed(s: State, t: State, span: seq<Event>, start: int, absolute: bool) {
    var was := ChannelOf(s, absolute).timers;
    var rest := Unspent(was, span, absolute);
    && CountOf(t.sent, absolute) + |rest| <= CountOf(s.sent, absolute) + |was| + BarriersIn(span)
    && forall d :: d < start + MOVE_INTERVAL ==> ChannelOf(t, absolute).timers[d] <= rest[d]
  }

  lemma StaysRationed(s: State, t: State, span: seq<Event>, e: Event, start: int, absolute: bool)
    requires Rationed(s, t, span, start, absolute) && start <= e.at < start + MOVE_INTERVAL
    requires IsTimer(e.block, absolute) ==> e.block.deadline <= e.at && e.block.deadline in ChannelOf(t, absolute).timers
    ensures Rationed(s, Step(t, e), span + [e], start, absolute)
  {
    hide Step, CountOf, ChannelOf;
    StepCounts(t, e, absolute);
    TimersAfter(t, e, absolute);
    assert (span + [e])[..|span|] == span;
  }

  lemma {:induction false} SpanIsRationed(es: seq<Event>, span: seq<Event>, start: int, absolute: bool)
    requires Legal(es + span) && forall i :: 0 <= i < |span| ==> start <= span[i].at < start + MOVE_INTERVAL
    ensures Rationed(Run(es), Run(es + span), span, start, absolute)
    decreases |span|
  {
    hide Step, Rationed;
    if span == [] {
      assert es + span == es;
      NothingSpent(Run(es), start, absolute);
    } else {
      var before, e := span[..|span| - 1], span[|span| - 1];
      assert (es + span)[..|es + span| - 1] == es + before;
      assert before + [e] == span;
      SpanIsRationed(es, before, start, absolute);
      StaysRationed(Run(es), Run(es + before), before, e, start, absolute);
    }
  }

  lemma NothingSpent(s: State, start: int, absolute: bool)
    ensures Rationed(s, s, [], start, absolute)
  {
  }

  /**
    Barriers included: in any span shorter than one interval each channel sends at most one
    packet, and one more for every barrier in the span or since its timers had last all fired.
  */
  lemma PacketsAreBounded(es: seq<Event>, span: seq<Event>, start: int, absolute: bool)
    requires Legal(es + span) && forall i :: 0 <= i < |span| ==> start <= span[i].at < start + MOVE_INTERVAL
    ensures CountOf(Run(es + span).sent, absolute) <=
              CountOf(Run(es).sent, absolute) + 1 + ChannelOf(Run(es), absolute).barriers + BarriersIn(span)
  {
    hide Run, CountOf, Unspent;
    SpanIsRationed(es, span, start, absolute);
    LegalPrefix(es + span, |es|);
    assert (es + span)[..|es|] == es;
    NothingStranded(es);
  }

  // ---- Barriers do break the pace ----

  function Last(es: seq<Event>): int {
    if es == [] then 0 else es[|es| - 1].at
  }

  lemma LegalMore(es: seq<Event>, e: Event)
    requires Legal(es) && Last(es) <= e.at
    requires e.block.FireMove? ==> e.block.deadline <= e.at && e.block.deadline in Run(es).move.timers
    requires e.block.FireAbs? ==> e.block.deadline <= e.at && e.block.deadline in Run(es).abs.timers
    ensures Legal(es + [e]) && Run(es + [e]) == Step(Run(es), e)
  {
    hide Step;
    assert (es + [e])[..|es|] == es;
  }

  /** A move, a ping and another move, and then the first move's timer. */
  const STALE: seq<Event> :=
    [] + [Event(0, MoveBy(1, 0))] + [Event(1, Submit("ping"))] + [Event(2, MoveBy(1, 0))] + [Event(8, FireMove(8))]

  const STALE_SENT := [Packet(Move(1, 0), 1), Packet(Other("ping"), 1)]
  const STALE_1 := START.(dx := 1, move := Channel(true, 0, multiset{8}, 0))
  const STALE_2 := START.(sent := STALE_SENT, move := Channel(false, 0, multiset{8}, 1))
  const STALE_3 := START.(sent := STALE_SENT, dx := 1, move := Channel(true, 2, multiset{8, 10}, 1))

  /** A move by one unit on a channel whose flag is down sets a timer. */
  lemma MoveArms(s: State, at: int, timers: multiset<int>)
    requires !s.move.scheduled && s.dx == 0 && timers == s.move.timers + multiset{at + MOVE_INTERVAL}
    ensures Step(s, Event(at, MoveBy(1, 0))) == s.(dx := 1, move := Channel(true, at, timers, s.move.barriers))
  {
  }

  lemma StaleFirst()
    ensures Step(START, Event(0, MoveBy(1, 0))) == STALE_1
  {
    hide Step;
    MoveArms(START, 0, multiset{8});
  }

  lemma StaleSecond()
    ensures Step(STALE_1, Event(1, Submit("ping"))) == STALE_2
  {
    assert BarMove(STALE_1, 1) == START.(sent := [Packet(Move(1, 0), 1)], move := Channel(false, 0, multiset{8}, 1));
    assert [Packet(Move(1, 0), 1)] + [Packet(Other("ping"), 1)] == STALE_SENT;
  }

  lemma StaleThird()
    ensures Step(STALE_2, Event(2, MoveBy(1, 0))) == STALE_3
  {
    hide Step;
    MoveArms(STALE_2, 2, multiset{8, 10});
  }

  lemma StaleFourth()
    ensures !Paced(Step(STALE_3, Event(8, FireMove(8))).sent, false)
  {
    var sent := Step(STALE_3, Event(8, FireMove(8))).sent;
    assert sent == STALE_SENT + [Packet(Move(1, 0), 8)];
    assert OfKind(sent[0], false) && OfKind(sent[2], false);
  }

  /** A barrier leaves a stale timer behind, and the packet it sends comes too soon. */
  lemma StaleTimerBreaksThePace()
    ensures Legal(STALE) && !Paced(Run(STALE).sent, false)
  {
    hide Legal, Run, Step, Paced;
    var a, b, c, d := Event(0, MoveBy(1, 0)), Event(1, Submit("ping")), Event(2, MoveBy(1, 0)), Event(8, FireMove(8));
    NothingIsLegal();
    LegalMore([], a);
    LegalMore([] + [a], b);
    LegalMore([] + [a] + [b], c);
    StaleFirst();
    StaleSecond();
    StaleThird();
    LegalMore([] + [a] + [b] + [c], d);
    StaleFourth();
  }

  lemma NothingIsLegal()
    ensures Legal([]) && Run([]) == START
  {
  }

  // ---- Lines from the server ----

  /** The complete lines in the bytes received, and what follows the last line break. */
  function Split(bytes: string): (r: (seq<string>, string))
    decreases |bytes|
  {
    var i := LineBreak(bytes);
    if i == |bytes| then ([], bytes)
    else
      var (lines, tail) := Split(bytes[i + 1..]);
      ([bytes[..i]] + lines, tail)
  }

  class LineBuffer {
    var buf: string
    var handled: seq<string>

    constructor ()
      ensures buf == "" && handled == []
    {
      buf, handled := "", [];
    }

    method Receive(data: string)
      modifies this
      ensures handled == old(handled) + Split(old(buf) + data).0
      ensures buf == Split(old(buf) + data).1
    {
      buf := buf + data;
      Drain();
    }

    method Drain()
      modifies this
      ensures handled == old(handled) + Split(old(buf)).0 && buf == Split(old(buf)).1
    {
      hide Split, LineBreak;
      var i := LineBreak(buf);
      while i < |buf|
        invariant i == LineBreak(buf)
        invariant handled + Split(buf).0 == old(handled) + Split(old(buf)).0
        invariant Split(buf).1 == Split(old(buf)).1
        decreases |buf|
      {
        SplitOne(buf);
        handled := handled + [buf[..i]];
        buf := buf[i + 1..];
        i := LineBreak(buf);
      }
      SplitOne(buf);
      assert handled + [] == handled;
    }
  }

  /** What a line buffer holds and has handed on after receiving these chunks. */
  function Received(chunks: seq<string>): (seq<string>, string)
    decreases |chunks|
  {
    if chunks == [] then ([], "")
    else
      var (lines, buf) := Received(chunks[..|chunks| - 1]);
      var (more, tail) := Split(buf + chunks[|chunks| - 1]);
      (lines + more, tail)
  }

  function Concat(chunks: seq<string>): string
    decreases |chunks|
  {
    if chunks == [] then "" else Concat(chunks[..|chunks| - 1]) + chunks[|chunks| - 1]
  }

  lemma {:induction false} SplitOne(a: string)
    ensures LineBreak(a) < |a| ==>
              Split(a) == ([a[..LineBreak(a)]] + Split(a[LineBreak(a) + 1..]).0, Split(a[LineBreak(a) + 1..]).1)
    ensures LineBreak(a) == |a| ==> Split(a) == ([], a)
  {
  }

  /** Splitting what was left of a together with b completes the split of a + b. */
  lemma {:induction false} SplitAppend(a: string, b: string)
    ensures var (lines, tail) := Split(a); var (more, last) := Split(tail + b);
            Split(a + b) == (lines + more, last)
    decreases |a|
  {
    hide Split, LineBreak;
    var i := LineBreak(a);
    SplitOne(a);
    if i < |a| {
      BreakInFront(a, b);
      assert (a + b)[i + 1..] == a[i + 1..] + b && (a + b)[..i] == a[..i];
      SplitAppend(a[i + 1..], b);
      SplitOne(a + b);
      var (lines, tail) := Split(a[i + 1..]);
      var (more, last) := Split(tail + b);
      assert [a[..i]] + (lines + more) == [a[..i]] + lines + more;
    } else {
      assert [] + Split(a + b).0 == Split(a + b).0;
    }
  }

  lemma {:induction false} BreakInFront(a: string, b: string)
    requires LineBreak(a) < |a|
    ensures LineBreak(a + b) == LineBreak(a)
    decreases |a|
  {
    assert (a + b)[0] == a[0];
    if a[0] != '\n' {
      assert (a + b)[1..] == a[1..] + b;
      BreakInFront(a[1..], b);
    }
  }

  /** However the bytes are cut into chunks, the same lines are handed on in the same
      order, and the unterminated tail is kept. */
  lemma {:induction false} ChunkingIsInvisible(chunks: seq<string>)
    ensures Received(chunks) == Split(Concat(chunks))
    decreases |chunks|
  {
    if chunks != [] {
      var before, c := chunks[..|chunks| - 1], chunks[|chunks| - 1];
      ChunkingIsInvisible(before);
      SplitAppend(Concat(before), c);
    }
  }

  /** Nothing is lost: the lines, each ended again, and the tail make up the bytes. */
  lemma {:induction false} SplitJoins(bytes: string)
    ensures var (lines, tail) := Split(bytes);
            bytes == Joined(lines) + tail && '\n' !in tail && forall l <- lines :: '\n' !in l
    decreases |bytes|
  {
    hide Split, LineBreak;
    var i := LineBreak(bytes);
    SplitOne(bytes);
    if i < |bytes| {
      var rest := bytes[i + 1..];
      SplitJoins(rest);
      JoinOne(bytes[..i], Split(rest).0, Split(rest).1);
      assert bytes == bytes[..i] + "\n" + rest;
    }
  }

  lemma JoinOne(line: string, lines: seq<string>, tail: string)
    ensures Joined([line] + lines) + tail == line + "\n" + (Joined(lines) + tail)
  {
    assert ([line] + lines)[1..] == lines;
  }

  function Joined(lines: seq<string>): string {
    if lines == [] then "" else lines[0] + "\n" + Joined(lines[1..])
  }
}
