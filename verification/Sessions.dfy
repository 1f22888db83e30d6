/**
  server/server.go: connections that prove knowledge of the password and then inject.
  One connection by itself is the method Server.Handle; many of them, interleaved with
  changes of password and name, are the transition system Next.
*/
module Sessions {
  import opened Prelude
  import opened JsonRecord
  import opened PipeFraming
  import opened Injection
  import opened Clients

  /** deriveProof, of a password, a salt and a nonce. */
  type Kdf = (string, string, string) -> string

  datatype Reply =
    | BadHello
    | Challenge(salt: string, nonce: string)
    | AuthFailed
    | AuthOk(server: string)
    | Pong(ts: int64)
    | Screen

  /** What a connection's goroutine has taken from the outside: the client's name, the
      random challenge, the password it checked against and the server name it reported. */
  datatype Locals = Locals(name: string, salt: string, nonce: string, password: string, server: string)

  // ---- What a session means ----

  predicate Greets(line: string) { Decode(line).rec.t == "hello" }

  predicate Proves(kdf: Kdf, l: Locals, line: string) {
    var auth := Decode(line).rec;
    auth.t == "auth" && auth.proof == kdf(l.password, l.salt, l.nonce)
  }

  predicate Admitted(kdf: Kdf, l: Locals, heard: seq<string>) {
    |heard| >= 2 && Greets(heard[0]) && Proves(kdf, l, heard[1])
  }

  predicate IsBye(line: string) {
    Decode(line).ok && Decode(line).rec.t == "bye"
  }

  function UntilBye(lines: seq<string>): seq<string>
    decreases |lines|
  {
    if lines == [] || IsBye(lines[0]) then [] else [lines[0]] + UntilBye(lines[1..])
  }

  function Answer(m: In): seq<Reply> {
    if m.t == "ping" then [Pong(m.ts)] else if m.t == "getscreen" then [Screen] else []
  }

  function Answers(ms: seq<In>): seq<Reply> {
    if ms == [] then [] else Answer(ms[0]) + Answers(ms[1..])
  }

  /** The records of the session that the server acts on. */
  function Obeyed(kdf: Kdf, l: Locals, heard: seq<string>): seq<In> {
    if Admitted(kdf, l, heard) then Records(UntilBye(heard[2..])) else []
  }

  function SessionReplies(kdf: Kdf, l: Locals, heard: seq<string>): seq<Reply> {
    if heard == [] then []
    else if !Greets(heard[0]) then [BadHello]
    else if |heard| == 1 then [Challenge(l.salt, l.nonce)]
    else if !Proves(kdf, l, heard[1]) then [Challenge(l.salt, l.nonce), AuthFailed]
    else [Challenge(l.salt, l.nonce), AuthOk(l.server)] + Answers(Obeyed(kdf, l, heard))
  }

  function SessionCalls(kdf: Kdf, l: Locals, heard: seq<string>): seq<Call> {
    AllCalls(Obeyed(kdf, l, heard))
  }

  // ---- One connection, as it is written ----

  lemma LoopLine(lines: seq<string>)
    requires lines != []
    ensures IsBye(lines[0]) ==> AllCalls(Records(UntilBye(lines))) == [] && Answers(Records(UntilBye(lines))) == []
    ensures !IsBye(lines[0]) ==>
      var d := Decode(lines[0]); var more := Records(UntilBye(lines[1..]));
      && AllCalls(Records(UntilBye(lines))) == (if d.ok then Calls(d.rec) else []) + AllCalls(more)
      && Answers(Records(UntilBye(lines))) == (if d.ok then Answer(d.rec) else []) + Answers(more)
  {
    hide Decode, Calls, Answer;
    if !IsBye(lines[0]) {
      var more := UntilBye(lines[1..]);
      FirstRecord(lines[0], more);
      FirstCalls(Decode(lines[0]), Records(more));
      FirstAnswers(Decode(lines[0]), Records(more));
    }
  }

  lemma FirstAnswers(d: Decoded, more: seq<In>)
    ensures Answers((if d.ok then [d.rec] else []) + more) == (if d.ok then Answer(d.rec) else []) + Answers(more)
  {
    if d.ok {
      assert ([d.rec] + more)[1..] == more;
    } else {
      assert [] + more == more;
    }
  }

  lemma NoCallsFromControl(m: In)
    requires m.t == "ping" || m.t == "getscreen"
    ensures Calls(m) == []
  {
  }

  class Server {
    var password: string
    var name: string
    const inj: Injector
    const reg: ClientRegistry

    constructor (password: string, name: string, inj: Injector, reg: ClientRegistry)
      ensures this.password == password && this.name == name && this.inj == inj && this.reg == reg
    {
      this.password, this.name, this.inj, this.reg := password, name, inj, reg;
    }

    method SetPassword(p: string)
      modifies `password
      ensures password == p
    {
      password := p;
    }

    method SetName(n: string)
      modifies `name
      ensures name == n
    {
      name := n;
    }

    /** One connection while nothing else happens: the lines its client sends until it
        hangs up, a random challenge, and the time. */
    method Handle(kdf: Kdf, lines: seq<string>, salt: string, nonce: string, addr: string, now: int) returns (sent: seq<Reply>)
      requires reg.Valid()
      modifies inj, reg
      ensures reg.Valid() && reg.clients == old(reg.clients)
      ensures var l := Locals("", salt, nonce, password, name);
              && sent == SessionReplies(kdf, l, lines)
              && inj.calls == old(inj.calls) + SessionCalls(kdf, l, lines)
              && reg.nextID == old(reg.nextID) + if Admitted(kdf, l, lines) then 1 else 0
      ensures var hello := lines != [] && Decode(lines[0]).rec.t == "hello";
              var right := |lines| >= 2 && Decode(lines[1]).rec.t == "auth" && Decode(lines[1]).rec.proof == kdf(password, salt, nonce);
              && (hello && right ==>
                    |sent| >= 2 && sent[0] == Challenge(salt, nonce) && sent[1] == AuthOk(name)
                    && reg.nextID == old(reg.nextID) + 1 && reg.changes == old(reg.changes) + 2)
              && (hello && !right ==> sent == [Challenge(salt, nonce)] + if |lines| == 1 then [] else [AuthFailed])
              && (lines != [] && !hello ==> sent == [BadHello])
              && (!(hello && right) ==> inj.calls == old(inj.calls) && reg.nextID == old(reg.nextID) && reg.changes == old(reg.changes))
    {
      hide Decode, UntilBye, Records, Answers;
      sent := [];
      if lines == [] {
        return;
      }
      var hello := Decode(lines[0]).rec;
      if hello.t != "hello" {
        sent := [BadHello];
        return;
      }
      sent := [Challenge(salt, nonce)];
      if |lines| == 1 {
        return;
      }
      var auth := Decode(lines[1]).rec;
      var want := kdf(password, salt, nonce);
      if auth.t != "auth" || auth.proof != want {
        sent := sent + [AuthFailed];
        return;
      }
      sent := sent + [AuthOk(name)];
      var cid := reg.Register(hello.name, addr, now);
      var answers := ReadLoop(lines[2..]);
      sent := sent + answers;
      reg.Deregister(cid);
      assert reg.clients == old(reg.clients);
    }

    method ReadLoop(lines: seq<string>) returns (sent: seq<Reply>)
      modifies inj
      ensures sent == Answers(Records(UntilBye(lines)))
      ensures inj.calls == old(inj.calls) + AllCalls(Records(UntilBye(lines)))
    {
      hide Decode, Records, Calls, AllCalls, IsBye;
      EmptyLoop();
      sent := [];
      var rest := lines;
      while rest != []
        invariant inj.calls + AllCalls(Records(UntilBye(rest))) == old(inj.calls) + AllCalls(Records(UntilBye(lines)))
        invariant sent + Answers(Records(UntilBye(rest))) == Answers(Records(UntilBye(lines)))
        decreases |rest|
      {
        var bye, answer := ReadOne(rest);
        sent := sent + answer;
        if bye {
          assert answer + [] == answer && inj.calls + [] == inj.calls;
          return;
        }
        rest := rest[1..];
      }
    }

    method ReadOne(rest: seq<string>) returns (bye: bool, answer: seq<Reply>)
      requires rest != []
      modifies inj
      ensures bye == IsBye(rest[0])
      ensures bye ==> AllCalls(Records(UntilBye(rest))) == []
      ensures var more := if bye then [] else rest[1..];
              && inj.calls + AllCalls(Records(UntilBye(more))) == old(inj.calls) + AllCalls(Records(UntilBye(rest)))
              && answer + Answers(Records(UntilBye(more))) == Answers(Records(UntilBye(rest)))
    {
      hide Decode, Records, UntilBye, AllCalls, Answers;
      LoopLine(rest);
      EmptyLoop();
      bye, answer := false, [];
      var d := Decode(rest[0]);
      if !d.ok {
        return;
      }
      match d.rec.t {
        case "ping" =>
          answer := [Pong(d.rec.ts)];
        case "getscreen" =>
          answer := [Screen];
        case "bye" =>
          bye := true;
        case _ =>
          ApplyEvent(inj, d.rec);
      }
    }
  }

  lemma EmptyLoop()
    ensures AllCalls(Records(UntilBye([]))) == [] && Answers(Records(UntilBye([]))) == []
  {
  }

  // ---- Many connections ----

  datatype Phase =
    | AwaitHello
    | AwaitAuth
    | Proven                              // the proof was right; auth_ok is not sent yet
    | Greeted                             // auth_ok is sent; not registered yet
    | InLoop(cid: nat, todo: seq<Call>)   // todo is what is left of the event being applied
    | Leaving(cid: nat)                   // the loop has ended; not deregistered yet
    | Closed

  /** heard is what the connection's scanner has handed out, replies what it was sent. */
  datatype Conn = Conn(addr: string, heard: seq<string>, locals: Locals, phase: Phase, replies: seq<Reply>)

  /** log holds the injector calls of all connections in the order of the injector's lock. */
  datatype System = System(
    password: string, name: string, conns: map<nat, Conn>,
    clients: map<nat, Device>, nextID: nat, log: seq<(nat, Call)>)

  datatype Input =
    | NewPassword(password: string)
    | NewName(name: string)
    | Connect(id: nat, addr: string)
    | Receive(id: nat, line: string, salt: string, nonce: string)
    | HangUp(id: nat)
    | Proceed(id: nat, now: int)

  function Start(password: string, name: string): System {
    System(password, name, map[], map[], 0, [])
  }

  function Received(kdf: Kdf, c: Conn, line: string, salt: string, nonce: string, password: string): Conn {
    var d := c.(heard := c.heard + [line]);
    var rec := Decode(line).rec;
    match c.phase
    case AwaitHello =>
      if rec.t != "hello" then d.(phase := Closed, replies := c.replies + [BadHello])
      else d.(phase := AwaitAuth, locals := c.locals.(name := rec.name, salt := salt, nonce := nonce),
              replies := c.replies + [Challenge(salt, nonce)])
    case AwaitAuth =>
      var l := c.locals.(password := password);
      if Proves(kdf, l, line) then d.(phase := Proven, locals := l)
      else d.(phase := Closed, locals := l, replies := c.replies + [AuthFailed])
    case InLoop(cid, todo) =>
      if todo != [] then c
      else if !Decode(line).ok then d
      else if rec.t == "ping" then d.(replies := c.replies + [Pong(rec.ts)])
      else if rec.t == "getscreen" then d.(replies := c.replies + [Screen])
      else if rec.t == "bye" then d.(phase := Leaving(cid))
      else d.(phase := InLoop(cid, Calls(rec)))
    case _ => c
  }

  function HungUp(c: Conn): Conn {
    match c.phase
    case AwaitHello => c.(phase := Closed)
    case AwaitAuth => c.(phase := Closed)
    case InLoop(cid, todo) => if todo == [] then c.(phase := Leaving(cid)) else c
    case _ => c
  }

  /** What a connection does next without having to read. */
  function Proceeded(s: System, id: nat, now: int): System
    requires id in s.conns
  {
    var c := s.conns[id];
    match c.phase
    case Proven =>
      s.(conns := s.conns[id := c.(phase := Greeted, locals := c.locals.(server := s.name), replies := c.replies + [AuthOk(s.name)])])
    case Greeted =>
      var cid := s.nextID + 1;
      s.(conns := s.conns[id := c.(phase := InLoop(cid, []))], nextID := cid,
         clients := s.clients[cid := Device(c.locals.name, c.addr, now, cid)])
    case InLoop(cid, todo) =>
      if todo == [] then s
      else s.(conns := s.conns[id := c.(phase := InLoop(cid, todo[1..]))], log := s.log + [(id, todo[0])])
    case Leaving(cid) =>
      s.(conns := s.conns[id := c.(phase := Closed)], clients := s.clients - {cid})
    case _ => s
  }

  function Next(kdf: Kdf, s: System, e: Input): System {
    match e
    case NewPassword(p) => s.(password := p)
    case NewName(n) => s.(name := n)
    case Connect(id, addr) =>
      if id in s.conns then s
      else s.(conns := s.conns[id := Conn(addr, [], Locals("", "", "", "", ""), AwaitHello, [])])
    case Receive(id, line, salt, nonce) =>
      if id !in s.conns then s
      else s.(conns := s.conns[id := Received(kdf, s.conns[id], line, salt, nonce, s.password)])
    case HangUp(id) =>
      if id !in s.conns then s else s.(conns := s.conns[id := HungUp(s.conns[id])])
    case Proceed(id, now) =>
      if id !in s.conns then s else Proceeded(s, id, now)
  }

  function Run(kdf: Kdf, s: System, es: seq<Input>): System
    decreases |es|
  {
    if es == [] then s else Next(kdf, Run(kdf, s, es[..|es| - 1]), es[|es| - 1])
  }

  // ---- Interleaving is invisible ----

  function Todo(p: Phase): seq<Call> {
    if p.InLoop? then p.todo else []
  }

  /** The connection is where a session with these lines should be, and has had the
      session's replies and made the session's calls. */
  ghost predicate Faithful(kdf: Kdf, c: Conn, calls: seq<Call>) {
    var l, h := c.locals, c.heard;
    && calls + Todo(c.phase) == SessionCalls(kdf, l, h)
    && (c.phase.Proven? || c.replies == SessionReplies(kdf, l, h))
    && (h != [] && Greets(h[0]) ==> l.name == Decode(h[0]).rec.name)
    && match c.phase
       case AwaitHello => h == []
       case AwaitAuth => |h| == 1 && Greets(h[0])
       case Proven => |h| == 2 && Admitted(kdf, l, h) && c.replies == [Challenge(l.salt, l.nonce)]
       case Greeted => |h| == 2 && Admitted(kdf, l, h)
       case InLoop(_, _) => Admitted(kdf, l, h) && forall i :: 2 <= i < |h| ==> !IsBye(h[i])
       case Leaving(_) => Admitted(kdf, l, h)
       case Closed => true
  }

  lemma {:induction false} UntilByeAll(lines: seq<string>, line: string)
    requires forall i :: 0 <= i < |lines| ==> !IsBye(lines[i])
    ensures UntilBye(lines) == lines
    ensures UntilBye(lines + [line]) == if IsBye(line) then lines else lines + [line]
    decreases |lines|
  {
    hide IsBye;
    if lines == [] {
      assert (lines + [line])[1..] == [];
      assert lines + [line] == [line];
    } else {
      assert (lines + [line])[1..] == lines[1..] + [line];
      UntilByeAll(lines[1..], line);
    }
  }

  lemma {:induction false} RecordsSnoc(lines: seq<string>, line: string)
    ensures Records(lines + [line]) == Records(lines) + if Decode(line).ok then [Decode(line).rec] else []
    decreases |lines|
  {
    hide Decode;
    if lines == [] {
      assert (lines + [line])[1..] == [];
    } else {
      assert (lines + [line])[1..] == lines[1..] + [line];
      RecordsSnoc(lines[1..], line);
    }
  }

  lemma {:induction false} AnswersSnoc(ms: seq<In>, m: In)
    ensures Answers(ms + [m]) == Answers(ms) + Answer(m)
    decreases |ms|
  {
    hide Answer;
    if ms == [] {
      assert (ms + [m])[1..] == [];
    } else {
      assert (ms + [m])[1..] == ms[1..] + [m];
      AnswersSnoc(ms[1..], m);
    }
  }

  /** What one more line adds to a session whose loop is still running. */
  lemma OneMoreLine(kdf: Kdf, l: Locals, h: seq<string>, line: string)
    requires Admitted(kdf, l, h) && forall i :: 2 <= i < |h| ==> !IsBye(h[i])
    ensures var d := Decode(line); var acts := d.ok && d.rec.t != "bye";
            && Admitted(kdf, l, h + [line])
            && SessionCalls(kdf, l, h + [line]) == SessionCalls(kdf, l, h) + (if acts then Calls(d.rec) else [])
            && SessionReplies(kdf, l, h + [line]) == SessionReplies(kdf, l, h) + (if acts then Answer(d.rec) else [])
  {
    hide Decode, Records, Calls, Answer, AllCalls, Answers, UntilBye;
    assert (h + [line])[2..] == h[2..] + [line];
    UntilByeAll(h[2..], line);
    RecordsSnoc(h[2..], line);
    AllCallsSnoc(Records(h[2..]), Decode(line).rec);
    AnswersSnoc(Records(h[2..]), Decode(line).rec);
    assert Records(h[2..]) + [] == Records(h[2..]);
    assert Obeyed(kdf, l, h) == Records(h[2..]);
    assert Obeyed(kdf, l, h + [line]) == Records(h[2..]) + if Decode(line).ok && !IsBye(line) then [Decode(line).rec] else [];
  }

  // ---- What a session is, in so many words ----

  /** The handshake: what each outcome replies, and that nothing is injected without a
      right proof. Only the type and the proof of the second line matter. */
  lemma HandshakeMeans(kdf: Kdf, l: Locals, h: seq<string>)
    ensures var hello := h != [] && Decode(h[0]).rec.t == "hello";
            var right := |h| >= 2 && Decode(h[1]).rec.t == "auth" && Decode(h[1]).rec.proof == kdf(l.password, l.salt, l.nonce);
            && (h == [] ==> SessionReplies(kdf, l, h) == [])
            && (h != [] && !hello ==> SessionReplies(kdf, l, h) == [BadHello])
            && (hello && |h| == 1 ==> SessionReplies(kdf, l, h) == [Challenge(l.salt, l.nonce)])
            && (hello && |h| >= 2 && !right ==> SessionReplies(kdf, l, h) == [Challenge(l.salt, l.nonce), AuthFailed])
            && (hello && right && |h| == 2 ==> SessionReplies(kdf, l, h) == [Challenge(l.salt, l.nonce), AuthOk(l.server)])
            && (!(hello && right) || |h| == 2 ==> SessionCalls(kdf, l, h) == [])
  {
    hide Decode;
    EmptyLoop();
    if |h| == 2 { assert h[2..] == []; }
  }

  /** One more line of a session that was admitted and has not said bye: it is answered or
      injected by its type, and a line that does not decode is skipped. */
  lemma LineMeans(kdf: Kdf, l: Locals, h: seq<string>, line: string)
    requires |h| >= 2 && Decode(h[0]).rec.t == "hello"
    requires Decode(h[1]).rec.t == "auth" && Decode(h[1]).rec.proof == kdf(l.password, l.salt, l.nonce)
    requires forall i :: 2 <= i < |h| ==> !(Decode(h[i]).ok && Decode(h[i]).rec.t == "bye")
    ensures var d, m := Decode(line), Decode(line).rec;
            var calls, replies := SessionCalls(kdf, l, h), SessionReplies(kdf, l, h);
            && SessionReplies(kdf, l, h + [line]) ==
                 (if d.ok && m.t == "ping" then replies + [Pong(m.ts)] else if d.ok && m.t == "getscreen" then replies + [Screen] else replies)
            && (d.ok && m.t == "click" ==> SessionCalls(kdf, l, h + [line]) == calls + [Button(m.b, true), Button(m.b, false)])
            && (d.ok && m.t == "button" ==> SessionCalls(kdf, l, h + [line]) == calls + [Button(m.b, m.down == Some(true))])
            && (d.ok && m.t == "move" ==> SessionCalls(kdf, l, h + [line]) == calls + [MoveRel(m.dx, m.dy)])
            && (d.ok && m.t == "moveabs" ==> SessionCalls(kdf, l, h + [line]) == calls + [MoveAbs(m.x, m.y)])
            && (d.ok && m.t == "scroll" ==> SessionCalls(kdf, l, h + [line]) == calls + [Scroll(m.dx, m.dy)])
            && (d.ok && m.t == "text" ==> SessionCalls(kdf, l, h + [line]) == calls + [Text(m.s)])
            && (d.ok && m.t == "key" ==> SessionCalls(kdf, l, h + [line]) == calls + [Key(m.code, m.mods, m.down == Some(true))])
            && (!d.ok || m.t !in {"click", "button", "move", "moveabs", "scroll", "text", "key"} ==>
                  SessionCalls(kdf, l, h + [line]) == calls)
  {
    hide Decode, Calls, SessionCalls, SessionReplies;
    var m := Decode(line).rec;
    OneMoreLine(kdf, l, h, line);
    EventMeans(m);
    AnswerMeans(m);
    assert SessionCalls(kdf, l, h) + [] == SessionCalls(kdf, l, h) && SessionReplies(kdf, l, h) + [] == SessionReplies(kdf, l, h);
  }

  lemma AnswerMeans(m: In)
    ensures Answer(m) == if m.t == "ping" then [Pong(m.ts)] else if m.t == "getscreen" then [Screen] else []
  {
  }

  lemma {:induction false} UntilByeEnds(lines: seq<string>, more: seq<string>)
    requires exists i :: 0 <= i < |lines| && IsBye(lines[i])
    ensures UntilBye(lines + more) == UntilBye(lines)
    decreases |lines|
  {
    hide IsBye;
    assert (lines + more)[0] == lines[0] && (lines + more)[1..] == lines[1..] + more;
    if !IsBye(lines[0]) {
      var i :| 0 <= i < |lines| && IsBye(lines[i]);
      assert lines[1..][i - 1] == lines[i];
      UntilByeEnds(lines[1..], more);
    }
  }

  /** After bye nothing counts. */
  lemma NothingAfterBye(kdf: Kdf, l: Locals, h: seq<string>, more: seq<string>, i: nat)
    requires 2 <= i < |h| && Decode(h[i]).ok && Decode(h[i]).rec.t == "bye"
    ensures SessionCalls(kdf, l, h + more) == SessionCalls(kdf, l, h) && SessionReplies(kdf, l, h + more) == SessionReplies(kdf, l, h)
  {
    hide Decode, Records, AllCalls, Answers;
    assert h[2..][i - 2] == h[i] && (h + more)[2..] == h[2..] + more;
    UntilByeEnds(h[2..], more);
  }

  /**
    From any state of the whole server: a new connection that says hello and proves the
    current password is welcomed under the current name, registered with the name and
    address it came with, and in the loop.
  */
  lemma RightProofGetsIn(kdf: Kdf, s: System, id: nat, addr: string, hello: string, salt: string, nonce: string,
                         auth: string, x: string, y: string, now: int, later: int)
    requires id !in s.conns
    requires Decode(hello).rec.t == "hello"
    requires Decode(auth).rec.t == "auth" && Decode(auth).rec.proof == kdf(s.password, salt, nonce)
    ensures var es := [Connect(id, addr), Receive(id, hello, salt, nonce), Receive(id, auth, x, y), Proceed(id, now), Proceed(id, later)];
            var t := Run(kdf, s, es);
            && id in t.conns && t.conns[id].phase == InLoop(s.nextID + 1, [])
            && t.conns[id].replies == [Challenge(salt, nonce), AuthOk(s.name)]
            && t.nextID == s.nextID + 1 && t.log == s.log
            && t.clients == s.clients[s.nextID + 1 := Device(Decode(hello).rec.name, addr, later, s.nextID + 1)]
  {
    hide Decode, Next;
    var s1 := Next(kdf, s, Connect(id, addr));
    var s2 := Next(kdf, s1, Receive(id, hello, salt, nonce));
    var s3 := Next(kdf, s2, Receive(id, auth, x, y));
    FiveSteps(kdf, s, Connect(id, addr), Receive(id, hello, salt, nonce), Receive(id, auth, x, y), Proceed(id, now), Proceed(id, later));
    Arrives(kdf, s, id, addr);
    Challenged(kdf, s1, id, hello, salt, nonce);
    Proved(kdf, s2, id, auth, x, y);
    Welcomed(kdf, s3, id, now, later);
  }

  lemma Arrives(kdf: Kdf, s: System, id: nat, addr: string)
    requires id !in s.conns
    ensures Next(kdf, s, Connect(id, addr)) == s.(conns := s.conns[id := Conn(addr, [], Locals("", "", "", "", ""), AwaitHello, [])])
  {
  }

  lemma Challenged(kdf: Kdf, s: System, id: nat, hello: string, salt: string, nonce: string)
    requires id in s.conns && s.conns[id].phase == AwaitHello && Decode(hello).rec.t == "hello"
    ensures var t, c := Next(kdf, s, Receive(id, hello, salt, nonce)), s.conns[id];
            && t == s.(conns := t.conns) && id in t.conns && t.conns[id].phase == AwaitAuth && t.conns[id].addr == c.addr
            && t.conns[id].replies == c.replies + [Challenge(salt, nonce)]
            && t.conns[id].locals == c.locals.(name := Decode(hello).rec.name, salt := salt, nonce := nonce)
  {
    hide Decode, Calls;
  }

  lemma Proved(kdf: Kdf, s: System, id: nat, auth: string, x: string, y: string)
    requires id in s.conns && s.conns[id].phase == AwaitAuth
    requires var l := s.conns[id].locals; Decode(auth).rec.t == "auth" && Decode(auth).rec.proof == kdf(s.password, l.salt, l.nonce)
    ensures var t, c := Next(kdf, s, Receive(id, auth, x, y)), s.conns[id];
            && t == s.(conns := t.conns) && id in t.conns && t.conns[id].phase == Proven && t.conns[id].addr == c.addr
            && t.conns[id].replies == c.replies && t.conns[id].locals.name == c.locals.name
  {
    hide Decode, Calls;
  }

  lemma Welcomed(kdf: Kdf, s: System, id: nat, now: int, later: int)
    requires id in s.conns && s.conns[id].phase == Proven
    ensures var t, c := Next(kdf, Next(kdf, s, Proceed(id, now)), Proceed(id, later)), s.conns[id];
            && id in t.conns && t.conns[id].phase == InLoop(s.nextID + 1, []) && t.conns[id].replies == c.replies + [AuthOk(s.name)]
            && t.nextID == s.nextID + 1 && t.log == s.log
            && t.clients == s.clients[s.nextID + 1 := Device(c.locals.name, c.addr, later, s.nextID + 1)]
  {
    hide Received;
  }

  lemma RunMore(kdf: Kdf, s: System, es: seq<Input>, e: Input)
    ensures Run(kdf, s, es + [e]) == Next(kdf, Run(kdf, s, es), e)
  {
    hide Next;
    assert (es + [e])[..|es|] == es;
  }

  lemma FiveSteps(kdf: Kdf, s: System, a: Input, b: Input, c: Input, d: Input, e: Input)
    ensures Run(kdf, s, [a, b, c, d, e]) == Next(kdf, Next(kdf, Next(kdf, Next(kdf, Next(kdf, s, a), b), c), d), e)
  {
    hide Next, Run;
    assert Run(kdf, s, []) == s by { NoSteps(kdf, s); }
    RunMore(kdf, s, [], a);
    RunMore(kdf, s, [] + [a], b);
    RunMore(kdf, s, [] + [a] + [b], c);
    RunMore(kdf, s, [] + [a] + [b] + [c], d);
    RunMore(kdf, s, [] + [a] + [b] + [c] + [d], e);
    assert [] + [a] + [b] + [c] + [d] + [e] == [a, b, c, d, e];
  }

  lemma NoSteps(kdf: Kdf, s: System)
    ensures Run(kdf, s, []) == s
  {
  }

  /** From the moment of a swap the new password and name count, and nothing else changes. */
  lemma SwapsCountAtOnce(kdf: Kdf, s: System, p: string, n: string)
    ensures Run(kdf, s, [NewPassword(p), NewName(n)]) == s.(password := p, name := n)
  {
    hide Next;
    NoSteps(kdf, s);
    RunMore(kdf, s, [], NewPassword(p));
    RunMore(kdf, s, [] + [NewPassword(p)], NewName(n));
    assert [] + [NewPassword(p)] + [NewName(n)] == [NewPassword(p), NewName(n)];
    SwapOne(kdf, s, p, n);
    SwapOne(kdf, s.(password := p), p, n);
  }

  lemma SwapOne(kdf: Kdf, s: System, p: string, n: string)
    ensures Next(kdf, s, NewPassword(p)) == s.(password := p) && Next(kdf, s, NewName(n)) == s.(name := n)
  {
  }

  /** And one whose proof is wrong, or that does not say auth, is told so and closed. */
  lemma WrongProofIsRefused(kdf: Kdf, s: System, id: nat, auth: string, x: string, y: string)
    requires id in s.conns && s.conns[id].phase == AwaitAuth
    requires var l := s.conns[id].locals; Decode(auth).rec.t != "auth" || Decode(auth).rec.proof != kdf(s.password, l.salt, l.nonce)
    ensures var t := Next(kdf, s, Receive(id, auth, x, y));
            && t.conns[id].phase == Closed && t.conns[id].replies == s.conns[id].replies + [AuthFailed]
            && t.clients == s.clients && t.log == s.log && t.nextID == s.nextID
  {
    hide Decode;
  }

  lemma ReceivedIsFaithful(kdf: Kdf, c: Conn, calls: seq<Call>, line: string, salt: string, nonce: string, password: string)
    requires Faithful(kdf, c, calls)
    ensures Faithful(kdf, Received(kdf, c, line, salt, nonce, password), calls)
  {
    hide Decode, Calls;
    EmptyLoop();
    if c.phase.InLoop? && c.phase.todo == [] {
      LoopIsFaithful(kdf, c, calls, line, salt, nonce, password);
    }
  }

  lemma LoopIsFaithful(kdf: Kdf, c: Conn, calls: seq<Call>, line: string, salt: string, nonce: string, password: string)
    requires Faithful(kdf, c, calls) && c.phase.InLoop? && c.phase.todo == []
    ensures Faithful(kdf, Received(kdf, c, line, salt, nonce, password), calls)
  {
    hide Decode, Calls, SessionCalls, SessionReplies, Proves, Greets;
    OneMoreLine(kdf, c.locals, c.heard, line);
    var rec := Decode(line).rec;
    if rec.t == "ping" || rec.t == "getscreen" { NoCallsFromControl(rec); }
  }

  /** Sending auth_ok and registering. */
  lemma EntryIsFaithful(kdf: Kdf, c: Conn, calls: seq<Call>, server: string, cid: nat)
    requires Faithful(kdf, c, calls)
    ensures c.phase.Proven? ==>
              Faithful(kdf, c.(phase := Greeted, locals := c.locals.(server := server), replies := c.replies + [AuthOk(server)]), calls)
    ensures c.phase.Greeted? ==> Faithful(kdf, c.(phase := InLoop(cid, [])), calls)
  {
    hide Decode;
    if c.phase.Proven? || c.phase.Greeted? {
      EmptyLoop();
      assert c.heard[2..] == [];
    }
  }

  /** Injecting, hanging up and leaving. */
  lemma ExitIsFaithful(kdf: Kdf, c: Conn, calls: seq<Call>)
    requires Faithful(kdf, c, calls)
    ensures c.phase.InLoop? && c.phase.todo != [] ==>
              Faithful(kdf, c.(phase := InLoop(c.phase.cid, c.phase.todo[1..])), calls + [c.phase.todo[0]])
    ensures c.phase.Leaving? ==> Faithful(kdf, c.(phase := Closed), calls)
    ensures Faithful(kdf, HungUp(c), calls)
  {
    hide Decode, SessionCalls, SessionReplies, Proves;
    if c.phase.InLoop? && c.phase.todo != [] {
      assert calls + [c.phase.todo[0]] + c.phase.todo[1..] == calls + c.phase.todo;
    }
  }

  ghost predicate FaithfulAt(kdf: Kdf, s: System, id: nat) {
    if id in s.conns then Faithful(kdf, s.conns[id], CallsBy(id, s.log)) else CallsBy(id, s.log) == []
  }

  lemma NextIsFaithful(kdf: Kdf, s: System, e: Input, id: nat)
    requires FaithfulAt(kdf, s, id)
    ensures FaithfulAt(kdf, Next(kdf, s, e), id)
  {
    hide Faithful, Received, HungUp, CallsBy;
    match e {
      case Receive(who, line, salt, nonce) =>
        if who == id && id in s.conns {
          ReceivedIsFaithful(kdf, s.conns[id], CallsBy(id, s.log), line, salt, nonce, s.password);
        }
      case HangUp(who) =>
        if who == id && id in s.conns {
          ExitIsFaithful(kdf, s.conns[id], CallsBy(id, s.log));
        }
      case Connect(who, addr) =>
        NewIsFaithful(kdf, addr);
      case Proceed(who, now) =>
        ProceedIsFaithful(kdf, s, who, now, id);
      case _ =>
    }
  }

  lemma NewIsFaithful(kdf: Kdf, addr: string)
    ensures Faithful(kdf, Conn(addr, [], Locals("", "", "", "", ""), AwaitHello, []), [])
  {
  }

  lemma ProceedIsFaithful(kdf: Kdf, s: System, who: nat, now: int, id: nat)
    requires FaithfulAt(kdf, s, id)
    ensures FaithfulAt(kdf, Next(kdf, s, Proceed(who, now)), id)
  {
    hide Faithful, CallsBy;
    if who in s.conns {
      var c := s.conns[who];
      if c.phase.InLoop? && c.phase.todo != [] { CallsBySnoc(id, s.log, who, c.phase.todo[0]); }
      if who == id {
        EntryIsFaithful(kdf, c, CallsBy(id, s.log), s.name, s.nextID + 1);
        ExitIsFaithful(kdf, c, CallsBy(id, s.log));
      }
    }
  }

  /**
    In every interleaving of connections and password changes, each connection has sent
    the replies and made the calls, in order, that Handle makes for the lines it has read,
    given the one password it checked against; of the event being applied the rest is to come.
  */
  lemma {:induction false} InterleavingIsInvisible(kdf: Kdf, password: string, name: string, es: seq<Input>, id: nat)
    ensures FaithfulAt(kdf, Run(kdf, Start(password, name), es), id)
    decreases |es|
  {
    if es != [] {
      InterleavingIsInvisible(kdf, password, name, es[..|es| - 1], id);
      NextIsFaithful(kdf, Run(kdf, Start(password, name), es[..|es| - 1]), es[|es| - 1], id);
    }
  }

  // ---- Nobody injects without the password ----

  /** At step k the connection's proof, for the challenge it was sent, matched the
      password of that moment. */
  ghost predicate CheckedAt(kdf: Kdf, start: System, es: seq<Input>, id: nat, k: nat) {
    && k < |es| && es[k].Receive? && es[k].id == id
    && var s := Run(kdf, start, es[..k]);
    && id in s.conns && s.conns[id].phase == AwaitAuth
    && var l := s.conns[id].locals;
    && Challenge(l.salt, l.nonce) in s.conns[id].replies
    && Decode(es[k].line).rec.t == "auth"
    && Decode(es[k].line).rec.proof == kdf(s.password, l.salt, l.nonce)
  }

  ghost predicate Checked(kdf: Kdf, start: System, es: seq<Input>, id: nat) {
    exists k: nat :: CheckedAt(kdf, start, es, id, k)
  }

  predicate PastCheck(p: Phase) {
    p.Proven? || p.Greeted? || p.InLoop? || p.Leaving?
  }

  lemma StillChecked(kdf: Kdf, start: System, es: seq<Input>, id: nat)
    requires es != [] && Checked(kdf, start, es[..|es| - 1], id)
    ensures Checked(kdf, start, es, id)
  {
    hide Run, Decode;
    var n := |es| - 1;
    var k: nat :| CheckedAt(kdf, start, es[..n], id, k);
    assert es[..n][..k] == es[..k];
    assert CheckedAt(kdf, start, es, id, k);
  }

  lemma OneStepCheck(kdf: Kdf, s: System, e: Input, id: nat)
    requires id in s.conns ==> !PastCheck(s.conns[id].phase)
    requires FaithfulAt(kdf, s, id)
    ensures var t := Next(kdf, s, e);
            CallsBy(id, t.log) == CallsBy(id, s.log) &&
            (id in t.conns && PastCheck(t.conns[id].phase) ==>
               && e.Receive? && e.id == id && id in s.conns && s.conns[id].phase == AwaitAuth
               && var l := s.conns[id].locals;
               && Challenge(l.salt, l.nonce) in s.conns[id].replies
               && Decode(e.line).rec.t == "auth" && Decode(e.line).rec.proof == kdf(s.password, l.salt, l.nonce))
  {
    hide Decode, CallsBy, SessionCalls, Calls;
    if e.Proceed? && e.id in s.conns {
      var p := s.conns[e.id].phase;
      if p.InLoop? && p.todo != [] { CallsBySnoc(id, s.log, e.id, p.todo[0]); }
    }
  }

  lemma {:induction false} OnlyIfChecked(kdf: Kdf, password: string, name: string, es: seq<Input>, id: nat)
    ensures var start := Start(password, name); var s := Run(kdf, start, es);
            CallsBy(id, s.log) != [] || (id in s.conns && PastCheck(s.conns[id].phase)) ==> Checked(kdf, start, es, id)
    decreases |es|
  {
    hide Next, FaithfulAt, CheckedAt, PastCheck;
    if es != [] {
      var start, n := Start(password, name), |es| - 1;
      var s := Run(kdf, start, es[..n]);
      OnlyIfChecked(kdf, password, name, es[..n], id);
      InterleavingIsInvisible(kdf, password, name, es[..n], id);
      if Checked(kdf, start, es[..n], id) {
        StillChecked(kdf, start, es, id);
      } else {
        OneStepCheck(kdf, s, es[n], id);
        JustChecked(kdf, start, es, id);
      }
    }
  }

  lemma JustChecked(kdf: Kdf, start: System, es: seq<Input>, id: nat)
    requires es != []
    ensures var s := Run(kdf, start, es[..|es| - 1]); var e := es[|es| - 1];
            e.Receive? && e.id == id && id in s.conns && s.conns[id].phase == AwaitAuth
            && Challenge(s.conns[id].locals.salt, s.conns[id].locals.nonce) in s.conns[id].replies
            && Decode(e.line).rec.t == "auth"
            && Decode(e.line).rec.proof == kdf(s.password, s.conns[id].locals.salt, s.conns[id].locals.nonce)
            ==> Checked(kdf, start, es, id)
  {
    hide Run, Decode;
    if CheckedAt(kdf, start, es, id, |es| - 1) {
    }
  }

  lemma {:induction false} InLog(id: nat, call: Call, log: seq<(nat, Call)>)
    requires (id, call) in log
    ensures CallsBy(id, log) != []
    decreases |log|
  {
    var n := |log| - 1;
    if log[n].0 != id { InLog(id, call, log[..n]); }
  }

  /** Whoever injects had proved, against the password of that moment, to know it. */
  lemma CallersAreAuthenticated(kdf: Kdf, password: string, name: string, es: seq<Input>, id: nat, call: Call)
    requires (id, call) in Run(kdf, Start(password, name), es).log
    ensures exists k: nat :: CheckedAt(kdf, Start(password, name), es, id, k)
  {
    hide Run;
    InLog(id, call, Run(kdf, Start(password, name), es).log);
    OnlyIfChecked(kdf, password, name, es, id);
    assert Checked(kdf, Start(password, name), es, id);
  }

  /** A password or name swap, or anything else that happens, leaves an admitted
      connection in its loop under its identifier until it says bye or hangs up. */
  lemma {:induction false} StaysUp(kdf: Kdf, s: System, es: seq<Input>, id: nat)
    requires id in s.conns && s.conns[id].phase.InLoop?
    requires HangUp(id) !in es
    requires forall e <- es :: e.Receive? && e.id == id ==> !IsBye(e.line)
    ensures var t := Run(kdf, s, es);
            && id in t.conns && t.conns[id].phase.InLoop? && t.conns[id].phase.cid == s.conns[id].phase.cid
            && t.conns[id].locals == s.conns[id].locals
    decreases |es|
  {
    hide Next, IsBye;
    if es != [] {
      var n := |es| - 1;
      StaysUp(kdf, s, es[..n], id);
      assert es[n] in es;
      StaysInLoop(kdf, Run(kdf, s, es[..n]), es[n], id);
    }
  }

  lemma StaysInLoop(kdf: Kdf, s: System, e: Input, id: nat)
    requires id in s.conns && s.conns[id].phase.InLoop?
    requires e != HangUp(id) && (e.Receive? && e.id == id ==> !IsBye(e.line))
    ensures var t := Next(kdf, s, e);
            && id in t.conns && t.conns[id].phase.InLoop? && t.conns[id].phase.cid == s.conns[id].phase.cid
            && t.conns[id].locals == s.conns[id].locals
  {
    hide Decode, Calls, Proves;
  }

  // ---- The registry ----

  function Ticket(c: Conn): Option<nat> {
    if c.phase.InLoop? || c.phase.Leaving? then Some(c.phase.cid) else None
  }

  ghost predicate Holds(s: System, id: nat, cid: nat) {
    id in s.conns && Ticket(s.conns[id]) == Some(cid)
  }

  /** The registry's entries are the connections inside the event loop, one each. */
  ghost predicate RegistryIsExact(s: System) {
    && WellFiled(s.clients, s.nextID)
    && (forall id, cid :: Holds(s, id, cid) ==>
          cid in s.clients && s.clients[cid].name == s.conns[id].locals.name && s.clients[cid].addr == s.conns[id].addr)
    && (forall cid <- s.clients :: exists id :: Holds(s, id, cid))
    && (forall i, j, cid :: Holds(s, i, cid) && Holds(s, j, cid) ==> i == j)
  }

  /** Connection id is replaced by one that keeps its ticket. */
  lemma SameTicket(s: System, t: System, id: nat)
    requires RegistryIsExact(s) && id in s.conns
    requires t.clients == s.clients && t.nextID == s.nextID
    requires exists c: Conn :: t.conns == s.conns[id := c] && Ticket(c) == Ticket(s.conns[id]) && c.addr == s.conns[id].addr
               && (Ticket(c).Some? ==> c.locals.name == s.conns[id].locals.name)
    ensures RegistryIsExact(t)
  {
    forall i, cid ensures Holds(t, i, cid) <==> Holds(s, i, cid) {}
  }

  lemma Entered(s: System, id: nat, now: int)
    requires RegistryIsExact(s) && id in s.conns && s.conns[id].phase.Greeted?
    ensures RegistryIsExact(Proceeded(s, id, now))
  {
    var t := Proceeded(s, id, now);
    assert Holds(t, id, t.nextID);
    forall i, cid ensures Holds(t, i, cid) <==> Holds(s, i, cid) || (i == id && cid == t.nextID) {}
  }

  lemma Left(s: System, id: nat, now: int)
    requires RegistryIsExact(s) && id in s.conns && s.conns[id].phase.Leaving?
    ensures RegistryIsExact(Proceeded(s, id, now))
  {
    var t := Proceeded(s, id, now);
    assert Holds(s, id, s.conns[id].phase.cid);
    forall i, cid ensures Holds(t, i, cid) <==> Holds(s, i, cid) && i != id {}
  }

  lemma Joined(s: System, id: nat, addr: string)
    requires RegistryIsExact(s) && id !in s.conns
    ensures RegistryIsExact(s.(conns := s.conns[id := Conn(addr, [], Locals("", "", "", "", ""), AwaitHello, [])]))
  {
    var t := s.(conns := s.conns[id := Conn(addr, [], Locals("", "", "", "", ""), AwaitHello, [])]);
    forall i, cid ensures Holds(t, i, cid) <==> Holds(s, i, cid) {}
  }

  lemma KeepsTicket(kdf: Kdf, c: Conn, line: string, salt: string, nonce: string, password: string)
    ensures var d := Received(kdf, c, line, salt, nonce, password);
            Ticket(d) == Ticket(c) && d.addr == c.addr && (Ticket(d).Some? ==> d.locals.name == c.locals.name)
    ensures Ticket(HungUp(c)) == Ticket(c) && HungUp(c).addr == c.addr && HungUp(c).locals == c.locals
  {
    hide Decode, Calls, Proves;
  }

  lemma NextKeepsRegistry(kdf: Kdf, s: System, e: Input)
    requires RegistryIsExact(s)
    ensures RegistryIsExact(Next(kdf, s, e))
  {
    hide RegistryIsExact, Received, HungUp, Ticket;
    match e {
      case NewPassword(p) => Renamed(s, Next(kdf, s, e));
      case NewName(n) => Renamed(s, Next(kdf, s, e));
      case Connect(id, addr) =>
        if id !in s.conns { Joined(s, id, addr); }
      case Receive(id, line, salt, nonce) =>
        if id in s.conns {
          KeepsTicket(kdf, s.conns[id], line, salt, nonce, s.password);
          SameTicket(s, Next(kdf, s, e), id);
        }
      case HangUp(id) =>
        if id in s.conns {
          KeepsTicket(kdf, s.conns[id], "", "", "", "");
          SameTicket(s, Next(kdf, s, e), id);
        }
      case Proceed(id, now) =>
        if id in s.conns { ProceedKeepsRegistry(s, id, now); }
    }
  }

  lemma Renamed(s: System, t: System)
    requires RegistryIsExact(s) && t.conns == s.conns && t.clients == s.clients && t.nextID == s.nextID
    ensures RegistryIsExact(t)
  {
    forall i, cid ensures Holds(t, i, cid) <==> Holds(s, i, cid) {}
  }

  lemma ProceedKeepsRegistry(s: System, id: nat, now: int)
    requires RegistryIsExact(s) && id in s.conns
    ensures RegistryIsExact(Proceeded(s, id, now))
  {
    hide RegistryIsExact;
    match s.conns[id].phase {
      case Greeted => Entered(s, id, now);
      case Leaving(_) => Left(s, id, now);
      case Proven => SameTicket(s, Proceeded(s, id, now), id);
      case InLoop(_, todo) => if todo != [] { SameTicket(s, Proceeded(s, id, now), id); }
      case _ =>
    }
  }

  /** In every run the registry lists exactly the connections inside the event loop. */
  lemma {:induction false} RegistryFollows(kdf: Kdf, password: string, name: string, es: seq<Input>)
    ensures RegistryIsExact(Run(kdf, Start(password, name), es))
    decreases |es|
  {
    hide Next;
    if es != [] {
      RegistryFollows(kdf, password, name, es[..|es| - 1]);
      NextKeepsRegistry(kdf, Run(kdf, Start(password, name), es[..|es| - 1]), es[|es| - 1]);
    }
  }

  lemma {:induction false} IdsGrow(kdf: Kdf, s: System, es: seq<Input>, n: nat)
    requires n <= |es|
    ensures Run(kdf, s, es[..n]).nextID <= Run(kdf, s, es).nextID
    decreases |es|
  {
    hide Received;
    if n < |es| {
      var m := |es| - 1;
      IdsGrow(kdf, s, es[..m], n);
      assert es[..m][..n] == es[..n];
    } else {
      assert es[..n] == es;
    }
  }

  /** Step k of the run registers a connection. */
  ghost predicate Registers(kdf: Kdf, s: System, es: seq<Input>, k: nat) {
    k < |es| && es[k].Proceed? && var t := Run(kdf, s, es[..k]); es[k].id in t.conns && t.conns[es[k].id].phase == Greeted
  }

  /** No identifier is ever given out twice, even after its connection has gone. */
  lemma IdsAreNeverReused(kdf: Kdf, s: System, es: seq<Input>, j: nat, k: nat)
    requires j < k && Registers(kdf, s, es, j) && Registers(kdf, s, es, k)
    ensures var a, b := Run(kdf, s, es[..j + 1]), Run(kdf, s, es[..k + 1]);
            && es[j].id in a.conns && es[k].id in b.conns
            && a.conns[es[j].id].phase.InLoop? && b.conns[es[k].id].phase.InLoop?
            && a.conns[es[j].id].phase.cid < b.conns[es[k].id].phase.cid
  {
    hide Received;
    assert es[..j + 1][..j] == es[..j] && es[..k + 1][..k] == es[..k];
    IdsGrow(kdf, s, es[..k], j + 1);
    assert es[..k][..j + 1] == es[..j + 1];
  }

  // ---- From the phones to an agent ----

  /** The clients' calls among what happens at the broadcast writer. */
  function Sends(acts: seq<Action>): seq<(nat, Call)>
    decreases |acts|
  {
    if acts == [] then []
    else if acts[0].Send? then [(acts[0].client, acts[0].call)] + Sends(acts[1..])
    else Sends(acts[1..])
  }

  ghost predicate AlwaysBound(t: nat, acts: seq<Action>, bound: set<nat>) {
    t in bound && forall a <- acts :: a.Bind? ==> t in a.targets
  }

  lemma {:induction false} BoundGetsAll(t: nat, acts: seq<Action>, bound: set<nat>)
    requires AlwaysBound(t, acts, bound)
    ensures SentTo(t, acts, bound) == Sends(acts)
    decreases |acts|
  {
    if acts != [] {
      assert acts[0] in acts;
      BoundGetsAll(t, acts[1..], if acts[0].Bind? then acts[0].targets else bound);
    }
  }

  /**
    From the socket to the agent: an agent that stays bound and whose pipe takes every
    write makes the calls of all connections, in one order, up to the first whose frame is
    too long for it; and in that order each connection that is not in the middle of an
    event has exactly the calls of the lines it sent.
  */
  lemma PhonesReachTheAgent(
      kdf: Kdf, password: string, name: string, es: seq<Input>, t: nat, acts: seq<Action>, bound: set<nat>, id: nat, n: nat)
    requires var s := Run(kdf, Start(password, name), es);
             && Sends(acts) == s.log && id in s.conns && Todo(s.conns[id].phase) == []
             && n <= |s.log| && (forall i :: 0 <= i < n ==> Small(s.log[i].1)) && (n < |s.log| ==> !Small(s.log[n].1))
    requires AlwaysBound(t, acts, bound) && Reliable(t, acts)
    ensures var s := Run(kdf, Start(password, name), es);
            && AllPossible(WritesTo(t, acts, bound))
            && AgentCalls(Stream(WritesTo(t, acts, bound))) == CallsIn(s.log)[..n]
            && CallsBy(id, s.log) == SessionCalls(kdf, s.conns[id].locals, s.conns[id].heard)
  {
    hide Run, Reliable, AlwaysBound, Small, WritesTo, SentTo, CallsBy, SessionCalls, AgentCalls, Sends;
    BoundGetsAll(t, acts, bound);
    ReliableTarget(t, acts, bound, n);
    InterleavingIsInvisible(kdf, password, name, es, id);
  }
}
