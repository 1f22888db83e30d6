/**
  The byte stream of one agent pipe. The service writes one frame per event; a
  write that times out leaves a prefix of its frame behind. The agent cuts the
  stream into lines and decodes each (server/pipe_inject.go, server/fanout.go).
*/
module PipeFraming {
  import opened Prelude
  import opened JsonScanner
  import opened JsonRecord
  import opened JsonRoundTrip

  // ---- The agent's side ----

  /** The largest buffer the agent's line scanner may grow to. */
  const MAX_LINE: nat := 0x10_0000

  function DropCR(line: string): string {
    if line != "" && line[|line| - 1] == '\r' then line[..|line| - 1] else line
  }

  /** The lines bufio.Scanner yields until the stream ends or a line fills the buffer. */
  function Lines(s: string): seq<string>
    decreases |s|
  {
    var i := LineBreak(s);
    if i < |s| then
      if i + 1 <= MAX_LINE then [DropCR(s[..i])] + Lines(s[i + 1..]) else []
    else if 0 < |s| < MAX_LINE then [DropCR(s)]
    else []
  }

  /** The records of the lines that decode without error. */
  function Records(lines: seq<string>): seq<In> {
    if lines == [] then []
    else (if Decode(lines[0]).ok then [Decode(lines[0]).rec] else []) + Records(lines[1..])
  }

  // ---- The service's side ----

  /** An attempt to send m of which the first sent bytes reached the pipe. */
  datatype Write = Write(m: In, sent: nat)

  predicate Possible(w: Write) {
    w.sent <= |Encode(w.m)|
  }

  predicate AllPossible(ws: seq<Write>) {
    forall i :: 0 <= i < |ws| ==> Possible(ws[i])
  }

  function Stream(ws: seq<Write>): string
    requires AllPossible(ws)
  {
    if ws == [] then "" else Encode(ws[0].m)[..ws[0].sent] + Stream(ws[1..])
  }

  /** What lies on the pipe after its last line break: nothing, one frame that lacks
      only its line break, or size bytes that can no longer become a record. */
  datatype Pending = Clean | Unterminated(m: In) | Cut(size: nat)

  function Size(p: Pending): nat {
    match p
    case Clean => 0
    case Unterminated(m) => |Body(m)|
    case Cut(size) => size
  }

  /** What lies there after a non-empty part of a frame has been added. */
  function Shortened(p: Pending, w: Write): Pending {
    if p.Clean? && w.sent == |Body(w.m)| then Unterminated(w.m) else Cut(Size(p) + w.sent)
  }

  /**
    Which records the agent applies: those written whole onto a clean pipe. A short
    write spoils its own frame and the next whole one; a line that outgrows the
    scanner's buffer ends the loop.
  */
  function Deliver(ws: seq<Write>, p: Pending): seq<In> {
    if ws == [] then
      if p.Unterminated? && Size(p) < MAX_LINE then [p.m] else []
    else
      var w, rest := ws[0], ws[1..];
      if w.sent == 0 then Deliver(rest, p)
      else if w.sent < |Encode(w.m)| then Deliver(rest, Shortened(p, w))
      else if Size(p) + |Encode(w.m)| > MAX_LINE then []
      else (if p.Clean? then [w.m] else []) + Deliver(rest, Clean)
  }

  // ---- Prefixes of frames in the automaton ----

  predicate Spelling(m: Mode) {
    m.Literal? ==> forall i :: 0 <= i < |m.rest| ==> 'a' <= m.rest[i] <= 'z'
  }

  /** No frame or part of a frame that follows can bring this state to acceptance. */
  predicate Doomed(c: Scanner) {
    c.mode.Bad? || (c.stack != [] && !c.mode.EndTop? && Spelling(c.mode))
  }

  /** Once a container has been opened, only its end leaves the stack empty. */
  predicate Opened(c: Scanner) {
    if c.stack == [] then c.mode.Bad? || c.mode.EndTop? else !c.mode.EndTop? && Spelling(c.mode)
  }

  lemma {:induction false} StaysOpened(c: Scanner, s: string)
    requires Opened(c)
    ensures Opened(Run(c, s))
    decreases |s|
  {
    if s != "" { StaysOpened(Step(c, s[0]), s[1..]); }
  }

  lemma {:induction false} NothingFollows(s: string)
    requires s != "" && !IsSpace(s[|s| - 1])
    ensures Run(Scanner(EndTop, []), s).mode.Bad?
    decreases |s|
  {
    if IsSpace(s[0]) {
      NothingFollows(s[1..]);
    } else {
      BadIsFinal(Fail([]), s[1..]);
    }
  }

  /** A proper, non-empty prefix of a frame's body is inside the object. */
  lemma PrefixIsOpen(m: In, k: nat)
    requires 0 < k < |Body(m)|
    ensures var c := Run(START, Body(m)[..k]); c.stack != [] && !c.mode.Bad? && Doomed(c)
  {
    hide Body;
    var body := Body(m);
    var p, q := body[..k], body[k..];
    var c := Run(START, p);
    EncodeIsOneLine(m);
    ReadBody(m);
    assert p + q == body;
    RunAppend(START, p, q);
    var open := Scanner(BeginKeyOrEmpty, [InKey]);
    assert Step(START, p[0]) == open by { assert [] + [InKey] == [InKey]; }
    StaysOpened(open, p[1..]);
    if c.mode.Bad? {
      BadIsFinal(c, q);
    } else if c.stack == [] {
      assert q[|q| - 1] == '}';
      NothingFollows(q);
    }
  }

  /** Read where a value may stand inside open containers, a prefix of a frame leaves
      those containers open. */
  lemma NestedPrefix(outer: seq<Context>, m: In, k: nat)
    requires outer != [] && 0 < k <= |Body(m)|
    ensures Doomed(Run(Scanner(BeginKeyOrEmpty, outer + [InKey]), Body(m)[1..k]))
  {
    hide Body;
    EncodeIsOneLine(m);
    var open := Scanner(BeginKeyOrEmpty, [InKey]);
    var s := Body(m)[1..k];
    assert Step(START, '{') == open by { assert [] + [InKey] == [InKey]; }
    forall i | 0 <= i < |s| ensures Run(open, s[..i]).stack != [] && !Run(open, s[..i]).mode.EndTop? {
      var p := Body(m)[..i + 1];
      assert p[0] == '{' && p[1..] == s[..i];
      PrefixIsOpen(m, i + 1);
    }
    RunLift(outer, open, s);
    StaysOpened(open, s);
    assert Lift(outer, open) == Scanner(BeginKeyOrEmpty, outer + [InKey]);
  }

  /** A frame or a part of one never rescues a text that has been cut. */
  lemma DoomedStaysDoomed(c: Scanner, m: In, k: nat)
    requires Doomed(c) && 0 < k <= |Body(m)|
    ensures Doomed(Run(c, Body(m)[..k]))
  {
    hide Body;
    EncodeIsOneLine(m);
    var p := Body(m)[..k];
    if c.mode.Bad? {
      BadIsFinal(c, p);
    } else if c.mode.BeginValue? || c.mode.BeginValueOrEmpty? {
      assert p[1..] == Body(m)[1..k];
      NestedPrefix(c.stack, m, k);
    } else if c.mode.InString? {
      InsideString(c, p);
    } else {
      BadIsFinal(Step(c, '{'), p[1..]);
    }
  }

  lemma InsideString(c: Scanner, p: string)
    requires c.mode.InString? && c.stack != []
    requires p != "" && p[0] == '{' && (|p| > 1 ==> p[1] == '"') && (|p| > 2 ==> p[2] == 't')
    ensures Doomed(Run(c, p))
  {
    assert Step(c, p[0]) == c;
    if |p| > 1 {
      var d := Step(c, p[1]);
      assert Run(c, p) == Run(d, p[1..][1..]);
      if |p| > 2 {
        assert p[1..][1..][0] == 't' && Step(d, 't').mode.Bad?;
        BadIsFinal(Step(d, 't'), p[1..][1..][1..]);
      }
    }
  }

  // ---- What lies on the pipe ----

  ghost predicate Represents(p: Pending, carry: string) {
    && |carry| == Size(p)
    && (forall i :: 0 <= i < |carry| ==> ' ' <= carry[i])
    && (p.Unterminated? ==> carry == Body(p.m))
    && (p.Cut? ==> carry != "" && Doomed(Run(START, carry)))
  }

  lemma DoomedIsRejected(s: string)
    requires Doomed(Run(START, s))
    ensures !Accepts(s)
  {
    hide Run;
  }

  /** A text in a doomed state decodes to nothing. */
  lemma DoomedIsSilent(s: string)
    requires Doomed(Run(START, s))
    ensures !Decode(s).ok
  {
    hide StoreAll, ReadAll, Run, Step, Accepts, Doomed;
    DoomedIsRejected(s);
  }

  lemma MoreCut(p: Pending, carry: string, m: In, k: nat)
    requires Represents(p, carry) && !p.Clean? && 0 < k <= |Body(m)|
    ensures Doomed(Run(START, carry + Body(m)[..k]))
  {
    hide Body;
    var s := Body(m)[..k];
    RunAppend(START, carry, s);
    if p.Cut? {
      DoomedStaysDoomed(Run(START, carry), m, k);
    } else {
      ReadBody(p.m);
      EncodeIsOneLine(m);
      BadIsFinal(Fail([]), s[1..]);
    }
  }

  lemma ShortWrite(p: Pending, carry: string, w: Write)
    requires Represents(p, carry) && 0 < w.sent < |Encode(w.m)|
    ensures Represents(Shortened(p, w),
                       carry + Encode(w.m)[..w.sent])
  {
    hide Body;
    EncodeIsOneLine(w.m);
    var s := Encode(w.m)[..w.sent];
    assert s == Body(w.m)[..w.sent];
    if p.Clean? {
      assert carry + s == s;
      if w.sent < |Body(w.m)| { PrefixIsOpen(w.m, w.sent); }
    } else {
      MoreCut(p, carry, w.m, w.sent);
    }
  }

  lemma {:induction false} NewlineAfter(line: string, rest: string)
    requires forall i :: 0 <= i < |line| ==> line[i] != '\n'
    ensures LineBreak(line + "\n" + rest) == |line|
  {
    var s := line + "\n" + rest;
    assert s[|line|] == '\n';
    assert forall i :: 0 <= i < |line| ==> s[i] == line[i];
  }

  lemma AnyLine(line: string, rest: string)
    requires forall i :: 0 <= i < |line| ==> line[i] != '\n'
    ensures Lines(line + "\n" + rest) == if |line| + 1 <= MAX_LINE then [DropCR(line)] + Lines(rest) else []
  {
    var s := line + "\n" + rest;
    NewlineAfter(line, rest);
    assert s[..|line|] == line;
    assert s[|line| + 1..] == rest;
  }

  /** A line that does not fit, with its line break, into 2^20 bytes ends the loop. */
  lemma LongLineEnds(line: string, rest: string)
    requires forall i :: 0 <= i < |line| ==> line[i] != '\n'
    ensures |line| + 1 > 1048576 ==> Lines(line + "\n" + rest) == []
  {
    hide Lines;
    AnyLine(line, rest);
  }

  lemma FirstLine(line: string, rest: string)
    requires forall i :: 0 <= i < |line| ==> ' ' <= line[i]
    ensures Lines(line + "\n" + rest) == if |line| + 1 <= MAX_LINE then [line] + Lines(rest) else []
  {
    AnyLine(line, rest);
    assert DropCR(line) == line;
  }

  /** Lines, each with the line break that ended it. */
  function Broken(lines: seq<string>, crs: seq<bool>): string
    requires |lines| == |crs|
  {
    if lines == [] then "" else lines[0] + (if crs[0] then "\r\n" else "\n") + Broken(lines[1..], crs[1..])
  }

  lemma TailComesOut(tail: string)
    requires |tail| < MAX_LINE && forall k :: 0 <= k < |tail| ==> tail[k] != '\n' && tail[k] != '\r'
    ensures Lines(tail) == if tail == "" then [] else [tail]
  {
  }

  lemma FirstComesOut(first: string, cr: bool, rest: string)
    requires |first| + 2 <= MAX_LINE && forall k :: 0 <= k < |first| ==> first[k] != '\n' && first[k] != '\r'
    ensures Lines((if cr then first + "\r" else first) + "\n" + rest) == [first] + Lines(rest)
  {
    hide Lines;
    var line := if cr then first + "\r" else first;
    AnyLine(line, rest);
    assert (first + "\r")[..|first|] == first;
  }

  /** The scanner hands out exactly the lines that were sent, whichever line breaks end
      them, and a last one that nothing ends, if none outgrows its buffer. */
  lemma {:induction false} LinesComeOut(lines: seq<string>, crs: seq<bool>, tail: string)
    requires |lines| == |crs| && |tail| < 1048576
    requires forall i :: 0 <= i < |lines| ==> |lines[i]| + 2 <= 1048576
    requires forall i, k :: 0 <= i < |lines| && 0 <= k < |lines[i]| ==> lines[i][k] != '\n' && lines[i][k] != '\r'
    requires forall k :: 0 <= k < |tail| ==> tail[k] != '\n' && tail[k] != '\r'
    ensures Lines(Broken(lines, crs) + tail) == lines + if tail == "" then [] else [tail]
    decreases |lines|
  {
    hide Lines, DropCR;
    if lines == [] {
      assert Broken(lines, crs) + tail == tail;
      TailComesOut(tail);
    } else {
      var line := if crs[0] then lines[0] + "\r" else lines[0];
      var rest := Broken(lines[1..], crs[1..]) + tail;
      assert Broken(lines, crs) + tail == line + "\n" + rest;
      FirstComesOut(lines[0], crs[0], rest);
      assert forall i :: 0 <= i < |lines[1..]| ==> lines[1..][i] == lines[i + 1];
      LinesComeOut(lines[1..], crs[1..], tail);
      assert lines == [lines[0]] + lines[1..];
    }
  }

  lemma LastLine(line: string)
    requires forall i :: 0 <= i < |line| ==> ' ' <= line[i]
    ensures Lines(line) == if 0 < |line| < MAX_LINE then [line] else []
  {
  }

  lemma FirstRecord(line: string, more: seq<string>)
    ensures Records([line] + more) == (if Decode(line).ok then [Decode(line).rec] else []) + Records(more)
  {
    assert ([line] + more)[1..] == more;
  }

  lemma WholeWrite(p: Pending, carry: string, m: In, rest: string)
    requires Represents(p, carry)
    ensures Records(Lines(carry + Encode(m) + rest)) ==
      if Size(p) + |Encode(m)| > MAX_LINE then []
      else (if p.Clean? then [m] else []) + Records(Lines(rest))
  {
    hide Encode, Body, Lines, Decode, Doomed;
    EncodeIsOneLine(m);
    var line := carry + Body(m);
    assert carry + Encode(m) + rest == line + "\n" + rest;
    FirstLine(line, rest);
    if Size(p) + |Encode(m)| <= MAX_LINE {
      FirstRecord(line, Lines(rest));
      if p.Clean? {
        assert line == Body(m);
        DecodeEncode(m);
      } else {
        MoreCut(p, carry, m, |Body(m)|);
        assert Body(m)[..|Body(m)|] == Body(m);
        DoomedIsSilent(line);
      }
    }
  }

  /**
    Whatever is cut short and wherever, the agent decodes exactly the records that
    Deliver names: never a record that was not sent, never one built from two frames.
  */
  lemma {:induction false} AgentReceives(ws: seq<Write>, p: Pending, carry: string)
    requires AllPossible(ws) && Represents(p, carry)
    ensures Records(Lines(carry + Stream(ws))) == Deliver(ws, p)
    decreases |ws|
  {
    hide Encode, Lines, Records, Doomed, Body;
    if ws == [] {
      AtTheEnd(p, carry);
      assert carry + Stream(ws) == carry;
    } else {
      var w, rest := ws[0], ws[1..];
      AddFirst(carry, ws);
      if w.sent == 0 {
        AgentReceives(rest, p, carry);
      } else if w.sent < |Encode(w.m)| {
        ShortWrite(p, carry, w);
        AgentReceives(rest, Shortened(p, w), carry + Encode(w.m)[..w.sent]);
      } else {
        WholeWrite(p, carry, w.m, Stream(rest));
        AgentReceives(rest, Clean, "");
      }
    }
  }

  lemma AddFirst(carry: string, ws: seq<Write>)
    requires AllPossible(ws) && ws != []
    ensures var w, more := ws[0], Stream(ws[1..]);
            && carry + Stream(ws) == carry + Encode(w.m)[..w.sent] + more
            && (w.sent == 0 ==> carry + Stream(ws) == carry + more)
            && (w.sent == |Encode(w.m)| ==> carry + Stream(ws) == carry + Encode(w.m) + more)
            && "" + more == more
  {
    var w, more := ws[0], Stream(ws[1..]);
    Regroup(carry, Encode(w.m), w.sent, more);
  }

  lemma Regroup(carry: string, frame: string, n: nat, more: string)
    requires n <= |frame|
    ensures carry + (frame[..n] + more) == carry + frame[..n] + more
    ensures n == 0 ==> carry + (frame[..n] + more) == carry + more
    ensures n == |frame| ==> carry + (frame[..n] + more) == carry + frame + more
    ensures "" + more == more
  {
    if n == 0 { assert frame[..n] + more == more; }
    if n == |frame| { assert frame[..n] == frame; }
  }

  lemma AtTheEnd(p: Pending, carry: string)
    requires Represents(p, carry)
    ensures Records(Lines(carry)) == if p.Unterminated? && Size(p) < MAX_LINE then [p.m] else []
  {
    LastLine(carry);
    FirstRecord(carry, []);
    assert [carry] + [] == [carry];
    if p.Unterminated? { DecodeEncode(p.m); }
    if p.Cut? { DoomedIsSilent(carry); }
  }

  // ---- What Deliver promises ----

  function Sent(ws: seq<Write>): seq<In> {
    seq(|ws|, i requires 0 <= i < |ws| => ws[i].m)
  }

  /** How many writes did not reach the pipe whole. */
  function Shorts(ws: seq<Write>): nat {
    if ws == [] then 0 else (if ws[0].sent < |Encode(ws[0].m)| then 1 else 0) + Shorts(ws[1..])
  }

  /** No line on the pipe outgrows the agent's buffer. */
  predicate Fits(ws: seq<Write>, p: Pending) {
    ws == [] ||
    var w := ws[0];
    if w.sent == 0 then Fits(ws[1..], p)
    else if w.sent < |Encode(w.m)| then
      Fits(ws[1..], Shortened(p, w))
    else Size(p) + |Encode(w.m)| <= MAX_LINE && Fits(ws[1..], Clean)
  }

  predicate Subsequence(a: seq<In>, b: seq<In>)
    decreases |b|
  {
    a == [] || (b != [] && ((a[0] == b[0] && Subsequence(a[1..], b[1..])) || Subsequence(a, b[1..])))
  }

  lemma {:induction false} SkipFront(a: seq<In>, front: seq<In>, b: seq<In>)
    requires Subsequence(a, b)
    ensures Subsequence(a, front + b)
    decreases |front|
  {
    if front == [] {
      assert front + b == b;
    } else {
      SkipFront(a, front[1..], b);
      assert (front + b)[1..] == front[1..] + b;
    }
  }

  lemma SkipSecond(a: seq<In>, first: In, second: In, b: seq<In>)
    requires Subsequence(a, [first] + b)
    ensures Subsequence(a, [first, second] + b)
  {
    if a != [] {
      assert ([first] + b)[1..] == b;
      assert ([first, second] + b)[1..] == [second] + b;
      if Subsequence(a, b) { SkipFront(a, [second], b); } else { SkipFront(a[1..], [second], b); }
    }
  }

  /** The record that is whole on the pipe but still lacks its line break. */
  function Waiting(p: Pending): seq<In> {
    if p.Unterminated? then [p.m] else []
  }

  lemma NothingSent(a: seq<In>, p: Pending, m: In, b: seq<In>)
    requires Subsequence(a, Waiting(p) + b)
    ensures Subsequence(a, Waiting(p) + ([m] + b))
  {
    if p.Unterminated? {
      SkipSecond(a, p.m, m, b);
      assert [p.m, m] + b == [p.m] + ([m] + b);
    } else {
      assert [] + b == b && [] + ([m] + b) == [m] + b;
      SkipFront(a, [m], b);
    }
  }

  lemma PartSent(a: seq<In>, front: seq<In>, next: Pending, m: In, b: seq<In>)
    requires Subsequence(a, Waiting(next) + b)
    requires next.Unterminated? ==> next.m == m
    ensures Subsequence(a, front + ([m] + b))
  {
    if !next.Unterminated? {
      assert [] + b == b;
      SkipFront(a, [m], b);
    }
    SkipFront(a, front, [m] + b);
  }

  lemma AllSent(a: seq<In>, clean: bool, front: seq<In>, m: In, b: seq<In>)
    requires Subsequence(a, b) && (clean ==> front == [])
    ensures Subsequence((if clean then [m] else []) + a, front + ([m] + b))
  {
    if clean {
      assert ([m] + a)[1..] == a && ([m] + b)[1..] == b && front + ([m] + b) == [m] + b;
    } else {
      assert [] + a == a;
      SkipFront(a, [m], b);
      SkipFront(a, front, [m] + b);
    }
  }

  /** Each event is applied at most once, in the order sent, and nothing else is. */
  lemma {:induction false} DeliveredWereSent(ws: seq<Write>, p: Pending)
    ensures Subsequence(Deliver(ws, p), Waiting(p) + Sent(ws))
    decreases |ws|
  {
    hide Encode, Body, Subsequence;
    if ws == [] {
      EndsWithWaiting(p);
      assert Sent(ws) == [];
    } else {
      var w, rest := ws[0], ws[1..];
      assert Sent(ws) == [w.m] + Sent(rest);
      if w.sent == 0 {
        DeliveredWereSent(rest, p);
        NothingSent(Deliver(rest, p), p, w.m, Sent(rest));
      } else if w.sent < |Encode(w.m)| {
        DeliveredWereSent(rest, Shortened(p, w));
        PartSent(Deliver(rest, Shortened(p, w)), Waiting(p), Shortened(p, w), w.m, Sent(rest));
      } else if Size(p) + |Encode(w.m)| > MAX_LINE {
        NothingIsFine(Waiting(p) + Sent(ws));
      } else {
        DeliveredWereSent(rest, Clean);
        assert Waiting(Clean) + Sent(rest) == Sent(rest);
        AllSent(Deliver(rest, Clean), p.Clean?, Waiting(p), w.m, Sent(rest));
      }
    }
  }

  lemma NothingIsFine(b: seq<In>)
    ensures Subsequence([], b)
  {
  }

  lemma EndsWithWaiting(p: Pending)
    ensures Subsequence(Deliver([], p), Waiting(p) + [])
  {
    assert Waiting(p) + [] == Waiting(p);
  }

  /** While lines fit, a short write costs its own frame and at most one more. */
  lemma {:induction false} LossIsBounded(ws: seq<Write>, p: Pending)
    requires AllPossible(ws) && Fits(ws, p)
    ensures |Deliver(ws, p)| + 2 * Shorts(ws) + (if p.Clean? then 0 else 1) >= |ws|
    decreases |ws|
  {
    if ws != [] {
      var w, rest := ws[0], ws[1..];
      if w.sent == 0 {
        EncodeIsOneLine(w.m);
        LossIsBounded(rest, p);
      } else if w.sent < |Encode(w.m)| {
        LossIsBounded(rest, Shortened(p, w));
      } else {
        LossIsBounded(rest, Clean);
      }
    }
  }

  function Frames(ms: seq<In>): string {
    if ms == [] then "" else Encode(ms[0]) + Frames(ms[1..])
  }

  lemma NoRecords()
    ensures Records(Lines("")) == []
  {
  }

  lemma FirstFrame(m: In, more: string)
    ensures Records(Lines(Encode(m) + more)) == if |Encode(m)| > MAX_LINE then [] else [m] + Records(Lines(more))
  {
    hide Encode, Lines, Records;
    WholeWrite(Clean, "", m, more);
    assert "" + Encode(m) + more == Encode(m) + more;
  }

  /** On a pipe that takes every frame whole, exactly the frames before the first
      one that outgrows the buffer are applied. */
  lemma {:induction false} ReliablePipe(ms: seq<In>, n: nat)
    requires n <= |ms|
    requires forall i :: 0 <= i < n ==> |Encode(ms[i])| <= 0x10_0000
    requires n < |ms| ==> |Encode(ms[n])| > 0x10_0000
    ensures Records(Lines(Frames(ms))) == ms[..n]
    decreases |ms|
  {
    hide Encode, Lines, Records;
    if ms == [] {
      LastLine("");
      NoRecords();
    } else {
      FirstFrame(ms[0], Frames(ms[1..]));
      if n > 0 {
        ReliablePipe(ms[1..], n - 1);
        assert ms[..n] == [ms[0]] + ms[1..][..n - 1];
      }
    }
  }
}
