/**
  The JSON grammar of RFC 8259 as the pushdown automaton that Go's encoding/json
  runs over a text before it decodes anything. A text that this automaton does not
  accept changes no record and injects no event.
  */
module JsonScanner {
  /** What the innermost open object or array is waiting for. */
  datatype Context = InKey | InValue | InArray

  datatype Mode =
    | BeginValue | BeginValueOrEmpty | BeginKey | BeginKeyOrEmpty
    | EndValue | EndTop
    | InString | Escape | Hex(left: nat)
    | Minus | Zero | Digits | Dot | Fraction | Exponent | ExponentSign | ExponentDigits
    | Literal(rest: string)
    | Bad

  /** The open contexts are listed outermost first. */
  datatype Scanner = Scanner(mode: Mode, stack: seq<Context>)

  const START := Scanner(BeginValue, [])

  predicate IsSpace(b: char) {
    b == ' ' || b == '\t' || b == '\r' || b == '\n'
  }

  predicate IsDigit(b: char) {
    '0' <= b <= '9'
  }

  predicate IsHex(b: char) {
    '0' <= b <= '9' || 'a' <= b <= 'f' || 'A' <= b <= 'F'
  }

  /** The one-letter escapes of section 7 of RFC 8259. */
  predicate Simple(b: char) {
    b == 'b' || b == 'f' || b == 'n' || b == 'r' || b == 't' || b == '\\' || b == '/' || b == '"'
  }

  function Top(stack: seq<Context>): Context
    requires stack != []
  {
    stack[|stack| - 1]
  }

  function Pop(stack: seq<Context>): seq<Context>
    requires stack != []
  {
    stack[..|stack| - 1]
  }

  function Retop(stack: seq<Context>, top: Context): seq<Context>
    requires stack != []
  {
    Pop(stack) + [top]
  }

  /** The state in which a value that leaves stack open has just been completed. */
  function After(stack: seq<Context>): Scanner {
    Scanner(if stack == [] then EndTop else EndValue, stack)
  }

  function Fail(stack: seq<Context>): Scanner {
    Scanner(Bad, stack)
  }

  function StepBeginValue(stack: seq<Context>, b: char): Scanner {
    if b == '{' then Scanner(BeginKeyOrEmpty, stack + [InKey])
    else if b == '[' then Scanner(BeginValueOrEmpty, stack + [InArray])
    else if b == '"' then Scanner(InString, stack)
    else if b == '-' then Scanner(Minus, stack)
    else if b == '0' then Scanner(Zero, stack)
    else if IsDigit(b) then Scanner(Digits, stack)
    else if b == 't' then Scanner(Literal("rue"), stack)
    else if b == 'f' then Scanner(Literal("alse"), stack)
    else if b == 'n' then Scanner(Literal("ull"), stack)
    else Fail(stack)
  }

  function StepEndValue(stack: seq<Context>, b: char): Scanner {
    if IsSpace(b) then After(stack)
    else if stack == [] then Fail(stack)
    else match Top(stack)
      case InKey => if b == ':' then Scanner(BeginValue, Retop(stack, InValue)) else Fail(stack)
      case InValue =>
        if b == ',' then Scanner(BeginKey, Retop(stack, InKey))
        else if b == '}' then After(Pop(stack))
        else Fail(stack)
      case InArray =>
        if b == ',' then Scanner(BeginValue, stack)
        else if b == ']' then After(Pop(stack))
        else Fail(stack)
  }

  function StepNumber(m: Mode, stack: seq<Context>, b: char): Scanner
    requires m.Zero? || m.Digits? || m.Fraction? || m.ExponentDigits?
  {
    if IsDigit(b) && !m.Zero? then Scanner(m, stack)
    else if b == '.' && (m.Zero? || m.Digits?) then Scanner(Dot, stack)
    else if (b == 'e' || b == 'E') && !m.ExponentDigits? then Scanner(Exponent, stack)
    else StepEndValue(stack, b)
  }

  function Step(c: Scanner, b: char): Scanner {
    var stack := c.stack;
    match c.mode
    case BeginValue => if IsSpace(b) then c else StepBeginValue(stack, b)
    case BeginValueOrEmpty =>
      if IsSpace(b) then c
      else if b == ']' && stack != [] then After(Pop(stack))
      else StepBeginValue(stack, b)
    case BeginKey => if IsSpace(b) then c else if b == '"' then Scanner(InString, stack) else Fail(stack)
    case BeginKeyOrEmpty =>
      if IsSpace(b) then c
      else if b == '"' then Scanner(InString, stack)
      else if b == '}' && stack != [] then After(Pop(stack))
      else Fail(stack)
    case EndValue => StepEndValue(stack, b)
    case EndTop => if IsSpace(b) then c else Fail(stack)
    case InString =>
      if b == '"' then After(stack)
      else if b == '\\' then Scanner(Escape, stack)
      else if b < ' ' then Fail(stack)
      else c
    case Escape =>
      if b == 'u' then Scanner(Hex(4), stack)
      else if Simple(b) then Scanner(InString, stack)
      else Fail(stack)
    case Hex(left) =>
      if !IsHex(b) then Fail(stack)
      else Scanner(if left <= 1 then InString else Hex(left - 1), stack)
    case Minus => if b == '0' then Scanner(Zero, stack) else if IsDigit(b) then Scanner(Digits, stack) else Fail(stack)
    case Zero => StepNumber(c.mode, stack, b)
    case Digits => StepNumber(c.mode, stack, b)
    case Dot => if IsDigit(b) then Scanner(Fraction, stack) else Fail(stack)
    case Fraction => StepNumber(c.mode, stack, b)
    case Exponent =>
      if b == '+' || b == '-' then Scanner(ExponentSign, stack)
      else if IsDigit(b) then Scanner(ExponentDigits, stack)
      else Fail(stack)
    case ExponentSign => if IsDigit(b) then Scanner(ExponentDigits, stack) else Fail(stack)
    case ExponentDigits => StepNumber(c.mode, stack, b)
    case Literal(rest) =>
      if rest == [] || b != rest[0] then Fail(stack)
      else if |rest| == 1 then After(stack)
      else Scanner(Literal(rest[1..]), stack)
    case Bad => c
  }

  function Run(c: Scanner, s: string): Scanner
    decreases |s|
  {
    if s == [] then c else Run(Step(c, s[0]), s[1..])
  }

  /** At the end of a text one space is fed, so that a trailing number is completed. */
  predicate Accepts(s: string) {
    Step(Run(START, s), ' ').mode == EndTop
  }

  // ---- Composition ----

  lemma {:induction false} RunAppend(c: Scanner, a: string, b: string)
    ensures Run(c, a + b) == Run(Run(c, a), b)
    decreases |a|
  {
    if a == [] {
      assert a + b == b;
    } else {
      assert (a + b)[0] == a[0] && (a + b)[1..] == a[1..] + b;
      RunAppend(Step(c, a[0]), a[1..], b);
    }
  }

  lemma {:induction false} BadIsFinal(c: Scanner, s: string)
    requires c.mode.Bad?
    ensures Run(c, s) == c
    decreases |s|
  {
    if s != [] { BadIsFinal(Step(c, s[0]), s[1..]); }
  }

  // ---- The same text read inside more open contexts ----

  /** c as it looks when the contexts in outer are open around it. */
  function Lift(outer: seq<Context>, c: Scanner): Scanner {
    Scanner(if c.mode.EndTop? && outer != [] then EndValue else c.mode, outer + c.stack)
  }

  lemma AfterLift(outer: seq<Context>, stack: seq<Context>)
    ensures After(outer + stack) == Lift(outer, After(stack))
  {
    if outer == [] { assert outer + stack == stack; }
  }

  lemma PopLift(outer: seq<Context>, stack: seq<Context>)
    requires stack != []
    ensures Top(outer + stack) == Top(stack)
    ensures Pop(outer + stack) == outer + Pop(stack)
    ensures After(Pop(outer + stack)) == Lift(outer, After(Pop(stack)))
  {
    assert Pop(outer + stack) == outer + Pop(stack);
    AfterLift(outer, Pop(stack));
  }

  lemma RetopLift(outer: seq<Context>, stack: seq<Context>, top: Context)
    requires stack != []
    ensures Retop(outer + stack, top) == outer + Retop(stack, top)
  {
    PopLift(outer, stack);
    assert outer + Pop(stack) + [top] == outer + (Pop(stack) + [top]);
  }

  lemma StepEndValueLift(outer: seq<Context>, stack: seq<Context>, b: char)
    requires stack != []
    ensures StepEndValue(outer + stack, b) == Lift(outer, StepEndValue(stack, b))
  {
    PopLift(outer, stack);
    AfterLift(outer, stack);
    RetopLift(outer, stack, InKey);
    RetopLift(outer, stack, InValue);
  }

  lemma StepBeginValueLift(outer: seq<Context>, stack: seq<Context>, b: char)
    ensures StepBeginValue(outer + stack, b) == Lift(outer, StepBeginValue(stack, b))
  {
    assert outer + stack + [InKey] == outer + (stack + [InKey]);
    assert outer + stack + [InArray] == outer + (stack + [InArray]);
  }

  lemma StepLift(outer: seq<Context>, c: Scanner, b: char)
    requires c.stack != [] && !c.mode.EndTop?
    ensures Step(Lift(outer, c), b) == Lift(outer, Step(c, b))
  {
    PopLift(outer, c.stack);
    AfterLift(outer, c.stack);
    StepEndValueLift(outer, c.stack, b);
    StepBeginValueLift(outer, c.stack, b);
    assert Lift(outer, c) == Scanner(c.mode, outer + c.stack);
    match c.mode
    case BeginValue =>
    case BeginValueOrEmpty =>
    case BeginKey =>
    case BeginKeyOrEmpty =>
    case EndValue =>
    case InString =>
    case Escape =>
    case Hex(_) =>
    case Literal(_) =>
    case Bad =>
    case _ =>
  }

  /** A run that never closes its outermost container reads the same inside any other. */
  lemma {:induction false} RunLift(outer: seq<Context>, c: Scanner, s: string)
    requires c.stack != [] && !c.mode.EndTop?
    requires forall k :: 0 <= k < |s| ==> Run(c, s[..k]).stack != [] && !Run(c, s[..k]).mode.EndTop?
    ensures Run(Lift(outer, c), s) == Lift(outer, Run(c, s))
    decreases |s|
  {
    if s != [] {
      var d := Step(c, s[0]);
      StepLift(outer, c, s[0]);
      forall k | 0 <= k < |s| - 1 ensures Run(c, s[..k + 1]) == Run(d, s[1..][..k]) {
        assert s[..k + 1][1..] == s[1..][..k];
      }
      if |s| == 1 {
      } else {
        assert s[..1][1..] == [];
        assert Run(c, s[..1]) == d;
        RunLift(outer, d, s[1..]);
      }
    }
  }
}
