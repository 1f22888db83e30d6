/** The automaton of JsonScanner accepts exactly the texts of the grammar. */
module JsonAcceptance {
  import opened JsonScanner
  import opened JsonGrammar

  // ---- Every text of the grammar is accepted ----

  /** A value has just ended, or will have as soon as something else follows. */
  predicate Finished(m: Mode, stack: seq<Context>) {
    m.Zero? || m.Digits? || m.Fraction? || m.ExponentDigits? || m == After(stack).mode
  }

  lemma RunOne(c: Scanner, b: char, rest: string)
    ensures Run(c, [b] + rest) == Run(Step(c, b), rest)
  {
    assert ([b] + rest)[1..] == rest;
  }

  lemma RunStep(c: Scanner, b: char)
    ensures Run(c, [b]) == Step(c, b)
  {
    RunOne(c, b, "");
    assert [b] + "" == [b];
  }

  lemma {:induction false} BodyRuns(stack: seq<Context>, b: string)
    requires StringBody(b)
    ensures Run(Scanner(InString, stack), b) == Scanner(InString, stack)
    decreases |b|
  {
    var c := Scanner(InString, stack);
    if b != "" {
      if b[0] == '\\' {
        assert b == ['\\'] + ([b[1]] + b[2..]);
        RunOne(c, '\\', [b[1]] + b[2..]);
        RunOne(Scanner(Escape, stack), b[1], b[2..]);
        if b[1] == 'u' {
          HexRuns(stack, b[2..]);
          assert b[2..][4..] == b[6..];
          BodyRuns(stack, b[6..]);
        } else {
          BodyRuns(stack, b[2..]);
        }
      } else {
        BodyRuns(stack, b[1..]);
      }
    }
  }

  lemma HexRuns(stack: seq<Context>, h: string)
    requires |h| >= 4 && HexText(h[0]) && HexText(h[1]) && HexText(h[2]) && HexText(h[3])
    ensures Run(Scanner(Hex(4), stack), h) == Run(Scanner(InString, stack), h[4..])
  {
    hide Run;
    assert h == [h[0]] + ([h[1]] + ([h[2]] + ([h[3]] + h[4..])));
    RunOne(Scanner(Hex(4), stack), h[0], [h[1]] + ([h[2]] + ([h[3]] + h[4..])));
    RunOne(Scanner(Hex(3), stack), h[1], [h[2]] + ([h[3]] + h[4..]));
    RunOne(Scanner(Hex(2), stack), h[2], [h[3]] + h[4..]);
    RunOne(Scanner(Hex(1), stack), h[3], h[4..]);
  }

  lemma StringRuns(mode: Mode, stack: seq<Context>, s: string)
    requires mode == BeginValue || mode == BeginKey
    requires StringText(s)
    ensures Run(Scanner(mode, stack), s) == After(stack)
  {
    hide Run, StringBody;
    var b := s[1..|s| - 1];
    assert s == ['"'] + (b + ['"']);
    RunOne(Scanner(mode, stack), '"', b + ['"']);
    RunAppend(Scanner(InString, stack), b, ['"']);
    BodyRuns(stack, b);
    RunStep(Scanner(InString, stack), '"');
  }

  lemma {:induction false} NumeralsRun(m: Mode, stack: seq<Context>, s: string)
    requires m == Digits || m == Fraction || m == ExponentDigits
    requires forall i :: 0 <= i < |s| ==> '0' <= s[i] <= '9'
    ensures Run(Scanner(m, stack), s) == Scanner(m, stack)
    decreases |s|
  {
    if s != "" { NumeralsRun(m, stack, s[1..]); }
  }

  lemma NatRuns(mode: Mode, stack: seq<Context>, s: string)
    requires (mode == BeginValue || mode == Minus) && NatText(s)
    ensures Run(Scanner(mode, stack), s) == Scanner(if s[0] == '0' then Zero else Digits, stack)
  {
    if s == "0" {
      RunStep(Scanner(mode, stack), '0');
    } else {
      NumeralsRun(Digits, stack, s[1..]);
    }
  }

  lemma IntRuns(stack: seq<Context>, s: string) returns (m: Mode)
    requires IntText(s)
    ensures (m == Zero || m == Digits) && Run(Scanner(BeginValue, stack), s) == Scanner(m, stack)
  {
    hide NatText, Run;
    if s[0] == '-' {
      assert s == ['-'] + s[1..];
      RunOne(Scanner(BeginValue, stack), '-', s[1..]);
      NatRuns(Minus, stack, s[1..]);
      NatIsNotEmpty(s[1..]);
      m := if s[1] == '0' then Zero else Digits;
    } else {
      NatRuns(BeginValue, stack, s);
      m := if s[0] == '0' then Zero else Digits;
    }
  }

  lemma NatIsNotEmpty(s: string)
    requires NatText(s)
    ensures s != ""
  {
  }

  lemma FractionRuns(m: Mode, stack: seq<Context>, s: string) returns (n: Mode)
    requires (m == Zero || m == Digits) && FractionText(s)
    ensures (n == Zero || n == Digits || n == Fraction) && Run(Scanner(m, stack), s) == Scanner(n, stack)
  {
    hide Run;
    n := m;
    if s == "" {
      RunNothing(Scanner(m, stack));
    } else {
      n := Fraction;
      assert s == ['.'] + ([s[1]] + s[2..]);
      assert s[1..][0] == s[1] && forall i :: 0 <= i < |s[2..]| ==> s[2..][i] == s[1..][i + 1];
      RunOne(Scanner(m, stack), '.', [s[1]] + s[2..]);
      RunOne(Scanner(Dot, stack), s[1], s[2..]);
      NumeralsRun(Fraction, stack, s[2..]);
    }
  }

  lemma ExponentRuns(m: Mode, stack: seq<Context>, s: string) returns (n: Mode)
    requires (m == Zero || m == Digits || m == Fraction) && ExponentText(s)
    ensures (n == Zero || n == Digits || n == Fraction || n == ExponentDigits) && Run(Scanner(m, stack), s) == Scanner(n, stack)
  {
    hide Run;
    n := m;
    if s == "" {
      RunNothing(Scanner(m, stack));
    } else {
      n := ExponentDigits;
      assert s == [s[0]] + s[1..];
      RunOne(Scanner(m, stack), s[0], s[1..]);
      if s[1] == '+' || s[1] == '-' {
        assert s[1..] == [s[1]] + s[2..];
        RunOne(Scanner(Exponent, stack), s[1], s[2..]);
        ExponentDigitsRun(ExponentSign, stack, s[2..]);
      } else {
        ExponentDigitsRun(Exponent, stack, s[1..]);
      }
    }
  }

  lemma ExponentDigitsRun(m: Mode, stack: seq<Context>, s: string)
    requires (m == Exponent || m == ExponentSign) && Numerals(s)
    ensures Run(Scanner(m, stack), s) == Scanner(ExponentDigits, stack)
  {
    NumeralsRun(ExponentDigits, stack, s[1..]);
  }

  lemma RunNothing(c: Scanner)
    ensures Run(c, "") == c
  {
  }

  lemma NumberRuns(stack: seq<Context>, s: string) returns (m: Mode)
    requires NumberText(s)
    ensures Finished(m, stack) && Run(Scanner(BeginValue, stack), s) == Scanner(m, stack)
  {
    hide Run, IntText, FractionText, ExponentText;
    var i: nat, j: nat :| NumberAt(s, i, j);
    var a := IntRuns(stack, s[..i]);
    var b := FractionRuns(a, stack, s[i..j]);
    m := ExponentRuns(b, stack, s[j..]);
    RunAppend(Scanner(BeginValue, stack), s[..i], s[i..j]);
    assert s[..i] + s[i..j] == s[..j];
    RunAppend(Scanner(BeginValue, stack), s[..j], s[j..]);
    assert s[..j] + s[j..] == s;
  }

  lemma {:induction false} RestRuns(stack: seq<Context>, rest: string)
    requires rest != ""
    ensures Run(Scanner(Literal(rest), stack), rest) == After(stack)
    decreases |rest|
  {
    if |rest| > 1 {
      RestRuns(stack, rest[1..]);
    } else {
      assert rest == [rest[0]];
      RunStep(Scanner(Literal(rest), stack), rest[0]);
    }
  }

  lemma WordRuns(stack: seq<Context>, s: string)
    requires WordText(s)
    ensures Run(Scanner(BeginValue, stack), s) == After(stack)
  {
    hide Run;
    var rest := if s == "true" then "rue" else if s == "false" then "alse" else "ull";
    assert s == [s[0]] + rest;
    RunOne(Scanner(BeginValue, stack), s[0], rest);
    RestRuns(stack, rest);
  }

  lemma {:induction false} BlanksWait(m: Mode, stack: seq<Context>, w: string)
    requires Blank(w)
    requires m in {BeginValue, BeginValueOrEmpty, BeginKey, BeginKeyOrEmpty} || m == After(stack).mode
    ensures Run(Scanner(m, stack), w) == Scanner(m, stack)
    decreases |w|
  {
    if w != "" { BlanksWait(m, stack, w[1..]); }
  }

  lemma BlanksFinish(m: Mode, stack: seq<Context>, w: string) returns (n: Mode)
    requires Blank(w) && Finished(m, stack)
    ensures Finished(n, stack) && Run(Scanner(m, stack), w) == Scanner(n, stack)
  {
    n := m;
    if w != "" {
      n := After(stack).mode;
      assert Step(Scanner(m, stack), w[0]) == After(stack);
      BlanksWait(n, stack, w[1..]);
    }
  }

  /** The same text leads to the same state where the container may also still be empty. */
  lemma {:induction false} NotEmptyValue(stack: seq<Context>, t: string, i: nat)
    requires i < |t| && Blank(t[..i]) && t[i] != ']' && !Blank([t[i]])
    ensures Run(Scanner(BeginValueOrEmpty, stack), t) == Run(Scanner(BeginValue, stack), t)
    decreases i
  {
    assert Blank([t[i]]) <==> IsSpace(t[i]) by { assert [t[i]][0] == t[i]; }
    if i > 0 {
      assert t[..i][0] == t[0] && t[1..][..i - 1] == t[..i][1..];
      NotEmptyValue(stack, t[1..], i - 1);
    }
  }

  lemma {:induction false} NotEmptyKey(stack: seq<Context>, t: string, i: nat)
    requires i < |t| && Blank(t[..i]) && t[i] == '"'
    ensures Run(Scanner(BeginKeyOrEmpty, stack), t) == Run(Scanner(BeginKey, stack), t)
    decreases i
  {
    if i > 0 {
      assert t[..i][0] == t[0] && t[1..][..i - 1] == t[..i][1..];
      NotEmptyKey(stack, t[1..], i - 1);
    }
  }

  lemma ValueStarts(s: string)
    requires ValueText(s)
    ensures s != "" && s[0] != ']' && !Blank([s[0]])
  {
    hide StringBody, Elements, MembersText, Numerals;
    if NumberText(s) {
      var i: nat, j: nat :| NumberAt(s, i, j);
      IntStarts(s[..i]);
      assert s[..i][0] == s[0];
    }
    if s != "" { assert [s[0]][0] == s[0]; }
  }

  lemma IntStarts(s: string)
    requires IntText(s)
    ensures s != "" && (s[0] == '-' || '0' <= s[0] <= '9')
  {
  }

  lemma {:induction false} ItemStarts(t: string) returns (i: nat)
    requires Item(t)
    ensures i < |t| && Blank(t[..i]) && t[i] != ']' && !Blank([t[i]])
  {
    hide ValueText, Blank;
    var k, j :| 0 <= k <= j <= |t| && Blank(t[..k]) && Blank(t[j..]) && ValueText(t[k..j]);
    i := k;
    ValueStarts(t[k..j]);
    assert t[k..j][0] == t[k];
  }

  lemma {:induction false} ElementsStart(t: string) returns (i: nat)
    requires Elements(t)
    ensures i < |t| && Blank(t[..i]) && t[i] != ']' && !Blank([t[i]])
  {
    hide Item, Blank;
    if Item(t) {
      i := ItemStarts(t);
    } else {
      var k :| 0 <= k < |t| && t[k] == ',' && Item(t[..k]) && Elements(t[k + 1..]);
      i := ItemStarts(t[..k]);
      assert t[..k][..i] == t[..i] && t[..k][i] == t[i];
    }
  }

  lemma PairStarts(t: string) returns (i: nat)
    requires PairText(t)
    ensures i < |t| && Blank(t[..i]) && t[i] == '"'
  {
    hide Blank, StringBody, Item;
    var k :| 0 <= k < |t| && t[k] == ':' && NameText(t[..k]) && Item(t[k + 1..]);
    var a, b :| 0 <= a <= b <= k && Blank(t[..k][..a]) && Blank(t[..k][b..]) && StringText(t[..k][a..b]);
    i := a;
    assert t[..k][..a] == t[..a] && t[..k][a..b][0] == t[a];
  }

  lemma MembersStart(t: string) returns (i: nat)
    requires MembersText(t)
    ensures i < |t| && Blank(t[..i]) && t[i] == '"'
  {
    hide PairText, Blank;
    if PairText(t) {
      i := PairStarts(t);
    } else {
      var k :| 0 <= k < |t| && t[k] == ',' && PairText(t[..k]) && MembersText(t[k + 1..]);
      i := PairStarts(t[..k]);
      assert t[..k][..i] == t[..i] && t[..k][i] == t[i];
    }
  }

  lemma {:induction false} ValueRuns(stack: seq<Context>, s: string) returns (m: Mode)
    requires ValueText(s)
    ensures Finished(m, stack) && Run(Scanner(BeginValue, stack), s) == Scanner(m, stack)
    decreases |s|, 1
  {
    hide Run, StringText, NumberText, WordText, Blank, Elements, MembersText;
    m := After(stack).mode;
    if WordText(s) {
      WordRuns(stack, s);
    } else if StringText(s) {
      StringRuns(BeginValue, stack, s);
    } else if NumberText(s) {
      m := NumberRuns(stack, s);
    } else if s[0] == '[' {
      ArrayRuns(stack, s);
    } else {
      ObjectRuns(stack, s);
    }
  }

  lemma ArrayStep(m: Mode, stack: seq<Context>)
    requires m == BeginValueOrEmpty || Finished(m, stack + [InArray])
    ensures Step(Scanner(BeginValue, stack), '[') == Scanner(BeginValueOrEmpty, stack + [InArray])
    ensures Step(Scanner(m, stack + [InArray]), ']') == After(stack)
  {
    assert Pop(stack + [InArray]) == stack;
  }

  lemma ObjectStep(m: Mode, stack: seq<Context>)
    requires Finished(m, stack + [InValue])
    ensures Step(Scanner(BeginValue, stack), '{') == Scanner(BeginKeyOrEmpty, stack + [InKey])
    ensures Step(Scanner(BeginKeyOrEmpty, stack + [InKey]), '}') == After(stack)
    ensures Step(Scanner(m, stack + [InValue]), '}') == After(stack)
  {
    assert Pop(stack + [InKey]) == stack && Pop(stack + [InValue]) == stack;
  }

  lemma AfterIsFinished(stack: seq<Context>)
    ensures Finished(After(stack).mode, stack)
  {
  }

  lemma {:induction false} ArrayRuns(stack: seq<Context>, s: string)
    requires |s| >= 2 && s[0] == '[' && s[|s| - 1] == ']' && (Blank(s[1..|s| - 1]) || Elements(s[1..|s| - 1]))
    ensures Run(Scanner(BeginValue, stack), s) == After(stack)
    decreases |s|, 0
  {
    hide Run, Step, Finished, Blank, Elements;
    var t, inner := s[1..|s| - 1], stack + [InArray];
    ArrayStep(BeginValueOrEmpty, stack);
    assert s == ['['] + (t + [']']);
    RunOne(Scanner(BeginValue, stack), '[', t + [']']);
    RunAppend(Scanner(BeginValueOrEmpty, inner), t, [']']);
    if Blank(t) {
      BlanksWait(BeginValueOrEmpty, inner, t);
      RunStep(Scanner(BeginValueOrEmpty, inner), ']');
    } else {
      var i := ElementsStart(t);
      NotEmptyValue(inner, t, i);
      var m := ElementsRun(inner, t);
      ArrayStep(m, stack);
      RunStep(Scanner(m, inner), ']');
    }
  }

  lemma {:induction false} ObjectRuns(stack: seq<Context>, s: string)
    requires |s| >= 2 && s[0] == '{' && s[|s| - 1] == '}' && (Blank(s[1..|s| - 1]) || MembersText(s[1..|s| - 1]))
    ensures Run(Scanner(BeginValue, stack), s) == After(stack)
    decreases |s|, 0
  {
    hide Run, Step, Finished, Blank, MembersText;
    var t, inner := s[1..|s| - 1], stack + [InKey];
    AfterIsFinished(stack + [InValue]);
    ObjectStep(After(stack + [InValue]).mode, stack);
    assert s == ['{'] + (t + ['}']);
    RunOne(Scanner(BeginValue, stack), '{', t + ['}']);
    RunAppend(Scanner(BeginKeyOrEmpty, inner), t, ['}']);
    if Blank(t) {
      BlanksWait(BeginKeyOrEmpty, inner, t);
      RunStep(Scanner(BeginKeyOrEmpty, inner), '}');
    } else {
      var i := MembersStart(t);
      NotEmptyKey(inner, t, i);
      var m := MembersRun(stack, t);
      ObjectStep(m, stack);
      RunStep(Scanner(m, stack + [InValue]), '}');
    }
  }

  lemma {:induction false} ItemRuns(stack: seq<Context>, t: string) returns (m: Mode)
    requires Item(t)
    ensures Finished(m, stack) && Run(Scanner(BeginValue, stack), t) == Scanner(m, stack)
    decreases |t|, 2
  {
    hide Run, Blank, ValueText, Finished;
    var i, j :| 0 <= i <= j <= |t| && Blank(t[..i]) && Blank(t[j..]) && ValueText(t[i..j]);
    var c := Scanner(BeginValue, stack);
    BlanksWait(BeginValue, stack, t[..i]);
    var n := ValueRuns(stack, t[i..j]);
    m := BlanksFinish(n, stack, t[j..]);
    RunAppend(c, t[..i], t[i..j]);
    assert t[..i] + t[i..j] == t[..j];
    RunAppend(c, t[..j], t[j..]);
    assert t[..j] + t[j..] == t;
  }

  lemma CommaRuns(n: Mode, stack: seq<Context>)
    requires Finished(n, stack) && stack != [] && Top(stack) == InArray
    ensures Step(Scanner(n, stack), ',') == Scanner(BeginValue, stack)
  {
  }

  lemma {:induction false} ElementsRun(stack: seq<Context>, t: string) returns (m: Mode)
    requires Elements(t) && stack != [] && Top(stack) == InArray
    ensures Finished(m, stack) && Run(Scanner(BeginValue, stack), t) == Scanner(m, stack)
    decreases |t|, 3
  {
    hide Run, Step, Finished, Item;
    if Item(t) {
      m := ItemRuns(stack, t);
    } else {
      var k :| 0 <= k < |t| && t[k] == ',' && Item(t[..k]) && Elements(t[k + 1..]);
      var n := ItemRuns(stack, t[..k]);
      assert t == t[..k] + ([','] + t[k + 1..]);
      RunAppend(Scanner(BeginValue, stack), t[..k], [','] + t[k + 1..]);
      RunOne(Scanner(n, stack), ',', t[k + 1..]);
      CommaRuns(n, stack);
      m := ElementsRun(stack, t[k + 1..]);
    }
  }

  lemma {:induction false} PairRuns(stack: seq<Context>, t: string) returns (m: Mode)
    requires PairText(t)
    ensures Finished(m, stack + [InValue]) && Run(Scanner(BeginKey, stack + [InKey]), t) == Scanner(m, stack + [InValue])
    decreases |t|, 3
  {
    hide Run, Item, NameText;
    var key, value := stack + [InKey], stack + [InValue];
    var k :| 0 <= k < |t| && t[k] == ':' && NameText(t[..k]) && Item(t[k + 1..]);
    NameRuns(key, t[..k]);
    assert Retop(key, InValue) == value;
    assert t == t[..k] + ([':'] + t[k + 1..]);
    RunAppend(Scanner(BeginKey, key), t[..k], [':'] + t[k + 1..]);
    RunOne(Scanner(EndValue, key), ':', t[k + 1..]);
    m := ItemRuns(value, t[k + 1..]);
  }

  lemma NameRuns(stack: seq<Context>, t: string)
    requires NameText(t)
    ensures Run(Scanner(BeginKey, stack), t) == After(stack)
  {
    hide Run, Blank, StringText;
    var i, j :| 0 <= i <= j <= |t| && Blank(t[..i]) && Blank(t[j..]) && StringText(t[i..j]);
    var c := Scanner(BeginKey, stack);
    BlanksWait(BeginKey, stack, t[..i]);
    StringRuns(BeginKey, stack, t[i..j]);
    BlanksWait(After(stack).mode, stack, t[j..]);
    RunAppend(c, t[..i], t[i..j]);
    assert t[..i] + t[i..j] == t[..j];
    RunAppend(c, t[..j], t[j..]);
    assert t[..j] + t[j..] == t;
  }

  lemma NextMember(n: Mode, stack: seq<Context>)
    requires Finished(n, stack + [InValue])
    ensures Step(Scanner(n, stack + [InValue]), ',') == Scanner(BeginKey, stack + [InKey])
  {
    assert Retop(stack + [InValue], InKey) == stack + [InKey];
  }

  lemma {:induction false} MembersRun(stack: seq<Context>, t: string) returns (m: Mode)
    requires MembersText(t)
    ensures Finished(m, stack + [InValue]) && Run(Scanner(BeginKey, stack + [InKey]), t) == Scanner(m, stack + [InValue])
    decreases |t|, 4
  {
    hide Run, Step, Finished, PairText;
    if PairText(t) {
      m := PairRuns(stack, t);
    } else {
      var k :| 0 <= k < |t| && t[k] == ',' && PairText(t[..k]) && MembersText(t[k + 1..]);
      var n := PairRuns(stack, t[..k]);
      NextMember(n, stack);
      assert t == t[..k] + ([','] + t[k + 1..]);
      RunAppend(Scanner(BeginKey, stack + [InKey]), t[..k], [','] + t[k + 1..]);
      RunOne(Scanner(n, stack + [InValue]), ',', t[k + 1..]);
      m := MembersRun(stack, t[k + 1..]);
    }
  }

  lemma JsonIsAccepted(s: string)
    requires IsJson(s)
    ensures Accepts(s)
  {
    hide Run, Item;
    var m := ItemRuns([], s);
  }

  // ---- Whatever is accepted is a text of the grammar ----

  /** s completes a text that has led to c. */
  predicate Completes(c: Scanner, s: string) {
    Step(Run(c, s), ' ').mode == EndTop
  }

  lemma FirstStep(c: Scanner, s: string)
    requires Completes(c, s) && Step(c, ' ').mode != EndTop
    ensures s != "" && Completes(Step(c, s[0]), s[1..]) && !Step(c, s[0]).mode.Bad?
  {
    if s != "" && Step(c, s[0]).mode.Bad? { BadIsFinal(Step(c, s[0]), s[1..]); }
  }

  /** The blanks that s begins with. */
  lemma {:induction false} Blanks(s: string) returns (k: nat)
    ensures k <= |s| && Blank(s[..k]) && (k < |s| ==> !IsSpace(s[k]))
    decreases |s|
  {
    k := 0;
    if s != "" && IsSpace(s[0]) {
      var j := Blanks(s[1..]);
      k := j + 1;
      assert forall i :: 0 < i < k ==> s[..k][i] == s[1..][..j][i - 1];
    }
  }

  lemma SkipBlanks(m: Mode, stack: seq<Context>, s: string) returns (k: nat)
    requires Completes(Scanner(m, stack), s) && Step(Scanner(m, stack), ' ').mode != EndTop
    requires m in {BeginValue, BeginValueOrEmpty, BeginKey, BeginKeyOrEmpty} || m == After(stack).mode
    ensures k < |s| && Blank(s[..k]) && !IsSpace(s[k]) && Completes(Scanner(m, stack), s[k..])
  {
    hide Run, Blank;
    k := Blanks(s);
    BlanksWait(m, stack, s[..k]);
    RunAppend(Scanner(m, stack), s[..k], s[k..]);
    assert s[..k] + s[k..] == s;
    FirstStep(Scanner(m, stack), s[k..]);
  }

  lemma FirstRefused(s: string)
    requires s != "" && !IsSpace(s[0])
    ensures !Completes(Scanner(EndTop, []), s)
  {
    BadIsFinal(Fail([]), s[1..]);
  }

  lemma OnlyBlanksLeft(s: string)
    requires Completes(Scanner(EndTop, []), s)
    ensures Blank(s)
  {
    hide Run, Blank;
    var k := Blanks(s);
    BlanksWait(EndTop, [], s[..k]);
    RunAppend(Scanner(EndTop, []), s[..k], s[k..]);
    assert s[..k] + s[k..] == s;
    if k < |s| {
      FirstRefused(s[k..]);
    } else {
      assert s[..k] == s;
    }
  }

  // ---- Strings ----

  lemma EscapeParses(stack: seq<Context>, s: string) returns (k: nat)
    requires Completes(Scanner(Escape, stack), s)
    ensures 1 <= k <= |s| && Completes(Scanner(InString, stack), s[k..])
    ensures (k == 1 && Simple(s[0])) || (k == 5 && s[0] == 'u' && HexText(s[1]) && HexText(s[2]) && HexText(s[3]) && HexText(s[4]))
  {
    hide Completes;
    FirstStep(Scanner(Escape, stack), s);
    k := 1;
    if s[0] == 'u' {
      FirstStep(Scanner(Hex(4), stack), s[1..]);
      assert s[1..][1..] == s[2..];
      FirstStep(Scanner(Hex(3), stack), s[2..]);
      assert s[2..][1..] == s[3..];
      FirstStep(Scanner(Hex(2), stack), s[3..]);
      assert s[3..][1..] == s[4..];
      FirstStep(Scanner(Hex(1), stack), s[4..]);
      assert s[4..][1..] == s[5..];
      k := 5;
    }
  }

  lemma Cut(s: string, i: nat, k: nat)
    requires i <= k <= |s|
    ensures s[..k][i..] == s[i..][..k - i] == s[i..k]
  {
  }

  lemma {:induction false} BodyParses(stack: seq<Context>, s: string) returns (k: nat)
    requires Completes(Scanner(InString, stack), s)
    ensures k < |s| && StringBody(s[..k]) && s[k] == '"' && Completes(After(stack), s[k + 1..])
    decreases |s|
  {
    hide Completes;
    FirstStep(Scanner(InString, stack), s);
    if s[0] == '"' {
      k := 0;
    } else {
      var j := 1;
      if s[0] == '\\' {
        var e := EscapeParses(stack, s[1..]);
        j := e + 1;
        assert s[1..][e..] == s[j..];
      }
      var n := BodyParses(stack, s[j..]);
      k := j + n;
      Cut(s, j, k);
      assert s[j..][n + 1..] == s[k + 1..];
    }
  }

  lemma StringParses(mode: Mode, stack: seq<Context>, s: string) returns (k: nat)
    requires mode in {BeginValue, BeginKey} && s != "" && s[0] == '"'
    requires Completes(Scanner(mode, stack), s)
    ensures k <= |s| && StringText(s[..k]) && Completes(After(stack), s[k..])
  {
    hide Completes, StringBody;
    FirstStep(Scanner(mode, stack), s);
    var n := BodyParses(stack, s[1..]);
    k := n + 2;
    assert s[..k][1..|s[..k]| - 1] == s[1..][..n];
    assert s[1..][n + 1..] == s[k..];
  }

  // ---- Numbers ----

  /** What the number ended with, once no digit follows. */
  predicate Stuck(m: Mode, s: string) {
    m == Zero || s == "" || !IsDigit(s[0])
  }

  lemma {:induction false} DigitsParse(m: Mode, stack: seq<Context>, s: string) returns (k: nat)
    requires m in {Digits, Fraction, ExponentDigits} && Completes(Scanner(m, stack), s)
    ensures k <= |s| && (forall i :: 0 <= i < k ==> '0' <= s[i] <= '9')
    ensures Completes(Scanner(m, stack), s[k..]) && Stuck(m, s[k..])
    decreases |s|
  {
    k := 0;
    if s != "" && IsDigit(s[0]) {
      var j := DigitsParse(m, stack, s[1..]);
      k := j + 1;
      assert s[1..][j..] == s[k..];
      forall i | 0 < i < k ensures '0' <= s[i] <= '9' { assert s[i] == s[1..][i - 1]; }
    }
  }

  /** A digit and the digits after it. */
  lemma NumeralsParse(m: Mode, stack: seq<Context>, s: string) returns (k: nat)
    requires m in {Digits, Fraction, ExponentDigits}
    requires s != "" && IsDigit(s[0]) && Completes(Scanner(m, stack), s[1..])
    ensures 0 < k <= |s| && Numerals(s[..k]) && s[..k][0] == s[0]
    ensures Completes(Scanner(m, stack), s[k..]) && Stuck(m, s[k..])
  {
    hide Completes;
    var j := DigitsParse(m, stack, s[1..]);
    k := j + 1;
    assert s[1..][j..] == s[k..];
    forall i | 0 < i < k ensures '0' <= s[i] <= '9' { assert s[i] == s[1..][i - 1]; }
  }

  lemma NatParses(mode: Mode, stack: seq<Context>, s: string) returns (m: Mode, k: nat)
    requires mode == Minus || (mode == BeginValue && s != "" && IsDigit(s[0]))
    requires Completes(Scanner(mode, stack), s)
    ensures (m == Zero || m == Digits) && k <= |s| && NatText(s[..k]) && s[..k][0] == s[0] && IsDigit(s[0])
    ensures Completes(Scanner(m, stack), s[k..]) && Stuck(m, s[k..])
  {
    hide Completes;
    FirstStep(Scanner(mode, stack), s);
    if s[0] == '0' {
      m, k := Zero, 1;
    } else {
      m := Digits;
      k := NumeralsParse(m, stack, s);
    }
  }

  lemma IntParses(stack: seq<Context>, s: string) returns (m: Mode, k: nat)
    requires s != "" && (s[0] == '-' || IsDigit(s[0])) && Completes(Scanner(BeginValue, stack), s)
    ensures (m == Zero || m == Digits) && k <= |s| && IntText(s[..k])
    ensures Completes(Scanner(m, stack), s[k..]) && Stuck(m, s[k..])
  {
    hide Completes, NatText;
    if s[0] == '-' {
      FirstStep(Scanner(BeginValue, stack), s);
      var j;
      m, j := NatParses(Minus, stack, s[1..]);
      k := j + 1;
      assert s[..k][1..] == s[1..][..j] && s[1..][j..] == s[k..];
    } else {
      m, k := NatParses(BeginValue, stack, s);
      NatIsNotEmpty(s[..k]);
    }
  }

  lemma FractionParses(m: Mode, stack: seq<Context>, s: string) returns (n: Mode, k: nat)
    requires (m == Zero || m == Digits) && Stuck(m, s) && Completes(Scanner(m, stack), s)
    ensures (n == m || n == Fraction) && k <= |s| && FractionText(s[..k])
    ensures Completes(Scanner(n, stack), s[k..]) && Stuck(n, s[k..])
    ensures n == m ==> s[k..] == "" || s[k] != '.'
  {
    hide Completes;
    n, k := m, 0;
    assert s[0..] == s;
    if s != "" && s[0] == '.' {
      FirstOf(Scanner(m, stack), s);
      FirstStep(Scanner(Dot, stack), s[1..]);
      n := Fraction;
      var j := NumeralsParse(n, stack, s[1..]);
      k := j + 1;
      assert s[..k][1..] == s[1..][..j] && s[1..][j..] == s[k..];
    }
  }

  lemma FirstOf(c: Scanner, s: string)
    requires Completes(c, s) && s != ""
    ensures Completes(Step(c, s[0]), s[1..])
  {
  }

  /** A number has ended: what completes the text from it completes it from the next state. */
  lemma NumberEnds(m: Mode, stack: seq<Context>, s: string)
    requires m in {Zero, Digits, Fraction, ExponentDigits} && Stuck(m, s) && Completes(Scanner(m, stack), s)
    requires s == "" || (!(s[0] == '.' && m in {Zero, Digits}) && !(s[0] in {'e', 'E'} && m != ExponentDigits))
    ensures Completes(After(stack), s)
  {
    if s != "" {
      assert Step(Scanner(m, stack), s[0]) == StepEndValue(stack, s[0]) == Step(After(stack), s[0]);
    }
  }

  /** After an e: a sign or none, and digits. */
  lemma PowerParses(stack: seq<Context>, s: string) returns (k: nat)
    requires Completes(Scanner(Exponent, stack), s)
    ensures 0 < k <= |s| && Numerals(if s[0] == '+' || s[0] == '-' then s[1..k] else s[..k])
    ensures Completes(Scanner(ExponentDigits, stack), s[k..]) && Stuck(ExponentDigits, s[k..])
  {
    hide Completes, Numerals, Stuck;
    FirstStep(Scanner(Exponent, stack), s);
    if s[0] == '+' || s[0] == '-' {
      FirstStep(Scanner(ExponentSign, stack), s[1..]);
      var j := NumeralsParse(ExponentDigits, stack, s[1..]);
      k := 1 + j;
      assert s[1..k] == s[1..][..j] && s[1..][j..] == s[k..];
    } else {
      k := NumeralsParse(ExponentDigits, stack, s);
    }
  }

  lemma ExponentParses(m: Mode, stack: seq<Context>, s: string) returns (k: nat)
    requires m in {Zero, Digits, Fraction} && Stuck(m, s) && Completes(Scanner(m, stack), s)
    requires m != Fraction ==> s == "" || s[0] != '.'
    ensures k <= |s| && ExponentText(s[..k]) && Completes(After(stack), s[k..])
  {
    hide Completes, Numerals;
    k := 0;
    assert s[0..] == s;
    if s != "" && (s[0] == 'e' || s[0] == 'E') {
      FirstOf(Scanner(m, stack), s);
      var j := PowerParses(stack, s[1..]);
      k := 1 + j;
      assert s[1..][j..] == s[k..] && s[..k][1..] == s[1..][..j] && s[..k][2..] == s[1..][1..j];
      NumberEnds(ExponentDigits, stack, s[k..]);
    } else {
      NumberEnds(m, stack, s);
    }
  }

  lemma NumberParses(stack: seq<Context>, s: string) returns (k: nat)
    requires s != "" && (s[0] == '-' || IsDigit(s[0])) && Completes(Scanner(BeginValue, stack), s)
    ensures k <= |s| && NumberText(s[..k]) && Completes(After(stack), s[k..])
  {
    hide Completes, IntText, FractionText, ExponentText, Stuck;
    var m, i := IntParses(stack, s);
    var n, f := FractionParses(m, stack, s[i..]);
    var j := i + f;
    assert s[i..][f..] == s[j..];
    var e := ExponentParses(n, stack, s[j..]);
    k := j + e;
    assert s[j..][e..] == s[k..];
    assert s[..k][..i] == s[..i] && s[..k][i..j] == s[i..][..f] && s[..k][j..] == s[j..][..e];
    assert NumberAt(s[..k], i, j);
  }

  // ---- true, false and null ----

  lemma {:induction false} RestParses(rest: string, stack: seq<Context>, s: string)
    requires rest != "" && ' ' !in rest && Completes(Scanner(Literal(rest), stack), s)
    ensures |s| >= |rest| && s[..|rest|] == rest && Completes(After(stack), s[|rest|..])
    decreases |s|
  {
    hide Completes;
    FirstStep(Scanner(Literal(rest), stack), s);
    if |rest| > 1 {
      RestParses(rest[1..], stack, s[1..]);
      assert s[1..][|rest| - 1..] == s[|rest|..];
      assert s[..|rest|] == [s[0]] + s[1..][..|rest| - 1];
      assert rest == [rest[0]] + rest[1..];
    }
  }

  lemma WordParses(stack: seq<Context>, s: string) returns (k: nat)
    requires s != "" && s[0] in {'t', 'f', 'n'} && Completes(Scanner(BeginValue, stack), s)
    ensures k <= |s| && WordText(s[..k]) && Completes(After(stack), s[k..])
  {
    hide Completes;
    FirstStep(Scanner(BeginValue, stack), s);
    var rest := if s[0] == 't' then "rue" else if s[0] == 'f' then "alse" else "ull";
    RestParses(rest, stack, s[1..]);
    k := |rest| + 1;
    assert s[..k] == [s[0]] + s[1..][..|rest|] && s[1..][|rest|..] == s[k..];
  }

  // ---- Arrays and objects ----

  lemma Inner(stack: seq<Context>, x: Context)
    ensures Pop(stack + [x]) == stack && Top(stack + [x]) == x && After(stack + [x]) == Scanner(EndValue, stack + [x])
    ensures Retop(stack + [InKey], InValue) == stack + [InValue] && Retop(stack + [InValue], InKey) == stack + [InKey]
  {
  }

  lemma {:induction false} ValueParses(stack: seq<Context>, s: string) returns (k: nat)
    requires s != "" && !IsSpace(s[0]) && Completes(Scanner(BeginValue, stack), s)
    ensures k <= |s| && ValueText(s[..k]) && Completes(After(stack), s[k..])
    decreases |s|, 1
  {
    hide Completes, Blank, Elements, MembersText, StringText, NumberText, WordText;
    FirstStep(Scanner(BeginValue, stack), s);
    if s[0] == '"' {
      k := StringParses(BeginValue, stack, s);
    } else if s[0] in {'t', 'f', 'n'} {
      k := WordParses(stack, s);
    } else if s[0] == '-' || IsDigit(s[0]) {
      k := NumberParses(stack, s);
    } else {
      var j;
      if s[0] == '[' { j := ArrayParses(stack, s[1..]); } else { j := ObjectParses(stack, s[1..]); }
      k := j + 2;
      assert s[..k][1..|s[..k]| - 1] == s[1..][..j] && s[1..][j + 1..] == s[k..];
    }
  }

  lemma {:induction false} ItemParses(stack: seq<Context>, s: string) returns (k: nat)
    requires Completes(Scanner(BeginValue, stack), s)
    ensures k <= |s| && Item(s[..k]) && Completes(After(stack), s[k..])
    decreases |s|, 2
  {
    hide Completes, Blank, ValueText;
    var i := SkipBlanks(BeginValue, stack, s);
    var j := ValueParses(stack, s[i..]);
    k := i + j;
    assert s[i..][j..] == s[k..];
    assert s[..k][..i] == s[..i] && s[..k][i..k] == s[i..][..j] && s[..k][k..] == "";
    NoBlanks();
  }

  lemma NoBlanks()
    ensures Blank("")
  {
  }

  lemma ItemGrows(t: string, w: string)
    requires Item(t) && Blank(w)
    ensures Item(t + w)
  {
    hide ValueText;
    var i, j :| 0 <= i <= j <= |t| && Blank(t[..i]) && Blank(t[j..]) && ValueText(t[i..j]);
    assert (t + w)[..i] == t[..i] && (t + w)[i..j] == t[i..j] && (t + w)[j..] == t[j..] + w;
  }

  /** An item and the separator or bracket that follows it. */
  lemma ItemAndMore(stack: seq<Context>, s: string) returns (k: nat)
    requires stack != [] && Completes(Scanner(BeginValue, stack), s)
    ensures k < |s| && Item(s[..k]) && !IsSpace(s[k])
    ensures Completes(Step(After(stack), s[k]), s[k + 1..]) && !Step(After(stack), s[k]).mode.Bad?
    decreases |s|, 3
  {
    hide Completes, Blank, Item;
    var i := ItemParses(stack, s);
    var j := SkipBlanks(EndValue, stack, s[i..]);
    k := i + j;
    ItemGrows(s[..i], s[i..][..j]);
    assert s[..k] == s[..i] + s[i..][..j] && s[i..][j..] == s[k..];
    FirstStep(After(stack), s[k..]);
    assert s[k..][1..] == s[k + 1..];
  }

  lemma {:induction false} ElementsParse(stack: seq<Context>, s: string) returns (k: nat)
    requires Completes(Scanner(BeginValue, stack + [InArray]), s)
    ensures k < |s| && Elements(s[..k]) && s[k] == ']' && Completes(After(stack), s[k + 1..])
    decreases |s|, 4
  {
    hide Completes, Item;
    Inner(stack, InArray);
    k := ItemAndMore(stack + [InArray], s);
    if s[k] == ',' {
      var i := k;
      var j := ElementsParse(stack, s[i + 1..]);
      k := i + 1 + j;
      assert s[..k][..i] == s[..i] && s[..k][i + 1..] == s[i + 1..][..j] && s[i + 1..][j + 1..] == s[k + 1..];
      assert s[..k][i] == ',';
    }
  }

  lemma {:induction false} ArrayParses(stack: seq<Context>, s: string) returns (k: nat)
    requires Completes(Scanner(BeginValueOrEmpty, stack + [InArray]), s)
    ensures k < |s| && (Blank(s[..k]) || Elements(s[..k])) && s[k] == ']' && Completes(After(stack), s[k + 1..])
    decreases |s|, 5
  {
    hide Run, Blank, Elements;
    Inner(stack, InArray);
    var c, d := Scanner(BeginValueOrEmpty, stack + [InArray]), Scanner(BeginValue, stack + [InArray]);
    k := SkipBlanks(BeginValueOrEmpty, stack + [InArray], s);
    FirstStep(c, s[k..]);
    assert s[k..][0] == s[k] && s[k..][1..] == s[k + 1..];
    if s[k] != ']' {
      NotBlank(s[k]);
      NotEmptyValue(stack + [InArray], s, k);
      k := ElementsParse(stack, s);
    }
  }

  lemma NotBlank(b: char)
    requires !IsSpace(b)
    ensures !Blank([b])
  {
    assert [b][0] == b;
  }

  lemma NameParses(stack: seq<Context>, s: string) returns (k: nat)
    requires Completes(Scanner(BeginKey, stack + [InKey]), s)
    ensures k < |s| && NameText(s[..k]) && s[k] == ':' && Completes(Scanner(BeginValue, stack + [InValue]), s[k + 1..])
  {
    hide Completes, Blank, StringText;
    Inner(stack, InKey);
    var key := stack + [InKey];
    var i := SkipBlanks(BeginKey, key, s);
    FirstStep(Scanner(BeginKey, key), s[i..]);
    var n := StringParses(BeginKey, key, s[i..]);
    var j := i + n;
    assert s[i..][n..] == s[j..];
    var w := SkipBlanks(EndValue, key, s[j..]);
    k := j + w;
    assert s[j..][w..] == s[k..];
    FirstStep(After(key), s[k..]);
    assert s[k..][1..] == s[k + 1..];
    assert s[..k][..i] == s[..i] && s[..k][i..j] == s[i..][..n] && s[..k][j..] == s[j..][..w];
  }

  lemma {:induction false} PairParses(stack: seq<Context>, s: string) returns (k: nat)
    requires Completes(Scanner(BeginKey, stack + [InKey]), s)
    ensures k < |s| && PairText(s[..k]) && !IsSpace(s[k])
    ensures var c := Step(Scanner(EndValue, stack + [InValue]), s[k]); Completes(c, s[k + 1..]) && !c.mode.Bad?
    decreases |s|, 4
  {
    hide Completes, Item, NameText;
    Inner(stack, InValue);
    var i := NameParses(stack, s);
    var j := ItemAndMore(stack + [InValue], s[i + 1..]);
    k := i + 1 + j;
    assert s[..k][..i] == s[..i] && s[..k][i] == ':' && s[..k][i + 1..] == s[i + 1..][..j];
    assert s[i + 1..][j + 1..] == s[k + 1..];
  }

  lemma {:induction false} MembersParse(stack: seq<Context>, s: string) returns (k: nat)
    requires Completes(Scanner(BeginKey, stack + [InKey]), s)
    ensures k < |s| && MembersText(s[..k]) && s[k] == '}' && Completes(After(stack), s[k + 1..])
    decreases |s|, 5
  {
    hide Completes, PairText;
    Inner(stack, InValue);
    k := PairParses(stack, s);
    if s[k] == ',' {
      var i := k;
      var j := MembersParse(stack, s[i + 1..]);
      k := i + 1 + j;
      assert s[..k][..i] == s[..i] && s[..k][i + 1..] == s[i + 1..][..j] && s[i + 1..][j + 1..] == s[k + 1..];
      assert s[..k][i] == ',';
    }
  }

  lemma {:induction false} ObjectParses(stack: seq<Context>, s: string) returns (k: nat)
    requires Completes(Scanner(BeginKeyOrEmpty, stack + [InKey]), s)
    ensures k < |s| && (Blank(s[..k]) || MembersText(s[..k])) && s[k] == '}' && Completes(After(stack), s[k + 1..])
    decreases |s|, 6
  {
    hide Run, Blank, MembersText;
    Inner(stack, InKey);
    k := SkipBlanks(BeginKeyOrEmpty, stack + [InKey], s);
    FirstStep(Scanner(BeginKeyOrEmpty, stack + [InKey]), s[k..]);
    assert s[k..][0] == s[k] && s[k..][1..] == s[k + 1..];
    if s[k] != '}' {
      NotEmptyKey(stack + [InKey], s, k);
      k := MembersParse(stack, s);
    }
  }

  lemma AcceptedIsJson(s: string)
    requires Accepts(s)
    ensures IsJson(s)
  {
    hide Item, Blank;
    var k := ItemParses([], s);
    OnlyBlanksLeft(s[k..]);
    ItemGrows(s[..k], s[k..]);
    assert s[..k] + s[k..] == s;
  }

  /** The automaton accepts exactly the JSON texts. */
  lemma ScannerIsExact(s: string)
    ensures Accepts(s) <==> IsJson(s)
  {
    hide Accepts, IsJson;
    if IsJson(s) { JsonIsAccepted(s); }
    if Accepts(s) { AcceptedIsJson(s); }
  }
}
