/** Standard JSON is read as what it says, however it is spelled. */
module JsonReading {
  import opened Prelude
  import opened JsonScanner
  import opened JsonGrammar
  import opened JsonAcceptance
  import opened JsonRecord
  import opened JsonText

  // ---- The text of a literal ----

  lemma UnitIsRead(e: string, n: int, rest: string)
    requires Unit(e, n)
    ensures 0 <= n < 0x10000 && FourHex(e + rest) == Some(n)
    ensures e + rest != "" && (e + rest)[0] == '\\' && (e + rest)[6..] == rest
  {
    hide Digit16, HexValue, IsHex;
    var s := e + rest;
    var a, b, c, d :| Digit16(e[2], a) && Digit16(e[3], b) && Digit16(e[4], c) && Digit16(e[5], d)
                      && n == 4096 * a + 256 * b + 16 * c + d;
    DigitIsRead(e[2], a);
    DigitIsRead(e[3], b);
    DigitIsRead(e[4], c);
    DigitIsRead(e[5], d);
    assert s[2] == e[2] && s[3] == e[3] && s[4] == e[4] && s[5] == e[5];
  }

  lemma DigitIsRead(b: char, v: int)
    requires Digit16(b, v)
    ensures IsHex(b) && HexValue(b) == v < 16 && 0 <= v
  {
  }

  lemma Utf8IsRead(e: string, c: char, rest: string)
    requires IsUtf8(e, c)
    ensures e + rest != "" && FirstChar(e + rest) == (c, |e|) && (e + rest)[|e|..] == rest
  {
    var s := e + rest;
    assert s[0] == e[0];
    if |e| > 1 { assert s[1] == e[1]; }
    if |e| > 2 { assert s[2] == e[2]; }
    if |e| > 3 { assert s[3] == e[3]; }
  }

  lemma PairIsRead(e: string, hi: int, lo: int, c: char, rest: string)
    requires |e| == 12 && Pair(e, hi, lo) && c as int == 0x10000 + (hi - 0xD800) * 0x400 + (lo - 0xDC00)
    ensures Unescape(e + rest) == [c] + Unescape(rest)
  {
    hide FourHex, Unit;
    UnitIsRead(e[..6], hi, e[6..] + rest);
    UnitIsRead(e[6..], lo, rest);
    assert e + rest == e[..6] + (e[6..] + rest);
    assert (e + rest)[12..] == rest;
  }

  lemma CharIsRead(e: string, c: char, rest: string)
    requires SpellsChar(e, c)
    ensures Unescape(e + rest) == [c] + Unescape(rest)
  {
    hide FourHex, Unit, FirstChar;
    var s := e + rest;
    if IsUtf8(e, c) && ' ' <= c && c != '"' && c != '\\' {
      Utf8IsRead(e, c, rest);
      assert s[0] == e[0];
    } else if |e| == 2 && e[0] == '\\' && Escapes(e[1], c) {
      assert s[0] == '\\' && s[1] == e[1] && s[2..] == rest;
      NotUnicode(s);
    } else if Unit(e, c as int) {
      UnitIsRead(e, c as int, rest);
    } else {
      var hi, lo :| Pair(e, hi, lo) && c as int == 0x10000 + (hi - 0xD800) * 0x400 + (lo - 0xDC00);
      PairIsRead(e, hi, lo, c, rest);
    }
  }

  /** Half of a surrogate pair is read as the replacement character. */
  lemma HalfPairIsReplaced(e: string, n: int, rest: string)
    requires Unit(e, n) && 0xD800 <= n <= 0xDFFF
    requires n <= 0xDBFF && |rest| >= 6 ==> forall lo :: 0xDC00 <= lo <= 0xDFFF ==> !Unit(rest[..6], lo)
    ensures Unescape(e + rest) == ['\U{FFFD}'] + Unescape(rest)
  {
    hide FourHex, Unit;
    UnitIsRead(e, n, rest);
    if FourHex(rest).Some? { ReadIsUnit(rest, FourHex(rest).value); }
  }

  lemma ReadIsUnit(s: string, n: nat)
    requires FourHex(s) == Some(n)
    ensures |s| >= 6 && Unit(s[..6], n)
  {
    var e := s[..6];
    assert Digit16(e[2], HexValue(s[2])) && Digit16(e[3], HexValue(s[3])) && Digit16(e[4], HexValue(s[4])) && Digit16(e[5], HexValue(s[5]));
  }

  /** A byte that begins no character is read as the replacement character. */
  lemma MalformedByteIsReplaced(s: string)
    requires s != "" && s[0] != '\\' && forall k, c :: 0 <= k <= |s| ==> !IsUtf8(s[..k], c)
    ensures Unescape(s) == ['\U{FFFD}'] + Unescape(s[1..])
  {
    hide IsUtf8;
    WellFormedIsUtf8(s);
  }

  lemma WellFormedIsUtf8(s: string)
    requires s != ""
    ensures var (c, width) := FirstChar(s); IsUtf8(s[..width], c) || (c == '\U{FFFD}' && width == 1)
  {
  }

  lemma NotUnicode(s: string)
    requires |s| >= 2 && s[1] != 'u'
    ensures FourHex(s) == None
  {
  }

  lemma NothingIsRead()
    ensures Unescape("") == ""
  {
  }

  lemma {:induction false} AllIsRead(body: string, s: string)
    requires SpellsAll(body, s)
    ensures Unescape(body) == s
    decreases |s|
  {
    hide SpellsChar, Unescape;
    NothingIsRead();
    if s != "" {
      var k :| 0 < k <= |body| && SpellsChar(body[..k], s[0]) && SpellsAll(body[k..], s[1..]);
      assert body == body[..k] + body[k..];
      CharIsRead(body[..k], s[0], body[k..]);
      AllIsRead(body[k..], s[1..]);
    }
  }

  /** A string literal is read as the string it spells. */
  lemma TextIsRead(raw: string, s: string)
    requires SpellsText(raw, s)
    ensures Unquote(raw) == s && ReadString(raw) == Put(s)
  {
    AllIsRead(raw[1..|raw| - 1], s);
  }

  // ---- The values of In are values of the grammar ----

  lemma PlainIsBody(e: string, rest: string)
    requires e != "" && e[0] >= ' ' && e[0] != '"' && e[0] != '\\' && StringBody(e[1..] + rest)
    ensures StringBody(e + rest)
  {
    assert (e + rest)[1..] == e[1..] + rest;
  }

  lemma {:induction false} Utf8IsBody(e: string, rest: string)
    requires forall i :: 0 <= i < |e| ==> e[i] >= ' ' && e[i] != '"' && e[i] != '\\'
    requires StringBody(rest)
    ensures StringBody(e + rest)
    decreases |e|
  {
    hide StringBody;
    if e == "" {
      assert e + rest == rest;
    } else {
      Utf8IsBody(e[1..], rest);
      PlainIsBody(e, rest);
    }
  }

  lemma UnitIsBody(e: string, n: int, rest: string)
    requires Unit(e, n) && StringBody(rest)
    ensures StringBody(e + rest)
  {
    var s := e + rest;
    assert s[0] == e[0] && s[1] == e[1] && s[2] == e[2] && s[3] == e[3] && s[4] == e[4] && s[5] == e[5] && s[6..] == rest;
  }

  lemma EscapeIsBody(e: string, c: char, rest: string)
    requires |e| == 2 && e[0] == '\\' && Escapes(e[1], c) && StringBody(rest)
    ensures StringBody(e + rest)
  {
    assert (e + rest)[2..] == rest && (e + rest)[0] == e[0] && (e + rest)[1] == e[1];
  }

  lemma PairIsBody(e: string, hi: int, lo: int, rest: string)
    requires |e| == 12 && Pair(e, hi, lo) && StringBody(rest)
    ensures StringBody(e + rest)
  {
    hide Unit, StringBody;
    UnitIsBody(e[6..], lo, rest);
    UnitIsBody(e[..6], hi, e[6..] + rest);
    assert e + rest == e[..6] + (e[6..] + rest);
  }

  lemma CharIsBody(e: string, c: char, rest: string)
    requires SpellsChar(e, c) && StringBody(rest)
    ensures StringBody(e + rest)
  {
    hide Unit, Pair, StringBody;
    if IsUtf8(e, c) && ' ' <= c && c != '"' && c != '\\' {
      Utf8IsBody(e, rest);
    } else if |e| == 2 && e[0] == '\\' && Escapes(e[1], c) {
      EscapeIsBody(e, c, rest);
    } else if Unit(e, c as int) {
      UnitIsBody(e, c as int, rest);
    } else {
      var hi, lo :| Pair(e, hi, lo) && c as int == 0x10000 + (hi - 0xD800) * 0x400 + (lo - 0xDC00);
      PairIsBody(e, hi, lo, rest);
    }
  }

  lemma {:induction false} AllIsBody(body: string, s: string)
    requires SpellsAll(body, s)
    ensures StringBody(body)
    decreases |s|
  {
    hide SpellsChar;
    if s != "" {
      var k :| 0 < k <= |body| && SpellsChar(body[..k], s[0]) && SpellsAll(body[k..], s[1..]);
      AllIsBody(body[k..], s[1..]);
      CharIsBody(body[..k], s[0], body[k..]);
      assert body == body[..k] + body[k..];
    }
  }

  lemma TextIsString(raw: string, s: string)
    requires SpellsText(raw, s)
    ensures StringText(raw)
  {
    AllIsBody(raw[1..|raw| - 1], s);
  }

  lemma {:induction false} NumeralIsRead(ds: string, n: int)
    requires Numeral(ds, n)
    ensures n >= 0 && AllDigits(ds) && Natural(ds) == n
    decreases |ds|
  {
    var front := ds[..|ds| - 1];
    if |ds| == 1 {
      assert front == "";
    } else {
      NumeralIsRead(front, n / 10);
      assert ds == front + [ds[|ds| - 1]];
    }
  }

  lemma {:induction false} DigitsAreNumeral(ds: string)
    requires AllDigits(ds) && ds != ""
    ensures Numeral(ds, Natural(ds))
    decreases |ds|
  {
    if |ds| > 1 { DigitsAreNumeral(ds[..|ds| - 1]); }
  }

  lemma IntIsRead(raw: string, i: int64)
    requires SpellsInt(raw, i)
    ensures ReadInt(raw) == Put(i)
  {
    var minus := raw[0] == '-';
    var ds := if minus then raw[1..] else raw;
    var n: int := i;
    NumeralIsRead(ds, if minus then -n else n);
    assert raw != "null";
  }

  lemma IntIsNumber(raw: string, i: int)
    requires SpellsInt(raw, i)
    ensures NumberText(raw)
  {
    var ds := if raw[0] == '-' then raw[1..] else raw;
    NumeralIsRead(ds, if raw[0] == '-' then -i else i);
    assert NatText(ds) by {
      assert forall k :: 0 <= k < |ds| ==> IsDigit(ds[k]);
      if ds[0] == '0' { assert ds == "0"; }
    }
    assert raw[..|raw|] == raw && raw[|raw|..|raw|] == "" && raw[|raw|..] == "";
    assert NumberAt(raw, |raw|, |raw|);
  }

  /** A number that the reader takes is spelled without fraction, exponent or leading zeros. */
  lemma ReadIsSpelled(raw: string)
    requires ValueText(raw) && ParseInt(raw).Some?
    ensures SpellsInt(raw, ParseInt(raw).value)
  {
    hide StringBody, Elements, MembersText;
    var minus := raw[0] == '-';
    var ds := if minus then raw[1..] else raw;
    DigitsAreNumeral(ds);
    assert forall k :: 0 <= k < |raw| ==> IsDigit(raw[k]) || (k == 0 && minus) by {
      assert forall k :: 0 < k < |raw| && minus ==> raw[k] == ds[k - 1];
    }
    WholeNumber(raw);
  }

  lemma FirstIsThere(s: string, i: nat, j: nat)
    requires i <= j <= |s|
    ensures i < j ==> s[i..j][0] == s[i]
  {
  }

  lemma WholeNumber(raw: string)
    requires NumberText(raw) && forall k :: 0 < k < |raw| ==> IsDigit(raw[k])
    ensures IntText(raw)
  {
    var i: nat, j: nat :| NumberAt(raw, i, j);
    FirstIsThere(raw, i, j);
    FirstIsThere(raw, j, |raw|);
    assert raw[j..|raw|] == raw[j..];
    assert raw[..i] == raw;
  }

  lemma ValueEnds(raw: string)
    requires ValueText(raw)
    ensures raw != "" && !IsSpace(raw[0]) && !IsSpace(raw[|raw| - 1])
  {
    hide StringBody, Elements, MembersText, NumberText;
    if NumberText(raw) { NumberIsPlain(raw); }
  }

  predicate EndsInDigit(s: string) {
    s != "" && '0' <= s[|s| - 1] <= '9'
  }

  lemma IntIsPlain(s: string)
    requires IntText(s)
    ensures EndsInDigit(s) && (s[0] == '-' || '0' <= s[0] <= '9')
  {
    if s[0] == '-' { assert s[1..][|s| - 2] == s[|s| - 1]; }
  }

  lemma FractionIsPlain(s: string)
    requires FractionText(s) && s != ""
    ensures EndsInDigit(s)
  {
    assert s[1..][|s| - 2] == s[|s| - 1];
  }

  lemma ExponentIsPlain(s: string)
    requires ExponentText(s) && s != ""
    ensures EndsInDigit(s)
  {
    if s[1] == '+' || s[1] == '-' {
      assert s[2..][|s| - 3] == s[|s| - 1];
    } else {
      assert s[1..][|s| - 2] == s[|s| - 1];
    }
  }

  lemma NumberIsPlain(raw: string)
    requires NumberText(raw)
    ensures EndsInDigit(raw) && (raw[0] == '-' || '0' <= raw[0] <= '9')
  {
    hide IntText, FractionText, ExponentText;
    var i: nat, j: nat :| NumberAt(raw, i, j);
    var a, b, c := raw[..i], raw[i..j], raw[j..];
    IntIsPlain(a);
    assert a[0] == raw[0];
    if c != "" {
      ExponentIsPlain(c);
      assert c[|c| - 1] == raw[|raw| - 1];
    } else if b != "" {
      FractionIsPlain(b);
      assert b[|b| - 1] == raw[|raw| - 1];
    } else {
      assert a == raw;
    }
  }

  // ---- Blanks around a token ----

  lemma Slices(s: string, i: nat, j: nat)
    requires i <= j <= |s|
    ensures i > 0 ==> s[1..][..i - 1] == s[..i][1..]
    ensures i > 0 ==> s[1..][j - 1..] == s[j..]
    ensures i > 0 ==> s[1..][i - 1..j - 1] == s[i..j]
    ensures j < |s| ==> s[..|s| - 1][..i] == s[..i]
    ensures j < |s| ==> s[..|s| - 1][j..] == s[j..][..|s| - 1 - j]
    ensures j < |s| ==> s[..|s| - 1][i..j] == s[i..j]
  {
  }

  lemma {:induction false} TrimsTo(tok: string, i: nat, j: nat)
    requires i < j <= |tok| && Blank(tok[..i]) && Blank(tok[j..])
    requires !IsSpace(tok[i]) && !IsSpace(tok[j - 1])
    ensures Trim(tok) == tok[i..j]
    decreases |tok|
  {
    if i > 0 {
      assert tok[..i][0] == tok[0];
      Slices(tok, i, j);
      TrimsTo(tok[1..], i - 1, j - 1);
    } else if j < |tok| {
      var n := |tok| - 1;
      assert tok[j..][n - j] == tok[n];
      Slices(tok, i, j);
      TrimsTo(tok[..n], i, j);
    } else {
      assert tok[i..j] == tok;
    }
  }

  lemma PaddedIsTrimmed(tok: string, raw: string)
    requires Padded(tok, raw) && raw != "" && !IsSpace(raw[0]) && !IsSpace(raw[|raw| - 1])
    ensures Trim(tok) == raw
  {
    hide Blank, IsSpace, Trim;
    var i: nat, j: nat :| PaddedAt(tok, raw, i, j);
    assert tok[i] == raw[0] && tok[j - 1] == raw[|raw| - 1];
    TrimsTo(tok, i, j);
  }

  // ---- The reader over one object ----

  lemma {:induction false} ReadAllAppend(r: Reader, a: string, b: string)
    ensures ReadAll(r, a + b) == ReadAll(ReadAll(r, a), b)
    decreases |a|
  {
    if a == "" {
      assert a + b == b;
    } else {
      assert (a + b)[0] == a[0] && (a + b)[1..] == a[1..] + b;
      ReadAllAppend(Read(r, a[0]), a[1..], b);
    }
  }

  lemma {:induction false} ReadAllScans(r: Reader, s: string)
    ensures ReadAll(r, s).scan == Run(r.scan, s)
    decreases |s|
  {
    if s != "" { ReadAllScans(Read(r, s[0]), s[1..]); }
  }

  lemma InsideStep(x: Context, c: Scanner, b: char)
    requires !Step(c, b).mode.Bad? && !c.mode.Bad?
    ensures Step(Lift([x], c), b) == Lift([x], Step(c, b))
  {
    if c.stack == [] {
      assert [x] + [] + [InKey] == [x] + ([] + [InKey]) && [x] + [] + [InArray] == [x] + ([] + [InArray]);
      OuterStep(x, c, b);
    } else if c.mode.EndTop? {
      AfterLift([x], c.stack);
    } else {
      StepLift([x], c, b);
    }
  }

  lemma OuterStep(x: Context, c: Scanner, b: char)
    requires !Step(c, b).mode.Bad? && !c.mode.Bad? && c.stack == []
    ensures Step(Lift([x], c), b) == Lift([x], Step(c, b))
  {
    assert [x] + [] == [x];
    match c.mode
    case BeginValue => StepBeginValueLift([x], [], b);
    case BeginValueOrEmpty => StepBeginValueLift([x], [], b);
    case _ =>
  }

  /** A text that is read inside x without leaving it becomes part of the token. */
  lemma {:induction false} ReadInside(x: Context, r: Reader, c: Scanner, s: string)
    requires r.scan == Lift([x], c) && !Run(c, s).mode.Bad?
    ensures ReadAll(r, s) == Reader(Lift([x], Run(c, s)), r.key, r.token + s, r.done)
    decreases |s|
  {
    hide Step;
    if c.mode.Bad? { BadIsFinal(c, s); }
    if s == "" {
      assert r.token + s == r.token;
    } else {
      var d := Step(c, s[0]);
      if d.mode.Bad? { BadIsFinal(d, s[1..]); }
      InsideStep(x, c, s[0]);
      NotOutside(x, c.stack);
      NotOutside(x, d.stack);
      ReadInside(x, Read(r, s[0]), d, s[1..]);
      assert r.token + [s[0]] + s[1..] == r.token + s;
    }
  }

  lemma NotOutside(x: Context, stack: seq<Context>)
    ensures [x] + stack != [] && ([x] + stack)[0] == x
  {
  }

  lemma NameStarts(t: string) returns (i: nat)
    requires NameText(t)
    ensures i < |t| && Blank(t[..i]) && t[i] == '"'
  {
    hide Blank, StringBody;
    var a, b :| 0 <= a <= b <= |t| && Blank(t[..a]) && Blank(t[b..]) && StringText(t[a..b]);
    i := a;
    assert t[a..b][0] == t[a];
  }

  lemma ReadName(mode: Mode, key: string, done: seq<Member>, tok: string)
    requires (mode == BeginKey || mode == BeginKeyOrEmpty) && NameText(tok)
    ensures ReadAll(Reader(Scanner(mode, [InKey]), key, "", done), tok) == Reader(Scanner(EndValue, [InKey]), key, tok, done)
  {
    hide Run, ReadAll, Step;
    NameRuns([], tok);
    var i := NameStarts(tok);
    NotEmptyKey([], tok, i);
    assert [InKey] + [] == [InKey] && "" + tok == tok;
    ReadInside(InKey, Reader(Scanner(mode, [InKey]), key, "", done), Scanner(mode, []), tok);
  }

  lemma ReadValue(key: string, done: seq<Member>, tok: string) returns (mode: Mode)
    requires Item(tok)
    ensures Finished(mode, [InValue])
    ensures ReadAll(Reader(Scanner(BeginValue, [InValue]), key, "", done), tok) == Reader(Scanner(mode, [InValue]), key, tok, done)
  {
    hide Run, ReadAll, Step;
    var m := ItemRuns([], tok);
    assert [InValue] + [] == [InValue] && "" + tok == tok;
    ReadInside(InValue, Reader(Scanner(BeginValue, [InValue]), key, "", done), Scanner(BeginValue, []), tok);
    mode := if m == EndTop then EndValue else m;
  }

  lemma ReadOne(r: Reader, b: char, rest: string)
    ensures ReadAll(r, [b] + rest) == ReadAll(Read(r, b), rest)
  {
    assert ([b] + rest)[1..] == rest;
  }

  lemma ReadColon(key: string, q: string, done: seq<Member>, rest: string)
    ensures ReadAll(Reader(Scanner(EndValue, [InKey]), key, q, done), [':'] + rest)
         == ReadAll(Reader(Scanner(BeginValue, [InValue]), q, "", done), rest)
  {
    ReadOne(Reader(Scanner(EndValue, [InKey]), key, q, done), ':', rest);
    assert Retop([InKey], InValue) == [InValue];
  }

  lemma AfterMember(mode: Mode)
    requires Finished(mode, [InValue])
    ensures Step(Scanner(mode, [InValue]), ',') == Scanner(BeginKey, [InKey])
    ensures Step(Scanner(mode, [InValue]), '}') == Scanner(EndTop, [])
  {
    assert Retop([InValue], InKey) == [InKey];
    assert Pop([InValue]) == [];
  }

  lemma ReadComma(mode: Mode, key: string, raw: string, done: seq<Member>, rest: string)
    requires Finished(mode, [InValue])
    ensures ReadAll(Reader(Scanner(mode, [InValue]), key, raw, done), [','] + rest)
         == ReadAll(Reader(Scanner(BeginKey, [InKey]), "", "", done + [Member(key, raw)]), rest)
  {
    hide Step, ReadAll;
    AfterMember(mode);
    ReadOne(Reader(Scanner(mode, [InValue]), key, raw, done), ',', rest);
  }

  lemma ReadClose(mode: Mode, key: string, raw: string, done: seq<Member>)
    requires Finished(mode, [InValue])
    ensures ReadAll(Reader(Scanner(mode, [InValue]), key, raw, done), "}")
         == Reader(Scanner(EndTop, []), "", "", done + [Member(key, raw)])
  {
    hide Step;
    AfterMember(mode);
    assert "}" == ['}'] + "";
    ReadOne(Reader(Scanner(mode, [InValue]), key, raw, done), '}', "");
  }

  lemma ReadMember(mode: Mode, key: string, done: seq<Member>, tok: Member, rest: string) returns (next: Mode)
    requires mode == BeginKey || mode == BeginKeyOrEmpty
    requires NameText(tok.name) && Item(tok.raw)
    ensures Finished(next, [InValue])
    ensures ReadAll(Reader(Scanner(mode, [InKey]), key, "", done), tok.name + ":" + tok.raw + rest)
         == ReadAll(Reader(Scanner(next, [InValue]), tok.name, tok.raw, done), rest)
  {
    hide NameText, Item, ReadAll, Finished;
    var r := Reader(Scanner(mode, [InKey]), key, "", done);
    var tail := tok.raw + rest;
    assert tok.name + ":" + tok.raw + rest == tok.name + ([':'] + tail);
    ReadAllAppend(r, tok.name, [':'] + tail);
    ReadName(mode, key, done, tok.name);
    ReadColon(key, tok.name, done, tail);
    ReadAllAppend(Reader(Scanner(BeginValue, [InValue]), tok.name, "", done), tok.raw, rest);
    next := ReadValue(tok.name, done, tok.raw);
  }

  /** The tokens of members: names and values of the grammar. */
  ghost predicate Tokens(toks: seq<Member>) {
    forall i :: 0 <= i < |toks| ==> NameText(toks[i].name) && Item(toks[i].raw)
  }

  lemma {:induction false} ReadJoin(mode: Mode, key: string, done: seq<Member>, toks: seq<Member>)
    requires mode == BeginKey || mode == BeginKeyOrEmpty
    requires toks != [] && Tokens(toks)
    ensures ReadAll(Reader(Scanner(mode, [InKey]), key, "", done), Join(toks)) == Reader(Scanner(EndTop, []), "", "", done + toks)
    decreases |toks|
  {
    hide NameText, Item, ReadAll;
    var tok := toks[0];
    var rest := if |toks| == 1 then "}" else [','] + Join(toks[1..]);
    var next := ReadMember(mode, key, done, tok, rest);
    assert Join(toks) == tok.name + ":" + tok.raw + rest;
    assert Member(tok.name, tok.raw) == tok;
    if |toks| == 1 {
      ReadClose(next, tok.name, tok.raw, done);
      assert toks == [tok];
    } else {
      ReadComma(next, tok.name, tok.raw, done, Join(toks[1..]));
      ReadJoin(BeginKey, "", done + [tok], toks[1..]);
      assert done + [tok] + toks[1..] == done + toks;
    }
  }

  lemma {:induction false} ReadOutside(r: Reader, w: string)
    requires Blank(w) && (r.scan == START || r.scan == Scanner(EndTop, []))
    ensures ReadAll(r, w).scan == r.scan && ReadAll(r, w).done == r.done && (r.token == "" ==> ReadAll(r, w) == r)
    decreases |w|
  {
    if w != "" {
      assert Blank([w[0]]);
      ReadOutside(Read(r, w[0]), w[1..]);
    }
  }

  lemma ReadNothing(inside: string)
    requires Blank(inside)
    ensures var r := ReadAll(Reader(Scanner(BeginKeyOrEmpty, [InKey]), "", "", []), inside + "}");
            r.scan == Scanner(EndTop, []) && r.done == []
  {
    hide Blank;
    var r := Reader(Scanner(BeginKeyOrEmpty, [InKey]), "", "", []);
    BlanksWait(BeginKeyOrEmpty, [], inside);
    assert [InKey] + [] == [InKey];
    ReadInside(InKey, r, Scanner(BeginKeyOrEmpty, []), inside);
    ReadAllAppend(r, inside, "}");
    ReadOne(ReadAll(r, inside), '}', "");
    assert ['}'] + "" == "}";
  }

  /** What follows the brace that opens an object. */
  function Inside(toks: seq<Member>, inside: string): string {
    if toks == [] then inside + "}" else Join(toks)
  }

  /** The members that are read off an object are its members. */
  lemma ReadObject(before: string, toks: seq<Member>, inside: string, after: string)
    requires Blank(before) && Blank(inside) && Blank(after) && Tokens(toks)
    ensures var r := ReadAll(Reader(START, "", "", []), before + "{" + Inside(toks, inside) + after);
            r.scan == Scanner(EndTop, []) && r.done == toks
  {
    hide ReadAll, Join, Tokens, Run, Blank;
    var r := Reader(START, "", "", []);
    var j := Inside(toks, inside);
    assert before + "{" + j + after == before + (['{'] + (j + after));
    ReadAllAppend(r, before, ['{'] + (j + after));
    ReadOutside(r, before);
    ReadOne(r, '{', j + after);
    assert [] + [InKey] == [InKey];
    var open := Reader(Scanner(BeginKeyOrEmpty, [InKey]), "", "", []);
    assert Read(r, '{') == open;
    ReadAllAppend(open, j, after);
    if toks == [] {
      ReadNothing(inside);
    } else {
      ReadJoin(BeginKeyOrEmpty, "", [], toks);
      assert [] + toks == toks;
    }
    ReadOutside(ReadAll(open, j), after);
  }

  lemma {:induction false} JoinEnds(toks: seq<Member>)
    requires toks != []
    ensures Join(toks) != "" && Join(toks)[|Join(toks)| - 1] == '}'
    decreases |toks|
  {
    if |toks| > 1 { JoinEnds(toks[1..]); }
  }

  lemma ObjectIsTrimmed(before: string, toks: seq<Member>, inside: string, after: string)
    requires Blank(before) && Blank(after)
    ensures var t := Trim(before + "{" + Inside(toks, inside) + after); t != "" && t[0] == '{'
  {
    hide Join, Trim, Blank;
    var j := Inside(toks, inside);
    var line := before + "{" + j + after;
    var i, k := |before|, |before| + 1 + |j|;
    if toks != [] { JoinEnds(toks); }
    assert line[..i] == before && line[k..] == after && line[i] == '{' && line[k - 1] == j[|j| - 1];
    TrimsTo(line, i, k);
  }

  /** An object is accepted, and its members are stored one after the other. */
  lemma ObjectIsStored(line: string, toks: seq<Member>)
    requires IsObject(line, toks) && Tokens(toks)
    ensures Accepts(line) && Decode(line) == StoreAll(Decoded(ZERO_IN, true), toks)
    ensures ReadAll(Reader(START, "", "", []), line).done == toks
  {
    hide Tokens, StoreAll, ReadAll, Run, Blank, Trim, Join;
    var before, inside, after :| IsObjectIn(line, toks, before, inside, after);
    assert line == before + "{" + Inside(toks, inside) + after;
    ReadObject(before, toks, inside, after);
    ReadAllScans(Reader(START, "", "", []), line);
    ObjectIsTrimmed(before, toks, inside, after);
  }

  // ---- The record ----

  /** raw says what m has in this field. */
  ghost predicate SaysField(m: In, f: Field, raw: string) {
    if f.Down? then SaysBool(raw, m.down)
    else if IsNumber(f) then SaysInt(raw, NumberOf(m, f))
    else SaysText(raw, TextOf(m, f))
  }

  lemma Named(m: In, key: string, raw: string) returns (f: Field)
    requires SaysMember(m, key, raw)
    ensures NameOf(f) == key && SaysField(m, f, raw)
  {
    hide SaysText, SaysInt, SaysBool;
    if key == "t" { f := T; } else if key == "devid" { f := Devid; } else if key == "name" { f := Name; }
    else if key == "platform" { f := Platform; } else if key == "ver" { f := Ver; } else if key == "proof" { f := Proof; }
    else if key == "dx" { f := Dx; } else if key == "dy" { f := Dy; } else if key == "x" { f := X; } else if key == "y" { f := Y; }
    else if key == "b" { f := B; } else if key == "down" { f := Down; } else if key == "s" { f := S; }
    else if key == "code" { f := Code; } else if key == "mods" { f := Mods; } else { f := Ts; }
  }

  lemma NameIsExact(f: Field)
    ensures FieldOf(NameOf(f)) == Some(f)
  {
    hide NameOf, Exact;
    ExactName(f);
  }

  lemma OneName(f: Field, g: Field)
    requires NameOf(f) == NameOf(g)
    ensures f == g
  {
    hide NameOf, FieldOf;
    NameIsExact(f);
    NameIsExact(g);
  }

  /** Names are recognized up to case. */
  lemma NameIsFolded(key: string, f: Field)
    ensures FieldOf(key) == Some(f) <==> SameName(key, NameOf(f))
  {
    hide NameOf, Exact, Fold, SameLetter;
    var folded := seq(|key|, i requires 0 <= i < |key| => Fold(key[i]));
    NamesAreLower(f);
    forall i | 0 <= i < |key| && |key| == |NameOf(f)|
      ensures folded[i] == NameOf(f)[i] <==> SameLetter(key[i], NameOf(f)[i])
    {
      FoldLetter(key[i], NameOf(f)[i]);
    }
    assert SameName(key, NameOf(f)) <==> folded == NameOf(f);
    ExactName(f);
    if Exact(folded) == Some(f) { ExactOnly(folded, f); }
    if Exact(key).Some? {
      var g := Exact(key).value;
      ExactOnly(key, g);
      NamesAreLower(g);
      forall i | 0 <= i < |key| ensures folded[i] == key[i] { FoldLetter(key[i], key[i]); }
      assert folded == key;
    }
  }

  lemma ExactName(f: Field)
    ensures Exact(NameOf(f)) == Some(f)
  {
  }

  lemma ExactOnly(key: string, f: Field)
    requires Exact(key) == Some(f)
    ensures key == NameOf(f)
  {
  }

  lemma NamesAreLower(f: Field)
    ensures forall i :: 0 <= i < |NameOf(f)| ==> 'a' <= NameOf(f)[i] <= 'z'
  {
  }

  lemma FoldLetter(b: char, c: char)
    requires 'a' <= c <= 'z'
    ensures (Fold(b) == c <==> SameLetter(b, c)) && Fold(c) == c
  {
  }

  lemma NameIsKnown(f: Field)
    ensures Known(NameOf(f)) && (IsText(NameOf(f)) <==> !IsNumber(f) && !f.Down?) && (IsInteger(NameOf(f)) <==> IsNumber(f))
    ensures NameOf(f) == "down" <==> f.Down?
  {
  }

  lemma KnownIsName(name: string) returns (f: Field)
    requires Known(name)
    ensures NameOf(f) == name
  {
    f := Exact(name).value;
    ExactOnly(name, f);
  }

  function KeptText(fs: set<Field>, f: Field, s: string): string {
    if f in fs then s else ""
  }

  function KeptInt(fs: set<Field>, f: Field, i: int64): int64 {
    if f in fs then i else 0
  }

  function KeptDown(fs: set<Field>, v: Option<bool>): Option<bool> {
    if Down in fs then v else None
  }

  /** m with only these fields kept. */
  function Filled(m: In, fs: set<Field>): In {
    In(KeptText(fs, T, m.t), KeptText(fs, Devid, m.devid), KeptText(fs, Name, m.name), KeptText(fs, Platform, m.platform),
       KeptText(fs, Ver, m.ver), KeptText(fs, Proof, m.proof), KeptInt(fs, Dx, m.dx), KeptInt(fs, Dy, m.dy),
       KeptInt(fs, X, m.x), KeptInt(fs, Y, m.y), KeptText(fs, B, m.b), KeptDown(fs, m.down), KeptText(fs, S, m.s),
       KeptInt(fs, Code, m.code), KeptInt(fs, Mods, m.mods), KeptInt(fs, Ts, m.ts))
  }

  lemma OneMoreKept(fs: set<Field>, f: Field)
    ensures forall g, s :: KeptText(fs + {f}, g, s) == if g == f then s else KeptText(fs, g, s)
    ensures forall g, i: int64 :: KeptInt(fs + {f}, g, i) == if g == f then i else KeptInt(fs, g, i)
    ensures forall v :: KeptDown(fs + {f}, v) == if f == Down then v else KeptDown(fs, v)
  {
  }

  lemma TextIsPut(m: In, fs: set<Field>, f: Field)
    requires !IsNumber(f) && !f.Down?
    ensures StoreText(Decoded(Filled(m, fs), true), f, Put(TextOf(m, f))) == Decoded(Filled(m, fs + {f}), true)
  {
    hide KeptText, KeptInt, KeptDown;
    OneMoreKept(fs, f);
  }

  lemma IntIsPut(m: In, fs: set<Field>, f: Field)
    requires IsNumber(f)
    ensures StoreInt(Decoded(Filled(m, fs), true), f, Put(NumberOf(m, f))) == Decoded(Filled(m, fs + {f}), true)
  {
    hide KeptText, KeptInt, KeptDown;
    OneMoreKept(fs, f);
  }

  /** null leaves alone what is still empty. */
  lemma TextIsSame(m: In, fs: set<Field>, f: Field)
    requires !IsNumber(f) && !f.Down? && TextOf(m, f) == ""
    ensures StoreText(Decoded(Filled(m, fs), true), f, Same) == StoreText(Decoded(Filled(m, fs), true), f, Put(""))
  {
  }

  lemma IntIsSame(m: In, fs: set<Field>, f: Field)
    requires IsNumber(f) && NumberOf(m, f) == 0
    ensures StoreInt(Decoded(Filled(m, fs), true), f, Same) == StoreInt(Decoded(Filled(m, fs), true), f, Put(0))
  {
  }

  lemma StoreSaidText(m: In, fs: set<Field>, f: Field, c: Cell<string>)
    requires !IsNumber(f) && !f.Down? && (c == Put(TextOf(m, f)) || (c == Same && TextOf(m, f) == ""))
    ensures StoreText(Decoded(Filled(m, fs), true), f, c) == Decoded(Filled(m, fs + {f}), true)
  {
    hide StoreText, Filled, TextOf;
    TextIsPut(m, fs, f);
    if c == Same { TextIsSame(m, fs, f); }
  }

  lemma StoreSaidInt(m: In, fs: set<Field>, f: Field, c: Cell<int64>)
    requires IsNumber(f) && (c == Put(NumberOf(m, f)) || (c == Same && NumberOf(m, f) == 0))
    ensures StoreInt(Decoded(Filled(m, fs), true), f, c) == Decoded(Filled(m, fs + {f}), true)
  {
    hide StoreInt, Filled, NumberOf;
    IntIsPut(m, fs, f);
    if c == Same { IntIsSame(m, fs, f); }
  }

  lemma StoreSaidBool(m: In, fs: set<Field>, raw: string)
    requires SaysBool(raw, m.down)
    ensures StoreBool(Decoded(Filled(m, fs), true), raw) == Decoded(Filled(m, fs + {Down}), true)
  {
  }

  lemma StoreSaid(m: In, fs: set<Field>, f: Field, raw: string)
    requires SaysField(m, f, raw)
    ensures Store(Decoded(Filled(m, fs), true), f, raw) == Decoded(Filled(m, fs + {f}), true)
  {
    hide Filled, StoreText, StoreInt, StoreBool, SpellsText, SpellsInt, TextOf, NumberOf;
    if f.Down? {
      StoreSaidBool(m, fs, raw);
    } else if IsNumber(f) {
      if SpellsInt(raw, NumberOf(m, f)) { IntIsRead(raw, NumberOf(m, f)); }
      StoreSaidInt(m, fs, f, ReadInt(raw));
    } else {
      if SpellsText(raw, TextOf(m, f)) { TextIsRead(raw, TextOf(m, f)); }
      StoreSaidText(m, fs, f, ReadString(raw));
    }
  }

  // ---- The last of several members with one name ----

  /** The record has in this field what m has. */
  predicate Agrees(r: In, m: In, f: Field) {
    if f.Down? then r.down == m.down
    else if IsNumber(f) then NumberOf(r, f) == NumberOf(m, f)
    else TextOf(r, f) == TextOf(m, f)
  }

  lemma PutText(d: Decoded, f: Field, v: string, g: Field)
    requires !IsNumber(f) && !f.Down?
    ensures var r := StoreText(d, f, Put(v)).rec; TextOf(r, f) == v && (g != f ==> Agrees(r, d.rec, g))
  {
  }

  lemma PutInt(d: Decoded, f: Field, v: int64, g: Field)
    requires IsNumber(f)
    ensures var r := StoreInt(d, f, Put(v)).rec; NumberOf(r, f) == v && (g != f ==> Agrees(r, d.rec, g))
  {
  }

  lemma PutDown(d: Decoded, raw: string, g: Field)
    requires g != Down
    ensures Agrees(StoreBool(d, raw).rec, d.rec, g)
  {
  }

  lemma PutNothing(d: Decoded, f: Field)
    ensures !IsNumber(f) && !f.Down? ==> StoreText(d, f, Same) == d
    ensures IsNumber(f) ==> StoreInt(d, f, Same) == d
  {
  }

  lemma TextCounts(d: Decoded, m: In, f: Field, raw: string, g: Field)
    requires !IsNumber(f) && !f.Down? && SaysText(raw, TextOf(m, f))
    ensures raw == "null" ==> Store(d, f, raw) == d
    ensures raw != "null" ==> Agrees(Store(d, f, raw).rec, m, f)
    ensures g != f ==> Agrees(Store(d, f, raw).rec, d.rec, g)
    ensures Store(d, f, raw).ok == d.ok
  {
    hide StoreText, SpellsText, TextOf, NumberOf, Unquote;
    var t := TextOf(m, f);
    if SpellsText(raw, t) { TextIsRead(raw, t); }
    PutNothing(d, f);
    PutText(d, f, t, g);
    StoreTextFits(d, f, ReadString(raw));
  }

  lemma IntCounts(d: Decoded, m: In, f: Field, raw: string, g: Field)
    requires IsNumber(f) && SaysInt(raw, NumberOf(m, f))
    ensures raw == "null" ==> Store(d, f, raw) == d
    ensures raw != "null" ==> Agrees(Store(d, f, raw).rec, m, f)
    ensures g != f ==> Agrees(Store(d, f, raw).rec, d.rec, g)
    ensures Store(d, f, raw).ok == d.ok
  {
    hide StoreInt, SpellsInt, TextOf, NumberOf, ParseInt;
    var i := NumberOf(m, f);
    if SpellsInt(raw, i) { IntIsRead(raw, i); }
    PutNothing(d, f);
    PutInt(d, f, i, g);
    StoreIntFits(d, f, ReadInt(raw));
  }

  /** Whatever a field held before, a member with its name decides it, unless the value is
      null: that clears down and leaves every other field alone. No other field changes. */
  lemma MemberCounts(d: Decoded, m: In, f: Field, raw: string, g: Field)
    requires SaysField(m, f, raw)
    ensures raw == "null" && !f.Down? ==> Store(d, f, raw) == d
    ensures raw != "null" || f.Down? ==> Agrees(Store(d, f, raw).rec, m, f)
    ensures g != f ==> Agrees(Store(d, f, raw).rec, d.rec, g)
    ensures Store(d, f, raw).ok == d.ok
  {
    hide SaysText, SaysInt, TextOf, NumberOf;
    if IsNumber(f) {
      IntCounts(d, m, f, raw, g);
    } else if !f.Down? {
      TextCounts(d, m, f, raw, g);
    } else if g != f {
      PutDown(d, raw, g);
    }
  }

  lemma SaidIsValue(m: In, f: Field, raw: string)
    requires SaysField(m, f, raw)
    ensures ValueText(raw)
  {
    hide SpellsText, SpellsInt, StringText, NumberText, Elements, MembersText, TextOf, NumberOf;
    if IsNumber(f) && raw != "null" {
      IntIsNumber(raw, NumberOf(m, f));
    } else if !f.Down? && raw != "null" {
      TextIsString(raw, TextOf(m, f));
    }
  }

  lemma PaddedValue(tok: string, raw: string)
    requires Padded(tok, raw) && ValueText(raw)
    ensures Item(tok) && Trim(tok) == raw
  {
    hide ValueText, Blank, Trim;
    ValueEnds(raw);
    PaddedIsTrimmed(tok, raw);
    var i: nat, j: nat :| PaddedAt(tok, raw, i, j);
  }

  lemma ItemIsPadded(tok: string) returns (raw: string)
    requires Item(tok)
    ensures Padded(tok, raw) && ValueText(raw) && Trim(tok) == raw
  {
    hide ValueText, Blank, Trim;
    var i, j :| 0 <= i <= j <= |tok| && Blank(tok[..i]) && Blank(tok[j..]) && ValueText(tok[i..j]);
    raw := tok[i..j];
    assert PaddedAt(tok, raw, i, j);
    PaddedValue(tok, raw);
  }

  lemma NameIsRead(tok: string, key: string)
    requires IsName(tok, key)
    ensures NameText(tok) && Unquote(Trim(tok)) == key
  {
    hide Blank, Trim, SpellsText, StringText, Unquote;
    var raw :| Padded(tok, raw) && SpellsText(raw, key);
    TextIsString(raw, key);
    TextIsRead(raw, key);
    StringEnds(raw);
    PaddedIsTrimmed(tok, raw);
    var i: nat, j: nat :| PaddedAt(tok, raw, i, j);
  }

  lemma StringEnds(raw: string)
    requires StringText(raw)
    ensures raw != "" && !IsSpace(raw[0]) && !IsSpace(raw[|raw| - 1])
  {
  }

  function FieldsNamed(keys: seq<string>): set<Field> {
    set f: Field | NameOf(f) in keys
  }

  /** One member: two tokens of the grammar, and one more field of the record. */
  lemma TokenIsRead(m: In, fs: set<Field>, tok: Member, name: string)
    requires SaysToken(m, tok, name)
    ensures NameText(tok.name) && Item(tok.raw)
    ensures StoreOne(Decoded(Filled(m, fs), true), Unquote(Trim(tok.name)), Trim(tok.raw))
         == Decoded(Filled(m, fs + FieldsNamed([name])), true)
  {
    hide Padded, IsName, SaysMember, SaysField, NameText, Item, Store, Filled, Trim, Unquote, FieldOf, NameOf, SameName;
    var key :| IsName(tok.name, key) && SameName(key, name);
    var raw :| Padded(tok.raw, raw) && SaysMember(m, name, raw);
    var f := Named(m, name, raw);
    NameIsRead(tok.name, key);
    NameIsFolded(key, f);
    SaidIsValue(m, f, raw);
    PaddedValue(tok.raw, raw);
    StoreSaid(m, fs, f, raw);
    OnlyNamed(f);
  }

  lemma OnlyNamed(f: Field)
    ensures FieldsNamed([NameOf(f)]) == {f}
  {
    hide NameOf, FieldOf;
    forall g: Field | NameOf(g) == NameOf(f) ensures g == f { OneName(g, f); }
  }

  /** A member that In does not have is skipped. */
  lemma ForeignIsSkipped(d: Decoded, tok: Member)
    requires Foreign(tok)
    ensures NameText(tok.name) && Item(tok.raw) && StoreOne(d, Unquote(Trim(tok.name)), Trim(tok.raw)) == d
  {
    hide IsName, NameText, Item, Store, Trim, Unquote, FieldOf, NameOf, SameName, Known;
    var key :| IsName(tok.name, key) && forall name :: Known(name) ==> !SameName(key, name);
    NameIsRead(tok.name, key);
    if FieldOf(key).Some? {
      var f := FieldOf(key).value;
      NameIsFolded(key, f);
      NameIsKnown(f);
    }
  }

  lemma NotNamed()
    ensures FieldsNamed([""]) == {} == FieldsNamed([])
  {
    forall f: Field ensures NameOf(f) != "" {}
  }

  lemma {:induction false} TokensAreRead(m: In, fs: set<Field>, toks: seq<Member>, keys: seq<string>)
    requires |toks| == |keys|
    requires forall i :: 0 <= i < |toks| ==> SaysToken(m, toks[i], keys[i]) || (Foreign(toks[i]) && keys[i] == "")
    ensures Tokens(toks) && StoreAll(Decoded(Filled(m, fs), true), toks) == Decoded(Filled(m, fs + FieldsNamed(keys)), true)
    decreases |toks|
  {
    hide SaysToken, Foreign, NameText, Item, StoreOne, Filled, NameOf, FieldsNamed;
    NotNamed();
    if toks == [] {
      assert keys == [] && fs + {} == fs;
    } else {
      var name := keys[0];
      if SaysToken(m, toks[0], name) {
        TokenIsRead(m, fs, toks[0], name);
      } else {
        ForeignIsSkipped(Decoded(Filled(m, fs), true), toks[0]);
        assert fs + {} == fs;
      }
      assert forall i :: 0 < i < |toks| ==> toks[i] == toks[1..][i - 1] && keys[i] == keys[1..][i - 1];
      TokensAreRead(m, fs + FieldsNamed([name]), toks[1..], keys[1..]);
      NamedParts(keys);
      assert fs + FieldsNamed([name]) + FieldsNamed(keys[1..]) == fs + FieldsNamed(keys);
      assert toks == [toks[0]] + toks[1..];
    }
  }

  lemma NamedParts(keys: seq<string>)
    requires keys != []
    ensures FieldsNamed(keys) == FieldsNamed([keys[0]]) + FieldsNamed(keys[1..])
  {
    hide NameOf;
    assert keys == [keys[0]] + keys[1..];
  }

  lemma IsNamed(keys: seq<string>)
    ensures var fs := FieldsNamed(keys);
            && (T in fs <==> "t" in keys) && (Devid in fs <==> "devid" in keys) && (Name in fs <==> "name" in keys)
            && (Platform in fs <==> "platform" in keys) && (Ver in fs <==> "ver" in keys) && (Proof in fs <==> "proof" in keys)
            && (Dx in fs <==> "dx" in keys) && (Dy in fs <==> "dy" in keys) && (X in fs <==> "x" in keys) && (Y in fs <==> "y" in keys)
            && (B in fs <==> "b" in keys) && (Down in fs <==> "down" in keys) && (S in fs <==> "s" in keys)
            && (Code in fs <==> "code" in keys) && (Mods in fs <==> "mods" in keys) && (Ts in fs <==> "ts" in keys)
  {
  }

  lemma TheseAreAll(m: In, keys: seq<string>)
    requires OnlyThese(m, keys)
    ensures Filled(m, FieldsNamed(keys)) == m
  {
    hide FieldsNamed, NameOf;
    IsNamed(keys);
  }

  /**
    Whatever the order of the members, the spelling of names and values and the blanks
    between them, and whatever members are there that In does not have: a line that says
    the record m is read as m, without error.
  */
  lemma StandardJsonIsRead(line: string, m: In)
    requires SaysRecord(line, m)
    ensures Decode(line) == Decoded(m, true)
  {
    hide SaysToken, Foreign, Tokens, OnlyThese, StoreAll, Decode, IsObject;
    var toks, keys :| IsObject(line, toks) && SaysMembers(m, toks, keys);
    TokensAreRead(m, {}, toks, keys);
    assert {} + FieldsNamed(keys) == FieldsNamed(keys);
    TheseAreAll(m, keys);
    NothingFilled(m);
    ObjectIsStored(line, toks);
  }

  lemma NothingFilled(m: In)
    ensures Filled(m, {}) == ZERO_IN
  {
  }

  // ---- Exactly which lines are applied ----

  lemma ReadsInt(raw: string)
    requires ValueText(raw)
    ensures ReadInt(raw).Mismatch? <==> raw != "null" && !(exists n :: SpellsInt(raw, n) && -0x8000_0000_0000_0000 <= n < 0x8000_0000_0000_0000)
  {
    hide ValueText, ParseInt, SpellsInt;
    if ParseInt(raw).Some? { ReadIsSpelled(raw); }
    if n :| SpellsInt(raw, n) && -0x8000_0000_0000_0000 <= n < 0x8000_0000_0000_0000 { IntIsRead(raw, n); }
  }

  lemma StoreIntFits(d: Decoded, f: Field, c: Cell<int64>)
    requires IsNumber(f)
    ensures StoreInt(d, f, c).ok <==> d.ok && !c.Mismatch?
  {
  }

  lemma StoreTextFits(d: Decoded, f: Field, c: Cell<string>)
    requires !IsNumber(f) && !f.Down?
    ensures StoreText(d, f, c).ok <==> d.ok && !c.Mismatch?
  {
  }

  lemma StoreFits(d: Decoded, f: Field, raw: string)
    requires ValueText(raw)
    ensures Store(d, f, raw).ok <==> d.ok && Suits(NameOf(f), raw)
  {
    hide StoreInt, StoreText, ReadInt, SpellsInt, Unquote, NameOf, IsText, IsInteger, ValueText;
    NameIsKnown(f);
    if IsNumber(f) {
      StoreIntFits(d, f, ReadInt(raw));
      ReadsInt(raw);
    } else if !f.Down? {
      StoreTextFits(d, f, ReadString(raw));
    }
  }

  lemma TokenFits(d: Decoded, tok: Member, key: string)
    requires IsName(tok.name, key) && Item(tok.raw)
    ensures StoreOne(d, Unquote(Trim(tok.name)), Trim(tok.raw)).ok <==> d.ok && Fits(key, tok.raw)
  {
    hide IsName, Padded, Item, ValueText, Store, Trim, Unquote, FieldOf, NameOf, SameName, Known, Suits;
    NameIsRead(tok.name, key);
    var raw := ItemIsPadded(tok.raw);
    if Fits(key, tok.raw) {
      var r :| Padded(tok.raw, r) && ValueText(r) && forall name :: Known(name) && SameName(key, name) ==> Suits(name, r);
      PaddedValue(tok.raw, r);
    }
    if FieldOf(key).Some? {
      var f := FieldOf(key).value;
      NameIsFolded(key, f);
      NameIsKnown(f);
      StoreFits(d, f, raw);
    }
    forall name | Known(name) && SameName(key, name) ensures FieldOf(key).Some? && name == NameOf(FieldOf(key).value) {
      var g := KnownIsName(name);
      NameIsFolded(key, g);
    }
  }

  lemma {:induction false} TokensFit(d: Decoded, toks: seq<Member>, keys: seq<string>)
    requires |toks| == |keys| && forall i :: 0 <= i < |toks| ==> IsName(toks[i].name, keys[i]) && Item(toks[i].raw)
    ensures Tokens(toks)
    ensures StoreAll(d, toks).ok <==> d.ok && forall i :: 0 <= i < |toks| ==> Fits(keys[i], toks[i].raw)
    decreases |toks|
  {
    hide IsName, NameText, Item, Fits, StoreOne, Trim, Unquote;
    if toks != [] {
      NameIsRead(toks[0].name, keys[0]);
      TokenFits(d, toks[0], keys[0]);
      assert forall i :: 0 < i < |toks| ==> toks[i] == toks[1..][i - 1] && keys[i] == keys[1..][i - 1];
      TokensFit(StoreOne(d, Unquote(Trim(toks[0].name)), Trim(toks[0].raw)), toks[1..], keys[1..]);
      assert forall i :: 0 <= i < |toks| - 1 ==> toks[1..][i] == toks[i + 1] && keys[1..][i] == keys[i + 1];
    }
  }

  /** An object is applied exactly if every member that In has has a value of its type,
      null, or, for an integer, a whole number of 64 bits. */
  lemma ObjectAppliesExactly(line: string, toks: seq<Member>, keys: seq<string>)
    requires IsObject(line, toks) && |toks| == |keys|
    requires forall i :: 0 <= i < |toks| ==> IsName(toks[i].name, keys[i]) && Item(toks[i].raw)
    ensures Decode(line).ok <==> forall i :: 0 <= i < |toks| ==> Fits(keys[i], toks[i].raw)
  {
    hide IsName, Item, Fits, Decode, StoreAll, Tokens, IsObject;
    TokensFit(Decoded(ZERO_IN, true), toks, keys);
    ObjectIsStored(line, toks);
  }

  /** Whatever is not an object of the grammar changes no record, and is applied only if it is null. */
  lemma OnlyObjectsApply(line: string)
    ensures !IsJson(line) ==> Decode(line) == Decoded(ZERO_IN, false)
    ensures forall raw :: Padded(line, raw) && ValueText(raw) && raw != "" && raw[0] != '{' ==> Decode(line) == Decoded(ZERO_IN, raw == "null")
  {
    hide Accepts, Trim, ValueText, Padded, IsJson, ReadAll, StoreAll;
    ScannerIsExact(line);
    forall raw | Padded(line, raw) && ValueText(raw) && raw != "" && raw[0] != '{' ensures Decode(line) == Decoded(ZERO_IN, raw == "null") {
      PaddedValue(line, raw);
      ItemIsJson(line);
    }
  }

  /** Every other text of the grammar is an object with some members. */
  lemma EveryObject(line: string, raw: string) returns (toks: seq<Member>)
    requires Padded(line, raw) && ValueText(raw) && raw != "" && raw[0] == '{'
    ensures IsObject(line, toks) && Tokens(toks)
  {
    hide Tokens, Blank, MembersText, ValueText, Join;
    var t := ObjectInside(raw);
    var i: nat, j: nat :| PaddedAt(line, raw, i, j);
    NoBlanks();
    NoTokens();
    toks := [];
    if !Blank(t) { toks := Split(t); }
    Wrapped(line, raw, i, j, t);
    assert IsObjectIn(line, toks, line[..i], if Blank(t) then t else "", line[j..]);
  }

  lemma Wrapped(line: string, raw: string, i: nat, j: nat, t: string)
    requires i <= j <= |line| && line[i..j] == raw == "{" + (t + "}")
    ensures line == line[..i] + "{" + (t + "}") + line[j..]
  {
    assert line == line[..i] + raw + line[j..];
  }

  lemma ObjectInside(raw: string) returns (t: string)
    requires ValueText(raw) && raw != "" && raw[0] == '{'
    ensures raw == "{" + (t + "}") && (Blank(t) || MembersText(t))
  {
    hide Blank, Elements, MembersText, NumberText, StringText;
    if NumberText(raw) { NumberIsPlain(raw); }
    if StringText(raw) { StringStarts(raw); }
    t := raw[1..|raw| - 1];
  }

  lemma StringStarts(raw: string)
    requires StringText(raw)
    ensures raw[0] == '"'
  {
  }

  lemma NoTokens()
    ensures Tokens([])
  {
  }

  lemma OneToken(m: Member)
    requires NameText(m.name) && Item(m.raw)
    ensures Tokens([m]) && Join([m]) == m.name + ":" + m.raw + "}"
  {
  }

  lemma OneMoreToken(m: Member, rest: seq<Member>)
    requires NameText(m.name) && Item(m.raw) && Tokens(rest) && rest != []
    ensures Tokens([m] + rest) && Join([m] + rest) == m.name + ":" + m.raw + "," + Join(rest)
  {
    hide NameText, Item;
    assert ([m] + rest)[1..] == rest;
    assert m.name + ":" + m.raw + ("," + Join(rest)) == m.name + ":" + m.raw + "," + Join(rest);
  }

  lemma PutBack(t: string, k: nat)
    requires k < |t| && t[k] == ','
    ensures t[..k] + "," + (t[k + 1..] + "}") == t + "}"
  {
  }

  lemma {:induction false} Split(t: string) returns (toks: seq<Member>)
    requires MembersText(t)
    ensures toks != [] && Join(toks) == t + "}" && Tokens(toks)
    decreases |t|
  {
    hide NameText, Item, PairText, Join, Tokens;
    if PairText(t) {
      var m := SplitPair(t);
      toks := [m];
      OneToken(m);
    } else {
      var k :| 0 <= k < |t| && t[k] == ',' && PairText(t[..k]) && MembersText(t[k + 1..]);
      var m := SplitPair(t[..k]);
      var rest := Split(t[k + 1..]);
      toks := [m] + rest;
      OneMoreToken(m, rest);
      PutBack(t, k);
    }
  }

  lemma SplitPair(t: string) returns (m: Member)
    requires PairText(t)
    ensures t == m.name + ":" + m.raw && NameText(m.name) && Item(m.raw)
  {
    hide NameText, Item;
    var k :| 0 <= k < |t| && t[k] == ':' && NameText(t[..k]) && Item(t[k + 1..]);
    m := Member(t[..k], t[k + 1..]);
  }

  lemma ItemIsJson(s: string)
    requires Item(s)
    ensures IsJson(s)
  {
  }
}
