/** What Encode writes is one line of standard JSON that says the record, so Decode reads it back. */
module JsonRoundTrip {
  import opened Prelude
  import opened JsonScanner
  import opened JsonRecord
  import opened JsonGrammar
  import opened JsonText
  import opened JsonReading

  // ---- Strings ----

  lemma Base64Digits(n: nat)
    ensures n == n / 64 * 64 + n % 64
    ensures n == n / 4096 * 4096 + n / 64 % 64 * 64 + n % 64
    ensures n == n / 262144 * 262144 + n / 4096 % 64 * 4096 + n / 64 % 64 * 64 + n % 64
  {
    var q := n / 64;
    var r := q / 64;
    assert n == q * 64 + n % 64;
    assert q == r * 64 + q % 64;
    assert r == n / 4096;
    assert r == r / 64 * 64 + r % 64;
    assert r / 64 == n / 262144;
  }

  lemma Base16Digits(n: nat)
    ensures n == n / 4096 * 4096 + n / 256 % 16 * 256 + n / 16 % 16 * 16 + n % 16
  {
    var q := n / 16;
    var r := q / 16;
    assert n == q * 16 + n % 16;
    assert q == r * 16 + q % 16;
    assert r == n / 256;
    assert r == r / 16 * 16 + r % 16;
    assert r / 16 == n / 4096;
  }

  lemma Utf8IsUtf8(c: char)
    ensures IsUtf8(Utf8(c), c)
  {
    Base64Digits(c as int);
  }

  lemma HexIsDigit(n: nat)
    requires n < 16
    ensures Digit16(HexDigit(n), n)
  {
  }

  lemma UnicodeEscapeIsUnit(n: nat)
    requires n < 0x10000
    ensures Unit(UnicodeEscape(n), n)
  {
    hide HexDigit, Digit16;
    var e := UnicodeEscape(n);
    HexIsDigit(n / 4096);
    HexIsDigit(n / 256 % 16);
    HexIsDigit(n / 16 % 16);
    HexIsDigit(n % 16);
    assert e[2] == HexDigit(n / 4096) && e[3] == HexDigit(n / 256 % 16) && e[4] == HexDigit(n / 16 % 16) && e[5] == HexDigit(n % 16);
    Base16Digits(n);
  }

  lemma EscapeCharSpells(c: char)
    ensures SpellsChar(EscapeChar(c), c)
  {
    hide Utf8, UnicodeEscape, IsUtf8, Unit;
    if Letter(c).Some? {
    } else if Unicoded(c) {
      UnicodeEscapeIsUnit(c as int);
    } else {
      Utf8IsUtf8(c);
    }
  }

  lemma {:induction false} EscapeAllSpells(s: string)
    ensures SpellsAll(EscapeAll(s), s)
  {
    hide EscapeChar, SpellsChar;
    if s != "" {
      var e, rest := EscapeChar(s[0]), EscapeAll(s[1..]);
      EscapeCharSpells(s[0]);
      CharIsNotEmpty(e, s[0]);
      EscapeAllSpells(s[1..]);
      assert EscapeAll(s)[..|e|] == e && EscapeAll(s)[|e|..] == rest;
    }
  }

  lemma CharIsNotEmpty(e: string, c: char)
    requires SpellsChar(e, c)
    ensures e != ""
  {
  }

  lemma QuoteSpells(s: string)
    ensures SpellsText(Quote(s), s)
  {
    EscapeAllSpells(s);
    assert Quote(s)[1..|Quote(s)| - 1] == EscapeAll(s);
  }

  lemma QuoteComesBack(s: string)
    ensures Unquote(Quote(s)) == s
  {
    QuoteSpells(s);
    TextIsRead(Quote(s), s);
  }

  // ---- Numbers ----

  lemma {:induction false} DecimalIsNumeral(n: nat)
    ensures Numeral(Decimal(n), n) && (n != 0 ==> Decimal(n)[0] != '0')
  {
    var d := Decimal(n);
    if n >= 10 {
      DecimalIsNumeral(n / 10);
      assert d[..|d| - 1] == Decimal(n / 10);
      assert Decimal(n / 10) != "";
    }
  }

  lemma PrintIntSpells(i: int)
    ensures SpellsInt(PrintInt(i), i)
  {
    DecimalIsNumeral(if i < 0 then -i else i);
    var p := PrintInt(i);
    if i < 0 {
      assert p[1..] == Decimal(-i);
    } else {
      NumeralIsRead(p, i);
      assert IsDigit(p[0]);
    }
  }

  lemma PrintIntComesBack(i: int64)
    ensures ParseInt(PrintInt(i)) == Some(i)
  {
    hide ParseInt;
    PrintIntSpells(i);
    IntIsRead(PrintInt(i), i);
  }

  // ---- The members of a frame say the record ----

  function Names(m: In): seq<string> {
    seq(|Members(m)|, i requires 0 <= i < |Members(m)| => Members(m)[i].name)
  }

  lemma {:induction false} TagsSay(m: In, k: nat)
    requires k <= TAG_COUNT
    ensures forall t <- TagsBelow(m, k) :: exists f :: t.name == NameOf(f) && SaysField(m, f, t.raw)
  {
    hide NameOf, SaysField, FieldAt, Tag;
    if k > 0 {
      TagsSay(m, k - 1);
      TagSays(m, FieldAt(k - 1));
    }
  }

  lemma TagSays(m: In, f: Field)
    ensures forall t <- Tag(m, f) :: t.name == NameOf(f) && SaysField(m, f, t.raw)
  {
    hide SpellsText, SpellsInt, Quote, PrintInt;
    if !f.Down? {
      if IsNumber(f) { PrintIntSpells(NumberOf(m, f)); } else { QuoteSpells(TextOf(m, f)); }
    }
  }

  lemma FieldSaysMember(m: In, f: Field, raw: string)
    requires SaysField(m, f, raw)
    ensures SaysMember(m, NameOf(f), raw)
  {
    hide SaysText, SaysInt, SaysBool;
  }

  /** A field that is not zero has its tag. */
  predicate Set(m: In, f: Field) {
    if f.Down? then m.down.Some? else if IsNumber(f) then NumberOf(m, f) != 0 else f.T? || TextOf(m, f) != ""
  }

  lemma {:induction false} TagsCover(m: In, k: nat, f: Field)
    requires k <= TAG_COUNT
    ensures (exists t <- TagsBelow(m, k) :: t.name == NameOf(f)) <==> Set(m, f) && exists j :: 0 <= j < k && FieldAt(j) == f
  {
    hide NameOf, FieldAt, Tag, Set;
    if k > 0 {
      TagsCover(m, k - 1, f);
      TagCovers(m, FieldAt(k - 1), f);
      var before, tag := TagsBelow(m, k - 1), Tag(m, FieldAt(k - 1));
      assert TagsBelow(m, k) == before + tag;
      if Set(m, f) && FieldAt(k - 1) == f { assert tag[0] in TagsBelow(m, k); }
    }
  }

  lemma TagCovers(m: In, g: Field, f: Field)
    ensures if g == f && Set(m, f) then |Tag(m, g)| == 1 && Tag(m, g)[0].name == NameOf(f)
            else forall t <- Tag(m, g) :: t.name != NameOf(f)
  {
    hide Quote, PrintInt, FieldOf;
    NameIsExact(f);
    NameIsExact(g);
  }

  lemma EveryFieldHasAPlace(f: Field) returns (k: nat)
    ensures k < TAG_COUNT && FieldAt(k) == f
  {
    match f {
      case T => k := 0;
      case Devid => k := 1;
      case Name => k := 2;
      case Platform => k := 3;
      case Ver => k := 4;
      case Proof => k := 5;
      case Dx => k := 6;
      case Dy => k := 7;
      case X => k := 8;
      case Y => k := 9;
      case B => k := 10;
      case Down => k := 11;
      case S => k := 12;
      case Code => k := 13;
      case Mods => k := 14;
      case Ts => k := 15;
    }
  }

  lemma NamedIfSet(m: In, f: Field)
    ensures NameOf(f) in Names(m) <==> Set(m, f)
  {
    hide NameOf, FieldAt, Set, TagsBelow;
    var k := EveryFieldHasAPlace(f);
    TagsCover(m, TAG_COUNT, f);
    if NameOf(f) in Names(m) {
      var i :| 0 <= i < |Names(m)| && Names(m)[i] == NameOf(f);
      assert Members(m)[i] in TagsBelow(m, TAG_COUNT);
    }
    if Set(m, f) {
      var t :| t in TagsBelow(m, TAG_COUNT) && t.name == NameOf(f);
      var i :| 0 <= i < |Members(m)| && Members(m)[i] == t;
      assert Names(m)[i] == NameOf(f);
    }
  }

  /** A frame names t and exactly those other fields that are not zero; down is named
      whenever it is set, true or false. */
  lemma ZerosAreOmitted(m: In)
    ensures var names := Names(m);
            && "t" in names && ("devid" in names <==> m.devid != "") && ("name" in names <==> m.name != "")
            && ("platform" in names <==> m.platform != "") && ("ver" in names <==> m.ver != "") && ("proof" in names <==> m.proof != "")
            && ("dx" in names <==> m.dx != 0) && ("dy" in names <==> m.dy != 0) && ("x" in names <==> m.x != 0)
            && ("y" in names <==> m.y != 0) && ("b" in names <==> m.b != "") && ("down" in names <==> m.down != None)
            && ("s" in names <==> m.s != "") && ("code" in names <==> m.code != 0) && ("mods" in names <==> m.mods != 0)
            && ("ts" in names <==> m.ts != 0)
  {
    hide Names, Members;
    NamedIfSet(m, T); NamedIfSet(m, Devid); NamedIfSet(m, Name); NamedIfSet(m, Platform);
    NamedIfSet(m, Ver); NamedIfSet(m, Proof); NamedIfSet(m, Dx); NamedIfSet(m, Dy);
    NamedIfSet(m, X); NamedIfSet(m, Y); NamedIfSet(m, B); NamedIfSet(m, Down);
    NamedIfSet(m, S); NamedIfSet(m, Code); NamedIfSet(m, Mods); NamedIfSet(m, Ts);
  }

  lemma NotPadded(raw: string)
    ensures Padded(raw, raw)
  {
    assert PaddedAt(raw, raw, 0, |raw|);
  }

  lemma MembersSay(m: In)
    ensures SaysMembers(m, Quoted(Members(m)), Names(m))
  {
    hide Padded, SpellsText, SaysMember, SaysField, Quote, NameOf, TagsBelow;
    var ms, toks, keys := Members(m), Quoted(Members(m)), Names(m);
    ZerosAreOmitted(m);
    TagsSay(m, TAG_COUNT);
    forall i | 0 <= i < |toks| ensures SaysToken(m, toks[i], keys[i]) {
      assert ms[i] in TagsBelow(m, TAG_COUNT);
      var f :| ms[i].name == NameOf(f) && SaysField(m, f, ms[i].raw);
      FieldSaysMember(m, f, ms[i].raw);
      QuoteSpells(ms[i].name);
      NotPadded(toks[i].name);
      assert IsName(toks[i].name, keys[i]);
      assert SameName(keys[i], keys[i]);
      NotPadded(toks[i].raw);
    }
  }

  /** A frame is standard JSON for its record. */
  lemma BodySays(m: In)
    ensures SaysRecord(Body(m), m)
  {
    hide SaysMembers, Join, Quoted, Members;
    MembersSay(m);
    var toks := Quoted(Members(m));
    QuotedIsNotEmpty(m);
    assert "" + "{" + Join(toks) + "" == Body(m);
    assert Blank("");
    assert IsObjectIn(Body(m), toks, "", "", "");
  }

  lemma QuotedIsNotEmpty(m: In)
    ensures Quoted(Members(m)) != []
  {
    TagsAreNotEmpty(m, TAG_COUNT);
  }

  /** Whatever record is written, reading its line gives it back. */
  lemma DecodeEncode(m: In)
    ensures Decode(Body(m)) == Decoded(m, true)
  {
    hide SaysRecord, Decode, Body;
    BodySays(m);
    StandardJsonIsRead(Body(m), m);
  }

  /** Reading the whole object: accepted, and the members are those written. */
  lemma ReadBody(m: In)
    ensures Run(START, Body(m)) == Scanner(EndTop, [])
    ensures Accepts(Body(m))
    ensures ReadAll(Reader(START, "", "", []), Body(m)).done == Quoted(Members(m))
  {
    hide SaysToken, OnlyThese, Tokens, Join, Quoted, Members, ReadAll, StoreAll, Decode, Accepts, Run, Filled, Names;
    var toks := Quoted(Members(m));
    MembersSay(m);
    TokensAreRead(m, {}, toks, Names(m));
    QuotedIsNotEmpty(m);
    assert Blank("");
    assert "" + "{" + Join(toks) + "" == Body(m) == "" + "{" + Inside(toks, "") + "";
    assert IsObjectIn(Body(m), toks, "", "", "");
    ObjectIsStored(Body(m), toks);
    ReadObject("", toks, "", "");
    ReadAllScans(Reader(START, "", "", []), Body(m));
  }

  // ---- One line ----

  predicate Printable(s: string) {
    forall i :: 0 <= i < |s| ==> ' ' <= s[i] && s[i] as int < 256
  }

  lemma {:induction false} EscapeAllBytes(s: string)
    ensures Printable(EscapeAll(s))
  {
    hide EscapeChar;
    if s != "" {
      EscapeCharBytes(s[0]);
      EscapeAllBytes(s[1..]);
    }
  }

  lemma EscapeCharBytes(c: char)
    ensures Printable(EscapeChar(c))
  {
  }

  lemma QuoteBytes(s: string)
    ensures Printable(Quote(s))
  {
    hide EscapeAll;
    EscapeAllBytes(s);
  }

  lemma {:induction false} DecimalBytes(n: nat)
    ensures Printable(Decimal(n))
  {
    if n >= 10 { DecimalBytes(n / 10); }
  }

  lemma PrintIntBytes(i: int)
    ensures Printable(PrintInt(i))
  {
    hide Decimal;
    DecimalBytes(if i < 0 then -i else i);
  }

  lemma TagBytes(m: In, f: Field)
    ensures forall t <- Tag(m, f) :: Printable(t.raw)
  {
    hide Quote, PrintInt;
    if !f.Down? {
      if IsNumber(f) { PrintIntBytes(NumberOf(m, f)); } else { QuoteBytes(TextOf(m, f)); }
    }
  }

  lemma {:induction false} TagsBytes(m: In, k: nat)
    requires k <= TAG_COUNT
    ensures forall t <- TagsBelow(m, k) :: Printable(t.raw)
  {
    hide Tag, FieldAt, Printable;
    if k > 0 {
      TagsBytes(m, k - 1);
      TagBytes(m, FieldAt(k - 1));
    }
  }

  lemma {:induction false} JoinBytes(toks: seq<Member>)
    requires toks != [] && forall i :: 0 <= i < |toks| ==> Printable(toks[i].name) && Printable(toks[i].raw)
    ensures Printable(Join(toks))
    decreases |toks|
  {
    if |toks| > 1 {
      assert forall i :: 0 <= i < |toks[1..]| ==> toks[1..][i] == toks[i + 1];
      JoinBytes(toks[1..]);
    }
  }

  lemma JoinStart(toks: seq<Member>)
    requires toks != [] && toks[0].name == Quote("t")
    ensures |Join(toks)| > 3 && Join(toks)[0] == '"' && Join(toks)[1] == 't'
  {
    assert EscapeAll("t") == EscapeChar('t') + EscapeAll("");
    assert Quote("t")[0] == '"' && Quote("t")[1] == 't' && |Quote("t")| == 3;
    var rest := toks[0].raw + (if |toks| == 1 then "}" else "," + Join(toks[1..]));
    assert Join(toks) == Quote("t") + (":" + rest);
  }

  /** A frame is bytes, starts the same way whatever it says, and its only line
      break is its last byte. */
  lemma EncodeIsOneLine(m: In)
    ensures Encode(m) == Body(m) + "\n"
    ensures forall i :: 0 <= i < |Body(m)| ==> ' ' <= Body(m)[i] && Body(m)[i] as int < 256
    ensures |Body(m)| > 4 && Body(m)[0] == '{' && Body(m)[1] == '"' && Body(m)[2] == 't' && Body(m)[|Body(m)| - 1] == '}'
  {
    hide Join, Quote, TagsBelow;
    var ms, toks := Members(m), Quoted(Members(m));
    TagsBytes(m, TAG_COUNT);
    TagsAreNotEmpty(m, TAG_COUNT);
    forall i | 0 <= i < |toks| ensures Printable(toks[i].name) && Printable(toks[i].raw) {
      QuoteBytes(ms[i].name);
      assert ms[i] in TagsBelow(m, TAG_COUNT);
    }
    JoinBytes(toks);
    JoinStart(toks);
    JoinEnds(toks);
  }
}
