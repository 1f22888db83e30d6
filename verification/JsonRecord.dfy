/**
  server/proto.go: the In record, its printer (encoding/json's Marshal with the
  tags of In, plus the closing newline) and its reader (Unmarshal into In).
  Strings hold Unicode scalar values; lines hold bytes.
*/
module JsonRecord {
  import opened Prelude
  import opened JsonScanner

  datatype In = In(
    t: string, devid: string, name: string, platform: string, ver: string, proof: string,
    dx: int64, dy: int64, x: int64, y: int64,
    b: string, down: Option<bool>, s: string,
    code: int64, mods: int64, ts: int64)

  const ZERO_IN := In("", "", "", "", "", "", 0, 0, 0, 0, "", None, "", 0, 0, 0)

  const REPLACEMENT: char := '\U{FFFD}'

  // ---- Strings: section 7 of RFC 8259 ----

  function Utf8(c: char): string {
    var n := c as int;
    if n < 0x80 then [c]
    else if n < 0x800 then [(0xC0 + n / 64) as char, (0x80 + n % 64) as char]
    else if n < 0x10000 then [(0xE0 + n / 4096) as char, (0x80 + n / 64 % 64) as char, (0x80 + n % 64) as char]
    else [(0xF0 + n / 262144) as char, (0x80 + n / 4096 % 64) as char, (0x80 + n / 64 % 64) as char, (0x80 + n % 64) as char]
  }

  function HexDigit(n: nat): char
    requires n < 16
  {
    if n < 10 then ('0' as int + n) as char else ('a' as int + n - 10) as char
  }

  function HexValue(b: char): nat
    requires IsHex(b)
  {
    if b <= '9' then b as int - '0' as int
    else if b <= 'F' then b as int - 'A' as int + 10
    else b as int - 'a' as int + 10
  }

  function UnicodeEscape(n: nat): string
    requires n < 0x10000
  {
    "\\u" + [HexDigit(n / 4096), HexDigit(n / 256 % 16), HexDigit(n / 16 % 16), HexDigit(n % 16)]
  }

  /** The letter that abbreviates c after a backslash, if there is one. */
  function Letter(c: char): Option<char> {
    if c == '"' || c == '\\' then Some(c)
    else if c == 8 as char then Some('b')
    else if c == 12 as char then Some('f')
    else if c == '\n' then Some('n')
    else if c == '\r' then Some('r')
    else if c == '\t' then Some('t')
    else None
  }

  /** Marshal also escapes the HTML characters and the two Unicode line separators. */
  predicate Unicoded(c: char) {
    c < ' ' || c == '<' || c == '>' || c == '&' || c as int == 0x2028 || c as int == 0x2029
  }

  function EscapeChar(c: char): string {
    if Letter(c).Some? then ['\\', Letter(c).value]
    else if Unicoded(c) then UnicodeEscape(c as int)
    else Utf8(c)
  }

  function EscapeAll(s: string): string {
    if s == "" then "" else EscapeChar(s[0]) + EscapeAll(s[1..])
  }

  function Quote(s: string): string {
    "\"" + EscapeAll(s) + "\""
  }

  function Continuation(b: char): Option<nat> {
    if 0x80 <= b as int < 0xC0 then Some(b as int - 0x80) else None
  }

  /** A Unicode scalar value if n is one of those that need at least this many. */
  function Scalar(n: nat, least: nat, width: nat): (char, nat) {
    if least <= n < 0xD800 || (least <= n < 0x110000 && 0xE000 <= n) then (n as char, width) else (REPLACEMENT, 1)
  }

  /** The first character of a non-empty byte string and its width in bytes. */
  function FirstChar(s: string): (r: (char, nat))
    requires s != ""
    ensures 1 <= r.1 <= |s|
  {
    var b := s[0] as int;
    var c1 := if |s| > 1 then Continuation(s[1]) else None;
    var c2 := if |s| > 2 then Continuation(s[2]) else None;
    var c3 := if |s| > 3 then Continuation(s[3]) else None;
    if b < 0x80 then (s[0], 1)
    else if 0xC0 <= b < 0xE0 && c1.Some? then Scalar((b - 0xC0) * 64 + c1.value, 0x80, 2)
    else if 0xE0 <= b < 0xF0 && c1.Some? && c2.Some? then Scalar((b - 0xE0) * 4096 + c1.value * 64 + c2.value, 0x800, 3)
    else if 0xF0 <= b < 0xF8 && c1.Some? && c2.Some? && c3.Some? then
      Scalar((b - 0xF0) * 262144 + c1.value * 4096 + c2.value * 64 + c3.value, 0x10000, 4)
    else (REPLACEMENT, 1)
  }

  /** The number in a \uXXXX escape at the front of s. */
  function FourHex(s: string): Option<nat> {
    if |s| >= 6 && s[0] == '\\' && s[1] == 'u' && IsHex(s[2]) && IsHex(s[3]) && IsHex(s[4]) && IsHex(s[5])
    then Some(HexValue(s[2]) * 4096 + HexValue(s[3]) * 256 + HexValue(s[4]) * 16 + HexValue(s[5]))
    else None
  }

  function LetterMeaning(b: char): char {
    if b == 'b' then 8 as char else if b == 'f' then 12 as char
    else if b == 'n' then '\n' else if b == 'r' then '\r' else if b == 't' then '\t' else b
  }

  /** The text between the quotes of a string literal, decoded; a lone surrogate
      or a malformed byte becomes the replacement character. */
  function Unescape(s: string): string
    decreases |s|
  {
    if s == "" then ""
    else if s[0] == '\\' then
      if FourHex(s).Some? then
        var n := FourHex(s).value;
        if n < 0xD800 || 0xE000 <= n < 0x10000 then [n as char] + Unescape(s[6..])
        else if n < 0xDC00 && FourHex(s[6..]).Some? && 0xDC00 <= FourHex(s[6..]).value < 0xE000 then
          [((n - 0xD800) * 1024 + FourHex(s[6..]).value - 0xDC00 + 0x10000) as char] + Unescape(s[12..])
        else [REPLACEMENT] + Unescape(s[6..])
      else if |s| == 1 then ""
      else [LetterMeaning(s[1])] + Unescape(s[2..])
    else
      var (c, width) := FirstChar(s);
      [c] + Unescape(s[width..])
  }

  function Unquote(raw: string): string {
    if |raw| < 2 then "" else Unescape(raw[1..|raw| - 1])
  }

  // ---- Numbers: section 6 of RFC 8259, as strconv prints and parses int64 ----

  function Decimal(n: nat): string {
    if n < 10 then [('0' as int + n) as char] else Decimal(n / 10) + [('0' as int + n % 10) as char]
  }

  function PrintInt(i: int): string {
    if i < 0 then "-" + Decimal(-i) else Decimal(i)
  }

  predicate AllDigits(s: string) {
    forall i :: 0 <= i < |s| ==> IsDigit(s[i])
  }

  function Natural(s: string): nat
    requires AllDigits(s)
  {
    if s == "" then 0 else Natural(s[..|s| - 1]) * 10 + (s[|s| - 1] as int - '0' as int)
  }

  function ParseInt(s: string): Option<int64> {
    var minus := s != "" && s[0] == '-';
    var digits := if minus then s[1..] else s;
    if digits == "" || !AllDigits(digits) then None
    else
      var v: int := if minus then 0 - Natural(digits) else Natural(digits);
      if -0x8000_0000_0000_0000 <= v < 0x8000_0000_0000_0000 then Some(v) else None
  }

  // ---- Printing ----

  /** A member of the object: its name and the text of its value. */
  datatype Member = Member(name: string, raw: string)

  /** The fields of In in the order of the struct. */
  datatype Field = T | Devid | Name | Platform | Ver | Proof | Dx | Dy | X | Y | B | Down | S | Code | Mods | Ts

  function FieldAt(k: nat): Field
    requires k < 16
  {
    if k == 0 then T else if k == 1 then Devid else if k == 2 then Name else if k == 3 then Platform
    else if k == 4 then Ver else if k == 5 then Proof else if k == 6 then Dx else if k == 7 then Dy
    else if k == 8 then X else if k == 9 then Y else if k == 10 then B else if k == 11 then Down
    else if k == 12 then S else if k == 13 then Code else if k == 14 then Mods else Ts
  }

  function NameOf(f: Field): string {
    match f
    case T => "t" case Devid => "devid" case Name => "name" case Platform => "platform"
    case Ver => "ver" case Proof => "proof" case Dx => "dx" case Dy => "dy" case X => "x" case Y => "y"
    case B => "b" case Down => "down" case S => "s" case Code => "code" case Mods => "mods" case Ts => "ts"
  }

  predicate IsNumber(f: Field) {
    f.Dx? || f.Dy? || f.X? || f.Y? || f.Code? || f.Mods? || f.Ts?
  }

  function TextOf(m: In, f: Field): string
    requires !IsNumber(f) && !f.Down?
  {
    match f
    case T => m.t
    case Devid => m.devid
    case Name => m.name
    case Platform => m.platform
    case Ver => m.ver
    case Proof => m.proof
    case B => m.b
    case S => m.s
  }

  function NumberOf(m: In, f: Field): int64
    requires IsNumber(f)
  {
    match f
    case Dx => m.dx
    case Dy => m.dy
    case X => m.x
    case Y => m.y
    case Code => m.code
    case Mods => m.mods
    case Ts => m.ts
  }

  /** What one field contributes to the line: nothing when it is zero, except for t. */
  function Tag(m: In, f: Field): seq<Member> {
    if f.Down? then
      if m.down.None? then [] else [Member("down", if m.down.value then "true" else "false")]
    else if IsNumber(f) then
      if NumberOf(m, f) == 0 then [] else [Member(NameOf(f), PrintInt(NumberOf(m, f)))]
    else
      if TextOf(m, f) == "" && !f.T? then [] else [Member(NameOf(f), Quote(TextOf(m, f)))]
  }

  const TAG_COUNT: nat := 16

  function TagsBelow(m: In, k: nat): seq<Member>
    requires k <= TAG_COUNT
  {
    if k == 0 then [] else TagsBelow(m, k - 1) + Tag(m, FieldAt(k - 1))
  }

  function Members(m: In): (ms: seq<Member>)
    ensures ms != []
  {
    TagsAreNotEmpty(m, TAG_COUNT);
    TagsBelow(m, TAG_COUNT)
  }

  lemma TagsAreNotEmpty(m: In, k: nat)
    requires 0 < k <= TAG_COUNT
    ensures TagsBelow(m, k) != [] && TagsBelow(m, k)[0] == Member("t", Quote(m.t))
  {
    if k > 1 { TagsAreNotEmpty(m, k - 1); }
  }

  /** Members whose names are literals. */
  function Quoted(ms: seq<Member>): seq<Member> {
    seq(|ms|, i requires 0 <= i < |ms| => Member(Quote(ms[i].name), ms[i].raw))
  }

  /** The text of these members, and the brace that ends their object. */
  function Join(toks: seq<Member>): string
    requires toks != []
  {
    toks[0].name + ":" + toks[0].raw + (if |toks| == 1 then "}" else "," + Join(toks[1..]))
  }

  function Body(m: In): string {
    "{" + Join(Quoted(Members(m)))
  }

  function Encode(m: In): string {
    Body(m) + "\n"
  }

  // ---- Reading: the members of an accepted object, in order ----

  /** The automaton together with the member being read and those already read. */
  datatype Reader = Reader(scan: Scanner, key: string, token: string, done: seq<Member>)

  function Read(r: Reader, b: char): Reader {
    var scan := Step(r.scan, b);
    if r.scan.stack == [InKey] && scan.stack == [InValue] then Reader(scan, r.token, "", r.done)
    else if r.scan.stack == [InValue] && (scan.stack == [InKey] || scan.stack == []) then
      Reader(scan, "", "", r.done + [Member(r.key, r.token)])
    else if r.scan.stack == [] then Reader(scan, r.key, "", r.done)
    else Reader(scan, r.key, r.token + [b], r.done)
  }

  function ReadAll(r: Reader, s: string): Reader
    decreases |s|
  {
    if s == "" then r else ReadAll(Read(r, s[0]), s[1..])
  }

  function Trim(s: string): string
    decreases |s|
  {
    if s == "" then s
    else if IsSpace(s[0]) then Trim(s[1..])
    else if IsSpace(s[|s| - 1]) then Trim(s[..|s| - 1])
    else s
  }

  // ---- Reading: storing a member into the record ----

  /** What one JSON value does to a field: nothing, a new value, or a type mismatch. */
  datatype Cell<T> = Same | Put(value: T) | Mismatch {
    function Or(was: T): T {
      if Put? then value else was
    }
  }

  function ReadString(raw: string): Cell<string> {
    if raw == "null" then Same
    else if raw != "" && raw[0] == '"' then Put(Unquote(raw))
    else Mismatch
  }

  function ReadInt(raw: string): Cell<int64> {
    if raw == "null" then Same
    else if ParseInt(raw).Some? then Put(ParseInt(raw).value)
    else Mismatch
  }

  /** Simple case folding of one character, as far as the names of In can tell. */
  function Fold(c: char): char {
    if 'A' <= c <= 'Z' then (c as int + 32) as char
    else if c as int == 0x17F then 's'
    else if c as int == 0x212A then 'k'
    else c
  }

  function Exact(key: string): Option<Field> {
    if key == "t" then Some(T) else if key == "devid" then Some(Devid) else if key == "name" then Some(Name)
    else if key == "platform" then Some(Platform) else if key == "ver" then Some(Ver) else if key == "proof" then Some(Proof)
    else if key == "dx" then Some(Dx) else if key == "dy" then Some(Dy) else if key == "x" then Some(X) else if key == "y" then Some(Y)
    else if key == "b" then Some(B) else if key == "down" then Some(Down) else if key == "s" then Some(S)
    else if key == "code" then Some(Code) else if key == "mods" then Some(Mods) else if key == "ts" then Some(Ts)
    else None
  }

  /** Unmarshal takes an exact name first and otherwise one equal up to case. */
  function FieldOf(key: string): Option<Field> {
    if Exact(key).Some? then Exact(key) else Exact(seq(|key|, i requires 0 <= i < |key| => Fold(key[i])))
  }

  /** The record so far, and whether every member so far had the right type. */
  datatype Decoded = Decoded(rec: In, ok: bool)

  function Store(d: Decoded, f: Field, raw: string): Decoded {
    if f == Down then StoreBool(d, raw)
    else if IsNumber(f) then StoreInt(d, f, ReadInt(raw))
    else StoreText(d, f, ReadString(raw))
  }

  function StoreText(d: Decoded, f: Field, c: Cell<string>): Decoded
    requires !IsNumber(f) && !f.Down?
  {
    var r := d.rec;
    var ok := d.ok && !c.Mismatch?;
    match f
    case T => Decoded(r.(t := c.Or(r.t)), ok)
    case Devid => Decoded(r.(devid := c.Or(r.devid)), ok)
    case Name => Decoded(r.(name := c.Or(r.name)), ok)
    case Platform => Decoded(r.(platform := c.Or(r.platform)), ok)
    case Ver => Decoded(r.(ver := c.Or(r.ver)), ok)
    case Proof => Decoded(r.(proof := c.Or(r.proof)), ok)
    case B => Decoded(r.(b := c.Or(r.b)), ok)
    case S => Decoded(r.(s := c.Or(r.s)), ok)
  }

  function StoreInt(d: Decoded, f: Field, c: Cell<int64>): Decoded
    requires IsNumber(f)
  {
    var r := d.rec;
    var ok := d.ok && !c.Mismatch?;
    match f
    case Dx => Decoded(r.(dx := c.Or(r.dx)), ok)
    case Dy => Decoded(r.(dy := c.Or(r.dy)), ok)
    case X => Decoded(r.(x := c.Or(r.x)), ok)
    case Y => Decoded(r.(y := c.Or(r.y)), ok)
    case Code => Decoded(r.(code := c.Or(r.code)), ok)
    case Mods => Decoded(r.(mods := c.Or(r.mods)), ok)
    case Ts => Decoded(r.(ts := c.Or(r.ts)), ok)
  }

  /** A mismatch still leaves the pointer of a *bool field allocated. */
  function StoreBool(d: Decoded, raw: string): Decoded {
    if raw == "null" then Decoded(d.rec.(down := None), d.ok)
    else if raw == "true" || raw == "false" then Decoded(d.rec.(down := Some(raw == "true")), d.ok)
    else Decoded(d.rec.(down := if d.rec.down.Some? then d.rec.down else Some(false)), false)
  }

  /** A name that In does not know is skipped. */
  function StoreOne(d: Decoded, name: string, raw: string): Decoded {
    match FieldOf(name)
    case None => d
    case Some(f) => Store(d, f, raw)
  }

  function StoreAll(d: Decoded, ms: seq<Member>): Decoded
    decreases |ms|
  {
    if ms == [] then d
    else StoreAll(StoreOne(d, Unquote(Trim(ms[0].name)), Trim(ms[0].raw)), ms[1..])
  }

  /** json.Unmarshal(line, &m) with m zero: the record left in m and whether err is nil. */
  function Decode(line: string): Decoded {
    if !Accepts(line) then Decoded(ZERO_IN, false)
    else if Trim(line) != "" && Trim(line)[0] == '{' then
      StoreAll(Decoded(ZERO_IN, true), ReadAll(Reader(START, "", "", []), line).done)
    else Decoded(ZERO_IN, Trim(line) == "null")
  }
}
