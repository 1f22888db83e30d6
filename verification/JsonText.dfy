/**
  What a JSON text says, by RFC 8259 and RFC 3629 and the tags in server/proto.go, as
  relations between texts and values. Nothing here mentions how texts are read or printed.
*/
module JsonText {
  import opened Prelude
  import opened JsonGrammar
  import opened JsonRecord

  // ---- Strings: section 7 of RFC 8259 ----

  predicate Digit16(b: char, v: int) {
    || ('0' <= b <= '9' && v == b as int - '0' as int)
    || ('a' <= b <= 'f' && v == b as int - 'a' as int + 10)
    || ('A' <= b <= 'F' && v == b as int - 'A' as int + 10)
  }

  /** e is a backslash, a u and the four hexadecimal digits of n. */
  ghost predicate Unit(e: string, n: int) {
    && |e| == 6 && e[0] == '\\' && e[1] == 'u'
    && exists a, b, c, d :: Digit16(e[2], a) && Digit16(e[3], b) && Digit16(e[4], c) && Digit16(e[5], d)
                            && n == 4096 * a + 256 * b + 16 * c + d
  }

  predicate Tail(b: char) {
    0x80 <= b as int <= 0xBF
  }

  /** e is the UTF-8 encoding of c: section 3 of RFC 3629. */
  predicate IsUtf8(e: string, c: char) {
    var n := c as int;
    || (|e| == 1 && n < 0x80 && e[0] == c)
    || (|e| == 2 && 0x80 <= n < 0x800 && 0xC0 <= e[0] as int <= 0xDF && Tail(e[1])
        && n == (e[0] as int - 0xC0) * 0x40 + (e[1] as int - 0x80))
    || (|e| == 3 && 0x800 <= n < 0x10000 && 0xE0 <= e[0] as int <= 0xEF && Tail(e[1]) && Tail(e[2])
        && n == (e[0] as int - 0xE0) * 0x1000 + (e[1] as int - 0x80) * 0x40 + (e[2] as int - 0x80))
    || (|e| == 4 && 0x10000 <= n && 0xF0 <= e[0] as int <= 0xF7 && Tail(e[1]) && Tail(e[2]) && Tail(e[3])
        && n == (e[0] as int - 0xF0) * 0x40000 + (e[1] as int - 0x80) * 0x1000 + (e[2] as int - 0x80) * 0x40 + (e[3] as int - 0x80))
  }

  /** The two-character escapes. */
  predicate Escapes(b: char, c: char) {
    || (b == '"' && c == '"') || (b == '\\' && c == '\\') || (b == '/' && c == '/')
    || (b == 'b' && c as int == 8) || (b == 'f' && c as int == 12)
    || (b == 'n' && c as int == 10) || (b == 'r' && c as int == 13) || (b == 't' && c as int == 9)
  }

  ghost predicate Pair(e: string, hi: int, lo: int)
    requires |e| == 12
  {
    Unit(e[..6], hi) && Unit(e[6..], lo) && 0xD800 <= hi <= 0xDBFF && 0xDC00 <= lo <= 0xDFFF
  }

  /** Inside a literal, e stands for the character c: as itself in UTF-8, as a
      two-character escape, as \uXXXX, or as a pair of those. */
  ghost predicate SpellsChar(e: string, c: char) {
    || (IsUtf8(e, c) && ' ' <= c && c != '"' && c != '\\')
    || (|e| == 2 && e[0] == '\\' && Escapes(e[1], c))
    || Unit(e, c as int)
    || (|e| == 12 && exists hi, lo :: Pair(e, hi, lo) && c as int == 0x10000 + (hi - 0xD800) * 0x400 + (lo - 0xDC00))
  }

  ghost predicate SpellsAll(body: string, s: string)
    decreases |s|
  {
    if s == "" then body == ""
    else exists k :: 0 < k <= |body| && SpellsChar(body[..k], s[0]) && SpellsAll(body[k..], s[1..])
  }

  /** raw is a string literal that spells s. */
  ghost predicate SpellsText(raw: string, s: string) {
    |raw| >= 2 && raw[0] == '"' && raw[|raw| - 1] == '"' && SpellsAll(raw[1..|raw| - 1], s)
  }

  // ---- Numbers: section 6 of RFC 8259 ----

  /** ds are the decimal digits of n, the last one first taken off. */
  predicate Numeral(ds: string, n: int)
    decreases |ds|
  {
    && ds != "" && '0' <= ds[|ds| - 1] <= '9'
    && var v := ds[|ds| - 1] as int - '0' as int;
    if |ds| == 1 then n == v else Numeral(ds[..|ds| - 1], n / 10) && n == n / 10 * 10 + v
  }

  /** raw is a JSON number without fraction or exponent that denotes i. */
  predicate SpellsInt(raw: string, i: int) {
    var negative := raw != "" && raw[0] == '-';
    var ds := if negative then raw[1..] else raw;
    Numeral(ds, if negative then -i else i) && (ds[0] != '0' || |ds| == 1)
  }

  // ---- Objects: section 4 of RFC 8259, with the members of In ----

  /** tok is raw with blanks around it. */
  ghost predicate Padded(tok: string, raw: string) {
    exists i, j :: PaddedAt(tok, raw, i, j)
  }

  predicate PaddedAt(tok: string, raw: string, i: nat, j: nat) {
    i <= j <= |tok| && tok[i..j] == raw && Blank(tok[..i]) && Blank(tok[j..])
  }

  ghost predicate SaysText(raw: string, s: string) {
    SpellsText(raw, s) || (raw == "null" && s == "")
  }

  predicate SaysInt(raw: string, i: int) {
    SpellsInt(raw, i) || (raw == "null" && i == 0)
  }

  predicate SaysBool(raw: string, v: Option<bool>) {
    (raw == "true" && v == Some(true)) || (raw == "false" && v == Some(false)) || (raw == "null" && v == None)
  }

  /** The member with this name and value is true of m. */
  ghost predicate SaysMember(m: In, key: string, raw: string) {
    || (key == "t" && SaysText(raw, m.t)) || (key == "devid" && SaysText(raw, m.devid))
    || (key == "name" && SaysText(raw, m.name)) || (key == "platform" && SaysText(raw, m.platform))
    || (key == "ver" && SaysText(raw, m.ver)) || (key == "proof" && SaysText(raw, m.proof))
    || (key == "dx" && SaysInt(raw, m.dx)) || (key == "dy" && SaysInt(raw, m.dy))
    || (key == "x" && SaysInt(raw, m.x)) || (key == "y" && SaysInt(raw, m.y))
    || (key == "b" && SaysText(raw, m.b)) || (key == "down" && SaysBool(raw, m.down))
    || (key == "s" && SaysText(raw, m.s)) || (key == "code" && SaysInt(raw, m.code))
    || (key == "mods" && SaysInt(raw, m.mods)) || (key == "ts" && SaysInt(raw, m.ts))
  }

  /** What is not among the names is zero. */
  predicate OnlyThese(m: In, keys: seq<string>) {
    && ("t" in keys || m.t == "") && ("devid" in keys || m.devid == "") && ("name" in keys || m.name == "")
    && ("platform" in keys || m.platform == "") && ("ver" in keys || m.ver == "") && ("proof" in keys || m.proof == "")
    && ("dx" in keys || m.dx == 0) && ("dy" in keys || m.dy == 0) && ("x" in keys || m.x == 0) && ("y" in keys || m.y == 0)
    && ("b" in keys || m.b == "") && ("down" in keys || m.down == None) && ("s" in keys || m.s == "")
    && ("code" in keys || m.code == 0) && ("mods" in keys || m.mods == 0) && ("ts" in keys || m.ts == 0)
  }

  /** Equal but for capital letters, among which Unicode counts the long s and the Kelvin sign. */
  predicate SameName(key: string, name: string) {
    |key| == |name| && forall i :: 0 <= i < |key| ==> SameLetter(key[i], name[i])
  }

  predicate SameLetter(b: char, c: char) {
    || b == c || ('A' <= b <= 'Z' && b as int + 32 == c as int)
    || (b as int == 0x17F && c == 's') || (b as int == 0x212A && c == 'k')
  }

  predicate IsText(name: string) {
    name in ["t", "devid", "name", "platform", "ver", "proof", "b", "s"]
  }

  predicate IsInteger(name: string) {
    name in ["dx", "dy", "x", "y", "code", "mods", "ts"]
  }

  /** The name of some member of In. */
  predicate Known(name: string) {
    IsText(name) || IsInteger(name) || name == "down"
  }

  /** The token, blanks included, is a literal that spells key. */
  ghost predicate IsName(tok: string, key: string) {
    exists raw :: Padded(tok, raw) && SpellsText(raw, key)
  }

  /** The tokens of one member of m, blanks around them included. */
  ghost predicate SaysToken(m: In, tok: Member, name: string) {
    && (exists key :: IsName(tok.name, key) && SameName(key, name))
    && (exists raw :: Padded(tok.raw, raw) && SaysMember(m, name, raw))
  }

  /** The tokens of a member that In does not have. */
  ghost predicate Foreign(tok: Member) {
    && (exists key :: IsName(tok.name, key) && forall name :: Known(name) ==> !SameName(key, name))
    && Item(tok.raw)
  }

  /** These members, in this order, are those of m, foreign ones aside, and no other field is set. */
  ghost predicate SaysMembers(m: In, toks: seq<Member>, keys: seq<string>) {
    && |toks| == |keys|
    && (forall i :: 0 <= i < |toks| ==> SaysToken(m, toks[i], keys[i]) || (Foreign(toks[i]) && keys[i] == ""))
    && OnlyThese(m, keys)
  }

  /** The text is one object with these members and blanks anywhere. */
  ghost predicate IsObject(line: string, toks: seq<Member>) {
    exists before, inside, after :: IsObjectIn(line, toks, before, inside, after)
  }

  predicate IsObjectIn(line: string, toks: seq<Member>, before: string, inside: string, after: string) {
    && Blank(before) && Blank(inside) && Blank(after)
    && line == before + "{" + (if toks == [] then inside + "}" else Join(toks)) + after
  }

  /** The text is one object whose members are, in any order and any spelling, those of m. */
  ghost predicate SaysRecord(line: string, m: In) {
    exists toks, keys :: IsObject(line, toks) && SaysMembers(m, toks, keys)
  }

  /** A value that the member with this name can take. */
  ghost predicate Suits(name: string, raw: string) {
    || raw == "null"
    || (IsText(name) && raw != "" && raw[0] == '"')
    || (IsInteger(name) && exists n :: SpellsInt(raw, n) && -0x8000_0000_0000_0000 <= n < 0x8000_0000_0000_0000)
    || (name == "down" && (raw == "true" || raw == "false"))
  }

  /** The value in this token suits the member that key stands for, if there is one. */
  ghost predicate Fits(key: string, tok: string) {
    exists raw :: Padded(tok, raw) && ValueText(raw) && forall name :: Known(name) && SameName(key, name) ==> Suits(name, raw)
  }
}
