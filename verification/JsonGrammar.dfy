/** The grammar of RFC 8259 over texts of bytes; a string may hold any bytes from a space on. */
module JsonGrammar {
  predicate Blank(w: string) {
    forall i :: 0 <= i < |w| ==> w[i] == ' ' || w[i] == '\t' || w[i] == '\n' || w[i] == '\r'
  }

  predicate HexText(b: char) {
    '0' <= b <= '9' || 'a' <= b <= 'f' || 'A' <= b <= 'F'
  }

  /** Section 7: what may stand between the quotes of a string. */
  predicate StringBody(b: string)
    decreases |b|
  {
    if b == "" then true
    else if b[0] == '\\' then
      (|b| >= 2 && b[1] in ['"', '\\', '/', 'b', 'f', 'n', 'r', 't'] && StringBody(b[2..]))
      || (|b| >= 6 && b[1] == 'u' && HexText(b[2]) && HexText(b[3]) && HexText(b[4]) && HexText(b[5]) && StringBody(b[6..]))
    else b[0] >= ' ' && b[0] != '"' && StringBody(b[1..])
  }

  predicate StringText(s: string) {
    |s| >= 2 && s[0] == '"' && s[|s| - 1] == '"' && StringBody(s[1..|s| - 1])
  }

  /** Section 6. */
  predicate Numerals(s: string) {
    s != "" && forall i :: 0 <= i < |s| ==> '0' <= s[i] <= '9'
  }

  predicate NatText(s: string) {
    s == "0" || (Numerals(s) && s[0] != '0')
  }

  predicate IntText(s: string) {
    s != "" && if s[0] == '-' then NatText(s[1..]) else NatText(s)
  }

  predicate FractionText(s: string) {
    s == "" || (s[0] == '.' && Numerals(s[1..]))
  }

  predicate ExponentText(s: string) {
    s == "" || (|s| > 1 && (s[0] == 'e' || s[0] == 'E') && Numerals(if s[1] == '+' || s[1] == '-' then s[2..] else s[1..]))
  }

  predicate NumberAt(s: string, i: nat, j: nat) {
    i <= j <= |s| && IntText(s[..i]) && FractionText(s[i..j]) && ExponentText(s[j..])
  }

  ghost predicate NumberText(s: string) {
    exists i, j :: NumberAt(s, i, j)
  }

  /** Section 3. */
  predicate WordText(s: string) {
    s == "true" || s == "false" || s == "null"
  }

  ghost predicate ValueText(s: string)
    decreases |s|, 1
  {
    || WordText(s) || StringText(s) || NumberText(s)
    || (|s| >= 2 && s[0] == '[' && s[|s| - 1] == ']' && (Blank(s[1..|s| - 1]) || Elements(s[1..|s| - 1])))
    || (|s| >= 2 && s[0] == '{' && s[|s| - 1] == '}' && (Blank(s[1..|s| - 1]) || MembersText(s[1..|s| - 1])))
  }

  /** A value with blanks around it: section 2. */
  ghost predicate Item(t: string)
    decreases |t|, 2
  {
    exists i, j :: 0 <= i <= j <= |t| && Blank(t[..i]) && Blank(t[j..]) && ValueText(t[i..j])
  }

  /** Section 5. */
  ghost predicate Elements(t: string)
    decreases |t|, 3
  {
    Item(t) || exists k :: 0 <= k < |t| && t[k] == ',' && Item(t[..k]) && Elements(t[k + 1..])
  }

  ghost predicate NameText(t: string) {
    exists i, j :: 0 <= i <= j <= |t| && Blank(t[..i]) && Blank(t[j..]) && StringText(t[i..j])
  }

  /** Section 4. */
  ghost predicate PairText(t: string)
    decreases |t|, 3
  {
    exists k :: 0 <= k < |t| && t[k] == ':' && NameText(t[..k]) && Item(t[k + 1..])
  }

  ghost predicate MembersText(t: string)
    decreases |t|, 4
  {
    PairText(t) || exists k :: 0 <= k < |t| && t[k] == ',' && PairText(t[..k]) && MembersText(t[k + 1..])
  }

  ghost predicate IsJson(s: string) {
    Item(s)
  }
}
