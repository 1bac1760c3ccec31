/** Character-level string functions the JavaScript code relies on: the `\s` class of
    regular expressions (used by validator.js `trim` and by the client's e-mail regex),
    `toUpperCase`/`toLowerCase`, and number-to-string conversion in template literals. */
module Text {

  /** Membership in JavaScript's `\s` class (ECMAScript WhiteSpace and LineTerminator). */
  predicate IsSpace(c: char) {
    || ('\t' <= c <= '\r') || c == ' ' || c == '\U{A0}' || c == '\U{1680}'
    || ('\U{2000}' <= c <= '\U{200A}') || ('\U{2028}' <= c <= '\U{2029}')
    || c == '\U{202F}' || c == '\U{205F}' || c == '\U{3000}' || c == '\U{FEFF}'
  }

  /** Drops leading whitespace. */
  function TrimStart(s: string): (r: string)
    ensures |r| <= |s| && r == s[|s| - |r|..]
    ensures forall i :: 0 <= i < |s| - |r| ==> IsSpace(s[i])
    ensures r == [] || !IsSpace(r[0])
    decreases |s|
  {
    if s != [] && IsSpace(s[0]) then TrimStart(s[1..]) else s
  }

  /** Drops trailing whitespace. */
  function TrimEnd(s: string): (r: string)
    ensures |r| <= |s| && r == s[..|r|]
    ensures forall i :: |r| <= i < |s| ==> IsSpace(s[i])
    ensures r == [] || !IsSpace(r[|r| - 1])
    decreases |s|
  {
    if s != [] && IsSpace(s[|s| - 1]) then TrimEnd(s[..|s| - 1]) else s
  }

  /** `r` is `s` with `a` characters of whitespace removed in front and only whitespace
      removed behind. */
  ghost predicate StripsTo(s: string, a: int, r: string) {
    && 0 <= a <= |s| - |r|
    && r == s[a..a + |r|]
    && (forall i :: 0 <= i < a ==> IsSpace(s[i]))
    && (forall i :: a + |r| <= i < |s| ==> IsSpace(s[i]))
  }

  /** validator.js `trim()`: whitespace removed from both ends, nothing else changed. */
  function Trim(s: string): (r: string)
    ensures exists a :: StripsTo(s, a, r)
    ensures r == [] || (!IsSpace(r[0]) && !IsSpace(r[|r| - 1]))
  {
    var t := TrimStart(s);
    var r := TrimEnd(t);
    var a := |s| - |t|;
    assert r == s[a..a + |r|];
    assert r != [] ==> r[0] == t[0];
    assert StripsTo(s, a, r);
    r
  }

  predicate IsLowerLetter(c: char) {
    ('a' <= c <= 'z') || ('\U{E0}' <= c <= '\U{FE}' && c != '\U{F7}')
  }

  predicate IsUpperLetter(c: char) {
    ('A' <= c <= 'Z') || ('\U{C0}' <= c <= '\U{DE}' && c != '\U{D7}')
  }

  /** `toUpperCase` on one character, for the letters of ASCII and Latin-1 whose upper
      case is one character: most move 32 places, 'ÿ' becomes 'Ÿ' (U+0178) and 'µ'
      becomes 'Μ' (U+039C); every other character is left as it is. */
  function Upper(c: char): (r: char)
    ensures IsLowerLetter(c) ==> r as int == c as int - 32 && IsUpperLetter(r)
    ensures c == '\U{FF}' ==> r == '\U{178}'
    ensures c == '\U{B5}' ==> r == '\U{39C}'
    ensures !IsLowerLetter(c) && c != '\U{FF}' && c != '\U{B5}' ==> r == c
  {
    if IsLowerLetter(c) then (c as int - 32) as char
    else if c == '\U{FF}' then '\U{178}'
    else if c == '\U{B5}' then '\U{39C}'
    else c
  }

  /** `toLowerCase` on one character, the inverse mapping of `Upper`. */
  function Lower(c: char): (r: char)
    ensures IsUpperLetter(c) ==> r as int == c as int + 32 && IsLowerLetter(r)
    ensures !IsUpperLetter(c) ==> r == c
  {
    if IsUpperLetter(c) then (c as int + 32) as char else c
  }

  /** `toLowerCase` on a string. */
  function LowerAll(s: string): (r: string)
    ensures |r| == |s|
    ensures forall i :: 0 <= i < |s| ==> r[i] == Lower(s[i])
    decreases |s|
  {
    if s == [] then [] else [Lower(s[0])] + LowerAll(s[1..])
  }

  function Digit(d: nat): (c: char)
    requires d < 10
    ensures '0' <= c <= '9'
  {
    ('0' as int + d) as char
  }

  /** The decimal digits of a natural number, most significant first. */
  function NatToString(n: nat): (r: string)
    ensures |r| >= 1
    ensures forall i :: 0 <= i < |r| ==> '0' <= r[i] <= '9'
    decreases n
  {
    if n < 10 then [Digit(n)] else NatToString(n / 10) + [Digit(n % 10)]
  }

  /** `${n}` for an integer. */
  function IntToString(n: int): string {
    if n < 0 then "-" + NatToString(-n) else NatToString(n)
  }
}
