/** The two encodings of text the code meets. A Dafny `char` is a Unicode scalar value,
    while a JavaScript string is a sequence of UTF-16 code units: `.length`, `charAt` and
    `substring` count and cut code units. bcrypt hashes the UTF-8 bytes of a password. */
module Unicode {

  type Byte = x: int | 0 <= x < 0x100

  type CodeUnit = x: int | 0 <= x < 0x1_0000

  /** A character outside the Basic Multilingual Plane, written as a surrogate pair. */
  predicate Suplementario(c: char) {
    c as int > 0xFFFF
  }

  /** Text whose every character is one code unit. */
  predicate SoloBmp(s: string) {
    forall i :: 0 <= i < |s| ==> !Suplementario(s[i])
  }

  /** The code units of one character: itself, or a high and a low surrogate. */
  function Utf16Char(c: char): (u: seq<CodeUnit>)
    ensures |u| == (if Suplementario(c) then 2 else 1)
    ensures !Suplementario(c) ==> u[0] == c as int
    ensures Suplementario(c) ==> 0xD800 <= u[0] <= 0xDBFF && 0xDC00 <= u[1] <= 0xDFFF
  {
    if c as int <= 0xFFFF then [c as int]
    else
      var v := c as int - 0x1_0000;
      [0xD800 + v / 0x400, 0xDC00 + v % 0x400]
  }

  /** The JavaScript string holding `s`. */
  function Utf16(s: string): seq<CodeUnit>
    decreases |s|
  {
    if s == [] then [] else Utf16Char(s[0]) + Utf16(s[1..])
  }

  lemma {:induction false} Utf16Append(a: string, b: string)
    ensures Utf16(a + b) == Utf16(a) + Utf16(b)
    decreases |a|
  {
    if a != [] {
      assert (a + b)[0] == a[0] && (a + b)[1..] == a[1..] + b;
      Utf16Append(a[1..], b);
      assert Utf16(a + b) == Utf16Char(a[0]) + Utf16(a[1..] + b);
    } else {
      assert a + b == b;
    }
  }

  /** Every character takes one or two code units, and exactly one in the BMP. */
  lemma {:induction false} Utf16Longitud(s: string)
    ensures |s| <= |Utf16(s)| <= 2 * |s|
    ensures SoloBmp(s) ==> |Utf16(s)| == |s| && forall i :: 0 <= i < |s| ==> Utf16(s)[i] == s[i] as int
    ensures |Utf16(s)| == |s| ==> SoloBmp(s)
    decreases |s|
  {
    if s != [] {
      Utf16Longitud(s[1..]);
      if SoloBmp(s) {
        assert SoloBmp(s[1..]) by {
          forall i | 0 <= i < |s| - 1 ensures !Suplementario(s[1..][i]) {
            assert s[1..][i] == s[i + 1];
          }
        }
        forall i | 0 <= i < |s| ensures Utf16(s)[i] == s[i] as int {
          if i > 0 {
            assert Utf16(s)[i] == Utf16(s[1..])[i - 1];
          }
        }
      }
      if |Utf16(s)| == |s| {
        forall i | 0 <= i < |s| ensures !Suplementario(s[i]) {
          if i > 0 {
            assert s[i] == s[1..][i - 1];
          }
        }
      }
    }
  }

  /** The UTF-8 bytes of one character. */
  function Utf8Char(c: char): (b: seq<Byte>)
    ensures 1 <= |b| <= 4
  {
    var x := c as int;
    if x < 0x80 then [x]
    else if x < 0x800 then [0xC0 + x / 0x40, 0x80 + x % 0x40]
    else if x < 0x1_0000 then [0xE0 + x / 0x1000, 0x80 + x / 0x40 % 0x40, 0x80 + x % 0x40]
    else [0xF0 + x / 0x4_0000, 0x80 + x / 0x1000 % 0x40, 0x80 + x / 0x40 % 0x40, 0x80 + x % 0x40]
  }

  /** The length of a UTF-8 sequence, read off its lead byte. */
  function LongitudSecuencia(lead: Byte): nat {
    if lead < 0x80 then 1 else if lead < 0xE0 then 2 else if lead < 0xF0 then 3 else 4
  }

  /** The code point a UTF-8 sequence of one to four bytes stands for. */
  function Valor(b: seq<Byte>): int
    requires 1 <= |b| <= 4
  {
    if |b| == 1 then b[0]
    else if |b| == 2 then (b[0] as int - 0xC0) * 0x40 + (b[1] as int - 0x80)
    else if |b| == 3 then ((b[0] as int - 0xE0) * 0x40 + (b[1] as int - 0x80)) * 0x40 + (b[2] as int - 0x80)
    else (((b[0] as int - 0xF0) * 0x40 + (b[1] as int - 0x80)) * 0x40 + (b[2] as int - 0x80)) * 0x40 + (b[3] as int - 0x80)
  }

  /** Splitting off six bits and putting them back gives the number again. */
  lemma Seis(x: nat)
    ensures x == x / 0x40 * 0x40 + x % 0x40
    ensures x / 0x40 / 0x40 == x / 0x1000
    ensures x / 0x1000 / 0x40 == x / 0x4_0000
  {
  }

  /** The lead byte tells the length, and the bytes tell the character. */
  lemma Utf8CharDecodifica(c: char)
    ensures |Utf8Char(c)| == LongitudSecuencia(Utf8Char(c)[0])
    ensures Valor(Utf8Char(c)) == c as int
  {
    var x := c as int;
    Seis(x);
    Seis(x / 0x40);
    Seis(x / 0x1000);
  }

  lemma Utf8CharInyectiva(c: char, d: char)
    requires Utf8Char(c) == Utf8Char(d)
    ensures c == d
  {
    Utf8CharDecodifica(c);
    Utf8CharDecodifica(d);
  }

  /** The UTF-8 bytes of `s`. */
  function Utf8(s: string): seq<Byte>
    decreases |s|
  {
    if s == [] then [] else Utf8Char(s[0]) + Utf8(s[1..])
  }

  lemma {:induction false} Utf8Append(a: string, b: string)
    ensures Utf8(a + b) == Utf8(a) + Utf8(b)
    decreases |a|
  {
    if a != [] {
      assert (a + b)[0] == a[0] && (a + b)[1..] == a[1..] + b;
      Utf8Append(a[1..], b);
      assert Utf8(a + b) == Utf8Char(a[0]) + Utf8(a[1..] + b);
    } else {
      assert a + b == b;
    }
  }

  /** Different texts have different UTF-8 bytes. */
  lemma {:induction false} Utf8Inyectiva(a: string, b: string)
    requires Utf8(a) == Utf8(b)
    ensures a == b
    decreases |a|
  {
    if a != [] && b != [] {
      var ca, cb := Utf8Char(a[0]), Utf8Char(b[0]);
      Utf8CharDecodifica(a[0]);
      Utf8CharDecodifica(b[0]);
      assert ca[0] == Utf8(a)[0] && cb[0] == Utf8(b)[0];
      assert ca == Utf8(a)[..|ca|] && cb == Utf8(b)[..|cb|];
      Utf8CharInyectiva(a[0], b[0]);
      assert Utf8(a[1..]) == Utf8(a)[|ca|..] && Utf8(b[1..]) == Utf8(b)[|cb|..];
      Utf8Inyectiva(a[1..], b[1..]);
      assert a == [a[0]] + a[1..] && b == [b[0]] + b[1..];
    }
  }

  /** ASCII text is its own UTF-8 encoding, one byte per character. */
  lemma {:induction false} Utf8Ascii(s: string)
    requires forall i :: 0 <= i < |s| ==> s[i] as int < 0x80
    ensures |Utf8(s)| == |s|
    ensures forall i :: 0 <= i < |s| ==> Utf8(s)[i] == s[i] as int
    decreases |s|
  {
    if s != [] {
      Utf8Ascii(s[1..]);
      forall i | 0 <= i < |s| ensures Utf8(s)[i] == s[i] as int {
        if i > 0 {
          assert Utf8(s)[i] == Utf8(s[1..])[i - 1];
        }
      }
    }
  }
}
