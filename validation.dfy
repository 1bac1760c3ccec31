/** The express-validator checks the routes declare: each check turns the field into the
    string it tests (see `Http.TextOf`) and adds one entry to the error list when it fails. */
module Validacion {
  import opened Text
  import opened Http
  import opened Unicode

  /** The outcome of a chain whose handler reads `validationResult`: the sanitized body
      and the errors, in the order the checks are declared. */
  datatype Checked<B> = Checked(body: B, errors: seq<FieldError>)

  /** `.trim()`: the field as a string without surrounding whitespace. */
  function Recortar(f: Field<string>): (r: string)
    ensures !f.Given? ==> r == ""
    ensures f.Given? ==> exists a :: StripsTo(f.value, a, r)
    ensures r == [] || (!IsSpace(r[0]) && !IsSpace(r[|r| - 1]))
  {
    if f.Given? then Trim(f.value) else ""
  }

  /** One check: no entry when it holds, the entry (`path`, `msg`) when it fails. */
  function Regla(holds: bool, path: string, msg: string): (r: seq<FieldError>)
    ensures holds <==> r == []
    ensures !holds ==> r == [FieldError(path, msg)]
  {
    if holds then [] else [FieldError(path, msg)]
  }

  /** `.notEmpty()`. */
  predicate NoVacio(s: string) {
    s != ""
  }

  /** U+FE0E and U+FE0F, the variation selectors `isLength` leaves out of its count. */
  predicate Selector(c: char) {
    c == '\U{FE0E}' || c == '\U{FE0F}'
  }

  /** The number of variation selectors in `s`. */
  function Selectores(s: string): nat
    decreases |s|
  {
    if s == [] then 0 else (if Selector(s[0]) then 1 else 0) + Selectores(s[1..])
  }

  /** The number of surrogate pairs in the JavaScript string of `s`. */
  function Pares(s: string): nat
    decreases |s|
  {
    if s == [] then 0 else (if Suplementario(s[0]) then 1 else 0) + Pares(s[1..])
  }

  /** The length validator.js `isLength` measures: the code units, less one per variation
      selector and one per surrogate pair. It is the number of characters that are not
      variation selectors. */
  function LongitudIsLength(s: string): (n: int)
    ensures n == |s| - Selectores(s) && 0 <= n <= |s|
  {
    ParesUtf16(s);
    SelectoresAcotados(s);
    |Utf16(s)| - Selectores(s) - Pares(s)
  }

  lemma {:induction false} ParesUtf16(s: string)
    ensures |Utf16(s)| == |s| + Pares(s)
    decreases |s|
  {
    if s != [] {
      ParesUtf16(s[1..]);
    }
  }

  lemma {:induction false} SelectoresAcotados(s: string)
    ensures Selectores(s) <= |s|
    ensures SoloBmp(s) ==> Pares(s) == 0
    decreases |s|
  {
    if s != [] {
      SelectoresAcotados(s[1..]);
      if SoloBmp(s) {
        assert SoloBmp(s[1..]) by {
          forall i | 0 <= i < |s| - 1 ensures !Suplementario(s[1..][i]) {
            assert s[1..][i] == s[i + 1];
          }
        }
      }
    }
  }

  /** Without variation selectors `isLength` counts every character. */
  lemma {:induction false} SinSelectores(s: string)
    requires forall i :: 0 <= i < |s| ==> !Selector(s[i])
    ensures LongitudIsLength(s) == |s|
    decreases |s|
  {
    if s != [] {
      SinSelectores(s[1..]);
    }
  }

  /** `.isLength({ min })`. */
  predicate LongitudMinima(s: string, min: nat) {
    LongitudIsLength(s) >= min
  }

  /** `.isIn(values)`. */
  predicate EnLista(s: string, values: seq<string>) {
    s in values
  }

  predicate EsHex(c: char) {
    ('0' <= c <= '9') || ('A' <= c <= 'F') || ('a' <= c <= 'f')
  }

  /** `.matches(/^#[0-9A-F]{6}$/i)`. */
  predicate ColorHex(s: string) {
    |s| == 7 && s[0] == '#' && forall i :: 1 <= i < 7 ==> EsHex(s[i])
  }

  /** `.optional()` followed by a check: a missing field passes, anything else (`null`
      included) must pass the check. */
  predicate Opcional(f: Field<string>, check: string -> bool) {
    f.Absent? || check(TextOf(f))
  }
}
