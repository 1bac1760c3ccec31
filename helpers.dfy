/** The client's formatting and validation helpers: the colour maps of the task badges,
    the overdue guard, e-mail and password checks, capitalisation and truncation. */
module Helpers {
  import opened Wrappers
  import Text
  import Validacion
  import opened Unicode
  import Schema
  import TareaModel

  // ---------------------------------------------------------------------------
  // Colour maps

  const ColorBaja: string := "#0891B2"
  const ColorPendiente: string := "#6B7280"

  const ColoresPrioridad: map<string, string> :=
    map["alta" := "#DC2626", "media" := "#EA580C", "baja" := ColorBaja]

  const ColoresEstado: map<string, string> :=
    map["pendiente" := ColorPendiente, "en_progreso" := "#D97706", "completada" := "#16A34A"]

  /** `colores[key] || fallback`: every colour in the maps is a non-empty string, so the
      fallback is taken exactly for a key the map does not hold; `None` is `null` or
      `undefined`. */
  function Color(colores: map<string, string>, key: Option<string>, fallback: string): string {
    if key.Some? && key.value in colores then colores[key.value] else fallback
  }

  /** `colorPrioridad`: the three priorities have their own colour, anything else gets
      the colour of 'baja'; every answer is a well-formed `#RRGGBB` colour. */
  function ColorPrioridad(prioridad: Option<string>): (r: string)
    ensures prioridad == Some("alta") ==> r == "#DC2626"
    ensures prioridad == Some("media") ==> r == "#EA580C"
    ensures prioridad !in [Some("alta"), Some("media")] ==> r == ColorBaja
    ensures Validacion.ColorHex(r)
  {
    Color(ColoresPrioridad, prioridad, ColorBaja)
  }

  /** `colorEstado`: the three states have their own colour, anything else gets the
      colour of 'pendiente'; every answer is a well-formed `#RRGGBB` colour. */
  function ColorEstado(estado: Option<string>): (r: string)
    ensures estado == Some("en_progreso") ==> r == "#D97706"
    ensures estado == Some("completada") ==> r == "#16A34A"
    ensures estado !in [Some("en_progreso"), Some("completada")] ==> r == ColorPendiente
    ensures Validacion.ColorHex(r)
  {
    Color(ColoresEstado, estado, ColorPendiente)
  }

  // ---------------------------------------------------------------------------
  // Overdue guard

  /** `estaVencida`: `diasRestantes` is the number of days `diasRestantes(fechaLimite)`
      computes from the clock. A missing or empty due date, or a completed task, is never
      overdue; otherwise the task is overdue exactly when the deadline has passed. */
  function EstaVencida(fechaLimite: Option<string>, estado: Option<string>, diasRestantes: int): (r: bool)
    ensures fechaLimite.None? || fechaLimite == Some("") || estado == Some("completada") ==> !r
    ensures fechaLimite.Some? && fechaLimite != Some("") && estado != Some("completada") ==>
      (r <==> diasRestantes < 0)
  {
    if fechaLimite.None? || fechaLimite == Some("") || estado == Some("completada") then false
    else diasRestantes < 0
  }

  /** The client's overdue badge against the server's `vencidas` count for the same row,
      on day `hoy`. The row reaches the client as JSON: `fecha` is NULL when the row has no
      `fecha_limite` and a non-empty date text otherwise, and `diasRestantes` is then the
      deadline minus today. With a due date and an `estado`, the two agree; both say no
      without a due date; a NULL `estado` is overdue to the client once the deadline has
      passed, while the server's condition is NULL for it and never counts it. */
  lemma VencidaComoServidor(t: Schema.Tarea, fecha: Option<string>, hoy: Schema.Day)
    requires fecha.None? <==> t.fechaLimite.None?
    requires fecha != Some("")
    ensures t.fechaLimite.None? ==>
      (forall dias :: !EstaVencida(fecha, t.estado, dias)) && !TareaModel.Vencida(hoy)(t)
    ensures t.fechaLimite.Some? && t.estado.Some? ==>
      (EstaVencida(fecha, t.estado, t.fechaLimite.value - hoy) <==> TareaModel.Vencida(hoy)(t))
    ensures t.fechaLimite.Some? && t.estado.None? ==>
      && (EstaVencida(fecha, t.estado, t.fechaLimite.value - hoy) <==> t.fechaLimite.value < hoy)
      && !TareaModel.Vencida(hoy)(t)
  {
  }

  // ---------------------------------------------------------------------------
  // E-mail check

  /** A character `[^\s@]` accepts. */
  predicate Comun(c: char) {
    !Text.IsSpace(c) && c != '@'
  }

  /** The strings `/^[^\s@]+@[^\s@]+\.[^\s@]+$/` matches: no whitespace, one '@' at `i`
      with text before it, and after it a '.' at `j` with text on both sides. */
  ghost predicate EmailBienFormado(email: string) {
    exists i, j :: 0 < i < j - 1 && j < |email| - 1 && email[i] == '@' && email[j] == '.' &&
      forall k :: 0 <= k < |email| && k != i ==> Comun(email[k])
  }

  /** The states of the automaton that recognises the regular expression: the local
      part is empty or not, the '@' was read, the domain holds text but no usable '.',
      a usable '.' was just read, the address is complete, or the input is refused. */
  datatype Estado = Inicio | Local | Arroba | Dominio | Punto | Completo | Rechazo

  function Paso(e: Estado, c: char): Estado {
    match e
    case Inicio => if Comun(c) then Local else Rechazo
    case Local => if c == '@' then Arroba else if Comun(c) then Local else Rechazo
    case Arroba => if Comun(c) then Dominio else Rechazo
    case Dominio => if c == '.' then Punto else if Comun(c) then Dominio else Rechazo
    case Punto => if Comun(c) then Completo else Rechazo
    case Completo => if Comun(c) then Completo else Rechazo
    case Rechazo => Rechazo
  }

  function Recorrer(s: string, e: Estado): Estado
    decreases |s|
  {
    if s == [] then e else Recorrer(s[1..], Paso(e, s[0]))
  }

  /** `validarEmail`: `regex.test(email)`, run as the automaton; it holds exactly for the
      strings the regular expression matches. Without the `u` flag the expression reads
      code units, but a surrogate half is never whitespace or '@', so reading characters
      accepts the same strings. */
  function ValidarEmail(email: string): (r: bool)
    ensures r <==> EmailBienFormado(email)
  {
    AutomataReconoce(email);
    Recorrer(email, Inicio) == Completo
  }

  predicate TodoComun(t: string) {
    forall k :: 0 <= k < |t| ==> Comun(t[k])
  }

  lemma {:induction false} RechazoFinal(t: string)
    ensures Recorrer(t, Rechazo) == Rechazo
    decreases |t|
  {
    if t != [] {
      RechazoFinal(t[1..]);
    }
  }

  lemma {:induction false} DesdeCompleto(t: string)
    ensures Recorrer(t, Completo) == Completo <==> TodoComun(t)
    decreases |t|
  {
    if t != [] {
      if Comun(t[0]) {
        DesdeCompleto(t[1..]);
        assert TodoComun(t) <==> TodoComun(t[1..]) by {
          if TodoComun(t[1..]) {
            forall k | 0 <= k < |t| ensures Comun(t[k]) {
              if k > 0 {
                assert t[k] == t[1..][k - 1];
              }
            }
          }
        }
      } else {
        RechazoFinal(t[1..]);
      }
    }
  }

  lemma DesdePunto(t: string)
    ensures Recorrer(t, Punto) == Completo <==> t != [] && TodoComun(t)
  {
    if t != [] {
      if Comun(t[0]) {
        DesdeCompleto(t[1..]);
        assert TodoComun(t) <==> TodoComun(t[1..]) by {
          if TodoComun(t[1..]) {
            forall k | 0 <= k < |t| ensures Comun(t[k]) {
              if k > 0 {
                assert t[k] == t[1..][k - 1];
              }
            }
          }
        }
      } else {
        RechazoFinal(t[1..]);
      }
    }
  }

  /** From `Dominio` the rest must be plain text holding a '.' with text after it. */
  lemma {:induction false} DesdeDominio(t: string)
    ensures Recorrer(t, Dominio) == Completo <==>
      TodoComun(t) && exists k :: 0 <= k < |t| - 1 && t[k] == '.'
    decreases |t|
  {
    if t != [] {
      var rest := t[1..];
      assert TodoComun(t) <==> Comun(t[0]) && TodoComun(rest) by {
        if Comun(t[0]) && TodoComun(rest) {
          forall k | 0 <= k < |t| ensures Comun(t[k]) {
            if k > 0 {
              assert t[k] == rest[k - 1];
            }
          }
        }
      }
      if t[0] == '.' {
        DesdePunto(rest);
        if rest != [] && TodoComun(rest) {
          assert 0 < |t| - 1 && t[0] == '.';
        }
      } else if Comun(t[0]) {
        DesdeDominio(rest);
        if exists k :: 0 <= k < |rest| - 1 && rest[k] == '.' {
          var k :| 0 <= k < |rest| - 1 && rest[k] == '.';
          assert t[k + 1] == '.';
        }
        if exists k :: 0 <= k < |t| - 1 && t[k] == '.' {
          var k :| 0 <= k < |t| - 1 && t[k] == '.';
          assert k > 0;
          assert rest[k - 1] == '.';
        }
      } else {
        RechazoFinal(rest);
      }
    }
  }

  /** Plain text with one '@' and, after it, text, a '.' and text. */
  ghost predicate ConArroba(t: string) {
    exists i, j :: 0 <= i < j - 1 && j < |t| - 1 && t[i] == '@' && t[j] == '.' &&
      forall k :: 0 <= k < |t| && k != i ==> Comun(t[k])
  }

  /** From `Local` the rest must be plain text with one '@' and, after it, text, a '.'
      and text. */
  lemma {:induction false} DesdeLocal(t: string)
    ensures Recorrer(t, Local) == Completo <==> ConArroba(t)
    decreases |t|
  {
    if t == [] {
    } else if t[0] == '@' {
      LocalArroba(t);
    } else if Comun(t[0]) {
      DesdeLocal(t[1..]);
      LocalComun(t);
    } else {
      RechazoFinal(t[1..]);
    }
  }

  /** The '@' itself, read in `Local`. */
  lemma LocalArroba(t: string)
    requires t != [] && t[0] == '@'
    ensures Recorrer(t, Local) == Completo <==> ConArroba(t)
  {
    var rest := t[1..];
    if rest == [] || !Comun(rest[0]) {
      if rest != [] {
        RechazoFinal(rest[1..]);
      }
      assert rest != [] ==> t[1] == rest[0];
    } else {
      var d := rest[1..];
      DesdeDominio(d);
      assert Recorrer(t, Local) == Recorrer(rest, Arroba);
      assert Recorrer(rest, Arroba) == Recorrer(d, Dominio);
      if TodoComun(d) && exists k :: 0 <= k < |d| - 1 && d[k] == '.' {
        var k :| 0 <= k < |d| - 1 && d[k] == '.';
        assert t[k + 2] == '.';
        forall m | 0 <= m < |t| && m != 0 ensures Comun(t[m]) {
          if m > 1 {
            assert t[m] == d[m - 2];
          }
        }
        assert 0 <= 0 < (k + 2) - 1 && k + 2 < |t| - 1;
      }
      if ConArroba(t) {
        var i, j :| 0 <= i < j - 1 && j < |t| - 1 && t[i] == '@' && t[j] == '.' &&
           forall k :: 0 <= k < |t| && k != i ==> Comun(t[k]);
        assert !Comun(t[0]);
        assert i == 0;
        assert d[j - 2] == '.';
        forall m | 0 <= m < |d| ensures Comun(d[m]) {
          assert d[m] == t[m + 2];
        }
      }
    }
  }

  /** A plain character read in `Local` leaves the automaton in `Local`. */
  lemma LocalComun(t: string)
    requires t != [] && Comun(t[0])
    requires Recorrer(t[1..], Local) == Completo <==> ConArroba(t[1..])
    ensures Recorrer(t, Local) == Completo <==> ConArroba(t)
  {
    var rest := t[1..];
    if ConArroba(rest) {
      var i, j :| 0 <= i < j - 1 && j < |rest| - 1 && rest[i] == '@' && rest[j] == '.' &&
         forall k :: 0 <= k < |rest| && k != i ==> Comun(rest[k]);
      assert t[i + 1] == '@' && t[j + 1] == '.';
      forall m | 0 <= m < |t| && m != i + 1 ensures Comun(t[m]) {
        if m > 0 {
          assert t[m] == rest[m - 1];
        }
      }
    }
    if ConArroba(t) {
      var i, j :| 0 <= i < j - 1 && j < |t| - 1 && t[i] == '@' && t[j] == '.' &&
         forall k :: 0 <= k < |t| && k != i ==> Comun(t[k]);
      assert i != 0;
      assert rest[i - 1] == '@' && rest[j - 1] == '.';
      forall m | 0 <= m < |rest| && m != i - 1 ensures Comun(rest[m]) {
        assert rest[m] == t[m + 1];
      }
    }
  }

  /** The automaton accepts exactly the strings the regular expression matches. */
  lemma AutomataReconoce(email: string)
    ensures Recorrer(email, Inicio) == Completo <==> EmailBienFormado(email)
  {
    if email != [] && Comun(email[0]) {
      var rest := email[1..];
      DesdeLocal(rest);
      if exists i, j :: 0 <= i < j - 1 && j < |rest| - 1 && rest[i] == '@' && rest[j] == '.' &&
           forall k :: 0 <= k < |rest| && k != i ==> Comun(rest[k]) {
        var i, j :| 0 <= i < j - 1 && j < |rest| - 1 && rest[i] == '@' && rest[j] == '.' &&
           forall k :: 0 <= k < |rest| && k != i ==> Comun(rest[k]);
        assert email[i + 1] == '@' && email[j + 1] == '.';
        forall m | 0 <= m < |email| && m != i + 1 ensures Comun(email[m]) {
          if m > 0 {
            assert email[m] == rest[m - 1];
          }
        }
      }
      if EmailBienFormado(email) {
        var i, j :| 0 < i < j - 1 && j < |email| - 1 && email[i] == '@' && email[j] == '.' &&
           forall k :: 0 <= k < |email| && k != i ==> Comun(email[k]);
        assert rest[i - 1] == '@' && rest[j - 1] == '.';
        forall m | 0 <= m < |rest| && m != i - 1 ensures Comun(rest[m]) {
          assert rest[m] == email[m + 1];
        }
      }
    } else if email != [] {
      RechazoFinal(email[1..]);
    }
  }

  /** An address with whitespace, or with two '@', is refused. */
  lemma EmailRechazos(email: string, k: int, m: int)
    requires 0 <= k < |email| && 0 <= m < |email| && k != m
    requires Text.IsSpace(email[k]) || (email[k] == '@' && email[m] == '@')
    ensures !ValidarEmail(email)
  {
  }

  // ---------------------------------------------------------------------------
  // Password check, capitalisation, truncation

  /** The minimum password length, the same the server's routes demand. */
  const LongitudPassword: nat := 6

  /** `validarPassword`: truthy exactly for a password of at least six UTF-16 code units
      (`.length`); `None` is `null` or `undefined`. Every password the server's length
      rule accepts passes. The two checks agree on text inside the Basic Multilingual
      Plane without variation selectors; a character outside it counts twice here, and a
      variation selector counts here but not on the server. */
  function ValidarPassword(password: Option<string>): (r: bool)
    ensures password.None? ==> !r
    ensures password.Some? && Validacion.LongitudMinima(password.value, LongitudPassword) ==> r
    ensures password.Some? && SoloBmp(password.value) && Validacion.Selectores(password.value) == 0 ==>
      (r <==> Validacion.LongitudMinima(password.value, LongitudPassword))
    ensures r ==> password.Some? && 2 * |password.value| >= LongitudPassword
  {
    if password.None? then false
    else
      Utf16Longitud(password.value);
      password.value != "" && |Utf16(password.value)| >= LongitudPassword
  }

  /** Three emoji are six code units: the client accepts the password, the server's rule
      of six characters refuses it. */
  lemma PasswordSuplementaria()
    ensures var p := "\U{1F600}\U{1F600}\U{1F600}";
      ValidarPassword(Some(p)) && !Validacion.LongitudMinima(p, LongitudPassword)
  {
    var c := '\U{1F600}';
    var p := "\U{1F600}\U{1F600}\U{1F600}";
    assert p == [c] + [c] + [c];
    Utf16Append([c] + [c], [c]);
    Utf16Append([c], [c]);
    assert |Utf16([c])| == 2;
    assert Validacion.Selectores(p) == 0 by {
      assert p[1..] == [c] + [c] && p[1..][1..] == [c];
    }
  }

  /** Five letters and U+FE0F are six code units and six characters: the client accepts
      the password, `isLength` counts five and the server refuses it. */
  lemma PasswordSelector()
    ensures var p := "abcde\U{FE0F}";
      ValidarPassword(Some(p)) && !Validacion.LongitudMinima(p, LongitudPassword)
  {
    var p := "abcde\U{FE0F}";
    Utf16Longitud(p);
    assert p[1..][1..][1..][1..][1..] == "\U{FE0F}";
  }

  /** `capitalizar`: '' for a missing or empty string; otherwise the first character
      upper-cased and the rest kept. When the first character lies outside the Basic
      Multilingual Plane, `charAt(0)` is its high surrogate, which `toUpperCase` leaves,
      so the text comes back unchanged. */
  function Capitalizar(s: Option<string>): (r: string)
    ensures s.None? || s == Some("") ==> r == ""
    ensures s.Some? && s.value != "" ==>
      |r| == |s.value| && r[0] == Text.Upper(s.value[0]) && r[1..] == s.value[1..]
    ensures s.Some? && s.value != "" && Suplementario(s.value[0]) ==> r == s.value
  {
    if s.None? || s.value == "" then "" else [Text.Upper(s.value[0])] + s.value[1..]
  }

  /** Capitalising twice is capitalising once. */
  lemma CapitalizarIdempotente(s: Option<string>)
    ensures Capitalizar(Some(Capitalizar(s))) == Capitalizar(s)
  {
    if s.Some? && s.value != "" {
      var c := s.value[0];
      assert Text.Upper(Text.Upper(c)) == Text.Upper(c) by {
        if Text.IsLowerLetter(c) {
          assert !Text.IsLowerLetter(Text.Upper(c));
        }
      }
      var r := Capitalizar(s);
      assert r == [Text.Upper(c)] + s.value[1..];
      assert Capitalizar(Some(r)) == [Text.Upper(r[0])] + r[1..];
    }
  }

  /** The default `maxLength` of `truncarTexto`. */
  const MaxPorDefecto: int := 100

  /** '...' as code units. */
  const Puntos: seq<CodeUnit> := [0x2E, 0x2E, 0x2E]

  /** `truncarTexto` on the code units of a JavaScript string: '' for a missing or empty
      text, the text itself when it fits, and otherwise its first `maxLength` code units
      followed by '...' (`substring` treats a negative length as 0). */
  function TruncarTexto(texto: Option<seq<CodeUnit>>, maxLength: int): (r: seq<CodeUnit>)
    ensures texto.None? || texto == Some([]) ==> r == []
    ensures texto.Some? && |texto.value| <= maxLength ==> r == texto.value
    ensures texto.Some? && texto.value != [] && |texto.value| > maxLength ==>
      var n := if maxLength < 0 then 0 else maxLength;
      |r| == n + |Puntos| && r[..n] == texto.value[..n] && r[n..] == Puntos
  {
    if texto.None? || texto.value == [] then []
    else if |texto.value| <= maxLength then texto.value
    else texto.value[..if maxLength < 0 then 0 else maxLength] + Puntos
  }

  /** Truncating an already truncated text changes nothing. */
  lemma TruncarIdempotente(texto: Option<seq<CodeUnit>>, maxLength: nat)
    ensures TruncarTexto(Some(TruncarTexto(texto, maxLength)), maxLength) == TruncarTexto(texto, maxLength)
  {
    var r := TruncarTexto(texto, maxLength);
    if texto.Some? && texto.value != [] && |texto.value| > maxLength {
      assert r[..maxLength] == texto.value[..maxLength];
      assert TruncarTexto(Some(r), maxLength) == r[..maxLength] + Puntos;
      assert r == r[..maxLength] + r[maxLength..];
    }
  }

  /** Cut where a character ends, the text of `s` becomes its first `k` characters
      followed by '...'; for text inside the Basic Multilingual Plane every cut is such. */
  lemma TruncarEnCaracter(s: string, k: nat)
    requires 0 <= k < |s|
    ensures TruncarTexto(Some(Utf16(s)), |Utf16(s[..k])|) == Utf16(s[..k] + "...")
    ensures SoloBmp(s) ==> |Utf16(s[..k])| == k
  {
    Utf16Longitud(s[..k]);
    if SoloBmp(s) {
      assert SoloBmp(s[..k]) by {
        forall i | 0 <= i < k ensures !Suplementario(s[..k][i]) {
          assert s[..k][i] == s[i];
        }
      }
    }
    assert s == s[..k] + s[k..];
    Utf16Append(s[..k], s[k..]);
    Utf16Longitud(s[k..]);
    Utf16Append(s[..k], "...");
    assert Utf16("...") == Puntos;
    var t := Utf16(s);
    assert t[..|Utf16(s[..k])|] == Utf16(s[..k]);
  }

  /** A limit that falls inside a surrogate pair keeps its high half alone: `'\U{1F600}'`
      cut to one code unit is a lone high surrogate followed by '...', which no string of
      characters encodes. */
  lemma TruncarParteSurrogado(c: char)
    requires Suplementario(c)
    ensures var r := TruncarTexto(Some(Utf16([c])), 1);
      |r| == 4 && 0xD800 <= r[0] <= 0xDBFF && r[1..] == Puntos
  {
    assert Utf16([c]) == Utf16Char(c) + Utf16([]);
  }
}
