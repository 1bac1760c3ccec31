/** The analytics page of the client: the labels of the state and priority charts and
    the completion rate of the summary card. */
module AnalyticsPage {
  import opened Wrappers
  import Text
  import Seqs
  import Schema
  import TareaModel

  // ---------------------------------------------------------------------------
  // Chart labels

  /** `texto.split('_')`: the pieces between underscores, in order. */
  function Partir(s: string): (r: seq<string>)
    ensures |r| >= 1
    ensures forall i :: 0 <= i < |r| ==> '_' !in r[i]
    decreases |s|
  {
    if s == [] then [""]
    else
      var rest := Partir(s[1..]);
      if s[0] == '_' then [""] + rest
      else
        assert '_' !in rest[0];
        [[s[0]] + rest[0]] + rest[1..]
  }

  /** `parts.join(sep)`. */
  function Unir(parts: seq<string>, sep: char): string
    requires |parts| >= 1
    decreases |parts|
  {
    if |parts| == 1 then parts[0] else parts[0] + [sep] + Unir(parts[1..], sep)
  }

  /** Joining the pieces back with '_' gives the text that was split. */
  lemma {:induction false} PartirUnir(s: string)
    ensures Unir(Partir(s), '_') == s
    decreases |s|
  {
    if s != [] {
      var rest := Partir(s[1..]);
      PartirUnir(s[1..]);
      var r := Partir(s);
      if s[0] == '_' {
        assert r[1..] == rest;
      } else if |rest| == 1 {
        assert r == [[s[0]] + rest[0]];
      } else {
        assert r[1..] == rest[1..];
        assert Unir(rest, '_') == rest[0] + ['_'] + Unir(rest[1..], '_');
      }
    }
  }

  /** `palabra.charAt(0).toUpperCase() + palabra.slice(1).toLowerCase()`. */
  function Palabra(p: string): string {
    if p == "" then "" else [Text.Upper(p[0])] + Text.LowerAll(p[1..])
  }

  /** `capitalizarTexto`: split on '_', capitalise every piece, join with spaces. The
      label agrees with the character-by-character reading `PorCaracter`. */
  function CapitalizarTexto(texto: string): (r: string)
    ensures r == PorCaracter(texto)
  {
    UnirPalabras(Partir(texto));
    PartirUnir(texto);
    Unir(Seqs.MapSeq(Partir(texto), Palabra), ' ')
  }

  /** What `capitalizarTexto` does to the character at `i`: an underscore becomes a space,
      the first character of a word is upper-cased and every other one lower-cased. */
  function Caracter(s: string, i: int): char
    requires 0 <= i < |s|
  {
    if s[i] == '_' then ' '
    else if i == 0 || s[i - 1] == '_' then Text.Upper(s[i])
    else Text.Lower(s[i])
  }

  /** The character-by-character reading of the label, as a reference definition. */
  function PorCaracter(s: string): (r: string)
    ensures |r| == |s|
    ensures forall i :: 0 <= i < |s| ==> r[i] == Caracter(s, i)
  {
    seq(|s|, i requires 0 <= i < |s| => Caracter(s, i))
  }

  lemma PalabraPorCaracter(x: string)
    requires '_' !in x
    ensures Palabra(x) == PorCaracter(x)
  {
    if x != "" {
      var r := Palabra(x);
      forall i | 0 <= i < |x| ensures r[i] == Caracter(x, i) {
        assert x[i] in x;
        if i > 0 {
          assert x[i - 1] in x;
          assert r[i] == Text.LowerAll(x[1..])[i - 1];
        }
      }
    }
  }

  lemma PorCaracterJunto(x: string, y: string)
    requires '_' !in x
    ensures PorCaracter(x + ['_'] + y) == PorCaracter(x) + [' '] + PorCaracter(y)
  {
    var s := x + ['_'] + y;
    var a := PorCaracter(s);
    var b := PorCaracter(x) + [' '] + PorCaracter(y);
    forall i | 0 <= i < |s| ensures a[i] == b[i] {
      if i < |x| {
        assert s[i] == x[i];
        if i > 0 {
          assert s[i - 1] == x[i - 1];
        }
      } else if i > |x| {
        var j := i - |x| - 1;
        assert s[i] == y[j];
        if j > 0 {
          assert s[i - 1] == y[j - 1];
        }
      }
    }
  }

  lemma {:induction false} UnirPalabras(parts: seq<string>)
    requires |parts| >= 1
    requires forall i :: 0 <= i < |parts| ==> '_' !in parts[i]
    ensures Unir(Seqs.MapSeq(parts, Palabra), ' ') == PorCaracter(Unir(parts, '_'))
    decreases |parts|
  {
    var m := Seqs.MapSeq(parts, Palabra);
    PalabraPorCaracter(parts[0]);
    if |parts| > 1 {
      assert m[1..] == Seqs.MapSeq(parts[1..], Palabra);
      UnirPalabras(parts[1..]);
      PorCaracterJunto(parts[0], Unir(parts[1..], '_'));
    }
  }

  /** A label has the length of its text, and no underscore. */
  lemma CapitalizarSinGuiones(texto: string)
    ensures |CapitalizarTexto(texto)| == |texto|
    ensures '_' !in CapitalizarTexto(texto)
  {
    var r := CapitalizarTexto(texto);
    forall i | 0 <= i < |r| ensures r[i] != '_' {
      assert r[i] == Caracter(texto, i);
    }
  }

  /** A two-word text is labelled word by word. */
  lemma CapitalizarDosPalabras(x: string, y: string)
    requires '_' !in x && '_' !in y
    ensures CapitalizarTexto(x + ['_'] + y) == Palabra(x) + [' '] + Palabra(y)
  {
    PartirJunto(x, y);
    PartirPalabra(y);
    assert Partir(x + ['_'] + y) == [x, y];
    var palabras := Seqs.MapSeq([x, y], Palabra);
    assert palabras == [Palabra(x), Palabra(y)];
    assert palabras[1..] == [Palabra(y)];
    assert Unir(palabras, ' ') == Palabra(x) + [' '] + Unir([Palabra(y)], ' ');
  }

  /** The label of the state 'en_progreso'. */
  lemma EnProgreso(estado: string)
    requires estado == "en_progreso"
    ensures CapitalizarTexto(estado) == "En Progreso"
  {
    assert estado == "en" + ['_'] + "progreso";
    CapitalizarDosPalabras("en", "progreso");
    PalabrasEnProgreso();
  }

  lemma PalabrasEnProgreso()
    ensures Palabra("en") + [' '] + Palabra("progreso") == "En Progreso"
  {
  }

  /** A word without underscores is the only piece of its split. */
  lemma {:induction false} PartirPalabra(w: string)
    requires '_' !in w
    ensures Partir(w) == [w]
    decreases |w|
  {
    if w != [] {
      PartirPalabra(w[1..]);
      assert [w[0]] + w[1..] == w;
    }
  }

  /** Splitting `x_y`, with no underscore in `x`, gives `x` and then the pieces of `y`. */
  lemma {:induction false} PartirJunto(x: string, y: string)
    requires '_' !in x
    ensures Partir(x + ['_'] + y) == [x] + Partir(y)
    decreases |x|
  {
    var s := x + ['_'] + y;
    if x == [] {
      assert s[1..] == y;
    } else {
      assert s[1..] == x[1..] + ['_'] + y;
      PartirJunto(x[1..], y);
      assert [x[0]] + x[1..] == x;
    }
  }

  // ---------------------------------------------------------------------------
  // Completion rate

  /** `Math.round(n / d)` for exact rationals: the nearest integer, halves rounded up. */
  function Redondeo(n: nat, d: nat): (r: nat)
    requires d > 0
    ensures r * (2 * d) <= 2 * n + d < (r + 1) * (2 * d)
  {
    (2 * n + d) / (2 * d)
  }

  lemma Monotono(a: int, b: int, m: int)
    requires a <= b && m >= 0
    ensures a * m <= b * m
  {
    assert b * m == a * m + (b - a) * m;
  }

  /** At most `t` completions out of `t` tasks round to at most 100 per cent. */
  lemma RedondeoAcotado(c: nat, t: nat)
    requires 0 < t && c <= t
    ensures Redondeo(100 * c, t) <= 100
  {
    var r := Redondeo(100 * c, t);
    if r > 100 {
      Monotono(101, r, 2 * t);
    }
  }

  /** All `t` tasks completed round to exactly 100 per cent. */
  lemma RedondeoCompleto(t: nat)
    requires 0 < t
    ensures Redondeo(100 * t, t) == 100
  {
    var r := Redondeo(100 * t, t);
    RedondeoAcotado(t, t);
    if r < 100 {
      Monotono(r + 1, 100, 2 * t);
    }
  }

  /** The completion rate of the summary card: 0 without tasks, otherwise the completed
      tasks as a rounded percentage. A NULL `completadas` divides as 0. The rate never
      exceeds 100 while the completed tasks are among the total, and it is 100 when all
      of them are completed. */
  function TasaCompletado(e: TareaModel.Estadisticas): (r: nat)
    ensures e.totalTareas == 0 || e.completadas.None? ==> r == 0
    ensures e.completadas.Some? && e.completadas.value <= e.totalTareas ==> r <= 100
    ensures e.totalTareas > 0 && e.completadas == Some(e.totalTareas) ==> r == 100
  {
    if e.totalTareas > 0 then
      var c := if e.completadas.Some? then e.completadas.value else 0;
      assert c <= e.totalTareas ==> Redondeo(100 * c, e.totalTareas) <= 100 by {
        if c <= e.totalTareas {
          RedondeoAcotado(c, e.totalTareas);
        }
      }
      assert c == e.totalTareas ==> Redondeo(100 * c, e.totalTareas) == 100 by {
        if c == e.totalTareas {
          RedondeoCompleto(e.totalTareas);
        }
      }
      Redondeo(100 * c, e.totalTareas)
    else 0
  }

  /** The rate the client shows for the counters the server reports is 0 for a user
      without tasks and at most 100 otherwise, and it is 100 when every task is
      completed. */
  lemma TasaDeEstadisticas(tareas: seq<Schema.Tarea>, u: int, hoy: int)
    ensures var e := TareaModel.ObtenerEstadisticas(tareas, u, hoy);
      && TasaCompletado(e) <= 100
      && (e.totalTareas == 0 ==> TasaCompletado(e) == 0)
      && (e.totalTareas > 0 && e.completadas == Some(e.totalTareas) ==> TasaCompletado(e) == 100)
  {
    var e := TareaModel.ObtenerEstadisticas(tareas, u, hoy);
    if e.totalTareas > 0 {
      RedondeoAcotado(e.completadas.value, e.totalTareas);
      if e.completadas == Some(e.totalTareas) {
        RedondeoCompleto(e.totalTareas);
      }
    }
  }
}
