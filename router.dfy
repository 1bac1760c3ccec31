/** Express routing: a router tries its routes in the order they are declared and runs
    the first whose method and path pattern match the request. */
module Enrutador {
  import opened Wrappers

  datatype Metodo = Get | Post | Put | Patch | Delete

  /** One segment of a route path: a literal, or a parameter such as `:id`. */
  datatype Segmento = Lit(texto: string) | Param(nombre: string)

  /** A declared route: method, pattern, the handler it reaches and whether the
      authentication middleware runs before it. */
  datatype Ruta<A> = Ruta(metodo: Metodo, patron: seq<Segmento>, accion: A, autenticada: bool)

  /** An ASCII letter in lower case; every other character as it is. */
  function Plegar(c: char): (r: char)
    ensures 'A' <= c <= 'Z' ==> r as int == c as int + 32
    ensures !('A' <= c <= 'Z') ==> r == c
  {
    if 'A' <= c <= 'Z' then (c as int + 32) as char else c
  }

  /** Express matches paths case-insensitively. Route literals are ASCII, and a
      case-insensitive JavaScript regular expression without the `u` flag pairs an ASCII
      letter with its other case only. */
  predicate IgualSinCaso(a: string, b: string) {
    |a| == |b| && forall i :: 0 <= i < |a| ==> Plegar(a[i]) == Plegar(b[i])
  }

  /** The segments of a path, one per segment of the pattern: none is empty, and every
      literal segment is equal up to case. */
  predicate Segmentos(patron: seq<Segmento>, path: seq<string>) {
    && |patron| == |path|
    && forall i :: 0 <= i < |path| ==> path[i] != "" && (patron[i].Lit? ==> IgualSinCaso(patron[i].texto, path[i]))
  }

  /** A request path, split at `/`, matches a pattern when its segments do; routing is
      not strict, so one trailing `/` (a last empty segment) is accepted too. */
  predicate Coincide(patron: seq<Segmento>, path: seq<string>) {
    || Segmentos(patron, path)
    || (|path| == |patron| + 1 && path[|patron|] == "" && Segmentos(patron, path[..|patron|]))
  }

  /** `req.params`: each parameter bound to its segment, as text. */
  function Parametros(patron: seq<Segmento>, path: seq<string>): (r: map<string, string>)
    requires |patron| <= |path|
    ensures forall n :: n in r <==> exists i :: 0 <= i < |patron| && patron[i] == Param(n)
    decreases |patron|
  {
    if patron == [] then map[]
    else
      var n := |patron| - 1;
      var rest := Parametros(patron[..n], path[..n]);
      assert forall i :: 0 <= i < n ==> patron[..n][i] == patron[i];
      if patron[n].Param? then rest[patron[n].nombre := path[n]] else rest
  }

  /** The route a request reaches: the first one whose method and pattern match. */
  function Despachar<A>(rutas: seq<Ruta<A>>, metodo: Metodo, path: seq<string>): (r: Option<Ruta<A>>)
    ensures r.Some? ==> r.value in rutas && r.value.metodo == metodo && Coincide(r.value.patron, path)
    ensures r.None? <==> forall x :: x in rutas ==> !(x.metodo == metodo && Coincide(x.patron, path))
    decreases |rutas|
  {
    if rutas == [] then None
    else if rutas[0].metodo == metodo && Coincide(rutas[0].patron, path) then Some(rutas[0])
    else Despachar(rutas[1..], metodo, path)
  }

  /** Two patterns no path matches both of: different lengths, or literals that differ
      in more than case. */
  predicate Disjuntos(p: seq<Segmento>, q: seq<Segmento>) {
    |p| != |q| || exists i :: 0 <= i < |p| && p[i].Lit? && q[i].Lit? && !IgualSinCaso(p[i].texto, q[i].texto)
  }

  /** No two routes of the same method can match the same path. */
  predicate Inequivoca<A>(rutas: seq<Ruta<A>>) {
    forall i, j :: 0 <= i < j < |rutas| && rutas[i].metodo == rutas[j].metodo ==>
      Disjuntos(rutas[i].patron, rutas[j].patron)
  }

  lemma DisjuntosExcluyen(p: seq<Segmento>, q: seq<Segmento>, path: seq<string>)
    requires Disjuntos(p, q)
    ensures !(Coincide(p, path) && Coincide(q, path))
  {
  }

  /** In an unambiguous router every route is reached by every path its pattern matches:
      no route is hidden by one declared earlier. */
  lemma {:induction false} Alcanzable<A>(rutas: seq<Ruta<A>>, k: int, path: seq<string>)
    requires Inequivoca(rutas)
    requires 0 <= k < |rutas| && Coincide(rutas[k].patron, path)
    ensures Despachar(rutas, rutas[k].metodo, path) == Some(rutas[k])
    decreases |rutas|
  {
    if k > 0 {
      if rutas[0].metodo == rutas[k].metodo {
        DisjuntosExcluyen(rutas[0].patron, rutas[k].patron, path);
      }
      assert Inequivoca(rutas[1..]) by {
        forall i, j | 0 <= i < j < |rutas[1..]| && rutas[1..][i].metodo == rutas[1..][j].metodo
          ensures Disjuntos(rutas[1..][i].patron, rutas[1..][j].patron)
        {
          assert rutas[1..][i] == rutas[i + 1] && rutas[1..][j] == rutas[j + 1];
        }
      }
      Alcanzable(rutas[1..], k - 1, path);
    }
  }
}
