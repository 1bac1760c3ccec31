/** `ActividadModel`: the activity log `actividad_usuario`. Its only statement that writes
    is an INSERT, so the log only grows. */
module ActividadModel {
  import opened Wrappers
  import opened Seqs
  import opened Sorting
  import opened Grouping
  import opened Schema

  /** `usuario_id = u`. */
  function Propias(u: int): Actividad -> bool {
    (a: Actividad) => a.usuarioId == u
  }

  function Fecha(a: Actividad): int {
    a.fechaActividad
  }

  function Tipo(a: Actividad): string {
    a.tipoActividad
  }

  /** The default of `obtenerReciente`'s `limite`. */
  const LimitePorDefecto: nat := 10

  /** `registrar`: appends one entry of `usuarioId`, stamped `now`; `detalles` defaults
      to NULL. */
  method Registrar(db: Database, usuarioId: int, tipoActividad: string, detalles: Option<string>, now: Instant)
    returns (r: Result<int, DbError>)
    requires db.Valid()
    modifies db`actividad, db`nextActividadId
    ensures db.Valid()
    ensures !db.available ==>
      && r == Err(ConnectionLost)
      && db.actividad == old(db.actividad) && db.nextActividadId == old(db.nextActividadId)
    ensures db.available ==>
      && r == Ok(old(db.nextActividadId))
      && db.nextActividadId == old(db.nextActividadId) + 1
      && db.actividad == old(db.actividad)
                         + [Actividad(old(db.nextActividadId), usuarioId, tipoActividad, detalles, now)]
  {
    if !db.available {
      return Err(ConnectionLost);
    }
    var a := Actividad(db.nextActividadId, usuarioId, tipoActividad, detalles, now);
    KeyedAppend(db.actividad, ActividadId, db.nextActividadId, a);
    db.actividad := db.actividad + [a];
    db.nextActividadId := db.nextActividadId + 1;
    r := Ok(a.id);
  }

  /** The caller's entries, newest first. */
  function Recientes(actividad: seq<Actividad>, u: int): (r: seq<Actividad>)
    ensures |r| == |Filter(actividad, Propias(u))|
    ensures forall a :: a in r <==> a in actividad && a.usuarioId == u
    ensures forall i, j :: 0 <= i < j < |r| ==> r[i].fechaActividad >= r[j].fechaActividad
  {
    var f := Filter(actividad, Propias(u));
    var r := SortDescBy(f, Fecha);
    SameElements(r, f);
    r
  }

  /** `obtenerReciente`: the caller's newest `limite` entries (10 when not given), newest
      first. */
  function ObtenerReciente(actividad: seq<Actividad>, u: int, limite: Option<nat>): (r: seq<Actividad>)
    ensures var n := if limite.Some? then limite.value else LimitePorDefecto;
      var propias := |Filter(actividad, Propias(u))|;
      |r| == (if propias <= n then propias else n)
    ensures forall a :: a in r ==> a in actividad && a.usuarioId == u
    ensures forall i, j :: 0 <= i < j < |r| ==> r[i].fechaActividad >= r[j].fechaActividad
    ensures forall a, b :: a in actividad && a.usuarioId == u && a !in r && b in r ==>
      b.fechaActividad >= a.fechaActividad
  {
    var n := if limite.Some? then limite.value else LimitePorDefecto;
    var s := Recientes(actividad, u);
    TakeKeepsLargest(s, Fecha, n);
    Take(s, n)
  }

  /** `MAX(fecha_actividad)` over `rows`: NULL for no rows. */
  function Ultima(rows: seq<Actividad>): (r: Option<Instant>)
    ensures r.None? <==> rows == []
    ensures r.Some? ==> exists a :: a in rows && a.fechaActividad == r.value
    ensures r.Some? ==> forall a :: a in rows ==> a.fechaActividad <= r.value
    decreases |rows|
  {
    if rows == [] then None
    else
      var rest := Ultima(rows[1..]);
      if rest.None? || rows[0].fechaActividad >= rest.value then Some(rows[0].fechaActividad) else rest
  }

  /** A row of `obtenerEstadisticas`. */
  datatype EstadisticaActividad = EstadisticaActividad(tipoActividad: string, total: nat,
                                                       ultimaActividad: Option<Instant>)

  function Fila(propias: seq<Actividad>): ((string, nat)) -> EstadisticaActividad {
    (g: (string, nat)) => EstadisticaActividad(g.0, g.1, Ultima(Filter(propias, Con(Tipo, g.0))))
  }

  /** `obtenerEstadisticas`: `GROUP BY tipo_actividad` over the caller's entries with the
      count and the latest date of each group: a group exists only for a type the caller
      logged, so every row counts at least one entry and has a latest date. */
  function ObtenerEstadisticas(actividad: seq<Actividad>, u: int): (r: seq<EstadisticaActividad>)
    ensures forall i :: 0 <= i < |r| ==> r[i].total >= 1 && r[i].ultimaActividad.Some?
  {
    var propias := Filter(actividad, Propias(u));
    GroupCountCounts(propias, Tipo);
    MapSeq(GroupCount(propias, Tipo), Fila(propias))
  }

  function Conteo(e: EstadisticaActividad): (string, nat) {
    (e.tipoActividad, e.total)
  }

  /** No type of activity gets two rows. */
  lemma EstadisticasDistintas(actividad: seq<Actividad>, u: int)
    ensures var r := ObtenerEstadisticas(actividad, u);
      forall i, j :: 0 <= i < |r| && 0 <= j < |r| && i != j ==> r[i].tipoActividad != r[j].tipoActividad
  {
    var propias := Filter(actividad, Propias(u));
    GroupCountDistinct(propias, Tipo);
  }

  /** Each row counts the caller's entries of its type (at least one) and carries the date
      of the latest of them. */
  lemma EstadisticasFilas(actividad: seq<Actividad>, u: int, i: int)
    requires 0 <= i < |ObtenerEstadisticas(actividad, u)|
    ensures var e := ObtenerEstadisticas(actividad, u)[i];
      var grupo := Filter(Filter(actividad, Propias(u)), Con(Tipo, e.tipoActividad));
      && e.total == |grupo| >= 1
      && e.ultimaActividad.Some?
      && (forall a :: a in actividad && a.usuarioId == u && a.tipoActividad == e.tipoActividad ==>
            a.fechaActividad <= e.ultimaActividad.value)
      && (exists a :: a in actividad && a.usuarioId == u && a.tipoActividad == e.tipoActividad
            && a.fechaActividad == e.ultimaActividad.value)
  {
    var propias := Filter(actividad, Propias(u));
    var g := GroupCount(propias, Tipo);
    GroupCountCounts(propias, Tipo);
    var grupo := Filter(propias, Con(Tipo, g[i].0));
    var e := ObtenerEstadisticas(actividad, u)[i];
    assert e == EstadisticaActividad(g[i].0, g[i].1, Ultima(grupo));
    UltimaDelTipo(actividad, u, g[i].0);
  }

  /** The latest date of a non-empty group of the caller's entries of type `t`. */
  lemma UltimaDelTipo(actividad: seq<Actividad>, u: int, t: string)
    requires Filter(Filter(actividad, Propias(u)), Con(Tipo, t)) != []
    ensures var ultima := Ultima(Filter(Filter(actividad, Propias(u)), Con(Tipo, t)));
      && ultima.Some?
      && (forall a :: a in actividad && a.usuarioId == u && a.tipoActividad == t ==> a.fechaActividad <= ultima.value)
      && (exists a :: a in actividad && a.usuarioId == u && a.tipoActividad == t && a.fechaActividad == ultima.value)
  {
    var propias := Filter(actividad, Propias(u));
    var grupo := Filter(propias, Con(Tipo, t));
    forall a ensures a in grupo <==> a in actividad && a.usuarioId == u && a.tipoActividad == t {
      assert a in grupo <==> a in propias && Con(Tipo, t)(a);
      assert a in propias <==> a in actividad && Propias(u)(a);
    }
    UltimaDe(grupo, actividad, u, t);
  }

  lemma UltimaDe(grupo: seq<Actividad>, actividad: seq<Actividad>, u: int, t: string)
    requires grupo != []
    requires forall a :: a in grupo <==> a in actividad && a.usuarioId == u && a.tipoActividad == t
    ensures var ultima := Ultima(grupo);
      && ultima.Some?
      && (forall a :: a in actividad && a.usuarioId == u && a.tipoActividad == t ==> a.fechaActividad <= ultima.value)
      && (exists a :: a in actividad && a.usuarioId == u && a.tipoActividad == t && a.fechaActividad == ultima.value)
  {
  }

  /** Every type the caller has logged gets a row. */
  lemma EstadisticasCubren(actividad: seq<Actividad>, u: int, a: Actividad)
    requires a in actividad && a.usuarioId == u
    ensures exists i :: 0 <= i < |ObtenerEstadisticas(actividad, u)| &&
                        ObtenerEstadisticas(actividad, u)[i].tipoActividad == a.tipoActividad
  {
    var propias := Filter(actividad, Propias(u));
    var g := GroupCount(propias, Tipo);
    GroupCountCovers(propias, Tipo, a);
    var i :| 0 <= i < |g| && g[i].0 == Tipo(a);
    assert ObtenerEstadisticas(actividad, u)[i].tipoActividad == g[i].0;
  }

  /** The counts add up to the number of the caller's entries. */
  lemma EstadisticasTotal(actividad: seq<Actividad>, u: int)
    ensures Total(MapSeq(ObtenerEstadisticas(actividad, u), Conteo)) == |Filter(actividad, Propias(u))|
  {
    var propias := Filter(actividad, Propias(u));
    var g := GroupCount(propias, Tipo);
    GroupCountTotal(propias, Tipo);
    assert MapSeq(ObtenerEstadisticas(actividad, u), Conteo) == g;
  }

  /** `fecha_actividad BETWEEN inicio AND fin`, both ends included. */
  function EnRango(u: int, inicio: Instant, fin: Instant): Actividad -> bool {
    (a: Actividad) => a.usuarioId == u && inicio <= a.fechaActividad <= fin
  }

  /** `obtenerPorRango`: the caller's entries dated from `inicio` to `fin` inclusive,
      newest first. */
  function ObtenerPorRango(actividad: seq<Actividad>, u: int, inicio: Instant, fin: Instant): (r: seq<Actividad>)
    ensures forall a :: a in r <==> a in actividad && a.usuarioId == u && inicio <= a.fechaActividad <= fin
    ensures multiset(r) == multiset(Filter(actividad, EnRango(u, inicio, fin)))
    ensures forall i, j :: 0 <= i < j < |r| ==> r[i].fechaActividad >= r[j].fechaActividad
  {
    var f := Filter(actividad, EnRango(u, inicio, fin));
    var r := SortDescBy(f, Fecha);
    SameElements(r, f);
    r
  }

  /** Logging one more entry for the caller adds one to the caller's count and leaves
      every other user's entries as they were. */
  lemma RegistrarCuenta(actividad: seq<Actividad>, a: Actividad, u: int)
    ensures |Filter(actividad + [a], Propias(u))| == |Filter(actividad, Propias(u))| + (if a.usuarioId == u then 1 else 0)
    ensures a.usuarioId != u ==> Filter(actividad + [a], Propias(u)) == Filter(actividad, Propias(u))
  {
    FilterAppend(actividad, [a], Propias(u));
    assert Filter([a], Propias(u)) == if a.usuarioId == u then [a] else [];
  }
}
