/** `EtiquetaModel`: the statements on `etiquetas`. */
module EtiquetaModel {
  import opened Wrappers
  import opened Seqs
  import opened Sorting
  import opened Schema

  /** `usuario_id = u`. */
  function Propias(u: int): Etiqueta -> bool {
    (e: Etiqueta) => e.usuarioId == u
  }

  /** `id = ? AND usuario_id = ?`. */
  function Dueno(id: int, u: int): Etiqueta -> bool {
    (e: Etiqueta) => e.id == id && e.usuarioId == u
  }

  function Creacion(e: Etiqueta): int {
    e.fechaCreacion
  }

  /** Whether a row other than `id` already holds the key (`nombre`, `u`). */
  predicate Ocupado(etiquetas: seq<Etiqueta>, nombre: Option<string>, u: int, id: int) {
    nombre.Some? && exists e :: e in etiquetas && e.id != id && EtiquetaClave(e) == Some((nombre.value, u))
  }

  /** The SET list of `actualizar`. */
  function Reescribir(nombre: Option<string>, color: Option<string>): Etiqueta -> Etiqueta {
    (e: Etiqueta) => e.(nombre := nombre, color := color)
  }

  /** `obtenerPorUsuario`: the caller's tags, newest first. */
  function ObtenerPorUsuario(etiquetas: seq<Etiqueta>, u: int): (r: seq<Etiqueta>)
    ensures forall e :: e in r <==> e in etiquetas && e.usuarioId == u
    ensures multiset(r) == multiset(Filter(etiquetas, Propias(u)))
    ensures forall i, j :: 0 <= i < j < |r| ==> r[i].fechaCreacion >= r[j].fechaCreacion
  {
    var f := Filter(etiquetas, Propias(u));
    var r := SortDescBy(f, Creacion);
    SameElements(r, f);
    r
  }

  /** `obtenerPorId`: the caller's tag `id`, if there is one. */
  function ObtenerPorId(etiquetas: seq<Etiqueta>, id: int, u: int): (r: Option<Etiqueta>)
    ensures r.Some? ==> r.value in etiquetas && r.value.id == id && r.value.usuarioId == u
    ensures r.None? <==> forall e :: e in etiquetas ==> !(e.id == id && e.usuarioId == u)
  {
    var f := Filter(etiquetas, Dueno(id, u));
    if f == [] then None else assert f[0] in f; Some(f[0])
  }

  /** A row just inserted with the next auto-increment id is what `obtenerPorId` returns
      for that id and its owner. */
  lemma CreadaVisible(etiquetas: seq<Etiqueta>, next: int, x: Etiqueta)
    requires Keyed(etiquetas, EtiquetaId, next) && x.id == next
    ensures ObtenerPorId(etiquetas + [x], next, x.usuarioId) == Some(x)
  {
    FilterFresh(etiquetas, EtiquetaId, next, Dueno(next, x.usuarioId), x);
  }

  /** `crear`: inserts one tag of `usuarioId`; a name the owner already uses is rejected
      by the UNIQUE index. */
  method Crear(db: Database, nombre: Option<string>, color: Option<string>, usuarioId: int, now: Instant)
    returns (r: Result<int, DbError>)
    requires db.Valid()
    modifies db`etiquetas, db`nextEtiquetaId
    ensures db.Valid()
    ensures r.Err? ==> db.etiquetas == old(db.etiquetas)
    ensures r == Err(ConnectionLost) ==> db.nextEtiquetaId == old(db.nextEtiquetaId)
    ensures r == Err(DupEntry) ==> db.nextEtiquetaId == old(db.nextEtiquetaId) + 1
    ensures !db.available ==> r == Err(ConnectionLost)
    ensures db.available && Ocupado(old(db.etiquetas), nombre, usuarioId, old(db.nextEtiquetaId)) ==>
      r == Err(DupEntry)
    ensures db.available && !Ocupado(old(db.etiquetas), nombre, usuarioId, old(db.nextEtiquetaId)) ==>
      && r == Ok(old(db.nextEtiquetaId))
      && db.nextEtiquetaId == old(db.nextEtiquetaId) + 1
      && db.etiquetas == old(db.etiquetas) + [Etiqueta(old(db.nextEtiquetaId), nombre, color, usuarioId, now)]
  {
    if !db.available {
      return Err(ConnectionLost);
    }
    if Ocupado(db.etiquetas, nombre, usuarioId, db.nextEtiquetaId) {
      // InnoDB draws the auto-increment value before the UNIQUE index refuses the row.
      db.nextEtiquetaId := db.nextEtiquetaId + 1;
      return Err(DupEntry);
    }
    var e := Etiqueta(db.nextEtiquetaId, nombre, color, usuarioId, now);
    KeyedAppend(db.etiquetas, EtiquetaId, db.nextEtiquetaId, e);
    forall y | y in db.etiquetas && EtiquetaClave(e).Some? ensures EtiquetaClave(y) != EtiquetaClave(e) {
      assert y.id < db.nextEtiquetaId by {
        var k :| 0 <= k < |db.etiquetas| && db.etiquetas[k] == y;
      }
    }
    UniqueAppend(db.etiquetas, EtiquetaClave, e);
    db.etiquetas := db.etiquetas + [e];
    db.nextEtiquetaId := db.nextEtiquetaId + 1;
    r := Ok(e.id);
  }

  /** `actualizar`: rewrites `nombre` and `color` of the caller's tag `id` and returns the
      affected count; a name another of the owner's tags holds is rejected. */
  method Actualizar(db: Database, id: int, nombre: Option<string>, color: Option<string>, usuarioId: int)
    returns (r: Result<nat, DbError>)
    requires db.Valid()
    modifies db`etiquetas
    ensures db.Valid()
    ensures r.Err? ==> db.etiquetas == old(db.etiquetas)
    ensures !db.available ==> r == Err(ConnectionLost)
    ensures db.available ==>
      var n := |Filter(old(db.etiquetas), Dueno(id, usuarioId))|;
      if n > 0 && Ocupado(old(db.etiquetas), nombre, usuarioId, id) then r == Err(DupEntry)
      else
        && r == Ok(n) && n <= 1
        && db.etiquetas == UpdateWhere(old(db.etiquetas), Dueno(id, usuarioId), Reescribir(nombre, color))
  {
    if !db.available {
      return Err(ConnectionLost);
    }
    var n := |Filter(db.etiquetas, Dueno(id, usuarioId))|;
    if n > 0 && Ocupado(db.etiquetas, nombre, usuarioId, id) {
      return Err(DupEntry);
    }
    var f := Reescribir(nombre, color);
    AtMostOne(db.etiquetas, EtiquetaId, db.nextEtiquetaId, Dueno(id, usuarioId), id);
    KeyedUpdate(db.etiquetas, EtiquetaId, db.nextEtiquetaId, Dueno(id, usuarioId), f);
    if n == 0 {
      assert forall x :: x in db.etiquetas ==> x !in Filter(db.etiquetas, Dueno(id, usuarioId));
      UpdateWhereNone(db.etiquetas, Dueno(id, usuarioId), f);
    } else {
      UniqueUpdateOne(db.etiquetas, EtiquetaClave, EtiquetaId, db.nextEtiquetaId, Dueno(id, usuarioId), f, id);
    }
    r := Ok(n);
    db.etiquetas := UpdateWhere(db.etiquetas, Dueno(id, usuarioId), f);
  }

  /** `eliminar`: deletes the caller's tag `id`; `tareas_etiquetas` is not touched. */
  method Eliminar(db: Database, id: int, usuarioId: int) returns (r: Result<nat, DbError>)
    requires db.Valid()
    modifies db`etiquetas
    ensures db.Valid()
    ensures !db.available ==> r == Err(ConnectionLost) && db.etiquetas == old(db.etiquetas)
    ensures db.available ==>
      && r == Ok(|Filter(old(db.etiquetas), Dueno(id, usuarioId))|) && r.value <= 1
      && db.etiquetas == Filter(old(db.etiquetas), Not(Dueno(id, usuarioId)))
  {
    if !db.available {
      return Err(ConnectionLost);
    }
    AtMostOne(db.etiquetas, EtiquetaId, db.nextEtiquetaId, Dueno(id, usuarioId), id);
    KeyedFilter(db.etiquetas, EtiquetaId, db.nextEtiquetaId, Not(Dueno(id, usuarioId)));
    UniqueFilter(db.etiquetas, EtiquetaClave, Not(Dueno(id, usuarioId)));
    r := Ok(|Filter(db.etiquetas, Dueno(id, usuarioId))|);
    db.etiquetas := Filter(db.etiquetas, Not(Dueno(id, usuarioId)));
  }

  /** `te.tarea_id = ?` over `INNER JOIN tareas_etiquetas te ON e.id = te.etiqueta_id`. */
  function DeTarea(rels: set<(int, int)>, tareaId: int): Etiqueta -> bool {
    (e: Etiqueta) => (tareaId, e.id) in rels
  }

  /** `obtenerPorTarea`: the tags related to task `tareaId`, of any owner. */
  function ObtenerPorTarea(etiquetas: seq<Etiqueta>, rels: set<(int, int)>, tareaId: int): (r: seq<Etiqueta>)
    ensures forall e :: e in r <==> e in etiquetas && (tareaId, e.id) in rels
    ensures |r| <= |etiquetas|
  {
    Filter(etiquetas, DeTarea(rels, tareaId))
  }
}
