/** `CategoriaModel`: the statements on `categorias`. */
module CategoriaModel {
  import opened Wrappers
  import opened Seqs
  import opened Sorting
  import opened Schema

  /** `usuario_id = u`. */
  function Propias(u: int): Categoria -> bool {
    (c: Categoria) => c.usuarioId == u
  }

  /** `id = ? AND usuario_id = ?`. */
  function Dueno(id: int, u: int): Categoria -> bool {
    (c: Categoria) => c.id == id && c.usuarioId == u
  }

  function Creacion(c: Categoria): int {
    c.fechaCreacion
  }

  /** Whether a row other than `id` already holds the key (`nombre`, `u`). */
  predicate Ocupado(categorias: seq<Categoria>, nombre: Option<string>, u: int, id: int) {
    nombre.Some? && exists c :: c in categorias && c.id != id && CategoriaClave(c) == Some((nombre.value, u))
  }

  /** The SET list of `actualizar`. */
  function Reescribir(nombre: Option<string>, color: Option<string>, icono: Option<string>): Categoria -> Categoria {
    (c: Categoria) => c.(nombre := nombre, color := color, icono := icono)
  }

  /** `obtenerPorUsuario`: the caller's categories, newest first. */
  function ObtenerPorUsuario(categorias: seq<Categoria>, u: int): (r: seq<Categoria>)
    ensures forall c :: c in r <==> c in categorias && c.usuarioId == u
    ensures multiset(r) == multiset(Filter(categorias, Propias(u)))
    ensures forall i, j :: 0 <= i < j < |r| ==> r[i].fechaCreacion >= r[j].fechaCreacion
  {
    var f := Filter(categorias, Propias(u));
    var r := SortDescBy(f, Creacion);
    SameElements(r, f);
    r
  }

  /** `obtenerPorId`: the caller's category `id`, if there is one. */
  function ObtenerPorId(categorias: seq<Categoria>, id: int, u: int): (r: Option<Categoria>)
    ensures r.Some? ==> r.value in categorias && r.value.id == id && r.value.usuarioId == u
    ensures r.None? <==> forall c :: c in categorias ==> !(c.id == id && c.usuarioId == u)
  {
    var f := Filter(categorias, Dueno(id, u));
    if f == [] then None else assert f[0] in f; Some(f[0])
  }

  /** A row just inserted with the next auto-increment id is what `obtenerPorId` returns
      for that id and its owner. */
  lemma CreadaVisible(categorias: seq<Categoria>, next: int, x: Categoria)
    requires Keyed(categorias, CategoriaId, next) && x.id == next
    ensures ObtenerPorId(categorias + [x], next, x.usuarioId) == Some(x)
  {
    FilterFresh(categorias, CategoriaId, next, Dueno(next, x.usuarioId), x);
  }

  /** `crear`: inserts one category of `usuarioId`; a name the owner already uses is
      rejected by the UNIQUE index. */
  method Crear(db: Database, nombre: Option<string>, color: Option<string>, icono: Option<string>,
               usuarioId: int, now: Instant) returns (r: Result<int, DbError>)
    requires db.Valid()
    modifies db`categorias, db`nextCategoriaId
    ensures db.Valid()
    ensures r.Err? ==> db.categorias == old(db.categorias)
    ensures r == Err(ConnectionLost) ==> db.nextCategoriaId == old(db.nextCategoriaId)
    ensures r == Err(DupEntry) ==> db.nextCategoriaId == old(db.nextCategoriaId) + 1
    ensures !db.available ==> r == Err(ConnectionLost)
    ensures db.available && Ocupado(old(db.categorias), nombre, usuarioId, old(db.nextCategoriaId)) ==>
      r == Err(DupEntry)
    ensures db.available && !Ocupado(old(db.categorias), nombre, usuarioId, old(db.nextCategoriaId)) ==>
      && r == Ok(old(db.nextCategoriaId))
      && db.nextCategoriaId == old(db.nextCategoriaId) + 1
      && db.categorias == old(db.categorias) + [Categoria(old(db.nextCategoriaId), nombre, color, icono, usuarioId, now)]
  {
    if !db.available {
      return Err(ConnectionLost);
    }
    if Ocupado(db.categorias, nombre, usuarioId, db.nextCategoriaId) {
      // InnoDB draws the auto-increment value before the UNIQUE index refuses the row.
      db.nextCategoriaId := db.nextCategoriaId + 1;
      return Err(DupEntry);
    }
    var c := Categoria(db.nextCategoriaId, nombre, color, icono, usuarioId, now);
    KeyedAppend(db.categorias, CategoriaId, db.nextCategoriaId, c);
    forall y | y in db.categorias && CategoriaClave(c).Some? ensures CategoriaClave(y) != CategoriaClave(c) {
      assert y.id < db.nextCategoriaId by {
        var k :| 0 <= k < |db.categorias| && db.categorias[k] == y;
      }
    }
    UniqueAppend(db.categorias, CategoriaClave, c);
    db.categorias := db.categorias + [c];
    db.nextCategoriaId := db.nextCategoriaId + 1;
    r := Ok(c.id);
  }

  /** `actualizar`: rewrites `nombre`, `color` and `icono` of the caller's category `id`
      and returns the affected count; a name another of the owner's categories holds is
      rejected by the UNIQUE index. */
  method Actualizar(db: Database, id: int, nombre: Option<string>, color: Option<string>, icono: Option<string>,
                    usuarioId: int) returns (r: Result<nat, DbError>)
    requires db.Valid()
    modifies db`categorias
    ensures db.Valid()
    ensures r.Err? ==> db.categorias == old(db.categorias)
    ensures !db.available ==> r == Err(ConnectionLost)
    ensures db.available ==>
      var n := |Filter(old(db.categorias), Dueno(id, usuarioId))|;
      if n > 0 && Ocupado(old(db.categorias), nombre, usuarioId, id) then r == Err(DupEntry)
      else
        && r == Ok(n) && n <= 1
        && db.categorias == UpdateWhere(old(db.categorias), Dueno(id, usuarioId), Reescribir(nombre, color, icono))
  {
    if !db.available {
      return Err(ConnectionLost);
    }
    var n := |Filter(db.categorias, Dueno(id, usuarioId))|;
    if n > 0 && Ocupado(db.categorias, nombre, usuarioId, id) {
      return Err(DupEntry);
    }
    var f := Reescribir(nombre, color, icono);
    AtMostOne(db.categorias, CategoriaId, db.nextCategoriaId, Dueno(id, usuarioId), id);
    KeyedUpdate(db.categorias, CategoriaId, db.nextCategoriaId, Dueno(id, usuarioId), f);
    if n == 0 {
      assert forall x :: x in db.categorias ==> x !in Filter(db.categorias, Dueno(id, usuarioId));
      UpdateWhereNone(db.categorias, Dueno(id, usuarioId), f);
    } else {
      UniqueUpdateOne(db.categorias, CategoriaClave, CategoriaId, db.nextCategoriaId, Dueno(id, usuarioId), f, id);
    }
    r := Ok(n);
    db.categorias := UpdateWhere(db.categorias, Dueno(id, usuarioId), f);
  }

  /** `eliminar`: deletes the caller's category `id`; no other table is touched. */
  method Eliminar(db: Database, id: int, usuarioId: int) returns (r: Result<nat, DbError>)
    requires db.Valid()
    modifies db`categorias
    ensures db.Valid()
    ensures !db.available ==> r == Err(ConnectionLost) && db.categorias == old(db.categorias)
    ensures db.available ==>
      && r == Ok(|Filter(old(db.categorias), Dueno(id, usuarioId))|) && r.value <= 1
      && db.categorias == Filter(old(db.categorias), Not(Dueno(id, usuarioId)))
  {
    if !db.available {
      return Err(ConnectionLost);
    }
    AtMostOne(db.categorias, CategoriaId, db.nextCategoriaId, Dueno(id, usuarioId), id);
    KeyedFilter(db.categorias, CategoriaId, db.nextCategoriaId, Not(Dueno(id, usuarioId)));
    UniqueFilter(db.categorias, CategoriaClave, Not(Dueno(id, usuarioId)));
    r := Ok(|Filter(db.categorias, Dueno(id, usuarioId))|);
    db.categorias := Filter(db.categorias, Not(Dueno(id, usuarioId)));
  }

  /** A row of `obtenerConConteo`. */
  datatype CategoriaConConteo = CategoriaConConteo(categoria: Categoria, totalTareas: nat)

  /** `categoria_id = c` on tasks, whoever owns them. */
  function EnCategoria(c: int): Tarea -> bool {
    (t: Tarea) => t.categoriaId == Some(c)
  }

  /** `COUNT(t.id)` over `LEFT JOIN tareas t ON c.id = t.categoria_id`: 0 when no task joins. */
  function Conteo(tareas: seq<Tarea>): Categoria -> CategoriaConConteo {
    (c: Categoria) => CategoriaConConteo(c, |Filter(tareas, EnCategoria(c.id))|)
  }

  function ConteoCategoria(x: CategoriaConConteo): Categoria {
    x.categoria
  }

  function ConteoCreacion(x: CategoriaConConteo): int {
    x.categoria.fechaCreacion
  }

  /** `obtenerConConteo`: one row per category of the caller, with the number of tasks
      of any owner that reference it, newest category first. */
  function ObtenerConConteo(categorias: seq<Categoria>, tareas: seq<Tarea>, u: int): (r: seq<CategoriaConConteo>)
    ensures |r| == |Filter(categorias, Propias(u))|
    ensures forall x :: x in r ==>
      && x.categoria in categorias && x.categoria.usuarioId == u
      && x.totalTareas == |Filter(tareas, EnCategoria(x.categoria.id))|
    ensures forall c :: c in categorias && c.usuarioId == u ==> Conteo(tareas)(c) in r
    ensures forall i, j :: 0 <= i < j < |r| ==> r[i].categoria.fechaCreacion >= r[j].categoria.fechaCreacion
  {
    var f := Filter(categorias, Propias(u));
    var m := MapSeq(f, Conteo(tareas));
    MapSeqInverse(f, Conteo(tareas), ConteoCategoria);
    var r := SortDescBy(m, ConteoCreacion);
    SameElements(r, m);
    r
  }
}
