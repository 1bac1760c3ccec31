/** `TareaModel`: the statements on `tareas` and `tareas_etiquetas`. Statements that
    change rows are methods on the database; queries are functions of the tables. */
module TareaModel {
  import opened Wrappers
  import opened Seqs
  import opened Sorting
  import opened Schema
  import Http

  /** `usuario_id = u`. */
  function Propias(u: int): Tarea -> bool {
    (t: Tarea) => t.usuarioId == u
  }

  /** `id = ? AND usuario_id = ?`. */
  function Dueno(id: int, u: int): Tarea -> bool {
    (t: Tarea) => t.id == id && t.usuarioId == u
  }

  /** `usuario_id = ? AND estado = ?`. */
  function EnEstado(u: int, estado: string): Tarea -> bool {
    (t: Tarea) => t.usuarioId == u && t.estado == Some(estado)
  }

  /** `usuario_id = ? AND categoria_id = ?`. */
  function EnCategoria(u: int, categoriaId: int): Tarea -> bool {
    (t: Tarea) => t.usuarioId == u && t.categoriaId == Some(categoriaId)
  }

  /** The ordering column `fecha_creacion`. */
  function Creacion(t: Tarea): int {
    t.fechaCreacion
  }

  /** `fecha_completada` as `cambiarEstado` computes it: the current time for
      'completada' and NULL for every other value. */
  function FechaCompletada(estado: Option<string>, now: Instant): (r: Option<Instant>)
    ensures r.Some? <==> estado == Some("completada")
    ensures r.Some? ==> r.value == now
  {
    if estado == Some("completada") then Some(now) else None
  }

  /** The SET list of `actualizar`. */
  function Reescribir(titulo: Option<string>, descripcion: Option<string>, fechaLimite: Option<Day>,
                      prioridad: Option<string>, estado: Option<string>, categoriaId: Option<int>): Tarea -> Tarea
  {
    (t: Tarea) => t.(titulo := titulo, descripcion := descripcion, fechaLimite := fechaLimite,
            prioridad := prioridad, estado := estado, categoriaId := categoriaId)
  }

  /** The SET list of `cambiarEstado`. */
  function NuevoEstado(estado: Option<string>, now: Instant): Tarea -> Tarea {
    (t: Tarea) => t.(estado := estado, fechaCompletada := FechaCompletada(estado, now))
  }

  /** `crear`: inserts one row owned by `usuarioId` and returns its id. */
  method Crear(db: Database, titulo: Option<string>, descripcion: Option<string>, fechaLimite: Option<Day>,
               prioridad: Option<string>, usuarioId: int, categoriaId: Option<int>, now: Instant)
    returns (r: Result<int, DbError>)
    requires db.Valid()
    modifies db`tareas, db`nextTareaId
    ensures db.Valid()
    ensures !db.available ==>
      && r == Err(ConnectionLost)
      && db.tareas == old(db.tareas) && db.nextTareaId == old(db.nextTareaId)
    ensures db.available ==>
      && r == Ok(old(db.nextTareaId))
      && db.nextTareaId == old(db.nextTareaId) + 1
      && db.tareas == old(db.tareas) + [Tarea(old(db.nextTareaId), titulo, descripcion, fechaLimite,
                                              prioridad, Some(EstadoInicial), usuarioId, categoriaId, now, None)]
  {
    if !db.available {
      return Err(ConnectionLost);
    }
    var t := Tarea(db.nextTareaId, titulo, descripcion, fechaLimite, prioridad, Some(EstadoInicial),
                   usuarioId, categoriaId, now, None);
    KeyedAppend(db.tareas, TareaId, db.nextTareaId, t);
    db.tareas := db.tareas + [t];
    db.nextTareaId := db.nextTareaId + 1;
    r := Ok(t.id);
  }

  /** `actualizar`: rewrites the six editable columns of the caller's row `id`; the
      result is the affected count. */
  method Actualizar(db: Database, id: int, titulo: Option<string>, descripcion: Option<string>,
                    fechaLimite: Option<Day>, prioridad: Option<string>, estado: Option<string>,
                    categoriaId: Option<int>, usuarioId: int)
    returns (r: Result<nat, DbError>)
    requires db.Valid()
    modifies db`tareas
    ensures db.Valid()
    ensures !db.available ==> r == Err(ConnectionLost) && db.tareas == old(db.tareas)
    ensures db.available ==>
      && r == Ok(|Filter(old(db.tareas), Dueno(id, usuarioId))|) && r.value <= 1
      && db.tareas == UpdateWhere(old(db.tareas), Dueno(id, usuarioId),
                                  Reescribir(titulo, descripcion, fechaLimite, prioridad, estado, categoriaId))
  {
    if !db.available {
      return Err(ConnectionLost);
    }
    var f := Reescribir(titulo, descripcion, fechaLimite, prioridad, estado, categoriaId);
    AtMostOne(db.tareas, TareaId, db.nextTareaId, Dueno(id, usuarioId), id);
    KeyedUpdate(db.tareas, TareaId, db.nextTareaId, Dueno(id, usuarioId), f);
    r := Ok(|Filter(db.tareas, Dueno(id, usuarioId))|);
    db.tareas := UpdateWhere(db.tareas, Dueno(id, usuarioId), f);
  }

  /** `cambiarEstado`: sets `estado` and `fecha_completada` of the caller's row `id`. */
  method CambiarEstado(db: Database, id: int, estado: Option<string>, usuarioId: int, now: Instant)
    returns (r: Result<nat, DbError>)
    requires db.Valid()
    modifies db`tareas
    ensures db.Valid()
    ensures !db.available ==> r == Err(ConnectionLost) && db.tareas == old(db.tareas)
    ensures db.available ==>
      && r == Ok(|Filter(old(db.tareas), Dueno(id, usuarioId))|) && r.value <= 1
      && db.tareas == UpdateWhere(old(db.tareas), Dueno(id, usuarioId), NuevoEstado(estado, now))
  {
    if !db.available {
      return Err(ConnectionLost);
    }
    AtMostOne(db.tareas, TareaId, db.nextTareaId, Dueno(id, usuarioId), id);
    KeyedUpdate(db.tareas, TareaId, db.nextTareaId, Dueno(id, usuarioId), NuevoEstado(estado, now));
    r := Ok(|Filter(db.tareas, Dueno(id, usuarioId))|);
    db.tareas := UpdateWhere(db.tareas, Dueno(id, usuarioId), NuevoEstado(estado, now));
  }

  /** `eliminar`: deletes the caller's row `id`, after which `obtenerPorId` no longer finds it. */
  method Eliminar(db: Database, id: int, usuarioId: int) returns (r: Result<nat, DbError>)
    requires db.Valid()
    modifies db`tareas
    ensures db.Valid()
    ensures !db.available ==> r == Err(ConnectionLost) && db.tareas == old(db.tareas)
    ensures db.available ==>
      && r == Ok(|Filter(old(db.tareas), Dueno(id, usuarioId))|) && r.value <= 1
      && db.tareas == Filter(old(db.tareas), Not(Dueno(id, usuarioId)))
      && |db.tareas| + r.value == |old(db.tareas)|
      && ObtenerPorId(db.tareas, id, usuarioId).None?
  {
    if !db.available {
      return Err(ConnectionLost);
    }
    AtMostOne(db.tareas, TareaId, db.nextTareaId, Dueno(id, usuarioId), id);
    KeyedFilter(db.tareas, TareaId, db.nextTareaId, Not(Dueno(id, usuarioId)));
    FilterComplement(db.tareas, Dueno(id, usuarioId));
    r := Ok(|Filter(db.tareas, Dueno(id, usuarioId))|);
    db.tareas := Filter(db.tareas, Not(Dueno(id, usuarioId)));
  }

  /** `asignarEtiqueta`: inserts the pair; every failure (a repeated pair, a NULL or
      missing `etiquetaId`, an unreachable server) is swallowed. The result says whether
      a row was inserted, where the source returns the insert id or null. */
  method AsignarEtiqueta(db: Database, tareaId: int, etiquetaId: Http.Field<int>) returns (insertado: bool)
    modifies db`tareasEtiquetas
    ensures insertado <==> db.available && etiquetaId.Given?
                           && (tareaId, etiquetaId.value) !in old(db.tareasEtiquetas)
    ensures insertado ==> db.tareasEtiquetas == old(db.tareasEtiquetas) + {(tareaId, etiquetaId.value)}
    ensures !insertado ==> db.tareasEtiquetas == old(db.tareasEtiquetas)
  {
    if !db.available || !etiquetaId.Given? || (tareaId, etiquetaId.value) in db.tareasEtiquetas {
      return false;
    }
    db.tareasEtiquetas := db.tareasEtiquetas + {(tareaId, etiquetaId.value)};
    insertado := true;
  }

  /** `removerEtiqueta`: deletes the pair and returns the affected count. */
  method RemoverEtiqueta(db: Database, tareaId: int, etiquetaId: int) returns (r: Result<nat, DbError>)
    modifies db`tareasEtiquetas
    ensures !db.available ==> r == Err(ConnectionLost) && db.tareasEtiquetas == old(db.tareasEtiquetas)
    ensures db.available ==>
      && r == Ok(if (tareaId, etiquetaId) in old(db.tareasEtiquetas) then 1 else 0)
      && db.tareasEtiquetas == old(db.tareasEtiquetas) - {(tareaId, etiquetaId)}
  {
    if !db.available {
      return Err(ConnectionLost);
    }
    r := Ok(if (tareaId, etiquetaId) in db.tareasEtiquetas then 1 else 0);
    db.tareasEtiquetas := db.tareasEtiquetas - {(tareaId, etiquetaId)};
  }

  /** `obtenerPorId`: the caller's row `id`, if there is one. */
  function ObtenerPorId(tareas: seq<Tarea>, id: int, u: int): (r: Option<Tarea>)
    ensures r.Some? ==> r.value in tareas && r.value.id == id && r.value.usuarioId == u
    ensures r.None? <==> forall t :: t in tareas ==> !(t.id == id && t.usuarioId == u)
  {
    var f := Filter(tareas, Dueno(id, u));
    if f == [] then None else assert f[0] in f; Some(f[0])
  }

  /** `obtenerPorEstado`: the caller's tasks in state `estado`, newest first. */
  function ObtenerPorEstado(tareas: seq<Tarea>, u: int, estado: string): (r: seq<Tarea>)
    ensures forall t :: t in r <==> t in tareas && t.usuarioId == u && t.estado == Some(estado)
    ensures multiset(r) == multiset(Filter(tareas, EnEstado(u, estado)))
    ensures forall i, j :: 0 <= i < j < |r| ==> r[i].fechaCreacion >= r[j].fechaCreacion
  {
    var f := Filter(tareas, EnEstado(u, estado));
    var r := SortDescBy(f, Creacion);
    SameElements(r, f);
    r
  }

  /** `obtenerPorCategoria`: the caller's tasks in category `categoriaId`, newest first. */
  function ObtenerPorCategoria(tareas: seq<Tarea>, u: int, categoriaId: int): (r: seq<Tarea>)
    ensures forall t :: t in r <==> t in tareas && t.usuarioId == u && t.categoriaId == Some(categoriaId)
    ensures multiset(r) == multiset(Filter(tareas, EnCategoria(u, categoriaId)))
    ensures forall i, j :: 0 <= i < j < |r| ==> r[i].fechaCreacion >= r[j].fechaCreacion
  {
    var f := Filter(tareas, EnCategoria(u, categoriaId));
    var r := SortDescBy(f, Creacion);
    SameElements(r, f);
    r
  }

  /** The category row that `LEFT JOIN categorias c ON t.categoria_id = c.id` pairs
      with a task: any row with that id, whoever owns it; none for a NULL id. */
  function CategoriaDe(categorias: seq<Categoria>, categoriaId: Option<int>): (r: Option<Categoria>)
    ensures r.Some? ==> r.value in categorias && categoriaId == Some(r.value.id)
    ensures r.None? <==> categoriaId.None? || forall c :: c in categorias ==> c.id != categoriaId.value
    decreases |categorias|
  {
    if categoriaId.None? || categorias == [] then None
    else if categorias[0].id == categoriaId.value then Some(categorias[0])
    else CategoriaDe(categorias[1..], categoriaId)
  }

  /** `GROUP_CONCAT(DISTINCT e.nombre)` over the task's tags, as the set of names. */
  function EtiquetasDe(etiquetas: seq<Etiqueta>, rels: set<(int, int)>, tareaId: int): (r: set<string>)
    ensures forall n :: n in r <==> exists e :: e in etiquetas && (tareaId, e.id) in rels && e.nombre == Some(n)
  {
    set e | e in etiquetas && (tareaId, e.id) in rels && e.nombre.Some? :: e.nombre.value
  }

  /** A task with `categoria_nombre` and `categoria_color` from the join. */
  datatype TareaConCategoria = TareaConCategoria(tarea: Tarea, categoriaNombre: Option<string>,
                                                 categoriaColor: Option<string>)

  /** A row of `obtenerPorUsuario`: the joined task and the names of its tags. */
  datatype TareaVista = TareaVista(tarea: Tarea, categoriaNombre: Option<string>,
                                   categoriaColor: Option<string>, etiquetas: set<string>)

  /** A task joined with its category. */
  function ConCategoriaDe(categorias: seq<Categoria>, t: Tarea): TareaConCategoria {
    var c := CategoriaDe(categorias, t.categoriaId);
    TareaConCategoria(t, if c.Some? then c.value.nombre else None, if c.Some? then c.value.color else None)
  }

  function ConCategoria(categorias: seq<Categoria>): Tarea -> TareaConCategoria {
    (t: Tarea) => ConCategoriaDe(categorias, t)
  }

  /** A task joined with its category and its tags. */
  function VistaDe(categorias: seq<Categoria>, etiquetas: seq<Etiqueta>, rels: set<(int, int)>, t: Tarea): TareaVista {
    var c := ConCategoriaDe(categorias, t);
    TareaVista(t, c.categoriaNombre, c.categoriaColor, EtiquetasDe(etiquetas, rels, t.id))
  }

  function Vista(categorias: seq<Categoria>, etiquetas: seq<Etiqueta>, rels: set<(int, int)>): Tarea -> TareaVista {
    (t: Tarea) => VistaDe(categorias, etiquetas, rels, t)
  }

  function VistaTarea(v: TareaVista): Tarea {
    v.tarea
  }

  function VistaCreacion(v: TareaVista): int {
    v.tarea.fechaCreacion
  }

  /** `obtenerPorUsuario`: every task of the caller once, joined with its category and its
      tags, newest first. */
  function ObtenerPorUsuario(tareas: seq<Tarea>, categorias: seq<Categoria>, etiquetas: seq<Etiqueta>,
                             rels: set<(int, int)>, u: int): (r: seq<TareaVista>)
    ensures |r| == |Filter(tareas, Propias(u))|
    ensures forall v :: v in r ==>
      && v.tarea in tareas && v.tarea.usuarioId == u
      && v == VistaDe(categorias, etiquetas, rels, v.tarea)
    ensures forall t :: t in tareas && t.usuarioId == u ==> VistaDe(categorias, etiquetas, rels, t) in r
    ensures forall i, j :: 0 <= i < j < |r| ==> r[i].tarea.fechaCreacion >= r[j].tarea.fechaCreacion
  {
    var f := Filter(tareas, Propias(u));
    var m := MapSeq(f, Vista(categorias, etiquetas, rels));
    MapSeqInverse(f, Vista(categorias, etiquetas, rels), VistaTarea);
    var r := SortDescBy(m, VistaCreacion);
    SameElements(r, m);
    r
  }

  /** The row `obtenerEstadisticas` returns. A SUM over no rows is NULL, so every sum is
      absent exactly when the caller has no tasks. */
  datatype Estadisticas = Estadisticas(totalTareas: nat, completadas: Option<nat>, pendientes: Option<nat>,
                                       enProgreso: Option<nat>, altaPrioridad: Option<nat>,
                                       vencidas: Option<nat>)

  /** `estado = e`; a NULL `estado` never matches. */
  function EstadoEs(e: string): Tarea -> bool {
    (t: Tarea) => t.estado == Some(e)
  }

  /** `prioridad = p`. */
  function PrioridadEs(p: string): Tarea -> bool {
    (t: Tarea) => t.prioridad == Some(p)
  }

  /** `fecha_limite < CURDATE() AND estado != 'completada'`; a NULL in either column
      makes the condition NULL, which the CASE counts as 0. */
  function Vencida(hoy: Day): Tarea -> bool {
    (t: Tarea) => t.fechaLimite.Some? && t.fechaLimite.value < hoy && t.estado.Some? && t.estado.value != "completada"
  }

  /** `SUM(CASE WHEN p THEN 1 ELSE 0 END)` over `rows`. */
  function Suma(rows: seq<Tarea>, p: Tarea -> bool): (r: Option<nat>)
    ensures r.None? <==> rows == []
    ensures r.Some? ==> r.value == |Filter(rows, p)| <= |rows|
  {
    if rows == [] then None else Some(|Filter(rows, p)|)
  }

  /** `obtenerEstadisticas` for the caller, with `CURDATE()` given as `hoy`. */
  function ObtenerEstadisticas(tareas: seq<Tarea>, u: int, hoy: Day): (r: Estadisticas)
    ensures r.totalTareas == |Filter(tareas, Propias(u))|
    ensures r.totalTareas == 0 <==> r.completadas.None?
    ensures r.completadas.None? <==> r.pendientes.None?
    ensures r.completadas.None? <==> r.enProgreso.None?
    ensures r.completadas.None? <==> r.altaPrioridad.None?
    ensures r.completadas.None? <==> r.vencidas.None?
    ensures r.totalTareas > 0 ==>
      && r.completadas.value + r.pendientes.value + r.enProgreso.value <= r.totalTareas
      && r.altaPrioridad.value <= r.totalTareas
      && r.vencidas.value + r.completadas.value <= r.totalTareas
  {
    var rows := Filter(tareas, Propias(u));
    FilterDisjoint(rows, EstadoEs("completada"), EstadoEs("pendiente"));
    FilterDisjoint(rows, Or(EstadoEs("completada"), EstadoEs("pendiente")), EstadoEs("en_progreso"));
    FilterDisjoint(rows, Vencida(hoy), EstadoEs("completada"));
    Estadisticas(|rows|, Suma(rows, EstadoEs("completada")), Suma(rows, EstadoEs("pendiente")),
                 Suma(rows, EstadoEs("en_progreso")), Suma(rows, PrioridadEs("alta")),
                 Suma(rows, Vencida(hoy)))
  }

  /** A statement aimed at a task the caller does not own matches nothing: the affected
      count is 0, no row is rewritten or deleted, and the lookup finds nothing. */
  lemma AjenaIntacta(tareas: seq<Tarea>, id: int, u: int, f: Tarea -> Tarea)
    requires forall t :: t in tareas && t.id == id ==> t.usuarioId != u
    ensures |Filter(tareas, Dueno(id, u))| == 0
    ensures UpdateWhere(tareas, Dueno(id, u), f) == tareas
    ensures Filter(tareas, Not(Dueno(id, u))) == tareas
    ensures ObtenerPorId(tareas, id, u).None?
  {
    FilterNone(tareas, Dueno(id, u));
    UpdateWhereNone(tareas, Dueno(id, u), f);
    FilterAll(tareas, Not(Dueno(id, u)));
  }

  /** A task just inserted with the next auto-increment id is what `obtenerPorId` returns
      for that id and its owner. */
  lemma CreadaVisible(tareas: seq<Tarea>, next: int, t: Tarea)
    requires Keyed(tareas, TareaId, next) && t.id == next
    ensures ObtenerPorId(tareas + [t], next, t.usuarioId) == Some(t)
  {
    FilterFresh(tareas, TareaId, next, Dueno(next, t.usuarioId), t);
  }

  /** `actualizar` keeps the id, the owner, the creation time and `fecha_completada`,
      also when it sets `estado` to 'completada'. */
  lemma ActualizarConserva(t: Tarea, titulo: Option<string>, descripcion: Option<string>,
                           fechaLimite: Option<Day>, prioridad: Option<string>, estado: Option<string>,
                           categoriaId: Option<int>)
    ensures var n := Reescribir(titulo, descripcion, fechaLimite, prioridad, estado, categoriaId)(t);
      && n.id == t.id && n.usuarioId == t.usuarioId && n.fechaCreacion == t.fechaCreacion
      && n.fechaCompletada == t.fechaCompletada
      && n.titulo == titulo && n.descripcion == descripcion && n.fechaLimite == fechaLimite
      && n.prioridad == prioridad && n.estado == estado && n.categoriaId == categoriaId
  {
  }

  /** Of two status changes of the same task the last one decides both `estado` and
      `fecha_completada`: completing a task and then reopening it leaves no completion time. */
  lemma CambiarEstadoUltimo(tareas: seq<Tarea>, id: int, u: int, e1: Option<string>, n1: Instant,
                            e2: Option<string>, n2: Instant)
    ensures UpdateWhere(UpdateWhere(tareas, Dueno(id, u), NuevoEstado(e1, n1)), Dueno(id, u), NuevoEstado(e2, n2))
         == UpdateWhere(tareas, Dueno(id, u), NuevoEstado(e2, n2))
  {
    UpdateWhereTwice(tareas, Dueno(id, u), NuevoEstado(e1, n1), NuevoEstado(e2, n2), NuevoEstado(e2, n2));
  }

  /** A task with no due date is never counted as overdue: adding one of the caller's
      tasks without `fecha_limite` leaves `vencidas` as it was (0 where it was NULL). */
  lemma VencidasSinFecha(tareas: seq<Tarea>, u: int, hoy: Day, t: Tarea)
    requires t.usuarioId == u && t.fechaLimite.None?
    ensures var antes := ObtenerEstadisticas(tareas, u, hoy).vencidas;
      ObtenerEstadisticas(tareas + [t], u, hoy).vencidas == Some(if antes.Some? then antes.value else 0)
  {
    FilterAppend(tareas, [t], Propias(u));
    var rows := Filter(tareas, Propias(u));
    assert Filter([t], Propias(u)) == [t];
    FilterAppend(rows, [t], Vencida(hoy));
    assert Filter([t], Vencida(hoy)) == [];
  }

  /** Adding a task of a caller who had none leaves that task as the caller's only row. */
  lemma SoloPropia(tareas: seq<Tarea>, u: int, t: Tarea)
    requires forall x :: x in tareas ==> x.usuarioId != u
    requires t.usuarioId == u
    ensures Filter(tareas + [t], Propias(u)) == [t]
  {
    FilterNone(tareas, Propias(u));
    FilterAppend(tareas, [t], Propias(u));
    assert Filter([t], Propias(u)) == [t];
  }

  /** The statistics of a caller with exactly one task. */
  lemma EstadisticasDeUna(tareas: seq<Tarea>, u: int, hoy: Day, t: Tarea)
    requires Filter(tareas, Propias(u)) == [t]
    ensures var s := ObtenerEstadisticas(tareas, u, hoy);
      && s.totalTareas == 1
      && s.completadas == Some(if t.estado == Some("completada") then 1 else 0)
      && s.altaPrioridad == Some(if t.prioridad == Some("alta") then 1 else 0)
  {
    assert Filter([t], EstadoEs("completada")) == if t.estado == Some("completada") then [t] else [];
    assert Filter([t], PrioridadEs("alta")) == if t.prioridad == Some("alta") then [t] else [];
  }

  /** The scenario of a new user's first task: created with priority 'alta', it is counted
      once, as high priority and not completed; after `cambiarEstado` to 'completada' it
      is counted as completed and carries a completion time. */
  lemma PrimeraTarea(tareas: seq<Tarea>, u: int, id: int, titulo: Option<string>, creada: Instant,
                     hoy: Day, now: Instant)
    requires forall x :: x in tareas ==> x.usuarioId != u
    ensures var t := Tarea(id, titulo, None, None, Some("alta"), Some(EstadoInicial), u, None, creada, None);
      var s1 := ObtenerEstadisticas(tareas + [t], u, hoy);
      var despues := UpdateWhere(tareas + [t], Dueno(id, u), NuevoEstado(Some("completada"), now));
      var s2 := ObtenerEstadisticas(despues, u, hoy);
      && s1.totalTareas == 1 && s1.completadas == Some(0) && s1.altaPrioridad == Some(1)
      && s2.totalTareas == 1 && s2.completadas == Some(1) && s2.altaPrioridad == Some(1)
      && despues[|tareas|].fechaCompletada == Some(now)
  {
    var t := Tarea(id, titulo, None, None, Some("alta"), Some(EstadoInicial), u, None, creada, None);
    var t2 := NuevoEstado(Some("completada"), now)(t);
    SoloPropia(tareas, u, t);
    EstadisticasDeUna(tareas + [t], u, hoy, t);
    UpdateWhereAppend(tareas, [t], Dueno(id, u), NuevoEstado(Some("completada"), now));
    UpdateWhereNone(tareas, Dueno(id, u), NuevoEstado(Some("completada"), now));
    assert UpdateWhere([t], Dueno(id, u), NuevoEstado(Some("completada"), now)) == [t2];
    var despues := tareas + [t2];
    SoloPropia(tareas, u, t2);
    EstadisticasDeUna(despues, u, hoy, t2);
  }
}
