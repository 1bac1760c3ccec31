/** `AnalyticsController`: the read-only reports of `/api/analytics`. Each report is a
    query over the tables, given here as a function; each handler answers 200 with the
    report, or 500 with the handler's message when the database cannot be reached.
    `CURDATE()` is the parameter `hoy`. */
module AnalyticsController {
  import opened Wrappers
  import opened Seqs
  import opened Sorting
  import opened Grouping
  import opened Schema
  import opened Http
  import TareaModel
  import CategoriaModel
  import ActividadModel

  /** `GET /estadisticas`: the caller's task counters. */
  method ObtenerEstadisticas(db: Database, userId: int, hoy: Day) returns (r: Reply<TareaModel.Estadisticas>)
    ensures !db.available ==> r == Failure(500, "Error al obtener estadísticas")
    ensures db.available ==> r == Success(200, None, Some(TareaModel.ObtenerEstadisticas(db.tareas, userId, hoy)))
  {
    if !db.available {
      return Failure(500, "Error al obtener estadísticas");
    }
    r := Success(200, None, Some(TareaModel.ObtenerEstadisticas(db.tareas, userId, hoy)));
  }

  // ---------------------------------------------------------------------------
  // Tasks per category

  /** A row of `tareasPorCategoria`. */
  datatype FilaCategoria = FilaCategoria(categoria: Option<string>, color: Option<string>, cantidad: nat)

  /** The row of one category: its name, its colour and the tasks of any owner that
      reference it (0 when the LEFT JOIN finds none). */
  function FilaDe(tareas: seq<Tarea>, c: Categoria): FilaCategoria {
    FilaCategoria(c.nombre, c.color, |Filter(tareas, CategoriaModel.EnCategoria(c.id))|)
  }

  function Fila(tareas: seq<Tarea>): Categoria -> FilaCategoria {
    (c: Categoria) => FilaDe(tareas, c)
  }

  function Cantidad(f: FilaCategoria): int {
    f.cantidad
  }

  /** `tareasPorCategoria`: one row per category of the caller, most used first. */
  function ConteoPorCategoria(categorias: seq<Categoria>, tareas: seq<Tarea>, u: int): (r: seq<FilaCategoria>)
    ensures |r| == |Filter(categorias, CategoriaModel.Propias(u))|
    ensures forall f :: f in r ==> exists c :: c in categorias && c.usuarioId == u && f == FilaDe(tareas, c)
    ensures forall c :: c in categorias && c.usuarioId == u ==> FilaDe(tareas, c) in r
    ensures forall i, j :: 0 <= i < j < |r| ==> r[i].cantidad >= r[j].cantidad
  {
    var propias := Filter(categorias, CategoriaModel.Propias(u));
    var filas := MapSeq(propias, Fila(tareas));
    MapSeqImages(propias, Fila(tareas));
    var r := SortDescBy(filas, Cantidad);
    SameElements(r, filas);
    r
  }

  /** `GET /por-categoria`. */
  method TareasPorCategoria(db: Database, userId: int) returns (r: Reply<seq<FilaCategoria>>)
    ensures !db.available ==> r == Failure(500, "Error al obtener datos")
    ensures db.available ==> r == Success(200, None, Some(ConteoPorCategoria(db.categorias, db.tareas, userId)))
  {
    if !db.available {
      return Failure(500, "Error al obtener datos");
    }
    r := Success(200, None, Some(ConteoPorCategoria(db.categorias, db.tareas, userId)));
  }

  // ---------------------------------------------------------------------------
  // Tasks per state and per priority

  function Estado(t: Tarea): Option<string> {
    t.estado
  }

  function Prioridad(t: Tarea): Option<string> {
    t.prioridad
  }

  /** `tareasPorEstado`: `GROUP BY estado` over the caller's tasks; a NULL state is a
      group of its own. */
  function ConteoPorEstado(tareas: seq<Tarea>, u: int): (r: seq<(Option<string>, nat)>)
    ensures DistinctKeys(r)
    ensures forall x :: x in r ==> x.1 == |Filter(tareas, Donde(TareaModel.Propias(u), Estado, x.0))| >= 1
    ensures forall t :: t in tareas && t.usuarioId == u ==> exists x :: x in r && x.0 == t.estado
    ensures Total(r) == |Filter(tareas, TareaModel.Propias(u))|
  {
    GroupWhere(tareas, TareaModel.Propias(u), Estado);
    GroupCount(Filter(tareas, TareaModel.Propias(u)), Estado)
  }

  /** `tareasPorPrioridad`: `GROUP BY prioridad` over the caller's tasks. */
  function ConteoPorPrioridad(tareas: seq<Tarea>, u: int): (r: seq<(Option<string>, nat)>)
    ensures DistinctKeys(r)
    ensures forall x :: x in r ==> x.1 == |Filter(tareas, Donde(TareaModel.Propias(u), Prioridad, x.0))| >= 1
    ensures forall t :: t in tareas && t.usuarioId == u ==> exists x :: x in r && x.0 == t.prioridad
    ensures Total(r) == |Filter(tareas, TareaModel.Propias(u))|
  {
    GroupWhere(tareas, TareaModel.Propias(u), Prioridad);
    GroupCount(Filter(tareas, TareaModel.Propias(u)), Prioridad)
  }

  /** The group of key `k` among the caller's tasks holds the number of the caller's
      tasks that satisfy `q`, the condition "key is k"; with no such group there is no
      such task. */
  lemma Grupo(tareas: seq<Tarea>, u: int, key: Tarea -> Option<string>, k: Option<string>, q: Tarea -> bool)
    requires forall t :: q(t) == (key(t) == k)
    ensures var propias := Filter(tareas, TareaModel.Propias(u));
      var g := GroupCount(propias, key);
      && (forall x :: x in g && x.0 == k ==> x.1 == |Filter(propias, q)| && propias != [])
      && ((forall x :: x in g ==> x.0 != k) ==> Filter(propias, q) == [])
  {
    var propias := Filter(tareas, TareaModel.Propias(u));
    var g := GroupCount(propias, key);
    GroupWhere(tareas, TareaModel.Propias(u), key);
    FilterTwice(tareas, TareaModel.Propias(u), Donde(TareaModel.Propias(u), key, k));
    FilterSame(propias, Donde(TareaModel.Propias(u), key, k), q);
    var conK := Filter(propias, q);
    if conK != [] {
      assert conK[0] in conK;
    }
  }

  /** The state chart agrees with the dashboard counters: the 'completada', 'pendiente'
      and 'en_progreso' groups hold exactly the counts `obtenerEstadisticas` reports, and
      a state without a group has a count of 0. */
  lemma EstadosCoinciden(tareas: seq<Tarea>, u: int, hoy: Day, e: string)
    requires e in ["completada", "pendiente", "en_progreso"]
    ensures var s := TareaModel.ObtenerEstadisticas(tareas, u, hoy);
      var n := if e == "completada" then s.completadas
               else if e == "pendiente" then s.pendientes else s.enProgreso;
      && (forall x :: x in ConteoPorEstado(tareas, u) && x.0 == Some(e) ==> n == Some(x.1))
      && ((forall x :: x in ConteoPorEstado(tareas, u) ==> x.0 != Some(e)) ==> n.None? || n == Some(0))
  {
    var s := TareaModel.ObtenerEstadisticas(tareas, u, hoy);
    var n := if e == "completada" then s.completadas
             else if e == "pendiente" then s.pendientes else s.enProgreso;
    assert n == TareaModel.Suma(Filter(tareas, TareaModel.Propias(u)), TareaModel.EstadoEs(e));
    Grupo(tareas, u, Estado, Some(e), TareaModel.EstadoEs(e));
  }

  /** The priority chart agrees with the 'alta' counter of the dashboard. */
  lemma AltaCoincide(tareas: seq<Tarea>, u: int, hoy: Day)
    ensures var s := TareaModel.ObtenerEstadisticas(tareas, u, hoy);
      && (forall x :: x in ConteoPorPrioridad(tareas, u) && x.0 == Some("alta") ==> s.altaPrioridad == Some(x.1))
      && ((forall x :: x in ConteoPorPrioridad(tareas, u) ==> x.0 != Some("alta")) ==>
          s.altaPrioridad.None? || s.altaPrioridad == Some(0))
  {
    var s := TareaModel.ObtenerEstadisticas(tareas, u, hoy);
    assert s.altaPrioridad == TareaModel.Suma(Filter(tareas, TareaModel.Propias(u)), TareaModel.PrioridadEs("alta"));
    Grupo(tareas, u, Prioridad, Some("alta"), TareaModel.PrioridadEs("alta"));
  }

  /** `GET /por-estado`. */
  method TareasPorEstado(db: Database, userId: int) returns (r: Reply<seq<(Option<string>, nat)>>)
    ensures !db.available ==> r == Failure(500, "Error al obtener datos")
    ensures db.available ==> r == Success(200, None, Some(ConteoPorEstado(db.tareas, userId)))
  {
    if !db.available {
      return Failure(500, "Error al obtener datos");
    }
    r := Success(200, None, Some(ConteoPorEstado(db.tareas, userId)));
  }

  /** `GET /por-prioridad`. */
  method TareasPorPrioridad(db: Database, userId: int) returns (r: Reply<seq<(Option<string>, nat)>>)
    ensures !db.available ==> r == Failure(500, "Error al obtener datos")
    ensures db.available ==> r == Success(200, None, Some(ConteoPorPrioridad(db.tareas, userId)))
  {
    if !db.available {
      return Failure(500, "Error al obtener datos");
    }
    r := Success(200, None, Some(ConteoPorPrioridad(db.tareas, userId)));
  }

  // ---------------------------------------------------------------------------
  // Weekly productivity

  /** The window of `productividadSemanal`, in days. */
  const DiasSemana: int := 7

  /** `usuario_id = u AND estado = 'completada' AND fecha_completada >= DATE_SUB(CURDATE(),
      INTERVAL 7 DAY)`: the DATE bound compares as its midnight, and a NULL completion
      time fails the comparison. */
  function CompletadaEnSemana(u: int, hoy: Day): Tarea -> bool {
    (t: Tarea) => t.usuarioId == u && t.estado == Some("completada") && t.fechaCompletada.Some?
                  && t.fechaCompletada.value >= (hoy - DiasSemana) * SecondsPerDay
  }

  /** `DATE(fecha_completada)`. */
  function DiaCompletada(t: Tarea): Day {
    if t.fechaCompletada.Some? then DayOf(t.fechaCompletada.value) else 0
  }

  function Dia(x: (Day, nat)): int {
    x.0
  }

  /** An instant at or after the midnight of day `d` falls on day `d` or later. */
  lemma DiaDesde(t: Instant, d: Day)
    requires t >= d * SecondsPerDay
    ensures DayOf(t) >= d
  {
    DayOfBounds(t);
  }

  /** The week's completions grouped by day, before ORDER BY: distinct days, none before
      the window, each counting the completions of its day, every completion counted. */
  lemma SemanaAgrupada(tareas: seq<Tarea>, u: int, hoy: Day)
    ensures var g := GroupCount(Filter(tareas, CompletadaEnSemana(u, hoy)), DiaCompletada);
      && DistinctKeys(g)
      && (forall x :: x in g ==> x.0 >= hoy - DiasSemana)
      && (forall x :: x in g ==> x.1 == |Filter(tareas, Donde(CompletadaEnSemana(u, hoy), DiaCompletada, x.0))| >= 1)
      && (forall t :: t in tareas && CompletadaEnSemana(u, hoy)(t) ==>
          exists x :: x in g && x.0 == DayOf(t.fechaCompletada.value))
      && Total(g) == |Filter(tareas, CompletadaEnSemana(u, hoy))|
  {
    var p := CompletadaEnSemana(u, hoy);
    GroupWhere(tareas, p, DiaCompletada);
    forall t | p(t) ensures DiaCompletada(t) >= hoy - DiasSemana {
      DiaDesde(t.fechaCompletada.value, hoy - DiasSemana);
    }
  }

  /** ORDER BY fecha over groups with distinct days: the days come out strictly
      ascending, with the same groups and the same sum of counts. */
  lemma PorDia(g: seq<(Day, nat)>, r: seq<(Day, nat)>)
    requires DistinctKeys(g) && multiset(r) == multiset(g) && SortedBy(r, Dia)
    ensures forall i, j :: 0 <= i < j < |r| ==> r[i].0 < r[j].0
    ensures forall x :: x in r <==> x in g
    ensures Total(r) == Total(g)
  {
    SameElements(r, g);
    PermutationDistinct(g, r);
    TotalPermutation(r, g);
  }

  /** `productividadSemanal`: per day of the last week, the number of the caller's tasks
      completed that day, earliest day first. */
  function CompletadasPorDia(tareas: seq<Tarea>, u: int, hoy: Day): (r: seq<(Day, nat)>)
    ensures forall i, j :: 0 <= i < j < |r| ==> r[i].0 < r[j].0
    ensures forall x :: x in r ==> x.0 >= hoy - DiasSemana
    ensures forall x :: x in r ==> x.1 == |Filter(tareas, Donde(CompletadaEnSemana(u, hoy), DiaCompletada, x.0))| >= 1
    ensures forall t :: t in tareas && CompletadaEnSemana(u, hoy)(t) ==>
      exists x :: x in r && x.0 == DayOf(t.fechaCompletada.value)
    ensures Total(r) == |Filter(tareas, CompletadaEnSemana(u, hoy))|
  {
    var g := GroupCount(Filter(tareas, CompletadaEnSemana(u, hoy)), DiaCompletada);
    SemanaAgrupada(tareas, u, hoy);
    var r := SortBy(g, Dia);
    PorDia(g, r);
    r
  }

  /** `GET /productividad-semanal`. */
  method ProductividadSemanal(db: Database, userId: int, hoy: Day) returns (r: Reply<seq<(Day, nat)>>)
    ensures !db.available ==> r == Failure(500, "Error al obtener datos")
    ensures db.available ==> r == Success(200, None, Some(CompletadasPorDia(db.tareas, userId, hoy)))
  {
    if !db.available {
      return Failure(500, "Error al obtener datos");
    }
    r := Success(200, None, Some(CompletadasPorDia(db.tareas, userId, hoy)));
  }

  // ---------------------------------------------------------------------------
  // Tasks due soon

  /** The window of `tareasProximasVencer`, in days. */
  const DiasAviso: int := 7

  /** `usuario_id = u AND estado != 'completada' AND fecha_limite IS NOT NULL AND fecha_limite
      BETWEEN CURDATE() AND CURDATE() + 7`: a NULL state fails `!=`, and both bounds are
      inclusive. */
  function PorVencer(u: int, hoy: Day): Tarea -> bool {
    (t: Tarea) => t.usuarioId == u && t.estado.Some? && t.estado.value != "completada"
                  && t.fechaLimite.Some? && hoy <= t.fechaLimite.value <= hoy + DiasAviso
  }

  function Limite(t: Tarea): int {
    if t.fechaLimite.Some? then t.fechaLimite.value else 0
  }

  function SoloTarea(v: TareaModel.TareaConCategoria): Tarea {
    v.tarea
  }

  /** `tareasProximasVencer`: the caller's open tasks due within the week, joined with
      their category, earliest deadline first. */
  function ProximasAVencer(tareas: seq<Tarea>, categorias: seq<Categoria>, u: int, hoy: Day)
    : (r: seq<TareaModel.TareaConCategoria>)
    ensures |r| == |Filter(tareas, PorVencer(u, hoy))|
    ensures forall v :: v in r ==>
      && v.tarea in tareas && v.tarea.usuarioId == u
      && v.tarea.estado.Some? && v.tarea.estado.value != "completada"
      && v.tarea.fechaLimite.Some? && hoy <= v.tarea.fechaLimite.value <= hoy + DiasAviso
      && v == TareaModel.ConCategoriaDe(categorias, v.tarea)
    ensures forall t :: t in tareas && PorVencer(u, hoy)(t) ==> TareaModel.ConCategoriaDe(categorias, t) in r
    ensures forall i, j :: 0 <= i < j < |r| ==> Limite(r[i].tarea) <= Limite(r[j].tarea)
  {
    var f := Filter(tareas, PorVencer(u, hoy));
    var s := SortBy(f, Limite);
    SameElements(s, f);
    var r := MapSeq(s, TareaModel.ConCategoria(categorias));
    MapSeqInverse(s, TareaModel.ConCategoria(categorias), SoloTarea);
    r
  }

  /** `GET /proximas-vencer`. */
  method TareasProximasVencer(db: Database, userId: int, hoy: Day)
    returns (r: Reply<seq<TareaModel.TareaConCategoria>>)
    ensures !db.available ==> r == Failure(500, "Error al obtener datos")
    ensures db.available ==> r == Success(200, None, Some(ProximasAVencer(db.tareas, db.categorias, userId, hoy)))
  {
    if !db.available {
      return Failure(500, "Error al obtener datos");
    }
    r := Success(200, None, Some(ProximasAVencer(db.tareas, db.categorias, userId, hoy)));
  }

  // ---------------------------------------------------------------------------
  // Recent activity

  /** `req.query.limite || 20` when the parameter is missing or empty. */
  const LimiteActividad: nat := 20

  /** `GET /actividad-reciente`: `limite` is the number `parseInt` reads from the query
      parameter, `None` when the parameter is missing or empty. MySQL refuses a negative
      LIMIT, which lands in the `catch`. */
  method ActividadReciente(db: Database, userId: int, limite: Option<int>) returns (r: Reply<seq<Actividad>>)
    ensures !db.available || (limite.Some? && limite.value < 0) ==> r == Failure(500, "Error al obtener actividad")
    ensures db.available && limite.None? ==>
      r == Success(200, None, Some(ActividadModel.ObtenerReciente(db.actividad, userId, Some(LimiteActividad))))
    ensures db.available && limite.Some? && limite.value >= 0 ==>
      r == Success(200, None, Some(ActividadModel.ObtenerReciente(db.actividad, userId, Some(limite.value))))
  {
    if !db.available {
      return Failure(500, "Error al obtener actividad");
    }
    var n: int := if limite.Some? then limite.value else LimiteActividad;
    if n < 0 {
      return Failure(500, "Error al obtener actividad");
    }
    r := Success(200, None, Some(ActividadModel.ObtenerReciente(db.actividad, userId, Some(n))));
  }

  // ---------------------------------------------------------------------------
  // Dashboard

  /** How many tasks and entries the dashboard shows. */
  const LimiteResumen: nat := 5

  function Creada(v: TareaModel.TareaConCategoria): int {
    v.tarea.fechaCreacion
  }

  /** The caller's tasks with their category, newest first. */
  function ConCategoriaRecientes(tareas: seq<Tarea>, categorias: seq<Categoria>, u: int)
    : (r: seq<TareaModel.TareaConCategoria>)
    ensures |r| == |Filter(tareas, TareaModel.Propias(u))|
    ensures forall v :: v in r <==>
      v.tarea in tareas && v.tarea.usuarioId == u && v == TareaModel.ConCategoriaDe(categorias, v.tarea)
    ensures forall i, j :: 0 <= i < j < |r| ==> Creada(r[i]) >= Creada(r[j])
  {
    var f := Filter(tareas, TareaModel.Propias(u));
    var m := MapSeq(f, TareaModel.ConCategoria(categorias));
    MapSeqInverse(f, TareaModel.ConCategoria(categorias), SoloTarea);
    var s := SortDescBy(m, Creada);
    SameElements(s, m);
    s
  }

  /** The dashboard's recent tasks: the caller's five newest tasks with their category,
      newest first. */
  function TareasRecientes(tareas: seq<Tarea>, categorias: seq<Categoria>, u: int)
    : (r: seq<TareaModel.TareaConCategoria>)
    ensures var propias := |Filter(tareas, TareaModel.Propias(u))|;
      |r| == if propias <= LimiteResumen then propias else LimiteResumen
    ensures forall v :: v in r ==>
      v.tarea in tareas && v.tarea.usuarioId == u && v == TareaModel.ConCategoriaDe(categorias, v.tarea)
    ensures forall i, j :: 0 <= i < j < |r| ==> r[i].tarea.fechaCreacion >= r[j].tarea.fechaCreacion
    ensures forall t, v :: t in tareas && t.usuarioId == u && TareaModel.ConCategoriaDe(categorias, t) !in r && v in r ==>
      v.tarea.fechaCreacion >= t.fechaCreacion
  {
    RecientesDelResumen(tareas, categorias, u);
    Take(ConCategoriaRecientes(tareas, categorias, u), LimiteResumen)
  }

  lemma RecientesDelResumen(tareas: seq<Tarea>, categorias: seq<Categoria>, u: int)
    ensures var r := Take(ConCategoriaRecientes(tareas, categorias, u), LimiteResumen);
      && (forall v :: v in r ==>
            v.tarea in tareas && v.tarea.usuarioId == u && v == TareaModel.ConCategoriaDe(categorias, v.tarea))
      && (forall i, j :: 0 <= i < j < |r| ==> r[i].tarea.fechaCreacion >= r[j].tarea.fechaCreacion)
      && (forall t, v :: t in tareas && t.usuarioId == u && TareaModel.ConCategoriaDe(categorias, t) !in r && v in r ==>
            v.tarea.fechaCreacion >= t.fechaCreacion)
  {
    var s := ConCategoriaRecientes(tareas, categorias, u);
    TakeKeepsLargest(s, Creada, LimiteResumen);
    var r := Take(s, LimiteResumen);
    forall t, v | t in tareas && t.usuarioId == u && TareaModel.ConCategoriaDe(categorias, t) !in r && v in r
      ensures v.tarea.fechaCreacion >= t.fechaCreacion
    {
      var w := TareaModel.ConCategoriaDe(categorias, t);
      assert w.tarea == t;
      assert w in s;
      assert Creada(v) >= Creada(w);
    }
    forall i, j | 0 <= i < j < |r| ensures r[i].tarea.fechaCreacion >= r[j].tarea.fechaCreacion {
      assert Creada(r[i]) >= Creada(r[j]);
    }
  }

  /** The payload of `resumenDashboard`. */
  datatype Resumen = Resumen(estadisticas: TareaModel.Estadisticas,
                             tareasRecientes: seq<TareaModel.TareaConCategoria>,
                             actividades: seq<Actividad>)

  /** `GET /dashboard`: the counters, the five newest tasks and the five newest activity
      entries of the caller. */
  method ResumenDashboard(db: Database, userId: int, hoy: Day) returns (r: Reply<Resumen>)
    ensures !db.available ==> r == Failure(500, "Error al obtener resumen")
    ensures db.available ==>
      r == Success(200, None, Some(Resumen(TareaModel.ObtenerEstadisticas(db.tareas, userId, hoy),
                                           TareasRecientes(db.tareas, db.categorias, userId),
                                           ActividadModel.ObtenerReciente(db.actividad, userId, Some(LimiteResumen)))))
  {
    if !db.available {
      return Failure(500, "Error al obtener resumen");
    }
    var estadisticas := TareaModel.ObtenerEstadisticas(db.tareas, userId, hoy);
    var recientes := TareasRecientes(db.tareas, db.categorias, userId);
    var actividades := ActividadModel.ObtenerReciente(db.actividad, userId, Some(LimiteResumen));
    r := Success(200, None, Some(Resumen(estadisticas, recientes, actividades)));
  }
}
