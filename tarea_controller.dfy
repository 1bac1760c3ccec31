/** `TareaController`: the handlers of `/api/tareas`. Each takes the authenticated
    caller's id, the route parameters and the body, and answers with a `Reply`; every
    statement that throws lands in the handler's `catch`, which answers 500. */
module TareaController {
  import opened Wrappers
  import opened Seqs
  import opened Schema
  import opened Http
  import Text
  import RutasTareas
  import TareaModel
  import ActividadModel

  /** `GET /`: the caller's tasks with their category and tags. */
  method ObtenerTodas(db: Database, userId: int) returns (r: Reply<seq<TareaModel.TareaVista>>)
    ensures !db.available ==> r == Failure(500, "Error al obtener tareas")
    ensures db.available ==>
      r == Success(200, None, Some(TareaModel.ObtenerPorUsuario(db.tareas, db.categorias, db.etiquetas,
                                                               db.tareasEtiquetas, userId)))
  {
    if !db.available {
      return Failure(500, "Error al obtener tareas");
    }
    var tareas := TareaModel.ObtenerPorUsuario(db.tareas, db.categorias, db.etiquetas, db.tareasEtiquetas, userId);
    r := Success(200, None, Some(tareas));
  }

  /** `GET /:id`: 404 unless the caller owns task `id`. */
  method ObtenerUna(db: Database, userId: int, id: int) returns (r: Reply<Tarea>)
    ensures !db.available ==> r == Failure(500, "Error al obtener tarea")
    ensures db.available ==>
      match TareaModel.ObtenerPorId(db.tareas, id, userId)
      case None => r == Failure(404, "Tarea no encontrada")
      case Some(t) => r == Success(200, None, Some(t)) && t in db.tareas && t.id == id && t.usuarioId == userId
  {
    if !db.available {
      return Failure(500, "Error al obtener tarea");
    }
    var tarea := TareaModel.ObtenerPorId(db.tareas, id, userId);
    if tarea.None? {
      return Failure(404, "Tarea no encontrada");
    }
    r := Success(200, None, Some(tarea.value));
  }

  /** Whether every column `crear` binds is present in the body. */
  predicate CrearEnlazable(n: RutasTareas.NuevaTarea) {
    Bound(n.descripcion) && Bound(n.fechaLimite) && Bound(n.prioridad) && Bound(n.categoriaId)
  }

  /** The row `crear` inserts for a validated body. */
  function NuevaFila(id: int, n: RutasTareas.NuevaTarea, userId: int, now: Instant): Tarea
    requires CrearEnlazable(n)
  {
    Tarea(id, Some(n.titulo), Sql(n.descripcion), Sql(n.fechaLimite), Sql(n.prioridad),
          Some(EstadoInicial), userId, Sql(n.categoriaId), now, None)
  }

  /** `POST /` once the body has passed validation: the task is inserted in state
      'pendiente', a 'tarea_creada' entry is logged and the answer is 201 with the new id;
      a column missing from the body makes the statement fail with 500. */
  method Insertar(db: Database, userId: int, n: RutasTareas.NuevaTarea, now: Instant) returns (r: Reply<int>)
    requires db.Valid()
    modifies db`tareas, db`nextTareaId, db`actividad, db`nextActividadId
    ensures db.Valid()
    ensures !db.available || !CrearEnlazable(n) ==> r == Failure(500, "Error al crear tarea") && unchanged(db)
    ensures db.available && CrearEnlazable(n) ==>
      && r == Success(201, Some("Tarea creada exitosamente"), Some(old(db.nextTareaId)))
      && db.tareas == old(db.tareas) + [NuevaFila(old(db.nextTareaId), n, userId, now)]
      && db.nextTareaId == old(db.nextTareaId) + 1
      && db.actividad == old(db.actividad) + [Actividad(old(db.nextActividadId), userId, "tarea_creada",
                                                        Some("Tarea creada: " + n.titulo), now)]
      && db.nextActividadId == old(db.nextActividadId) + 1
  {
    if !CrearEnlazable(n) {
      return Failure(500, "Error al crear tarea");
    }
    var creada := TareaModel.Crear(db, Some(n.titulo), Sql(n.descripcion), Sql(n.fechaLimite), Sql(n.prioridad),
                                   userId, Sql(n.categoriaId), now);
    if creada.Err? {
      return Failure(500, "Error al crear tarea");
    }
    var registrada := ActividadModel.Registrar(db, userId, "tarea_creada", Some("Tarea creada: " + n.titulo), now);
    r := Success(201, Some("Tarea creada exitosamente"), Some(creada.value));
  }

  /** `POST /`: validation errors give 400 and write nothing; otherwise `Insertar`
      (`TareaModel.CreadaVisible`: `GET /:id` then finds the new task). */
  method Crear(db: Database, userId: int, body: RutasTareas.CuerpoTarea, now: Instant) returns (r: Reply<int>)
    requires db.Valid()
    modifies db`tareas, db`nextTareaId, db`actividad, db`nextActividadId
    ensures db.Valid()
    ensures var v := RutasTareas.ValidarCrear(body);
      v.errors != [] ==> r == Invalid(v.errors) && unchanged(db)
    ensures var v := RutasTareas.ValidarCrear(body);
      v.errors == [] && (!db.available || !CrearEnlazable(v.body)) ==>
      r == Failure(500, "Error al crear tarea") && unchanged(db)
    ensures var v := RutasTareas.ValidarCrear(body);
      v.errors == [] && db.available && CrearEnlazable(v.body) ==>
      && r == Success(201, Some("Tarea creada exitosamente"), Some(old(db.nextTareaId)))
      && db.tareas == old(db.tareas) + [NuevaFila(old(db.nextTareaId), v.body, userId, now)]
      && db.nextTareaId == old(db.nextTareaId) + 1
      && db.actividad == old(db.actividad) + [Actividad(old(db.nextActividadId), userId, "tarea_creada",
                                                        Some("Tarea creada: " + v.body.titulo), now)]
      && db.nextActividadId == old(db.nextActividadId) + 1
  {
    var v := RutasTareas.ValidarCrear(body);
    if v.errors != [] {
      return Invalid(v.errors);
    }
    r := Insertar(db, userId, v.body, now);
  }

  /** Whether every column `actualizar` binds is present in the body. */
  predicate ActualizarEnlazable(b: RutasTareas.CuerpoTarea) {
    && Bound(b.titulo) && Bound(b.descripcion) && Bound(b.fechaLimite)
    && Bound(b.prioridad) && Bound(b.estado) && Bound(b.categoriaId)
  }

  /** The SET list `actualizar` applies for a body. */
  function Cambios(b: RutasTareas.CuerpoTarea): Tarea -> Tarea
    requires ActualizarEnlazable(b)
  {
    TareaModel.Reescribir(Sql(b.titulo), Sql(b.descripcion), Sql(b.fechaLimite), Sql(b.prioridad),
                          Sql(b.estado), Sql(b.categoriaId))
  }

  /** `PUT /:id`: no validation runs; the six columns are rewritten as sent (a missing
      one makes the statement fail), and 404 answers a task the caller does not own. */
  method Actualizar(db: Database, userId: int, id: int, body: RutasTareas.CuerpoTarea) returns (r: Reply<()>)
    requires db.Valid()
    modifies db`tareas
    ensures db.Valid()
    ensures !db.available || !ActualizarEnlazable(body) ==>
      r == Failure(500, "Error al actualizar tarea") && db.tareas == old(db.tareas)
    ensures db.available && ActualizarEnlazable(body) ==>
      && db.tareas == UpdateWhere(old(db.tareas), TareaModel.Dueno(id, userId), Cambios(body))
      && (|Filter(old(db.tareas), TareaModel.Dueno(id, userId))| == 0 <==> r == Failure(404, "Tarea no encontrada"))
      && (|Filter(old(db.tareas), TareaModel.Dueno(id, userId))| == 1 <==>
            r == Success(200, Some("Tarea actualizada exitosamente"), None))
  {
    if !ActualizarEnlazable(body) {
      return Failure(500, "Error al actualizar tarea");
    }
    var res := TareaModel.Actualizar(db, id, Sql(body.titulo), Sql(body.descripcion), Sql(body.fechaLimite),
                                     Sql(body.prioridad), Sql(body.estado), Sql(body.categoriaId), userId);
    if res.Err? {
      return Failure(500, "Error al actualizar tarea");
    }
    if res.value == 0 {
      return Failure(404, "Tarea no encontrada");
    }
    r := Success(200, Some("Tarea actualizada exitosamente"), None);
  }

  /** `PATCH /:id/estado`: the route's check of `estado` is never consulted. The state
      and completion time are rewritten; only a change to 'completada' of a task the
      caller owns is logged, as 'tarea_completada'. */
  method CambiarEstado(db: Database, userId: int, id: int, estado: Field<string>, now: Instant) returns (r: Reply<()>)
    requires db.Valid()
    modifies db`tareas, db`actividad, db`nextActividadId
    ensures db.Valid()
    ensures !db.available || !Bound(estado) ==>
      r == Failure(500, "Error al cambiar estado") && unchanged(db)
    ensures db.available && Bound(estado) ==>
      var n := |Filter(old(db.tareas), TareaModel.Dueno(id, userId))|;
      && db.tareas == UpdateWhere(old(db.tareas), TareaModel.Dueno(id, userId), TareaModel.NuevoEstado(Sql(estado), now))
      && (n == 0 ==> r == Failure(404, "Tarea no encontrada"))
      && (n != 0 ==> r == Success(200, Some("Estado de tarea actualizado exitosamente"), None))
      && (n != 0 && estado == Given("completada") ==>
            && db.actividad == old(db.actividad) + [Actividad(old(db.nextActividadId), userId, "tarea_completada",
                                                              Some("Tarea completada: ID " + Text.IntToString(id)), now)]
            && db.nextActividadId == old(db.nextActividadId) + 1)
      && (n == 0 || estado != Given("completada") ==>
            db.actividad == old(db.actividad) && db.nextActividadId == old(db.nextActividadId))
  {
    if !Bound(estado) {
      return Failure(500, "Error al cambiar estado");
    }
    var res := TareaModel.CambiarEstado(db, id, Sql(estado), userId, now);
    if res.Err? {
      return Failure(500, "Error al cambiar estado");
    }
    if res.value == 0 {
      return Failure(404, "Tarea no encontrada");
    }
    if estado == Given("completada") {
      var registrada := ActividadModel.Registrar(db, userId, "tarea_completada",
                                                 Some("Tarea completada: ID " + Text.IntToString(id)), now);
    }
    r := Success(200, Some("Estado de tarea actualizado exitosamente"), None);
  }

  /** `DELETE /:id`: removes the caller's task, logs 'tarea_eliminada' and answers 200;
      404 and nothing logged when the caller owns no task `id`. */
  method Eliminar(db: Database, userId: int, id: int, now: Instant) returns (r: Reply<()>)
    requires db.Valid()
    modifies db`tareas, db`actividad, db`nextActividadId
    ensures db.Valid()
    ensures !db.available ==> r == Failure(500, "Error al eliminar tarea") && unchanged(db)
    ensures db.available ==>
      var n := |Filter(old(db.tareas), TareaModel.Dueno(id, userId))|;
      && db.tareas == Filter(old(db.tareas), Not(TareaModel.Dueno(id, userId)))
      && TareaModel.ObtenerPorId(db.tareas, id, userId).None?
      && (n == 0 ==>
            && r == Failure(404, "Tarea no encontrada")
            && db.actividad == old(db.actividad) && db.nextActividadId == old(db.nextActividadId))
      && (n != 0 ==>
            && r == Success(200, Some("Tarea eliminada exitosamente"), None)
            && db.actividad == old(db.actividad) + [Actividad(old(db.nextActividadId), userId, "tarea_eliminada",
                                                              Some("Tarea eliminada: ID " + Text.IntToString(id)), now)]
            && db.nextActividadId == old(db.nextActividadId) + 1)
  {
    var res := TareaModel.Eliminar(db, id, userId);
    if res.Err? {
      return Failure(500, "Error al eliminar tarea");
    }
    if res.value == 0 {
      return Failure(404, "Tarea no encontrada");
    }
    var registrada := ActividadModel.Registrar(db, userId, "tarea_eliminada",
                                               Some("Tarea eliminada: ID " + Text.IntToString(id)), now);
    r := Success(200, Some("Tarea eliminada exitosamente"), None);
  }

  /** `GET /estado/:estado`. */
  method ObtenerPorEstado(db: Database, userId: int, estado: string) returns (r: Reply<seq<Tarea>>)
    ensures !db.available ==> r == Failure(500, "Error al obtener tareas")
    ensures db.available ==> r == Success(200, None, Some(TareaModel.ObtenerPorEstado(db.tareas, userId, estado)))
  {
    if !db.available {
      return Failure(500, "Error al obtener tareas");
    }
    r := Success(200, None, Some(TareaModel.ObtenerPorEstado(db.tareas, userId, estado)));
  }

  /** `GET /categoria/:categoriaId`. */
  method ObtenerPorCategoria(db: Database, userId: int, categoriaId: int) returns (r: Reply<seq<Tarea>>)
    ensures !db.available ==> r == Failure(500, "Error al obtener tareas")
    ensures db.available ==>
      r == Success(200, None, Some(TareaModel.ObtenerPorCategoria(db.tareas, userId, categoriaId)))
  {
    if !db.available {
      return Failure(500, "Error al obtener tareas");
    }
    r := Success(200, None, Some(TareaModel.ObtenerPorCategoria(db.tareas, userId, categoriaId)));
  }

  /** `POST /:id/etiquetas`: always 200, since the model swallows every failure; neither
      the task nor the tag is checked to belong to the caller. */
  method AsignarEtiqueta(db: Database, id: int, etiquetaId: Field<int>) returns (r: Reply<()>)
    modifies db`tareasEtiquetas
    ensures r == Success(200, Some("Etiqueta asignada exitosamente"), None)
    ensures db.available && etiquetaId.Given? ==>
      db.tareasEtiquetas == old(db.tareasEtiquetas) + {(id, etiquetaId.value)}
    ensures !(db.available && etiquetaId.Given?) ==> db.tareasEtiquetas == old(db.tareasEtiquetas)
  {
    var insertado := TareaModel.AsignarEtiqueta(db, id, etiquetaId);
    r := Success(200, Some("Etiqueta asignada exitosamente"), None);
  }

  /** `DELETE /:id/etiquetas/:etiquetaId`: removes the pair, whoever owns the task. */
  method RemoverEtiqueta(db: Database, id: int, etiquetaId: int) returns (r: Reply<()>)
    modifies db`tareasEtiquetas
    ensures !db.available ==> r == Failure(500, "Error al remover etiqueta") && db.tareasEtiquetas == old(db.tareasEtiquetas)
    ensures db.available ==>
      && r == Success(200, Some("Etiqueta removida exitosamente"), None)
      && db.tareasEtiquetas == old(db.tareasEtiquetas) - {(id, etiquetaId)}
  {
    var res := TareaModel.RemoverEtiqueta(db, id, etiquetaId);
    if res.Err? {
      return Failure(500, "Error al remover etiqueta");
    }
    r := Success(200, Some("Etiqueta removida exitosamente"), None);
  }
}
