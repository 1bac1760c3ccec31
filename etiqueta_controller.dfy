/** `EtiquetaController`: the handlers of `/api/etiquetas`. */
module EtiquetaController {
  import opened Wrappers
  import opened Seqs
  import opened Schema
  import opened Http
  import RutasEtiquetas
  import EtiquetaModel

  /** The colour `crear` falls back on. */
  const ColorPorDefecto := "#95E1D3"

  /** `GET /`: the caller's tags. */
  method ObtenerTodas(db: Database, userId: int) returns (r: Reply<seq<Etiqueta>>)
    ensures !db.available ==> r == Failure(500, "Error al obtener etiquetas")
    ensures db.available ==> r == Success(200, None, Some(EtiquetaModel.ObtenerPorUsuario(db.etiquetas, userId)))
  {
    if !db.available {
      return Failure(500, "Error al obtener etiquetas");
    }
    r := Success(200, None, Some(EtiquetaModel.ObtenerPorUsuario(db.etiquetas, userId)));
  }

  /** `GET /:id`: 404 unless the caller owns tag `id`. */
  method ObtenerUna(db: Database, userId: int, id: int) returns (r: Reply<Etiqueta>)
    ensures !db.available ==> r == Failure(500, "Error al obtener etiqueta")
    ensures db.available ==>
      match EtiquetaModel.ObtenerPorId(db.etiquetas, id, userId)
      case None => r == Failure(404, "Etiqueta no encontrada")
      case Some(e) => r == Success(200, None, Some(e)) && e in db.etiquetas && e.id == id && e.usuarioId == userId
  {
    if !db.available {
      return Failure(500, "Error al obtener etiqueta");
    }
    var etiqueta := EtiquetaModel.ObtenerPorId(db.etiquetas, id, userId);
    if etiqueta.None? {
      return Failure(404, "Etiqueta no encontrada");
    }
    r := Success(200, None, Some(etiqueta.value));
  }

  /** The row `crear` inserts for a validated body. */
  function NuevaFila(id: int, b: RutasEtiquetas.Etiqueta, userId: int, now: Instant): Etiqueta {
    Etiqueta(id, Some(b.nombre), Some(OrDefault(b.color, ColorPorDefecto)), userId, now)
  }

  /** `POST /` once the body has passed validation: a name the caller already uses gives
      400 'Ya existe una etiqueta con ese nombre', with the auto-increment value used up;
      otherwise the tag is inserted with the default colour where none was sent. */
  method Insertar(db: Database, userId: int, b: RutasEtiquetas.Etiqueta, now: Instant) returns (r: Reply<int>)
    requires db.Valid()
    modifies db`etiquetas, db`nextEtiquetaId
    ensures db.Valid()
    ensures !db.available ==> r == Failure(500, "Error al crear etiqueta") && unchanged(db)
    ensures db.available && EtiquetaModel.Ocupado(old(db.etiquetas), Some(b.nombre), userId, old(db.nextEtiquetaId)) ==>
      r == Failure(400, "Ya existe una etiqueta con ese nombre")
      && db.etiquetas == old(db.etiquetas) && db.nextEtiquetaId == old(db.nextEtiquetaId) + 1
    ensures db.available && !EtiquetaModel.Ocupado(old(db.etiquetas), Some(b.nombre), userId, old(db.nextEtiquetaId)) ==>
      && r == Success(201, Some("Etiqueta creada exitosamente"), Some(old(db.nextEtiquetaId)))
      && db.etiquetas == old(db.etiquetas) + [NuevaFila(old(db.nextEtiquetaId), b, userId, now)]
      && db.nextEtiquetaId == old(db.nextEtiquetaId) + 1
  {
    var creada := EtiquetaModel.Crear(db, Some(b.nombre), Some(OrDefault(b.color, ColorPorDefecto)), userId, now);
    match creada {
      case Err(DupEntry) => return Failure(400, "Ya existe una etiqueta con ese nombre");
      case Err(ConnectionLost) => return Failure(500, "Error al crear etiqueta");
      case Ok(id) =>
        r := Success(201, Some("Etiqueta creada exitosamente"), Some(id));
    }
  }

  /** `POST /`: validation errors give 400 and write nothing; otherwise `Insertar`
      (`EtiquetaModel.CreadaVisible`: `GET /:id` then finds the new tag). */
  method Crear(db: Database, userId: int, body: RutasEtiquetas.CuerpoEtiqueta, now: Instant) returns (r: Reply<int>)
    requires db.Valid()
    modifies db`etiquetas, db`nextEtiquetaId
    ensures db.Valid()
    ensures var v := RutasEtiquetas.Validar(body);
      v.errors != [] ==> r == Invalid(v.errors) && unchanged(db)
    ensures var v := RutasEtiquetas.Validar(body);
      v.errors == [] && !db.available ==> r == Failure(500, "Error al crear etiqueta") && unchanged(db)
    ensures var v := RutasEtiquetas.Validar(body);
      v.errors == [] && db.available && EtiquetaModel.Ocupado(old(db.etiquetas), Some(v.body.nombre), userId, old(db.nextEtiquetaId)) ==>
      r == Failure(400, "Ya existe una etiqueta con ese nombre")
      && db.etiquetas == old(db.etiquetas) && db.nextEtiquetaId == old(db.nextEtiquetaId) + 1
    ensures var v := RutasEtiquetas.Validar(body);
      v.errors == [] && db.available && !EtiquetaModel.Ocupado(old(db.etiquetas), Some(v.body.nombre), userId, old(db.nextEtiquetaId)) ==>
      && r == Success(201, Some("Etiqueta creada exitosamente"), Some(old(db.nextEtiquetaId)))
      && db.etiquetas == old(db.etiquetas) + [NuevaFila(old(db.nextEtiquetaId), v.body, userId, now)]
      && db.nextEtiquetaId == old(db.nextEtiquetaId) + 1
  {
    var v := RutasEtiquetas.Validar(body);
    if v.errors != [] {
      return Invalid(v.errors);
    }
    r := Insertar(db, userId, v.body, now);
  }

  /** `PUT /:id`: the route's checks are never consulted; `nombre` arrives trimmed and
      `color` as sent (a missing one makes the statement fail). A name another of the
      caller's tags holds makes it fail too, with 500. */
  method Actualizar(db: Database, userId: int, id: int, body: RutasEtiquetas.CuerpoEtiqueta) returns (r: Reply<()>)
    requires db.Valid()
    modifies db`etiquetas
    ensures db.Valid()
    ensures var b := RutasEtiquetas.Validar(body).body;
      !db.available || !Bound(b.color) ==>
      r == Failure(500, "Error al actualizar etiqueta") && db.etiquetas == old(db.etiquetas)
    ensures var b := RutasEtiquetas.Validar(body).body;
      db.available && Bound(b.color) ==>
      var n := |Filter(old(db.etiquetas), EtiquetaModel.Dueno(id, userId))|;
      if n > 0 && EtiquetaModel.Ocupado(old(db.etiquetas), Some(b.nombre), userId, id) then
        r == Failure(500, "Error al actualizar etiqueta") && db.etiquetas == old(db.etiquetas)
      else
        && db.etiquetas == UpdateWhere(old(db.etiquetas), EtiquetaModel.Dueno(id, userId),
                                       EtiquetaModel.Reescribir(Some(b.nombre), Sql(b.color)))
        && (n == 0 ==> r == Failure(404, "Etiqueta no encontrada"))
        && (n != 0 ==> r == Success(200, Some("Etiqueta actualizada exitosamente"), None))
  {
    var b := RutasEtiquetas.Validar(body).body;
    if !Bound(b.color) {
      return Failure(500, "Error al actualizar etiqueta");
    }
    var res := EtiquetaModel.Actualizar(db, id, Some(b.nombre), Sql(b.color), userId);
    if res.Err? {
      return Failure(500, "Error al actualizar etiqueta");
    }
    if res.value == 0 {
      return Failure(404, "Etiqueta no encontrada");
    }
    r := Success(200, Some("Etiqueta actualizada exitosamente"), None);
  }

  /** `DELETE /:id`: removes the caller's tag; 404 when there is none. */
  method Eliminar(db: Database, userId: int, id: int) returns (r: Reply<()>)
    requires db.Valid()
    modifies db`etiquetas
    ensures db.Valid()
    ensures !db.available ==> r == Failure(500, "Error al eliminar etiqueta") && db.etiquetas == old(db.etiquetas)
    ensures db.available ==>
      && db.etiquetas == Filter(old(db.etiquetas), Not(EtiquetaModel.Dueno(id, userId)))
      && EtiquetaModel.ObtenerPorId(db.etiquetas, id, userId).None?
      && (|Filter(old(db.etiquetas), EtiquetaModel.Dueno(id, userId))| == 0 <==> r == Failure(404, "Etiqueta no encontrada"))
      && (|Filter(old(db.etiquetas), EtiquetaModel.Dueno(id, userId))| == 1 <==>
            r == Success(200, Some("Etiqueta eliminada exitosamente"), None))
  {
    var res := EtiquetaModel.Eliminar(db, id, userId);
    if res.Err? {
      return Failure(500, "Error al eliminar etiqueta");
    }
    if res.value == 0 {
      return Failure(404, "Etiqueta no encontrada");
    }
    r := Success(200, Some("Etiqueta eliminada exitosamente"), None);
  }

  /** `GET /tarea/:tareaId`: the tags attached to task `tareaId`, whoever owns it. */
  method ObtenerPorTarea(db: Database, tareaId: int) returns (r: Reply<seq<Etiqueta>>)
    ensures !db.available ==> r == Failure(500, "Error al obtener etiquetas")
    ensures db.available ==>
      r == Success(200, None, Some(EtiquetaModel.ObtenerPorTarea(db.etiquetas, db.tareasEtiquetas, tareaId)))
  {
    if !db.available {
      return Failure(500, "Error al obtener etiquetas");
    }
    r := Success(200, None, Some(EtiquetaModel.ObtenerPorTarea(db.etiquetas, db.tareasEtiquetas, tareaId)));
  }
}
