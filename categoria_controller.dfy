/** `CategoriaController`: the handlers of `/api/categorias`. */
module CategoriaController {
  import opened Wrappers
  import opened Seqs
  import opened Schema
  import opened Http
  import RutasCategorias
  import CategoriaModel

  /** The colour and icon `crear` falls back on. */
  const ColorPorDefecto := "#6C63FF"
  const IconoPorDefecto := "fas fa-folder"

  /** `GET /`: the caller's categories with their task counts. */
  method ObtenerTodas(db: Database, userId: int) returns (r: Reply<seq<CategoriaModel.CategoriaConConteo>>)
    ensures !db.available ==> r == Failure(500, "Error al obtener categorías")
    ensures db.available ==> r == Success(200, None, Some(CategoriaModel.ObtenerConConteo(db.categorias, db.tareas, userId)))
  {
    if !db.available {
      return Failure(500, "Error al obtener categorías");
    }
    r := Success(200, None, Some(CategoriaModel.ObtenerConConteo(db.categorias, db.tareas, userId)));
  }

  /** `GET /:id`: 404 unless the caller owns category `id`. */
  method ObtenerUna(db: Database, userId: int, id: int) returns (r: Reply<Categoria>)
    ensures !db.available ==> r == Failure(500, "Error al obtener categoría")
    ensures db.available ==>
      match CategoriaModel.ObtenerPorId(db.categorias, id, userId)
      case None => r == Failure(404, "Categoría no encontrada")
      case Some(c) => r == Success(200, None, Some(c)) && c in db.categorias && c.id == id && c.usuarioId == userId
  {
    if !db.available {
      return Failure(500, "Error al obtener categoría");
    }
    var categoria := CategoriaModel.ObtenerPorId(db.categorias, id, userId);
    if categoria.None? {
      return Failure(404, "Categoría no encontrada");
    }
    r := Success(200, None, Some(categoria.value));
  }

  /** The row `crear` inserts for a validated body. */
  function NuevaFila(id: int, b: RutasCategorias.Categoria, userId: int, now: Instant): Categoria {
    Categoria(id, Some(b.nombre), Some(OrDefault(b.color, ColorPorDefecto)),
              Some(OrDefault(b.icono, IconoPorDefecto)), userId, now)
  }

  /** `POST /` once the body has passed validation: a name the caller already uses gives
      400 'Ya existe una categoría con ese nombre', with the auto-increment value used up;
      otherwise the category is inserted with the default colour and icon where none was
      sent. */
  method Insertar(db: Database, userId: int, b: RutasCategorias.Categoria, now: Instant) returns (r: Reply<int>)
    requires db.Valid()
    modifies db`categorias, db`nextCategoriaId
    ensures db.Valid()
    ensures !db.available ==> r == Failure(500, "Error al crear categoría") && unchanged(db)
    ensures db.available && CategoriaModel.Ocupado(old(db.categorias), Some(b.nombre), userId, old(db.nextCategoriaId)) ==>
      r == Failure(400, "Ya existe una categoría con ese nombre")
      && db.categorias == old(db.categorias) && db.nextCategoriaId == old(db.nextCategoriaId) + 1
    ensures db.available && !CategoriaModel.Ocupado(old(db.categorias), Some(b.nombre), userId, old(db.nextCategoriaId)) ==>
      && r == Success(201, Some("Categoría creada exitosamente"), Some(old(db.nextCategoriaId)))
      && db.categorias == old(db.categorias) + [NuevaFila(old(db.nextCategoriaId), b, userId, now)]
      && db.nextCategoriaId == old(db.nextCategoriaId) + 1
  {
    var creada := CategoriaModel.Crear(db, Some(b.nombre), Some(OrDefault(b.color, ColorPorDefecto)),
                                       Some(OrDefault(b.icono, IconoPorDefecto)), userId, now);
    match creada {
      case Err(DupEntry) => return Failure(400, "Ya existe una categoría con ese nombre");
      case Err(ConnectionLost) => return Failure(500, "Error al crear categoría");
      case Ok(id) =>
        r := Success(201, Some("Categoría creada exitosamente"), Some(id));
    }
  }

  /** `POST /`: validation errors give 400 and write nothing; otherwise `Insertar`
      (`CategoriaModel.CreadaVisible`: `GET /:id` then finds the new category). */
  method Crear(db: Database, userId: int, body: RutasCategorias.CuerpoCategoria, now: Instant) returns (r: Reply<int>)
    requires db.Valid()
    modifies db`categorias, db`nextCategoriaId
    ensures db.Valid()
    ensures var v := RutasCategorias.Validar(body);
      v.errors != [] ==> r == Invalid(v.errors) && unchanged(db)
    ensures var v := RutasCategorias.Validar(body);
      v.errors == [] && !db.available ==> r == Failure(500, "Error al crear categoría") && unchanged(db)
    ensures var v := RutasCategorias.Validar(body);
      v.errors == [] && db.available && CategoriaModel.Ocupado(old(db.categorias), Some(v.body.nombre), userId, old(db.nextCategoriaId)) ==>
      r == Failure(400, "Ya existe una categoría con ese nombre")
      && db.categorias == old(db.categorias) && db.nextCategoriaId == old(db.nextCategoriaId) + 1
    ensures var v := RutasCategorias.Validar(body);
      v.errors == [] && db.available && !CategoriaModel.Ocupado(old(db.categorias), Some(v.body.nombre), userId, old(db.nextCategoriaId)) ==>
      && r == Success(201, Some("Categoría creada exitosamente"), Some(old(db.nextCategoriaId)))
      && db.categorias == old(db.categorias) + [NuevaFila(old(db.nextCategoriaId), v.body, userId, now)]
      && db.nextCategoriaId == old(db.nextCategoriaId) + 1
  {
    var v := RutasCategorias.Validar(body);
    if v.errors != [] {
      return Invalid(v.errors);
    }
    r := Insertar(db, userId, v.body, now);
  }

  /** `PUT /:id`: the route's checks are never consulted; `nombre` arrives trimmed,
      `color` and `icono` as sent (missing ones make the statement fail). A name that
      another of the caller's categories holds makes it fail too, with 500. */
  method Actualizar(db: Database, userId: int, id: int, body: RutasCategorias.CuerpoCategoria) returns (r: Reply<()>)
    requires db.Valid()
    modifies db`categorias
    ensures db.Valid()
    ensures var b := RutasCategorias.Validar(body).body;
      !db.available || !Bound(b.color) || !Bound(b.icono) ==>
      r == Failure(500, "Error al actualizar categoría") && db.categorias == old(db.categorias)
    ensures var b := RutasCategorias.Validar(body).body;
      db.available && Bound(b.color) && Bound(b.icono) ==>
      var n := |Filter(old(db.categorias), CategoriaModel.Dueno(id, userId))|;
      if n > 0 && CategoriaModel.Ocupado(old(db.categorias), Some(b.nombre), userId, id) then
        r == Failure(500, "Error al actualizar categoría") && db.categorias == old(db.categorias)
      else
        && db.categorias == UpdateWhere(old(db.categorias), CategoriaModel.Dueno(id, userId),
                                        CategoriaModel.Reescribir(Some(b.nombre), Sql(b.color), Sql(b.icono)))
        && (n == 0 ==> r == Failure(404, "Categoría no encontrada"))
        && (n != 0 ==> r == Success(200, Some("Categoría actualizada exitosamente"), None))
  {
    var b := RutasCategorias.Validar(body).body;
    if !Bound(b.color) || !Bound(b.icono) {
      return Failure(500, "Error al actualizar categoría");
    }
    var res := CategoriaModel.Actualizar(db, id, Some(b.nombre), Sql(b.color), Sql(b.icono), userId);
    if res.Err? {
      return Failure(500, "Error al actualizar categoría");
    }
    if res.value == 0 {
      return Failure(404, "Categoría no encontrada");
    }
    r := Success(200, Some("Categoría actualizada exitosamente"), None);
  }

  /** `DELETE /:id`: removes the caller's category; 404 when there is none. */
  method Eliminar(db: Database, userId: int, id: int) returns (r: Reply<()>)
    requires db.Valid()
    modifies db`categorias
    ensures db.Valid()
    ensures !db.available ==> r == Failure(500, "Error al eliminar categoría") && db.categorias == old(db.categorias)
    ensures db.available ==>
      && db.categorias == Filter(old(db.categorias), Not(CategoriaModel.Dueno(id, userId)))
      && CategoriaModel.ObtenerPorId(db.categorias, id, userId).None?
      && (|Filter(old(db.categorias), CategoriaModel.Dueno(id, userId))| == 0 <==> r == Failure(404, "Categoría no encontrada"))
      && (|Filter(old(db.categorias), CategoriaModel.Dueno(id, userId))| == 1 <==>
            r == Success(200, Some("Categoría eliminada exitosamente"), None))
  {
    var res := CategoriaModel.Eliminar(db, id, userId);
    if res.Err? {
      return Failure(500, "Error al eliminar categoría");
    }
    if res.value == 0 {
      return Failure(404, "Categoría no encontrada");
    }
    r := Success(200, Some("Categoría eliminada exitosamente"), None);
  }
}
