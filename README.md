# Taskly in Dafny

Taskly is a task manager. Its Express back end keeps, for every user, tasks (`tareas`),
categories (`categorias`), tags (`etiquetas`), the task–tag relation
(`tareas_etiquetas`) and an activity log (`actividad_usuario`) in MySQL. Every statement
is scoped to the caller's `usuario_id`. A React client formats what the server returns.

This project models:

- **Data layer.** The model classes `TareaModel`, `CategoriaModel`, `EtiquetaModel`,
  `UsuarioModel` and `ActividadModel` become modules of methods and functions over one
  `Schema.Database` object.
  - Each table is a `seq` field and the relation is a set of pairs.
  - Each table has an auto-increment counter. As in InnoDB, an insert that the UNIQUE
    index refuses still uses up the next value.
  - `Database.Valid()` holds the primary keys and the UNIQUE indexes of the tables.
  - Statements that write are methods. Their field frames (`modifies db`tareas`) state
    that no other table changes.
  - Queries are functions.
- **Handlers.** Each controller handler becomes a method that returns an HTTP `Reply`:
  status, `success`, `message`, `errors` and `data`.
  - Every `catch` path is modelled: an unreachable server (`available == false`), a
    duplicate key, and a column bound as `undefined`.
  - Every path records what it writes.
- **Route checks.** The express-validator chains and the Express router become pure functions.
- **Client functions.** The helpers of `frontend/src/utils/helpers.js`, and `capitalizarTexto`
  with the completion rate of the analytics page, become pure functions with
  reference definitions.

SQL NULL is `Option.None`. A request field is `Http.Field`: `Absent` (undefined), `Null`
or `Given`. Time is a parameter: `Instant` seconds for DATETIME columns and `Day` numbers
for DATE columns.

Text is `string`, a sequence of Unicode scalar values. A JavaScript string is a sequence
of UTF-16 code units, which `Unicode.Utf16` gives: `validarPassword` counts them and
`truncarTexto` cuts them. bcrypt keys on the bytes `Unicode.Utf8` gives.

## Model

| member | source | states |
|---|---|---|
| TareaModel.FechaCompletada | backend/models/Tarea.js:51-54 | the completion time is set exactly when the new state is 'completada', and it is then the current time |
| TareaModel.Crear | backend/models/Tarea.js:30-37 | appends exactly one row in state 'pendiente' with the next id, and returns that id; on a failure nothing changes |
| TareaModel.Actualizar | backend/models/Tarea.js:40-47 | rewrites the six columns of the rows matching both id and owner, every other row unchanged; returns the matched count, at most 1 |
| TareaModel.CambiarEstado | backend/models/Tarea.js:50-57 | rewrites `estado` and `fecha_completada` of the matching row only; returns the matched count, at most 1 |
| TareaModel.Eliminar | backend/models/Tarea.js:60-66 | removes exactly the rows matching id and owner (at most one); the table shrinks by the returned count, and the lookup by id and owner then finds nothing |
| TareaModel.AsignarEtiqueta | backend/models/Tarea.js:104-115 | a row is inserted iff the server answers, the tag id is given and the pair is new; every failure is swallowed and leaves the relation unchanged, so repeating a pair is idempotent |
| TareaModel.RemoverEtiqueta | backend/models/Tarea.js:118-124 | deletes the pair and returns 1 if it was there and 0 if not, with no owner check |
| TareaModel.ObtenerPorId | backend/models/Tarea.js:21-27 | finds a row with that id and owner, and nothing iff no row has both |
| TareaModel.ObtenerPorEstado | backend/models/Tarea.js:69-75 | exactly the owner's tasks in that state, newest first, each once (a permutation of the filter) |
| TareaModel.ObtenerPorCategoria | backend/models/Tarea.js:78-84 | exactly the owner's tasks of that category, newest first, each once |
| TareaModel.CategoriaDe | backend/models/Tarea.js:10 | the LEFT JOIN partner: a category row with the task's `categoria_id`, and none iff the id is NULL or matches no row |
| TareaModel.EtiquetasDe | backend/models/Tarea.js:8-12 | a name is listed iff some tag related to the task carries it |
| TareaModel.ObtenerPorUsuario | backend/models/Tarea.js:5-18 | one row per task of the owner (count equal), each with its join columns, all of them present, newest first |
| TareaModel.Suma | backend/models/Tarea.js:91-95 | a SUM over no rows is NULL; otherwise it is the number of rows meeting the condition |
| TareaModel.ObtenerEstadisticas | backend/models/Tarea.js:87-101 | `total_tareas` is the owner's task count; the sums are NULL exactly when it is 0; completed + pending + in progress ≤ total, high priority ≤ total, overdue + completed ≤ total |
| TareaModel.AjenaIntacta | backend/models/Tarea.js:21-66 | for another owner's task the lookup finds nothing, update and delete match 0 rows and leave the table unchanged |
| TareaModel.CreadaVisible | backend/models/Tarea.js:21-37 | a task just inserted with the next id is what the lookup by id and owner returns |
| TareaModel.ActualizarConserva | backend/models/Tarea.js:43 | `actualizar` never touches id, owner, creation time or `fecha_completada`, even when it sets 'completada' |
| TareaModel.CambiarEstadoUltimo | backend/models/Tarea.js:50-57 | of two status changes the last one decides state and completion time (reopening clears the completion time) |
| TareaModel.VencidasSinFecha | backend/models/Tarea.js:95 | a task without a due date never adds to `vencidas` |
| TareaModel.EstadisticasDeUna | backend/models/Tarea.js:87-101 | the counters of an owner with a single task |
| TareaModel.PrimeraTarea | backend/models/Tarea.js:87-101 | a first task of priority 'alta' counts as high priority and not completed; after completing it, it counts as completed and has a completion time |
| CategoriaModel.ObtenerPorUsuario | backend/models/Categoria.js:5-11 | exactly the owner's categories, newest first |
| CategoriaModel.ObtenerPorId | backend/models/Categoria.js:14-20 | a row with both id and owner, and nothing iff there is none |
| CategoriaModel.CreadaVisible | backend/models/Categoria.js:14-29 | a category just inserted is found by id and owner |
| CategoriaModel.Crear | backend/models/Categoria.js:23-29 | appends one row with the next id and returns it; a (nombre, owner) pair already taken gives the duplicate-key error, leaves the table as it was and uses up one id; a lost connection changes nothing |
| CategoriaModel.Actualizar | backend/models/Categoria.js:32-38 | rewrites only nombre, color and icono of the matching row; a name clash with another of the owner's rows gives the duplicate-key error; returns the matched count, at most 1 |
| CategoriaModel.Eliminar | backend/models/Categoria.js:41-47 | removes exactly the matching row (at most one); only `categorias` is in its frame |
| CategoriaModel.ObtenerConConteo | backend/models/Categoria.js:50-60 | one row per category of the owner, including those with zero tasks; the count covers every task with that `categoria_id`, whoever owns it; newest first |
| EtiquetaModel.ObtenerPorUsuario | backend/models/Etiqueta.js:5-11 | exactly the owner's tags, newest first |
| EtiquetaModel.ObtenerPorId | backend/models/Etiqueta.js:14-20 | a row with both id and owner, and nothing iff there is none |
| EtiquetaModel.CreadaVisible | backend/models/Etiqueta.js:14-29 | a tag just inserted is found by id and owner |
| EtiquetaModel.Crear | backend/models/Etiqueta.js:23-29 | appends one row with the next id and returns it; a duplicate (nombre, owner) fails, leaves the table as it was and uses up one id; a lost connection changes nothing |
| EtiquetaModel.Actualizar | backend/models/Etiqueta.js:32-38 | rewrites only nombre and color of the matching row; returns the matched count, at most 1 |
| EtiquetaModel.Eliminar | backend/models/Etiqueta.js:41-47 | removes exactly the matching row; `tareas_etiquetas` is outside its frame |
| EtiquetaModel.ObtenerPorTarea | backend/models/Etiqueta.js:50-57 | exactly the tags related to the task, whoever owns them |
| UsuarioModel.Proyectar | backend/models/Usuario.js:16 | the projection keeps every column but the password |
| UsuarioModel.ObtenerPorEmail | backend/models/Usuario.js:5-11 | the whole row (hash included) with that e-mail, and nothing iff none has it or the e-mail is NULL |
| UsuarioModel.ObtenerPorId | backend/models/Usuario.js:14-20 | the projection of the row with that id, and nothing iff there is none |
| UsuarioModel.Crear | backend/models/Usuario.js:23-29 | appends one user with the next id, the given hash and no photo; a taken e-mail fails, leaves the table as it was and uses up one id; a lost connection changes nothing |
| UsuarioModel.ActualizarPerfil | backend/models/Usuario.js:32-38 | rewrites nombre, email and foto_perfil of the row with that id; returns the matched count |
| UsuarioModel.ActualizarUltimaConexion | backend/models/Usuario.js:41-46 | rewrites `ultima_conexion` of that row to the current time |
| UsuarioModel.CambiarPassword | backend/models/Usuario.js:49-55 | rewrites the password hash of that row; returns the matched count |
| UsuarioModel.SoloSuColumna | backend/models/Usuario.js:32-55 | each of the three updates changes its own columns and keeps every other column of the row |
| ActividadModel.Registrar | backend/models/Actividad.js:5-11 | appends exactly one entry for the user with the next id; nothing else in the log changes |
| ActividadModel.RegistrarCuenta | backend/models/Actividad.js:5-11 | an append adds one to its user's entry count and leaves every other user's entries as they were |
| ActividadModel.Recientes | backend/models/Actividad.js:16 | all the user's entries and only those, newest first |
| ActividadModel.ObtenerReciente | backend/models/Actividad.js:14-20 | min(limit, count) of the user's entries (limit 10 by default), newest first, and no entry left out is newer than one kept |
| ActividadModel.Ultima | backend/models/Actividad.js:28 | MAX over the rows: NULL iff there are none, otherwise the date of one of them and not below any |
| ActividadModel.ObtenerEstadisticas | backend/models/Actividad.js:23-34 | a row exists only for a type the user logged: every row counts at least one entry and has a latest date |
| ActividadModel.EstadisticasDistintas | backend/models/Actividad.js:23-34 | at most one row per activity type |
| ActividadModel.EstadisticasFilas | backend/models/Actividad.js:23-34 | each row counts the user's entries of its type (at least one), and its last date is the maximum date of those entries |
| ActividadModel.UltimaDelTipo | backend/models/Actividad.js:28-31 | the MAX of a type's group is attained by an entry of that type and bounds all of them |
| ActividadModel.EstadisticasCubren | backend/models/Actividad.js:23-34 | every type the user has logged has a row |
| ActividadModel.EstadisticasTotal | backend/models/Actividad.js:23-34 | the per-type totals sum to the user's entry count |
| ActividadModel.ObtenerPorRango | backend/models/Actividad.js:37-43 | exactly the user's entries with a date in [inicio, fin], both ends included, newest first |
| TareaController.ObtenerTodas | backend/controllers/tareaController.js:7-22 | 200 with the owner's joined tasks; 500 when the server fails |
| TareaController.ObtenerUna | backend/controllers/tareaController.js:25-48 | 404 iff the owner-scoped lookup finds nothing, otherwise 200 with a task of that id and owner |
| TareaController.Insertar | backend/controllers/tareaController.js:62-91 | after validation: a new task row plus one 'tarea_creada' entry and 201 with the new id, or 500 with nothing written |
| TareaController.Crear | backend/controllers/tareaController.js:51-92 | 400 with the route's errors and nothing written when validation fails; otherwise as `Insertar` |
| TareaController.Actualizar | backend/controllers/tareaController.js:95-124 | no validation; the matching row is rewritten; 404 iff 0 rows match, 200 iff one does; a missing field gives 500 and no change |
| TareaController.CambiarEstado | backend/controllers/tareaController.js:127-161 | the route's estado check is never read; 404 iff no row matched; 'tarea_completada' is logged only when a row matched and the state is 'completada' |
| TareaController.Eliminar | backend/controllers/tareaController.js:164-195 | the task is gone afterwards; 404 with nothing logged when none matched, otherwise 200 and one 'tarea_eliminada' entry |
| TareaController.ObtenerPorEstado | backend/controllers/tareaController.js:198-214 | 200 with the owner's tasks in that state; 500 on failure |
| TareaController.ObtenerPorCategoria | backend/controllers/tareaController.js:217-233 | 200 with the owner's tasks of that category; 500 on failure |
| TareaController.AsignarEtiqueta | backend/controllers/tareaController.js:236-254 | always 200, changed or not; no validation and no ownership check |
| TareaController.RemoverEtiqueta | backend/controllers/tareaController.js:257-274 | 200 whether or not the pair existed, and the pair is gone; 500 on failure |
| CategoriaController.ObtenerTodas | backend/controllers/categoriaController.js:6-21 | 200 with the categories and their task counts; 500 on failure |
| CategoriaController.ObtenerUna | backend/controllers/categoriaController.js:24-47 | 404 iff the owner-scoped lookup finds nothing |
| CategoriaController.Insertar | backend/controllers/categoriaController.js:61-91 | 201 with the new id and the row holding the defaults '#6C63FF' / 'fas fa-folder' for falsy fields; a duplicate name gives 400 'Ya existe una categoría con ese nombre'; any other failure gives 500; no row written on either error, and the duplicate uses up one category id |
| CategoriaController.Crear | backend/controllers/categoriaController.js:50-91 | 400 with the route's errors and nothing inserted when validation fails; otherwise as `Insertar` |
| CategoriaController.Actualizar | backend/controllers/categoriaController.js:94-125 | the route's errors are never read; 404 iff no row matched; a duplicate name gives 500, not 400 |
| CategoriaController.Eliminar | backend/controllers/categoriaController.js:128-152 | the category is gone afterwards; 404 iff none matched, 200 iff one did |
| EtiquetaController.ObtenerTodas | backend/controllers/etiquetaController.js:6-21 | 200 with the owner's tags; 500 on failure |
| EtiquetaController.ObtenerUna | backend/controllers/etiquetaController.js:24-47 | 404 iff the owner-scoped lookup finds nothing |
| EtiquetaController.Insertar | backend/controllers/etiquetaController.js:61-90 | 201 with the new id and colour '#95E1D3' for a falsy colour; a duplicate gives 400, any other failure 500; no row written on either error, and the duplicate uses up one tag id |
| EtiquetaController.Crear | backend/controllers/etiquetaController.js:50-90 | 400 and nothing inserted when validation fails; otherwise as `Insertar` |
| EtiquetaController.Actualizar | backend/controllers/etiquetaController.js:93-123 | the route's errors are never read; 404 iff no row matched |
| EtiquetaController.Eliminar | backend/controllers/etiquetaController.js:126-150 | the tag is gone afterwards; 404 iff none matched |
| EtiquetaController.ObtenerPorTarea | backend/controllers/etiquetaController.js:153-169 | 200 with the task's tags, not scoped to the caller |
| AuthController.FilasDefecto | backend/controllers/authController.js:39-44 | the default category rows, in order, numbered from a first id |
| AuthController.PrimeroTomado | backend/controllers/authController.js:46-48 | the index of the first default whose name the user already holds (4 when none), so every earlier one is free |
| AuthController.OcupadoDefecto | backend/controllers/authController.js:46-48 | inserting the i-th default clashes exactly when the user already held that name before the loop |
| AuthController.CrearDefectos | backend/controllers/authController.js:46-48 | the loop inserts the defaults in order up to the first clash; it completes iff there is none; the category counter advances by the rows inserted plus one for a refused insert |
| AuthController.Alta | backend/controllers/authController.js:21-65 | after validation: a taken e-mail gives 400 and writes nothing; otherwise user (hash of the password), defaults, one 'login' entry and 201 with the id; a clash in the defaults gives 500 and keeps what was written, with the ids the loop used up |
| AuthController.Registrar | backend/controllers/authController.js:10-65 | 400 with the route's errors before any lookup or write; otherwise as `Alta` |
| AuthController.RegistroCompleto | backend/controllers/authController.js:36-48 | a user id no category belongs to receives all four defaults: Personal, Trabajo, Estudios, Hogar, and owns nothing else |
| AuthController.RegistradoPuedeEntrar | backend/controllers/authController.js:33-36 | after registration the e-mail finds the new user; a password verifies against the stored hash iff bcrypt cannot tell it from the registered one (equal, or both of at least 72 UTF-8 bytes sharing the first 72), so below 72 bytes iff it is the registered one |
| AuthController.Login | backend/controllers/authController.js:68-135 | validation errors give 400, an unknown e-mail 404, a wrong password 401, all with nothing written; success signs {userId, email}, issued now and expiring 24 hours (86400 s) later, sets `ultima_conexion`, logs 'login' and returns no password |
| AuthController.ObtenerPerfil | backend/controllers/authController.js:138-160 | 404 iff the id is unknown; otherwise the projection without the password |
| AuthController.Foto | backend/controllers/authController.js:166 | the uploaded file name when there is one, the body's value otherwise |
| AuthController.ActualizarPerfil | backend/controllers/authController.js:163-193 | rewrites the profile of the caller's row; 404 iff 0 rows match; a missing field or a taken e-mail gives 500 |
| AuthController.CambiarPassword | backend/controllers/authController.js:196-229 | as written: no validation; the current password is checked against the row of the token's e-mail, the new hash written to the token's id; a wrong one gives 400 and no change |
| AuthController.CambiarPasswordCorregido | backend/controllers/authController.js:196-229 | corrected: the route's checks are honoured and the caller is found by id; a hash changes only to one of a password with at least 6 characters, and only after the caller's current password verifies |
| AuthController.CambioPasswordCorto | backend/controllers/authController.js:196-216 | counterexample: the route reports the short password, the handler still answers 200 and stores the hash of 'x' |
| AuthController.CambioTrasNuevoEmail | backend/controllers/authController.js:201-216 | counterexample: after an e-mail change the handler as written answers 500 to the right password, and the corrected one answers 200 |
| AnalyticsController.ObtenerEstadisticas | backend/controllers/analyticsController.js:7-22 | 200 with the task statistics; 500 on failure |
| AnalyticsController.ConteoPorCategoria | backend/controllers/analyticsController.js:27-37 | one row per owner category, zero-task ones included, each with its count, ordered by count descending |
| AnalyticsController.TareasPorCategoria | backend/controllers/analyticsController.js:25-50 | 200 with those rows; 500 'Error al obtener datos' on failure |
| AnalyticsController.ConteoPorEstado | backend/controllers/analyticsController.js:55-62 | one row per distinct state among the owner's tasks, each with that state's count; the counts sum to the owner's total |
| AnalyticsController.ConteoPorPrioridad | backend/controllers/analyticsController.js:80-87 | one row per distinct priority, each with its count; the counts sum to the owner's total |
| AnalyticsController.EstadosCoinciden | backend/controllers/analyticsController.js:55-62 | the count a state's chart row shows equals the matching counter of `obtenerEstadisticas` |
| AnalyticsController.AltaCoincide | backend/controllers/analyticsController.js:80-87 | the 'alta' row of the priority chart equals `alta_prioridad` |
| AnalyticsController.TareasPorEstado | backend/controllers/analyticsController.js:53-75 | 200 with the grouped counts; 500 on failure |
| AnalyticsController.TareasPorPrioridad | backend/controllers/analyticsController.js:78-100 | 200 with the grouped counts; 500 on failure |
| AnalyticsController.SemanaAgrupada | backend/controllers/analyticsController.js:105-113 | grouping the owner's tasks completed since today − 7 by day gives distinct days, none before that bound, with counts summing to those tasks |
| AnalyticsController.CompletadasPorDia | backend/controllers/analyticsController.js:105-115 | only completed tasks with `fecha_completada` ≥ today − 7, one row per day in strictly ascending order, each day counted, every such task covered |
| AnalyticsController.ProductividadSemanal | backend/controllers/analyticsController.js:103-128 | 200 with the rows per day; 500 on failure |
| AnalyticsController.ProximasAVencer | backend/controllers/analyticsController.js:133-142 | exactly the owner's non-completed tasks due in [today, today + 7], joined with their category, by due date ascending |
| AnalyticsController.TareasProximasVencer | backend/controllers/analyticsController.js:131-155 | 200 with those tasks; 500 on failure |
| AnalyticsController.ActividadReciente | backend/controllers/analyticsController.js:158-174 | limit 20 when the parameter is missing, the parsed number otherwise; a negative limit or a failure gives 500 |
| AnalyticsController.ConCategoriaRecientes | backend/controllers/analyticsController.js:183-188 | all the owner's tasks with their category columns, newest first |
| AnalyticsController.TareasRecientes | backend/controllers/analyticsController.js:183-190 | min(5, count) of the owner's tasks, newest first, none left out newer than one kept |
| AnalyticsController.RecientesDelResumen | backend/controllers/analyticsController.js:183-190 | `LIMIT 5` keeps only the owner's tasks, in order, and never drops a newer task for an older one |
| AnalyticsController.ResumenDashboard | backend/controllers/analyticsController.js:177-210 | 200 with the statistics, the 5 newest tasks and the 5 newest entries; 500 on failure |
| Enrutador.Despachar | backend/routes/tareas.js:11-54 | the route reached is the first declared one whose method and pattern match (literals up to case, one trailing `/` allowed), and none iff none matches |
| Enrutador.Parametros | backend/routes/tareas.js:20 | `req.params` holds exactly the parameter names of the pattern, bound to text |
| Enrutador.Alcanzable | backend/routes/tareas.js:11-54 | in a router where no two routes of one method overlap, every route is reached by every path it matches |
| RutasTareas.RutasAlcanzables | backend/routes/tareas.js:8-54 | every task route is reached by its paths (`/estado/x` and `/:id` never clash) and sits behind the auth middleware |
| RutasTareas.Inequivocas | backend/routes/tareas.js:11-54 | no two task routes of one method can match one path |
| RutasTareas.ValidarCrear | backend/routes/tareas.js:23-29 | an error for titulo iff it trims to empty, for prioridad iff it is present and not baja/media/alta; no errors iff both hold; the body keeps the trimmed title |
| RutasTareas.ErroresEstado | backend/routes/tareas.js:37 | no error iff estado is pendiente, en_progreso or completada |
| RutasTareas.ErroresEtiqueta | backend/routes/tareas.js:45 | no error iff etiquetaId is given |
| RutasAuth.RutasAlcanzables | backend/routes/auth.js:9-42 | every route is reached by its paths; exactly register and login are public |
| RutasAuth.ValidarRegistro | backend/routes/auth.js:11-13 | accepted iff nombre trims to non-empty, the e-mail passes `isEmail` and the password has at least 6 characters as `isLength` counts them (variation selectors not counted); each failed check gives its own message |
| RutasAuth.ValidarLogin | backend/routes/auth.js:20-21 | accepted iff the e-mail passes and the password is non-empty, with no length rule |
| RutasAuth.ErroresCambioPassword | backend/routes/auth.js:38-39 | no errors iff the current password is non-empty and the new one has at least 6 characters as `isLength` counts them; one message per failed check |
| Validacion.LongitudIsLength | backend/routes/auth.js:13 | `isLength` counts the UTF-16 code units less one per surrogate pair and one per U+FE0E or U+FE0F: the characters that are not variation selectors |
| Validacion.SinSelectores | backend/routes/auth.js:13 | on text without variation selectors `isLength` counts every character |
| RutasCategorias.RutasAlcanzables | backend/routes/categorias.js:8-35 | every category route is reached by its paths and requires authentication |
| RutasCategorias.Inequivocas | backend/routes/categorias.js:11-35 | no two category routes of one method overlap |
| RutasCategorias.Validar | backend/routes/categorias.js:19-20 | no errors iff nombre trims to non-empty and colour is absent or `#RRGGBB` in either case; one message per failed check |
| RutasEtiquetas.RutasAlcanzables | backend/routes/etiquetas.js:8-38 | every tag route, `/tarea/:tareaId` included, is reached by its paths and requires authentication |
| RutasEtiquetas.Inequivocas | backend/routes/etiquetas.js:11-38 | no two tag routes of one method overlap |
| RutasEtiquetas.Validar | backend/routes/etiquetas.js:22-23 | no errors iff nombre trims to non-empty and colour is absent or `#RRGGBB`; one message per failed check |
| Validacion.Recortar | backend/routes/categorias.js:19 | `.trim()`: the field without surrounding whitespace, '' for a missing one |
| Validacion.Regla | backend/routes/categorias.js:19-20 | a check adds no entry iff it holds, and exactly its own message otherwise |
| Http.OrDefault | backend/controllers/categoriaController.js:65-66 | `value || fallback`: the fallback exactly for a falsy field |
| Crypto.Hash | backend/controllers/authController.js:33 | the hash keys on at most 72 bytes: the whole UTF-8 encoding of a password up to 72 bytes, otherwise its first 72 |
| Crypto.Verify | backend/controllers/authController.js:91 | a hash verifies the password it was made from |
| Crypto.VerifyHash | backend/controllers/authController.js:91 | the hash of p verifies q iff they are equal or both have at least 72 UTF-8 bytes and share the first 72; for p below 72 bytes, iff q is p |
| Crypto.HashIgnoraCola | backend/controllers/authController.js:33-36 | whatever follows the first 72 bytes of a password is ignored by the check |
| Crypto.Sign | backend/controllers/authController.js:100-107 | the token carries exactly the given claims, is issued at the current time and expires 86400 seconds (`'24h'`) later |
| Helpers.ColorPrioridad | frontend/src/utils/helpers.js:32-39 | alta and media get their own colours, anything else the colour of baja; every answer is `#RRGGBB` |
| Helpers.ColorEstado | frontend/src/utils/helpers.js:42-49 | en_progreso and completada get their own colours, anything else the colour of pendiente |
| Helpers.EstaVencida | frontend/src/utils/helpers.js:26-29 | never overdue without a due date or when completed; otherwise overdue iff the days left are negative |
| Helpers.VencidaComoServidor | backend/models/Tarea.js:95 | for a row as the client receives it, the badge agrees with the server's `vencidas` condition whenever the row has an `estado`; both say no without a due date; a NULL `estado` past its deadline is overdue to the client and never counted by the server |
| Helpers.ValidarEmail | frontend/src/utils/helpers.js:52-55 | `regex.test` holds iff there is no whitespace, one '@' with text before it, and after it a '.' with text on both sides |
| Helpers.AutomataReconoce | frontend/src/utils/helpers.js:53 | the automaton that runs the regular expression accepts exactly the strings of that shape |
| Helpers.EmailRechazos | frontend/src/utils/helpers.js:52-55 | an address with whitespace or with two '@' is refused |
| Helpers.ValidarPassword | frontend/src/utils/helpers.js:58-60 | falsy for a missing password; `.length` counts UTF-16 code units, so every password the server's `isLength` rule accepts passes, the two agree on text inside the Basic Multilingual Plane without variation selectors, and a passing password has at least 3 characters |
| Helpers.PasswordSuplementaria | frontend/src/utils/helpers.js:58-60 | three emoji pass the client's check (six code units) and fail the server's rule of six characters |
| Helpers.PasswordSelector | frontend/src/utils/helpers.js:58-60 | five letters and U+FE0F pass the client's check (six code units) and fail `isLength`, which counts five |
| Helpers.Capitalizar | frontend/src/utils/helpers.js:63-66 | '' for a falsy string; otherwise same length, first character upper-cased, the rest kept; a first character outside the Basic Multilingual Plane leaves the text unchanged (`charAt(0)` is a lone surrogate) |
| Helpers.CapitalizarIdempotente | frontend/src/utils/helpers.js:63-66 | capitalising twice is capitalising once |
| Helpers.TruncarTexto | frontend/src/utils/helpers.js:69-73 | on the UTF-16 code units of the string: '' for a falsy text, the text when it fits, otherwise its first `maxLength` code units (none for a negative limit) followed by '...' |
| Helpers.TruncarEnCaracter | frontend/src/utils/helpers.js:69-73 | a limit that ends a character cuts the text to its first characters followed by '...'; inside the Basic Multilingual Plane the limit counts characters |
| Helpers.TruncarParteSurrogado | frontend/src/utils/helpers.js:69-73 | a limit inside a surrogate pair keeps its high half alone before '...' |
| Helpers.TruncarIdempotente | frontend/src/utils/helpers.js:69-73 | truncating a truncated text changes nothing |
| AnalyticsPage.PartirUnir | frontend/src/pages/Analytics.jsx:61-63 | joining the pieces of `split('_')` with '_' gives back the text |
| AnalyticsPage.CapitalizarTexto | frontend/src/pages/Analytics.jsx:60-64 | the label agrees with the character-by-character reading: '_' becomes ' ', a word's first letter is upper-cased, the rest lower-cased |
| AnalyticsPage.CapitalizarSinGuiones | frontend/src/pages/Analytics.jsx:60-64 | the label has the text's length and no underscore |
| AnalyticsPage.CapitalizarDosPalabras | frontend/src/pages/Analytics.jsx:60-64 | `x_y` is labelled as the two capitalised words joined by a space |
| AnalyticsPage.EnProgreso | frontend/src/pages/Analytics.jsx:60-64 | 'en_progreso' is labelled 'En Progreso' |
| AnalyticsPage.Redondeo | frontend/src/pages/Analytics.jsx:169 | `Math.round`: the nearest integer, halves rounded up |
| AnalyticsPage.RedondeoAcotado | frontend/src/pages/Analytics.jsx:168-170 | at most t completions out of t round to at most 100 |
| AnalyticsPage.RedondeoCompleto | frontend/src/pages/Analytics.jsx:168-170 | all t completed rounds to exactly 100 |
| AnalyticsPage.TasaCompletado | frontend/src/pages/Analytics.jsx:168-170 | 0 without tasks or with NULL completions; at most 100 while completions are among the tasks; 100 when all are completed |
| AnalyticsPage.TasaDeEstadisticas | frontend/src/pages/Analytics.jsx:168-170 | the rate shown for the server's counters is 0 without tasks, at most 100 always, and 100 when all are completed |

## Left out

- The MySQL schema is not part of this model. The UNIQUE keys on (nombre, usuario_id) of
  categories and tags, and on the e-mail of users, are taken from the controllers'
  handling of `ER_DUP_ENTRY`. Foreign keys and cascading deletes are not modelled, so
  deleting a category or a tag leaves the task rows and relations as they were.
- Comparisons are exact string equality. MySQL's case-insensitive collation of e-mails
  and names is not modelled.
- `backend/config/database.js` (the connection pool) is not part of this model. Every
  kind of server failure is the single flag `Database.available`, fixed for one request.
- Concurrent requests and the missing transactions are outside a sequential model. The
  one visible consequence of a missing transaction, a partial registration, is modelled.
- The column defaults of `tareas` are taken from the model's behaviour, since the schema is
  not part of this model: TareaModel.Crear stores `estado` 'pendiente', `fecha_creacion`
  the current time (`CURRENT_TIMESTAMP`) and `fecha_completada` NULL for the columns its
  INSERT leaves out.
- The clock (`CURRENT_TIMESTAMP`, `CURDATE()`, `new Date()`) is a parameter. DATE
  columns are day numbers and `DATE()` is division by 86400.
- bcrypt keeps only its key, the first 72 bytes of the password's UTF-8 encoding, so the
  random salt and the cost factor are absent. The native binding also stops the key at a
  NUL character; passwords holding U+0000 are not modelled apart. `jwt.sign` builds the
  claims, `iat` and `exp`. The secret and the signature are not modelled.
- The token check of `backend/middleware/auth.js` and the upload handling of
  `backend/middleware/upload.js` are not part of this model. A route only records
  whether the middleware runs. The uploaded file is an optional file name.
- express-validator's `isEmail()` is a function parameter of the auth validators.
- Enrutador.Despachar: route paths are matched case-insensitively (for ASCII letters)
  and non-strictly (one trailing `/`), as Express 4 does by default, and parameters are
  text. The handlers then take `:id` and the like as integers, so a path segment such as
  '05' or '5abc', which MySQL compares as the number 5 and the log messages repeat as
  written ('ID 05'), is not modelled apart from the number.
- AnalyticsController.ActividadReciente: takes the number `parseInt` yields. A
  non-numeric `limite` (NaN handed to MySQL) is not modelled.
- TareaModel.EtiquetasDe: `GROUP_CONCAT` is a set of names, not a comma-joined string in
  some order.
- Rows that tie on the ORDER BY key may come back in any order. The queries
  state the order property and the set or multiset of rows, not one tie order.
- Text.Upper: `toUpperCase` maps the letters of ASCII and Latin-1 only, including 'ÿ' to
  'Ÿ' and 'µ' to 'Μ'. Text.Lower: `toLowerCase` maps the upper-case letters of ASCII and
  Latin-1 only. Letters outside Latin-1 keep their case, and characters whose case
  mapping changes the length (such as 'ß') are left as they are. This keeps the label of
  `capitalizarTexto` the same length as its text.
- AnalyticsPage.Redondeo: works on exact rationals. Floating-point rounding of
  `completadas / total_tareas * 100` is not modelled.
- AnalyticsPage.TasaCompletado: a NULL `completadas` counts as 0 (in JavaScript
  `null / n` is 0).
- A `null` estado in `capitalizarTexto` makes the page throw. Labels are only
  defined for strings.
- The colour maps treat only their own keys as present. A key such as 'toString',
  which an object literal inherits, is not modelled.
- `diasRestantes`, `formatearFecha`, `formatearFechaCorta`, `getLuminance` and
  `getTextColor` use Date arithmetic, locales and floating point. `estaVencida` takes
  the days left as a parameter.
- `backend/routes/analytics.js`, `backend/server.js`, the React pages and the client
  services are wiring and rendering, not part of this model.

## Findings

| source | as written | input that shows it | evidently intended | confidence | as-written member | corrected member |
|---|---|---|---|---|---|---|
| backend/controllers/authController.js:196-216 | `cambiarPassword` never reads `validationResult`, so the length rule that `backend/routes/auth.js:39` declares for the new password is reported but ignored | Ana, registered with 'secreto1', sends passwordActual 'secreto1' and passwordNueva 'x' | 400 with the route's errors and the hash unchanged | not executed | AuthController.CambioPasswordCorto | AuthController.CambiarPasswordCorregido |
| backend/controllers/authController.js:201-216 | the current password is checked on the row the token's e-mail finds, but the new hash is written to the token's user id; once the e-mail changes through `PUT /perfil`, the old token's e-mail finds no row and `usuario.password` throws | Ana changes her e-mail to ana@nuevo.com, then changes her password with the token issued for ana@example.com and the right current password | 200 and the new hash stored on her row | not executed | AuthController.CambioTrasNuevoEmail | AuthController.CambiarPasswordCorregido |
