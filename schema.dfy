/** The MySQL database behind the service: one row type per table and the `Database`
    class that holds every table, the auto-increment counters and the key invariants. */
module Schema {
  import opened Wrappers
  import opened Seqs
  import opened Crypto

  /** A DATETIME or TIMESTAMP value, in seconds. */
  type Instant = int

  /** A DATE value, in days. */
  type Day = int

  const SecondsPerDay: int := 86400

  /** `DATE(t)`: the day an instant falls on. */
  function DayOf(t: Instant): Day {
    t / SecondsPerDay
  }

  /** `DATE(t)` is the day whose midnight is the last one not after `t`. */
  lemma DayOfBounds(t: Instant)
    ensures DayOf(t) * SecondsPerDay <= t < (DayOf(t) + 1) * SecondsPerDay
  {
  }

  /** A row of `usuarios`. */
  datatype Usuario = Usuario(
    id: int,
    nombre: Option<string>,
    email: Option<string>,
    password: PasswordHash,
    fotoPerfil: Option<string>,
    fechaRegistro: Instant,
    ultimaConexion: Option<Instant>)

  /** A row of `categorias`. */
  datatype Categoria = Categoria(
    id: int,
    nombre: Option<string>,
    color: Option<string>,
    icono: Option<string>,
    usuarioId: int,
    fechaCreacion: Instant)

  /** A row of `etiquetas`. */
  datatype Etiqueta = Etiqueta(
    id: int,
    nombre: Option<string>,
    color: Option<string>,
    usuarioId: int,
    fechaCreacion: Instant)

  /** A row of `tareas`. */
  datatype Tarea = Tarea(
    id: int,
    titulo: Option<string>,
    descripcion: Option<string>,
    fechaLimite: Option<Day>,
    prioridad: Option<string>,
    estado: Option<string>,
    usuarioId: int,
    categoriaId: Option<int>,
    fechaCreacion: Instant,
    fechaCompletada: Option<Instant>)

  /** A row of `actividad_usuario`. */
  datatype Actividad = Actividad(
    id: int,
    usuarioId: int,
    tipoActividad: string,
    detalles: Option<string>,
    fechaActividad: Instant)

  /** Why a statement fails: a UNIQUE index rejects it (`ER_DUP_ENTRY`), or the server
      cannot be reached. */
  datatype DbError = DupEntry | ConnectionLost

  /** The value the `estado` column takes when an INSERT does not name it. */
  const EstadoInicial: string := "pendiente"

  function UsuarioId(u: Usuario): int { u.id }
  function CategoriaId(c: Categoria): int { c.id }
  function EtiquetaId(e: Etiqueta): int { e.id }
  function TareaId(t: Tarea): int { t.id }
  function ActividadId(a: Actividad): int { a.id }

  /** The UNIQUE key on `usuarios.email`. */
  function EmailClave(u: Usuario): Option<string> {
    u.email
  }

  /** The UNIQUE key on (`nombre`, `usuario_id`) of `categorias`. */
  function CategoriaClave(c: Categoria): Option<(string, int)> {
    if c.nombre.Some? then Some((c.nombre.value, c.usuarioId)) else None
  }

  /** The UNIQUE key on (`nombre`, `usuario_id`) of `etiquetas`. */
  function EtiquetaClave(e: Etiqueta): Option<(string, int)> {
    if e.nombre.Some? then Some((e.nombre.value, e.usuarioId)) else None
  }

  class Database {
    var usuarios: seq<Usuario>
    var categorias: seq<Categoria>
    var etiquetas: seq<Etiqueta>
    var tareas: seq<Tarea>
    /** `tareas_etiquetas`: pairs (tarea_id, etiqueta_id) with a primary key on the pair. */
    var tareasEtiquetas: set<(int, int)>
    var actividad: seq<Actividad>

    var nextUsuarioId: int
    var nextCategoriaId: int
    var nextEtiquetaId: int
    var nextTareaId: int
    var nextActividadId: int

    /** Whether the server answers; when it does not, every statement fails. */
    const available: bool

    /** Primary keys are unique and below their auto-increment counters, and every
        UNIQUE index holds. */
    ghost predicate Valid()
      reads this
    {
      && Keyed(usuarios, UsuarioId, nextUsuarioId)
      && Keyed(categorias, CategoriaId, nextCategoriaId)
      && Keyed(etiquetas, EtiquetaId, nextEtiquetaId)
      && Keyed(tareas, TareaId, nextTareaId)
      && Keyed(actividad, ActividadId, nextActividadId)
      && Unique(usuarios, EmailClave)
      && Unique(categorias, CategoriaClave)
      && Unique(etiquetas, EtiquetaClave)
    }

    /** An empty database whose counters start at 1. */
    constructor(available: bool)
      ensures Valid()
      ensures this.available == available
      ensures usuarios == [] && categorias == [] && etiquetas == [] && tareas == []
      ensures tareasEtiquetas == {} && actividad == []
      ensures nextUsuarioId == 1 && nextCategoriaId == 1 && nextEtiquetaId == 1
      ensures nextTareaId == 1 && nextActividadId == 1
    {
      this.available := available;
      usuarios, categorias, etiquetas, tareas := [], [], [], [];
      tareasEtiquetas, actividad := {}, [];
      nextUsuarioId, nextCategoriaId, nextEtiquetaId, nextTareaId, nextActividadId := 1, 1, 1, 1, 1;
    }
  }
}
