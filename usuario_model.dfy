/** `UsuarioModel`: the statements on `usuarios`. */
module UsuarioModel {
  import opened Wrappers
  import opened Seqs
  import opened Crypto
  import opened Schema

  /** The columns `obtenerPorId` selects: every column but `password`. */
  datatype Perfil = Perfil(id: int, nombre: Option<string>, email: Option<string>, fotoPerfil: Option<string>,
                           fechaRegistro: Instant, ultimaConexion: Option<Instant>)

  /** `email = ?`; a NULL on either side never matches. */
  function ConEmail(email: Option<string>): Usuario -> bool {
    (u: Usuario) => email.Some? && u.email == email
  }

  /** `id = ?`. */
  function ConId(id: int): Usuario -> bool {
    (u: Usuario) => u.id == id
  }

  /** Whether a row other than `id` holds the non-NULL `email`. */
  predicate EmailOcupado(usuarios: seq<Usuario>, email: Option<string>, id: int) {
    email.Some? && exists u :: u in usuarios && u.id != id && u.email == email
  }

  /** The columns of `usuarios` that `obtenerPorId` returns. */
  function Proyectar(u: Usuario): (p: Perfil)
    ensures p.id == u.id && p.nombre == u.nombre && p.email == u.email && p.fotoPerfil == u.fotoPerfil
    ensures p.fechaRegistro == u.fechaRegistro && p.ultimaConexion == u.ultimaConexion
  {
    Perfil(u.id, u.nombre, u.email, u.fotoPerfil, u.fechaRegistro, u.ultimaConexion)
  }

  /** `obtenerPorEmail`: the whole row, password hash included. */
  function ObtenerPorEmail(usuarios: seq<Usuario>, email: Option<string>): (r: Option<Usuario>)
    ensures r.Some? ==> r.value in usuarios && email.Some? && r.value.email == email
    ensures r.None? <==> email.None? || forall u :: u in usuarios ==> u.email != email
  {
    var f := Filter(usuarios, ConEmail(email));
    if f == [] then None else assert f[0] in f; Some(f[0])
  }

  /** `obtenerPorId`: the profile of user `id`, without the password. */
  function ObtenerPorId(usuarios: seq<Usuario>, id: int): (r: Option<Perfil>)
    ensures r.Some? ==> exists u :: u in usuarios && u.id == id && r.value == Proyectar(u)
    ensures r.None? <==> forall u :: u in usuarios ==> u.id != id
  {
    var f := Filter(usuarios, ConId(id));
    if f == [] then None else assert f[0] in f; Some(Proyectar(f[0]))
  }

  /** `crear`: inserts a user with the given name, e-mail and password hash; an e-mail
      already registered is rejected by the UNIQUE index. */
  method Crear(db: Database, nombre: Option<string>, email: Option<string>, password: PasswordHash, now: Instant)
    returns (r: Result<int, DbError>)
    requires db.Valid()
    modifies db`usuarios, db`nextUsuarioId
    ensures db.Valid()
    ensures r.Err? ==> db.usuarios == old(db.usuarios)
    ensures r == Err(ConnectionLost) ==> db.nextUsuarioId == old(db.nextUsuarioId)
    ensures r == Err(DupEntry) ==> db.nextUsuarioId == old(db.nextUsuarioId) + 1
    ensures !db.available ==> r == Err(ConnectionLost)
    ensures db.available && EmailOcupado(old(db.usuarios), email, old(db.nextUsuarioId)) ==> r == Err(DupEntry)
    ensures db.available && !EmailOcupado(old(db.usuarios), email, old(db.nextUsuarioId)) ==>
      && r == Ok(old(db.nextUsuarioId))
      && db.nextUsuarioId == old(db.nextUsuarioId) + 1
      && db.usuarios == old(db.usuarios) + [Usuario(old(db.nextUsuarioId), nombre, email, password, None, now, None)]
  {
    if !db.available {
      return Err(ConnectionLost);
    }
    if EmailOcupado(db.usuarios, email, db.nextUsuarioId) {
      // InnoDB draws the auto-increment value before the UNIQUE index refuses the row.
      db.nextUsuarioId := db.nextUsuarioId + 1;
      return Err(DupEntry);
    }
    var u := Usuario(db.nextUsuarioId, nombre, email, password, None, now, None);
    KeyedAppend(db.usuarios, UsuarioId, db.nextUsuarioId, u);
    forall y | y in db.usuarios && EmailClave(u).Some? ensures EmailClave(y) != EmailClave(u) {
      assert y.id < db.nextUsuarioId by {
        var k :| 0 <= k < |db.usuarios| && db.usuarios[k] == y;
      }
    }
    UniqueAppend(db.usuarios, EmailClave, u);
    db.usuarios := db.usuarios + [u];
    db.nextUsuarioId := db.nextUsuarioId + 1;
    r := Ok(u.id);
  }

  /** The SET list of `actualizarPerfil`. */
  function ReescribirPerfil(nombre: Option<string>, email: Option<string>, fotoPerfil: Option<string>): Usuario -> Usuario {
    (u: Usuario) => u.(nombre := nombre, email := email, fotoPerfil := fotoPerfil)
  }

  /** `actualizarPerfil`: rewrites `nombre`, `email` and `foto_perfil` of user `id` and
      returns the affected count; an e-mail another user holds is rejected. */
  method ActualizarPerfil(db: Database, id: int, nombre: Option<string>, email: Option<string>,
                          fotoPerfil: Option<string>) returns (r: Result<nat, DbError>)
    requires db.Valid()
    modifies db`usuarios
    ensures db.Valid()
    ensures r.Err? ==> db.usuarios == old(db.usuarios)
    ensures !db.available ==> r == Err(ConnectionLost)
    ensures db.available ==>
      var n := |Filter(old(db.usuarios), ConId(id))|;
      if n > 0 && EmailOcupado(old(db.usuarios), email, id) then r == Err(DupEntry)
      else
        && r == Ok(n) && n <= 1
        && db.usuarios == UpdateWhere(old(db.usuarios), ConId(id), ReescribirPerfil(nombre, email, fotoPerfil))
  {
    if !db.available {
      return Err(ConnectionLost);
    }
    var n := |Filter(db.usuarios, ConId(id))|;
    if n > 0 && EmailOcupado(db.usuarios, email, id) {
      return Err(DupEntry);
    }
    var f := ReescribirPerfil(nombre, email, fotoPerfil);
    AtMostOne(db.usuarios, UsuarioId, db.nextUsuarioId, ConId(id), id);
    KeyedUpdate(db.usuarios, UsuarioId, db.nextUsuarioId, ConId(id), f);
    if n == 0 {
      assert forall x :: x in db.usuarios ==> x !in Filter(db.usuarios, ConId(id));
      UpdateWhereNone(db.usuarios, ConId(id), f);
    } else {
      UniqueUpdateOne(db.usuarios, EmailClave, UsuarioId, db.nextUsuarioId, ConId(id), f, id);
    }
    r := Ok(n);
    db.usuarios := UpdateWhere(db.usuarios, ConId(id), f);
  }

  /** The SET list of `actualizarUltimaConexion`, with `CURRENT_TIMESTAMP` given as `now`. */
  function Conexion(now: Instant): Usuario -> Usuario {
    (u: Usuario) => u.(ultimaConexion := Some(now))
  }

  /** `actualizarUltimaConexion`: sets `ultima_conexion` of user `id`; the source returns
      nothing, so only a failure is reported. */
  method ActualizarUltimaConexion(db: Database, id: int, now: Instant) returns (r: Result<(), DbError>)
    requires db.Valid()
    modifies db`usuarios
    ensures db.Valid()
    ensures !db.available ==> r == Err(ConnectionLost) && db.usuarios == old(db.usuarios)
    ensures db.available ==> r == Ok(()) && db.usuarios == UpdateWhere(old(db.usuarios), ConId(id), Conexion(now))
  {
    if !db.available {
      return Err(ConnectionLost);
    }
    KeyedUpdate(db.usuarios, UsuarioId, db.nextUsuarioId, ConId(id), Conexion(now));
    UniqueUpdateSameKey(db.usuarios, EmailClave, ConId(id), Conexion(now));
    db.usuarios := UpdateWhere(db.usuarios, ConId(id), Conexion(now));
    r := Ok(());
  }

  /** The SET list of `cambiarPassword`. */
  function NuevaPassword(password: PasswordHash): Usuario -> Usuario {
    (u: Usuario) => u.(password := password)
  }

  /** `cambiarPassword`: stores a new hash for user `id` and returns the affected count. */
  method CambiarPassword(db: Database, id: int, password: PasswordHash) returns (r: Result<nat, DbError>)
    requires db.Valid()
    modifies db`usuarios
    ensures db.Valid()
    ensures !db.available ==> r == Err(ConnectionLost) && db.usuarios == old(db.usuarios)
    ensures db.available ==>
      && r == Ok(|Filter(old(db.usuarios), ConId(id))|) && r.value <= 1
      && db.usuarios == UpdateWhere(old(db.usuarios), ConId(id), NuevaPassword(password))
  {
    if !db.available {
      return Err(ConnectionLost);
    }
    AtMostOne(db.usuarios, UsuarioId, db.nextUsuarioId, ConId(id), id);
    KeyedUpdate(db.usuarios, UsuarioId, db.nextUsuarioId, ConId(id), NuevaPassword(password));
    UniqueUpdateSameKey(db.usuarios, EmailClave, ConId(id), NuevaPassword(password));
    r := Ok(|Filter(db.usuarios, ConId(id))|);
    db.usuarios := UpdateWhere(db.usuarios, ConId(id), NuevaPassword(password));
  }

  /** Each of the three single-column updates changes its own column and no other. */
  lemma SoloSuColumna(u: Usuario, nombre: Option<string>, email: Option<string>, foto: Option<string>,
                      now: Instant, h: PasswordHash)
    ensures var a := ReescribirPerfil(nombre, email, foto)(u);
      a == Usuario(u.id, nombre, email, u.password, foto, u.fechaRegistro, u.ultimaConexion)
    ensures Conexion(now)(u) == Usuario(u.id, u.nombre, u.email, u.password, u.fotoPerfil, u.fechaRegistro, Some(now))
    ensures NuevaPassword(h)(u) == Usuario(u.id, u.nombre, u.email, h, u.fotoPerfil, u.fechaRegistro, u.ultimaConexion)
  {
  }
}
