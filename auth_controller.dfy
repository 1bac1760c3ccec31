/** `AuthController`: registration, login, the profile and the password change. */
module AuthController {
  import opened Wrappers
  import opened Seqs
  import opened Crypto
  import opened Schema
  import opened Http
  import Unicode
  import RutasAuth
  import Validacion
  import UsuarioModel
  import CategoriaModel
  import ActividadModel

  /** A category every new user receives. */
  datatype Defecto = Defecto(nombre: string, color: string, icono: string)

  const Defectos: seq<Defecto> := [
    Defecto("Personal", "#EC4899", "fas fa-user"),
    Defecto("Trabajo", "#F38181", "fas fa-briefcase"),
    Defecto("Estudios", "#95E1D3", "fas fa-book"),
    Defecto("Hogar", "#FFD93D", "fas fa-home")
  ]

  /** The row of the `i`-th default category when it receives id `id`. */
  function FilaDefecto(i: nat, id: int, usuarioId: int, now: Instant): Categoria
    requires i < |Defectos|
  {
    Categoria(id, Some(Defectos[i].nombre), Some(Defectos[i].color), Some(Defectos[i].icono), usuarioId, now)
  }

  /** The first `n` default categories, numbered from `first`. */
  function FilasDefecto(n: nat, first: int, usuarioId: int, now: Instant): (r: seq<Categoria>)
    requires n <= |Defectos|
    ensures |r| == n
    ensures forall i :: 0 <= i < n ==> r[i] == FilaDefecto(i, first + i, usuarioId, now)
  {
    seq(n, i requires 0 <= i < n => FilaDefecto(i, first + i, usuarioId, now))
  }

  /** Whether some category already holds the key (`nombre`, `u`). */
  predicate Tomado(categorias: seq<Categoria>, nombre: string, u: int) {
    exists c :: c in categorias && CategoriaClave(c) == Some((nombre, u))
  }

  /** The first default, from `i` on, whose name `u` already holds; `|Defectos|` if none. */
  function PrimeroTomado(categorias: seq<Categoria>, u: int, i: nat): (k: nat)
    requires i <= |Defectos|
    ensures i <= k <= |Defectos|
    ensures forall j :: i <= j < k ==> !Tomado(categorias, Defectos[j].nombre, u)
    ensures k < |Defectos| ==> Tomado(categorias, Defectos[k].nombre, u)
    decreases |Defectos| - i
  {
    if i == |Defectos| then i
    else if Tomado(categorias, Defectos[i].nombre, u) then i
    else PrimeroTomado(categorias, u, i + 1)
  }

  /** What the insert of the `i`-th default meets after the first `i` went in: the
      earlier defaults carry other names, so only a category that was there before can
      hold its name. */
  lemma OcupadoDefecto(categorias: seq<Categoria>, next: int, u: int, now: Instant, i: nat)
    requires i < |Defectos|
    requires forall c :: c in categorias ==> c.id < next
    ensures CategoriaModel.Ocupado(categorias + FilasDefecto(i, next, u, now), Some(Defectos[i].nombre), u, next + i)
            <==> Tomado(categorias, Defectos[i].nombre, u)
  {
    var filas := FilasDefecto(i, next, u, now);
    var s := categorias + filas;
    if Tomado(categorias, Defectos[i].nombre, u) {
      var c :| c in categorias && CategoriaClave(c) == Some((Defectos[i].nombre, u));
      assert c in s;
    }
    if CategoriaModel.Ocupado(s, Some(Defectos[i].nombre), u, next + i) {
      var c :| c in s && c.id != next + i && CategoriaClave(c) == Some((Defectos[i].nombre, u));
      DefectosAnteriores(i, next, u, now);
      assert c in categorias;
    }
  }

  /** The defaults inserted before the `i`-th carry other names. */
  lemma DefectosAnteriores(i: nat, next: int, u: int, now: Instant)
    requires i < |Defectos|
    ensures forall c :: c in FilasDefecto(i, next, u, now) ==> CategoriaClave(c) != Some((Defectos[i].nombre, u))
  {
    var filas := FilasDefecto(i, next, u, now);
    forall c | c in filas ensures CategoriaClave(c) != Some((Defectos[i].nombre, u)) {
      var j :| 0 <= j < |filas| && filas[j] == c;
      assert Defectos[j].nombre != Defectos[i].nombre;
    }
  }

  /** The auto-increment values the loop uses when it stops at the `k`-th default: one per
      row inserted, and one more for the insert the UNIQUE index refuses. */
  function Gastados(k: nat): nat {
    if k < |Defectos| then k + 1 else k
  }

  /** The loop of `registrar` over the default categories: each is inserted for
      `usuarioId` in turn until one meets a name that user already holds. */
  method CrearDefectos(db: Database, usuarioId: int, now: Instant) returns (completo: bool)
    requires db.Valid() && db.available
    modifies db`categorias, db`nextCategoriaId
    ensures db.Valid()
    ensures var k := PrimeroTomado(old(db.categorias), usuarioId, 0);
      && (completo <==> k == |Defectos|)
      && db.categorias == old(db.categorias) + FilasDefecto(k, old(db.nextCategoriaId), usuarioId, now)
      && db.nextCategoriaId == old(db.nextCategoriaId) + Gastados(k)
  {
    ghost var categorias0 := db.categorias;
    ghost var next0 := db.nextCategoriaId;
    ghost var k := PrimeroTomado(categorias0, usuarioId, 0);
    forall c | c in categorias0 ensures c.id < next0 {
      var j :| 0 <= j < |categorias0| && categorias0[j] == c;
    }
    var i := 0;
    while i < |Defectos|
      invariant 0 <= i <= k
      invariant db.Valid()
      invariant db.categorias == categorias0 + FilasDefecto(i, next0, usuarioId, now)
      invariant db.nextCategoriaId == next0 + i
    {
      OcupadoDefecto(categorias0, next0, usuarioId, now, i);
      var d := Defectos[i];
      var creada := CategoriaModel.Crear(db, Some(d.nombre), Some(d.color), Some(d.icono), usuarioId, now);
      if creada.Err? {
        assert i == k;
        return false;
      }
      assert FilasDefecto(i + 1, next0, usuarioId, now)
          == FilasDefecto(i, next0, usuarioId, now) + [FilaDefecto(i, next0 + i, usuarioId, now)];
      i := i + 1;
    }
    completo := true;
  }

  /** `POST /registrar` once the body has passed validation: an e-mail already
      registered gives 400. Otherwise the user is inserted with the hash of the password,
      then the four default categories one by one, then a 'login' entry, and the answer is
      201 with the new id. The statements run without a transaction: when the new id
      already holds a default's name, that insert fails, the answer is 500 and the user
      and the defaults inserted before it stay. */
  method Alta(db: Database, v: RutasAuth.RegistroValido, now: Instant) returns (r: Reply<int>)
    requires db.Valid()
    modifies db`usuarios, db`nextUsuarioId, db`categorias, db`nextCategoriaId, db`actividad, db`nextActividadId
    ensures db.Valid()
    ensures !db.available || !Bound(v.email) ==> r == Failure(500, "Error al registrar usuario") && unchanged(db)
    ensures db.available && Bound(v.email) && UsuarioModel.ObtenerPorEmail(old(db.usuarios), Sql(v.email)).Some? ==>
      r == Failure(400, "El correo electrónico ya está registrado") && unchanged(db)
    ensures db.available && Bound(v.email) && UsuarioModel.ObtenerPorEmail(old(db.usuarios), Sql(v.email)).None? ==>
      var id := old(db.nextUsuarioId);
      var k := PrimeroTomado(old(db.categorias), id, 0);
      && db.usuarios == old(db.usuarios) + [Usuario(id, Some(v.nombre), Sql(v.email), Hash(v.password), None, now, None)]
      && db.nextUsuarioId == id + 1
      && db.categorias == old(db.categorias) + FilasDefecto(k, old(db.nextCategoriaId), id, now)
      && db.nextCategoriaId == old(db.nextCategoriaId) + Gastados(k)
      && (k == |Defectos| ==>
            && r == Success(201, Some("Usuario registrado exitosamente"), Some(id))
            && db.actividad == old(db.actividad) + [Actividad(old(db.nextActividadId), id, "login",
                                                              Some("Usuario registrado exitosamente"), now)]
            && db.nextActividadId == old(db.nextActividadId) + 1)
      && (k < |Defectos| ==>
            && r == Failure(500, "Error al registrar usuario")
            && db.actividad == old(db.actividad) && db.nextActividadId == old(db.nextActividadId))
  {
    if !db.available || !Bound(v.email) {
      return Failure(500, "Error al registrar usuario");
    }
    var existente := UsuarioModel.ObtenerPorEmail(db.usuarios, Sql(v.email));
    if existente.Some? {
      return Failure(400, "El correo electrónico ya está registrado");
    }
    var passwordHash := Hash(v.password);
    var creado := UsuarioModel.Crear(db, Some(v.nombre), Sql(v.email), passwordHash, now);
    var usuarioId := creado.value;
    var completo := CrearDefectos(db, usuarioId, now);
    if !completo {
      return Failure(500, "Error al registrar usuario");
    }
    var registrada := ActividadModel.Registrar(db, usuarioId, "login", Some("Usuario registrado exitosamente"), now);
    r := Success(201, Some("Usuario registrado exitosamente"), Some(usuarioId));
  }

  /** `POST /registrar`: validation errors give 400 and write nothing; otherwise `Alta`. */
  method Registrar(db: Database, isEmail: string -> bool, body: RutasAuth.Registro, now: Instant)
    returns (r: Reply<int>)
    requires db.Valid()
    modifies db`usuarios, db`nextUsuarioId, db`categorias, db`nextCategoriaId, db`actividad, db`nextActividadId
    ensures db.Valid()
    ensures RutasAuth.ValidarRegistro(isEmail, body).Err? ==>
      r == Invalid(RutasAuth.ValidarRegistro(isEmail, body).error) && unchanged(db)
    ensures RutasAuth.ValidarRegistro(isEmail, body).Ok? && (!db.available || !Bound(body.email)) ==>
      r == Failure(500, "Error al registrar usuario") && unchanged(db)
    ensures RutasAuth.ValidarRegistro(isEmail, body).Ok? && db.available && Bound(body.email)
            && UsuarioModel.ObtenerPorEmail(old(db.usuarios), Sql(body.email)).Some? ==>
      r == Failure(400, "El correo electrónico ya está registrado") && unchanged(db)
    ensures RutasAuth.ValidarRegistro(isEmail, body).Ok? && db.available && Bound(body.email)
            && UsuarioModel.ObtenerPorEmail(old(db.usuarios), Sql(body.email)).None? ==>
      var v := RutasAuth.ValidarRegistro(isEmail, body).value;
      var id := old(db.nextUsuarioId);
      var k := PrimeroTomado(old(db.categorias), id, 0);
      && db.usuarios == old(db.usuarios) + [Usuario(id, Some(v.nombre), Sql(body.email), Hash(v.password), None, now, None)]
      && db.nextUsuarioId == id + 1
      && db.categorias == old(db.categorias) + FilasDefecto(k, old(db.nextCategoriaId), id, now)
      && db.nextCategoriaId == old(db.nextCategoriaId) + Gastados(k)
      && (k == |Defectos| ==>
            && r == Success(201, Some("Usuario registrado exitosamente"), Some(id))
            && db.actividad == old(db.actividad) + [Actividad(old(db.nextActividadId), id, "login",
                                                              Some("Usuario registrado exitosamente"), now)]
            && db.nextActividadId == old(db.nextActividadId) + 1)
      && (k < |Defectos| ==>
            && r == Failure(500, "Error al registrar usuario")
            && db.actividad == old(db.actividad) && db.nextActividadId == old(db.nextActividadId))
  {
    var validado := RutasAuth.ValidarRegistro(isEmail, body);
    if validado.Err? {
      return Invalid(validado.error);
    }
    r := Alta(db, validado.value, now);
  }

  /** A user id no category belongs to, which is what a fresh auto-increment id is in a
      database whose categories belong to existing users, receives all four defaults and
      owns nothing else. */
  lemma RegistroCompleto(categorias: seq<Categoria>, u: int, next: int, now: Instant)
    requires forall c :: c in categorias ==> c.usuarioId != u
    ensures PrimeroTomado(categorias, u, 0) == |Defectos|
    ensures Filter(categorias + FilasDefecto(|Defectos|, next, u, now), CategoriaModel.Propias(u))
         == FilasDefecto(|Defectos|, next, u, now)
  {
    var filas := FilasDefecto(|Defectos|, next, u, now);
    forall j | 0 <= j < |Defectos| ensures !Tomado(categorias, Defectos[j].nombre, u) {
    }
    FilterNone(categorias, CategoriaModel.Propias(u));
    FilterAppend(categorias, filas, CategoriaModel.Propias(u));
    FilterAll(filas, CategoriaModel.Propias(u));
  }

  /** A user registered with an e-mail nobody held is what `obtenerPorEmail` finds for
      that e-mail, and the stored hash verifies the registration password and exactly the
      passwords bcrypt cannot tell from it; below 72 bytes, that password alone. */
  lemma RegistradoPuedeEntrar(usuarios: seq<Usuario>, id: int, nombre: string, email: string,
                              password: string, now: Instant, intento: string)
    requires UsuarioModel.ObtenerPorEmail(usuarios, Some(email)).None?
    ensures var u := Usuario(id, Some(nombre), Some(email), Hash(password), None, now, None);
      && UsuarioModel.ObtenerPorEmail(usuarios + [u], Some(email)) == Some(u)
      && (Verify(intento, u.password) <==> Equivalentes(password, intento))
      && (|Unicode.Utf8(password)| < LongitudClave ==> (Verify(intento, u.password) <==> intento == password))
  {
    var u := Usuario(id, Some(nombre), Some(email), Hash(password), None, now, None);
    FilterNone(usuarios, UsuarioModel.ConEmail(Some(email)));
    FilterAppend(usuarios, [u], UsuarioModel.ConEmail(Some(email)));
    assert Filter([u], UsuarioModel.ConEmail(Some(email))) == [u];
    VerifyHash(password, intento);
  }

  /** The user fields the login answer carries. */
  datatype UsuarioPublico = UsuarioPublico(id: int, nombre: Option<string>, email: Option<string>,
                                           fotoPerfil: Option<string>)

  /** The `data` of a successful login. */
  datatype Sesion = Sesion(token: Token, usuario: UsuarioPublico)

  /** `POST /login`: validation errors give 400, an unknown e-mail 404 and a wrong
      password 401, with nothing written. Otherwise a token with the user's id and
      e-mail, valid for 24 hours, is issued, `ultima_conexion` is set and a 'login' entry
      is logged. */
  method Login(db: Database, isEmail: string -> bool, body: RutasAuth.Credenciales, now: Instant)
    returns (r: Reply<Sesion>)
    requires db.Valid()
    modifies db`usuarios, db`actividad, db`nextActividadId
    ensures db.Valid()
    ensures RutasAuth.ValidarLogin(isEmail, body).Err? ==>
      r == Invalid(RutasAuth.ValidarLogin(isEmail, body).error) && unchanged(db)
    ensures RutasAuth.ValidarLogin(isEmail, body).Ok? && (!db.available || !Bound(body.email)) ==>
      r == Failure(500, "Error al iniciar sesión") && unchanged(db)
    ensures RutasAuth.ValidarLogin(isEmail, body).Ok? && db.available && Bound(body.email) ==>
      var password := RutasAuth.ValidarLogin(isEmail, body).value.password;
      match UsuarioModel.ObtenerPorEmail(old(db.usuarios), Sql(body.email))
      case None => r == Failure(404, "No existe una cuenta con este correo electrónico") && unchanged(db)
      case Some(u) =>
        if !Verify(password, u.password) then
          r == Failure(401, "La contraseña es incorrecta") && unchanged(db)
        else
          && r == Success(200, Some("Inicio de sesión exitoso"),
                          Some(Sesion(Sign(Claims(u.id, u.email), now), UsuarioPublico(u.id, u.nombre, u.email, u.fotoPerfil))))
          && db.usuarios == UpdateWhere(old(db.usuarios), UsuarioModel.ConId(u.id), UsuarioModel.Conexion(now))
          && db.actividad == old(db.actividad) + [Actividad(old(db.nextActividadId), u.id, "login",
                                                            Some("Inicio de sesión exitoso"), now)]
          && db.nextActividadId == old(db.nextActividadId) + 1
  {
    var validado := RutasAuth.ValidarLogin(isEmail, body);
    if validado.Err? {
      return Invalid(validado.error);
    }
    var v := validado.value;
    if !db.available || !Bound(v.email) {
      return Failure(500, "Error al iniciar sesión");
    }
    var usuario := UsuarioModel.ObtenerPorEmail(db.usuarios, Sql(v.email));
    if usuario.None? {
      return Failure(404, "No existe una cuenta con este correo electrónico");
    }
    var u := usuario.value;
    if !Verify(v.password, u.password) {
      return Failure(401, "La contraseña es incorrecta");
    }
    var token := Sign(Claims(u.id, u.email), now);
    var conexion := UsuarioModel.ActualizarUltimaConexion(db, u.id, now);
    var registrada := ActividadModel.Registrar(db, u.id, "login", Some("Inicio de sesión exitoso"), now);
    r := Success(200, Some("Inicio de sesión exitoso"),
                 Some(Sesion(token, UsuarioPublico(u.id, u.nombre, u.email, u.fotoPerfil))));
  }

  /** `GET /perfil`: the caller's profile without the password hash. */
  method ObtenerPerfil(db: Database, userId: int) returns (r: Reply<UsuarioModel.Perfil>)
    ensures !db.available ==> r == Failure(500, "Error al obtener perfil")
    ensures db.available ==>
      match UsuarioModel.ObtenerPorId(db.usuarios, userId)
      case None => r == Failure(404, "Usuario no encontrado")
      case Some(p) => r == Success(200, None, Some(p)) && p.id == userId
  {
    if !db.available {
      return Failure(500, "Error al obtener perfil");
    }
    var usuario := UsuarioModel.ObtenerPorId(db.usuarios, userId);
    if usuario.None? {
      return Failure(404, "Usuario no encontrado");
    }
    r := Success(200, None, Some(usuario.value));
  }

  /** The photo `actualizarPerfil` stores: the uploaded file's name when a file came,
      the body's `foto_perfil` otherwise. */
  function Foto(body: RutasAuth.CuerpoPerfil, archivo: Option<string>): (f: Field<string>)
    ensures archivo.Some? ==> f == Given(archivo.value)
    ensures archivo.None? ==> f == body.fotoPerfil
  {
    if archivo.Some? then Given(archivo.value) else body.fotoPerfil
  }

  /** `PUT /perfil`: rewrites name, e-mail and photo of the caller as sent (missing
      fields make the statement fail); an e-mail another user holds fails with 500 as
      well, and 404 answers an unknown caller. */
  method ActualizarPerfil(db: Database, userId: int, body: RutasAuth.CuerpoPerfil, archivo: Option<string>)
    returns (r: Reply<()>)
    requires db.Valid()
    modifies db`usuarios
    ensures db.Valid()
    ensures !db.available || !Bound(body.nombre) || !Bound(body.email) || !Bound(Foto(body, archivo)) ==>
      r == Failure(500, "Error al actualizar perfil") && db.usuarios == old(db.usuarios)
    ensures db.available && Bound(body.nombre) && Bound(body.email) && Bound(Foto(body, archivo)) ==>
      var n := |Filter(old(db.usuarios), UsuarioModel.ConId(userId))|;
      if n > 0 && UsuarioModel.EmailOcupado(old(db.usuarios), Sql(body.email), userId) then
        r == Failure(500, "Error al actualizar perfil") && db.usuarios == old(db.usuarios)
      else
        && db.usuarios == UpdateWhere(old(db.usuarios), UsuarioModel.ConId(userId),
                                      UsuarioModel.ReescribirPerfil(Sql(body.nombre), Sql(body.email),
                                                                    Sql(Foto(body, archivo))))
        && (n == 0 ==> r == Failure(404, "Usuario no encontrado"))
        && (n != 0 ==> r == Success(200, Some("Perfil actualizado exitosamente"), None))
  {
    var foto := Foto(body, archivo);
    if !Bound(body.nombre) || !Bound(body.email) || !Bound(foto) {
      return Failure(500, "Error al actualizar perfil");
    }
    var res := UsuarioModel.ActualizarPerfil(db, userId, Sql(body.nombre), Sql(body.email), Sql(foto));
    if res.Err? {
      return Failure(500, "Error al actualizar perfil");
    }
    if res.value == 0 {
      return Failure(404, "Usuario no encontrado");
    }
    r := Success(200, Some("Perfil actualizado exitosamente"), None);
  }

  /** `PUT /cambiar-password` as written. The route's checks are never consulted. The
      current password is checked against the user the token's e-mail names, while the
      new hash is written to the token's user id; a user the e-mail does not find, or a
      missing password, makes the handler fail with 500. */
  method CambiarPassword(db: Database, caller: Claims, body: RutasAuth.CambioPassword) returns (r: Reply<()>)
    requires db.Valid()
    modifies db`usuarios
    ensures db.Valid()
    ensures !db.available ==> r == Failure(500, "Error al cambiar contraseña") && db.usuarios == old(db.usuarios)
    ensures db.available ==>
      match UsuarioModel.ObtenerPorEmail(old(db.usuarios), caller.email)
      case None => r == Failure(500, "Error al cambiar contraseña") && db.usuarios == old(db.usuarios)
      case Some(u) =>
        if !body.passwordActual.Given? then
          r == Failure(500, "Error al cambiar contraseña") && db.usuarios == old(db.usuarios)
        else if !Verify(body.passwordActual.value, u.password) then
          r == Failure(400, "La contraseña actual es incorrecta") && db.usuarios == old(db.usuarios)
        else if !body.passwordNueva.Given? then
          r == Failure(500, "Error al cambiar contraseña") && db.usuarios == old(db.usuarios)
        else
          && r == Success(200, Some("Contraseña cambiada exitosamente"), None)
          && db.usuarios == UpdateWhere(old(db.usuarios), UsuarioModel.ConId(caller.userId),
                                        UsuarioModel.NuevaPassword(Hash(body.passwordNueva.value)))
  {
    if !db.available {
      return Failure(500, "Error al cambiar contraseña");
    }
    var usuario := UsuarioModel.ObtenerPorEmail(db.usuarios, caller.email);
    if usuario.None? || !body.passwordActual.Given? {
      return Failure(500, "Error al cambiar contraseña");
    }
    if !Verify(body.passwordActual.value, usuario.value.password) {
      return Failure(400, "La contraseña actual es incorrecta");
    }
    if !body.passwordNueva.Given? {
      return Failure(500, "Error al cambiar contraseña");
    }
    var res := UsuarioModel.CambiarPassword(db, caller.userId, Hash(body.passwordNueva.value));
    r := Success(200, Some("Contraseña cambiada exitosamente"), None);
  }

  /** `SELECT * FROM usuarios WHERE id = ?`. */
  function UsuarioPorId(usuarios: seq<Usuario>, id: int): (r: Option<Usuario>)
    ensures r.Some? ==> r.value in usuarios && r.value.id == id
    ensures r.None? <==> forall u :: u in usuarios ==> u.id != id
  {
    var f := Filter(usuarios, UsuarioModel.ConId(id));
    if f == [] then None else assert f[0] in f; Some(f[0])
  }

  /** `PUT /cambiar-password` as its route declares it: the checks of the route are
      honoured, and the current password is checked against the caller's own row, found
      by the token's user id. A new password shorter than six characters is never
      stored, and nobody's hash changes unless the caller's current password verifies. */
  method CambiarPasswordCorregido(db: Database, caller: Claims, body: RutasAuth.CambioPassword)
    returns (r: Reply<()>)
    requires db.Valid()
    modifies db`usuarios
    ensures db.Valid()
    ensures !r.success ==> db.usuarios == old(db.usuarios)
    ensures r.success ==>
      && body.passwordNueva.Given? && Validacion.LongitudMinima(body.passwordNueva.value, 6)
      && body.passwordActual.Given?
      && (exists u :: u in old(db.usuarios) && u.id == caller.userId && Verify(body.passwordActual.value, u.password))
      && db.usuarios == UpdateWhere(old(db.usuarios), UsuarioModel.ConId(caller.userId),
                                    UsuarioModel.NuevaPassword(Hash(body.passwordNueva.value)))
    ensures RutasAuth.ErroresCambioPassword(body) != [] ==> r == Invalid(RutasAuth.ErroresCambioPassword(body))
    ensures RutasAuth.ErroresCambioPassword(body) == [] && !db.available ==> r == Failure(500, "Error al cambiar contraseña")
    ensures RutasAuth.ErroresCambioPassword(body) == [] && db.available ==>
      match UsuarioPorId(old(db.usuarios), caller.userId)
      case None => r == Failure(404, "Usuario no encontrado")
      case Some(u) =>
        (Verify(TextOf(body.passwordActual), u.password) <==> r == Success(200, Some("Contraseña cambiada exitosamente"), None))
        && (!Verify(TextOf(body.passwordActual), u.password) <==> r == Failure(400, "La contraseña actual es incorrecta"))
  {
    var errores := RutasAuth.ErroresCambioPassword(body);
    if errores != [] {
      return Invalid(errores);
    }
    if !db.available {
      return Failure(500, "Error al cambiar contraseña");
    }
    var usuario := UsuarioPorId(db.usuarios, caller.userId);
    if usuario.None? {
      return Failure(404, "Usuario no encontrado");
    }
    if !Verify(body.passwordActual.value, usuario.value.password) {
      return Failure(400, "La contraseña actual es incorrecta");
    }
    var res := UsuarioModel.CambiarPassword(db, caller.userId, Hash(body.passwordNueva.value));
    r := Success(200, Some("Contraseña cambiada exitosamente"), None);
  }

  /** A database holding one user, Ana, registered with password 'secreto1'. */
  method UnaUsuaria(email: string) returns (db: Database, u: Usuario)
    ensures fresh(db) && db.Valid() && db.available
    ensures u == Usuario(1, Some("Ana"), Some(email), Hash("secreto1"), None, 0, None)
    ensures db.usuarios == [u] && db.nextUsuarioId == 2
  {
    db := new Database(true);
    var creado := UsuarioModel.Crear(db, Some("Ana"), Some(email), Hash("secreto1"), 0);
    u := db.usuarios[0];
  }

  /** As written, Ana can change her password to a single character: the route reports
      the check failing, the handler answers 200 and stores the hash of 'x'. */
  method CambioPasswordCorto() returns (errores: seq<FieldError>, r: Reply<()>, guardada: PasswordHash)
    ensures errores == [FieldError("passwordNueva", "La nueva contraseña debe tener al menos 6 caracteres")]
    ensures r == Success(200, Some("Contraseña cambiada exitosamente"), None)
    ensures guardada == Hash("x")
  {
    var db, u := UnaUsuaria("ana@example.com");
    var body := RutasAuth.CambioPassword(Given("secreto1"), Given("x"));
    errores := RutasAuth.ErroresCambioPassword(body);
    assert !Validacion.LongitudMinima("x", 6);
    assert Filter([u], UsuarioModel.ConEmail(Some("ana@example.com"))) == [u];
    r := CambiarPassword(db, Claims(1, Some("ana@example.com")), body);
    assert UpdateWhere([u], UsuarioModel.ConId(1), UsuarioModel.NuevaPassword(Hash("x"))) == [u.(password := Hash("x"))];
    guardada := db.usuarios[0].password;
  }

  /** Ana's request to change 'secreto1' to 'secreto2' raises no error on the route. */
  lemma CambioAceptado()
    ensures RutasAuth.ErroresCambioPassword(RutasAuth.CambioPassword(Given("secreto1"), Given("secreto2"))) == []
  {
    Validacion.SinSelectores("secreto2");
  }


  /** Ana's database after `PUT /perfil` changes her e-mail to ana@nuevo.com. */
  method AnaConNuevoEmail() returns (db: Database, nueva: Usuario)
    ensures fresh(db) && db.Valid() && db.available
    ensures nueva == Usuario(1, Some("Ana"), Some("ana@nuevo.com"), Hash("secreto1"), None, 0, None)
    ensures db.usuarios == [nueva]
  {
    var u;
    db, u := UnaUsuaria("ana@example.com");
    var perfil := UsuarioModel.ActualizarPerfil(db, 1, Some("Ana"), Some("ana@nuevo.com"), None);
    assert Filter([u], UsuarioModel.ConId(1)) == [u];
    nueva := u.(email := Some("ana@nuevo.com"));
    assert UpdateWhere([u], UsuarioModel.ConId(1), UsuarioModel.ReescribirPerfil(Some("Ana"), Some("ana@nuevo.com"), None)) == [nueva];
  }

  /** After Ana changes her e-mail, her token still carries the old one: as written, the
      password change then answers 500 although she gives her current password; the
      corrected handler, which finds her by id, changes it. */
  method CambioTrasNuevoEmail() returns (escrito: Reply<()>, corregido: Reply<()>)
    ensures escrito == Failure(500, "Error al cambiar contraseña")
    ensures corregido == Success(200, Some("Contraseña cambiada exitosamente"), None)
  {
    var db, nueva := AnaConNuevoEmail();
    var token := Claims(1, Some("ana@example.com"));
    var body := RutasAuth.CambioPassword(Given("secreto1"), Given("secreto2"));
    assert Filter([nueva], UsuarioModel.ConEmail(Some("ana@example.com"))) == [];
    escrito := CambiarPassword(db, token, body);
    CambioAceptado();
    assert Filter([nueva], UsuarioModel.ConId(1)) == [nueva];
    corregido := CambiarPasswordCorregido(db, token, body);
  }


}
