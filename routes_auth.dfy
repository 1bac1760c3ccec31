/** `RutasAuth`: the `/api/auth` router. Registration and login are public; the profile
    and password routes run the authentication middleware themselves. */
module RutasAuth {
  import opened Wrappers
  import opened Http
  import opened Validacion
  import opened Enrutador

  datatype Accion = Registrar | Login | ObtenerPerfil | ActualizarPerfil | CambiarPassword

  const Rutas: seq<Ruta<Accion>> := [
    Ruta(Post, [Lit("registrar")], Registrar, false),
    Ruta(Post, [Lit("login")], Login, false),
    Ruta(Get, [Lit("perfil")], ObtenerPerfil, true),
    Ruta(Put, [Lit("perfil")], ActualizarPerfil, true),
    Ruta(Put, [Lit("cambiar-password")], CambiarPassword, true)
  ]

  /** Every auth route is reached by its own path, and exactly registration and login
      are open to requests without a token. */
  lemma RutasAlcanzables(k: int, path: seq<string>)
    requires 0 <= k < |Rutas| && Coincide(Rutas[k].patron, path)
    ensures Despachar(Rutas, Rutas[k].metodo, path) == Some(Rutas[k])
    ensures !Rutas[k].autenticada <==> Rutas[k].accion == Registrar || Rutas[k].accion == Login
  {
    assert Disjuntos(Rutas[0].patron, Rutas[1].patron) by {
      assert Rutas[0].patron[0].texto != Rutas[1].patron[0].texto;
    }
    assert Disjuntos(Rutas[3].patron, Rutas[4].patron) by {
      assert Rutas[3].patron[0].texto != Rutas[4].patron[0].texto;
    }
    Alcanzable(Rutas, k, path);
  }

  /** The body of `POST /registrar`. */
  datatype Registro = Registro(nombre: Field<string>, email: Field<string>, password: Field<string>)

  /** A registration that passed its chain: `nombre` trimmed and non-empty, `password` of
      at least six characters; `email` is forwarded as it came. */
  datatype RegistroValido = RegistroValido(nombre: string, email: Field<string>, password: string)

  /** The chain of `POST /registrar`. `isEmail` is validator.js's e-mail syntax check. */
  function ValidarRegistro(isEmail: string -> bool, b: Registro): (r: Result<RegistroValido, seq<FieldError>>)
    ensures r.Ok? <==> Recortar(b.nombre) != "" && isEmail(TextOf(b.email)) && LongitudMinima(TextOf(b.password), 6)
    ensures r.Ok? ==>
      && r.value.nombre == Recortar(b.nombre)
      && r.value.email == b.email
      && b.password == Given(r.value.password) && |r.value.password| >= 6
    ensures r.Err? ==>
      && |r.error| <= 3
      && (FieldError("nombre", "El nombre es requerido") in r.error <==> Recortar(b.nombre) == "")
      && (FieldError("email", "Email inválido") in r.error <==> !isEmail(TextOf(b.email)))
      && (FieldError("password", "La contraseña debe tener al menos 6 caracteres") in r.error <==>
          !LongitudMinima(TextOf(b.password), 6))
  {
    var nombre := Recortar(b.nombre);
    var errors := Regla(NoVacio(nombre), "nombre", "El nombre es requerido")
                  + Regla(isEmail(TextOf(b.email)), "email", "Email inválido")
                  + Regla(LongitudMinima(TextOf(b.password), 6), "password",
                          "La contraseña debe tener al menos 6 caracteres");
    if errors == [] then Ok(RegistroValido(nombre, b.email, TextOf(b.password))) else Err(errors)
  }

  /** The body of `POST /login`. */
  datatype Credenciales = Credenciales(email: Field<string>, password: Field<string>)

  datatype CredencialesValidas = CredencialesValidas(email: Field<string>, password: string)

  /** The chain of `POST /login`: a syntactically valid e-mail and a non-empty password. */
  function ValidarLogin(isEmail: string -> bool, b: Credenciales): (r: Result<CredencialesValidas, seq<FieldError>>)
    ensures r.Ok? <==> isEmail(TextOf(b.email)) && TextOf(b.password) != ""
    ensures r.Ok? ==> r.value.email == b.email && b.password == Given(r.value.password) && r.value.password != ""
    ensures r.Err? ==>
      && |r.error| <= 2
      && (FieldError("email", "Email inválido") in r.error <==> !isEmail(TextOf(b.email)))
      && (FieldError("password", "La contraseña es requerida") in r.error <==> TextOf(b.password) == "")
  {
    var errors := Regla(isEmail(TextOf(b.email)), "email", "Email inválido")
                  + Regla(NoVacio(TextOf(b.password)), "password", "La contraseña es requerida");
    if errors == [] then Ok(CredencialesValidas(b.email, TextOf(b.password))) else Err(errors)
  }

  /** The body of `PUT /perfil` (the uploaded file comes separately). */
  datatype CuerpoPerfil = CuerpoPerfil(nombre: Field<string>, email: Field<string>, fotoPerfil: Field<string>)

  /** The body of `PUT /cambiar-password`. */
  datatype CambioPassword = CambioPassword(passwordActual: Field<string>, passwordNueva: Field<string>)

  /** The chain of `PUT /cambiar-password`; its handler never reads the result. */
  function ErroresCambioPassword(b: CambioPassword): (r: seq<FieldError>)
    ensures r == [] <==> TextOf(b.passwordActual) != "" && LongitudMinima(TextOf(b.passwordNueva), 6)
    ensures |r| <= 2
    ensures FieldError("passwordActual", "La contraseña actual es requerida") in r <==> TextOf(b.passwordActual) == ""
    ensures FieldError("passwordNueva", "La nueva contraseña debe tener al menos 6 caracteres") in r <==>
      !LongitudMinima(TextOf(b.passwordNueva), 6)
  {
    Regla(NoVacio(TextOf(b.passwordActual)), "passwordActual", "La contraseña actual es requerida")
    + Regla(LongitudMinima(TextOf(b.passwordNueva), 6), "passwordNueva",
            "La nueva contraseña debe tener al menos 6 caracteres")
  }
}
