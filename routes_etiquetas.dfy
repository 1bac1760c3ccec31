/** `RutasEtiquetas`: the `/api/etiquetas` router. */
module RutasEtiquetas {
  import opened Wrappers
  import opened Http
  import opened Validacion
  import opened Enrutador

  datatype Accion = ObtenerTodas | ObtenerPorTarea | ObtenerUna | Crear | Actualizar | Eliminar

  /** The routes in declaration order; `router.use(authMiddleware)` precedes them all. */
  const Rutas: seq<Ruta<Accion>> := [
    Ruta(Get, [], ObtenerTodas, true),
    Ruta(Get, [Lit("tarea"), Param("tareaId")], ObtenerPorTarea, true),
    Ruta(Get, [Param("id")], ObtenerUna, true),
    Ruta(Post, [], Crear, true),
    Ruta(Put, [Param("id")], Actualizar, true),
    Ruta(Delete, [Param("id")], Eliminar, true)
  ]

  /** Every tag route is behind authentication and reached by its own paths. */
  lemma RutasAlcanzables(k: int, path: seq<string>)
    requires 0 <= k < |Rutas| && Coincide(Rutas[k].patron, path)
    ensures Despachar(Rutas, Rutas[k].metodo, path) == Some(Rutas[k])
    ensures Rutas[k].autenticada
  {
    Inequivocas();
    Alcanzable(Rutas, k, path);
    Autenticadas();
  }

  /** `router.use(authMiddleware)` comes before every route. */
  lemma Autenticadas()
    ensures forall i :: 0 <= i < |Rutas| ==> Rutas[i].autenticada
  {
  }

  /** No two routes of one method match the same path. */
  lemma Inequivocas()
    ensures Inequivoca(Rutas)
  {
    forall i, j | 0 <= i < j < |Rutas| && Rutas[i].metodo == Rutas[j].metodo
      ensures Disjuntos(Rutas[i].patron, Rutas[j].patron)
    {
      assert |Rutas[i].patron| != |Rutas[j].patron|;
    }
  }

  /** The tag fields of a JSON body. */
  datatype CuerpoEtiqueta = CuerpoEtiqueta(nombre: Field<string>, color: Field<string>)

  /** The body once `nombre` has been trimmed. */
  datatype Etiqueta = Etiqueta(nombre: string, color: Field<string>)

  /** The chain of `POST /` and `PUT /:id`: `nombre` trimmed and required, `color`
      optional but of the form `#RRGGBB`. */
  function Validar(b: CuerpoEtiqueta): (r: Checked<Etiqueta>)
    ensures r.body == Etiqueta(Recortar(b.nombre), b.color)
    ensures r.errors == [] <==> Recortar(b.nombre) != "" && (b.color.Absent? || (b.color.Given? && ColorHex(b.color.value)))
    ensures |r.errors| <= 2
    ensures FieldError("nombre", "El nombre es requerido") in r.errors <==> Recortar(b.nombre) == ""
    ensures FieldError("color", "Color inválido (formato #RRGGBB)") in r.errors <==>
      !b.color.Absent? && !ColorHex(TextOf(b.color))
  {
    var nombre := Recortar(b.nombre);
    Checked(Etiqueta(nombre, b.color),
            Regla(NoVacio(nombre), "nombre", "El nombre es requerido")
            + Regla(Opcional(b.color, ColorHex), "color", "Color inválido (formato #RRGGBB)"))
  }
}
