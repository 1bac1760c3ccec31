/** `RutasTareas`: the `/api/tareas` router, its validation chains and the bodies its
    handlers read. */
module RutasTareas {
  import opened Wrappers
  import opened Http
  import opened Validacion
  import opened Enrutador
  import opened Schema

  datatype Accion = ObtenerTodas | ObtenerPorEstado | ObtenerPorCategoria | ObtenerUna | Crear
                  | Actualizar | CambiarEstado | AsignarEtiqueta | RemoverEtiqueta | Eliminar

  /** The routes in declaration order; `router.use(authMiddleware)` precedes them all. */
  const Rutas: seq<Ruta<Accion>> := [
    Ruta(Get, [], ObtenerTodas, true),
    Ruta(Get, [Lit("estado"), Param("estado")], ObtenerPorEstado, true),
    Ruta(Get, [Lit("categoria"), Param("categoriaId")], ObtenerPorCategoria, true),
    Ruta(Get, [Param("id")], ObtenerUna, true),
    Ruta(Post, [], Crear, true),
    Ruta(Put, [Param("id")], Actualizar, true),
    Ruta(Patch, [Param("id"), Lit("estado")], CambiarEstado, true),
    Ruta(Post, [Param("id"), Lit("etiquetas")], AsignarEtiqueta, true),
    Ruta(Delete, [Param("id"), Lit("etiquetas"), Param("etiquetaId")], RemoverEtiqueta, true),
    Ruta(Delete, [Param("id")], Eliminar, true)
  ]

  /** Every task route is behind authentication and is reached by every path its pattern
      matches; in particular `/estado/:estado` and `/categoria/:categoriaId` are told
      apart by their first segment. */
  lemma RutasAlcanzables(k: int, path: seq<string>)
    requires 0 <= k < |Rutas| && Coincide(Rutas[k].patron, path)
    ensures Despachar(Rutas, Rutas[k].metodo, path) == Some(Rutas[k])
    ensures Rutas[k].autenticada
  {
    Inequivocas();
    Alcanzable(Rutas, k, path);
    Autenticadas();
  }

  /** `router.use(authMiddleware)` comes before every route. */
  lemma Autenticadas()
    ensures forall i :: 0 <= i < |Rutas| ==> Rutas[i].autenticada
  {
  }

  /** No two routes of one method match the same path. */
  lemma Inequivocas()
    ensures Inequivoca(Rutas)
  {
    forall i, j | 0 <= i < j < |Rutas| && Rutas[i].metodo == Rutas[j].metodo
      ensures Disjuntos(Rutas[i].patron, Rutas[j].patron)
    {
      if i == 1 && j == 2 {
        assert Rutas[1].patron[0].texto != Rutas[2].patron[0].texto;
      } else {
        assert |Rutas[i].patron| != |Rutas[j].patron|;
      }
    }
  }

  /** The task fields of a JSON body. */
  datatype CuerpoTarea = CuerpoTarea(titulo: Field<string>, descripcion: Field<string>,
                                     fechaLimite: Field<Day>, prioridad: Field<string>,
                                     estado: Field<string>, categoriaId: Field<int>)

  /** What `crear` reads from the body once `titulo` has been trimmed. */
  datatype NuevaTarea = NuevaTarea(titulo: string, descripcion: Field<string>, fechaLimite: Field<Day>,
                                   prioridad: Field<string>, categoriaId: Field<int>)

  const Prioridades: seq<string> := ["baja", "media", "alta"]
  const Estados: seq<string> := ["pendiente", "en_progreso", "completada"]

  predicate EsPrioridad(s: string) {
    EnLista(s, Prioridades)
  }

  predicate EsEstado(s: string) {
    EnLista(s, Estados)
  }

  /** The chain of `POST /`: `titulo` trimmed and required, `prioridad` optional but one
      of `baja`, `media`, `alta`. */
  function ValidarCrear(b: CuerpoTarea): (r: Checked<NuevaTarea>)
    ensures r.body == NuevaTarea(Recortar(b.titulo), b.descripcion, b.fechaLimite, b.prioridad, b.categoriaId)
    ensures FieldError("titulo", "El título es requerido") in r.errors <==> Recortar(b.titulo) == ""
    ensures FieldError("prioridad", "Prioridad inválida") in r.errors <==>
      !b.prioridad.Absent? && TextOf(b.prioridad) !in Prioridades
    ensures r.errors == [] <==>
      && Recortar(b.titulo) != ""
      && (b.prioridad.Absent? || (b.prioridad.Given? && b.prioridad.value in Prioridades))
    ensures |r.errors| <= 2
  {
    var titulo := Recortar(b.titulo);
    Checked(NuevaTarea(titulo, b.descripcion, b.fechaLimite, b.prioridad, b.categoriaId),
            Regla(NoVacio(titulo), "titulo", "El título es requerido")
            + Regla(Opcional(b.prioridad, EsPrioridad), "prioridad", "Prioridad inválida"))
  }

  /** The chain of `PATCH /:id/estado`; its handler never reads the result. */
  function ErroresEstado(estado: Field<string>): (r: seq<FieldError>)
    ensures r == [] <==> estado.Given? && estado.value in Estados
    ensures r != [] ==> r == [FieldError("estado", "Estado inválido")]
  {
    Regla(EsEstado(TextOf(estado)), "estado", "Estado inválido")
  }

  /** The chain of `POST /:id/etiquetas`; its handler never reads the result. */
  function ErroresEtiqueta(etiquetaId: Field<int>): (r: seq<FieldError>)
    ensures r == [] <==> etiquetaId.Given?
    ensures r != [] ==> r == [FieldError("etiquetaId", "ID de etiqueta requerido")]
  {
    Regla(NoVacio(NumberText(etiquetaId)), "etiquetaId", "ID de etiqueta requerido")
  }
}
