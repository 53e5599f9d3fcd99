/**
 * The role middleware guarding the administrator and customer routes: an
 * unauthenticated request is answered 401, a user whose role is not among
 * the route's roles is answered 403, and any other request is passed on.
 */
module CheckRole {
  import opened Common
  import opened Entities

  /** The middleware's answer: a refusal with its status code, or whatever the next handler answers. */
  datatype Paso<R> = Rechazo(http: int) | Continuar(respuesta: R)

  /**
   * `handle`: `siguiente` stands for the response the rest of the pipeline
   * would give; a refusal does not contain it, so it is never consulted.
   */
  function Handle<R>(usuario: Option<Usuario>, roles: seq<string>, siguiente: R): (r: Paso<R>)
    ensures usuario.None? ==> r == Rechazo(401)
    ensures usuario.Some? && usuario.value.rol !in roles ==> r == Rechazo(403)
    ensures r.Continuar? <==> usuario.Some? && usuario.value.rol in roles
    ensures r.Continuar? ==> r.respuesta == siguiente
  {
    if usuario.None? then Rechazo(401)
    else if usuario.value.rol !in roles then Rechazo(403)
    else Continuar(siguiente)
  }

  /** The decision depends only on which roles are listed, not on their order or repetition. */
  lemma SoloImportaElConjunto<R>(usuario: Option<Usuario>, roles1: seq<string>, roles2: seq<string>, siguiente: R)
    requires (set x | x in roles1) == (set x | x in roles2)
    ensures Handle(usuario, roles1, siguiente) == Handle(usuario, roles2, siguiente)
  {
    if usuario.Some? {
      var rol := usuario.value.rol;
      var s1, s2 := set x | x in roles1, set x | x in roles2;
      assert rol in roles1 <==> rol in s1;
      assert rol in roles2 <==> rol in s2;
      assert rol in roles1 <==> rol in roles2;
    }
  }

  /** Adding a role to a route never refuses a user the route admitted before. */
  lemma MasRolesNoRestringen<R>(usuario: Option<Usuario>, roles: seq<string>, extra: seq<string>, siguiente: R)
    requires Handle(usuario, roles, siguiente).Continuar?
    ensures Handle(usuario, roles + extra, siguiente) == Handle(usuario, roles, siguiente)
  {
  }
}
