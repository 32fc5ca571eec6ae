/**
 * middleware/auth.js: the two session guards. `isAuthenticated` protects the private
 * routes, `isNotAuthenticated` the login and registration pages.
 */
module AuthMiddleware {
  import opened Wrappers
  import opened Modelos
  import opened Http

  /** `isAuthenticated`: on with a session user, to the login page without one. */
  function IsAuthenticated(sesion: Sesion): (r: Respuesta)
    ensures r == Siguiente <==> sesion.user.Some?
    ensures r != Siguiente ==> r == Redirigir("/auth/login")
  {
    if sesion.user.Some? then Siguiente else Redirigir("/auth/login")
  }

  /**
   * `isNotAuthenticated`: on without a session user; a logged-in user is sent to their
   * dashboard, or to `/` when the role has none.
   */
  function IsNotAuthenticated(sesion: Sesion): (r: Respuesta)
    ensures r == Siguiente <==> sesion.user.None?
    ensures sesion.user.Some? && InicioDeRol(sesion.user.value.rol).Some? ==>
              r.Redirigir? && Some(r.ruta) == InicioDeRol(sesion.user.value.rol)
    ensures sesion.user.Some? && InicioDeRol(sesion.user.value.rol).None? ==> r == Redirigir("/")
  {
    match sesion.user
    case None => Siguiente
    case Some(u) =>
      match InicioDeRol(u.rol)
      case Some(ruta) => Redirigir(ruta)
      case None => Redirigir("/")
  }

  /** The guards are complementary: for every session exactly one of them lets the request on. */
  lemma Complementarios(sesion: Sesion)
    ensures (IsAuthenticated(sesion) == Siguiente) != (IsNotAuthenticated(sesion) == Siguiente)
  {
  }
}
