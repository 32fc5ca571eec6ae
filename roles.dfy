/**
 * middleware/roles.js: `checkRole(...roles)`, the gate in front of the merchant, courier,
 * administrator and metrics routes. It lets a session through when its role is one of
 * `roles`, and otherwise sends the user to the login page or to their own dashboard.
 */
module Roles {
  import opened Wrappers
  import opened Modelos
  import opened Http
  import AuthController

  /**
   * The gate. Without a session user the request goes to login; a role in `roles` goes on
   * to the next handler; any other role is sent to its own dashboard, or to login when the
   * role has none.
   */
  function CheckRole(roles: seq<string>, sesion: Sesion): (r: Respuesta)
    ensures r == Siguiente <==> sesion.user.Some? && sesion.user.value.rol in roles
    ensures r != Siguiente ==> r.Redirigir?
    ensures sesion.user.None? ==> r == Redirigir("/auth/login")
    ensures sesion.user.Some? && sesion.user.value.rol !in roles ==>
              && (InicioDeRol(sesion.user.value.rol).Some? ==> Some(r.ruta) == InicioDeRol(sesion.user.value.rol))
              && (InicioDeRol(sesion.user.value.rol).None? ==> r.ruta == "/auth/login")
  {
    match sesion.user
    case None => Redirigir("/auth/login")
    case Some(u) =>
      if u.rol in roles then Siguiente
      else match InicioDeRol(u.rol)
        case Some(ruta) => Redirigir(ruta)
        case None => Redirigir("/auth/login")
  }

  /**
   * A session written by login passes the gate of its own role, and the gate of any other
   * single role sends it to the dashboard that login itself would have chosen.
   */
  lemma LoginYPuerta(id: Id, u: Usuario, otro: Rol, carrito: Option<CarritoTemporal>)
    requires otro != u.rol
    ensures CheckRole([NombreRol(u.rol)], Sesion(Some(AuthController.SesionDe(id, u)), carrito)) == Siguiente
    ensures CheckRole([NombreRol(otro)], Sesion(Some(AuthController.SesionDe(id, u)), carrito))
         == Redirigir(AuthController.GetRoleHome(NombreRol(u.rol)))
  {
    var s := AuthController.SesionDe(id, u);
    LeerNombreRol(u.rol);
    LeerNombreRol(otro);
    assert s.rol == NombreRol(u.rol);
    assert s.rol != NombreRol(otro);
  }
}
