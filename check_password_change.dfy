/**
 * middleware/checkPasswordChange.js: an administrator whose account is flagged to change
 * its password can only reach the change form and logout until it is changed. The gate
 * runs before every route.
 */
module CheckPasswordChange {
  import opened Wrappers
  import opened Modelos
  import opened Http
  import AuthController
  import AdminController

  /** The paths a flagged administrator may still reach. */
  const RutasPermitidas: seq<string> := ["/admin/cambiar-password", "/auth/logout"]

  /** The session belongs to an administrator flagged to change the password. */
  predicate Obligado(sesion: Sesion) {
    sesion.user.Some? && sesion.user.value.rol == "administrador" && sesion.user.value.requiereCambioPassword
  }

  /** The gate for a request to `ruta`: a flagged administrator is held on the change form. */
  function Revisar(sesion: Sesion, ruta: string): (r: Respuesta)
    ensures r == Siguiente <==> !Obligado(sesion) || ruta in RutasPermitidas
    ensures r != Siguiente ==> r == Redirigir("/admin/cambiar-password")
  {
    if sesion.user.None? || sesion.user.value.rol != "administrador" then Siguiente
    else if sesion.user.value.requiereCambioPassword && ruta !in RutasPermitidas then Redirigir("/admin/cambiar-password")
    else Siguiente
  }

  /**
   * A flagged administrator who logs in is sent to the change form, the gate lets that
   * request through, and every other path but logout leads back to the form.
   */
  lemma LoginObligado(sesion: Sesion, id: Id, u: Usuario, password: string, ruta: string)
    requires u.rol == Administrador && u.requiereCambioPassword
    requires AuthController.Acepta(u, password)
    ensures var i := AuthController.DecidirLogin(sesion, Some((id, u)), password);
            && i.respuesta == Redirigir("/admin/cambiar-password")
            && Revisar(i.sesion, "/admin/cambiar-password") == Siguiente
            && (ruta !in RutasPermitidas ==> Revisar(i.sesion, ruta) == Redirigir("/admin/cambiar-password"))
  {
    var s := AuthController.SesionDe(id, u);
    LeerNombreRol(u.rol);
    assert s.rol == "administrador";
  }

  /** Once `cambiarPassword` succeeds, the session it leaves passes the gate on every path. */
  lemma CambioLibera(sesion: Sesion, cuenta: Option<Usuario>, actual: string, nuevo: string, confirmar: string,
                     ruta: string)
    requires sesion.user.Some?
    requires AdminController.CambiarPasswordDe(sesion, cuenta, actual, nuevo, confirmar).cuenta.Some?
    ensures Revisar(AdminController.CambiarPasswordDe(sesion, cuenta, actual, nuevo, confirmar).sesion, ruta) == Siguiente
  {
  }
}
