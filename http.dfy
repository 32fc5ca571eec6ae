/**
 * What the request handlers see of HTTP and of the session: the session record written by
 * login and by the cart flow, the values a JSON form field can parse to, and the responses
 * a handler can give (continue to the next handler, redirect, forbid, render).
 */
module Http {
  import opened Wrappers
  import opened Modelos

  /** `req.session.user` as login stores it; the role is kept as the stored text. */
  datatype UsuarioSesion = UsuarioSesion(
    id: Id,
    rol: string,
    nombre: Option<string>,
    correo: string,
    activo: bool,
    requiereCambioPassword: bool)

  /**
   * The value `JSON.parse` gives for the cart's id list, as far as the handlers look at it:
   * an array of ids, `null`, another falsy scalar (`false`, `0`, `""`), or any other truthy
   * value that is not an array (an object, a number, `true`, a non-empty string).
   */
  datatype Json = JLista(ids: seq<Id>) | JNulo | JFalso | JOtro

  /** `req.session.carritoTemporal` (its timestamp is not modelled). */
  datatype CarritoTemporal = CarritoTemporal(comercioId: Id, productosIds: Json)

  datatype Sesion = Sesion(user: Option<UsuarioSesion>, carritoTemporal: Option<CarritoTemporal>)

  /** The session after `req.session.destroy()`. */
  const SesionVacia := Sesion(None, None)

  /** How a handler ends: `next()`, a redirect (`RedirigirA` to a path ending in an id), a 403, or a rendered view. */
  datatype Respuesta =
    | Siguiente
    | Redirigir(ruta: string)
    | RedirigirA(prefijo: string, id: Id)
    | Prohibido
    | Vista(plantilla: string)

  /**
   * A numeric form field as the mapper's number cast sees it: absent; the empty text, which
   * the cast turns into null; a text that reads as a number (`Number(text)`, so a text of
   * only whitespace reads as 0); or a text that is not a number, which fails the cast.
   */
  datatype Entrada = Ausente | Vacia | Numero(valor: real) | NoNumerico

  /** The role-to-dashboard table shared by the guards, the login handler and the root route. */
  function InicioDeRol(rol: string): (r: Option<string>)
    ensures r.Some? <==> LeerRol(rol).Some?
  {
    if rol == "cliente" then Some("/cliente/home")
    else if rol == "comercio" then Some("/comercio/home")
    else if rol == "delivery" then Some("/delivery/home")
    else if rol == "administrador" then Some("/admin/dashboard")
    else None
  }

  /** Every role has its own dashboard: the table is one-to-one on the four roles. */
  lemma InicioDeRolInyectivo(a: Rol, b: Rol)
    ensures InicioDeRol(NombreRol(a)).Some?
    ensures InicioDeRol(NombreRol(a)) == InicioDeRol(NombreRol(b)) ==> a == b
  {
  }
}
