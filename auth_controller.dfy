/**
 * controllers/authController.js: the role dashboards, login, the two registration forms,
 * account activation and the password-reset token life cycle. Tokens and the clock are
 * parameters (random bytes and `new Date()` are outside the model); time is in
 * milliseconds.
 */
module AuthController {
  import opened Wrappers
  import opened Modelos
  import opened Texto
  import opened Http
  import Db
  import Usuarios

  // ------------------------------------------------------------ getRoleHome and login

  /** `getRoleHome`: the dashboard of each of the four roles, the login page for anything else. */
  function GetRoleHome(rol: string): (r: string)
    ensures LeerRol(rol).Some? ==> Some(r) == InicioDeRol(rol)
    ensures r == "/auth/login" <==> LeerRol(rol).None?
  {
    match InicioDeRol(rol)
    case Some(ruta) => ruta
    case None => "/auth/login"
  }

  /** `mostrarLogin`: a logged-in user is sent to their dashboard, anyone else sees the form. */
  function MostrarLogin(sesion: Sesion): (r: Respuesta)
    ensures sesion.user.None? <==> r == Vista("auth/login")
    ensures sesion.user.Some? ==> r == Redirigir(GetRoleHome(sesion.user.value.rol))
  {
    if sesion.user.Some? then Redirigir(GetRoleHome(sesion.user.value.rol)) else Vista("auth/login")
  }

  /** The session record login writes; the name falls back to the business name when empty. */
  function SesionDe(id: Id, u: Usuario): (s: UsuarioSesion)
    ensures s.id == id && LeerRol(s.rol) == Some(u.rol) && s.correo == u.correo
    ensures s.activo == u.activo && s.requiereCambioPassword == u.requiereCambioPassword
  {
    LeerNombreRol(u.rol);
    UsuarioSesion(id, NombreRol(u.rol),
                  if u.nombre.Some? && u.nombre.value != [] then u.nombre else u.nombreComercio,
                  u.correo, u.activo, u.requiereCambioPassword)
  }

  /** An account login lets in: active, and the password matches. */
  predicate Acepta(u: Usuario, password: string) {
    u.activo && CompararPassword(u.password, password)
  }

  datatype Ingreso = Ingreso(respuesta: Respuesta, sesion: Sesion)

  /**
   * The login decision for the account the lookup found (if any): unknown account, then
   * inactive account (checked before the password), then wrong password all return to the
   * login page with the session untouched; otherwise the session user is written and an
   * administrator who must change the password is sent to do so, anyone else to the
   * role's dashboard.
   */
  function DecidirLogin(sesion: Sesion, encontrado: Option<(Id, Usuario)>, password: string): (r: Ingreso)
    ensures r.sesion != sesion || r.respuesta != Redirigir("/auth/login") <==>
              encontrado.Some? && Acepta(encontrado.value.1, password)
    ensures encontrado.Some? && Acepta(encontrado.value.1, password) ==>
              var (id, u) := encontrado.value;
              && r.sesion == sesion.(user := Some(SesionDe(id, u)))
              && r.respuesta == Redirigir(if u.rol == Administrador && u.requiereCambioPassword
                                          then "/admin/cambiar-password" else GetRoleHome(NombreRol(u.rol)))
  {
    match encontrado
    case None => Ingreso(Redirigir("/auth/login"), sesion)
    case Some((id, u)) =>
      if !u.activo then Ingreso(Redirigir("/auth/login"), sesion)
      else if !CompararPassword(u.password, password) then Ingreso(Redirigir("/auth/login"), sesion)
      else
        var s := sesion.(user := Some(SesionDe(id, u)));
        LeerNombreRol(u.rol);
        if u.rol == Administrador && u.requiereCambioPassword then Ingreso(Redirigir("/admin/cambiar-password"), s)
        else Ingreso(Redirigir(GetRoleHome(NombreRol(u.rol))), s)
  }

  /** An inactive account is refused even with the right password. */
  lemma InactivoRechazado(sesion: Sesion, id: Id, u: Usuario, password: string)
    requires !u.activo && CompararPassword(u.password, password)
    ensures DecidirLogin(sesion, Some((id, u)), password) == Ingreso(Redirigir("/auth/login"), sesion)
  {
  }

  /** `login`: the account is looked up by user name or address, then the decision is applied. */
  method Login(db: Db.Base, sesion: Sesion, clave: string, password: string)
    returns (respuesta: Respuesta, nueva: Sesion, encontrado: Option<Id>)
    ensures encontrado.None? <==> forall q :: q in db.usuarios ==> !Usuarios.PorClave(db.usuarios[q], clave)
    ensures encontrado.Some? ==> encontrado.value in db.usuarios && Usuarios.PorClave(db.usuarios[encontrado.value], clave)
    ensures Ingreso(respuesta, nueva) ==
              DecidirLogin(sesion, if encontrado.Some? then Some((encontrado.value, db.usuarios[encontrado.value])) else None, password)
  {
    encontrado := Usuarios.BuscarUsuario(db, u => Usuarios.PorClave(u, clave));
    var r := DecidirLogin(sesion, if encontrado.Some? then Some((encontrado.value, db.usuarios[encontrado.value])) else None, password);
    respuesta, nueva := r.respuesta, r.sesion;
  }

  /** `logout`: the session is destroyed. */
  function Logout(sesion: Sesion): (r: Ingreso)
    ensures r.sesion.user.None? && r.sesion.carritoTemporal.None?
    ensures r.respuesta == Redirigir("/auth/login")
  {
    Ingreso(Redirigir("/auth/login"), SesionVacia)
  }

  // ------------------------------------------------------------ registration

  /** The text fields of the client/courier form. */
  datatype FormCliente = FormCliente(
    nombre: string, apellido: string, telefono: string, correo: string, nombreUsuario: string, rol: string)

  /** The text fields of the merchant form; the business type is an id or absent. */
  datatype FormComercio = FormComercio(
    nombreComercio: string, telefono: string, correo: string, horaApertura: string, horaCierre: string,
    tipoComercio: Option<Id>)

  /** The outcome of a registration: the response and the stored document, if one was stored. */
  datatype Alta = Alta(respuesta: Respuesta, nuevo: Option<Usuario>)

  function Subida(archivo: Option<string>): Option<string> {
    if archivo.Some? then Some("/uploads/" + archivo.value) else None
  }

  /** `Usuario.findOne({$or: [{nombreUsuario}, {correo}]})` finds something. */
  predicate Existe(usuarios: map<Id, Usuario>, nombreUsuario: Option<string>, correo: string) {
    exists q :: q in usuarios &&
      ((nombreUsuario.Some? && usuarios[q].nombreUsuario == Some(Recortar(nombreUsuario.value)))
       || usuarios[q].correo == NormalizarCorreo(correo))
  }

  /** The document `registrarCliente` builds (before the save hook). */
  function NuevoCliente(f: FormCliente, rol: Rol, password: string, archivo: Option<string>, token: string): Usuario {
    NuevoUsuario(NormalizarCorreo(f.correo), password, rol).(
      nombre := Some(Recortar(f.nombre)), apellido := Some(Recortar(f.apellido)),
      telefono := Some(Recortar(f.telefono)), nombreUsuario := Some(Recortar(f.nombreUsuario)),
      tokenActivacion := Some(token), fotoPerfil := Subida(archivo))
  }

  /**
   * `registrarCliente`. A password mismatch, a user name or address already taken, a role
   * outside the schema's four, or a document the save refuses store nothing and return to
   * the form. Otherwise an inactive account with the activation token and the hashed
   * password is stored; a failing activation mail still sends the user back to the form,
   * with the account already stored. The handler itself accepts any of the four roles.
   */
  function RegistroCliente(
    usuarios: map<Id, Usuario>, f: FormCliente, password: string, confirmar: string,
    archivo: Option<string>, token: string, envioOk: bool, nuevoId: Id): (r: Alta)
    ensures password != confirmar || Existe(usuarios, Some(f.nombreUsuario), f.correo) || LeerRol(f.rol).None? ==>
              r == Alta(Redirigir("/auth/register-cliente"), None)
    ensures r.nuevo.Some? ==>
              && !r.nuevo.value.activo && r.nuevo.value.tokenActivacion == Some(token)
              && Some(r.nuevo.value.rol) == LeerRol(f.rol)
              && r.nuevo.value.estadoDisponibilidad == Disponible
              && CompararPassword(r.nuevo.value.password, password)
              && r.respuesta == Redirigir(if envioOk then "/auth/login" else "/auth/register-cliente")
    ensures r.nuevo.None? ==> r.respuesta == Redirigir("/auth/register-cliente")
  {
    if password != confirmar || Existe(usuarios, Some(f.nombreUsuario), f.correo) then
      Alta(Redirigir("/auth/register-cliente"), None)
    else match LeerRol(f.rol)
      case None => Alta(Redirigir("/auth/register-cliente"), None)
      case Some(rol) =>
        var u := NuevoCliente(f, rol, password, archivo, token);
        if UsuarioValido(u) && !Usuarios.ChocaIndice(usuarios, nuevoId, u) then
          Alta(Redirigir(if envioOk then "/auth/login" else "/auth/register-cliente"), Some(AntesDeGuardar(u, true)))
        else Alta(Redirigir("/auth/register-cliente"), None)
  }

  method RegistrarCliente(
    db: Db.Base, f: FormCliente, password: string, confirmar: string,
    archivo: Option<string>, token: string, envioOk: bool, nuevoId: Id)
    returns (respuesta: Respuesta)
    requires nuevoId !in db.usuarios
    modifies db`usuarios
    ensures var r := RegistroCliente(old(db.usuarios), f, password, confirmar, archivo, token, envioOk, nuevoId);
            && respuesta == r.respuesta
            && db.usuarios == if r.nuevo.Some? then old(db.usuarios)[nuevoId := r.nuevo.value] else old(db.usuarios)
  {
    if password != confirmar || Existe(db.usuarios, Some(f.nombreUsuario), f.correo) {
      return Redirigir("/auth/register-cliente");
    }
    var rol := LeerRol(f.rol);
    if rol.None? {
      return Redirigir("/auth/register-cliente");
    }
    var guardado := Usuarios.GuardarNuevo(db, nuevoId, NuevoCliente(f, rol.value, password, archivo, token));
    respuesta := Redirigir(if guardado && envioOk then "/auth/login" else "/auth/register-cliente");
  }

  /** The document `registrarComercio` builds (before the save hook). */
  function NuevoComercio(f: FormComercio, password: string, archivo: Option<string>, token: string): Usuario {
    NuevoUsuario(NormalizarCorreo(f.correo), password, Comercio).(
      nombreComercio := Some(Recortar(f.nombreComercio)), telefono := Some(Recortar(f.telefono)),
      horaApertura := Some(f.horaApertura), horaCierre := Some(f.horaCierre),
      tipoComercio := f.tipoComercio, tokenActivacion := Some(token), logoComercio := Subida(archivo))
  }

  /**
   * `registrarComercio`: as the client form, but only the address is checked for
   * duplicates, and the account is always a merchant.
   */
  function RegistroComercio(
    usuarios: map<Id, Usuario>, f: FormComercio, password: string, confirmar: string,
    archivo: Option<string>, token: string, envioOk: bool, nuevoId: Id): (r: Alta)
    ensures password != confirmar || Existe(usuarios, None, f.correo) ==>
              r == Alta(Redirigir("/auth/register-comercio"), None)
    ensures r.nuevo.Some? ==>
              && !r.nuevo.value.activo && r.nuevo.value.tokenActivacion == Some(token)
              && r.nuevo.value.rol == Comercio && r.nuevo.value.nombreUsuario.None?
              && CompararPassword(r.nuevo.value.password, password)
              && r.respuesta == Redirigir(if envioOk then "/auth/login" else "/auth/register-comercio")
    ensures r.nuevo.None? ==> r.respuesta == Redirigir("/auth/register-comercio")
  {
    if password != confirmar || Existe(usuarios, None, f.correo) then
      Alta(Redirigir("/auth/register-comercio"), None)
    else
      var u := NuevoComercio(f, password, archivo, token);
      if UsuarioValido(u) && !Usuarios.ChocaIndice(usuarios, nuevoId, u) then
        Alta(Redirigir(if envioOk then "/auth/login" else "/auth/register-comercio"), Some(AntesDeGuardar(u, true)))
      else Alta(Redirigir("/auth/register-comercio"), None)
  }

  method RegistrarComercio(
    db: Db.Base, f: FormComercio, password: string, confirmar: string,
    archivo: Option<string>, token: string, envioOk: bool, nuevoId: Id)
    returns (respuesta: Respuesta)
    requires nuevoId !in db.usuarios
    modifies db`usuarios
    ensures var r := RegistroComercio(old(db.usuarios), f, password, confirmar, archivo, token, envioOk, nuevoId);
            && respuesta == r.respuesta
            && db.usuarios == if r.nuevo.Some? then old(db.usuarios)[nuevoId := r.nuevo.value] else old(db.usuarios)
  {
    if password != confirmar || Existe(db.usuarios, None, f.correo) {
      return Redirigir("/auth/register-comercio");
    }
    var guardado := Usuarios.GuardarNuevo(db, nuevoId, NuevoComercio(f, password, archivo, token));
    respuesta := Redirigir(if guardado && envioOk then "/auth/login" else "/auth/register-comercio");
  }

  // ------------------------------------------------------------ activation and password reset

  /** The reset link is valid for one hour. */
  const UnaHora: int := 3_600_000

  /** The account after activation: active, with the token cleared. */
  function Activado(u: Usuario): (r: Usuario)
    ensures r.activo && r.tokenActivacion.None?
    ensures r.(activo := u.activo, tokenActivacion := u.tokenActivacion) == u
  {
    u.(activo := true, tokenActivacion := None)
  }

  /** The account after a reset request at time `ahora`. */
  function ConTokenReset(u: Usuario, token: string, ahora: int): Usuario {
    u.(tokenResetPassword := Some(token), tokenExpiracion := Some(ahora + UnaHora))
  }

  /** The account after a reset: the new password (hashed on save) and both reset fields cleared. */
  function Restablecido(u: Usuario, password: string): Usuario {
    AntesDeGuardar(u.(password := Plano(password), tokenResetPassword := None, tokenExpiracion := None), true)
  }

  /**
   * `activarCuenta`: the account holding the token (if any) is activated and its token
   * cleared, unless its stored address is empty: then the save fails `required` and nothing
   * changes. The user always returns to the login page.
   */
  method ActivarCuenta(db: Db.Base, token: string) returns (respuesta: Respuesta, activado: Option<Id>)
    modifies db`usuarios
    ensures respuesta == Redirigir("/auth/login")
    ensures activado.None? <==> forall q :: q in old(db.usuarios) ==> !Usuarios.PorTokenActivacion(old(db.usuarios)[q], token)
    ensures activado.None? ==> db.usuarios == old(db.usuarios)
    ensures activado.Some? ==>
              && activado.value in old(db.usuarios)
              && Usuarios.PorTokenActivacion(old(db.usuarios)[activado.value], token)
              && db.usuarios == if old(db.usuarios)[activado.value].correo != []
                                then old(db.usuarios)[activado.value := Activado(old(db.usuarios)[activado.value])]
                                else old(db.usuarios)
  {
    activado := Usuarios.BuscarUsuario(db, u => Usuarios.PorTokenActivacion(u, token));
    if activado.Some? {
      var _ := Usuarios.GuardarExistente(db, activado.value, Activado(db.usuarios[activado.value]), false);
    }
    respuesta := Redirigir("/auth/login");
  }

  /**
   * `recuperarPassword`: the account named by user name or address gets a reset token that
   * expires one hour from now, unless its stored address is empty and the save fails
   * `required`; the user returns to the request form either way.
   */
  method RecuperarPassword(db: Db.Base, clave: string, token: string, ahora: int)
    returns (respuesta: Respuesta, encontrado: Option<Id>)
    modifies db`usuarios
    ensures respuesta == Redirigir("/auth/forgot-password")
    ensures encontrado.None? <==> forall q :: q in old(db.usuarios) ==> !Usuarios.PorClave(old(db.usuarios)[q], clave)
    ensures encontrado.None? ==> db.usuarios == old(db.usuarios)
    ensures encontrado.Some? ==>
              && encontrado.value in old(db.usuarios)
              && Usuarios.PorClave(old(db.usuarios)[encontrado.value], clave)
              && db.usuarios == if old(db.usuarios)[encontrado.value].correo != []
                                then old(db.usuarios)[encontrado.value := ConTokenReset(old(db.usuarios)[encontrado.value], token, ahora)]
                                else old(db.usuarios)
  {
    encontrado := Usuarios.BuscarUsuario(db, u => Usuarios.PorClave(u, clave));
    if encontrado.Some? {
      var _ := Usuarios.GuardarExistente(db, encontrado.value, ConTokenReset(db.usuarios[encontrado.value], token, ahora), false);
    }
    respuesta := Redirigir("/auth/forgot-password");
  }

  /** `mostrarResetPassword`: the form is shown only while some account holds the unexpired token. */
  function MostrarResetPassword(usuarios: map<Id, Usuario>, token: string, ahora: int): (r: Respuesta)
    ensures r == Vista("auth/reset-password") <==>
              exists q :: q in usuarios && Usuarios.PorTokenReset(usuarios[q], token, ahora)
    ensures r != Vista("auth/reset-password") ==> r == Redirigir("/auth/forgot-password")
  {
    if exists q :: q in usuarios && Usuarios.PorTokenReset(usuarios[q], token, ahora) then Vista("auth/reset-password")
    else Redirigir("/auth/forgot-password")
  }

  /**
   * `resetPassword`: a confirmation mismatch returns to the reset form; no account holding
   * the unexpired token returns to the request form; otherwise the account gets the new
   * password and loses its token, unless the new password or the stored address is empty:
   * then the save fails the schema's `required` and the user goes to the login page with
   * nothing changed.
   */
  method ResetPassword(db: Db.Base, token: string, password: string, confirmar: string, ahora: int)
    returns (respuesta: Respuesta, encontrado: Option<Id>)
    modifies db`usuarios
    ensures password != confirmar ==>
              encontrado.None? && db.usuarios == old(db.usuarios) && respuesta == Redirigir("/auth/reset-password/" + token)
    ensures password == confirmar ==>
              (encontrado.None? <==> forall q :: q in old(db.usuarios) ==> !Usuarios.PorTokenReset(old(db.usuarios)[q], token, ahora))
    ensures password == confirmar && encontrado.None? ==>
              db.usuarios == old(db.usuarios) && respuesta == Redirigir("/auth/forgot-password")
    ensures encontrado.Some? ==>
              && encontrado.value in old(db.usuarios)
              && Usuarios.PorTokenReset(old(db.usuarios)[encontrado.value], token, ahora)
              && respuesta == Redirigir("/auth/login")
    ensures encontrado.Some? && (password == "" || old(db.usuarios)[encontrado.value].correo == []) ==>
              db.usuarios == old(db.usuarios)
    ensures encontrado.Some? && password != "" && old(db.usuarios)[encontrado.value].correo != [] ==>
              db.usuarios == old(db.usuarios)[encontrado.value := Restablecido(old(db.usuarios)[encontrado.value], password)]
  {
    if password != confirmar {
      return Redirigir("/auth/reset-password/" + token), None;
    }
    encontrado := Usuarios.BuscarUsuario(db, u => Usuarios.PorTokenReset(u, token, ahora));
    if encontrado.None? {
      return Redirigir("/auth/forgot-password"), None;
    }
    var u := db.usuarios[encontrado.value];
    var _ := Usuarios.GuardarExistente(db, encontrado.value,
                                       u.(password := Plano(password), tokenResetPassword := None, tokenExpiracion := None), true);
    respuesta := Redirigir("/auth/login");
  }

  // ------------------------------------------------------------ the token life cycle

  /**
   * A reset token works until one hour after it was issued, and only once: after the reset
   * the account matches no token at any time, and only the new password is accepted.
   */
  lemma TokenResetUnSoloUso(u: Usuario, token: string, emitido: int, ahora: int, nueva: string)
    ensures Usuarios.PorTokenReset(ConTokenReset(u, token, emitido), token, ahora) <==> ahora < emitido + UnaHora
    ensures forall t, x :: !Usuarios.PorTokenReset(Restablecido(u, nueva), t, x)
    ensures CompararPassword(Restablecido(u, nueva).password, nueva)
    ensures forall otra :: otra != nueva ==> !CompararPassword(Restablecido(u, nueva).password, otra)
  {
    GuardarPasswordNuevo(u.(tokenResetPassword := None, tokenExpiracion := None), nueva);
  }

  /** An activation token works once: the activated account no longer matches it. */
  lemma ActivacionUnSoloUso(usuarios: map<Id, Usuario>, id: Id, token: string)
    requires id in usuarios && Usuarios.PorTokenActivacion(usuarios[id], token)
    requires forall q :: q in usuarios && q != id ==> !Usuarios.PorTokenActivacion(usuarios[q], token)
    ensures var despues := usuarios[id := Activado(usuarios[id])];
            forall q :: q in despues ==> !Usuarios.PorTokenActivacion(despues[q], token)
  {
  }

  /**
   * From registration to login: a newly registered account is refused, even with its own
   * password, until it is activated; after activation that password lets the user in.
   */
  lemma RegistroActivacionLogin(
    usuarios: map<Id, Usuario>, f: FormCliente, password: string, archivo: Option<string>,
    token: string, envioOk: bool, nuevoId: Id, sesion: Sesion)
    requires RegistroCliente(usuarios, f, password, password, archivo, token, envioOk, nuevoId).nuevo.Some?
    ensures var u := RegistroCliente(usuarios, f, password, password, archivo, token, envioOk, nuevoId).nuevo.value;
            && DecidirLogin(sesion, Some((nuevoId, u)), password) == Ingreso(Redirigir("/auth/login"), sesion)
            && DecidirLogin(sesion, Some((nuevoId, Activado(u))), password).sesion.user == Some(SesionDe(nuevoId, Activado(u)))
  {
  }
}
