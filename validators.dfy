/**
 * middleware/validators.js: the field rules of the two registration forms and the handler
 * that ends a rule chain. Every rule of every field runs (none stops at its first
 * failure), the failures are kept in field order and rule order, and the handler shows the
 * first one. A missing field reads as the empty text.
 */
module Validators {
  import opened Wrappers
  import opened Modelos
  import opened Texto
  import opened Http
  import AuthController
  import Usuarios

  datatype CampoFormulario =
    | FNombre | FApellido | FTelefono | FCorreo | FNombreUsuario | FRol | FPassword | FConfirmarPassword
    | FNombreComercio | FHoraApertura | FHoraCierre | FTipoComercio

  /** Which rule failed: `notEmpty`, `isLength`, a pattern (`matches`, `isEmail`, `isIn`), or the confirmation. */
  datatype Regla = Requerido | Longitud | Formato | NoCoincide

  datatype Fallo = Fallo(campo: CampoFormulario, regla: Regla)

  function Si(c: bool, f: Fallo): (r: seq<Fallo>)
    ensures r == [] <==> !c
  {
    if c then [f] else []
  }

  /** The trimmed text is non-empty and its length lies between `min` and `max`. */
  predicate LargoEntre(valor: string, min: nat, max: nat) {
    Recortar(valor) != [] && min <= |Recortar(valor)| <= max
  }

  /** `trim().notEmpty().isLength({min, max})` on a text field. */
  function TextoEntre(campo: CampoFormulario, valor: string, min: nat, max: nat): (r: seq<Fallo>)
    ensures r == [] <==> LargoEntre(valor, min, max)
    ensures Recortar(valor) == [] ==> r[0] == Fallo(campo, Requerido)
  {
    var t := Recortar(valor);
    Si(t == [], Fallo(campo, Requerido)) + Si(!(min <= |t| <= max), Fallo(campo, Longitud))
  }

  /** `^[0-9]{10}$` */
  predicate DiezDigitos(s: string) {
    |s| == 10 && forall i :: 0 <= i < |s| ==> EsDigito(s[i])
  }

  /** `[a-zA-Z0-9_]` */
  predicate CaracterDeUsuario(c: char) {
    'a' <= c <= 'z' || 'A' <= c <= 'Z' || EsDigito(c) || c == '_'
  }

  /** `^[a-zA-Z0-9_]+$` */
  predicate SoloCaracteresDeUsuario(s: string) {
    |s| > 0 && forall i :: 0 <= i < |s| ==> CaracterDeUsuario(s[i])
  }

  predicate TelefonoValido(telefono: string) {
    DiezDigitos(Recortar(telefono))
  }

  function ReglasTelefono(telefono: string): (r: seq<Fallo>)
    ensures r == [] <==> TelefonoValido(telefono)
  {
    var t := Recortar(telefono);
    Si(t == [], Fallo(FTelefono, Requerido)) + Si(!DiezDigitos(t), Fallo(FTelefono, Formato))
  }

  /** The address rules; `esCorreo` is what `isEmail` says of the trimmed address. */
  predicate CorreoValido(correo: string, esCorreo: bool) {
    Recortar(correo) != [] && esCorreo
  }

  function ReglasCorreo(correo: string, esCorreo: bool): (r: seq<Fallo>)
    ensures r == [] <==> CorreoValido(correo, esCorreo)
  {
    Si(Recortar(correo) == [], Fallo(FCorreo, Requerido)) + Si(!esCorreo, Fallo(FCorreo, Formato))
  }

  /** At least six characters, and the confirmation is the same text. */
  predicate PasswordValido(password: string, confirmar: string) {
    |password| >= 6 && confirmar == password
  }

  function ReglasPassword(password: string, confirmar: string): (r: seq<Fallo>)
    ensures r == [] <==> PasswordValido(password, confirmar)
  {
    Si(password == [], Fallo(FPassword, Requerido)) + Si(|password| < 6, Fallo(FPassword, Longitud))
    + Si(confirmar == [], Fallo(FConfirmarPassword, Requerido)) + Si(confirmar != password, Fallo(FConfirmarPassword, NoCoincide))
  }

  predicate NombreUsuarioValido(nombreUsuario: string) {
    LargoEntre(nombreUsuario, 4, 20) && SoloCaracteresDeUsuario(Recortar(nombreUsuario))
  }

  function ReglasNombreUsuario(nombreUsuario: string): (r: seq<Fallo>)
    ensures r == [] <==> NombreUsuarioValido(nombreUsuario)
  {
    TextoEntre(FNombreUsuario, nombreUsuario, 4, 20)
    + Si(!SoloCaracteresDeUsuario(Recortar(nombreUsuario)), Fallo(FNombreUsuario, Formato))
  }

  /** `notEmpty().isIn(['cliente', 'delivery'])` on the role, which is not trimmed. */
  predicate RolValido(rol: string) {
    rol == "cliente" || rol == "delivery"
  }

  function ReglasRol(rol: string): (r: seq<Fallo>)
    ensures r == [] <==> RolValido(rol)
  {
    Si(rol == [], Fallo(FRol, Requerido)) + Si(rol != "cliente" && rol != "delivery", Fallo(FRol, Formato))
  }

  /** A concatenation of failure lists is empty exactly when every part is. */
  lemma Vacias(a: seq<Fallo>, b: seq<Fallo>, c: seq<Fallo>, d: seq<Fallo>, e: seq<Fallo>, g: seq<Fallo>, h: seq<Fallo>)
    ensures a + b + c + d + e + g + h == [] <==> a == [] && b == [] && c == [] && d == [] && e == [] && g == [] && h == []
    ensures a != [] ==> (a + b + c + d + e + g + h)[0] == a[0]
  {
    assert |a + b + c + d + e + g + h| == |a| + |b| + |c| + |d| + |e| + |g| + |h|;
  }

  /** Every condition of `validateClienteRegistro`, stated field by field. */
  predicate ClienteValido(f: AuthController.FormCliente, password: string, confirmar: string, esCorreo: bool) {
    && LargoEntre(f.nombre, 2, 50)
    && LargoEntre(f.apellido, 2, 50)
    && TelefonoValido(f.telefono)
    && CorreoValido(f.correo, esCorreo)
    && NombreUsuarioValido(f.nombreUsuario)
    && RolValido(f.rol)
    && PasswordValido(password, confirmar)
  }

  /** The failures `validateClienteRegistro` collects, in order. */
  function ErroresCliente(f: AuthController.FormCliente, password: string, confirmar: string, esCorreo: bool)
    : (r: seq<Fallo>)
    ensures r == [] <==> ClienteValido(f, password, confirmar, esCorreo)
    ensures Recortar(f.nombre) == [] ==> r != [] && r[0] == Fallo(FNombre, Requerido)
  {
    var a := TextoEntre(FNombre, f.nombre, 2, 50);
    var b := TextoEntre(FApellido, f.apellido, 2, 50);
    var c := ReglasTelefono(f.telefono);
    var d := ReglasCorreo(f.correo, esCorreo);
    var e := ReglasNombreUsuario(f.nombreUsuario);
    var g := ReglasRol(f.rol);
    var h := ReglasPassword(password, confirmar);
    Vacias(a, b, c, d, e, g, h);
    a + b + c + d + e + g + h
  }

  /** Every condition of `validateComercioRegistro`, stated field by field. */
  predicate ComercioValido(f: AuthController.FormComercio, password: string, confirmar: string, esCorreo: bool) {
    && LargoEntre(f.nombreComercio, 3, 100)
    && TelefonoValido(f.telefono)
    && CorreoValido(f.correo, esCorreo)
    && f.horaApertura != [] && f.horaCierre != [] && f.tipoComercio.Some?
    && PasswordValido(password, confirmar)
  }

  /** The failures `validateComercioRegistro` collects, in order. */
  function ErroresComercio(f: AuthController.FormComercio, password: string, confirmar: string, esCorreo: bool)
    : (r: seq<Fallo>)
    ensures r == [] <==> ComercioValido(f, password, confirmar, esCorreo)
  {
    TextoEntre(FNombreComercio, f.nombreComercio, 3, 100)
    + ReglasTelefono(f.telefono)
    + ReglasCorreo(f.correo, esCorreo)
    + Si(f.horaApertura == [], Fallo(FHoraApertura, Requerido))
    + Si(f.horaCierre == [], Fallo(FHoraCierre, Requerido))
    + Si(f.tipoComercio.None?, Fallo(FTipoComercio, Requerido))
    + ReglasPassword(password, confirmar)
  }

  /** How `handleValidationErrors` ends: the response and the failure it flashes, if any. */
  datatype Manejo = Manejo(respuesta: Respuesta, aviso: Option<Fallo>)

  /**
   * `handleValidationErrors`: with no failure the request goes on; otherwise the first
   * failure is flashed and the user is sent back to the referring page, or to `/` when the
   * request names none.
   */
  function HandleValidationErrors(errores: seq<Fallo>, referrer: Option<string>): (r: Manejo)
    ensures r.respuesta == Siguiente <==> errores == []
    ensures r.respuesta == Siguiente ==> r.aviso.None?
    ensures errores != [] ==>
              && r.aviso == Some(errores[0])
              && r.respuesta == Redirigir(if referrer.Some? && referrer.value != [] then referrer.value else "/")
  {
    if errores == [] then Manejo(Siguiente, None)
    else Manejo(Redirigir(if referrer.Some? && referrer.value != [] then referrer.value else "/"), Some(errores[0]))
  }

  /**
   * The login, reset, profile, address, category, product, business type, administrator
   * and settings chains hold only the handler: no rule runs, so every request goes on.
   */
  function Marcador(referrer: Option<string>): (r: Manejo)
    ensures r == Manejo(Siguiente, None)
  {
    HandleValidationErrors([], referrer)
  }

  /** A client form that passes the rules carries matching passwords and a client or courier role. */
  lemma ValidadoRolYPassword(f: AuthController.FormCliente, password: string, confirmar: string, esCorreo: bool)
    requires ErroresCliente(f, password, confirmar, esCorreo) == []
    ensures password == confirmar && |password| >= 6
    ensures LeerRol(f.rol) == Some(Cliente) || LeerRol(f.rol) == Some(Delivery)
  {
    assert RolValido(f.rol) && PasswordValido(password, confirmar);
  }

  /**
   * With matching passwords and a client or courier role, `registrarCliente` refuses the
   * form only for a taken user name or address or a document the save refuses, and an
   * account it stores is never a merchant or an administrator.
   */
  lemma RegistroSinRechazoPrevio(usuarios: map<Id, Usuario>, f: AuthController.FormCliente, password: string,
                                 archivo: Option<string>, token: string, envioOk: bool, nuevoId: Id)
    requires RolValido(f.rol)
    ensures LeerRol(f.rol).Some?
    ensures var r := AuthController.RegistroCliente(usuarios, f, password, password, archivo, token, envioOk, nuevoId);
            && (r.nuevo.Some? ==> r.nuevo.value.rol == Cliente || r.nuevo.value.rol == Delivery)
            && (var u := AuthController.NuevoCliente(f, LeerRol(f.rol).value, password, archivo, token);
                (!AuthController.Existe(usuarios, Some(f.nombreUsuario), f.correo) && UsuarioValido(u)
                 && !Usuarios.ChocaIndice(usuarios, nuevoId, u)) ==> r.nuevo.Some?)
  {
  }

  /** So a client form that passes the rules is stored unless the store itself refuses it. */
  lemma ValidadoLlegaAlRegistro(usuarios: map<Id, Usuario>, f: AuthController.FormCliente, password: string,
                                confirmar: string, esCorreo: bool, archivo: Option<string>, token: string,
                                envioOk: bool, nuevoId: Id)
    requires ErroresCliente(f, password, confirmar, esCorreo) == []
    ensures LeerRol(f.rol).Some?
    ensures var r := AuthController.RegistroCliente(usuarios, f, password, confirmar, archivo, token, envioOk, nuevoId);
            && (r.nuevo.Some? ==> r.nuevo.value.rol == Cliente || r.nuevo.value.rol == Delivery)
            && (var u := AuthController.NuevoCliente(f, LeerRol(f.rol).value, password, archivo, token);
                (!AuthController.Existe(usuarios, Some(f.nombreUsuario), f.correo) && UsuarioValido(u)
                 && !Usuarios.ChocaIndice(usuarios, nuevoId, u)) ==> r.nuevo.Some?)
  {
    ValidadoRolYPassword(f, password, confirmar, esCorreo);
    assert RolValido(f.rol) && confirmar == password;
    RegistroSinRechazoPrevio(usuarios, f, password, archivo, token, envioOk, nuevoId);
  }
}
