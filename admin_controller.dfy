/**
 * controllers/adminController.js: switching accounts on and off, the administrator
 * accounts (create, edit, the self-protection guards) and the forced password change.
 */
module AdminController {
  import opened Wrappers
  import opened Modelos
  import opened Texto
  import opened Http
  import Db
  import Usuarios
  import AuthController

  // ------------------------------------------------------------ toggles

  /**
   * The user table after `{activo: !usuario.activo}` is applied to account `id`; a missing
   * account makes the handler throw before the update, so nothing changes. The account's
   * role is not checked.
   */
  function Alternado(usuarios: map<Id, Usuario>, id: Id): (r: map<Id, Usuario>)
    ensures r.Keys == usuarios.Keys
    ensures id in usuarios ==> r[id] == usuarios[id].(activo := !usuarios[id].activo)
    ensures forall q :: q in usuarios && q != id ==> r[q] == usuarios[q]
  {
    if id in usuarios then usuarios[id := usuarios[id].(activo := !usuarios[id].activo)] else usuarios
  }

  /** Toggling twice restores the table. */
  lemma AlternarDosVeces(usuarios: map<Id, Usuario>, id: Id)
    ensures Alternado(Alternado(usuarios, id), id) == usuarios
  {
    if id in usuarios {
      assert Alternado(Alternado(usuarios, id), id)[id] == usuarios[id];
    }
  }

  method Alternar(db: Db.Base, id: Id)
    modifies db`usuarios
    ensures db.usuarios == Alternado(old(db.usuarios), id)
  {
    db.usuarios := Alternado(db.usuarios, id);
  }

  /** `toggleActivoCliente` */
  method ToggleActivoCliente(db: Db.Base, clienteId: Id) returns (respuesta: Respuesta)
    modifies db`usuarios
    ensures db.usuarios == Alternado(old(db.usuarios), clienteId)
    ensures respuesta == Redirigir("/admin/clientes")
  {
    Alternar(db, clienteId);
    respuesta := Redirigir("/admin/clientes");
  }

  /** `toggleActivoDelivery` */
  method ToggleActivoDelivery(db: Db.Base, deliveryId: Id) returns (respuesta: Respuesta)
    modifies db`usuarios
    ensures db.usuarios == Alternado(old(db.usuarios), deliveryId)
    ensures respuesta == Redirigir("/admin/deliveries")
  {
    Alternar(db, deliveryId);
    respuesta := Redirigir("/admin/deliveries");
  }

  /** `toggleActivoComercio` */
  method ToggleActivoComercio(db: Db.Base, comercioId: Id) returns (respuesta: Respuesta)
    modifies db`usuarios
    ensures db.usuarios == Alternado(old(db.usuarios), comercioId)
    ensures respuesta == Redirigir("/admin/comercios")
  {
    Alternar(db, comercioId);
    respuesta := Redirigir("/admin/comercios");
  }

  /**
   * `toggleActivoAdministrador`: the session administrator cannot switch their own account
   * off; any other account is toggled. Without a session user the guard throws and nothing
   * changes.
   */
  method ToggleActivoAdministrador(db: Db.Base, sesion: Sesion, adminId: Id) returns (respuesta: Respuesta)
    modifies db`usuarios
    ensures respuesta == Redirigir("/admin/administradores")
    ensures sesion.user.None? || sesion.user.value.id == adminId ==> db.usuarios == old(db.usuarios)
    ensures sesion.user.Some? && sesion.user.value.id != adminId ==> db.usuarios == Alternado(old(db.usuarios), adminId)
  {
    if sesion.user.Some? && sesion.user.value.id != adminId {
      Alternar(db, adminId);
    }
    respuesta := Redirigir("/admin/administradores");
  }

  /** `mostrarEditarAdministrador`: the session administrator's own id is refused. */
  function MostrarEditarAdministrador(sesion: Sesion, adminId: Id): (r: Respuesta)
    ensures r == Vista("admin/administradores/editar") <==> sesion.user.Some? && sesion.user.value.id != adminId
    ensures r != Vista("admin/administradores/editar") ==> r == Redirigir("/admin/administradores")
  {
    if sesion.user.Some? && sesion.user.value.id != adminId then Vista("admin/administradores/editar")
    else Redirigir("/admin/administradores")
  }

  // ------------------------------------------------------------ administrator accounts

  datatype FormAdmin = FormAdmin(nombre: string, apellido: string, cedula: string, correo: string, nombreUsuario: string)

  /** The document `crearAdministrador` builds: an active administrator (before the save hook). */
  function NuevoAdmin(f: FormAdmin, password: string): (u: Usuario)
    ensures u.rol == Administrador && u.activo && u.password == Plano(password)
  {
    NuevoUsuario(NormalizarCorreo(f.correo), password, Administrador).(
      activo := true, nombre := Some(Recortar(f.nombre)), apellido := Some(Recortar(f.apellido)),
      cedula := Some(Recortar(f.cedula)), nombreUsuario := Some(Recortar(f.nombreUsuario)))
  }

  /**
   * `crearAdministrador`: a password mismatch or a user name or address already taken
   * return to the form with nothing stored; so does a document the save refuses (a blank
   * address, an empty password: the route has no validator); otherwise an active
   * administrator with the hashed password is stored.
   */
  method CrearAdministrador(db: Db.Base, f: FormAdmin, password: string, confirmar: string, nuevoId: Id)
    returns (respuesta: Respuesta)
    requires nuevoId !in db.usuarios
    modifies db`usuarios
    ensures password != confirmar || AuthController.Existe(old(db.usuarios), Some(f.nombreUsuario), f.correo) ==>
              db.usuarios == old(db.usuarios) && respuesta == Redirigir("/admin/administradores/crear")
    ensures password == "" ==> db.usuarios == old(db.usuarios) && respuesta == Redirigir("/admin/administradores/crear")
    ensures respuesta == Redirigir("/admin/administradores") <==>
              && password == confirmar
              && !AuthController.Existe(old(db.usuarios), Some(f.nombreUsuario), f.correo)
              && UsuarioValido(NuevoAdmin(f, password))
              && !Usuarios.ChocaIndice(old(db.usuarios), nuevoId, NuevoAdmin(f, password))
    ensures respuesta != Redirigir("/admin/administradores") ==>
              db.usuarios == old(db.usuarios) && respuesta == Redirigir("/admin/administradores/crear")
    ensures respuesta == Redirigir("/admin/administradores") ==>
              db.usuarios == old(db.usuarios)[nuevoId := AntesDeGuardar(NuevoAdmin(f, password), true)]
  {
    if password != confirmar || AuthController.Existe(db.usuarios, Some(f.nombreUsuario), f.correo) {
      return Redirigir("/admin/administradores/crear");
    }
    var guardado := Usuarios.GuardarNuevo(db, nuevoId, NuevoAdmin(f, password));
    respuesta := Redirigir(if guardado then "/admin/administradores" else "/admin/administradores/crear");
  }

  /** A stored new administrator can log in at once with the password it was created with. */
  lemma AdminCreadoEntra(f: FormAdmin, password: string)
    ensures AuthController.Acepta(AntesDeGuardar(NuevoAdmin(f, password), true), password)
  {
  }

  /** `password && password.trim() !== ''` */
  predicate NoVacio(password: Option<string>) {
    password.Some? && Recortar(password.value) != []
  }

  /** The form fields of `editarAdministrador`; an absent field is left as stored. */
  datatype Edicion = Edicion(
    nombre: Option<string>, apellido: Option<string>, cedula: Option<string>,
    correo: Option<string>, nombreUsuario: Option<string>)

  /**
   * The account after `findByIdAndUpdate(adminId, updateData)`: the sent fields through
   * their setters, and the password hashed by the handler when one was given (the update
   * bypasses the save hook).
   */
  function Editado(u: Usuario, e: Edicion, password: Option<string>): (r: Usuario)
    ensures NoVacio(password) ==> r.password == Hash(Plano(password.value))
    ensures !NoVacio(password) ==> r.password == u.password
    ensures e.nombre.Some? ==> r.nombre == Some(Recortar(e.nombre.value))
    ensures e.apellido.Some? ==> r.apellido == Some(Recortar(e.apellido.value))
    ensures e.cedula.Some? ==> r.cedula == Some(Recortar(e.cedula.value))
    ensures e.nombreUsuario.Some? ==> r.nombreUsuario == Some(Recortar(e.nombreUsuario.value))
    ensures e.correo.Some? ==> r.correo == NormalizarCorreo(e.correo.value)
    ensures && (e.nombre.None? ==> r.nombre == u.nombre) && (e.apellido.None? ==> r.apellido == u.apellido)
            && (e.cedula.None? ==> r.cedula == u.cedula) && (e.correo.None? ==> r.correo == u.correo)
            && (e.nombreUsuario.None? ==> r.nombreUsuario == u.nombreUsuario)
    ensures r.(nombre := u.nombre, apellido := u.apellido, cedula := u.cedula, correo := u.correo,
               nombreUsuario := u.nombreUsuario, password := u.password) == u
  {
    u.(nombre := Recortado(e.nombre, u.nombre),
       apellido := Recortado(e.apellido, u.apellido),
       cedula := Recortado(e.cedula, u.cedula),
       correo := if e.correo.Some? then NormalizarCorreo(e.correo.value) else u.correo,
       nombreUsuario := Recortado(e.nombreUsuario, u.nombreUsuario),
       password := if NoVacio(password) then Hash(Plano(password.value)) else u.password)
  }

  /**
   * `editarAdministrador`. A non-blank password that differs from its confirmation returns
   * to the edit form with nothing changed. Otherwise the account (whatever its role, and
   * even the session administrator's own) is updated, unless the update would give it an
   * address or user name another account has; a missing id changes nothing.
   */
  method EditarAdministrador(db: Db.Base, adminId: Id, e: Edicion, password: Option<string>, confirmar: Option<string>)
    returns (respuesta: Respuesta)
    modifies db`usuarios
    ensures NoVacio(password) && password != confirmar ==>
              db.usuarios == old(db.usuarios) && respuesta == RedirigirA("/admin/administradores/editar/", adminId)
    ensures !(NoVacio(password) && password != confirmar) ==>
              && respuesta == Redirigir("/admin/administradores")
              && db.usuarios == (if adminId in old(db.usuarios) &&
                                    !Usuarios.ChocaIndice(old(db.usuarios), adminId, Editado(old(db.usuarios)[adminId], e, password))
                                 then old(db.usuarios)[adminId := Editado(old(db.usuarios)[adminId], e, password)]
                                 else old(db.usuarios))
  {
    if NoVacio(password) && password != confirmar {
      return RedirigirA("/admin/administradores/editar/", adminId);
    }
    if adminId in db.usuarios {
      var nuevo := Editado(db.usuarios[adminId], e, password);
      if !Usuarios.ChocaIndice(db.usuarios, adminId, nuevo) {
        db.usuarios := db.usuarios[adminId := nuevo];
      }
    }
    respuesta := Redirigir("/admin/administradores");
  }

  /** A blank password field never changes the stored password (and its confirmation is not compared). */
  lemma EdicionSinPassword(u: Usuario, e: Edicion)
    ensures Editado(u, e, Some("   ")).password == u.password
  {
    assert Recortar("   ") == [] by {
      assert QuitarFinal("   ") == [];
    }
  }

  // ------------------------------------------------------------ cambiarPassword

  /** The minimum length of a new password. */
  const LongitudMinima := 6

  /** The outcome of a password change: the response, the session and the stored account. */
  datatype Cambio = Cambio(respuesta: Respuesta, sesion: Sesion, cuenta: Option<Usuario>)

  /**
   * `cambiarPassword` for the account stored under the session id. A mismatch, a new
   * password shorter than 6, a missing account or a wrong current password return to the
   * form with nothing changed, and so does a stored empty address, which fails `required`
   * when the account is saved; success stores the new password (hashed on save), clears
   * the forced-change flag in the account and in the session, and goes to the dashboard.
   */
  function CambiarPasswordDe(sesion: Sesion, cuenta: Option<Usuario>, actual: string, nuevo: string, confirmar: string): (r: Cambio)
    requires sesion.user.Some?
    ensures r.cuenta.Some? <==>
              && nuevo == confirmar && |nuevo| >= LongitudMinima && cuenta.Some?
              && CompararPassword(cuenta.value.password, actual) && cuenta.value.correo != []
    ensures r.cuenta.None? ==> r == Cambio(Redirigir("/admin/cambiar-password"), sesion, None)
    ensures r.cuenta.Some? ==>
              && CompararPassword(r.cuenta.value.password, nuevo)
              && !r.cuenta.value.requiereCambioPassword
              && r.sesion == sesion.(user := Some(sesion.user.value.(requiereCambioPassword := false)))
              && r.respuesta == Redirigir("/admin/dashboard")
    ensures r.cuenta.Some? ==>
              r.cuenta.value == AntesDeGuardar(cuenta.value.(password := Plano(nuevo), requiereCambioPassword := false), true)
  {
    if || nuevo != confirmar || |nuevo| < LongitudMinima || cuenta.None?
       || !CompararPassword(cuenta.value.password, actual) || cuenta.value.correo == []
    then
      Cambio(Redirigir("/admin/cambiar-password"), sesion, None)
    else
      var u := AntesDeGuardar(cuenta.value.(password := Plano(nuevo), requiereCambioPassword := false), true);
      Cambio(Redirigir("/admin/dashboard"), sesion.(user := Some(sesion.user.value.(requiereCambioPassword := false))), Some(u))
  }

  /**
   * `cambiarPassword` against the store. Without a session user the handler throws before
   * any check and nothing changes.
   */
  method CambiarPassword(db: Db.Base, sesion: Sesion, actual: string, nuevo: string, confirmar: string)
    returns (respuesta: Respuesta, nueva: Sesion)
    modifies db`usuarios
    ensures sesion.user.None? ==>
              db.usuarios == old(db.usuarios) && respuesta == Redirigir("/admin/cambiar-password") && nueva == sesion
    ensures sesion.user.Some? ==>
              var id := sesion.user.value.id;
              var r := CambiarPasswordDe(sesion, if id in old(db.usuarios) then Some(old(db.usuarios)[id]) else None,
                                         actual, nuevo, confirmar);
              && respuesta == r.respuesta && nueva == r.sesion
              && db.usuarios == if r.cuenta.Some? then old(db.usuarios)[id := r.cuenta.value] else old(db.usuarios)
  {
    if sesion.user.None? {
      return Redirigir("/admin/cambiar-password"), sesion;
    }
    var id := sesion.user.value.id;
    var r := CambiarPasswordDe(sesion, if id in db.usuarios then Some(db.usuarios[id]) else None, actual, nuevo, confirmar);
    if r.cuenta.Some? {
      var _ := Usuarios.GuardarExistente(db, id, db.usuarios[id].(password := Plano(nuevo), requiereCambioPassword := false), true);
    }
    respuesta, nueva := r.respuesta, r.sesion;
  }
}
