/**
 * The document schemas of the store (the files under models/): one datatype per collection,
 * the enumerations, the defaults and the validity predicates that the object-document
 * mapper checks before a document is saved.
 */
module Modelos {
  import opened Wrappers
  import opened Texto

  /** A document identifier (an ObjectId, abstracted). */
  type Id = nat

  // ---------------------------------------------------------------- enumerations

  /** `rol`: the four account kinds. */
  datatype Rol = Cliente | Delivery | Comercio | Administrador

  function NombreRol(r: Rol): string {
    match r
    case Cliente => "cliente"
    case Delivery => "delivery"
    case Comercio => "comercio"
    case Administrador => "administrador"
  }

  /** Reads a role name back; the schema enum admits exactly the four names. */
  function LeerRol(s: string): (r: Option<Rol>)
    ensures r.Some? <==> s in {"cliente", "delivery", "comercio", "administrador"}
    ensures r.Some? ==> NombreRol(r.value) == s
  {
    if s == "cliente" then Some(Cliente)
    else if s == "delivery" then Some(Delivery)
    else if s == "comercio" then Some(Comercio)
    else if s == "administrador" then Some(Administrador)
    else None
  }

  lemma LeerNombreRol(r: Rol)
    ensures LeerRol(NombreRol(r)) == Some(r)
  {
  }

  /** `estadoDisponibilidad` of a courier. */
  datatype Disponibilidad = Disponible | Ocupado

  /** `estado` of an order: 'pendiente', 'en proceso', 'completado'. */
  datatype EstadoPedido = Pendiente | EnProceso | Completado

  // ---------------------------------------------------------------- passwords

  /**
   * A stored password. `Hash` stands for bcrypt: it is treated as injective (no
   * collisions) and salts are ignored, so comparing a candidate means hashing it and
   * testing equality.
   */
  datatype Secreto = Plano(texto: string) | Hash(de: Secreto)

  /** `compararPassword`: bcrypt.compare of a candidate against the stored value. */
  predicate CompararPassword(guardado: Secreto, candidato: string) {
    guardado == Hash(Plano(candidato))
  }

  // ---------------------------------------------------------------- required text

  /**
   * A `required: true, trim: true` string field as the mapper sets and validates it: the
   * trimmed value, or nothing when the field is missing or only whitespace.
   */
  function Requerido(campo: Option<string>): (r: Option<string>)
    ensures r.Some? <==> campo.Some? && exists i :: 0 <= i < |campo.value| && !EsEspacio(campo.value[i])
    ensures r.Some? ==> r.value == Recortar(campo.value) && r.value != []
  {
    match campo
    case None => None
    case Some(v) =>
      RecortarVacio(v);
      if Recortar(v) != [] then Some(Recortar(v)) else None
  }

  /** A stored required field passes its own setter and validator unchanged on a re-save. */
  lemma RequeridoEstable(campo: Option<string>)
    requires Requerido(campo).Some?
    ensures Requerido(Requerido(campo)) == Requerido(campo)
  {
    RecortarIdempotente(campo.value);
  }

  /**
   * A `trim: true` text field of an update document: the sent value through its setter, or
   * the stored value when the field was not sent.
   */
  function Recortado(enviado: Option<string>, previo: Option<string>): Option<string> {
    if enviado.Some? then Some(Recortar(enviado.value)) else previo
  }

  // ---------------------------------------------------------------- Usuario

  datatype Usuario = Usuario(
    correo: string,
    password: Secreto,
    rol: Rol,
    activo: bool,
    tokenActivacion: Option<string>,
    tokenResetPassword: Option<string>,
    tokenExpiracion: Option<int>,
    requiereCambioPassword: bool,
    nombre: Option<string>,
    apellido: Option<string>,
    telefono: Option<string>,
    fotoPerfil: Option<string>,
    nombreUsuario: Option<string>,
    nombreComercio: Option<string>,
    logoComercio: Option<string>,
    horaApertura: Option<string>,
    horaCierre: Option<string>,
    tipoComercio: Option<Id>,
    estadoDisponibilidad: Disponibilidad,
    cedula: Option<string>)

  /** A new account document: every field the caller does not give takes its schema default. */
  function NuevoUsuario(correo: string, password: string, rol: Rol): (u: Usuario)
    ensures !u.activo && u.estadoDisponibilidad == Disponible && !u.requiereCambioPassword
    ensures u.tokenActivacion == None && u.tokenResetPassword == None && u.tokenExpiracion == None
    ensures u.fotoPerfil == None && u.logoComercio == None
    ensures u.password == Plano(password) && u.rol == rol
  {
    Usuario(correo, Plano(password), rol, false, None, None, None, false,
            None, None, None, None, None, None, None, None, None, None, Disponible, None)
  }

  /** `r` is the lower-cased infix of `s` at position `i`, with only whitespace around it in `s`. */
  predicate MinusculasEn(s: string, r: string, i: int) {
    && 0 <= i <= |s| - |r|
    && (forall k :: 0 <= k < |r| ==> r[k] == Minuscula(s[i + k]))
    && (forall k :: 0 <= k < i ==> EsEspacio(s[k]))
    && (forall k :: i + |r| <= k < |s| ==> EsEspacio(s[k]))
  }

  /**
   * The `lowercase` and `trim` setters of `correo`: the address without the whitespace at
   * its ends, each capital lowered.
   */
  function NormalizarCorreo(correo: string): (r: string)
    ensures exists i :: MinusculasEn(correo, r, i)
    ensures r == [] || (!EsEspacio(r[0]) && !EsEspacio(r[|r| - 1]))
    ensures forall i :: 0 <= i < |r| ==> !('A' <= r[i] <= 'Z')
  {
    MinusculasDelRecorte(correo);
    Minusculas(Recortar(correo))
  }

  /** The lowered trim is the lowered infix of the address with only whitespace around it. */
  lemma MinusculasDelRecorte(correo: string)
    ensures exists i :: MinusculasEn(correo, Minusculas(Recortar(correo)), i)
  {
    var t := Recortar(correo);
    RecortarInfijo(correo);
    var i :| RecorteEn(correo, t, i);
    assert MinusculasEn(correo, Minusculas(t), i);
  }

  /**
   * The `pre('save')` hook: the password is hashed when it was modified since the last
   * save, and left as stored otherwise.
   */
  function AntesDeGuardar(u: Usuario, passwordModificado: bool): (r: Usuario)
    ensures passwordModificado ==> r.password == Hash(u.password)
    ensures !passwordModificado ==> r.password == u.password
    ensures r.(password := u.password) == u
  {
    if passwordModificado then u.(password := Hash(u.password)) else u
  }

  /** A freshly assigned plain password, once saved, is the one `compararPassword` accepts. */
  lemma GuardarPasswordNuevo(u: Usuario, nuevo: string)
    ensures CompararPassword(AntesDeGuardar(u.(password := Plano(nuevo)), true).password, nuevo)
    ensures forall otro :: otro != nuevo ==>
              !CompararPassword(AntesDeGuardar(u.(password := Plano(nuevo)), true).password, otro)
  {
  }

  /** A saved document whose password was not touched keeps accepting the same passwords. */
  lemma GuardarSinPasswordConserva(u: Usuario, candidato: string)
    ensures CompararPassword(AntesDeGuardar(u, false).password, candidato)
        == CompararPassword(u.password, candidato)
  {
  }

  /**
   * The schema's own checks on a `Usuario` document: the required `correo` is not blank
   * after its setters, and the required `password` is not the empty text (validation runs
   * before the save hook hashes it, and the field has no `trim`).
   */
  predicate UsuarioValido(u: Usuario) {
    Recortar(u.correo) != [] && u.password != Plano("")
  }

  /** The unique indexes on `correo` and (sparse) `nombreUsuario`. */
  ghost predicate UsuariosUnicos(usuarios: map<Id, Usuario>) {
    forall a, b :: a in usuarios && b in usuarios && a != b ==>
      usuarios[a].correo != usuarios[b].correo &&
      (usuarios[a].nombreUsuario.Some? ==> usuarios[a].nombreUsuario != usuarios[b].nombreUsuario)
  }

  // toJSON ----------------------------------------------------------------

  /** The field names of a serialised `Usuario`. */
  datatype Campo =
    | CCorreo | CPassword | CRol | CActivo | CTokenActivacion | CTokenResetPassword
    | CTokenExpiracion | CTokenRecuperacion | CRequiereCambioPassword | CNombre | CApellido
    | CTelefono | CFotoPerfil | CNombreUsuario | CNombreComercio | CLogoComercio
    | CHoraApertura | CHoraCierre | CTipoComercio | CEstadoDisponibilidad | CCedula

  datatype Valor = VTexto(t: string) | VBool(b: bool) | VNumero(n: int) | VId(id: Id) | VNulo | VSecreto(s: Secreto)

  const TodosLosCampos: set<Campo> :=
    {CCorreo, CPassword, CRol, CActivo, CTokenActivacion, CTokenResetPassword,
     CTokenExpiracion, CTokenRecuperacion, CRequiereCambioPassword, CNombre, CApellido,
     CTelefono, CFotoPerfil, CNombreUsuario, CNombreComercio, CLogoComercio,
     CHoraApertura, CHoraCierre, CTipoComercio, CEstadoDisponibilidad, CCedula}

  /** The fields `toJSON()` deletes. */
  const CamposOcultos: set<Campo> := {CPassword, CTokenActivacion, CTokenRecuperacion, CTokenExpiracion}

  function OpcionalTexto(o: Option<string>): Valor {
    if o.Some? then VTexto(o.value) else VNulo
  }

  /**
   * Whether `toObject()` holds the field: fields with a schema default (or required) are
   * always present, possibly null; the other optional fields only when set;
   * `tokenRecuperacion` is not a schema field at all.
   */
  predicate Presente(u: Usuario, c: Campo) {
    match c
    case CNombre => u.nombre.Some?
    case CApellido => u.apellido.Some?
    case CTelefono => u.telefono.Some?
    case CNombreUsuario => u.nombreUsuario.Some?
    case CNombreComercio => u.nombreComercio.Some?
    case CHoraApertura => u.horaApertura.Some?
    case CHoraCierre => u.horaCierre.Some?
    case CTipoComercio => u.tipoComercio.Some?
    case CCedula => u.cedula.Some?
    case CTokenRecuperacion => false
    case _ => true
  }

  function ValorDe(u: Usuario, c: Campo): Valor {
    match c
    case CCorreo => VTexto(u.correo)
    case CPassword => VSecreto(u.password)
    case CRol => VTexto(NombreRol(u.rol))
    case CActivo => VBool(u.activo)
    case CTokenActivacion => OpcionalTexto(u.tokenActivacion)
    case CTokenResetPassword => OpcionalTexto(u.tokenResetPassword)
    case CTokenExpiracion => if u.tokenExpiracion.Some? then VNumero(u.tokenExpiracion.value) else VNulo
    case CTokenRecuperacion => VNulo
    case CRequiereCambioPassword => VBool(u.requiereCambioPassword)
    case CNombre => OpcionalTexto(u.nombre)
    case CApellido => OpcionalTexto(u.apellido)
    case CTelefono => OpcionalTexto(u.telefono)
    case CFotoPerfil => OpcionalTexto(u.fotoPerfil)
    case CNombreUsuario => OpcionalTexto(u.nombreUsuario)
    case CNombreComercio => OpcionalTexto(u.nombreComercio)
    case CLogoComercio => OpcionalTexto(u.logoComercio)
    case CHoraApertura => OpcionalTexto(u.horaApertura)
    case CHoraCierre => OpcionalTexto(u.horaCierre)
    case CTipoComercio => if u.tipoComercio.Some? then VId(u.tipoComercio.value) else VNulo
    case CEstadoDisponibilidad => VTexto(if u.estadoDisponibilidad == Disponible then "disponible" else "ocupado")
    case CCedula => OpcionalTexto(u.cedula)
  }

  /** `toObject()`: the present fields with their values. */
  function AObjeto(u: Usuario): map<Campo, Valor> {
    map c | c in TodosLosCampos && Presente(u, c) :: ValorDe(u, c)
  }

  /**
   * `toJSON()`: the object with `password`, `tokenActivacion`, `tokenRecuperacion` and
   * `tokenExpiracion` deleted. `tokenRecuperacion` is not a schema field, so the reset
   * token `tokenResetPassword` is still serialised.
   */
  function AJson(u: Usuario): (r: map<Campo, Valor>)
    ensures CPassword !in r && CTokenActivacion !in r && CTokenExpiracion !in r
    ensures CTokenResetPassword in r && r[CTokenResetPassword] == OpcionalTexto(u.tokenResetPassword)
    ensures CCorreo in r && CRol in r && CActivo in r
    ensures forall c :: c in r ==> c in AObjeto(u) && r[c] == AObjeto(u)[c]
    ensures forall c :: c in AObjeto(u) && c !in CamposOcultos ==> c in r
  {
    AObjeto(u) - CamposOcultos
  }

  // ---------------------------------------------------------------- Producto

  datatype Producto = Producto(
    nombre: string,
    descripcion: string,
    precio: Option<real>,
    imagen: Option<string>,
    categoria: Option<Id>,
    comercio: Option<Id>)

  /**
   * The price as the handlers' arithmetic reads it: a null price (what an update with an
   * empty price text stores) counts as 0 in `*` and `+`.
   */
  function PrecioNumerico(p: Producto): (r: real)
    ensures p.precio.Some? ==> r == p.precio.value
    ensures p.precio.None? ==> r == 0.0
  {
    p.precio.GetOr(0.0)
  }

  /** The `trim` setters of `nombre` and `descripcion`. */
  function NormalizarProducto(p: Producto): Producto {
    p.(nombre := Recortar(p.nombre), descripcion := Recortar(p.descripcion))
  }

  /** The checks of models/Producto.js: required non-empty text, `precio >= 0`, required image and references. */
  predicate ProductoValido(p: Producto) {
    && p.nombre != [] && p.descripcion != []
    && p.precio.Some? && p.precio.value >= 0.0
    && p.imagen.Some?
    && p.categoria.Some? && p.comercio.Some?
  }

  /** A stored product is normalised and valid. */
  predicate ProductoGuardable(p: Producto) {
    ProductoValido(NormalizarProducto(p))
  }

  // ---------------------------------------------------------------- Pedido

  /** One unit of a purchased product with the name, price and image copied at order time. */
  datatype LineaPedido = LineaPedido(producto: Id, nombre: Option<string>, precio: Option<real>, foto: Option<string>)

  datatype Pedido = Pedido(
    cliente: Id,
    comercio: Option<Id>,
    delivery: Option<Id>,
    direccion: Option<Id>,
    productos: seq<LineaPedido>,
    subtotal: real,
    itbis: Option<real>,
    total: real,
    estado: EstadoPedido,
    fechaPedido: int)

  /** The checks of models/Pedido.js: required references and non-negative required amounts. */
  predicate PedidoValido(p: Pedido) {
    && p.comercio.Some? && p.direccion.Some?
    && p.subtotal >= 0.0
    && p.itbis.Some? && p.itbis.value >= 0.0
    && p.total >= 0.0
  }

  // ---------------------------------------------------------------- the other collections

  datatype Configuracion = Configuracion(itbis: real)

  /** `itbis` is required and lies in [0, 100]. */
  predicate ConfiguracionValida(c: Configuracion) {
    0.0 <= c.itbis <= 100.0
  }

  /** The default tax rate, in percent. */
  const ItbisPorDefecto: real := 18.0

  datatype Categoria = Categoria(nombre: string, descripcion: string, comercio: Id)

  /** The unique compound index on (nombre, comercio): no merchant has two categories of the same name. */
  ghost predicate CategoriasUnicas(categorias: map<Id, Categoria>) {
    forall a, b :: a in categorias && b in categorias && a != b ==>
      categorias[a].nombre != categorias[b].nombre || categorias[a].comercio != categorias[b].comercio
  }

  datatype Direccion = Direccion(nombre: string, descripcion: string, cliente: Id)

  datatype Favorito = Favorito(cliente: Id, comercio: Id)

  /** The unique compound index on (cliente, comercio). */
  ghost predicate FavoritosUnicos(favoritos: map<Id, Favorito>) {
    forall a, b :: a in favoritos && b in favoritos && a != b ==> favoritos[a] != favoritos[b]
  }

  datatype TipoComercio = TipoComercio(nombre: string, descripcion: string, icono: Option<string>)

  /** The unique index on the business type's `nombre`. */
  ghost predicate TiposUnicos(tipos: map<Id, TipoComercio>) {
    forall a, b :: a in tipos && b in tipos && a != b ==> tipos[a].nombre != tipos[b].nombre
  }
}
