/**
 * controllers/pedidoController.js: a second order-creation handler, the courier assignment
 * and completion handlers and the per-role order listing.
 */
module PedidoController {
  import opened Wrappers
  import opened Modelos
  import opened Http
  import Db
  import Precios
  import Carrito
  import Pedidos
  import Cliente

  // ------------------------------------------------------------ crear

  /** The handler's outcome and the order document it tried to save, when it got that far. */
  datatype Intento = Intento(respuesta: Respuesta, registro: Option<Pedido>)

  /** `productos.reduce((sum, prod) => sum + prod.precio, 0)`: one price per found product. */
  function SumaUnitarios(rs: seq<Id>, productos: map<Id, Producto>): real
    requires forall x :: x in rs ==> x in productos
  {
    if rs == [] then 0.0
    else SumaUnitarios(rs[..|rs| - 1], productos) + PrecioNumerico(productos[rs[|rs| - 1]])
  }

  /** `productos.map(p => p._id)`: bare product references with nothing copied. */
  function Referencias(rs: seq<Id>): (ls: seq<LineaPedido>)
    ensures |ls| == |rs|
    ensures forall k :: 0 <= k < |rs| ==> ls[k].producto == rs[k] && ls[k].precio.None?
  {
    seq(|rs|, k requires 0 <= k < |rs| => LineaPedido(rs[k], None, None, None))
  }

  /**
   * `crear`. The id list is parsed when it is text; a parse error ends in the `catch`, which
   * sends the client home. A value that is not text is passed on as it is. The `$in` lookup
   * returns each found product once. It wraps a value that is not an array into a
   * one-element list: a missing value and `null`, parsed or raw, then match nothing, and
   * any other such value fails the id cast and ends in the `catch`. A missing address sends
   * the client back to the catalogue. Otherwise the order document is built without `itbis`
   * and without `direccion`, both required by the schema, so its save is always rejected
   * and the client is sent home: this handler never stores an order.
   */
  function Crear(
    cliente: Option<Id>, comercioId: Id, carga: Cliente.Carga, direccionId: Option<Id>,
    productos: map<Id, Producto>, direcciones: map<Id, Direccion>,
    config: Option<Configuracion>, ahora: int): (r: Intento)
    ensures r.respuesta == Redirigir("/cliente/home") || r.respuesta == RedirigirA("/cliente/catalogo/", comercioId)
    ensures r.respuesta == RedirigirA("/cliente/catalogo/", comercioId) <==>
              && (|| carga.CAusente?
                  || (Cliente.Leer(carga).Some? && (Cliente.Leer(carga).value.JLista? || Cliente.Leer(carga).value.JNulo?)))
              && (direccionId.None? || direccionId.value !in direcciones)
    ensures r.registro.Some? && (carga.CAusente? || Cliente.Leer(carga) == Some(JNulo)) ==>
              r.registro.value.productos == [] && r.registro.value.subtotal == 0.0
    ensures r.registro.Some? ==>
              && !PedidoValido(r.registro.value)
              && r.registro.value.itbis.None? && r.registro.value.direccion.None?
              && r.respuesta == Redirigir("/cliente/home")
  {
    var consulta := if carga.CAusente? then Some(JNulo) else Cliente.Leer(carga);
    match consulta
    case None => Intento(Redirigir("/cliente/home"), None)
    case Some(j) =>
      if !(j.JLista? || j.JNulo?) then Intento(Redirigir("/cliente/home"), None)
      else
        var rs := if j.JLista? then Cliente.Resueltos(Cliente.Unicos(j.ids), productos) else [];
        if direccionId.None? || direccionId.value !in direcciones then
          Intento(RedirigirA("/cliente/catalogo/", comercioId), None)
        else if cliente.None? then Intento(Redirigir("/cliente/home"), None)
        else
          var subtotal := SumaUnitarios(rs, productos);
          var registro := Pedido(cliente.value, Some(comercioId), None, None, Referencias(rs),
                                 subtotal, None, Precios.Total(subtotal, Precios.Tasa(config)),
                                 Pendiente, ahora);
          Intento(Redirigir("/cliente/home"), Some(registro))
  }

  /**
   * `crear` against the store: the document it builds goes through the validating save,
   * which rejects it, so the order table is left as it was.
   */
  method CrearPedido(
    db: Db.Base, sesion: Sesion, comercioId: Id, carga: Cliente.Carga, direccionId: Option<Id>,
    nuevoId: Id, ahora: int)
    returns (respuesta: Respuesta)
    modifies db`pedidos
    ensures respuesta == Crear(if sesion.user.Some? then Some(sesion.user.value.id) else None,
                               comercioId, carga, direccionId, old(db.productos), old(db.direcciones),
                               old(db.PrimeraConfiguracion()), ahora).respuesta
    ensures db.pedidos == old(db.pedidos)
  {
    var cliente := if sesion.user.Some? then Some(sesion.user.value.id) else None;
    var intento := Crear(cliente, comercioId, carga, direccionId, db.productos, db.direcciones,
                         db.PrimeraConfiguracion(), ahora);
    respuesta := intento.respuesta;
    if intento.registro.Some? {
      var guardado := db.GuardarPedido(nuevoId, intento.registro.value);
      respuesta := if guardado then Redirigir("/cliente/pedidos") else Redirigir("/cliente/home");
    }
  }

  lemma {:induction false} SumaUnitariosUno(a: Id, productos: map<Id, Producto>)
    requires a in productos
    ensures SumaUnitarios([a], productos) == PrecioNumerico(productos[a])
  {
    assert [a][..0] == [];
  }

  /**
   * Repeated ids are priced once: for the list `[a, a]` the document carries one reference
   * and the subtotal is one unit price, where the client flow charges two units.
   */
  lemma CobraUnaVez(cliente: Id, comercioId: Id, a: Id, direccionId: Id,
                    productos: map<Id, Producto>, direcciones: map<Id, Direccion>,
                    config: Option<Configuracion>, ahora: int)
    requires a in productos && direccionId in direcciones
    ensures var r := Crear(Some(cliente), comercioId, Cliente.CLista([a, a]), Some(direccionId),
                           productos, direcciones, config, ahora);
            && r.registro.Some?
            && |r.registro.value.productos| == 1
            && r.registro.value.subtotal == PrecioNumerico(productos[a])
    ensures Cliente.SumaLineas(Cliente.Lineas([a], productos, [a, a]))
              == Carrito.Importe(PrecioNumerico(productos[a]), 2)
  {
    UnicosDoble(a);
    assert Cliente.Resueltos([a], productos) == [a];
    SumaUnitariosUno(a, productos);
    CobroDobleCliente(a, productos);
  }

  lemma UnicosDoble(a: Id)
    ensures Cliente.Unicos([a, a]) == [a]
  {
    assert [a, a][..1] == [a];
    assert [a][..0] == [];
    assert Cliente.Unicos([a]) == [a];
  }

  /** The client flow counts both copies of `a`. */
  lemma CobroDobleCliente(a: Id, productos: map<Id, Producto>)
    requires a in productos
    ensures Cliente.SumaLineas(Cliente.Lineas([a], productos, [a, a])) == Carrito.Importe(PrecioNumerico(productos[a]), 2)
  {
    assert Cliente.Contar([a, a], a) == 2 by {
      assert [a, a][..1] == [a];
      assert [a][..0] == [];
    }
    var ls := Cliente.Lineas([a], productos, [a, a]);
    assert ls[..0] == [];
    assert ls[0] == Cliente.Linea(a, productos, [a, a]);
  }

  // ------------------------------------------------------------ asignarDelivery and completar

  /**
   * `asignarDelivery`: the merchant goes back to the order page whether or not a courier was
   * found; the store changes as the shared assignment step says.
   */
  method AsignarDelivery(db: Db.Base, pedidoId: Id) returns (respuesta: Respuesta, elegido: Option<Id>)
    modifies db`pedidos, db`usuarios
    ensures respuesta == RedirigirA("/comercio/pedido/", pedidoId)
    ensures elegido.None? <==> Pedidos.Elegibles(old(db.usuarios)) == {}
    ensures elegido.None? ==> db.pedidos == old(db.pedidos) && db.usuarios == old(db.usuarios)
    ensures elegido.Some? ==>
              && elegido.value in Pedidos.Elegibles(old(db.usuarios))
              && db.pedidos == Pedidos.Asignado(old(db.pedidos), pedidoId, elegido.value)
              && db.usuarios == Pedidos.ConDisponibilidad(old(db.usuarios), elegido.value, Ocupado)
  {
    elegido := Pedidos.AsignarDelivery(db, pedidoId);
    respuesta := RedirigirA("/comercio/pedido/", pedidoId);
  }

  /**
   * `completar`: the order is closed first; the session user's account is then made
   * available. Without a session user that second step throws, so the order stays closed,
   * no account changes and the `catch` sends the courier home.
   */
  method Completar(db: Db.Base, sesion: Sesion, pedidoId: Id) returns (respuesta: Respuesta)
    modifies db`pedidos, db`usuarios
    ensures db.pedidos == Pedidos.Cerrado(old(db.pedidos), pedidoId)
    ensures sesion.user.Some? ==>
              && db.usuarios == Pedidos.ConDisponibilidad(old(db.usuarios), sesion.user.value.id, Disponible)
              && respuesta == RedirigirA("/delivery/pedido/", pedidoId)
    ensures sesion.user.None? ==> db.usuarios == old(db.usuarios) && respuesta == Redirigir("/delivery/home")
  {
    if sesion.user.None? {
      Pedidos.CompletarPedido(db, pedidoId);
      return Redirigir("/delivery/home");
    }
    Pedidos.Completar(db, pedidoId, sesion.user.value.id);
    respuesta := RedirigirA("/delivery/pedido/", pedidoId);
  }

  // ------------------------------------------------------------ listarPorRol

  /** The JSON answer: the matching orders, a 403, or a 500 when there is no session user. */
  datatype Listado = Lista(pedidos: set<Id>) | NoAutorizado | ErrorServidor

  /** Whether an order belongs to a user seen in a given role: its client, merchant or courier. */
  predicate Participa(p: Pedido, rol: Rol, id: Id) {
    match rol
    case Cliente => p.cliente == id
    case Comercio => p.comercio == Some(id)
    case Delivery => p.delivery == Some(id)
    case Administrador => false
  }

  /**
   * `listarPorRol`: the three order roles see exactly the orders they take part in; any
   * other role text gets a 403.
   */
  function ListarPorRol(pedidos: map<Id, Pedido>, usuario: Option<UsuarioSesion>): (r: Listado)
    ensures usuario.None? <==> r == ErrorServidor
    ensures usuario.Some? ==>
              (r.Lista? <==> usuario.value.rol in {"cliente", "comercio", "delivery"})
    ensures r.Lista? ==>
              var rol := LeerRol(usuario.value.rol);
              && rol.Some?
              && forall q :: q in r.pedidos <==> q in pedidos && Participa(pedidos[q], rol.value, usuario.value.id)
  {
    match usuario
    case None => ErrorServidor
    case Some(u) =>
      match LeerRol(u.rol)
      case Some(rol) =>
        if rol == Administrador then NoAutorizado
        else Lista(set q | q in pedidos && Participa(pedidos[q], rol, u.id))
      case None => NoAutorizado
  }
}
