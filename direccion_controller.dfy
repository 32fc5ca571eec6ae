/**
 * controllers/direccionController.js: a client's delivery addresses. Every lookup, update and
 * delete is filtered by the session client, and creating an address during checkout sends
 * the client back to the cart.
 */
module DireccionController {
  import opened Wrappers
  import opened Modelos
  import opened Http
  import opened Texto
  import Db
  import Propios

  /** The owner of an address. */
  function DeCliente(d: Direccion): Option<Id> {
    Some(d.cliente)
  }

  /** `listar`: the session client's addresses. */
  function Listar(direcciones: map<Id, Direccion>, usuario: Option<UsuarioSesion>): (r: Propios.Pagina)
    ensures usuario.None? ==> r.respuesta == Redirigir("/cliente/home") && r.filas == {}
    ensures usuario.Some? ==>
              && r.respuesta == Vista("cliente/direcciones/index")
              && forall q :: q in r.filas <==> q in direcciones && direcciones[q].cliente == usuario.value.id
  {
    Propios.Listar(direcciones, DeCliente, usuario, "cliente/direcciones/index", "/cliente/home")
  }

  /** `mostrarCrear`: whether the form is reached from checkout, that is, whether a cart is parked in the session. */
  function DesdeCarrito(sesion: Sesion): bool {
    sesion.carritoTemporal.Some?
  }

  /**
   * The address `crear` builds for client `cliente`: both text fields are required and
   * trimmed, so a missing or blank one makes the save fail.
   */
  function NuevaDireccion(nombre: Option<string>, descripcion: Option<string>, cliente: Id): (r: Option<Direccion>)
    ensures r.Some? <==> Requerido(nombre).Some? && Requerido(descripcion).Some?
    ensures r.Some? ==>
              && r.value.cliente == cliente
              && r.value.nombre == Requerido(nombre).value && r.value.descripcion == Requerido(descripcion).value
              && r.value.nombre != [] && r.value.descripcion != []
  {
    if Requerido(nombre).Some? && Requerido(descripcion).Some? then
      Some(Direccion(Requerido(nombre).value, Requerido(descripcion).value, cliente))
    else None
  }

  /** Where `crear` goes after a save: back to checkout when a cart is parked, else to the list. */
  function TrasCrear(sesion: Sesion): (r: Respuesta)
    ensures r == Redirigir("/cliente/restaurar-carrito") <==> DesdeCarrito(sesion)
    ensures !DesdeCarrito(sesion) ==> r == Redirigir("/cliente/direcciones")
  {
    if sesion.carritoTemporal.Some? then Redirigir("/cliente/restaurar-carrito") else Redirigir("/cliente/direcciones")
  }

  /**
   * `crear`: the address is stored with the session client as its owner. A failed save, or
   * a missing session user, goes back to the form and stores nothing.
   */
  method Crear(db: Db.Base, sesion: Sesion, nombre: Option<string>, descripcion: Option<string>, nuevoId: Id)
    returns (respuesta: Respuesta)
    requires nuevoId !in db.direcciones
    modifies db`direcciones
    ensures sesion.user.None? ==>
              db.direcciones == old(db.direcciones) && respuesta == Redirigir("/cliente/direcciones/crear")
    ensures sesion.user.Some? ==>
              var d := NuevaDireccion(nombre, descripcion, sesion.user.value.id);
              && (d.None? ==> db.direcciones == old(db.direcciones) && respuesta == Redirigir("/cliente/direcciones/crear"))
              && (d.Some? ==> db.direcciones == old(db.direcciones)[nuevoId := d.value] && respuesta == TrasCrear(sesion))
  {
    if sesion.user.None? {
      return Redirigir("/cliente/direcciones/crear");
    }
    var d := NuevaDireccion(nombre, descripcion, sesion.user.value.id);
    if d.None? {
      return Redirigir("/cliente/direcciones/crear");
    }
    db.direcciones := db.direcciones[nuevoId := d.value];
    respuesta := TrasCrear(sesion);
  }

  /**
   * A client who reaches the form from checkout and saves a valid address is sent back to
   * checkout, and the new address is theirs and on their list.
   */
  lemma CrearDesdeCarrito(direcciones: map<Id, Direccion>, sesion: Sesion,
                          nombre: Option<string>, descripcion: Option<string>, nuevoId: Id)
    requires sesion.user.Some? && DesdeCarrito(sesion)
    requires NuevaDireccion(nombre, descripcion, sesion.user.value.id).Some?
    ensures TrasCrear(sesion) == Redirigir("/cliente/restaurar-carrito")
    ensures nuevoId in Listar(direcciones[nuevoId := NuevaDireccion(nombre, descripcion, sesion.user.value.id).value],
                              sesion.user).filas
  {
  }

  /** `mostrarEditar` and `mostrarEliminar`: the form for one of the session client's addresses. */
  function MostrarFormulario(direcciones: map<Id, Direccion>, usuario: Option<UsuarioSesion>, id: Id, vista: string)
    : (r: Respuesta)
    ensures r == Vista(vista) <==> usuario.Some? && id in direcciones && direcciones[id].cliente == usuario.value.id
    ensures r != Vista(vista) ==> r == Redirigir("/cliente/direcciones")
  {
    Propios.Formulario(direcciones, DeCliente, usuario, id, vista, "/cliente/direcciones")
  }

  /**
   * An address after `editar`'s update document `{nombre, descripcion}`: each field that was
   * sent replaces the stored one, trimmed by its setter. The update runs no validators, so a
   * blank value is stored as sent.
   */
  function Cambiada(d: Direccion, nombre: Option<string>, descripcion: Option<string>): (r: Direccion)
    ensures r.cliente == d.cliente
    ensures r.nombre == (if nombre.Some? then Recortar(nombre.value) else d.nombre)
    ensures r.descripcion == (if descripcion.Some? then Recortar(descripcion.value) else d.descripcion)
  {
    d.(nombre := if nombre.Some? then Recortar(nombre.value) else d.nombre,
       descripcion := if descripcion.Some? then Recortar(descripcion.value) else d.descripcion)
  }

  /**
   * The table after `editar`'s `findOneAndUpdate({_id, cliente}, ...)`: only an address of
   * `cliente` changes.
   */
  function Editadas(direcciones: map<Id, Direccion>, id: Id, cliente: Id,
                    nombre: Option<string>, descripcion: Option<string>): (r: map<Id, Direccion>)
    ensures Propios.SoloFila(direcciones, r, DeCliente, id, cliente)
    ensures Propios.EsDe(direcciones, DeCliente, id, cliente) ==> r[id] == Cambiada(direcciones[id], nombre, descripcion)
  {
    if Propios.EsDe(direcciones, DeCliente, id, cliente) then
      direcciones[id := Cambiada(direcciones[id], nombre, descripcion)]
    else direcciones
  }

  /** `editar`: the update of an own address; without a session user the handler goes back to the form. */
  method Editar(db: Db.Base, sesion: Sesion, id: Id, nombre: Option<string>, descripcion: Option<string>)
    returns (respuesta: Respuesta)
    modifies db`direcciones
    ensures sesion.user.None? ==>
              db.direcciones == old(db.direcciones) && respuesta == RedirigirA("/cliente/direcciones/editar/", id)
    ensures sesion.user.Some? ==>
              && db.direcciones == Editadas(old(db.direcciones), id, sesion.user.value.id, nombre, descripcion)
              && respuesta == Redirigir("/cliente/direcciones")
  {
    if sesion.user.None? {
      return RedirigirA("/cliente/direcciones/editar/", id);
    }
    db.direcciones := Editadas(db.direcciones, id, sesion.user.value.id, nombre, descripcion);
    respuesta := Redirigir("/cliente/direcciones");
  }

  /** `eliminar`: the delete of an own address. */
  method Eliminar(db: Db.Base, sesion: Sesion, id: Id) returns (respuesta: Respuesta)
    modifies db`direcciones
    ensures respuesta == Redirigir("/cliente/direcciones")
    ensures sesion.user.None? ==> db.direcciones == old(db.direcciones)
    ensures sesion.user.Some? ==> db.direcciones == Propios.Borrado(old(db.direcciones), DeCliente, id, sesion.user.value.id)
  {
    if sesion.user.Some? {
      db.direcciones := Propios.Borrado(db.direcciones, DeCliente, id, sesion.user.value.id);
    }
    respuesta := Redirigir("/cliente/direcciones");
  }

  /** Neither editing nor deleting can reach another client's addresses. */
  lemma OtrosClientesIntactos(direcciones: map<Id, Direccion>, id: Id, cliente: Id, otro: Id,
                              nombre: Option<string>, descripcion: Option<string>)
    requires otro != cliente
    ensures Propios.DeDueno(Editadas(direcciones, id, cliente, nombre, descripcion), DeCliente, otro)
         == Propios.DeDueno(direcciones, DeCliente, otro)
    ensures Propios.DeDueno(Propios.Borrado(direcciones, DeCliente, id, cliente), DeCliente, otro)
         == Propios.DeDueno(direcciones, DeCliente, otro)
    ensures forall q :: q in direcciones && direcciones[q].cliente == otro ==>
              Editadas(direcciones, id, cliente, nombre, descripcion)[q] == direcciones[q]
  {
    Propios.ActualizarAislado(direcciones, Editadas(direcciones, id, cliente, nombre, descripcion), DeCliente, id, cliente, otro);
    Propios.BorrarAislado(direcciones, DeCliente, id, cliente, otro);
  }
}
