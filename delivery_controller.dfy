/**
 * controllers/deliveryController.js: the courier's order list and order page, order
 * completion and the courier profile update.
 */
module DeliveryController {
  import opened Wrappers
  import opened Modelos
  import Texto
  import opened Http
  import Db
  import Pedidos
  import PedidoController
  import ComercioController

  /**
   * `mostrarHome`: the orders whose courier is the session user. Without a session user the
   * lookup throws and the `catch` redirects to the dashboard with nothing listed.
   */
  function MostrarHome(pedidos: map<Id, Pedido>, usuario: Option<UsuarioSesion>): (r: ComercioController.Inicio)
    ensures usuario.None? ==> r == ComercioController.Inicio(Redirigir("/delivery/home"), {})
    ensures usuario.Some? ==>
              && r.respuesta == Vista("delivery/home")
              && forall q :: q in r.pedidos <==> q in pedidos && pedidos[q].delivery == Some(usuario.value.id)
  {
    match usuario
    case None => ComercioController.Inicio(Redirigir("/delivery/home"), {})
    case Some(u) => ComercioController.Inicio(Vista("delivery/home"), set q | q in pedidos && pedidos[q].delivery == Some(u.id))
  }

  /** The dashboard lists the same orders the JSON listing gives a courier. */
  lemma MostrarHomeComoListado(pedidos: map<Id, Pedido>, u: UsuarioSesion)
    requires u.rol == "delivery"
    ensures PedidoController.ListarPorRol(pedidos, Some(u)) == PedidoController.Lista(MostrarHome(pedidos, Some(u)).pedidos)
  {
    var l := PedidoController.ListarPorRol(pedidos, Some(u));
    assert l.Lista?;
    assert l.pedidos == MostrarHome(pedidos, Some(u)).pedidos;
  }

  /** An order that assignment has just given to the courier shows up on that courier's dashboard. */
  lemma AsignadoApareceEnInicio(pedidos: map<Id, Pedido>, pid: Id, u: UsuarioSesion)
    requires pid in pedidos
    ensures pid in MostrarHome(Pedidos.Asignado(pedidos, pid, u.id), Some(u)).pedidos
  {
  }

  /**
   * `mostrarDetallePedido`: any existing order is shown, whoever its courier is; a missing
   * one sends the courier to the dashboard.
   */
  function MostrarDetallePedido(pedidos: map<Id, Pedido>, pedidoId: Id): (r: Respuesta)
    ensures r == Vista("delivery/pedido-detalle") <==> pedidoId in pedidos
    ensures pedidoId !in pedidos ==> r == Redirigir("/delivery/home")
  {
    if pedidoId in pedidos then Vista("delivery/pedido-detalle") else Redirigir("/delivery/home")
  }

  /**
   * `completarPedido`: the order is closed whatever its state and whoever its courier; then
   * the session user's account is made available. Without a session user that second step
   * throws, so the order stays closed, no account changes and the courier is sent home.
   */
  method CompletarPedido(db: Db.Base, sesion: Sesion, pedidoId: Id) returns (respuesta: Respuesta)
    modifies db`pedidos, db`usuarios
    ensures db.pedidos == Pedidos.Cerrado(old(db.pedidos), pedidoId)
    ensures sesion.user.Some? ==>
              && db.usuarios == Pedidos.ConDisponibilidad(old(db.usuarios), sesion.user.value.id, Disponible)
              && respuesta == RedirigirA("/delivery/pedido/", pedidoId)
    ensures sesion.user.None? ==> db.usuarios == old(db.usuarios) && respuesta == Redirigir("/delivery/home")
  {
    if sesion.user.None? {
      Pedidos.CompletarPedido(db, pedidoId);
      return Redirigir("/delivery/home");
    }
    Pedidos.Completar(db, pedidoId, sesion.user.value.id);
    respuesta := RedirigirA("/delivery/pedido/", pedidoId);
  }

  /**
   * The user table after `actualizarPerfil`'s update of account `id`: each form field that
   * was sent replaces the stored value through its trim setter, and the photo is replaced
   * only when a file was uploaded. A missing account matches nothing.
   */
  function PerfilDelivery(
    usuarios: map<Id, Usuario>, id: Id,
    nombre: Option<string>, apellido: Option<string>, telefono: Option<string>,
    archivo: Option<string>): (r: map<Id, Usuario>)
    ensures r.Keys == usuarios.Keys
    ensures forall q :: q in usuarios && q != id ==> r[q] == usuarios[q]
    ensures id in usuarios ==>
              r[id].(nombre := usuarios[id].nombre, apellido := usuarios[id].apellido,
                     telefono := usuarios[id].telefono, fotoPerfil := usuarios[id].fotoPerfil) == usuarios[id]
    ensures id in usuarios ==>
              && (nombre.Some? ==> r[id].nombre == Some(Texto.Recortar(nombre.value)))
              && (nombre.None? ==> r[id].nombre == usuarios[id].nombre)
              && (apellido.Some? ==> r[id].apellido == Some(Texto.Recortar(apellido.value)))
              && (apellido.None? ==> r[id].apellido == usuarios[id].apellido)
              && (telefono.Some? ==> r[id].telefono == Some(Texto.Recortar(telefono.value)))
              && (telefono.None? ==> r[id].telefono == usuarios[id].telefono)
              && r[id].fotoPerfil == (if archivo.Some? then Some("/uploads/" + archivo.value) else usuarios[id].fotoPerfil)
  {
    if id !in usuarios then usuarios
    else
      var u := usuarios[id];
      usuarios[id := u.(
        nombre := Recortado(nombre, u.nombre),
        apellido := Recortado(apellido, u.apellido),
        telefono := Recortado(telefono, u.telefono),
        fotoPerfil := if archivo.Some? then Some("/uploads/" + archivo.value) else u.fotoPerfil)]
  }

  /**
   * `actualizarPerfil`: the session courier's account is updated and the courier goes back
   * to the profile page. Without a session user nothing changes.
   */
  method ActualizarPerfil(
    db: Db.Base, sesion: Sesion,
    nombre: Option<string>, apellido: Option<string>, telefono: Option<string>, archivo: Option<string>)
    returns (respuesta: Respuesta)
    modifies db`usuarios
    ensures respuesta == Redirigir("/delivery/perfil")
    ensures sesion.user.None? ==> db.usuarios == old(db.usuarios)
    ensures sesion.user.Some? ==>
              db.usuarios == PerfilDelivery(old(db.usuarios), sesion.user.value.id, nombre, apellido, telefono, archivo)
  {
    if sesion.user.Some? {
      db.usuarios := PerfilDelivery(db.usuarios, sesion.user.value.id, nombre, apellido, telefono, archivo);
    }
    respuesta := Redirigir("/delivery/perfil");
  }
}
