/**
 * controllers/comercioController.js: the merchant's order list and order page, courier
 * assignment and the merchant profile update.
 */
module ComercioController {
  import opened Wrappers
  import opened Modelos
  import Texto
  import opened Http
  import Db
  import Pedidos
  import PedidoController

  /** A dashboard: the response and the orders it lists. */
  datatype Inicio = Inicio(respuesta: Respuesta, pedidos: set<Id>)

  /**
   * `mostrarHome`: the orders whose merchant is the session user. Without a session user the
   * lookup throws and the `catch` redirects to the dashboard with nothing listed.
   */
  function MostrarHome(pedidos: map<Id, Pedido>, usuario: Option<UsuarioSesion>): (r: Inicio)
    ensures usuario.None? ==> r == Inicio(Redirigir("/comercio/home"), {})
    ensures usuario.Some? ==>
              && r.respuesta == Vista("comercio/home")
              && forall q :: q in r.pedidos <==> q in pedidos && pedidos[q].comercio == Some(usuario.value.id)
  {
    match usuario
    case None => Inicio(Redirigir("/comercio/home"), {})
    case Some(u) => Inicio(Vista("comercio/home"), set q | q in pedidos && pedidos[q].comercio == Some(u.id))
  }

  /** The dashboard lists the same orders the JSON listing gives a merchant. */
  lemma MostrarHomeComoListado(pedidos: map<Id, Pedido>, u: UsuarioSesion)
    requires u.rol == "comercio"
    ensures PedidoController.ListarPorRol(pedidos, Some(u)) == PedidoController.Lista(MostrarHome(pedidos, Some(u)).pedidos)
  {
    var l := PedidoController.ListarPorRol(pedidos, Some(u));
    assert l.Lista?;
    assert l.pedidos == MostrarHome(pedidos, Some(u)).pedidos;
  }

  /**
   * `mostrarDetallePedido`: any existing order is shown, whichever merchant it belongs to;
   * a missing one sends the merchant to the dashboard.
   */
  function MostrarDetallePedido(pedidos: map<Id, Pedido>, pedidoId: Id): (r: Respuesta)
    ensures r == Vista("comercio/pedido-detalle") <==> pedidoId in pedidos
    ensures pedidoId !in pedidos ==> r == Redirigir("/comercio/home")
  {
    if pedidoId in pedidos then Vista("comercio/pedido-detalle") else Redirigir("/comercio/home")
  }

  /**
   * `asignarDelivery`: neither the order's state nor its merchant is checked; the merchant
   * goes back to the order page in every case.
   */
  method AsignarDelivery(db: Db.Base, pedidoId: Id) returns (respuesta: Respuesta, elegido: Option<Id>)
    modifies db`pedidos, db`usuarios
    ensures respuesta == RedirigirA("/comercio/pedido/", pedidoId)
    ensures elegido.None? <==> Pedidos.Elegibles(old(db.usuarios)) == {}
    ensures elegido.None? ==> db.pedidos == old(db.pedidos) && db.usuarios == old(db.usuarios)
    ensures elegido.Some? ==>
              && elegido.value in Pedidos.Elegibles(old(db.usuarios))
              && db.pedidos == Pedidos.Asignado(old(db.pedidos), pedidoId, elegido.value)
              && db.usuarios == Pedidos.ConDisponibilidad(old(db.usuarios), elegido.value, Ocupado)
  {
    elegido := Pedidos.AsignarDelivery(db, pedidoId);
    respuesta := RedirigirA("/comercio/pedido/", pedidoId);
  }

  /** Another user already has the (lowercased, trimmed) address, so the unique index refuses it. */
  predicate CorreoOcupado(usuarios: map<Id, Usuario>, id: Id, correo: string) {
    exists o :: o in usuarios && o != id && usuarios[o].correo == NormalizarCorreo(correo)
  }

  /**
   * The user table after `actualizarPerfil`'s update of account `id`: each form field that
   * was sent replaces the stored value (the phone through its trim setter, the address
   * through its lowercase and trim setters), the logo is replaced only when a file was
   * uploaded, and an address already used by another account makes the whole update fail.
   * A missing account matches nothing.
   */
  function PerfilComercio(
    usuarios: map<Id, Usuario>, id: Id,
    telefono: Option<string>, correo: Option<string>, horaApertura: Option<string>, horaCierre: Option<string>,
    archivo: Option<string>): (r: map<Id, Usuario>)
    ensures r.Keys == usuarios.Keys
    ensures forall q :: q in usuarios && q != id ==> r[q] == usuarios[q]
    ensures id !in usuarios || (correo.Some? && CorreoOcupado(usuarios, id, correo.value)) ==> r == usuarios
    ensures id in usuarios ==>
              r[id].(telefono := usuarios[id].telefono, correo := usuarios[id].correo,
                     horaApertura := usuarios[id].horaApertura, horaCierre := usuarios[id].horaCierre,
                     logoComercio := usuarios[id].logoComercio) == usuarios[id]
    ensures id in usuarios && !(correo.Some? && CorreoOcupado(usuarios, id, correo.value)) ==>
              && (telefono.Some? ==> r[id].telefono == Some(Texto.Recortar(telefono.value)))
              && (telefono.None? ==> r[id].telefono == usuarios[id].telefono)
              && (correo.Some? ==> r[id].correo == NormalizarCorreo(correo.value))
              && (correo.None? ==> r[id].correo == usuarios[id].correo)
              && r[id].horaApertura == (if horaApertura.Some? then horaApertura else usuarios[id].horaApertura)
              && r[id].horaCierre == (if horaCierre.Some? then horaCierre else usuarios[id].horaCierre)
              && r[id].logoComercio == (if archivo.Some? then Some("/uploads/" + archivo.value) else usuarios[id].logoComercio)
  {
    if id !in usuarios || (correo.Some? && CorreoOcupado(usuarios, id, correo.value)) then usuarios
    else
      var u := usuarios[id];
      usuarios[id := u.(
        telefono := Recortado(telefono, u.telefono),
        correo := if correo.Some? then NormalizarCorreo(correo.value) else u.correo,
        horaApertura := if horaApertura.Some? then horaApertura else u.horaApertura,
        horaCierre := if horaCierre.Some? then horaCierre else u.horaCierre,
        logoComercio := if archivo.Some? then Some("/uploads/" + archivo.value) else u.logoComercio)]
  }

  /**
   * `actualizarPerfil`: the session merchant's account is updated and the merchant goes back
   * to the profile page, whether or not the update took. Without a session user nothing
   * changes.
   */
  method ActualizarPerfil(
    db: Db.Base, sesion: Sesion,
    telefono: Option<string>, correo: Option<string>, horaApertura: Option<string>, horaCierre: Option<string>,
    archivo: Option<string>)
    returns (respuesta: Respuesta)
    modifies db`usuarios
    ensures respuesta == Redirigir("/comercio/perfil")
    ensures sesion.user.None? ==> db.usuarios == old(db.usuarios)
    ensures sesion.user.Some? ==>
              db.usuarios == PerfilComercio(old(db.usuarios), sesion.user.value.id,
                                            telefono, correo, horaApertura, horaCierre, archivo)
  {
    if sesion.user.Some? {
      db.usuarios := PerfilComercio(db.usuarios, sesion.user.value.id,
                                    telefono, correo, horaApertura, horaCierre, archivo);
    }
    respuesta := Redirigir("/comercio/perfil");
  }
}
