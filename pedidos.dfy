/**
 * The order and courier life cycle shared by the merchant, courier and order handlers.
 * An order goes from 'pendiente' to 'en proceso' when a courier is assigned and to
 * 'completado' when a courier closes it; a courier is 'ocupado' while assigned and
 * 'disponible' again after completing. Each step is a single `findByIdAndUpdate`: it
 * matches nothing when the id does not exist, and none of the steps looks at the state the
 * document was in before.
 */
module Pedidos {
  import opened Wrappers
  import opened Modelos
  import Db

  /** The courier search filter: a delivery account that is active and available. */
  predicate Elegible(u: Usuario) {
    u.rol == Delivery && u.estadoDisponibilidad == Disponible && u.activo
  }

  /** The accounts the courier search can return. */
  function Elegibles(usuarios: map<Id, Usuario>): set<Id> {
    set d | d in usuarios && Elegible(usuarios[d])
  }

  /** The order table after `{delivery: d, estado: 'en proceso'}` is applied to order `pid`. */
  function Asignado(pedidos: map<Id, Pedido>, pid: Id, d: Id): (r: map<Id, Pedido>)
    ensures r.Keys == pedidos.Keys
    ensures pid in pedidos ==> r[pid].estado == EnProceso && r[pid].delivery == Some(d)
    ensures forall q :: q in pedidos && q != pid ==> r[q] == pedidos[q]
  {
    if pid in pedidos then pedidos[pid := pedidos[pid].(delivery := Some(d), estado := EnProceso)]
    else pedidos
  }

  /** The order table after `{estado: 'completado'}` is applied to order `pid`. */
  function Cerrado(pedidos: map<Id, Pedido>, pid: Id): (r: map<Id, Pedido>)
    ensures r.Keys == pedidos.Keys
    ensures pid in pedidos ==> r[pid] == pedidos[pid].(estado := Completado)
    ensures forall q :: q in pedidos && q != pid ==> r[q] == pedidos[q]
  {
    if pid in pedidos then pedidos[pid := pedidos[pid].(estado := Completado)] else pedidos
  }

  /** The user table after `{estadoDisponibilidad: e}` is applied to account `id`. */
  function ConDisponibilidad(usuarios: map<Id, Usuario>, id: Id, e: Disponibilidad): (r: map<Id, Usuario>)
    ensures r.Keys == usuarios.Keys
    ensures id in usuarios ==> r[id] == usuarios[id].(estadoDisponibilidad := e)
    ensures forall q :: q in usuarios && q != id ==> r[q] == usuarios[q]
  {
    if id in usuarios then usuarios[id := usuarios[id].(estadoDisponibilidad := e)] else usuarios
  }

  // ------------------------------------------------------------ store steps

  /**
   * `Usuario.findOne({rol: 'delivery', estadoDisponibilidad: 'disponible', activo: true})`:
   * some eligible courier when there is one (which one is up to the store), none otherwise.
   */
  method BuscarDelivery(db: Db.Base) returns (d: Option<Id>)
    ensures d.None? <==> Elegibles(db.usuarios) == {}
    ensures d.Some? ==> d.value in db.usuarios && Elegible(db.usuarios[d.value])
  {
    var candidatos := Elegibles(db.usuarios);
    if candidatos == {} {
      return None;
    }
    var x :| x in candidatos;
    return Some(x);
  }

  method AsignarPedido(db: Db.Base, pid: Id, d: Id)
    modifies db`pedidos
    ensures db.pedidos == Asignado(old(db.pedidos), pid, d)
  {
    db.pedidos := Asignado(db.pedidos, pid, d);
  }

  method CompletarPedido(db: Db.Base, pid: Id)
    modifies db`pedidos
    ensures db.pedidos == Cerrado(old(db.pedidos), pid)
  {
    db.pedidos := Cerrado(db.pedidos, pid);
  }

  method FijarDisponibilidad(db: Db.Base, id: Id, e: Disponibilidad)
    modifies db`usuarios
    ensures db.usuarios == ConDisponibilidad(old(db.usuarios), id, e)
  {
    db.usuarios := ConDisponibilidad(db.usuarios, id, e);
  }

  /**
   * The body shared by both `asignarDelivery` handlers: find an eligible courier; with none,
   * nothing changes; otherwise the order gets that courier and 'en proceso' (whatever its
   * state was, and even when the order does not exist) and the courier becomes 'ocupado'.
   */
  method AsignarDelivery(db: Db.Base, pid: Id) returns (elegido: Option<Id>)
    modifies db`pedidos, db`usuarios
    ensures elegido.None? <==> Elegibles(old(db.usuarios)) == {}
    ensures elegido.None? ==> db.pedidos == old(db.pedidos) && db.usuarios == old(db.usuarios)
    ensures elegido.Some? ==>
              && elegido.value in old(db.usuarios) && Elegible(old(db.usuarios)[elegido.value])
              && db.pedidos == Asignado(old(db.pedidos), pid, elegido.value)
              && db.usuarios == ConDisponibilidad(old(db.usuarios), elegido.value, Ocupado)
  {
    elegido := BuscarDelivery(db);
    if elegido.Some? {
      AsignarPedido(db, pid, elegido.value);
      FijarDisponibilidad(db, elegido.value, Ocupado);
    }
  }

  /**
   * The body shared by both completion handlers: the order becomes 'completado' and the
   * account of the session user, not the order's courier, becomes 'disponible'.
   */
  method Completar(db: Db.Base, pid: Id, usuario: Id)
    modifies db`pedidos, db`usuarios
    ensures db.pedidos == Cerrado(old(db.pedidos), pid)
    ensures db.usuarios == ConDisponibilidad(old(db.usuarios), usuario, Disponible)
  {
    CompletarPedido(db, pid);
    FijarDisponibilidad(db, usuario, Disponible);
  }

  // ------------------------------------------------------------ properties of the life cycle

  /** Assigning a courier takes exactly that courier out of the eligible set. */
  lemma AsignarQuitaElegible(usuarios: map<Id, Usuario>, d: Id)
    requires d in Elegibles(usuarios)
    ensures Elegibles(ConDisponibilidad(usuarios, d, Ocupado)) == Elegibles(usuarios) - {d}
    ensures |Elegibles(ConDisponibilidad(usuarios, d, Ocupado))| == |Elegibles(usuarios)| - 1
  {
    var u2 := ConDisponibilidad(usuarios, d, Ocupado);
    assert !Elegible(u2[d]);
    assert Elegibles(u2) == Elegibles(usuarios) - {d};
  }

  /**
   * The full cycle: after assignment and completion by the same courier, the order is
   * 'completado' and still names that courier, and the user table is back to what it was,
   * so the courier is eligible again.
   */
  lemma CicloCompleto(pedidos: map<Id, Pedido>, usuarios: map<Id, Usuario>, pid: Id, d: Id)
    requires pid in pedidos && d in Elegibles(usuarios)
    ensures var p := Cerrado(Asignado(pedidos, pid, d), pid);
            p[pid].estado == Completado && p[pid].delivery == Some(d)
    ensures ConDisponibilidad(ConDisponibilidad(usuarios, d, Ocupado), d, Disponible) == usuarios
    ensures d in Elegibles(ConDisponibilidad(ConDisponibilidad(usuarios, d, Ocupado), d, Disponible))
  {
    var u2 := ConDisponibilidad(ConDisponibilidad(usuarios, d, Ocupado), d, Disponible);
    assert u2[d] == usuarios[d];
    assert u2 == usuarios;
  }

  /** No guard on the prior state: a pending order with no courier can be completed directly. */
  lemma CompletarSinAsignar(pedidos: map<Id, Pedido>, pid: Id)
    requires pid in pedidos && pedidos[pid].estado == Pendiente && pedidos[pid].delivery.None?
    ensures Cerrado(pedidos, pid)[pid].estado == Completado
    ensures Cerrado(pedidos, pid)[pid].delivery.None?
  {
  }

  /** No guard on the prior state: a completed order can be assigned again and reopened. */
  lemma AsignarReabre(pedidos: map<Id, Pedido>, pid: Id, d: Id)
    requires pid in pedidos && pedidos[pid].estado == Completado
    ensures Asignado(pedidos, pid, d)[pid].estado == EnProceso
  {
  }

  /**
   * Completion frees the session user, not the order's courier: when another user completes
   * an order, its assigned courier stays 'ocupado' and the completer becomes 'disponible'.
   */
  lemma CompletarOtroUsuario(pedidos: map<Id, Pedido>, usuarios: map<Id, Usuario>, pid: Id, a: Id, otro: Id)
    requires pid in pedidos && pedidos[pid].delivery == Some(a)
    requires a in usuarios && usuarios[a].estadoDisponibilidad == Ocupado
    requires otro in usuarios && otro != a
    ensures Cerrado(pedidos, pid)[pid].estado == Completado
    ensures ConDisponibilidad(usuarios, otro, Disponible)[a].estadoDisponibilidad == Ocupado
    ensures ConDisponibilidad(usuarios, otro, Disponible)[otro].estadoDisponibilidad == Disponible
  {
  }

  /**
   * Assigning to an order id that does not exist changes no order, but the chosen courier
   * is still marked 'ocupado'.
   */
  lemma AsignarInexistente(pedidos: map<Id, Pedido>, usuarios: map<Id, Usuario>, pid: Id, d: Id)
    requires pid !in pedidos && d in Elegibles(usuarios)
    ensures Asignado(pedidos, pid, d) == pedidos
    ensures d !in Elegibles(ConDisponibilidad(usuarios, d, Ocupado))
  {
  }
}
