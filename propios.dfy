/**
 * The owner-scoped queries that the address, product and category handlers share. Every row
 * of these collections names its owner (the client of an address, the merchant of a product
 * or a category), and the handlers look rows up with the filter `{_id, owner: session user}`,
 * so that a user never reaches another user's rows.
 */
module Propios {
  import opened Wrappers
  import opened Modelos
  import opened Http

  /** A rendered list page and the rows it shows. */
  datatype Pagina = Pagina(respuesta: Respuesta, filas: set<Id>)

  /** A rendered list page that shows a count next to each listed row. */
  datatype Conteos = Conteos(respuesta: Respuesta, cantidades: map<Id, nat>)

  /** `find({owner: usuario})`: the ids of the rows that `usuario` owns. */
  function DeDueno<T>(tabla: map<Id, T>, dueno: T -> Option<Id>, usuario: Id): (r: set<Id>)
    ensures forall q :: q in r <==> q in tabla && dueno(tabla[q]) == Some(usuario)
  {
    set q | q in tabla && dueno(tabla[q]) == Some(usuario)
  }

  /** `findOne({_id: id, owner: usuario})` finds a row. */
  predicate EsDe<T>(tabla: map<Id, T>, dueno: T -> Option<Id>, id: Id, usuario: Id) {
    id in tabla && dueno(tabla[id]) == Some(usuario)
  }

  /**
   * A list page: the session user's rows. Without a session user the lookup throws and the
   * `catch` redirects with nothing listed.
   */
  function Listar<T>(tabla: map<Id, T>, dueno: T -> Option<Id>, usuario: Option<UsuarioSesion>,
                     vista: string, fallo: string): (r: Pagina)
    ensures usuario.None? ==> r == Pagina(Redirigir(fallo), {})
    ensures usuario.Some? ==>
              && r.respuesta == Vista(vista)
              && forall q :: q in r.filas <==> q in tabla && dueno(tabla[q]) == Some(usuario.value.id)
  {
    match usuario
    case None => Pagina(Redirigir(fallo), {})
    case Some(u) => Pagina(Vista(vista), DeDueno(tabla, dueno, u.id))
  }

  /**
   * An edit or delete form: rendered only for a row of the session user; a missing or
   * foreign row, or a missing session user, sends the user back to the list.
   */
  function Formulario<T>(tabla: map<Id, T>, dueno: T -> Option<Id>, usuario: Option<UsuarioSesion>, id: Id,
                         vista: string, lista: string): (r: Respuesta)
    ensures r == Vista(vista) <==> usuario.Some? && EsDe(tabla, dueno, id, usuario.value.id)
    ensures r != Vista(vista) ==> r == Redirigir(lista)
  {
    if usuario.Some? && EsDe(tabla, dueno, id, usuario.value.id) then Vista(vista) else Redirigir(lista)
  }

  /**
   * `despues` differs from `antes` at most in row `id`, and only if `usuario` owned it there,
   * in which case it still does: what `findOneAndUpdate({_id: id, owner: usuario}, ...)` allows.
   */
  ghost predicate SoloFila<T>(antes: map<Id, T>, despues: map<Id, T>, dueno: T -> Option<Id>, id: Id, usuario: Id) {
    && despues.Keys == antes.Keys
    && (forall q :: q in antes && !(q == id && EsDe(antes, dueno, id, usuario)) ==> despues[q] == antes[q])
    && (EsDe(antes, dueno, id, usuario) ==> dueno(despues[id]) == Some(usuario))
  }

  /** `findOneAndDelete({_id: id, owner: usuario})`: the row goes only when `usuario` owns it. */
  function Borrado<T>(tabla: map<Id, T>, dueno: T -> Option<Id>, id: Id, usuario: Id): (r: map<Id, T>)
    ensures forall q :: q in r <==> q in tabla && !(q == id && EsDe(tabla, dueno, id, usuario))
    ensures forall q :: q in r ==> r[q] == tabla[q]
  {
    if EsDe(tabla, dueno, id, usuario) then tabla - {id} else tabla
  }

  /** An owner-filtered update leaves every other user's rows, and their list, as they were. */
  lemma ActualizarAislado<T>(antes: map<Id, T>, despues: map<Id, T>, dueno: T -> Option<Id>, id: Id, usuario: Id, otro: Id)
    requires SoloFila(antes, despues, dueno, id, usuario)
    requires otro != usuario
    ensures DeDueno(despues, dueno, otro) == DeDueno(antes, dueno, otro)
    ensures forall q :: q in DeDueno(antes, dueno, otro) ==> despues[q] == antes[q]
  {
    forall q | q in antes
      ensures dueno(despues[q]) == Some(otro) <==> dueno(antes[q]) == Some(otro)
    {
      if q == id && EsDe(antes, dueno, id, usuario) {
        assert dueno(despues[q]) == Some(usuario);
      }
    }
  }

  /** An owner-filtered delete leaves every other user's rows, and their list, as they were. */
  lemma BorrarAislado<T>(tabla: map<Id, T>, dueno: T -> Option<Id>, id: Id, usuario: Id, otro: Id)
    requires otro != usuario
    ensures DeDueno(Borrado(tabla, dueno, id, usuario), dueno, otro) == DeDueno(tabla, dueno, otro)
    ensures forall q :: q in DeDueno(tabla, dueno, otro) ==> q in Borrado(tabla, dueno, id, usuario)
  {
  }
}
