/**
 * The browser cart of public/js/carrito.js (`CarritoCompras`): a list of
 * {id, nombre, precio, cantidad} items with unique ids and quantities of at least one,
 * the hidden form field that carries it to the server as a flat list of product ids (one
 * entry per unit), and the "continue" button. DOM rendering and alerts are not modelled;
 * the two pieces of page state the server sees are fields of the class.
 */
module Carrito {
  import opened Wrappers
  import opened Modelos

  /** One cart line: a product and how many units of it. */
  datatype Item = Item(id: Id, nombre: string, precio: real, cantidad: nat)

  /**
   * What `agregarProducto` reads from the product card's data attributes: a missing or
   * empty id is `None`, a missing name is `""`, a price that `parseFloat` turns into NaN
   * is `None`.
   */
  datatype Tarjeta = Tarjeta(id: Option<Id>, nombre: string, precio: Option<real>)

  /** The cart invariant: unique ids, every quantity at least one. */
  ghost predicate Valido(c: seq<Item>) {
    && (forall i, j :: 0 <= i < j < |c| ==> c[i].id != c[j].id)
    && (forall i :: 0 <= i < |c| ==> c[i].cantidad >= 1)
  }

  /** `carrito.findIndex(p => p.id === id)`, with `None` for -1. */
  function Indice(c: seq<Item>, id: Id): (r: Option<nat>)
    ensures r.Some? ==> r.value < |c| && c[r.value].id == id
    ensures r.Some? ==> forall j :: 0 <= j < r.value ==> c[j].id != id
    ensures r.None? ==> forall j :: 0 <= j < |c| ==> c[j].id != id
  {
    if c == [] then None
    else if c[0].id == id then Some(0)
    else
      var r := Indice(c[1..], id);
      if r.Some? then Some(r.value + 1) else None
  }

  // ------------------------------------------------------------ specification of the operations

  /** The guard of `agregarProducto`: a card, with an id, a name and a numeric price. */
  predicate TarjetaValida(t: Option<Tarjeta>) {
    t.Some? && t.value.id.Some? && t.value.nombre != [] && t.value.precio.Some?
  }

  /** Adds one unit of the card's product: bump the existing line, or append a new line with quantity 1. */
  function Agregar(c: seq<Item>, t: Option<Tarjeta>): (r: seq<Item>)
    ensures !TarjetaValida(t) ==> r == c
    ensures TarjetaValida(t) && Indice(c, t.value.id.value).None? ==>
              r == c + [Item(t.value.id.value, t.value.nombre, t.value.precio.value, 1)]
    ensures TarjetaValida(t) && Indice(c, t.value.id.value).Some? ==>
              var k := Indice(c, t.value.id.value).value;
              |r| == |c| && r[k] == c[k].(cantidad := c[k].cantidad + 1) &&
              forall j :: 0 <= j < |c| && j != k ==> r[j] == c[j]
    ensures Valido(c) ==> Valido(r)
  {
    if !TarjetaValida(t) then c
    else
      var p := t.value;
      match Indice(c, p.id.value)
      case Some(k) => c[k := c[k].(cantidad := c[k].cantidad + 1)]
      case None => c + [Item(p.id.value, p.nombre, p.precio.value, 1)]
  }

  /** `incrementarCantidad`: one more unit of a listed product; an unknown id changes nothing. */
  function Incrementar(c: seq<Item>, id: Id): (r: seq<Item>)
    ensures Indice(c, id).None? ==> r == c
    ensures |r| == |c|
    ensures Valido(c) ==> forall j :: 0 <= j < |c| ==>
              r[j] == if c[j].id == id then c[j].(cantidad := c[j].cantidad + 1) else c[j]
    ensures Valido(c) ==> Valido(r)
  {
    match Indice(c, id)
    case Some(k) => c[k := c[k].(cantidad := c[k].cantidad + 1)]
    case None => c
  }

  /** `eliminarProducto`: drops exactly the matching line and keeps the others in order. */
  function Eliminar(c: seq<Item>, id: Id): (r: seq<Item>)
    ensures Indice(c, id).None? ==> r == c
    ensures Indice(c, id).Some? ==>
              var k := Indice(c, id).value; r == c[..k] + c[k + 1..] && |r| == |c| - 1
    ensures Valido(c) ==> Valido(r) && forall j :: 0 <= j < |r| ==> r[j].id != id
  {
    match Indice(c, id)
    case Some(k) => c[..k] + c[k + 1..]
    case None => c
  }

  /**
   * `decrementarCantidad`: one unit fewer; a line at quantity 1 is removed instead, so no
   * quantity ever drops to zero.
   */
  function Decrementar(c: seq<Item>, id: Id): (r: seq<Item>)
    ensures Indice(c, id).None? ==> r == c
    ensures Indice(c, id).Some? && c[Indice(c, id).value].cantidad > 1 ==>
              var k := Indice(c, id).value;
              r == c[k := c[k].(cantidad := c[k].cantidad - 1)]
    ensures Indice(c, id).Some? && c[Indice(c, id).value].cantidad <= 1 ==> r == Eliminar(c, id)
    ensures Valido(c) ==> Valido(r)
  {
    match Indice(c, id)
    case Some(k) =>
      if c[k].cantidad > 1 then c[k := c[k].(cantidad := c[k].cantidad - 1)] else Eliminar(c, id)
    case None => c
  }

  // ------------------------------------------------------------ encoding and totals

  /** `n` copies of `x`. */
  function Repetir(x: Id, n: nat): (r: seq<Id>)
    ensures |r| == n && forall i :: 0 <= i < n ==> r[i] == x
  {
    if n == 0 then [] else Repetir(x, n - 1) + [x]
  }

  /** The list `habilitarContinuar` builds: each id repeated `cantidad` times, in cart order. */
  function Codificar(c: seq<Item>): seq<Id> {
    if c == [] then [] else Codificar(c[..|c| - 1]) + Repetir(c[|c| - 1].id, c[|c| - 1].cantidad)
  }

  /** `cantidadTotal`: the number of units in the cart. */
  function Unidades(c: seq<Item>): nat {
    if c == [] then 0 else Unidades(c[..|c| - 1]) + c[|c| - 1].cantidad
  }

  /** Price times quantity. */
  function Importe(precio: real, cantidad: nat): real {
    precio * cantidad as real
  }

  /** `calcularSubtotal`: the sum of price times quantity, accumulated left to right. */
  function Subtotal(c: seq<Item>): real {
    if c == [] then 0.0 else Subtotal(c[..|c| - 1]) + Importe(c[|c| - 1].precio, c[|c| - 1].cantidad)
  }

  /** The encoded list has one entry per unit: its length is `cantidadTotal()`. */
  lemma {:induction false} CodificarLongitud(c: seq<Item>)
    ensures |Codificar(c)| == Unidades(c)
  {
    if c != [] {
      CodificarLongitud(c[..|c| - 1]);
    }
  }

  /** Encoding a cart extended by one line appends that line's block. */
  lemma CodificarAnexar(c: seq<Item>, it: Item)
    ensures Codificar(c + [it]) == Codificar(c) + Repetir(it.id, it.cantidad)
  {
    assert (c + [it])[..|c|] == c;
  }

  /** The encoding of a concatenation is the concatenation of the encodings. */
  lemma {:induction false} CodificarConcatenar(a: seq<Item>, b: seq<Item>)
    ensures Codificar(a + b) == Codificar(a) + Codificar(b)
    decreases |b|
  {
    if b == [] {
      assert a + b == a;
    } else {
      var b' := b[..|b| - 1];
      var last := b[|b| - 1];
      assert a + b == (a + b') + [last];
      assert b == b' + [last];
      CodificarAnexar(a + b', last);
      CodificarConcatenar(a, b');
      CodificarAnexar(b', last);
    }
  }

  /** Every entry of the encoded list is the id of some cart line. */
  lemma {:induction false} CodificarSoloIds(c: seq<Item>, k: nat)
    requires k < |Codificar(c)|
    ensures exists j :: 0 <= j < |c| && c[j].id == Codificar(c)[k]
  {
    if c != [] {
      var p := c[..|c| - 1];
      if k < |Codificar(p)| {
        CodificarSoloIds(p, k);
        var j :| 0 <= j < |p| && p[j].id == Codificar(p)[k];
        assert c[j].id == Codificar(c)[k];
      } else {
        assert Codificar(c)[k] == c[|c| - 1].id;
      }
    }
  }

  // ------------------------------------------------------------ the class

  class CarritoCompras {
    /** `this.carrito` */
    var carrito: seq<Item>
    /** The ids held by the hidden `productosIds` input (its JSON text, decoded). */
    var productosIds: seq<Id>
    /** Whether the "continue" button is enabled. */
    var continuarHabilitado: bool

    /** The cart invariant, and the page state agreeing with the cart. */
    ghost predicate Valid()
      reads this
    {
      Valido(carrito) && productosIds == Codificar(carrito) && continuarHabilitado == (carrito != [])
    }

    /** A new cart on a page where every element is found: empty, continue disabled, input `'[]'`. */
    constructor ()
      ensures Valid() && carrito == [] && productosIds == [] && !continuarHabilitado
    {
      carrito := [];
      productosIds := [];
      continuarHabilitado := false;
    }

    /** `habilitarContinuar`: enables the button and writes the id list, built with nested loops. */
    method HabilitarContinuar()
      modifies this
      ensures carrito == old(carrito) && continuarHabilitado
      ensures productosIds == Codificar(carrito)
    {
      continuarHabilitado := true;
      var ids: seq<Id> := [];
      var i := 0;
      while i < |carrito|
        invariant 0 <= i <= |carrito|
        invariant ids == Codificar(carrito[..i])
      {
        var item := carrito[i];
        var j := 0;
        while j < item.cantidad
          invariant 0 <= j <= item.cantidad
          invariant ids == Codificar(carrito[..i]) + Repetir(item.id, j)
        {
          ids := ids + [item.id];
          j := j + 1;
        }
        assert carrito[..i + 1][..i] == carrito[..i];
        i := i + 1;
      }
      assert carrito[..|carrito|] == carrito;
      productosIds := ids;
    }

    /** `actualizarCarrito`: an empty cart shows the empty state (`'[]'`, button disabled), otherwise the list is re-encoded. */
    method ActualizarCarrito()
      requires Valido(carrito)
      modifies this
      ensures Valid() && carrito == old(carrito)
    {
      if carrito == [] {
        continuarHabilitado := false;
        productosIds := [];
      } else {
        HabilitarContinuar();
      }
    }

    method AgregarProducto(t: Option<Tarjeta>)
      requires Valid()
      modifies this
      ensures Valid() && carrito == Agregar(old(carrito), t)
    {
      if !TarjetaValida(t) {
        return;
      }
      carrito := Agregar(carrito, t);
      ActualizarCarrito();
    }

    method IncrementarCantidad(id: Id)
      requires Valid()
      modifies this
      ensures Valid() && carrito == Incrementar(old(carrito), id)
    {
      var k := Indice(carrito, id);
      if k.Some? {
        carrito := carrito[k.value := carrito[k.value].(cantidad := carrito[k.value].cantidad + 1)];
        ActualizarCarrito();
      }
    }

    method EliminarProducto(id: Id)
      requires Valid()
      modifies this
      ensures Valid() && carrito == Eliminar(old(carrito), id)
    {
      var k := Indice(carrito, id);
      if k.None? {
        return;
      }
      carrito := carrito[..k.value] + carrito[k.value + 1..];
      ActualizarCarrito();
    }

    method DecrementarCantidad(id: Id)
      requires Valid()
      modifies this
      ensures Valid() && carrito == Decrementar(old(carrito), id)
    {
      var k := Indice(carrito, id);
      if k.Some? {
        if carrito[k.value].cantidad > 1 {
          carrito := carrito[k.value := carrito[k.value].(cantidad := carrito[k.value].cantidad - 1)];
          ActualizarCarrito();
        } else {
          EliminarProducto(id);
        }
      }
    }

    /** `vaciarCarrito`: the cart and the encoded list become empty and continuing is disabled. */
    method VaciarCarrito()
      requires Valid()
      modifies this
      ensures Valid() && carrito == [] && productosIds == [] && !continuarHabilitado
    {
      carrito := [];
      ActualizarCarrito();
    }

    /** `calcularSubtotal` */
    function CalcularSubtotal(): real
      reads this
    {
      Subtotal(carrito)
    }

    /** `cantidadTotal`: equal to the length of the encoded list the page submits. */
    function CantidadTotal(): (n: nat)
      reads this
      requires Valid()
      ensures n == |productosIds|
    {
      CodificarLongitud(carrito);
      Unidades(carrito)
    }
  }
}
