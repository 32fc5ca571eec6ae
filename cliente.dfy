/**
 * The client's order flow of controllers/clienteController.js: decoding the id list the
 * browser cart submits (deduplicate, resolve, count occurrences), pricing it for the
 * address-selection page, restoring a cart kept in the session, creating the order with one
 * snapshot line per unit, and grouping a merchant's catalogue by category.
 *
 * `Producto.find({ _id: { $in: ids } })` is modelled as keeping, in first-occurrence order,
 * the distinct ids that have a product.
 */
module Cliente {
  import opened Wrappers
  import opened Modelos
  import opened Http
  import Precios
  import Db
  import Carrito

  // ------------------------------------------------------------ decoding the id list

  /** `idsArray.filter(x => x === id).length` */
  function Contar(ids: seq<Id>, id: Id): (n: nat)
    ensures n <= |ids|
    ensures n == 0 <==> id !in ids
  {
    if ids == [] then 0
    else
      assert ids == ids[..|ids| - 1] + [ids[|ids| - 1]];
      Contar(ids[..|ids| - 1], id) + (if ids[|ids| - 1] == id then 1 else 0)
  }

  ghost predicate SinRepetidos(s: seq<Id>) {
    forall i, j :: 0 <= i < j < |s| ==> s[i] != s[j]
  }

  /** `[...new Set(ids)]`: each id once, in order of first occurrence. */
  function Unicos(ids: seq<Id>): (r: seq<Id>)
    ensures SinRepetidos(r)
    ensures forall x :: x in r <==> x in ids
  {
    if ids == [] then []
    else
      var p := Unicos(ids[..|ids| - 1]);
      assert ids == ids[..|ids| - 1] + [ids[|ids| - 1]];
      if ids[|ids| - 1] in p then p else p + [ids[|ids| - 1]]
  }

  /** The ids among `us` that have a product, in the order of `us`. */
  function Resueltos(us: seq<Id>, productos: map<Id, Producto>): (r: seq<Id>)
    ensures forall x :: x in r <==> x in us && x in productos
    ensures SinRepetidos(us) ==> SinRepetidos(r)
  {
    if us == [] then []
    else
      var p := Resueltos(us[..|us| - 1], productos);
      assert us == us[..|us| - 1] + [us[|us| - 1]];
      if us[|us| - 1] in productos then p + [us[|us| - 1]] else p
  }

  /** The sum of the per-product counts, over the products `us`. */
  function SumaConteos(us: seq<Id>, ids: seq<Id>): nat {
    if us == [] then 0 else SumaConteos(us[..|us| - 1], ids) + Contar(ids, us[|us| - 1])
  }

  /** How many entries of `ids` are one of `us`: at most all of them, and all exactly when each is. */
  function Cubiertos(us: seq<Id>, ids: seq<Id>): (n: nat)
    ensures n <= |ids|
    ensures n == |ids| <==> forall x :: x in ids ==> x in us
  {
    if ids == [] then 0
    else
      var n := Cubiertos(us, ids[..|ids| - 1]);
      assert ids == ids[..|ids| - 1] + [ids[|ids| - 1]];
      n + (if ids[|ids| - 1] in us then 1 else 0)
  }

  lemma ContarAnexar(ids: seq<Id>, x: Id, u: Id)
    ensures Contar(ids + [x], u) == Contar(ids, u) + (if x == u then 1 else 0)
  {
    assert (ids + [x])[..|ids|] == ids;
  }

  /** One more entry raises the count of exactly the one product it names, if listed. */
  lemma {:induction false} SumaConteosAnexar(us: seq<Id>, ids: seq<Id>, x: Id)
    requires SinRepetidos(us)
    ensures SumaConteos(us, ids + [x]) == SumaConteos(us, ids) + (if x in us then 1 else 0)
  {
    if us != [] {
      var p := us[..|us| - 1];
      assert us == p + [us[|us| - 1]];
      SumaConteosAnexar(p, ids, x);
      ContarAnexar(ids, x, us[|us| - 1]);
    }
  }

  /** Over distinct products, the counts add up to the number of entries naming one of them. */
  lemma {:induction false} SumaConteosCubiertos(us: seq<Id>, ids: seq<Id>)
    requires SinRepetidos(us)
    ensures SumaConteos(us, ids) == Cubiertos(us, ids)
  {
    if ids == [] {
      SumaConteosVacio(us);
    } else {
      var p := ids[..|ids| - 1];
      assert ids == p + [ids[|ids| - 1]];
      SumaConteosCubiertos(us, p);
      SumaConteosAnexar(us, p, ids[|ids| - 1]);
    }
  }

  lemma {:induction false} SumaConteosVacio(us: seq<Id>)
    ensures SumaConteos(us, []) == 0
  {
    if us != [] {
      SumaConteosVacio(us[..|us| - 1]);
    }
  }

  /**
   * The quantities of the resolved products add up to at most the length of the list, and
   * to exactly its length when every listed id has a product.
   */
  lemma CantidadesResueltas(ids: seq<Id>, productos: map<Id, Producto>)
    ensures SumaConteos(Resueltos(Unicos(ids), productos), ids) <= |ids|
    ensures SumaConteos(Resueltos(Unicos(ids), productos), ids) == |ids| <==>
              forall x :: x in ids ==> x in productos
  {
    var rs := Resueltos(Unicos(ids), productos);
    SumaConteosCubiertos(rs, ids);
    assert (forall x :: x in ids ==> x in rs) <==> (forall x :: x in ids ==> x in productos);
  }

  // ------------------------------------------------------------ round trip with the browser cart

  /** The ids of a cart, in cart order. */
  function IdsDe(c: seq<Carrito.Item>): (r: seq<Id>)
    ensures |r| == |c| && forall k :: 0 <= k < |c| ==> r[k] == c[k].id
  {
    seq(|c|, k requires 0 <= k < |c| => c[k].id)
  }

  lemma {:induction false} ContarConcatenar(a: seq<Id>, b: seq<Id>, x: Id)
    ensures Contar(a + b, x) == Contar(a, x) + Contar(b, x)
    decreases |b|
  {
    if b == [] {
      assert a + b == a;
    } else {
      var b' := b[..|b| - 1];
      assert a + b == (a + b') + [b[|b| - 1]];
      assert b == b' + [b[|b| - 1]];
      ContarAnexar(a + b', b[|b| - 1], x);
      ContarAnexar(b', b[|b| - 1], x);
      ContarConcatenar(a, b', x);
    }
  }

  lemma {:induction false} ContarRepetir(y: Id, n: nat, x: Id)
    ensures Contar(Carrito.Repetir(y, n), x) == if y == x then n else 0
  {
    if n > 0 {
      ContarRepetir(y, n - 1, x);
      ContarAnexar(Carrito.Repetir(y, n - 1), y, x);
    }
  }

  /** The id of a cart line does not occur in the encoding of a cart without that id. */
  lemma IdAusenteDeCodificacion(c: seq<Carrito.Item>, x: Id)
    requires forall j :: 0 <= j < |c| ==> c[j].id != x
    ensures x !in Carrito.Codificar(c)
  {
    if x in Carrito.Codificar(c) {
      var k :| 0 <= k < |Carrito.Codificar(c)| && Carrito.Codificar(c)[k] == x;
      Carrito.CodificarSoloIds(c, k);
    }
  }

  /**
   * Counting occurrences inverts the browser's encoding: in the list `habilitarContinuar`
   * builds from a cart with unique ids, each line's id occurs exactly `cantidad` times.
   */
  lemma {:induction false} ContarCodificar(c: seq<Carrito.Item>, k: nat)
    requires Carrito.Valido(c) && k < |c|
    ensures Contar(Carrito.Codificar(c), c[k].id) == c[k].cantidad
  {
    var p := c[..|c| - 1];
    var ultimo := c[|c| - 1];
    assert Carrito.Codificar(c) == Carrito.Codificar(p) + Carrito.Repetir(ultimo.id, ultimo.cantidad);
    ContarConcatenar(Carrito.Codificar(p), Carrito.Repetir(ultimo.id, ultimo.cantidad), c[k].id);
    ContarRepetir(ultimo.id, ultimo.cantidad, c[k].id);
    if k == |c| - 1 {
      IdAusenteDeCodificacion(p, ultimo.id);
    } else {
      assert Carrito.Valido(p);
      ContarCodificar(p, k);
    }
  }

  lemma {:induction false} UnicosAnexarRepetir(s: seq<Id>, x: Id, n: nat)
    requires n >= 1 && x !in s
    ensures Unicos(s + Carrito.Repetir(x, n)) == Unicos(s) + [x]
  {
    if n == 1 {
      assert Carrito.Repetir(x, 1) == [x];
      assert (s + [x])[..|s|] == s;
    } else {
      var t := s + Carrito.Repetir(x, n - 1);
      UnicosAnexarRepetir(s, x, n - 1);
      assert s + Carrito.Repetir(x, n) == t + [x];
      assert (t + [x])[..|t|] == t;
      assert x in Unicos(t);
    }
  }

  /** Deduplicating the encoded list gives back the cart's ids in cart order. */
  lemma {:induction false} UnicosCodificar(c: seq<Carrito.Item>)
    requires Carrito.Valido(c)
    ensures Unicos(Carrito.Codificar(c)) == IdsDe(c)
  {
    if c != [] {
      var p := c[..|c| - 1];
      var ultimo := c[|c| - 1];
      assert Carrito.Valido(p);
      UnicosCodificar(p);
      IdAusenteDeCodificacion(p, ultimo.id);
      UnicosAnexarRepetir(Carrito.Codificar(p), ultimo.id, ultimo.cantidad);
      assert IdsDe(c) == IdsDe(p) + [ultimo.id];
    }
  }

  lemma {:induction false} ResueltosTodos(us: seq<Id>, productos: map<Id, Producto>)
    requires forall x :: x in us ==> x in productos
    ensures Resueltos(us, productos) == us
  {
    if us != [] {
      var p := us[..|us| - 1];
      assert us == p + [us[|us| - 1]];
      ResueltosTodos(p, productos);
    }
  }

  /**
   * The server-side decoding of a submitted cart whose products all exist: the resolved
   * products are the cart's lines in cart order, each with its original quantity.
   */
  lemma DecodificarCarrito(c: seq<Carrito.Item>, productos: map<Id, Producto>)
    requires Carrito.Valido(c)
    requires forall k :: 0 <= k < |c| ==> c[k].id in productos
    ensures Resueltos(Unicos(Carrito.Codificar(c)), productos) == IdsDe(c)
    ensures forall k :: 0 <= k < |c| ==> Contar(Carrito.Codificar(c), c[k].id) == c[k].cantidad
  {
    UnicosCodificar(c);
    ResueltosTodos(IdsDe(c), productos);
    forall k | 0 <= k < |c|
      ensures Contar(Carrito.Codificar(c), c[k].id) == c[k].cantidad
    {
      ContarCodificar(c, k);
    }
  }

  // ------------------------------------------------------------ pricing lines and the snapshot

  /** A product with its counted quantity and `precio * cantidad`, as rendered. */
  datatype LineaResumen = LineaResumen(id: Id, producto: Producto, cantidad: nat, subtotalItem: real)

  function Linea(u: Id, productos: map<Id, Producto>, ids: seq<Id>): LineaResumen
    requires u in productos
  {
    LineaResumen(u, productos[u], Contar(ids, u), Carrito.Importe(PrecioNumerico(productos[u]), Contar(ids, u)))
  }

  /** `productos.map(...)` of `seleccionarDireccion`: one line per resolved product. */
  function Lineas(rs: seq<Id>, productos: map<Id, Producto>, ids: seq<Id>): (ls: seq<LineaResumen>)
    requires forall x :: x in rs ==> x in productos
    ensures |ls| == |rs|
    ensures forall k :: 0 <= k < |rs| ==> ls[k].id == rs[k] && ls[k].cantidad == Contar(ids, rs[k])
  {
    seq(|rs|, k requires 0 <= k < |rs| => Linea(rs[k], productos, ids))
  }

  /** `reduce((sum, prod) => sum + prod.subtotalItem, 0)` */
  function SumaLineas(ls: seq<LineaResumen>): real {
    if ls == [] then 0.0 else SumaLineas(ls[..|ls| - 1]) + ls[|ls| - 1].subtotalItem
  }

  lemma LineasPrefijo(rs: seq<Id>, productos: map<Id, Producto>, ids: seq<Id>, i: nat)
    requires forall x :: x in rs ==> x in productos
    requires i < |rs|
    ensures Lineas(rs[..i + 1], productos, ids) == Lineas(rs[..i], productos, ids) + [Linea(rs[i], productos, ids)]
  {
  }

  /** One more resolved product adds its line's `subtotalItem` to the sum. */
  lemma SumaLineasAnexar(rs: seq<Id>, productos: map<Id, Producto>, ids: seq<Id>, i: nat)
    requires forall x :: x in rs ==> x in productos
    requires i < |rs|
    ensures SumaLineas(Lineas(rs[..i + 1], productos, ids)) ==
            SumaLineas(Lineas(rs[..i], productos, ids)) + Linea(rs[i], productos, ids).subtotalItem
  {
    LineasPrefijo(rs, productos, ids, i);
    var ls := Lineas(rs[..i + 1], productos, ids);
    assert ls[..|ls| - 1] == Lineas(rs[..i], productos, ids);
  }

  /** A cart line's server-side `subtotalItem` is its browser-side price times quantity. */
  lemma LineaDeCarrito(c: seq<Carrito.Item>, productos: map<Id, Producto>, k: nat)
    requires Carrito.Valido(c) && k < |c|
    requires c[k].id in productos && PrecioNumerico(productos[c[k].id]) == c[k].precio
    ensures Linea(c[k].id, productos, Carrito.Codificar(c)).subtotalItem == Carrito.Importe(c[k].precio, c[k].cantidad)
  {
    ContarCodificar(c, k);
  }

  lemma SubtotalPaso(c: seq<Carrito.Item>, i: nat)
    requires 0 < i <= |c|
    ensures Carrito.Subtotal(c[..i]) == Carrito.Subtotal(c[..i - 1]) + Carrito.Importe(c[i - 1].precio, c[i - 1].cantidad)
  {
    assert c[..i][..i - 1] == c[..i - 1];
  }

  lemma {:induction false} SubtotalPrefijo(c: seq<Carrito.Item>, productos: map<Id, Producto>, i: nat)
    requires Carrito.Valido(c) && i <= |c|
    requires forall k :: 0 <= k < |c| ==> c[k].id in productos && PrecioNumerico(productos[c[k].id]) == c[k].precio
    ensures SumaLineas(Lineas(IdsDe(c)[..i], productos, Carrito.Codificar(c))) == Carrito.Subtotal(c[..i])
  {
    if i > 0 {
      var k := i - 1;
      SubtotalPrefijo(c, productos, k);
      SumaLineasAnexar(IdsDe(c), productos, Carrito.Codificar(c), k);
      assert IdsDe(c)[..k + 1] == IdsDe(c)[..i];
      LineaDeCarrito(c, productos, k);
      SubtotalPaso(c, i);
    }
  }

  /**
   * For a cart whose prices match the stored products, the subtotal the server computes
   * from the submitted list equals the one the browser showed (`calcularSubtotal`).
   */
  lemma SubtotalCoincide(c: seq<Carrito.Item>, productos: map<Id, Producto>)
    requires Carrito.Valido(c)
    requires forall k :: 0 <= k < |c| ==> c[k].id in productos && PrecioNumerico(productos[c[k].id]) == c[k].precio
    ensures var e := Carrito.Codificar(c);
            SumaLineas(Lineas(Resueltos(Unicos(e), productos), productos, e)) == Carrito.Subtotal(c)
  {
    DecodificarCarrito(c, productos);
    SubtotalPrefijo(c, productos, |c|);
    assert IdsDe(c)[..|c|] == IdsDe(c);
    assert c[..|c|] == c;
  }

  /** The order line `crearPedido` stores for one unit of a product. */
  function LineaSnapshot(u: Id, p: Producto): LineaPedido {
    LineaPedido(u, Some(p.nombre), p.precio, p.imagen)
  }

  function Copias(l: LineaPedido, n: nat): (r: seq<LineaPedido>)
    ensures |r| == n && forall k :: 0 <= k < n ==> r[k] == l
  {
    if n == 0 then [] else Copias(l, n - 1) + [l]
  }

  /** `productosSnapshot`: `cantidad` copies of each resolved product's line, product by product. */
  function Snapshot(rs: seq<Id>, productos: map<Id, Producto>, ids: seq<Id>): seq<LineaPedido>
    requires forall x :: x in rs ==> x in productos
  {
    if rs == [] then []
    else
      var u := rs[|rs| - 1];
      Snapshot(rs[..|rs| - 1], productos, ids) + Copias(LineaSnapshot(u, productos[u]), Contar(ids, u))
  }

  /** The sum of the prices stored in order lines. */
  function SumaPrecios(ls: seq<LineaPedido>): real {
    if ls == [] then 0.0 else SumaPrecios(ls[..|ls| - 1]) + ls[|ls| - 1].precio.GetOr(0.0)
  }

  /** The snapshot has one line per unit: its length is the sum of the quantities. */
  lemma {:induction false} SnapshotLongitud(rs: seq<Id>, productos: map<Id, Producto>, ids: seq<Id>)
    requires forall x :: x in rs ==> x in productos
    ensures |Snapshot(rs, productos, ids)| == SumaConteos(rs, ids)
  {
    if rs != [] {
      SnapshotLongitud(rs[..|rs| - 1], productos, ids);
    }
  }

  lemma {:induction false} SumaPreciosConcatenar(a: seq<LineaPedido>, b: seq<LineaPedido>)
    ensures SumaPrecios(a + b) == SumaPrecios(a) + SumaPrecios(b)
    decreases |b|
  {
    if b == [] {
      assert a + b == a;
    } else {
      var b' := b[..|b| - 1];
      assert a + b == (a + b') + [b[|b| - 1]];
      assert (a + b)[..|a + b| - 1] == a + b';
      SumaPreciosConcatenar(a, b');
    }
  }

  lemma {:induction false} SumaPreciosCopias(l: LineaPedido, n: nat)
    ensures SumaPrecios(Copias(l, n)) == Carrito.Importe(l.precio.GetOr(0.0), n)
  {
    if n > 0 {
      var x := l.precio.GetOr(0.0);
      SumaPreciosCopias(l, n - 1);
      assert Copias(l, n)[..n - 1] == Copias(l, n - 1);
      assert SumaPrecios(Copias(l, n)) == SumaPrecios(Copias(l, n - 1)) + x;
      assert x * (n - 1) as real + x == x * n as real;
    }
  }

  /** The prices stored in the snapshot add up to the order's subtotal. */
  lemma {:induction false} SnapshotPrecios(rs: seq<Id>, productos: map<Id, Producto>, ids: seq<Id>)
    requires forall x :: x in rs ==> x in productos
    ensures SumaPrecios(Snapshot(rs, productos, ids)) == SumaLineas(Lineas(rs, productos, ids))
  {
    if rs != [] {
      var n := |rs| - 1;
      var u := rs[n];
      var p := rs[..n];
      SnapshotPrecios(p, productos, ids);
      SumaPreciosConcatenar(Snapshot(p, productos, ids), Copias(LineaSnapshot(u, productos[u]), Contar(ids, u)));
      SumaPreciosCopias(LineaSnapshot(u, productos[u]), Contar(ids, u));
      LineasPrefijo(rs, productos, ids, n);
      assert rs[..n + 1] == rs;
      var ls := Lineas(rs, productos, ids);
      assert ls[..|ls| - 1] == Lineas(p, productos, ids);
    }
  }

  /**
   * The two accumulations of `crearPedido`'s loop over the resolved products: the running
   * subtotal and, through the inner `for`, one snapshot line per unit.
   */
  method CalcularPedido(rs: seq<Id>, productos: map<Id, Producto>, ids: seq<Id>)
    returns (subtotal: real, snapshot: seq<LineaPedido>)
    requires forall x :: x in rs ==> x in productos
    ensures subtotal == SumaLineas(Lineas(rs, productos, ids))
    ensures snapshot == Snapshot(rs, productos, ids)
    ensures |snapshot| == SumaConteos(rs, ids) && SumaPrecios(snapshot) == subtotal
  {
    subtotal := 0.0;
    snapshot := [];
    var i := 0;
    while i < |rs|
      invariant 0 <= i <= |rs|
      invariant subtotal == SumaLineas(Lineas(rs[..i], productos, ids))
      invariant snapshot == Snapshot(rs[..i], productos, ids)
    {
      var u := rs[i];
      var producto := productos[u];
      var cantidad := Contar(ids, u);
      var subtotalItem := Carrito.Importe(PrecioNumerico(producto), cantidad);
      LineasPrefijo(rs, productos, ids, i);
      var ls := Lineas(rs[..i + 1], productos, ids);
      assert ls[..|ls| - 1] == Lineas(rs[..i], productos, ids);
      subtotal := subtotal + subtotalItem;
      var j := 0;
      while j < cantidad
        invariant 0 <= j <= cantidad
        invariant snapshot == Snapshot(rs[..i], productos, ids) + Copias(LineaSnapshot(u, producto), j)
      {
        snapshot := snapshot + [LineaSnapshot(u, producto)];
        j := j + 1;
      }
      assert rs[..i + 1][..i] == rs[..i];
      i := i + 1;
    }
    assert rs[..|rs|] == rs;
    SnapshotLongitud(rs, productos, ids);
    SnapshotPrecios(rs, productos, ids);
  }

  // ------------------------------------------------------------ seleccionarDireccion / restaurarCarrito

  /**
   * `req.body.productosIds`: a text to `JSON.parse` (`None` when it throws), an array, no
   * value at all or a raw `null`, or anything else.
   */
  datatype Carga = CTexto(parse: Option<Json>) | CLista(ids: seq<Id>) | CAusente | COtro

  /** What the address-selection page shows. */
  datatype Resumen = Resumen(
    lineas: seq<LineaResumen>,
    subtotal: real,
    tasa: real,
    valorItbis: real,
    total: real,
    productosIds: seq<Id>)

  datatype Seleccion = Seleccion(respuesta: Respuesta, sesion: Sesion, resumen: Option<Resumen>)

  /** The parsing step: a text is parsed, an array is taken as it is, anything else (a missing value too) is refused. */
  function Leer(carga: Carga): Option<Json> {
    match carga
    case CTexto(j) => j
    case CLista(ids) => Some(JLista(ids))
    case CAusente => None
    case COtro => None
  }

  /** `!idsArray || idsArray.length === 0` */
  predicate SinProductos(j: Json) {
    j == JNulo || j == JFalso || j == JLista([])
  }

  const VistaSeleccion := "cliente/seleccionar-direccion"

  /**
   * `seleccionarDireccion`. A list that cannot be read, or is empty, sends the client back to
   * the catalogue with nothing priced and the session untouched. Otherwise the cart is kept in
   * the session; a value that is not an array then fails (the handler's `catch` sends the
   * client home), a list none of whose ids has a product goes back to the catalogue, and the
   * rest is priced.
   */
  function SeleccionarDireccion(
    sesion: Sesion, comercioId: Id, carga: Carga,
    productos: map<Id, Producto>, config: Option<Configuracion>): (r: Seleccion)
    ensures Leer(carga).None? || SinProductos(Leer(carga).value) ==>
              r == Seleccion(RedirigirA("/cliente/catalogo/", comercioId), sesion, None)
    ensures r.resumen.Some? <==> r.respuesta == Vista(VistaSeleccion)
    ensures Leer(carga).Some? && !SinProductos(Leer(carga).value) ==>
              r.sesion == sesion.(carritoTemporal := Some(CarritoTemporal(comercioId, Leer(carga).value)))
    ensures Leer(carga).Some? && !SinProductos(Leer(carga).value) && !Leer(carga).value.JLista? ==>
              r.respuesta == Redirigir("/cliente/home") && r.resumen.None?
    ensures Leer(carga).Some? && Leer(carga).value.JLista? && !SinProductos(Leer(carga).value) &&
            Resueltos(Unicos(Leer(carga).value.ids), productos) == [] ==>
              r.respuesta == RedirigirA("/cliente/catalogo/", comercioId) && r.resumen.None?
    ensures r.resumen.Some? ==> Leer(carga).Some? && Leer(carga).value.JLista?
    ensures r.resumen.Some? && Leer(carga).Some? && Leer(carga).value.JLista? ==>
              var ids := Leer(carga).value.ids;
              var rs := Resueltos(Unicos(ids), productos);
              var res := r.resumen.value;
              && rs != []
              && |res.lineas| == |rs|
              && (forall k :: 0 <= k < |rs| ==> res.lineas[k].id == rs[k] && res.lineas[k].cantidad == Contar(ids, rs[k]))
              && res.subtotal == SumaLineas(res.lineas)
              && res.tasa == Precios.Tasa(config)
              && res.valorItbis == Precios.ValorItbis(res.subtotal, res.tasa)
              && res.total == Precios.Total(res.subtotal, res.tasa)
              && res.productosIds == ids
              && r.sesion == sesion.(carritoTemporal := Some(CarritoTemporal(comercioId, JLista(ids))))
  {
    match Leer(carga)
    case None => Seleccion(RedirigirA("/cliente/catalogo/", comercioId), sesion, None)
    case Some(j) =>
      if SinProductos(j) then Seleccion(RedirigirA("/cliente/catalogo/", comercioId), sesion, None)
      else
        var guardada := sesion.(carritoTemporal := Some(CarritoTemporal(comercioId, j)));
        match j
        case JLista(ids) =>
          var rs := Resueltos(Unicos(ids), productos);
          if rs == [] then Seleccion(RedirigirA("/cliente/catalogo/", comercioId), guardada, None)
          else
            var ls := Lineas(rs, productos, ids);
            var subtotal := SumaLineas(ls);
            var tasa := Precios.Tasa(config);
            var resumen := Resumen(ls, subtotal, tasa, Precios.ValorItbis(subtotal, tasa),
                                   Precios.Total(subtotal, tasa), ids);
            Seleccion(Vista(VistaSeleccion), guardada, Some(resumen))
        case _ => Seleccion(Redirigir("/cliente/home"), guardada, None)
  }

  /**
   * `restaurarCarrito`: with no cart in the session the client goes home with nothing priced;
   * otherwise the selection runs again on the stored merchant and list.
   */
  function RestaurarCarrito(sesion: Sesion, productos: map<Id, Producto>, config: Option<Configuracion>): (r: Seleccion)
    ensures sesion.carritoTemporal.None? ==> r == Seleccion(Redirigir("/cliente/home"), sesion, None)
    ensures sesion.carritoTemporal.Some? ==>
              var ct := sesion.carritoTemporal.value;
              r == SeleccionarDireccion(sesion, ct.comercioId, CTexto(Some(ct.productosIds)), productos, config)
  {
    match sesion.carritoTemporal
    case None => Seleccion(Redirigir("/cliente/home"), sesion, None)
    case Some(ct) => SeleccionarDireccion(sesion, ct.comercioId, CTexto(Some(ct.productosIds)), productos, config)
  }

  /**
   * Once a selection has stored the cart in the session, restoring it reproduces that
   * selection exactly: same response, same session, same prices.
   */
  lemma RestaurarRepite(sesion: Sesion, comercioId: Id, carga: Carga,
                        productos: map<Id, Producto>, config: Option<Configuracion>)
    requires Leer(carga).Some? && !SinProductos(Leer(carga).value)
    ensures var r := SeleccionarDireccion(sesion, comercioId, carga, productos, config);
            RestaurarCarrito(r.sesion, productos, config) == r
  {
    var r := SeleccionarDireccion(sesion, comercioId, carga, productos, config);
    var j := Leer(carga).value;
    assert r.sesion.carritoTemporal == Some(CarritoTemporal(comercioId, j));
    assert r.sesion.(carritoTemporal := Some(CarritoTemporal(comercioId, j))) == sesion.(carritoTemporal := Some(CarritoTemporal(comercioId, j)));
  }

  // ------------------------------------------------------------ crearPedido

  datatype Creacion = Creacion(respuesta: Respuesta, pedido: Option<Pedido>)

  /**
   * What `crearPedido` decides and, on success, the order it saves. `productosIds` is
   * `None` when the field is missing or empty and `Some(None)` when it does not parse.
   */
  function Crear(
    cliente: Id, comercioId: Option<Id>, productosIds: Option<Option<Json>>, direccionId: Option<Id>,
    productos: map<Id, Producto>, direcciones: map<Id, Direccion>, usuarios: map<Id, Usuario>,
    config: Option<Configuracion>, ahora: int): Creacion
  {
    if comercioId.None? || productosIds.None? || direccionId.None? then
      Creacion(Redirigir("/cliente/home"), None)
    else match productosIds.value
      case None => Creacion(Redirigir("/cliente/home"), None)
      case Some(j) =>
        if !j.JLista? || j.ids == [] then Creacion(Redirigir("/cliente/home"), None)
        else
          var ids := j.ids;
          var rs := Resueltos(Unicos(ids), productos);
          if rs == [] then Creacion(Redirigir("/cliente/home"), None)
          else if direccionId.value !in direcciones then Creacion(Redirigir("/cliente/direcciones"), None)
          else if comercioId.value !in usuarios then Creacion(Redirigir("/cliente/home"), None)
          else
            var subtotal := SumaLineas(Lineas(rs, productos, ids));
            var valorItbis := Precios.ValorItbis(subtotal, Precios.Tasa(config));
            var pedido := Pedido(cliente, comercioId, None, direccionId, Snapshot(rs, productos, ids),
                                 subtotal, Some(valorItbis), subtotal + valorItbis, Pendiente, ahora);
            if PedidoValido(pedido) then Creacion(Redirigir("/cliente/pedidos"), Some(pedido))
            else Creacion(Redirigir("/cliente/home"), None)
  }

  /**
   * `crearPedido` stores nothing when a field is missing, the list does not parse or is empty,
   * none of its ids has a product, or the address or the merchant does not exist; only the
   * missing address sends the client to the address list.
   */
  lemma CrearRechaza(
    cliente: Id, comercioId: Option<Id>, productosIds: Option<Option<Json>>, direccionId: Option<Id>,
    productos: map<Id, Producto>, direcciones: map<Id, Direccion>, usuarios: map<Id, Usuario>,
    config: Option<Configuracion>, ahora: int)
    ensures var r := Crear(cliente, comercioId, productosIds, direccionId, productos, direcciones, usuarios, config, ahora);
      && (comercioId.None? || productosIds.None? || direccionId.None? ==> r == Creacion(Redirigir("/cliente/home"), None))
      && (productosIds == Some(None) || productosIds == Some(Some(JLista([]))) ==> r == Creacion(Redirigir("/cliente/home"), None))
      && (productosIds.Some? && productosIds.value.Some? && productosIds.value.value.JLista? && Resueltos(Unicos(productosIds.value.value.ids), productos) == [] ==> r.pedido.None?)
      && (direccionId.Some? && direccionId.value !in direcciones ==> r.pedido.None?)
      && (comercioId.Some? && comercioId.value !in usuarios ==> r.pedido.None?)
      && (r.pedido.Some? <==> r.respuesta == Redirigir("/cliente/pedidos"))
  {
  }

  /**
   * The order `crearPedido` saves: pending, with no courier, for the session client, holding
   * one snapshot line per unit whose prices add up to the subtotal, the tax at the configured
   * rate and the total as subtotal plus tax.
   */
  lemma CrearPedidoNuevo(
    cliente: Id, comercioId: Option<Id>, productosIds: Option<Option<Json>>, direccionId: Option<Id>,
    productos: map<Id, Producto>, direcciones: map<Id, Direccion>, usuarios: map<Id, Usuario>,
    config: Option<Configuracion>, ahora: int)
    requires Crear(cliente, comercioId, productosIds, direccionId, productos, direcciones, usuarios, config, ahora).pedido.Some?
    ensures productosIds.Some? && productosIds.value.Some? && productosIds.value.value.JLista?
    ensures var r := Crear(cliente, comercioId, productosIds, direccionId, productos, direcciones, usuarios, config, ahora);
            var ids := productosIds.value.value.ids;
            var rs := Resueltos(Unicos(ids), productos);
            var p := r.pedido.value;
            && rs != [] && PedidoValido(p)
            && p.cliente == cliente && p.comercio == comercioId && p.direccion == direccionId
            && p.delivery.None? && p.estado == Pendiente && p.fechaPedido == ahora
            && p.productos == Snapshot(rs, productos, ids)
            && |p.productos| == SumaConteos(rs, ids)
            && p.subtotal == SumaPrecios(p.productos)
            && p.itbis == Some(Precios.ValorItbis(p.subtotal, Precios.Tasa(config)))
            && p.total == p.subtotal + p.itbis.value
  {
    var ids := productosIds.value.value.ids;
    var rs := Resueltos(Unicos(ids), productos);
    SnapshotLongitud(rs, productos, ids);
    SnapshotPrecios(rs, productos, ids);
  }

  /**
   * Neither the address's owner nor the merchant's role is consulted: an order is created for
   * any existing address and any existing user named as merchant.
   */
  lemma CrearNoCompruebaPropietarios(
    cliente: Id, comercioId: Id, ids: seq<Id>, direccionId: Id,
    productos: map<Id, Producto>, direcciones: map<Id, Direccion>, usuarios: map<Id, Usuario>,
    config: Option<Configuracion>, ahora: int)
    requires Resueltos(Unicos(ids), productos) != []
    requires direccionId in direcciones && direcciones[direccionId].cliente != cliente
    requires comercioId in usuarios && usuarios[comercioId].rol != Comercio
    requires forall x :: x in productos ==> PrecioNumerico(productos[x]) >= 0.0
    requires config.Some? ==> ConfiguracionValida(config.value)
    ensures Crear(cliente, Some(comercioId), Some(Some(JLista(ids))), Some(direccionId),
                  productos, direcciones, usuarios, config, ahora).pedido.Some?
  {
    var rs := Resueltos(Unicos(ids), productos);
    SubtotalNoNegativo(rs, productos, ids);
  }

  lemma {:induction false} SubtotalNoNegativo(rs: seq<Id>, productos: map<Id, Producto>, ids: seq<Id>)
    requires forall x :: x in rs ==> x in productos
    requires forall x :: x in productos ==> PrecioNumerico(productos[x]) >= 0.0
    ensures SumaLineas(Lineas(rs, productos, ids)) >= 0.0
  {
    if rs != [] {
      var n := |rs| - 1;
      SubtotalNoNegativo(rs[..n], productos, ids);
      LineasPrefijo(rs, productos, ids, n);
      assert rs[..n + 1] == rs;
      var ls := Lineas(rs, productos, ids);
      assert ls[..|ls| - 1] == Lineas(rs[..n], productos, ids);
    }
  }

  /**
   * `crearPedido`: the order `Crear` describes is saved under a fresh id and the session cart
   * is dropped; on any failure no order is stored and the session is kept.
   */
  method CrearPedido(
    db: Db.Base, sesion: Sesion,
    comercioId: Option<Id>, productosIds: Option<Option<Json>>, direccionId: Option<Id>,
    nuevoId: Id, ahora: int)
    returns (respuesta: Respuesta, nueva: Sesion)
    requires sesion.user.Some?
    requires nuevoId !in db.pedidos
    modifies db`pedidos
    ensures var c := Crear(sesion.user.value.id, comercioId, productosIds, direccionId,
                           old(db.productos), old(db.direcciones), old(db.usuarios),
                           old(db.PrimeraConfiguracion()), ahora);
            && respuesta == c.respuesta
            && db.pedidos == (if c.pedido.Some? then old(db.pedidos)[nuevoId := c.pedido.value] else old(db.pedidos))
            && nueva == (if c.pedido.Some? then sesion.(carritoTemporal := None) else sesion)
  {
    ghost var c := Crear(sesion.user.value.id, comercioId, productosIds, direccionId,
                         db.productos, db.direcciones, db.usuarios, db.PrimeraConfiguracion(), ahora);
    nueva := sesion;
    if comercioId.None? || productosIds.None? || direccionId.None? {
      assert c == Creacion(Redirigir("/cliente/home"), None);
      return Redirigir("/cliente/home"), sesion;
    }
    if productosIds.value.None? {
      assert c == Creacion(Redirigir("/cliente/home"), None);
      return Redirigir("/cliente/home"), sesion;
    }
    var j := productosIds.value.value;
    if !j.JLista? || j.ids == [] {
      assert c == Creacion(Redirigir("/cliente/home"), None);
      return Redirigir("/cliente/home"), sesion;
    }
    var ids := j.ids;
    var rs := Resueltos(Unicos(ids), db.productos);
    if rs == [] {
      assert c == Creacion(Redirigir("/cliente/home"), None);
      return Redirigir("/cliente/home"), sesion;
    }
    if direccionId.value !in db.direcciones {
      assert c == Creacion(Redirigir("/cliente/direcciones"), None);
      return Redirigir("/cliente/direcciones"), sesion;
    }
    if comercioId.value !in db.usuarios {
      assert c == Creacion(Redirigir("/cliente/home"), None);
      return Redirigir("/cliente/home"), sesion;
    }
    var subtotal, snapshot := CalcularPedido(rs, db.productos, ids);
    var config := db.PrimeraConfiguracion();
    var valorItbis := Precios.ValorItbis(subtotal, Precios.Tasa(config));
    var total := subtotal + valorItbis;
    var pedido := Pedido(sesion.user.value.id, comercioId, None, direccionId, snapshot,
                         subtotal, Some(valorItbis), total, Pendiente, ahora);
    if !PedidoValido(pedido) {
      assert c == Creacion(Redirigir("/cliente/home"), None);
      return Redirigir("/cliente/home"), sesion;
    }
    assert c == Creacion(Redirigir("/cliente/pedidos"), Some(pedido));
    var guardado := db.GuardarPedido(nuevoId, pedido);
    assert guardado;
    if sesion.carritoTemporal.Some? {
      nueva := sesion.(carritoTemporal := None);
    }
    respuesta := Redirigir("/cliente/pedidos");
  }

  // ------------------------------------------------------------ mostrarCatalogo

  const SinCategoria := "Sin categoría"

  /** The group a product falls in: its category's name, or "Sin categoría" when it has none. */
  function NombreCategoria(p: Producto, categorias: map<Id, Categoria>): string {
    if p.categoria.Some? && p.categoria.value in categorias then categorias[p.categoria.value].nombre
    else SinCategoria
  }

  /** The products of `ps` in group `nombre`, in their order. */
  function DeCategoria(ps: seq<Producto>, categorias: map<Id, Categoria>, nombre: string): (r: seq<Producto>)
    ensures r == [] <==> forall j :: 0 <= j < |ps| ==> NombreCategoria(ps[j], categorias) != nombre
  {
    if ps == [] then []
    else
      var p := ps[..|ps| - 1];
      var q := DeCategoria(p, categorias, nombre);
      assert forall j :: 0 <= j < |p| ==> p[j] == ps[j];
      if NombreCategoria(ps[|ps| - 1], categorias) == nombre then q + [ps[|ps| - 1]] else q
  }

  lemma DeCategoriaAnexar(ps: seq<Producto>, categorias: map<Id, Categoria>, i: nat, nombre: string)
    requires i < |ps|
    ensures DeCategoria(ps[..i + 1], categorias, nombre) ==
            DeCategoria(ps[..i], categorias, nombre) + (if NombreCategoria(ps[i], categorias) == nombre then [ps[i]] else [])
  {
    assert ps[..i + 1][..i] == ps[..i];
  }

  /** `grupos` holds one non-empty group per category name of `qs`, each that name's products in order. */
  ghost predicate Agrupa(grupos: map<string, seq<Producto>>, qs: seq<Producto>, categorias: map<Id, Categoria>) {
    && (forall k :: k in grupos ==> grupos[k] == DeCategoria(qs, categorias, k) && grupos[k] != [])
    && (forall k :: k !in grupos ==> DeCategoria(qs, categorias, k) == [])
  }

  /** Appending product `ps[i]` to the group of its category keeps the grouping exact. */
  lemma AgrupaAnexar(grupos: map<string, seq<Producto>>, ps: seq<Producto>, categorias: map<Id, Categoria>, i: nat)
    requires i < |ps| && Agrupa(grupos, ps[..i], categorias)
    ensures var nombre := NombreCategoria(ps[i], categorias);
            Agrupa(grupos[nombre := (if nombre in grupos then grupos[nombre] else []) + [ps[i]]], ps[..i + 1], categorias)
  {
    var nombre := NombreCategoria(ps[i], categorias);
    var nuevos := grupos[nombre := (if nombre in grupos then grupos[nombre] else []) + [ps[i]]];
    forall k
      ensures k in nuevos ==> nuevos[k] == DeCategoria(ps[..i + 1], categorias, k) && nuevos[k] != []
      ensures k !in nuevos ==> DeCategoria(ps[..i + 1], categorias, k) == []
    {
      DeCategoriaAnexar(ps, categorias, i, k);
      if k != nombre {
        assert (k in nuevos) == (k in grupos);
      }
    }
  }

  /**
   * The names every plain object `{}` inherits from `Object.prototype`. Reading one of them
   * from the grouping object gives a truthy value that has no `push`.
   */
  const PropiedadesHeredadas: set<string> :=
    {"constructor", "__proto__", "__defineGetter__", "__defineSetter__", "__lookupGetter__",
     "__lookupSetter__", "hasOwnProperty", "isPrototypeOf", "propertyIsEnumerable",
     "toLocaleString", "toString", "valueOf"}

  /** Some product of `ps` falls in a group whose name the grouping object inherits. */
  predicate RompeCatalogo(ps: seq<Producto>, categorias: map<Id, Categoria>) {
    exists j :: 0 <= j < |ps| && NombreCategoria(ps[j], categorias) in PropiedadesHeredadas
  }

  /** A prefix that breaks the catalogue breaks the whole list. */
  lemma RompeCatalogoExtiende(ps: seq<Producto>, categorias: map<Id, Categoria>, i: nat)
    requires i <= |ps| && RompeCatalogo(ps[..i], categorias)
    ensures RompeCatalogo(ps, categorias)
  {
    var j :| 0 <= j < i && NombreCategoria(ps[..i][j], categorias) in PropiedadesHeredadas;
    assert ps[..i][j] == ps[j];
  }

  /** A product whose group name is not inherited extends a prefix that does not break. */
  lemma RompeCatalogoAnexar(ps: seq<Producto>, categorias: map<Id, Categoria>, i: nat)
    requires i < |ps| && !RompeCatalogo(ps[..i], categorias)
    requires NombreCategoria(ps[i], categorias) !in PropiedadesHeredadas
    ensures !RompeCatalogo(ps[..i + 1], categorias)
  {
    var q := ps[..i + 1];
    forall j | 0 <= j < |q|
      ensures NombreCategoria(q[j], categorias) !in PropiedadesHeredadas
    {
      if j < i {
        assert q[j] == ps[..i][j];
      }
    }
  }

  /**
   * The grouping loop of `mostrarCatalogo` over the merchant's products (already in category
   * order), as written on a plain object: when some product's group name is inherited from
   * `Object.prototype`, the `push` on the inherited value throws and the handler's `catch`
   * sends the client home (`None`). Otherwise there is one group per name that occurs, each
   * holding exactly that name's products in order.
   */
  method AgruparPorCategoria(ps: seq<Producto>, categorias: map<Id, Categoria>)
    returns (grupos: Option<map<string, seq<Producto>>>)
    ensures grupos.None? <==> RompeCatalogo(ps, categorias)
    ensures grupos.Some? ==>
              && (forall k :: k in grupos.value <==> exists j :: 0 <= j < |ps| && NombreCategoria(ps[j], categorias) == k)
              && (forall k :: k in grupos.value ==> grupos.value[k] == DeCategoria(ps, categorias, k))
  {
    var g: map<string, seq<Producto>> := map[];
    var i := 0;
    while i < |ps|
      invariant 0 <= i <= |ps|
      invariant Agrupa(g, ps[..i], categorias)
      invariant !RompeCatalogo(ps[..i], categorias)
    {
      var nombre := NombreCategoria(ps[i], categorias);
      if nombre in PropiedadesHeredadas {
        assert ps[..i + 1][i] == ps[i];
        RompeCatalogoExtiende(ps, categorias, i + 1);
        return None;
      }
      RompeCatalogoAnexar(ps, categorias, i);
      AgrupaAnexar(g, ps, categorias, i);
      g := g[nombre := (if nombre in g then g[nombre] else []) + [ps[i]]];
      i := i + 1;
    }
    assert ps[..|ps|] == ps;
    return Some(g);
  }

  /** A merchant with a category named "constructor" has a catalogue no client can open. */
  lemma CategoriaConstructorRompe(ps: seq<Producto>, categorias: map<Id, Categoria>, j: nat)
    requires j < |ps| && ps[j].categoria.Some? && ps[j].categoria.value in categorias
    requires categorias[ps[j].categoria.value].nombre == "constructor"
    ensures RompeCatalogo(ps, categorias)
  {
    assert NombreCategoria(ps[j], categorias) in PropiedadesHeredadas;
  }

  /**
   * The grouping as intended, on a table with no inherited entries (an object made with
   * `Object.create(null)`, or a `Map`): every catalogue groups, whatever its category names.
   */
  method Agrupar(ps: seq<Producto>, categorias: map<Id, Categoria>)
    returns (grupos: map<string, seq<Producto>>)
    ensures forall k :: k in grupos <==> exists j :: 0 <= j < |ps| && NombreCategoria(ps[j], categorias) == k
    ensures forall k :: k in grupos ==> grupos[k] == DeCategoria(ps, categorias, k)
  {
    grupos := map[];
    var i := 0;
    while i < |ps|
      invariant 0 <= i <= |ps|
      invariant Agrupa(grupos, ps[..i], categorias)
    {
      var nombre := NombreCategoria(ps[i], categorias);
      AgrupaAnexar(grupos, ps, categorias, i);
      grupos := grupos[nombre := (if nombre in grupos then grupos[nombre] else []) + [ps[i]]];
      i := i + 1;
    }
    assert ps[..|ps|] == ps;
  }
}
