/**
 * controllers/productoController.js: a merchant's products. Lookups, updates and deletes are
 * filtered by the session merchant; a new product is saved only when it meets the schema of
 * models/Producto.js.
 */
module ProductoController {
  import opened Wrappers
  import opened Modelos
  import opened Http
  import opened Texto
  import Db
  import Propios
  import CategoriaController

  /** The owner of a product. */
  function DeComercio(p: Producto): Option<Id> {
    p.comercio
  }

  /** `listar`: the session merchant's products. */
  function Listar(productos: map<Id, Producto>, usuario: Option<UsuarioSesion>): (r: Propios.Pagina)
    ensures usuario.None? ==> r.respuesta == Redirigir("/comercio/home") && r.filas == {}
    ensures usuario.Some? ==>
              && r.respuesta == Vista("comercio/productos/index")
              && forall q :: q in r.filas <==> q in productos && productos[q].comercio == Some(usuario.value.id)
  {
    Propios.Listar(productos, DeComercio, usuario, "comercio/productos/index", "/comercio/home")
  }

  /** `mostrarCrear`: the form lists the session merchant's categories to choose from. */
  function MostrarCrear(categorias: map<Id, Categoria>, usuario: Option<UsuarioSesion>): (r: Propios.Pagina)
    ensures usuario.None? ==> r.respuesta == Redirigir("/comercio/productos") && r.filas == {}
    ensures usuario.Some? ==>
              && r.respuesta == Vista("comercio/productos/crear")
              && forall q :: q in r.filas <==> q in categorias && categorias[q].comercio == usuario.value.id
  {
    Propios.Listar(categorias, CategoriaController.DeComercio, usuario, "comercio/productos/crear", "/comercio/productos")
  }

  /**
   * The product `crear` builds for merchant `comercio` and whether its save passes: the text
   * fields are required and trimmed, the price must be a number no less than zero, the image
   * is the uploaded file and the category is required. The category is not checked to be one
   * of the merchant's own.
   */
  function NuevoProducto(nombre: Option<string>, descripcion: Option<string>, precio: Entrada,
                         categoria: Option<Id>, archivo: Option<string>, comercio: Id): (r: Option<Producto>)
    ensures r.Some? <==>
              && Requerido(nombre).Some? && Requerido(descripcion).Some?
              && precio.Numero? && precio.valor >= 0.0
              && archivo.Some? && categoria.Some?
    ensures r.Some? ==>
              && ProductoValido(r.value)
              && r.value.comercio == Some(comercio) && r.value.categoria == categoria
              && r.value.precio == Some(precio.valor) && r.value.imagen == Some("/uploads/" + archivo.value)
              && r.value.nombre == Recortar(nombre.value) && r.value.descripcion == Recortar(descripcion.value)
  {
    if && Requerido(nombre).Some? && Requerido(descripcion).Some?
       && precio.Numero? && precio.valor >= 0.0
       && archivo.Some? && categoria.Some?
    then Some(Producto(Requerido(nombre).value, Requerido(descripcion).value, Some(precio.valor),
                       Some("/uploads/" + archivo.value), categoria, Some(comercio)))
    else None
  }

  /**
   * `crear`: the product is stored with the session merchant as its owner. A failed save, or
   * a missing session user, stores nothing and goes back to the form.
   */
  method Crear(db: Db.Base, sesion: Sesion, nombre: Option<string>, descripcion: Option<string>, precio: Entrada,
               categoria: Option<Id>, archivo: Option<string>, nuevoId: Id)
    returns (respuesta: Respuesta)
    requires nuevoId !in db.productos
    modifies db`productos
    ensures sesion.user.None? ==>
              db.productos == old(db.productos) && respuesta == Redirigir("/comercio/productos/crear")
    ensures sesion.user.Some? ==>
              var p := NuevoProducto(nombre, descripcion, precio, categoria, archivo, sesion.user.value.id);
              && (p.None? ==> db.productos == old(db.productos) && respuesta == Redirigir("/comercio/productos/crear"))
              && (p.Some? ==> db.productos == old(db.productos)[nuevoId := p.value] && respuesta == Redirigir("/comercio/productos"))
  {
    if sesion.user.None? {
      return Redirigir("/comercio/productos/crear");
    }
    var p := NuevoProducto(nombre, descripcion, precio, categoria, archivo, sesion.user.value.id);
    if p.None? {
      return Redirigir("/comercio/productos/crear");
    }
    db.productos := db.productos[nuevoId := p.value];
    respuesta := Redirigir("/comercio/productos");
  }

  /**
   * A created product shows up on its merchant's list, and the product count of its category
   * on the category list grows by one.
   */
  lemma CrearApareceEnListados(productos: map<Id, Producto>, nuevoId: Id, u: UsuarioSesion,
                               nombre: Option<string>, descripcion: Option<string>, precio: Entrada,
                               categoria: Option<Id>, archivo: Option<string>)
    requires nuevoId !in productos
    requires NuevoProducto(nombre, descripcion, precio, categoria, archivo, u.id).Some?
    ensures var nuevos := productos[nuevoId := NuevoProducto(nombre, descripcion, precio, categoria, archivo, u.id).value];
            && nuevoId in Listar(nuevos, Some(u)).filas
            && |CategoriaController.ProductosDe(nuevos, categoria.value)|
               == |CategoriaController.ProductosDe(productos, categoria.value)| + 1
  {
    var p := NuevoProducto(nombre, descripcion, precio, categoria, archivo, u.id).value;
    CategoriaController.ProductoNuevoCuenta(productos, nuevoId, p, categoria.value);
  }

  /** `mostrarEditar` and `mostrarEliminar`: the form for one of the session merchant's products. */
  function MostrarFormulario(productos: map<Id, Producto>, usuario: Option<UsuarioSesion>, id: Id, vista: string)
    : (r: Respuesta)
    ensures r == Vista(vista) <==> usuario.Some? && id in productos && productos[id].comercio == Some(usuario.value.id)
    ensures r != Vista(vista) ==> r == Redirigir("/comercio/productos")
  {
    Propios.Formulario(productos, DeComercio, usuario, id, vista, "/comercio/productos")
  }

  /**
   * A product after `editar`'s update document: each field sent replaces the stored one (the
   * text trimmed by its setter, an empty price text cast to a null price), and the image
   * changes only when a file was uploaded. The update runs no validators.
   */
  function Cambiado(p: Producto, nombre: Option<string>, descripcion: Option<string>, precio: Entrada,
                    categoria: Option<Id>, archivo: Option<string>): (r: Producto)
    requires !precio.NoNumerico?
    ensures r.comercio == p.comercio
    ensures r.nombre == (if nombre.Some? then Recortar(nombre.value) else p.nombre)
    ensures r.descripcion == (if descripcion.Some? then Recortar(descripcion.value) else p.descripcion)
    ensures precio.Numero? ==> r.precio == Some(precio.valor)
    ensures precio.Vacia? ==> r.precio == None
    ensures precio.Ausente? ==> r.precio == p.precio
    ensures r.categoria == (if categoria.Some? then categoria else p.categoria)
    ensures archivo.None? ==> r.imagen == p.imagen
    ensures archivo.Some? ==> r.imagen == Some("/uploads/" + archivo.value)
  {
    p.(nombre := if nombre.Some? then Recortar(nombre.value) else p.nombre,
       descripcion := if descripcion.Some? then Recortar(descripcion.value) else p.descripcion,
       precio := match precio
                 case Numero(v) => Some(v)
                 case Vacia => None
                 case _ => p.precio,
       categoria := if categoria.Some? then categoria else p.categoria,
       imagen := if archivo.Some? then Some("/uploads/" + archivo.value) else p.imagen)
  }

  /** The table after `editar`'s `findOneAndUpdate({_id, comercio}, ...)`: only a product of `comercio` changes. */
  function Editados(productos: map<Id, Producto>, id: Id, comercio: Id, nombre: Option<string>, descripcion: Option<string>,
                    precio: Entrada, categoria: Option<Id>, archivo: Option<string>): (r: map<Id, Producto>)
    requires !precio.NoNumerico?
    ensures Propios.SoloFila(productos, r, DeComercio, id, comercio)
    ensures Propios.EsDe(productos, DeComercio, id, comercio) ==>
              r[id] == Cambiado(productos[id], nombre, descripcion, precio, categoria, archivo)
  {
    if Propios.EsDe(productos, DeComercio, id, comercio) then
      productos[id := Cambiado(productos[id], nombre, descripcion, precio, categoria, archivo)]
    else productos
  }

  /**
   * `editar`: the update of an own product. A price text that does not cast to a number
   * (other than the empty text, which casts to null), or a missing session user, makes the
   * handler throw before anything is written, and it goes back to the edit form.
   */
  method Editar(db: Db.Base, sesion: Sesion, id: Id, nombre: Option<string>, descripcion: Option<string>,
                precio: Entrada, categoria: Option<Id>, archivo: Option<string>)
    returns (respuesta: Respuesta)
    modifies db`productos
    ensures sesion.user.None? || precio.NoNumerico? ==>
              db.productos == old(db.productos) && respuesta == RedirigirA("/comercio/productos/editar/", id)
    ensures sesion.user.Some? && !precio.NoNumerico? ==>
              && db.productos == Editados(old(db.productos), id, sesion.user.value.id, nombre, descripcion, precio, categoria, archivo)
              && respuesta == Redirigir("/comercio/productos")
  {
    if sesion.user.None? || precio.NoNumerico? {
      return RedirigirA("/comercio/productos/editar/", id);
    }
    db.productos := Editados(db.productos, id, sesion.user.value.id, nombre, descripcion, precio, categoria, archivo);
    respuesta := Redirigir("/comercio/productos");
  }

  /**
   * An edit is not validated, so it can store what `crear` refuses: a negative price and a
   * blank name, or a product without a price.
   */
  lemma EditarSinValidar(productos: map<Id, Producto>, id: Id, comercio: Id)
    requires Propios.EsDe(productos, DeComercio, id, comercio)
    ensures var r := Editados(productos, id, comercio, Some(" "), None, Numero(-1.0), None, None);
            && r[id].precio == Some(-1.0) && r[id].nombre == []
            && !ProductoValido(r[id])
    ensures var r := Editados(productos, id, comercio, None, None, Vacia, None, None);
            && r[id].precio == None && PrecioNumerico(r[id]) == 0.0
            && !ProductoValido(r[id])
            && forall n, d, c, a :: NuevoProducto(n, d, Vacia, c, a, comercio).None?
  {
    assert Recortar(" ") == [] by {
      RecortarVacio(" ");
    }
  }

  /** `eliminar`: the delete of an own product. */
  method Eliminar(db: Db.Base, sesion: Sesion, id: Id) returns (respuesta: Respuesta)
    modifies db`productos
    ensures respuesta == Redirigir("/comercio/productos")
    ensures sesion.user.None? ==> db.productos == old(db.productos)
    ensures sesion.user.Some? ==> db.productos == Propios.Borrado(old(db.productos), DeComercio, id, sesion.user.value.id)
  {
    if sesion.user.Some? {
      db.productos := Propios.Borrado(db.productos, DeComercio, id, sesion.user.value.id);
    }
    respuesta := Redirigir("/comercio/productos");
  }

  /** Neither editing nor deleting can reach another merchant's products. */
  lemma OtrosComerciosIntactos(productos: map<Id, Producto>, id: Id, comercio: Id, otro: Id,
                               nombre: Option<string>, descripcion: Option<string>, precio: Entrada,
                               categoria: Option<Id>, archivo: Option<string>)
    requires otro != comercio
    requires !precio.NoNumerico?
    ensures Propios.DeDueno(Editados(productos, id, comercio, nombre, descripcion, precio, categoria, archivo), DeComercio, otro)
         == Propios.DeDueno(productos, DeComercio, otro)
    ensures Propios.DeDueno(Propios.Borrado(productos, DeComercio, id, comercio), DeComercio, otro)
         == Propios.DeDueno(productos, DeComercio, otro)
    ensures forall q :: q in productos && productos[q].comercio == Some(otro) ==>
              Editados(productos, id, comercio, nombre, descripcion, precio, categoria, archivo)[q] == productos[q]
  {
    var r := Editados(productos, id, comercio, nombre, descripcion, precio, categoria, archivo);
    Propios.ActualizarAislado(productos, r, DeComercio, id, comercio, otro);
    Propios.BorrarAislado(productos, DeComercio, id, comercio, otro);
  }
}
