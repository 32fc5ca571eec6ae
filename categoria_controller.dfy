/**
 * controllers/categoriaController.js: a merchant's product categories. Lookups, updates and
 * deletes are filtered by the session merchant; the list shows how many products reference
 * each category; a category's (nombre, comercio) pair is unique (models/Categoria.js).
 */
module CategoriaController {
  import opened Wrappers
  import opened Modelos
  import opened Http
  import opened Texto
  import Db
  import Propios

  /** The owner of a category. */
  function DeComercio(c: Categoria): Option<Id> {
    Some(c.comercio)
  }

  /** `Producto.countDocuments({categoria})`: the products that reference the category. */
  function ProductosDe(productos: map<Id, Producto>, categoria: Id): (r: set<Id>)
    ensures forall q :: q in r <==> q in productos && productos[q].categoria == Some(categoria)
  {
    set q | q in productos && productos[q].categoria == Some(categoria)
  }

  /**
   * `listar`: each of the session merchant's categories with the number of products that
   * reference it. Without a session user the lookup throws and the merchant is sent home.
   */
  function Listar(categorias: map<Id, Categoria>, productos: map<Id, Producto>, usuario: Option<UsuarioSesion>)
    : (r: Propios.Conteos)
    ensures usuario.None? ==> r == Propios.Conteos(Redirigir("/comercio/home"), map[])
    ensures usuario.Some? ==>
              && r.respuesta == Vista("comercio/categorias/index")
              && (forall q :: q in r.cantidades <==> q in categorias && categorias[q].comercio == usuario.value.id)
              && (forall q :: q in r.cantidades ==> r.cantidades[q] == |ProductosDe(productos, q)|)
  {
    match usuario
    case None => Propios.Conteos(Redirigir("/comercio/home"), map[])
    case Some(u) =>
      Propios.Conteos(Vista("comercio/categorias/index"),
                      map q | q in Propios.DeDueno(categorias, DeComercio, u.id) :: |ProductosDe(productos, q)|)
  }

  /** A new product raises the count of its own category by one and leaves the other counts alone. */
  lemma ProductoNuevoCuenta(productos: map<Id, Producto>, nuevoId: Id, p: Producto, categoria: Id)
    requires nuevoId !in productos
    ensures p.categoria == Some(categoria) ==>
              |ProductosDe(productos[nuevoId := p], categoria)| == |ProductosDe(productos, categoria)| + 1
    ensures p.categoria != Some(categoria) ==>
              ProductosDe(productos[nuevoId := p], categoria) == ProductosDe(productos, categoria)
  {
    if p.categoria == Some(categoria) {
      assert ProductosDe(productos[nuevoId := p], categoria) == ProductosDe(productos, categoria) + {nuevoId};
    }
  }

  /** Another of the merchant's categories already has this (trimmed) name. */
  predicate NombreOcupado(categorias: map<Id, Categoria>, id: Id, comercio: Id, nombre: string) {
    exists o :: o in categorias && o != id && categorias[o].comercio == comercio && categorias[o].nombre == nombre
  }

  /** The category `crear` builds for merchant `comercio`: both text fields are required and trimmed. */
  function NuevaCategoria(nombre: Option<string>, descripcion: Option<string>, comercio: Id): (r: Option<Categoria>)
    ensures r.Some? <==> Requerido(nombre).Some? && Requerido(descripcion).Some?
    ensures r.Some? ==>
              && r.value.comercio == comercio && r.value.nombre != [] && r.value.descripcion != []
              && r.value.nombre == Recortar(nombre.value) && r.value.descripcion == Recortar(descripcion.value)
  {
    if Requerido(nombre).Some? && Requerido(descripcion).Some? then
      Some(Categoria(Requerido(nombre).value, Requerido(descripcion).value, comercio))
    else None
  }

  /** Inserting a category whose name the merchant does not use yet keeps the index unique. */
  lemma InsertarConservaUnicas(categorias: map<Id, Categoria>, nuevoId: Id, c: Categoria)
    requires CategoriasUnicas(categorias)
    requires nuevoId !in categorias
    requires !NombreOcupado(categorias, nuevoId, c.comercio, c.nombre)
    ensures CategoriasUnicas(categorias[nuevoId := c])
  {
  }

  /**
   * `crear`: the category is stored with the session merchant as its owner. A missing field,
   * a name the merchant already uses, or a missing session user stores nothing and goes back
   * to the form.
   */
  method Crear(db: Db.Base, sesion: Sesion, nombre: Option<string>, descripcion: Option<string>, nuevoId: Id)
    returns (respuesta: Respuesta)
    requires nuevoId !in db.categorias
    modifies db`categorias
    ensures sesion.user.None? ==>
              db.categorias == old(db.categorias) && respuesta == Redirigir("/comercio/categorias/crear")
    ensures sesion.user.Some? ==>
              var c := NuevaCategoria(nombre, descripcion, sesion.user.value.id);
              if c.Some? && !NombreOcupado(old(db.categorias), nuevoId, c.value.comercio, c.value.nombre) then
                db.categorias == old(db.categorias)[nuevoId := c.value] && respuesta == Redirigir("/comercio/categorias")
              else
                db.categorias == old(db.categorias) && respuesta == Redirigir("/comercio/categorias/crear")
    ensures CategoriasUnicas(old(db.categorias)) ==> CategoriasUnicas(db.categorias)
  {
    if sesion.user.None? {
      return Redirigir("/comercio/categorias/crear");
    }
    var c := NuevaCategoria(nombre, descripcion, sesion.user.value.id);
    if c.None? || NombreOcupado(db.categorias, nuevoId, c.value.comercio, c.value.nombre) {
      return Redirigir("/comercio/categorias/crear");
    }
    if CategoriasUnicas(db.categorias) {
      InsertarConservaUnicas(db.categorias, nuevoId, c.value);
    }
    db.categorias := db.categorias[nuevoId := c.value];
    respuesta := Redirigir("/comercio/categorias");
  }

  /** `mostrarEditar` and `mostrarEliminar`: the form for one of the session merchant's categories. */
  function MostrarFormulario(categorias: map<Id, Categoria>, usuario: Option<UsuarioSesion>, id: Id, vista: string)
    : (r: Respuesta)
    ensures r == Vista(vista) <==> usuario.Some? && id in categorias && categorias[id].comercio == usuario.value.id
    ensures r != Vista(vista) ==> r == Redirigir("/comercio/categorias")
  {
    Propios.Formulario(categorias, DeComercio, usuario, id, vista, "/comercio/categorias")
  }

  /** A category after `editar`'s update document: each field sent replaces the stored one, trimmed. */
  function Cambiada(c: Categoria, nombre: Option<string>, descripcion: Option<string>): (r: Categoria)
    ensures r.comercio == c.comercio
    ensures r.nombre == (if nombre.Some? then Recortar(nombre.value) else c.nombre)
    ensures r.descripcion == (if descripcion.Some? then Recortar(descripcion.value) else c.descripcion)
  {
    c.(nombre := if nombre.Some? then Recortar(nombre.value) else c.nombre,
       descripcion := if descripcion.Some? then Recortar(descripcion.value) else c.descripcion)
  }

  /** The update would give the merchant two categories of the same name, which the index refuses. */
  predicate ChocaEdicion(categorias: map<Id, Categoria>, id: Id, comercio: Id, nombre: Option<string>) {
    Propios.EsDe(categorias, DeComercio, id, comercio) && nombre.Some? &&
    NombreOcupado(categorias, id, comercio, Recortar(nombre.value))
  }

  /**
   * The table after `editar`'s `findOneAndUpdate({_id, comercio}, {nombre, descripcion})`:
   * only a category of `comercio` changes, and an update the name index refuses changes
   * nothing. The update runs no validators, so a blank value is stored as sent.
   */
  function Editadas(categorias: map<Id, Categoria>, id: Id, comercio: Id,
                    nombre: Option<string>, descripcion: Option<string>): (r: map<Id, Categoria>)
    ensures Propios.SoloFila(categorias, r, DeComercio, id, comercio)
    ensures ChocaEdicion(categorias, id, comercio, nombre) ==> r == categorias
    ensures Propios.EsDe(categorias, DeComercio, id, comercio) && !ChocaEdicion(categorias, id, comercio, nombre) ==>
              r[id] == Cambiada(categorias[id], nombre, descripcion)
  {
    if Propios.EsDe(categorias, DeComercio, id, comercio) && !ChocaEdicion(categorias, id, comercio, nombre) then
      categorias[id := Cambiada(categorias[id], nombre, descripcion)]
    else categorias
  }

  /** The name index survives every edit: a clashing name is refused and any other keeps names distinct. */
  lemma EditarConservaUnicas(categorias: map<Id, Categoria>, id: Id, comercio: Id,
                             nombre: Option<string>, descripcion: Option<string>)
    requires CategoriasUnicas(categorias)
    ensures CategoriasUnicas(Editadas(categorias, id, comercio, nombre, descripcion))
  {
    var r := Editadas(categorias, id, comercio, nombre, descripcion);
    if r != categorias {
      forall a, b | a in r && b in r && a != b
        ensures r[a].nombre != r[b].nombre || r[a].comercio != r[b].comercio
      {
        if a == id || b == id {
          assert !NombreOcupado(categorias, id, comercio, r[id].nombre) || nombre.None?;
        }
      }
    }
  }

  /**
   * `editar`: the update of an own category. A refused update, or a missing session user,
   * goes back to the edit form.
   */
  method Editar(db: Db.Base, sesion: Sesion, id: Id, nombre: Option<string>, descripcion: Option<string>)
    returns (respuesta: Respuesta)
    modifies db`categorias
    ensures sesion.user.None? ==>
              db.categorias == old(db.categorias) && respuesta == RedirigirA("/comercio/categorias/editar/", id)
    ensures sesion.user.Some? ==>
              && db.categorias == Editadas(old(db.categorias), id, sesion.user.value.id, nombre, descripcion)
              && respuesta == if ChocaEdicion(old(db.categorias), id, sesion.user.value.id, nombre)
                              then RedirigirA("/comercio/categorias/editar/", id)
                              else Redirigir("/comercio/categorias")
  {
    if sesion.user.None? {
      return RedirigirA("/comercio/categorias/editar/", id);
    }
    var choca := ChocaEdicion(db.categorias, id, sesion.user.value.id, nombre);
    db.categorias := Editadas(db.categorias, id, sesion.user.value.id, nombre, descripcion);
    respuesta := if choca then RedirigirA("/comercio/categorias/editar/", id) else Redirigir("/comercio/categorias");
  }

  /** `eliminar`: the delete of an own category; its products are left in place. */
  method Eliminar(db: Db.Base, sesion: Sesion, id: Id) returns (respuesta: Respuesta)
    modifies db`categorias
    ensures respuesta == Redirigir("/comercio/categorias")
    ensures sesion.user.None? ==> db.categorias == old(db.categorias)
    ensures sesion.user.Some? ==> db.categorias == Propios.Borrado(old(db.categorias), DeComercio, id, sesion.user.value.id)
  {
    if sesion.user.Some? {
      db.categorias := Propios.Borrado(db.categorias, DeComercio, id, sesion.user.value.id);
    }
    respuesta := Redirigir("/comercio/categorias");
  }

  /**
   * Deleting a category does not delete its products: they keep referencing an id that is no
   * longer a category.
   */
  lemma EliminarDejaProductos(categorias: map<Id, Categoria>, productos: map<Id, Producto>, id: Id, comercio: Id)
    requires id in categorias && categorias[id].comercio == comercio
    ensures id !in Propios.Borrado(categorias, DeComercio, id, comercio)
    ensures forall q :: q in ProductosDe(productos, id) ==> q in productos && productos[q].categoria == Some(id)
  {
  }

  /** Neither editing nor deleting can reach another merchant's categories. */
  lemma OtrosComerciosIntactos(categorias: map<Id, Categoria>, id: Id, comercio: Id, otro: Id,
                               nombre: Option<string>, descripcion: Option<string>)
    requires otro != comercio
    ensures Propios.DeDueno(Editadas(categorias, id, comercio, nombre, descripcion), DeComercio, otro)
         == Propios.DeDueno(categorias, DeComercio, otro)
    ensures Propios.DeDueno(Propios.Borrado(categorias, DeComercio, id, comercio), DeComercio, otro)
         == Propios.DeDueno(categorias, DeComercio, otro)
    ensures forall q :: q in categorias && categorias[q].comercio == otro ==>
              Editadas(categorias, id, comercio, nombre, descripcion)[q] == categorias[q]
  {
    Propios.ActualizarAislado(categorias, Editadas(categorias, id, comercio, nombre, descripcion), DeComercio, id, comercio, otro);
    Propios.BorrarAislado(categorias, DeComercio, id, comercio, otro);
  }
}
