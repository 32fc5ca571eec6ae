/**
 * controllers/tipoComercioController.js: the administrator's business types. The list shows
 * how many merchants have each type, the type's name is unique (models/TipoComercio.js), and
 * deleting a type first deletes every merchant account of that type.
 */
module TipoComercioController {
  import opened Wrappers
  import opened Modelos
  import opened Http
  import opened Texto
  import Db
  import Propios

  /** `Usuario.countDocuments({rol: 'comercio', tipoComercio: tipo})`: the merchant accounts of the type. */
  function ComerciosDe(usuarios: map<Id, Usuario>, tipo: Id): (r: set<Id>)
    ensures forall q :: q in r <==> q in usuarios && usuarios[q].rol == Comercio && usuarios[q].tipoComercio == Some(tipo)
  {
    set q | q in usuarios && usuarios[q].rol == Comercio && usuarios[q].tipoComercio == Some(tipo)
  }

  /** `listar`: every business type with the number of merchants of that type. */
  function Listar(tipos: map<Id, TipoComercio>, usuarios: map<Id, Usuario>): (r: Propios.Conteos)
    ensures r.respuesta == Vista("admin/tipos-comercio/index")
    ensures r.cantidades.Keys == tipos.Keys
    ensures forall q :: q in r.cantidades ==> r.cantidades[q] == |ComerciosDe(usuarios, q)|
  {
    Propios.Conteos(Vista("admin/tipos-comercio/index"), map q | q in tipos :: |ComerciosDe(usuarios, q)|)
  }

  /** Another business type already has this (trimmed) name. */
  predicate NombreOcupado(tipos: map<Id, TipoComercio>, id: Id, nombre: string) {
    exists o :: o in tipos && o != id && tipos[o].nombre == nombre
  }

  /**
   * The business type `crear` builds: the text fields are required and trimmed, and the icon,
   * also required, is the uploaded file.
   */
  function NuevoTipo(nombre: Option<string>, descripcion: Option<string>, archivo: Option<string>): (r: Option<TipoComercio>)
    ensures r.Some? <==> Requerido(nombre).Some? && Requerido(descripcion).Some? && archivo.Some?
    ensures r.Some? ==>
              && r.value.nombre == Recortar(nombre.value) && r.value.nombre != []
              && r.value.descripcion == Recortar(descripcion.value)
              && r.value.icono == Some("/uploads/" + archivo.value)
  {
    if Requerido(nombre).Some? && Requerido(descripcion).Some? && archivo.Some? then
      Some(TipoComercio(Requerido(nombre).value, Requerido(descripcion).value, Some("/uploads/" + archivo.value)))
    else None
  }

  /**
   * `crear`: the type is stored when it is valid and its name is new; otherwise nothing is
   * stored and the administrator goes back to the form.
   */
  method Crear(db: Db.Base, nombre: Option<string>, descripcion: Option<string>, archivo: Option<string>, nuevoId: Id)
    returns (respuesta: Respuesta)
    requires nuevoId !in db.tipos
    modifies db`tipos
    ensures var t := NuevoTipo(nombre, descripcion, archivo);
            if t.Some? && !NombreOcupado(old(db.tipos), nuevoId, t.value.nombre) then
              db.tipos == old(db.tipos)[nuevoId := t.value] && respuesta == Redirigir("/admin/tipos-comercio")
            else
              db.tipos == old(db.tipos) && respuesta == Redirigir("/admin/tipos-comercio/crear")
    ensures TiposUnicos(old(db.tipos)) ==> TiposUnicos(db.tipos)
  {
    var t := NuevoTipo(nombre, descripcion, archivo);
    if t.None? || NombreOcupado(db.tipos, nuevoId, t.value.nombre) {
      return Redirigir("/admin/tipos-comercio/crear");
    }
    db.tipos := db.tipos[nuevoId := t.value];
    respuesta := Redirigir("/admin/tipos-comercio");
  }

  /** `mostrarEditar`: the form for an existing type; a missing one goes back to the list. */
  function MostrarEditar(tipos: map<Id, TipoComercio>, id: Id): (r: Respuesta)
    ensures r == Vista("admin/tipos-comercio/editar") <==> id in tipos
    ensures id !in tipos ==> r == Redirigir("/admin/tipos-comercio")
  {
    if id in tipos then Vista("admin/tipos-comercio/editar") else Redirigir("/admin/tipos-comercio")
  }

  /** The delete confirmation and the number of merchants the delete will take with it. */
  datatype Confirmacion = Confirmacion(respuesta: Respuesta, cantidad: nat)

  /** `mostrarEliminar`: the confirmation for an existing type, showing how many merchants have it. */
  function MostrarEliminar(tipos: map<Id, TipoComercio>, usuarios: map<Id, Usuario>, id: Id): (r: Confirmacion)
    ensures id in tipos ==> r == Confirmacion(Vista("admin/tipos-comercio/eliminar"), |ComerciosDe(usuarios, id)|)
    ensures id !in tipos ==> r.respuesta == Redirigir("/admin/tipos-comercio")
  {
    if id in tipos then Confirmacion(Vista("admin/tipos-comercio/eliminar"), |ComerciosDe(usuarios, id)|)
    else Confirmacion(Redirigir("/admin/tipos-comercio"), 0)
  }

  /** A type after `editar`'s update document: text fields trimmed, the icon replaced only by an upload. */
  function Cambiado(t: TipoComercio, nombre: Option<string>, descripcion: Option<string>, archivo: Option<string>)
    : (r: TipoComercio)
    ensures r.nombre == (if nombre.Some? then Recortar(nombre.value) else t.nombre)
    ensures r.descripcion == (if descripcion.Some? then Recortar(descripcion.value) else t.descripcion)
    ensures archivo.None? ==> r.icono == t.icono
    ensures archivo.Some? ==> r.icono == Some("/uploads/" + archivo.value)
  {
    t.(nombre := if nombre.Some? then Recortar(nombre.value) else t.nombre,
       descripcion := if descripcion.Some? then Recortar(descripcion.value) else t.descripcion,
       icono := if archivo.Some? then Some("/uploads/" + archivo.value) else t.icono)
  }

  /** The new name is another type's, so the unique index refuses the update. */
  predicate ChocaEdicion(tipos: map<Id, TipoComercio>, id: Id, nombre: Option<string>) {
    id in tipos && nombre.Some? && NombreOcupado(tipos, id, Recortar(nombre.value))
  }

  /**
   * The table after `editar`'s `findByIdAndUpdate`: an existing type is changed, a missing id
   * matches nothing, and an update the name index refuses changes nothing.
   */
  function Editados(tipos: map<Id, TipoComercio>, id: Id, nombre: Option<string>, descripcion: Option<string>,
                    archivo: Option<string>): (r: map<Id, TipoComercio>)
    ensures r.Keys == tipos.Keys
    ensures forall q :: q in tipos && q != id ==> r[q] == tipos[q]
    ensures ChocaEdicion(tipos, id, nombre) ==> r == tipos
    ensures id in tipos && !ChocaEdicion(tipos, id, nombre) ==> r[id] == Cambiado(tipos[id], nombre, descripcion, archivo)
  {
    if id in tipos && !ChocaEdicion(tipos, id, nombre) then tipos[id := Cambiado(tipos[id], nombre, descripcion, archivo)]
    else tipos
  }

  /** The name index survives every edit. */
  lemma EditarConservaUnicos(tipos: map<Id, TipoComercio>, id: Id, nombre: Option<string>, descripcion: Option<string>,
                             archivo: Option<string>)
    requires TiposUnicos(tipos)
    ensures TiposUnicos(Editados(tipos, id, nombre, descripcion, archivo))
  {
    var r := Editados(tipos, id, nombre, descripcion, archivo);
    if r != tipos {
      forall a, b | a in r && b in r && a != b
        ensures r[a].nombre != r[b].nombre
      {
        if a == id || b == id {
          assert !NombreOcupado(tipos, id, r[id].nombre) || nombre.None?;
        }
      }
    }
  }

  /**
   * `editar`: the update; when the name index refuses it the handler throws and goes back to
   * the edit form.
   */
  method Editar(db: Db.Base, id: Id, nombre: Option<string>, descripcion: Option<string>, archivo: Option<string>)
    returns (respuesta: Respuesta)
    modifies db`tipos
    ensures db.tipos == Editados(old(db.tipos), id, nombre, descripcion, archivo)
    ensures respuesta == if ChocaEdicion(old(db.tipos), id, nombre) then RedirigirA("/admin/tipos-comercio/editar/", id)
                         else Redirigir("/admin/tipos-comercio")
  {
    var choca := ChocaEdicion(db.tipos, id, nombre);
    db.tipos := Editados(db.tipos, id, nombre, descripcion, archivo);
    respuesta := if choca then RedirigirA("/admin/tipos-comercio/editar/", id) else Redirigir("/admin/tipos-comercio");
  }

  /** The user table after `Usuario.deleteMany({rol: 'comercio', tipoComercio: tipo})`. */
  function SinComerciosDe(usuarios: map<Id, Usuario>, tipo: Id): (r: map<Id, Usuario>)
    ensures r.Keys == usuarios.Keys - ComerciosDe(usuarios, tipo)
    ensures forall q :: q in r ==> r[q] == usuarios[q]
  {
    map q | q in usuarios && !(usuarios[q].rol == Comercio && usuarios[q].tipoComercio == Some(tipo)) :: usuarios[q]
  }

  /**
   * `eliminar`: the merchants of the type are deleted first, then the type itself. A missing
   * type still has its merchants deleted.
   */
  method Eliminar(db: Db.Base, id: Id) returns (respuesta: Respuesta)
    modifies db`usuarios, db`tipos
    ensures db.usuarios == SinComerciosDe(old(db.usuarios), id)
    ensures db.tipos == old(db.tipos) - {id}
    ensures respuesta == Redirigir("/admin/tipos-comercio")
  {
    db.usuarios := SinComerciosDe(db.usuarios, id);
    db.tipos := db.tipos - {id};
    respuesta := Redirigir("/admin/tipos-comercio");
  }

  /**
   * The cascade removes exactly the merchants the confirmation page counted: afterwards the
   * type has no merchants, every other account is untouched, and the user table shrank by the
   * count shown.
   */
  lemma CascadaExacta(tipos: map<Id, TipoComercio>, usuarios: map<Id, Usuario>, id: Id)
    requires id in tipos
    ensures ComerciosDe(SinComerciosDe(usuarios, id), id) == {}
    ensures forall q :: q in usuarios && (usuarios[q].rol != Comercio || usuarios[q].tipoComercio != Some(id)) ==>
              q in SinComerciosDe(usuarios, id) && SinComerciosDe(usuarios, id)[q] == usuarios[q]
    ensures |SinComerciosDe(usuarios, id)| + MostrarEliminar(tipos, usuarios, id).cantidad == |usuarios|
  {
    var r := SinComerciosDe(usuarios, id);
    var borrados := ComerciosDe(usuarios, id);
    assert r.Keys + borrados == usuarios.Keys;
    assert r.Keys * borrados == {};
    assert |r.Keys + borrados| == |r.Keys| + |borrados|;
    assert |r| == |r.Keys|;
    assert |usuarios| == |usuarios.Keys|;
  }

  /** After the cascade the other types keep their merchant counts on the list. */
  lemma CascadaConservaOtrosTipos(tipos: map<Id, TipoComercio>, usuarios: map<Id, Usuario>, id: Id, otro: Id)
    requires otro in tipos && otro != id
    ensures otro in Listar(tipos - {id}, SinComerciosDe(usuarios, id)).cantidades
    ensures Listar(tipos - {id}, SinComerciosDe(usuarios, id)).cantidades[otro] == Listar(tipos, usuarios).cantidades[otro]
  {
    assert ComerciosDe(SinComerciosDe(usuarios, id), otro) == ComerciosDe(usuarios, otro);
  }
}
