/**
 * controllers/configuracionController.js: the administrator's tax-rate page, its edit form
 * and the edit action.
 */
module ConfiguracionController {
  import opened Wrappers
  import opened Modelos
  import opened Http
  import Db
  import ConfiguracionModelo
  import Precios

  /**
   * `mostrar` and `mostrarEditar` share this body, which repeats the model's find-or-create:
   * the configuration is read, a default document is created only when none exists, and the
   * page is rendered.
   */
  method Mostrar(db: Db.Base, plantilla: string) returns (respuesta: Respuesta, c: Configuracion)
    modifies db`configuraciones
    ensures respuesta == Vista(plantilla)
    ensures db.configuraciones == ConfiguracionModelo.ConDefecto(old(db.configuraciones))
    ensures c == db.configuraciones[0]
  {
    c := ConfiguracionModelo.ObtenerConfiguracion(db);
    respuesta := Vista(plantilla);
  }

  /**
   * The collection after `editar`, or `None` when the save is refused. With no document a
   * new one is created from the input (an absent input takes the schema default 18); with a
   * document its rate is replaced by the input, and an absent input then fails the `required`
   * check. An empty text (cast to null, which the default does not replace and `required`
   * refuses), a value outside [0, 100] or one that is not a number is refused either way.
   */
  function Editado(cs: seq<Configuracion>, entrada: Entrada): (r: Option<seq<Configuracion>>)
    ensures r.Some? ==> |r.value| == (if cs == [] then 1 else |cs|) && ConfiguracionValida(r.value[0])
    ensures r.Some? ==> r.value[1..] == (if cs == [] then [] else cs[1..])
    ensures r.Some? <==> match entrada
                         case Ausente => cs == []
                         case Numero(v) => 0.0 <= v <= 100.0
                         case Vacia => false
                         case NoNumerico => false
    ensures r.Some? && entrada.Numero? ==> r.value[0] == Configuracion(entrada.valor)
    ensures r.Some? && entrada.Ausente? ==> r.value == [Configuracion(ItbisPorDefecto)]
  {
    match entrada
    case Ausente => if cs == [] then Some([Configuracion(ItbisPorDefecto)]) else None
    case Numero(v) =>
      if !(0.0 <= v <= 100.0) then None
      else if cs == [] then Some([Configuracion(v)])
      else Some(cs[0 := Configuracion(v)])
    case Vacia => None
    case NoNumerico => None
  }

  /** After a successful edit with a number, both order flows price at exactly that rate. */
  lemma EditadoFijaTasa(cs: seq<Configuracion>, v: real)
    requires 0.0 <= v <= 100.0
    ensures Editado(cs, Numero(v)).Some?
    ensures Precios.Tasa(Some(Editado(cs, Numero(v)).value[0])) == v
  {
  }

  /** `editar`: the settings page on success, the edit form again when the save is refused. */
  method Editar(db: Db.Base, entrada: Entrada) returns (respuesta: Respuesta)
    modifies db`configuraciones
    ensures var r := Editado(old(db.configuraciones), entrada);
            && (r.Some? ==> db.configuraciones == r.value && respuesta == Redirigir("/admin/configuracion"))
            && (r.None? ==> db.configuraciones == old(db.configuraciones)
                            && respuesta == Redirigir("/admin/configuracion/editar"))
  {
    var nueva := Editado(db.configuraciones, entrada);
    if nueva.Some? {
      db.configuraciones := nueva.value;
      respuesta := Redirigir("/admin/configuracion");
    } else {
      respuesta := Redirigir("/admin/configuracion/editar");
    }
  }
}
