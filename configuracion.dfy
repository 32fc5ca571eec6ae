/**
 * models/Configuracion.js: the single tax configuration and its find-or-create accessor.
 * The collection is the store's `configuraciones` sequence; `findOne()` reads its first
 * document.
 */
module ConfiguracionModelo {
  import opened Wrappers
  import opened Modelos
  import Db
  import Precios

  /** The collection after find-or-create: unchanged when it has a document, else one default document. */
  function ConDefecto(cs: seq<Configuracion>): (r: seq<Configuracion>)
    ensures r != [] && ConfiguracionValida(Configuracion(ItbisPorDefecto))
    ensures cs != [] ==> r == cs
    ensures cs == [] ==> r == [Configuracion(ItbisPorDefecto)]
  {
    if cs == [] then [Configuracion(ItbisPorDefecto)] else cs
  }

  /** Find-or-create twice creates no second document. */
  lemma ConDefectoIdempotente(cs: seq<Configuracion>)
    ensures ConDefecto(ConDefecto(cs)) == ConDefecto(cs)
    ensures |ConDefecto(cs)| == if cs == [] then 1 else |cs|
  {
  }

  /**
   * Creating the default document does not change any price: the rate the order flows read
   * afterwards is the one they would have used before.
   */
  lemma ConDefectoConservaTasa(cs: seq<Configuracion>)
    ensures Precios.Tasa(Some(ConDefecto(cs)[0])) == Precios.Tasa(if cs == [] then None else Some(cs[0]))
  {
  }

  /** `obtenerConfiguracion`: the existing document, or a new one with `itbis` 18. */
  method ObtenerConfiguracion(db: Db.Base) returns (c: Configuracion)
    modifies db`configuraciones
    ensures db.configuraciones == ConDefecto(old(db.configuraciones))
    ensures c == db.configuraciones[0]
    ensures old(db.configuraciones) != [] ==> c == old(db.configuraciones)[0]
  {
    var actual := db.PrimeraConfiguracion();
    if actual.None? {
      db.configuraciones := db.configuraciones + [Configuracion(ItbisPorDefecto)];
      return Configuracion(ItbisPorDefecto);
    }
    return actual.value;
  }
}
