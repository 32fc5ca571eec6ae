/**
 * The pricing rule shared by the order flows (controllers/clienteController.js and
 * controllers/pedidoController.js): the tax rate is the stored configuration's `itbis`
 * percentage, or 18 when no configuration exists; tax is `subtotal * rate / 100`; the
 * total is the subtotal plus the tax. Amounts are exact reals.
 */
module Precios {
  import opened Wrappers
  import opened Modelos

  /** `configuracion ? configuracion.itbis : 18` */
  function Tasa(config: Option<Configuracion>): (t: real)
    ensures config.None? ==> t == ItbisPorDefecto
    ensures config.Some? && ConfiguracionValida(config.value) ==> 0.0 <= t <= 100.0
  {
    match config
    case Some(c) => c.itbis
    case None => ItbisPorDefecto
  }

  /** `valorItbis = (subtotal * itbis) / 100`: within [0, subtotal] for a rate in [0, 100]. */
  function ValorItbis(subtotal: real, tasa: real): (v: real)
    ensures subtotal >= 0.0 && 0.0 <= tasa <= 100.0 ==> 0.0 <= v <= subtotal
  {
    subtotal * tasa / 100.0
  }

  /** `total = subtotal + valorItbis`: the subtotal scaled by `1 + rate/100`. */
  function Total(subtotal: real, tasa: real): (t: real)
    ensures t == subtotal * (100.0 + tasa) / 100.0
    ensures subtotal >= 0.0 && 0.0 <= tasa <= 100.0 ==> subtotal <= t <= 2.0 * subtotal
  {
    subtotal + ValorItbis(subtotal, tasa)
  }

  /** With no configuration the total is the subtotal plus 18 per cent. */
  lemma TotalSinConfiguracion(subtotal: real)
    ensures ValorItbis(subtotal, Tasa(None)) == subtotal * 0.18
    ensures Total(subtotal, Tasa(None)) == subtotal * 1.18
  {
  }
}
