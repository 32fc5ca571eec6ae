/**
 * The document store: one table per collection. Collections keyed by document id are maps;
 * the configuration collection is a sequence because `findOne()` with no filter reads the
 * first document in store order.
 */
module Db {
  import opened Wrappers
  import opened Modelos

  class Base {
    var usuarios: map<Id, Usuario>
    var pedidos: map<Id, Pedido>
    var productos: map<Id, Producto>
    var categorias: map<Id, Categoria>
    var direcciones: map<Id, Direccion>
    var favoritos: map<Id, Favorito>
    var tipos: map<Id, TipoComercio>
    var configuraciones: seq<Configuracion>

    constructor ()
      ensures usuarios == map[] && pedidos == map[] && productos == map[] && categorias == map[]
      ensures direcciones == map[] && favoritos == map[] && tipos == map[] && configuraciones == []
    {
      usuarios := map[];
      pedidos := map[];
      productos := map[];
      categorias := map[];
      direcciones := map[];
      favoritos := map[];
      tipos := map[];
      configuraciones := [];
    }

    /** `Configuracion.findOne()`: the first configuration document, if any. */
    function PrimeraConfiguracion(): (r: Option<Configuracion>)
      reads this
      ensures r.None? <==> configuraciones == []
      ensures r.Some? ==> r.value in configuraciones
    {
      if configuraciones == [] then None else Some(configuraciones[0])
    }

    /**
     * `pedido.save()`: the document is validated first; a valid order is inserted under its
     * id, an invalid one is rejected and the table is left as it was.
     */
    method GuardarPedido(id: Id, p: Pedido) returns (guardado: bool)
      modifies this`pedidos
      ensures guardado <==> PedidoValido(p)
      ensures pedidos == if guardado then old(pedidos)[id := p] else old(pedidos)
    {
      guardado := PedidoValido(p);
      if guardado {
        pedidos := pedidos[id := p];
      }
    }
  }
}
