/**
 * controllers/favoritoController.js: a client marks or unmarks a merchant as a favourite.
 * The favourites collection holds (cliente, comercio) pairs with a unique index on the pair
 * (models/Favorito.js), so it behaves as a set of pairs.
 */
module FavoritoController {
  import opened Wrappers
  import opened Modelos
  import opened Http
  import Db

  /** The pair is in the favourites collection. */
  predicate EsFavorito(favoritos: map<Id, Favorito>, cliente: Id, comercio: Id) {
    exists q :: q in favoritos && favoritos[q] == Favorito(cliente, comercio)
  }

  /**
   * The collection after a toggle of the pair, as a set operation: every row holding the pair
   * is removed when there is one, and otherwise a row holding it is added under `nuevoId`.
   */
  function Alternado(favoritos: map<Id, Favorito>, cliente: Id, comercio: Id, nuevoId: Id): (r: map<Id, Favorito>)
    requires nuevoId !in favoritos
    ensures EsFavorito(favoritos, cliente, comercio) ==>
              forall q :: q in r <==> q in favoritos && favoritos[q] != Favorito(cliente, comercio)
    ensures forall q :: q in r && q in favoritos && favoritos[q] != Favorito(cliente, comercio) ==> r[q] == favoritos[q]
    ensures !EsFavorito(favoritos, cliente, comercio) ==> r == favoritos[nuevoId := Favorito(cliente, comercio)]
  {
    if EsFavorito(favoritos, cliente, comercio) then
      map q | q in favoritos && favoritos[q] != Favorito(cliente, comercio) :: favoritos[q]
    else
      favoritos[nuevoId := Favorito(cliente, comercio)]
  }

  /**
   * A toggle flips the membership of its own pair, leaves every other pair's membership as
   * it was, and keeps the pair index unique.
   */
  lemma AlternarInvierte(favoritos: map<Id, Favorito>, cliente: Id, comercio: Id, nuevoId: Id)
    requires nuevoId !in favoritos
    ensures EsFavorito(Alternado(favoritos, cliente, comercio, nuevoId), cliente, comercio)
        <==> !EsFavorito(favoritos, cliente, comercio)
    ensures forall c, m :: c != cliente || m != comercio ==>
              (EsFavorito(Alternado(favoritos, cliente, comercio, nuevoId), c, m) <==> EsFavorito(favoritos, c, m))
    ensures FavoritosUnicos(favoritos) ==> FavoritosUnicos(Alternado(favoritos, cliente, comercio, nuevoId))
  {
    var r := Alternado(favoritos, cliente, comercio, nuevoId);
    if !EsFavorito(favoritos, cliente, comercio) {
      assert r[nuevoId] == Favorito(cliente, comercio);
    }
    forall c, m | c != cliente || m != comercio
      ensures EsFavorito(r, c, m) <==> EsFavorito(favoritos, c, m)
    {
      if EsFavorito(favoritos, c, m) {
        var q :| q in favoritos && favoritos[q] == Favorito(c, m);
        assert q in r && r[q] == Favorito(c, m);
      }
      if EsFavorito(r, c, m) {
        var q :| q in r && r[q] == Favorito(c, m);
        assert q in favoritos && favoritos[q] == Favorito(c, m);
      }
    }
  }

  /** Two toggles of the same pair restore the membership of every pair. */
  lemma AlternarDosVeces(favoritos: map<Id, Favorito>, cliente: Id, comercio: Id, primero: Id, segundo: Id)
    requires primero !in favoritos
    requires segundo !in Alternado(favoritos, cliente, comercio, primero)
    ensures forall c, m ::
              EsFavorito(Alternado(Alternado(favoritos, cliente, comercio, primero), cliente, comercio, segundo), c, m)
              <==> EsFavorito(favoritos, c, m)
  {
    var una := Alternado(favoritos, cliente, comercio, primero);
    AlternarInvierte(favoritos, cliente, comercio, primero);
    AlternarInvierte(una, cliente, comercio, segundo);
  }

  /** `req.get('Referer') || '/cliente/home'`: an absent or empty header falls back to the client home. */
  function Volver(referer: Option<string>): (r: string)
    ensures r != []
    ensures referer.Some? && referer.value != [] ==> r == referer.value
  {
    if referer.Some? && referer.value != [] then referer.value else "/cliente/home"
  }

  /**
   * `toggle`: a stored row holding the (session client, merchant) pair is deleted by its id,
   * and when there is none a new row is saved. Without a session user the handler throws
   * before touching the collection and goes to the client home. On a collection whose pair
   * index holds, this is the set toggle `Alternado`.
   */
  method Toggle(db: Db.Base, sesion: Sesion, comercioId: Id, referer: Option<string>, nuevoId: Id)
    returns (respuesta: Respuesta, borrado: Option<Id>)
    requires nuevoId !in db.favoritos
    modifies db`favoritos
    ensures sesion.user.None? ==>
              db.favoritos == old(db.favoritos) && borrado.None? && respuesta == Redirigir("/cliente/home")
    ensures sesion.user.Some? ==>
              var cliente := sesion.user.value.id;
              && (borrado.Some? <==> EsFavorito(old(db.favoritos), cliente, comercioId))
              && (borrado.Some? ==>
                    && borrado.value in old(db.favoritos)
                    && old(db.favoritos)[borrado.value] == Favorito(cliente, comercioId)
                    && db.favoritos == old(db.favoritos) - {borrado.value})
              && (borrado.None? ==> db.favoritos == old(db.favoritos)[nuevoId := Favorito(cliente, comercioId)])
              && respuesta == Redirigir(Volver(referer))
    ensures sesion.user.Some? && FavoritosUnicos(old(db.favoritos)) ==>
              db.favoritos == Alternado(old(db.favoritos), sesion.user.value.id, comercioId, nuevoId)
  {
    if sesion.user.None? {
      return Redirigir("/cliente/home"), None;
    }
    var cliente := sesion.user.value.id;
    if EsFavorito(db.favoritos, cliente, comercioId) {
      var q :| q in db.favoritos && db.favoritos[q] == Favorito(cliente, comercioId);
      assert FavoritosUnicos(db.favoritos) ==>
               forall o :: o in db.favoritos && o != q ==> db.favoritos[o] != Favorito(cliente, comercioId);
      db.favoritos := db.favoritos - {q};
      borrado := Some(q);
    } else {
      db.favoritos := db.favoritos[nuevoId := Favorito(cliente, comercioId)];
      borrado := None;
    }
    respuesta := Redirigir(Volver(referer));
  }
}
