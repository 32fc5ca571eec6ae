/**
 * The user-collection queries and saves the account handlers share (models/Usuario.js as
 * the handlers use it): the lookup filters, `findOne` over a filter, and `save()` of a new
 * or an already stored document. Query values go through the same `trim`/`lowercase`
 * setters as stored values.
 */
module Usuarios {
  import opened Wrappers
  import opened Modelos
  import opened Texto
  import Db

  /** `{$or: [{nombreUsuario: clave}, {correo: clave}]}` */
  predicate PorClave(u: Usuario, clave: string) {
    u.nombreUsuario == Some(Recortar(clave)) || u.correo == NormalizarCorreo(clave)
  }

  /** `{tokenActivacion: token}` */
  predicate PorTokenActivacion(u: Usuario, token: string) {
    u.tokenActivacion == Some(token)
  }

  /** `{tokenResetPassword: token, tokenExpiracion: {$gt: ahora}}` */
  predicate PorTokenReset(u: Usuario, token: string, ahora: int) {
    u.tokenResetPassword == Some(token) && u.tokenExpiracion.Some? && u.tokenExpiracion.value > ahora
  }

  /**
   * Saving `u` under `id` would break a unique index: another account has the same address,
   * or the same user name when `u` has one.
   */
  predicate ChocaIndice(usuarios: map<Id, Usuario>, id: Id, u: Usuario) {
    exists o :: o in usuarios && o != id &&
      (usuarios[o].correo == u.correo || (u.nombreUsuario.Some? && usuarios[o].nombreUsuario == u.nombreUsuario))
  }

  /** `Usuario.findOne(filtro)`: some matching account when there is one, none otherwise. */
  method BuscarUsuario(db: Db.Base, filtro: Usuario -> bool) returns (id: Option<Id>)
    ensures id.None? <==> forall q :: q in db.usuarios ==> !filtro(db.usuarios[q])
    ensures id.Some? ==> id.value in db.usuarios && filtro(db.usuarios[id.value])
  {
    var candidatos := set q | q in db.usuarios && filtro(db.usuarios[q]);
    if candidatos == {} {
      assert forall q :: q in db.usuarios && filtro(db.usuarios[q]) ==> q in candidatos;
      return None;
    }
    var q :| q in candidatos;
    return Some(q);
  }

  /**
   * `new Usuario(...).save()`: the document is validated, refused when a unique index would
   * break, and otherwise stored with its password hashed by the save hook.
   */
  method GuardarNuevo(db: Db.Base, id: Id, u: Usuario) returns (guardado: bool)
    modifies db`usuarios
    ensures guardado <==> UsuarioValido(u) && !ChocaIndice(old(db.usuarios), id, u)
    ensures db.usuarios == if guardado then old(db.usuarios)[id := AntesDeGuardar(u, true)] else old(db.usuarios)
  {
    guardado := UsuarioValido(u) && !ChocaIndice(db.usuarios, id, u);
    if guardado {
      db.usuarios := db.usuarios[id := AntesDeGuardar(u, true)];
    }
  }

  /**
   * `usuario.save()` of a loaded document whose unique fields were not touched. Every loaded
   * path is validated as it was stored, with no setter run again, so a stored empty
   * `correo` (which an update that skips the validators can leave) fails `required`. The
   * password is loaded without its value (`select: false`), so it is validated only when it
   * was assigned, and an assigned empty text fails `required`. A failed validation writes
   * nothing. Otherwise the changes are written and the password is re-hashed only when it
   * was assigned.
   */
  method GuardarExistente(db: Db.Base, id: Id, u: Usuario, passwordModificado: bool) returns (guardado: bool)
    modifies db`usuarios
    ensures guardado <==> u.correo != [] && !(passwordModificado && u.password == Plano(""))
    ensures db.usuarios == if guardado then old(db.usuarios)[id := AntesDeGuardar(u, passwordModificado)] else old(db.usuarios)
  {
    guardado := u.correo != [] && !(passwordModificado && u.password == Plano(""));
    if guardado {
      db.usuarios := db.usuarios[id := AntesDeGuardar(u, passwordModificado)];
    }
  }
}
