/**
 * middleware/checkActiveAccount.js: the gate in front of the merchant, courier and
 * administrator routes that is meant to log out a user whose account is inactive. It reads
 * the `activo` flag from the session record, which login copies from the account.
 */
module CheckActiveAccount {
  import opened Wrappers
  import opened Modelos
  import opened Http
  import AuthController
  import AdminController

  /** The cookie the eviction clears. */
  const CookieSesion := "appcenar.sid"

  /** What the gate leaves: the response, the session, and the cookie it cleared, if any. */
  datatype Salida = Salida(respuesta: Respuesta, sesion: Sesion, cookieBorrada: Option<string>)

  /** The eviction: the session is destroyed, the cookie cleared and the user sent to login. */
  const Expulsion := Salida(Redirigir("/auth/login"), SesionVacia, Some(CookieSesion))

  /**
   * The gate as written: without a session user, or with one whose session record says
   * active, the request goes on untouched; otherwise the user is evicted and the next
   * handler is never reached.
   */
  function Revisar(sesion: Sesion): (r: Salida)
    ensures r.respuesta == Siguiente <==> sesion.user.None? || sesion.user.value.activo
    ensures r.respuesta == Siguiente ==> r == Salida(Siguiente, sesion, None)
    ensures r.respuesta != Siguiente ==> r == Expulsion
  {
    if sesion.user.None? || sesion.user.value.activo then Salida(Siguiente, sesion, None) else Expulsion
  }

  /**
   * The gate never evicts a session that login produced: login only writes the session
   * user for an active account, and the record it writes says active. (The login route
   * requires that no one is logged in.)
   */
  lemma LoginNuncaExpulsado(sesion: Sesion, encontrado: Option<(Id, Usuario)>, password: string)
    requires sesion.user.None?
    ensures Revisar(AuthController.DecidirLogin(sesion, encontrado, password).sesion).respuesta == Siguiente
  {
    var i := AuthController.DecidirLogin(sesion, encontrado, password);
    if i.sesion != sesion {
      assert encontrado.Some? && AuthController.Acepta(encontrado.value.1, password);
      assert i.sesion.user.value.activo;
    }
  }

  /**
   * The consequence: an administrator deactivates an account while its owner is logged in,
   * and the owner's next request still passes the gate.
   */
  lemma DesactivarNoExpulsa(usuarios: map<Id, Usuario>, id: Id, sesion: Sesion, password: string)
    requires sesion.user.None?
    requires id in usuarios && AuthController.Acepta(usuarios[id], password)
    ensures !AdminController.Alternado(usuarios, id)[id].activo
    ensures Revisar(AuthController.DecidirLogin(sesion, Some((id, usuarios[id])), password).sesion).respuesta == Siguiente
  {
    LoginNuncaExpulsado(sesion, Some((id, usuarios[id])), password);
  }

  /**
   * The gate checking the stored account instead of the session's copy: a session whose
   * account is gone or inactive is evicted.
   */
  function RevisarEnBase(sesion: Sesion, usuarios: map<Id, Usuario>): (r: Salida)
    ensures r.respuesta == Siguiente <==>
              sesion.user.None? || (sesion.user.value.id in usuarios && usuarios[sesion.user.value.id].activo)
    ensures r.respuesta == Siguiente ==> r == Salida(Siguiente, sesion, None)
    ensures r.respuesta != Siguiente ==> r == Expulsion
  {
    match sesion.user
    case None => Salida(Siguiente, sesion, None)
    case Some(u) =>
      if u.id in usuarios && usuarios[u.id].activo then Salida(Siguiente, sesion, None) else Expulsion
  }

  /** While the stored flag agrees with the session's copy, the two gates decide alike. */
  lemma RevisarEnBaseCoincide(sesion: Sesion, usuarios: map<Id, Usuario>)
    requires sesion.user.Some? ==>
               sesion.user.value.id in usuarios && usuarios[sesion.user.value.id].activo == sesion.user.value.activo
    ensures RevisarEnBase(sesion, usuarios) == Revisar(sesion)
  {
  }

  /** With the stored account checked, a deactivation takes effect on the owner's next request. */
  lemma DesactivarExpulsa(usuarios: map<Id, Usuario>, id: Id, sesion: Sesion, password: string)
    requires sesion.user.None?
    requires id in usuarios && AuthController.Acepta(usuarios[id], password)
    ensures RevisarEnBase(AuthController.DecidirLogin(sesion, Some((id, usuarios[id])), password).sesion,
                          AdminController.Alternado(usuarios, id)) == Expulsion
  {
    var i := AuthController.DecidirLogin(sesion, Some((id, usuarios[id])), password);
    assert i.sesion.user == Some(AuthController.SesionDe(id, usuarios[id]));
  }
}
