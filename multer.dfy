/**
 * config/multer.js: the upload rules shared by every form with a file. A file is kept
 * only when both its extension and its declared type name an image format; it is stored
 * under a fresh random name that keeps the original extension; and it may not exceed
 * 5 MiB. The extension (`path.extname`) and the random name (`uuidv4`) are inputs here.
 */
module Multer {
  import opened Wrappers
  import opened Texto

  /** `limits.fileSize`: 5 * 1024 * 1024 bytes. */
  const LimiteTamano: nat := 5 * 1024 * 1024

  /** `/jpeg|jpg|png|gif|webp/.test(s)`: one of the five names occurs anywhere in `s`. */
  function Imagen(s: string): (b: bool)
    ensures b <==> Contiene(s, "jpeg") || Contiene(s, "jpg") || Contiene(s, "png") || Contiene(s, "gif") || Contiene(s, "webp")
  {
    ContieneDesde(s, "jpeg", 0) || ContieneDesde(s, "jpg", 0) || ContieneDesde(s, "png", 0)
    || ContieneDesde(s, "gif", 0) || ContieneDesde(s, "webp", 0)
  }

  /** What the filter tells multer: keep the file, or fail the upload with the error message. */
  datatype Decision = Aceptado | Rechazado(mensaje: string)

  const MensajeFiltro := "Solo se permiten imágenes (jpeg, jpg, png, gif, webp)"

  /**
   * `fileFilter`: the lower-cased extension and the declared type (as sent, not
   * lower-cased) must both pass the test; otherwise the upload fails with the message.
   */
  function FileFilter(extension: string, mimetype: string): (r: Decision)
    ensures r == Aceptado <==> Imagen(Minusculas(extension)) && Imagen(mimetype)
    ensures r != Aceptado ==> r == Rechazado(MensajeFiltro)
  {
    if Imagen(Minusculas(extension)) && Imagen(mimetype) then Aceptado else Rechazado(MensajeFiltro)
  }

  /** The test is not anchored: a longer extension that merely contains a format name passes. */
  lemma FiltroSinAnclar()
    ensures FileFilter(".webpage", "image/png") == Aceptado
  {
    assert Minusculas(".webpage") == ".webpage";
    assert OcurreEn(".webpage", "webp", 1);
    assert OcurreEn("image/png", "png", 6);
  }

  /** The extension is lower-cased before the test, so an upper-case extension passes. */
  lemma FiltroExtensionMayuscula()
    ensures FileFilter(".PNG", "image/png") == Aceptado
  {
    assert Minusculas(".PNG") == ".png";
    assert OcurreEn(".png", "png", 1);
    assert OcurreEn("image/png", "png", 6);
  }

  /** An occurrence starts with the first character of what occurs. */
  lemma Empieza(s: string, sub: string, i: int)
    requires OcurreEn(s, sub, i) && sub != []
    ensures s[i] == sub[0]
  {
    assert s[i] == s[i..i + |sub|][0];
  }

  /** Every format name is in lower case, so a text without lower-case letters names none. */
  lemma SinMinusculas(t: string)
    requires forall k :: 0 <= k < |t| ==> !('a' <= t[k] <= 'z')
    ensures !Imagen(t)
  {
    if Contiene(t, "jpeg") { var i :| OcurreEn(t, "jpeg", i); Empieza(t, "jpeg", i); assert false; }
    if Contiene(t, "jpg") { var i :| OcurreEn(t, "jpg", i); Empieza(t, "jpg", i); assert false; }
    if Contiene(t, "png") { var i :| OcurreEn(t, "png", i); Empieza(t, "png", i); assert false; }
    if Contiene(t, "gif") { var i :| OcurreEn(t, "gif", i); Empieza(t, "gif", i); assert false; }
    if Contiene(t, "webp") { var i :| OcurreEn(t, "webp", i); Empieza(t, "webp", i); assert false; }
  }

  /** The declared type is tested as sent, so an upper-case type fails. */
  lemma FiltroTipoMayuscula()
    ensures FileFilter(".png", "IMAGE/PNG") == Rechazado(MensajeFiltro)
  {
    SinMinusculas("IMAGE/PNG");
  }

  /** `filename`: the random name followed by the original extension. */
  function NombreArchivo(uuid: string, extension: string): (r: string)
    ensures |r| == |uuid| + |extension|
    ensures r[..|uuid|] == uuid && r[|uuid|..] == extension
  {
    uuid + extension
  }

  /** Two uploads with different random names of one length never share a stored file, whatever their extensions. */
  lemma NombresDistintos(u1: string, u2: string, e1: string, e2: string)
    requires |u1| == |u2| && u1 != u2
    ensures NombreArchivo(u1, e1) != NombreArchivo(u2, e2)
  {
    assert NombreArchivo(u1, e1)[..|u1|] == u1;
    assert NombreArchivo(u2, e2)[..|u2|] == u2;
  }

  /** The message multer gives a file over the limit. */
  const MensajeTamano := "File too large"

  /**
   * The whole upload decision for one file: the filter runs first, on the name and the
   * type, then the size is checked as the file streams in; a file of exactly the limit
   * is kept.
   */
  function Subir(extension: string, mimetype: string, tamano: nat): (r: Decision)
    ensures r == Aceptado <==> FileFilter(extension, mimetype) == Aceptado && tamano <= LimiteTamano
    ensures FileFilter(extension, mimetype) != Aceptado ==> r == FileFilter(extension, mimetype)
  {
    match FileFilter(extension, mimetype)
    case Rechazado(m) => Rechazado(m)
    case Aceptado => if tamano <= LimiteTamano then Aceptado else Rechazado(MensajeTamano)
  }
}
