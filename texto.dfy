/**
 * String helpers that stand for the JavaScript built-ins the core calls:
 * `String.prototype.trim`, `toLowerCase` and an unanchored regular-expression test.
 * Strings are `seq<char>`; only the ASCII cases of these built-ins are modelled.
 */
module Texto {

  /** The whitespace that `trim` removes (ASCII part). */
  predicate EsEspacio(c: char) {
    c == ' ' || c == '\t' || c == '\n' || c == '\r' || c == '\U{000B}' || c == '\U{000C}'
  }

  predicate EsDigito(c: char) {
    '0' <= c <= '9'
  }

  function QuitarInicio(s: string): (r: string)
    ensures |r| <= |s| && r == s[|s| - |r|..]
    ensures r == [] || !EsEspacio(r[0])
    ensures forall i :: 0 <= i < |s| - |r| ==> EsEspacio(s[i])
  {
    if s != [] && EsEspacio(s[0]) then QuitarInicio(s[1..]) else s
  }

  function QuitarFinal(s: string): (r: string)
    ensures |r| <= |s| && r == s[..|r|]
    ensures r == [] || !EsEspacio(r[|r| - 1])
    ensures forall i :: |r| <= i < |s| ==> EsEspacio(s[i])
  {
    if s != [] && EsEspacio(s[|s| - 1]) then QuitarFinal(s[..|s| - 1]) else s
  }

  /** `r` sits in `s` at position `i` with only whitespace before and after it. */
  predicate RecorteEn(s: string, r: string, i: int) {
    && OcurreEn(s, r, i)
    && (forall k :: 0 <= k < i ==> EsEspacio(s[k]))
    && (forall k :: i + |r| <= k < |s| ==> EsEspacio(s[k]))
  }

  /**
   * `s.trim()`: the infix of `s` that is left once the whitespace at both ends is removed,
   * so that it neither starts nor ends with whitespace (`RecortarInfijo`).
   */
  function Recortar(s: string): (r: string)
    ensures |r| <= |s|
    ensures r == [] || (!EsEspacio(r[0]) && !EsEspacio(r[|r| - 1]))
  {
    QuitarInicio(QuitarFinal(s))
  }

  /**
   * The trim is an infix of the text with only whitespace before and after it; with its
   * ends not being whitespace, that makes it the only such infix.
   */
  lemma RecortarInfijo(s: string)
    ensures exists i :: RecorteEn(s, Recortar(s), i)
  {
    var t := QuitarFinal(s);
    var r := QuitarInicio(t);
    assert s[|t| - |r|..|t|] == t[|t| - |r|..];
    assert Recortar(s) == r;
    assert RecorteEn(s, r, |t| - |r|);
  }

  /** A text that neither starts nor ends with whitespace is its own trim. */
  lemma RecortarSinEspacios(s: string)
    requires s == [] || (!EsEspacio(s[0]) && !EsEspacio(s[|s| - 1]))
    ensures Recortar(s) == s
  {
  }

  /** Trimming twice is trimming once, so a trimmed schema field is stable under re-save. */
  lemma RecortarIdempotente(s: string)
    ensures Recortar(Recortar(s)) == Recortar(s)
  {
    var r := Recortar(s);
    if r != [] {
      assert QuitarFinal(r) == r;
      assert QuitarInicio(r) == r;
    }
  }

  /** Trimming leaves nothing exactly when the text is all whitespace. */
  lemma RecortarVacio(s: string)
    ensures Recortar(s) == [] <==> forall i :: 0 <= i < |s| ==> EsEspacio(s[i])
  {
    var t := QuitarFinal(s);
    var r := QuitarInicio(t);
    if r != [] {
      assert r[0] == t[|t| - |r|] == s[|t| - |r|];
    } else {
      forall i | 0 <= i < |s|
        ensures EsEspacio(s[i])
      {
        if i < |t| {
          assert EsEspacio(t[i]);
        }
      }
    }
  }

  /** `toLowerCase` on the ASCII letters. */
  function Minuscula(c: char): (r: char)
    ensures 'A' <= c <= 'Z' ==> 'a' <= r <= 'z'
    ensures !('A' <= c <= 'Z') ==> r == c
    ensures !('A' <= r <= 'Z') && (EsEspacio(r) <==> EsEspacio(c))
  {
    if 'A' <= c <= 'Z' then (c as int + 32) as char else c
  }

  function Minusculas(s: string): (r: string)
    ensures |r| == |s|
    ensures forall i :: 0 <= i < |s| ==> r[i] == Minuscula(s[i])
  {
    if s == [] then [] else [Minuscula(s[0])] + Minusculas(s[1..])
  }

  /** `sub` occurs in `s` starting at position `i`. */
  predicate OcurreEn(s: string, sub: string, i: int) {
    0 <= i <= |s| - |sub| && s[i..i + |sub|] == sub
  }

  /** Whether `sub` occurs somewhere in `s` (an unanchored regular-expression match of a literal). */
  ghost predicate Contiene(s: string, sub: string) {
    exists i :: OcurreEn(s, sub, i)
  }

  /** Executable search for an occurrence at or after position `i`. */
  function ContieneDesde(s: string, sub: string, i: nat): (b: bool)
    requires i <= |s|
    ensures b <==> exists j :: i <= j && OcurreEn(s, sub, j)
    decreases |s| - i
  {
    if i + |sub| > |s| then false
    else if s[i..i + |sub|] == sub then assert OcurreEn(s, sub, i); true
    else
      var b := ContieneDesde(s, sub, i + 1);
      assert !OcurreEn(s, sub, i);
      assert (exists j :: i <= j && OcurreEn(s, sub, j)) ==> exists j :: i + 1 <= j && OcurreEn(s, sub, j);
      b
  }

  // ------------------------------------------------------------ decimal numerals

  predicate TodoDigitos(s: string) {
    forall i :: 0 <= i < |s| ==> EsDigito(s[i])
  }

  function Digito(d: nat): (c: char)
    requires d < 10
    ensures EsDigito(c) && c as int - '0' as int == d
  {
    ('0' as int + d) as char
  }

  /** The decimal numeral of `n`, without leading zeros (what `String(n)` gives for a whole number). */
  function Decimal(n: nat): (r: string)
    ensures |r| >= 1 && TodoDigitos(r)
    ensures |r| > 1 ==> r[0] != '0'
  {
    if n < 10 then [Digito(n)] else Decimal(n / 10) + [Digito(n % 10)]
  }

  /** The value of a numeral. */
  function LeerDecimal(s: string): nat
    requires TodoDigitos(s)
  {
    if s == [] then 0 else LeerDecimal(s[..|s| - 1]) * 10 + (s[|s| - 1] as int - '0' as int)
  }

  /** Reading a numeral back gives the number. */
  lemma {:induction false} LeerDecimalDeDecimal(n: nat)
    ensures LeerDecimal(Decimal(n)) == n
  {
    if n >= 10 {
      var d := Decimal(n);
      assert d[..|d| - 1] == Decimal(n / 10);
      LeerDecimalDeDecimal(n / 10);
    }
  }

  /** So distinct numbers have distinct numerals. */
  lemma DecimalInyectivo(a: nat, b: nat)
    ensures Decimal(a) == Decimal(b) ==> a == b
  {
    LeerDecimalDeDecimal(a);
    LeerDecimalDeDecimal(b);
  }
}
