/**
 * app.js: the Handlebars helpers the views call (`eq`, `or`, `and`, `not`, `includes`,
 * `formatCurrency`, `divide`) and the root route, which sends a logged-in user to their
 * dashboard. The helpers receive JavaScript values, modelled by `Js` with whole numbers
 * only.
 */
module App {
  import opened Wrappers
  import opened Texto
  import opened Http
  import AuthController
  import AuthMiddleware

  /**
   * A JavaScript value as the helpers see it. Numbers are whole (or `NaN`); an array or an
   * object carries an identity `ref`, and an object carries the text its `toString` gives.
   */
  datatype Js =
    | Indefinido
    | Nulo
    | Booleano(b: bool)
    | Num(n: int)
    | NaN
    | Cadena(s: string)
    | Arreglo(ref: nat, elementos: seq<Js>)
    | Objeto(ref: nat, texto: string)

  /** JavaScript truthiness: `undefined`, `null`, `false`, `0`, `NaN` and `""` are falsy. */
  predicate Truthy(v: Js) {
    match v
    case Indefinido => false
    case Nulo => false
    case Booleano(b) => b
    case Num(n) => n != 0
    case NaN => false
    case Cadena(s) => s != []
    case Arreglo(_, _) => true
    case Objeto(_, _) => true
  }

  /** The helper `or`: `a || b`, which gives back one of its operands. */
  function Or(a: Js, b: Js): (r: Js)
    ensures Truthy(r) <==> Truthy(a) || Truthy(b)
    ensures Truthy(a) ==> r == a
    ensures !Truthy(a) ==> r == b
  {
    if Truthy(a) then a else b
  }

  /** The helper `and`: `a && b`. */
  function And(a: Js, b: Js): (r: Js)
    ensures Truthy(r) <==> Truthy(a) && Truthy(b)
    ensures !Truthy(a) ==> r == a
    ensures Truthy(a) ==> r == b
  {
    if Truthy(a) then b else a
  }

  /** The helper `not`: `!a`. */
  function Not(a: Js): (r: Js)
    ensures r == Booleano(!Truthy(a))
    ensures Truthy(r) != Truthy(a)
  {
    Booleano(!Truthy(a))
  }

  /** De Morgan holds for the helpers up to truthiness, which is all a template's `#if` looks at. */
  lemma DeMorgan(a: Js, b: Js)
    ensures Truthy(Not(Or(a, b))) == Truthy(And(Not(a), Not(b)))
    ensures Truthy(Not(And(a, b))) == Truthy(Or(Not(a), Not(b)))
  {
  }

  // ------------------------------------------------------------ toString

  /** The signed numeral of a whole number. */
  function Entero(n: int): (r: string)
    ensures n >= 0 ==> r == Decimal(n)
    ensures n < 0 ==> r == "-" + Decimal(-n)
  {
    if n >= 0 then Decimal(n) else "-" + Decimal(-n)
  }

  /** The texts joined with commas, as `Array.prototype.join` does. */
  function Unir(partes: seq<string>): (r: string)
    ensures partes == [] ==> r == []
    ensures |partes| == 1 ==> r == partes[0]
  {
    if partes == [] then [] else if |partes| == 1 then partes[0] else Unir(partes[..|partes| - 1]) + "," + partes[|partes| - 1]
  }

  /** `String(v)`; inside an array, `null` and `undefined` print as nothing. */
  function ToStr(v: Js): string {
    match v
    case Indefinido => "undefined"
    case Nulo => "null"
    case Booleano(b) => if b then "true" else "false"
    case Num(n) => Entero(n)
    case NaN => "NaN"
    case Cadena(s) => s
    case Arreglo(_, es) =>
      Unir(seq(|es|, i requires 0 <= i < |es| => if es[i].Indefinido? || es[i].Nulo? then "" else ToStr(es[i])))
    case Objeto(_, t) => t
  }

  // ------------------------------------------------------------ loose equality

  /**
   * `Number(s)` for a text: blank is 0, a decimal whole numeral with an optional sign is its
   * value, anything else is `NaN` here.
   */
  function NumeroDeTexto(s: string): (r: Js)
    ensures r.Num? || r.NaN?
    ensures Peso(r) == 0 && Textos(r) == 0
  {
    Numeral(Recortar(s))
  }

  /** The number a trimmed numeral denotes: empty is 0, an optional sign and digits, else `NaN`. */
  function Numeral(t: string): (r: Js)
    ensures r.Num? || r.NaN?
    ensures TodoDigitos(t) ==> r == Num(LeerDecimal(t))
  {
    if t == [] then Num(0)
    else if TodoDigitos(t) then Num(LeerDecimal(t))
    else if |t| > 1 && (t[0] == '-' || t[0] == '+') && TodoDigitos(t[1..]) then
      var v: int := LeerDecimal(t[1..]);
      Num(if t[0] == '-' then -v else v)
    else NaN
  }

  /** `ToPrimitive` of an object: the text its `toString` gives. */
  function Primitivo(v: Js): (r: Js)
    requires v.Arreglo? || v.Objeto?
    ensures r.Cadena? && Peso(r) == 0
  {
    Cadena(ToStr(v))
  }

  /** The JavaScript type of a value (arrays are objects). */
  datatype Tipo = TIndefinido | TNulo | TBooleano | TNumero | TCadena | TObjeto

  function TipoDe(v: Js): Tipo {
    match v
    case Indefinido => TIndefinido
    case Nulo => TNulo
    case Booleano(_) => TBooleano
    case Num(_) => TNumero
    case NaN => TNumero
    case Cadena(_) => TCadena
    case Arreglo(_, _) => TObjeto
    case Objeto(_, _) => TObjeto
  }

  /** `null` or `undefined`. */
  predicate Nulish(v: Js) {
    v.Indefinido? || v.Nulo?
  }

  /** Strict equality of two values of one type: objects by identity, and `NaN` equals nothing. */
  predicate Estricta(a: Js, b: Js)
    requires TipoDe(a) == TipoDe(b)
  {
    match a
    case Indefinido => true
    case Nulo => true
    case Booleano(x) => x == b.b
    case Num(x) => b.Num? && x == b.n
    case NaN => false
    case Cadena(x) => x == b.s
    case Arreglo(r, _) => r == b.ref
    case Objeto(r, _) => r == b.ref
  }

  lemma EstrictaSimetrica(a: Js, b: Js)
    requires TipoDe(a) == TipoDe(b)
    ensures Estricta(a, b) == Estricta(b, a)
  {
  }

  /** `Number(true)` is 1 and `Number(false)` is 0. */
  function DeBooleano(v: Js): (r: Js)
    requires v.Booleano?
    ensures r.Num? && Peso(r) == 0 && Textos(r) == 0
  {
    Num(if v.b then 1 else 0)
  }

  /** How many conversion steps a value can still take before it is a number or a text. */
  function Peso(v: Js): nat {
    match v
    case Booleano(_) => 1
    case Arreglo(_, _) => 2
    case Objeto(_, _) => 2
    case _ => 0
  }

  /** Whether a value is a text, which can still become a number. */
  function Textos(v: Js): nat {
    if v.Cadena? then 1 else 0
  }

  /**
   * The helper `eq`: `a == b`, JavaScript's loose equality (the Abstract Equality
   * Comparison of ECMA-262). Values of one type compare strictly; `null` equals `undefined`
   * and nothing else; a boolean becomes a number; an object compared with a number or a
   * text becomes its text; a text compared with a number becomes a number.
   */
  function Eq(a: Js, b: Js): bool
    decreases Peso(a) + Peso(b), Textos(a) + Textos(b)
  {
    if TipoDe(a) == TipoDe(b) then Estricta(a, b)
    else if Nulish(a) || Nulish(b) then Nulish(a) && Nulish(b)
    else if a.Booleano? then Eq(DeBooleano(a), b)
    else if b.Booleano? then Eq(a, DeBooleano(b))
    else if TipoDe(a) == TObjeto then Eq(Primitivo(a), b)
    else if TipoDe(b) == TObjeto then Eq(a, Primitivo(b))
    else if a.Cadena? then Eq(NumeroDeTexto(a.s), b)
    else Eq(a, NumeroDeTexto(b.s))
  }

  /** One step of `==` when exactly one side is a boolean: it becomes a number, from either side. */
  lemma EqPasoBooleano(a: Js, b: Js)
    requires TipoDe(a) != TipoDe(b) && !Nulish(a) && !Nulish(b) && a.Booleano?
    ensures Eq(a, b) == Eq(DeBooleano(a), b) && Eq(b, a) == Eq(b, DeBooleano(a))
  {
  }

  /** One step of `==` when one side is an object and neither is a boolean: the object becomes a primitive. */
  lemma EqPasoObjeto(a: Js, b: Js)
    requires TipoDe(a) != TipoDe(b) && !Nulish(a) && !Nulish(b) && !a.Booleano? && !b.Booleano?
    requires TipoDe(a) == TObjeto
    ensures Eq(a, b) == Eq(Primitivo(a), b) && Eq(b, a) == Eq(b, Primitivo(a))
  {
  }

  /** One step of `==` between a string and a number: the string becomes a number. */
  lemma EqPasoCadena(a: Js, b: Js)
    requires TipoDe(a) != TipoDe(b) && !Nulish(a) && !Nulish(b) && !a.Booleano? && !b.Booleano?
    requires TipoDe(a) != TObjeto && TipoDe(b) != TObjeto && a.Cadena?
    ensures Eq(a, b) == Eq(NumeroDeTexto(a.s), b) && Eq(b, a) == Eq(b, NumeroDeTexto(a.s))
  {
  }

  /** Loose equality is symmetric. */
  lemma {:induction false} EqSimetrica(a: Js, b: Js)
    ensures Eq(a, b) == Eq(b, a)
    decreases Peso(a) + Peso(b), Textos(a) + Textos(b)
  {
    if TipoDe(a) == TipoDe(b) {
      EstrictaSimetrica(a, b);
    } else if Nulish(a) || Nulish(b) {
    } else if a.Booleano? {
      EqPasoBooleano(a, b);
      EqSimetrica(DeBooleano(a), b);
    } else if b.Booleano? {
      EqPasoBooleano(b, a);
      EqSimetrica(a, DeBooleano(b));
    } else if TipoDe(a) == TObjeto {
      EqPasoObjeto(a, b);
      EqSimetrica(Primitivo(a), b);
    } else if TipoDe(b) == TObjeto {
      EqPasoObjeto(b, a);
      EqSimetrica(a, Primitivo(b));
    } else if a.Cadena? {
      EqPasoCadena(a, b);
      EqSimetrica(NumeroDeTexto(a.s), b);
    } else {
      EqPasoCadena(b, a);
      EqSimetrica(a, NumeroDeTexto(b.s));
    }
  }

  /** Every value but `NaN` equals itself. */
  lemma EqReflexiva(a: Js)
    ensures Eq(a, a) <==> !a.NaN?
  {
  }

  /** `Number` of a blank text is 0. */
  lemma NumeroDeBlanco(s: string)
    requires forall i :: 0 <= i < |s| ==> EsEspacio(s[i])
    ensures NumeroDeTexto(s) == Num(0)
  {
    RecortarVacio(s);
  }

  /** The cases the helper's tests name: `1 == 1`, `'1' == 1`, and not `1 == 2`. */
  lemma EqEjemplos()
    ensures Eq(Num(1), Num(1))
    ensures Eq(Cadena("1"), Num(1))
    ensures !Eq(Num(1), Num(2))
  {
    NumeroDeUno();
    TextoIgualaNumero("1", 1);
  }

  /** `Number("1")` is 1. */
  lemma NumeroDeUno()
    ensures NumeroDeTexto("1") == Num(1)
  {
    RecortarSinEspacios("1");
    assert LeerDecimal("1") == 1 by {
      assert "1"[..0] == [];
    }
  }

  /** Loose equality is not transitive: `" " == 0` and `0 == ""`, yet `" " != ""`. */
  lemma EqNoTransitiva()
    ensures Eq(Cadena(" "), Num(0)) && Eq(Num(0), Cadena("")) && !Eq(Cadena(" "), Cadena(""))
  {
    BlancoIgualaCero(" ");
    BlancoIgualaCero("");
  }

  /** A blank text loosely equals 0, from either side. */
  lemma BlancoIgualaCero(s: string)
    requires forall i :: 0 <= i < |s| ==> EsEspacio(s[i])
    ensures Eq(Cadena(s), Num(0)) && Eq(Num(0), Cadena(s))
  {
    NumeroDeBlanco(s);
    TextoIgualaNumero(s, 0);
  }

  /** A text loosely equals the number it reads as, from either side. */
  lemma TextoIgualaNumero(s: string, n: int)
    requires NumeroDeTexto(s) == Num(n)
    ensures Eq(Cadena(s), Num(n)) && Eq(Num(n), Cadena(s))
  {
    EqPasoCadena(Cadena(s), Num(n));
  }

  // ------------------------------------------------------------ includes

  /**
   * The helper `includes`: false for anything that is not an array; otherwise whether the
   * array holds the text `value.toString()`, compared strictly. A `null` or `undefined`
   * value makes `toString` throw, which is `None` here.
   */
  function Includes(arreglo: Js, valor: Js): (r: Option<bool>)
    ensures !arreglo.Arreglo? ==> r == Some(false)
    ensures arreglo.Arreglo? ==> (r.None? <==> valor.Indefinido? || valor.Nulo?)
    ensures r == Some(true) <==>
              arreglo.Arreglo? && !valor.Indefinido? && !valor.Nulo? && Cadena(ToStr(valor)) in arreglo.elementos
  {
    if !arreglo.Arreglo? then Some(false)
    else if valor.Indefinido? || valor.Nulo? then None
    else Some(Cadena(ToStr(valor)) in arreglo.elementos)
  }

  /** The value is turned into a text but the elements are not: an array of numbers never includes a number. */
  lemma IncludesCompararTexto(ref: nat)
    ensures Includes(Arreglo(ref, [Num(5)]), Num(5)) == Some(false)
    ensures Includes(Arreglo(ref, [Cadena("5")]), Num(5)) == Some(true)
  {
    assert ToStr(Num(5)) == "5";
  }

  // ------------------------------------------------------------ formatCurrency

  /**
   * What `formatCurrency` receives: a falsy value other than 0 (`null`, `undefined`, `false`,
   * `NaN`, `""`), or an amount in whole cents.
   */
  datatype Monto = Falsy | Centavos(c: int)

  /** The fraction digits `toFixed(2)` prints for `c` cents. */
  function DosDigitos(c: nat): (r: string)
    requires c < 100
    ensures |r| == 2 && TodoDigitos(r) && LeerDecimal(r) == c
  {
    var r := [Digito(c / 10), Digito(c % 10)];
    assert r[..|r| - 1] == [Digito(c / 10)];
    assert LeerDecimal([Digito(c / 10)]) == c / 10 by {
      assert [Digito(c / 10)][..0] == [];
    }
    r
  }

  /**
   * The replacement `/\d(?=(\d{3})+\.)/g -> '$&,'` on the whole part `d` of the number:
   * a comma after every digit followed by a positive multiple of three digits.
   */
  function ConComas(d: string): (r: string)
  {
    if d == [] then []
    else [d[0]] + (if |d| - 1 > 0 && (|d| - 1) % 3 == 0 then "," else "") + ConComas(d[1..])
  }

  /** Grouping by threes from the right, the usual thousands separator. */
  function Agrupar(d: string): (r: string)
    decreases |d|
  {
    if |d| <= 3 then d else Agrupar(d[..|d| - 3]) + "," + d[|d| - 3..]
  }

  /** The separator `ConComas` puts after a digit followed by `resto` more digits. */
  function Coma(resto: int): string {
    if resto > 0 && resto % 3 == 0 then "," else ""
  }

  lemma ConComasPaso(d: string)
    requires d != []
    ensures ConComas(d) == [d[0]] + Coma(|d| - 1) + ConComas(d[1..])
  {
  }

  /** Adding a multiple of three to a positive count does not move the separator. */
  lemma {:induction false} ComaDesplazada(x: nat, y: nat)
    requires x > 0 && y % 3 == 0
    ensures Coma(x + y) == Coma(x)
    decreases y
  {
    if y > 0 {
      ComaDesplazada(x, y - 3);
    }
  }

  /** A comma falls between a non-empty head and a tail whose length is a multiple of three. */
  lemma {:induction false} ConComasPartido(a: string, b: string)
    requires a != [] && |b| % 3 == 0
    ensures ConComas(a + b) == ConComas(a) + Coma(|b|) + ConComas(b)
    decreases |a|
  {
    var ab := a + b;
    ConComasPaso(ab);
    ConComasPaso(a);
    if |a| == 1 {
      assert ab[1..] == b;
      assert a[1..] == [];
    } else {
      assert ab[1..] == a[1..] + b;
      ConComasPartido(a[1..], b);
      ComaDesplazada(|a| - 1, |b|);
    }
  }

  /** Three digits or fewer get no comma. */
  lemma SinComas(d: string)
    requires |d| <= 3
    ensures ConComas(d) == d
  {
    if d != [] {
      ConComasPaso(d);
      var e := d[1..];
      if e != [] {
        ConComasPaso(e);
        var f := e[1..];
        if f != [] {
          ConComasPaso(f);
          assert f[1..] == [];
        }
      }
    }
  }

  /** The regular expression groups the digits by threes from the right. */
  lemma {:induction false} ConComasAgrupa(d: string)
    ensures ConComas(d) == Agrupar(d)
    decreases |d|
  {
    if |d| <= 3 {
      SinComas(d);
    } else {
      var a, b := d[..|d| - 3], d[|d| - 3..];
      assert a + b == d;
      ConComasPartido(a, b);
      ConComasAgrupa(a);
      SinComas(b);
    }
  }

  /** `formatCurrency`. */
  function FormatCurrency(m: Monto): (r: string)
    ensures m.Falsy? ==> r == "RD$ 0.00"
  {
    match m
    case Falsy => "RD$ 0.00"
    case Centavos(c) =>
      "RD$" + (if c < 0 then "-" else "") + Cuerpo(if c < 0 then -c else c)
  }

  /** The digits of `a` cents: the whole part grouped by threes, a point, and two decimals. */
  function Cuerpo(a: nat): string {
    ConComas(Decimal(a / 100)) + "." + DosDigitos(a % 100)
  }

  /** The text without its commas. */
  function QuitarComas(s: string): (r: string)
  {
    if s == [] then [] else (if s[0] == ',' then [] else [s[0]]) + QuitarComas(s[1..])
  }

  lemma {:induction false} QuitarComasConcat(a: string, b: string)
    ensures QuitarComas(a + b) == QuitarComas(a) + QuitarComas(b)
    decreases |a|
  {
    if a != [] {
      assert (a + b)[0] == a[0];
      assert (a + b)[1..] == a[1..] + b;
      QuitarComasConcat(a[1..], b);
    } else {
      assert a + b == b;
    }
  }

  /** A text without commas is left as it is. */
  lemma {:induction false} QuitarComasSinComas(s: string)
    requires forall i :: 0 <= i < |s| ==> s[i] != ','
    ensures QuitarComas(s) == s
    decreases |s|
  {
    if s != [] {
      QuitarComasSinComas(s[1..]);
      assert [s[0]] + s[1..] == s;
    }
  }

  /** Removing the commas gives back the digits. */
  lemma {:induction false} QuitarComasDeConComas(d: string)
    requires TodoDigitos(d)
    ensures QuitarComas(ConComas(d)) == d
    decreases |d|
  {
    if d != [] {
      var coma: string := if |d| - 1 > 0 && (|d| - 1) % 3 == 0 then "," else "";
      QuitarComasConcat([d[0]] + coma, ConComas(d[1..]));
      QuitarComasConcat([d[0]], coma);
      QuitarComasDeConComas(d[1..]);
      assert QuitarComas([d[0]]) == [d[0]];
      assert [d[0]] + d[1..] == d;
    }
  }

  /** Reads `digits.dd` as a number of cents. */
  function LeerCuerpo(v: string): (r: Option<nat>)
  {
    if |v| < 4 || v[|v| - 3] != '.' || !TodoDigitos(v[..|v| - 3]) || !TodoDigitos(v[|v| - 2..]) then None
    else Some(LeerDecimal(v[..|v| - 3]) * 100 + LeerDecimal(v[|v| - 2..]))
  }

  /** Reads an amount back from the text `formatCurrency` prints. */
  function LeerMoneda(s: string): (r: Option<int>)
  {
    if |s| < 3 || s[..3] != "RD$" then None
    else
      var t := s[3..];
      var negativo := |t| > 0 && t[0] == '-';
      match LeerCuerpo(QuitarComas(if negativo then t[1..] else t))
      case None => None
      case Some(a) => var m: int := a; Some(if negativo then -m else m)
  }

  lemma LeerCuerpoDe(d: string, f: string)
    requires |d| >= 1 && TodoDigitos(d) && |f| == 2 && TodoDigitos(f)
    ensures LeerCuerpo(d + "." + f) == Some(LeerDecimal(d) * 100 + LeerDecimal(f))
  {
    var v := d + "." + f;
    var n := |v| - 3;
    assert n == |d| && |v| - 2 == n + 1;
    assert v[..n] == d;
    assert v[n] == '.';
    assert v[n + 1..] == f;
  }

  /** How `LeerMoneda` splits off the prefix and the sign. */
  lemma LeerMonedaSigno(negativo: bool, cuerpo: string)
    requires cuerpo != [] && cuerpo[0] != '-'
    ensures var m := LeerCuerpo(QuitarComas(cuerpo));
            LeerMoneda("RD$" + (if negativo then "-" else "") + cuerpo)
            == if m.None? then None else Some(if negativo then -(m.value as int) else m.value)
  {
    var s := "RD$" + (if negativo then "-" else "") + cuerpo;
    assert s[..3] == "RD$";
    var t := s[3..];
    if negativo {
      assert t == "-" + cuerpo;
      assert t[0] == '-' && t[1..] == cuerpo;
    } else {
      assert t == cuerpo;
    }
  }

  /** The digits, the point and the fraction of an amount of `a` cents read back as `a`. */
  lemma CuerpoLeible(a: nat)
    ensures Cuerpo(a) != [] && EsDigito(Cuerpo(a)[0])
    ensures LeerCuerpo(QuitarComas(Cuerpo(a))) == Some(a)
  {
    var d := Decimal(a / 100);
    var f := DosDigitos(a % 100);
    QuitarComasConcat(ConComas(d) + ".", f);
    QuitarComasConcat(ConComas(d), ".");
    QuitarComasDeConComas(d);
    QuitarComasSinComas(".");
    QuitarComasSinComas(f);
    assert QuitarComas(Cuerpo(a)) == d + "." + f;
    LeerCuerpoDe(d, f);
    LeerDecimalDeDecimal(a / 100);
    ConComasPaso(d);
  }

  /** An amount printed with its sign reads back as the signed number of cents. */
  lemma LeerMonedaDeCuerpo(negativo: bool, a: nat)
    ensures LeerMoneda("RD$" + (if negativo then "-" else "") + Cuerpo(a)) == Some(if negativo then -(a as int) else a as int)
  {
    CuerpoLeible(a);
    LeerMonedaSigno(negativo, Cuerpo(a));
  }

  /** The printed amount loses nothing: it reads back as the same number of cents. */
  lemma FormatCurrencyLeible(c: int)
    ensures LeerMoneda(FormatCurrency(Centavos(c))) == Some(c)
  {
    LeerMonedaDeCuerpo(c < 0, if c < 0 then -c else c);
  }

  /** So two amounts print alike only when they are equal, and never like a missing amount. */
  lemma FormatCurrencyInyectivo(a: int, b: int)
    ensures FormatCurrency(Centavos(a)) == FormatCurrency(Centavos(b)) ==> a == b
    ensures FormatCurrency(Centavos(a)) != FormatCurrency(Falsy)
  {
    FormatCurrencyLeible(a);
    FormatCurrencyLeible(b);
    var s := FormatCurrency(Falsy);
    assert s[3..] == " 0.00";
    assert QuitarComas(" 0.00") == " 0.00";
    assert !TodoDigitos(" ");
  }

  /** The numerals the helper's tests print. */
  lemma DecimalesEjemplo()
    ensures Decimal(0) == "0" && Decimal(100) == "100" && Decimal(1000) == "1000" && Decimal(1234) == "1234"
  {
    assert Digito(0) == '0' && Digito(1) == '1' && Digito(2) == '2' && Digito(3) == '3' && Digito(4) == '4';
    assert Decimal(10) == Decimal(1) + [Digito(0)];
    assert Decimal(100) == Decimal(10) + [Digito(0)];
    assert Decimal(1000) == Decimal(100) + [Digito(0)];
    assert Decimal(12) == Decimal(1) + [Digito(2)];
    assert Decimal(123) == Decimal(12) + [Digito(3)];
    assert Decimal(1234) == Decimal(123) + [Digito(4)];
  }

  /** The values the helper's tests expect for 100 and for 0. */
  lemma FormatCurrencyCien()
    ensures FormatCurrency(Centavos(10000)) == "RD$100.00"
    ensures FormatCurrency(Centavos(0)) == "RD$0.00"
    ensures FormatCurrency(Falsy) == "RD$ 0.00"
  {
    DecimalesEjemplo();
    assert DosDigitos(0) == "00" by {
      assert Digito(0) == '0';
    }
    SinComas("100");
    SinComas("0");
    assert Cuerpo(10000) == ConComas(Decimal(100)) + "." + DosDigitos(0);
    assert FormatCurrency(Centavos(10000)) == "RD$" + "" + Cuerpo(10000);
    assert Cuerpo(0) == ConComas(Decimal(0)) + "." + DosDigitos(0);
    assert FormatCurrency(Centavos(0)) == "RD$" + "" + Cuerpo(0);
  }

  /** The value the helper's tests expect for 1000. */
  lemma FormatCurrencyMil()
    ensures FormatCurrency(Centavos(100000)) == "RD$1,000.00"
  {
    DecimalesEjemplo();
    assert DosDigitos(0) == "00" by {
      assert Digito(0) == '0';
    }
    assert "1000" == "1" + "000";
    ConComasPartido("1", "000");
    SinComas("1");
    SinComas("000");
    assert ConComas("1000") == "1,000";
    assert Cuerpo(100000) == ConComas(Decimal(1000)) + "." + DosDigitos(0);
    assert FormatCurrency(Centavos(100000)) == "RD$" + "" + Cuerpo(100000);
  }

  /** The value the helper's tests expect for 1234.56. */
  lemma FormatCurrencyDecimales()
    ensures FormatCurrency(Centavos(123456)) == "RD$1,234.56"
  {
    DecimalesEjemplo();
    assert DosDigitos(56) == "56" by {
      assert Digito(5) == '5' && Digito(6) == '6';
    }
    assert "1234" == "1" + "234";
    ConComasPartido("1", "234");
    SinComas("1");
    SinComas("234");
    assert ConComas("1234") == "1,234";
    assert Cuerpo(123456) == ConComas(Decimal(1234)) + "." + DosDigitos(56);
    assert FormatCurrency(Centavos(123456)) == "RD$" + "" + Cuerpo(123456);
  }

  // ------------------------------------------------------------ divide

  /** The helper `divide` on numbers: a zero divisor gives 0 instead of a division. */
  function Divide(a: real, b: real): (r: real)
    ensures b == 0.0 ==> r == 0.0
    ensures b != 0.0 ==> r * b == a
  {
    if b == 0.0 then 0.0 else a / b
  }

  // ------------------------------------------------------------ root route

  /** `GET /`: a logged-in user goes to their dashboard; no user or an unknown role goes to login. */
  function Raiz(sesion: Sesion): (r: Respuesta)
    ensures sesion.user.None? ==> r == Redirigir("/auth/login")
    ensures sesion.user.Some? && InicioDeRol(sesion.user.value.rol).Some? ==>
              r == Redirigir(InicioDeRol(sesion.user.value.rol).value)
    ensures sesion.user.Some? && InicioDeRol(sesion.user.value.rol).None? ==> r == Redirigir("/auth/login")
  {
    if sesion.user.Some? && InicioDeRol(sesion.user.value.rol).Some? then
      Redirigir(InicioDeRol(sesion.user.value.rol).value)
    else Redirigir("/auth/login")
  }

  /**
   * The root route agrees with `getRoleHome` for every logged-in user, and with the
   * guest-only guard for the four roles; the guard alone sends an unknown role to `/`.
   */
  lemma RaizComoLogin(sesion: Sesion)
    requires sesion.user.Some?
    ensures Raiz(sesion) == Redirigir(AuthController.GetRoleHome(sesion.user.value.rol))
    ensures InicioDeRol(sesion.user.value.rol).Some? ==> Raiz(sesion) == AuthMiddleware.IsNotAuthenticated(sesion)
    ensures InicioDeRol(sesion.user.value.rol).None? ==> AuthMiddleware.IsNotAuthenticated(sesion) == Redirigir("/")
  {
  }
}
