/**
 * monitoring/metrics.js: the request counters the application keeps in one shared
 * collector. Every finished request is counted once, as a success (status below 400) or an
 * error, both overall and under its endpoint (the method and the route pattern); the
 * summary reports the rates and the busiest endpoints, and `reset` starts the request
 * counters over.
 */
module Metrics {
  import opened Wrappers
  import opened Texto

  // ------------------------------------------------------------ endpoint counters

  /** One endpoint's counters (its `avgResponseTime` is always 0 and is not kept). */
  datatype Estadistica = Estadistica(count: nat, success: nat, errors: nat)

  /** A new endpoint's entry. */
  const Vacia := Estadistica(0, 0, 0)

  /** The counters agree: every request of the endpoint is a success or an error. */
  predicate Cuadra(e: Estadistica) {
    e.count == e.success + e.errors
  }

  /** One more request with status `status` on an endpoint. */
  function Contar(e: Estadistica, status: int): (r: Estadistica)
    ensures r.count == e.count + 1
    ensures Cuadra(e) ==> Cuadra(r)
    ensures status < 400 <==> r.success == e.success + 1
    ensures status < 400 <==> r.errors == e.errors
  {
    if status < 400 then Estadistica(e.count + 1, e.success + 1, e.errors)
    else Estadistica(e.count + 1, e.success, e.errors + 1)
  }

  /** The path part of the key: the matched route's pattern, or the request path when no route (or an empty one) matched. */
  function Ruta(patron: Option<string>, ruta: string): string {
    if patron.Some? && patron.value != [] then patron.value else ruta
  }

  /** The endpoint key `${method} ${route?.path || path}`. */
  function Endpoint(metodo: string, patron: Option<string>, ruta: string): (r: string)
    ensures |r| == |metodo| + 1 + |Ruta(patron, ruta)|
    ensures r[..|metodo|] == metodo && r[|metodo|] == ' ' && r[|metodo| + 1..] == Ruta(patron, ruta)
  {
    metodo + " " + Ruta(patron, ruta)
  }

  /**
   * HTTP methods have no spaces, so two requests share an entry exactly when they have the
   * same method and the same route pattern (or path).
   */
  lemma EndpointDistingue(m1: string, p1: Option<string>, r1: string, m2: string, p2: Option<string>, r2: string)
    requires ' ' !in m1 && ' ' !in m2
    ensures Endpoint(m1, p1, r1) == Endpoint(m2, p2, r2) <==> m1 == m2 && Ruta(p1, r1) == Ruta(p2, r2)
  {
    var a, b := Endpoint(m1, p1, r1), Endpoint(m2, p2, r2);
    if a == b {
      if |m1| < |m2| {
        assert false;
      } else if |m2| < |m1| {
        assert false;
      }
      assert m1 == a[..|m1|] == b[..|m2|] == m2;
      assert Ruta(p1, r1) == a[|m1| + 1..] == b[|m2| + 1..] == Ruta(p2, r2);
    }
  }

  /** Distinct keys, listed in the order they were first seen (the order `Object.entries` gives back). */
  predicate Distintas(orden: seq<string>) {
    forall i, j :: 0 <= i < j < |orden| ==> orden[i] != orden[j]
  }

  /** The endpoint table: the keys in `orden` are exactly the table's, each once, and every entry was counted at least once and agrees. */
  predicate Registro(orden: seq<string>, por: map<string, Estadistica>) {
    && Distintas(orden)
    && (forall k :: k in orden ==> k in por)
    && (forall k :: k in por ==> k in orden && por[k].count >= 1 && Cuadra(por[k]))
  }

  /** The sum of the counts of the endpoints in `claves`. */
  function Suma(claves: seq<string>, por: map<string, Estadistica>): nat
    requires forall k :: k in claves ==> k in por
  {
    if claves == [] then 0 else Suma(SinUltima(claves), por) + por[claves[|claves| - 1]].count
  }

  /** All keys but the last. */
  function SinUltima(claves: seq<string>): (r: seq<string>)
    requires claves != []
    ensures r == claves[..|claves| - 1]
  {
    claves[..|claves| - 1]
  }

  /** Changing an entry that is not listed leaves the sum alone. */
  lemma {:induction false} SumaFuera(claves: seq<string>, por: map<string, Estadistica>, e: string, st: Estadistica)
    requires forall k :: k in claves ==> k in por
    requires e !in claves
    ensures Suma(claves, por[e := st]) == Suma(claves, por)
  {
    if claves != [] {
      SumaFuera(claves[..|claves| - 1], por, e, st);
    }
  }

  /** One more request on a listed endpoint adds one to the sum. */
  lemma {:induction false} SumaIncrementa(claves: seq<string>, por: map<string, Estadistica>, e: string, st: Estadistica)
    requires forall k :: k in claves ==> k in por
    requires Distintas(claves) && e in claves
    requires st.count == por[e].count + 1
    ensures Suma(claves, por[e := st]) == Suma(claves, por) + 1
  {
    var n := |claves| - 1;
    var previas := claves[..n];
    if claves[n] == e {
      assert e !in previas by {
        forall i | 0 <= i < n ensures previas[i] != e {
          assert previas[i] == claves[i];
        }
      }
      SumaFuera(previas, por, e, st);
    } else {
      assert e in previas by {
        var i :| 0 <= i < |claves| && claves[i] == e;
        assert i < n && previas[i] == e;
      }
      SumaIncrementa(previas, por, e, st);
    }
  }

  /** A new endpoint listed last adds its count to the sum. */
  lemma SumaAgrega(claves: seq<string>, por: map<string, Estadistica>, e: string, st: Estadistica)
    requires forall k :: k in claves ==> k in por
    requires e !in claves
    ensures Suma(claves + [e], por[e := st]) == Suma(claves, por) + st.count
  {
    assert (claves + [e])[..|claves|] == claves;
    SumaFuera(claves, por, e, st);
  }

  /** No endpoint has been requested more often than all endpoints together. */
  lemma {:induction false} ConteoAcotado(claves: seq<string>, por: map<string, Estadistica>, e: string)
    requires forall k :: k in claves ==> k in por
    requires e in claves
    ensures por[e].count <= Suma(claves, por)
  {
    var n := |claves| - 1;
    if claves[n] != e {
      var i :| 0 <= i < |claves| && claves[i] == e;
      assert i < n && claves[..n][i] == e;
      ConteoAcotado(claves[..n], por, e);
    }
  }

  /** One more request on a listed endpoint keeps the table consistent and adds one to its sum. */
  lemma RegistrarExistente(orden: seq<string>, por: map<string, Estadistica>, e: string, st: Estadistica)
    requires Registro(orden, por) && e in por
    requires st.count == por[e].count + 1 && Cuadra(st)
    ensures Registro(orden, por[e := st]) && Suma(orden, por[e := st]) == Suma(orden, por) + 1
  {
    SumaIncrementa(orden, por, e, st);
  }

  /** A first request on a new endpoint lists it last, keeps the table consistent and adds its count to the sum. */
  lemma RegistrarNueva(orden: seq<string>, por: map<string, Estadistica>, e: string, st: Estadistica)
    requires Registro(orden, por) && e !in por
    requires st.count >= 1 && Cuadra(st)
    ensures Registro(orden + [e], por[e := st]) && Suma(orden + [e], por[e := st]) == Suma(orden, por) + st.count
  {
    var orden2 := orden + [e];
    SumaAgrega(orden, por, e, st);
    assert Distintas(orden2) by {
      forall i, j | 0 <= i < j < |orden2| ensures orden2[i] != orden2[j] {
        if j == |orden| {
          assert orden2[i] == orden[i];
        }
      }
    }
  }

  /** `metrics.requests`: the request counters and the endpoint table, its keys in insertion order. */
  datatype Solicitudes = Solicitudes(total: nat, success: nat, errors: nat, byEndpoint: map<string, Estadistica>,
                                     orden: seq<string>)

  /** The request counters the constructor and `reset` start from. */
  const SinSolicitudes := Solicitudes(0, 0, 0, map[], [])

  /** The overall counters split into successes and errors, and add up to the endpoint table's counts. */
  ghost predicate Cuadran(q: Solicitudes) {
    && q.total == q.success + q.errors
    && Registro(q.orden, q.byEndpoint)
    && Suma(q.orden, q.byEndpoint) == q.total
  }

  /** The request counters after `recordRequest` counts a request on endpoint `e` answered with `status`. */
  function Registrada(q: Solicitudes, e: string, status: int): (r: Solicitudes)
    ensures r.total == q.total + 1
    ensures status < 400 ==> r.success == q.success + 1 && r.errors == q.errors
    ensures status >= 400 ==> r.errors == q.errors + 1 && r.success == q.success
    ensures forall k :: k in r.byEndpoint <==> k in q.byEndpoint || k == e
    ensures r.byEndpoint[e] == Contar(if e in q.byEndpoint then q.byEndpoint[e] else Vacia, status)
    ensures forall k :: k in q.byEndpoint && k != e ==> r.byEndpoint[k] == q.byEndpoint[k]
    ensures e in q.byEndpoint ==> r.orden == q.orden
    ensures e !in q.byEndpoint ==> r.orden == q.orden + [e]
  {
    var previa := if e in q.byEndpoint then q.byEndpoint[e] else Vacia;
    Solicitudes(q.total + 1, if status < 400 then q.success + 1 else q.success,
                if status < 400 then q.errors else q.errors + 1,
                q.byEndpoint[e := Contar(previa, status)],
                if e in q.byEndpoint then q.orden else q.orden + [e])
  }

  /** Counting a request keeps the counters in agreement. */
  lemma RegistrarCuadra(q: Solicitudes, e: string, status: int)
    requires Cuadran(q)
    ensures Cuadran(Registrada(q, e, status))
  {
    var r := Registrada(q, e, status);
    assert r.byEndpoint == q.byEndpoint[e := r.byEndpoint[e]];
    CuadranTras(q, r, e, r.byEndpoint[e]);
  }

  /** The counters agree after one more request on `e` whose entry becomes `st`. */
  lemma CuadranTras(q: Solicitudes, r: Solicitudes, e: string, st: Estadistica)
    requires Cuadran(q)
    requires r.total == q.total + 1 && r.success + r.errors == r.total
    requires r.byEndpoint == q.byEndpoint[e := st] && Cuadra(st)
    requires st.count == (if e in q.byEndpoint then q.byEndpoint[e].count else 0) + 1
    requires r.orden == if e in q.byEndpoint then q.orden else q.orden + [e]
    ensures Cuadran(r)
  {
    if e in q.byEndpoint {
      RegistrarExistente(q.orden, q.byEndpoint, e, st);
    } else {
      CuadranTrasNueva(q, r, e, st);
    }
  }

  /** The case of `CuadranTras` where `e` is a new endpoint. */
  lemma CuadranTrasNueva(q: Solicitudes, r: Solicitudes, e: string, st: Estadistica)
    requires Cuadran(q) && e !in q.byEndpoint
    requires r.total == q.total + 1 && r.success + r.errors == r.total
    requires r.byEndpoint == q.byEndpoint[e := st] && Cuadra(st) && st.count == 1
    requires r.orden == q.orden + [e]
    ensures Cuadran(r)
  {
    RegistrarNueva(q.orden, q.byEndpoint, e, st);
  }

  // ------------------------------------------------------------ rates and top endpoints

  /** A rate as `getSummary` and `getTopEndpoints` print it: `'0%'`, or `parte / total * 100` with two decimals. */
  datatype Tasa = CeroPorCiento | Porcentaje(parte: nat, total: nat)

  /** `total > 0 ? (parte / total * 100).toFixed(2) + '%' : '0%'`. */
  function TasaDe(parte: nat, total: nat): (r: Tasa)
    ensures r == CeroPorCiento <==> total == 0
    ensures r.Porcentaje? ==> r.total > 0 && r.parte == parte && r.total == total
  {
    if total > 0 then Porcentaje(parte, total) else CeroPorCiento
  }

  /** One `[endpoint, stats]` pair of `Object.entries(byEndpoint)`. */
  datatype Fila = Fila(endpoint: string, stats: Estadistica)

  /** The pairs in insertion order. */
  function Entradas(orden: seq<string>, por: map<string, Estadistica>): (r: seq<Fila>)
    requires forall k :: k in orden ==> k in por
    ensures |r| == |orden|
    ensures forall i :: 0 <= i < |r| ==> r[i] == Fila(orden[i], por[orden[i]])
  {
    seq(|orden|, i requires 0 <= i < |orden| => Fila(orden[i], por[orden[i]]))
  }

  /** Non-increasing by count. */
  predicate Ordenado(s: seq<Fila>) {
    forall i, j :: 0 <= i < j < |s| ==> s[i].stats.count >= s[j].stats.count
  }

  /** Puts `x` after every pair whose count is at least its own. */
  function Insertar(x: Fila, s: seq<Fila>): seq<Fila> {
    if s == [] then [x]
    else if s[0].stats.count >= x.stats.count then [s[0]] + Insertar(x, s[1..])
    else [x] + s
  }

  /**
   * `.sort((a, b) => b[1].count - a[1].count)`: the sort is stable, which insertion from the
   * left reproduces.
   */
  function Ordenar(s: seq<Fila>): seq<Fila> {
    if s == [] then [] else Insertar(s[|s| - 1], Ordenar(s[..|s| - 1]))
  }

  lemma {:induction false} InsertarPermuta(x: Fila, s: seq<Fila>)
    ensures multiset(Insertar(x, s)) == multiset(s) + multiset{x}
  {
    if s != [] && s[0].stats.count >= x.stats.count {
      InsertarPermuta(x, s[1..]);
      assert s == [s[0]] + s[1..];
    }
  }

  lemma {:induction false} InsertarOrdena(x: Fila, s: seq<Fila>)
    requires Ordenado(s)
    ensures Ordenado(Insertar(x, s))
  {
    if s != [] && s[0].stats.count >= x.stats.count {
      InsertarOrdena(x, s[1..]);
      InsertarPermuta(x, s[1..]);
      var t := Insertar(x, s[1..]);
      forall i | 0 <= i < |t| ensures s[0].stats.count >= t[i].stats.count {
        assert t[i] in multiset(s[1..]) + multiset{x};
        if t[i] != x {
          var k :| 0 <= k < |s[1..]| && s[1..][k] == t[i];
          assert s[k + 1] == t[i];
        }
      }
    }
  }

  /** The sort puts the pairs in non-increasing order of count and keeps every pair. */
  lemma {:induction false} OrdenarOrdena(s: seq<Fila>)
    ensures Ordenado(Ordenar(s))
    ensures multiset(Ordenar(s)) == multiset(s)
  {
    if s != [] {
      var n := |s| - 1;
      OrdenarOrdena(s[..n]);
      InsertarOrdena(s[n], Ordenar(s[..n]));
      InsertarPermuta(s[n], Ordenar(s[..n]));
      assert s == s[..n] + [s[n]];
    }
  }

  lemma {:induction false} InsertarAlFinal(x: Fila, s: seq<Fila>)
    requires forall i :: 0 <= i < |s| ==> s[i].stats.count >= x.stats.count
    ensures Insertar(x, s) == s + [x]
  {
    if s != [] {
      InsertarAlFinal(x, s[1..]);
      assert s == [s[0]] + s[1..];
    }
  }

  /** Stability: pairs already in order (ties included) keep their insertion order. */
  lemma {:induction false} OrdenarEstable(s: seq<Fila>)
    requires Ordenado(s)
    ensures Ordenar(s) == s
  {
    if s != [] {
      var n := |s| - 1;
      assert Ordenado(s[..n]);
      OrdenarEstable(s[..n]);
      InsertarAlFinal(s[n], s[..n]);
      assert s == s[..n] + [s[n]];
    }
  }

  /** `slice(0, limit)`'s length on `n` elements: a negative limit counts from the end. */
  function Corte(limit: int, n: nat): (r: nat)
    ensures r <= n
  {
    if limit < 0 then (if n + limit > 0 then n + limit else 0)
    else if limit < n then limit else n
  }

  /** One entry of the result. */
  datatype Top = Top(endpoint: string, count: nat, successRate: Tasa)

  function AlTop(f: Fila): Top {
    Top(f.endpoint, f.stats.count, TasaDe(f.stats.success, f.stats.count))
  }

  /**
   * `getTopEndpoints(limit)`: the busiest endpoints first, at most `limit` of them (with a
   * negative limit, all but that many), each with its count and its success rate.
   */
  function TopEndpoints(filas: seq<Fila>, limit: int): (r: seq<Top>)
    ensures |r| <= |filas|
    ensures 0 <= limit ==> |r| == if limit < |filas| then limit else |filas|
    ensures limit < 0 ==> |r| == if |filas| + limit > 0 then |filas| + limit else 0
    ensures forall i, j :: 0 <= i < j < |r| ==> r[i].count >= r[j].count
    ensures forall i :: 0 <= i < |r| ==> exists f :: f in filas && r[i] == AlTop(f)
  {
    var s := Ordenar(filas);
    OrdenarOrdena(filas);
    var r := seq(Corte(limit, |s|), i requires 0 <= i < Corte(limit, |s|) => AlTop(s[i]));
    assert forall i :: 0 <= i < |r| ==> r[i] == AlTop(s[i]) && s[i] in multiset(filas);
    r
  }

  /** An endpoint left off the list has been requested no more often than any listed one. */
  lemma TopK(filas: seq<Fila>, limit: int, f: Fila)
    requires f in filas
    requires forall i :: 0 <= i < |TopEndpoints(filas, limit)| ==> TopEndpoints(filas, limit)[i].endpoint != f.endpoint
    ensures forall i :: 0 <= i < |TopEndpoints(filas, limit)| ==> f.stats.count <= TopEndpoints(filas, limit)[i].count
  {
    var r := TopEndpoints(filas, limit);
    var s := Ordenar(filas);
    OrdenarOrdena(filas);
    assert f in multiset(s);
    var j :| 0 <= j < |s| && s[j] == f;
    assert |r| == Corte(limit, |s|);
    assert forall i :: 0 <= i < |r| ==> r[i].endpoint == s[i].endpoint;
    assert !(j < |r|);
    forall i | 0 <= i < |r| ensures f.stats.count <= r[i].count {
      assert r[i] == AlTop(s[i]);
    }
  }

  /**
   * On the collector's table each listed endpoint is a real entry, shown with its own count
   * and with its success rate as a percentage (every entry has been counted at least once),
   * and the limit caps the list only below the number of endpoints.
   */
  lemma TopDeRegistro(orden: seq<string>, por: map<string, Estadistica>, limit: int)
    requires Registro(orden, por)
    ensures var r := TopEndpoints(Entradas(orden, por), limit);
            && (forall i :: 0 <= i < |r| ==> r[i].endpoint in por && r[i].count == por[r[i].endpoint].count)
            && (forall i :: 0 <= i < |r| ==> r[i].successRate == Porcentaje(por[r[i].endpoint].success, r[i].count))
            && (limit >= |por| ==> |r| == |por|)
  {
    var filas := Entradas(orden, por);
    var r := TopEndpoints(filas, limit);
    UnaVezCada(orden, por);
    forall i | 0 <= i < |r|
      ensures r[i].endpoint in por && r[i].count == por[r[i].endpoint].count
      ensures r[i].successRate == Porcentaje(por[r[i].endpoint].success, r[i].count)
    {
      assert exists f :: f in filas && r[i] == AlTop(f);
      var f :| f in filas && r[i] == AlTop(f);
      var k :| 0 <= k < |filas| && filas[k] == f;
      assert f == Fila(orden[k], por[orden[k]]);
    }
  }

  // ------------------------------------------------------------ uptime

  /** JavaScript's `x % m` for `x >= 0` and a whole `m > 0`. */
  function Resto(x: real, m: nat): real
    requires x >= 0.0 && m > 0
  {
    x - (m * (x / m as real).Floor) as real
  }

  lemma PisoCociente(x: real, m: nat)
    requires x >= 0.0 && m > 0
    ensures (x / m as real).Floor == x.Floor / m
    ensures Resto(x, m) >= 0.0 && Resto(x, m).Floor == x.Floor % m
  {
    var n := x.Floor;
    var q := n / m;
    var r := n % m;
    assert n == q * m + r && 0 <= r < m;
    var y := x / m as real;
    assert x == y * m as real;
    assert (q * m) as real <= x;
    assert q as real * m as real <= y * m as real;
    assert q as real <= y;
    assert x < (q * m + r + 1) as real;
    assert (q * m + r + 1) as real <= ((q + 1) * m) as real;
    assert y * m as real < (q + 1) as real * m as real;
    assert y < (q + 1) as real;
    assert y.Floor == q;
    assert Resto(x, m) == x - (m * q) as real;
  }

  datatype Uptime = Uptime(dias: nat, horas: nat, minutos: nat, segundos: nat)

  /** The four numbers `formatUptime` computes from the seconds since start. */
  function Desglose(seconds: real): Uptime
    requires seconds >= 0.0
  {
    PisoCociente(seconds, 86400);
    PisoCociente(seconds, 3600);
    PisoCociente(Resto(seconds, 86400), 3600);
    PisoCociente(Resto(seconds, 3600), 60);
    PisoCociente(seconds, 60);
    Uptime((seconds / 86400.0).Floor, (Resto(seconds, 86400) / 3600.0).Floor,
           (Resto(seconds, 3600) / 60.0).Floor, Resto(seconds, 60).Floor)
  }

  /** `formatUptime`: `${days}d ${hours}h ${minutes}m ${secs}s`. */
  function FormatUptime(seconds: real): string
    requires seconds >= 0.0
  {
    var u := Desglose(seconds);
    Decimal(u.dias) + "d " + Decimal(u.horas) + "h " + Decimal(u.minutos) + "m " + Decimal(u.segundos) + "s"
  }

  lemma Descomponer(n: nat)
    ensures n == 86400 * (n / 86400) + 3600 * ((n % 86400) / 3600) + 60 * ((n % 3600) / 60) + n % 60
    ensures (n % 86400) / 3600 < 24 && (n % 3600) / 60 < 60 && n % 60 < 60
  {
  }

  /**
   * The uptime is split into whole days, hours below 24, minutes below 60 and seconds below
   * 60 that add up to the whole seconds elapsed.
   */
  lemma DesgloseCorrecto(seconds: real)
    requires seconds >= 0.0
    ensures var u := Desglose(seconds);
            && u.horas < 24 && u.minutos < 60 && u.segundos < 60
            && u.dias * 86400 + u.horas * 3600 + u.minutos * 60 + u.segundos == seconds.Floor
  {
    var n := seconds.Floor;
    var u := Desglose(seconds);
    PisoCociente(seconds, 86400);
    PisoCociente(seconds, 3600);
    PisoCociente(Resto(seconds, 86400), 3600);
    PisoCociente(Resto(seconds, 3600), 60);
    PisoCociente(seconds, 60);
    assert u == Uptime(n / 86400, (n % 86400) / 3600, (n % 3600) / 60, n % 60);
    Descomponer(n);
  }

  /** One day, one hour, one minute and one and a half seconds read as whole units. */
  lemma UptimeEjemplo()
    ensures FormatUptime(90061.5) == "1d 1h 1m 1s"
  {
    DesgloseCorrecto(90061.5);
    assert (90061.5).Floor == 90061;
    assert Desglose(90061.5) == Uptime(1, 1, 1, 1);
  }

  // ------------------------------------------------------------ the collector

  /** `getSummary()` without the memory figure. */
  datatype Resumen = Resumen(uptime: string, totalRequests: nat, successRate: Tasa, errorRate: Tasa,
                             topEndpoints: seq<Top>)

  class MetricsCollector {
    /** `metrics.requests`. */
    var requests: Solicitudes
    /** `metrics.database.connections`: nothing in the application changes it. */
    var connections: nat
    /** `metrics.database.queries`. */
    var queries: nat
    const startTime: int

    ghost predicate Valid()
      reads this
    {
      Cuadran(requests)
    }

    /** `new MetricsCollector()` at time `ahora` (`Date.now()`). */
    constructor(ahora: int)
      ensures requests == SinSolicitudes && connections == 0 && queries == 0 && startTime == ahora
      ensures Valid()
    {
      requests := SinSolicitudes;
      connections, queries := 0, 0;
      startTime := ahora;
    }

    /**
     * `recordRequest`: one more request overall and on its endpoint, as a success when the
     * status is below 400 and as an error otherwise; a first request creates the endpoint's
     * entry.
     */
    method RecordRequest(metodo: string, patron: Option<string>, ruta: string, status: int)
      requires Valid()
      modifies this
      ensures Valid()
      ensures requests == Registrada(old(requests), Endpoint(metodo, patron, ruta), status)
      ensures connections == old(connections) && queries == old(queries)
    {
      var e := Endpoint(metodo, patron, ruta);
      RegistrarCuadra(requests, e, status);
      requests := Registrada(requests, e, status);
    }

    /** `recordDatabaseQuery`: one more query, nothing else. */
    method RecordDatabaseQuery()
      requires Valid()
      modifies this
      ensures Valid()
      ensures queries == old(queries) + 1
      ensures requests == old(requests) && connections == old(connections)
    {
      queries := queries + 1;
    }

    /** `reset`: the request counters and the query count start over; the start time and the connection count stay. */
    method Reset()
      modifies this
      ensures requests == SinSolicitudes && queries == 0 && connections == old(connections)
      ensures Valid()
    {
      requests := SinSolicitudes;
      queries := 0;
    }

    /** `getTopEndpoints(limit)` on the current counters. */
    function GetTopEndpoints(limit: int): (r: seq<Top>)
      requires Valid()
      reads this
      ensures forall i, j :: 0 <= i < j < |r| ==> r[i].count >= r[j].count
      ensures forall i :: 0 <= i < |r| ==> r[i].endpoint in requests.byEndpoint && r[i].count == requests.byEndpoint[r[i].endpoint].count
      ensures forall i :: 0 <= i < |r| ==> r[i].successRate == Porcentaje(requests.byEndpoint[r[i].endpoint].success, r[i].count)
      ensures 0 <= limit ==> |r| <= limit
      ensures limit >= |requests.byEndpoint| ==> |r| == |requests.byEndpoint|
    {
      TopDeRegistro(requests.orden, requests.byEndpoint, limit);
      TopEndpoints(Entradas(requests.orden, requests.byEndpoint), limit)
    }

    /**
     * `getSummary()` with the uptime given in seconds: the request total, the success and
     * error rates (which split 100% between them once something was counted) and the five
     * busiest endpoints.
     */
    function GetSummary(uptime: real): (r: Resumen)
      requires Valid() && uptime >= 0.0
      reads this
      ensures r.totalRequests == requests.total
      ensures requests.total == 0 ==> r.successRate == CeroPorCiento && r.errorRate == CeroPorCiento
      ensures requests.total > 0 ==>
                && r.successRate == Porcentaje(requests.success, requests.total)
                && r.errorRate == Porcentaje(requests.errors, requests.total)
                && r.successRate.parte + r.errorRate.parte == requests.total
      ensures |r.topEndpoints| <= 5
    {
      var q := requests;
      Resumen(FormatUptime(uptime), q.total, TasaDe(q.success, q.total), TasaDe(q.errors, q.total), GetTopEndpoints(5))
    }
  }

  /** A list of distinct keys that are exactly a map's keys is as long as the map. */
  lemma {:induction false} UnaVezCada(orden: seq<string>, por: map<string, Estadistica>)
    requires Distintas(orden)
    requires forall k :: k in orden <==> k in por
    ensures |orden| == |por|
  {
    if orden == [] {
      assert por.Keys == {};
    } else {
      var n := |orden| - 1;
      var e, previas := orden[n], orden[..n];
      assert orden == previas + [e];
      assert e !in previas by {
        forall i | 0 <= i < n ensures previas[i] != e {
          assert previas[i] == orden[i];
        }
      }
      assert Distintas(previas) by {
        forall i, j | 0 <= i < j < n ensures previas[i] != previas[j] {
          assert previas[i] == orden[i] && previas[j] == orden[j];
        }
      }
      UnaVezCada(previas, por - {e});
    }
  }
}
