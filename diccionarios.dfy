/** Python dicts with string keys as the engine uses them: keys keep the
    order in which they were first inserted. */
module Diccionarios {
  import opened Secuencias

  /** The keys in insertion order and the value of each key. */
  datatype Dict<V> = Dict(claves: seq<string>, valores: map<string, V>)

  ghost predicate Valido<V>(d: Dict<V>) {
    SinRepetidos(d.claves) && forall k :: k in d.valores <==> k in d.claves
  }

  function Vacio<V>(): (d: Dict<V>)
    ensures Valido(d) && d.claves == []
  {
    Dict([], map[])
  }

  /** `m[k]` of a defaultdict whose default is porDefecto. */
  function ObtenerO<V>(m: map<string, V>, k: string, porDefecto: V): V {
    if k in m then m[k] else porDefecto
  }

  /** `d[k] = v`: a key already present keeps its place, a new one goes last. */
  function Poner<V>(d: Dict<V>, k: string, v: V): (r: Dict<V>)
    requires Valido(d)
    ensures Valido(r)
    ensures r.valores == d.valores[k := v]
    ensures k in d.valores ==> r.claves == d.claves
    ensures k !in d.valores ==> r.claves == d.claves + [k]
  {
    if k in d.valores then Dict(d.claves, d.valores[k := v])
    else Dict(d.claves + [k], d.valores[k := v])
  }

  // ----- sums of the values, in key order -----

  function SumaEnterosEn(claves: seq<string>, valores: map<string, int>): int
    requires forall i :: 0 <= i < |claves| ==> claves[i] in valores
  {
    if claves == [] then 0
    else SumaEnterosEn(claves[..|claves| - 1], valores) + valores[claves[|claves| - 1]]
  }

  function SumaRealesEn(claves: seq<string>, valores: map<string, real>): real
    requires forall i :: 0 <= i < |claves| ==> claves[i] in valores
  {
    if claves == [] then 0.0
    else SumaRealesEn(claves[..|claves| - 1], valores) + valores[claves[|claves| - 1]]
  }

  /** The sum of a dict's integer values. */
  function SumaEnteros(d: Dict<int>): int
    requires Valido(d)
  {
    SumaEnterosEn(d.claves, d.valores)
  }

  /** The sum of a dict's real values. */
  function SumaRealesDict(d: Dict<real>): real
    requires Valido(d)
  {
    SumaRealesEn(d.claves, d.valores)
  }

  lemma {:induction false} SumaEnterosCambia(claves: seq<string>, valores: map<string, int>, k: string, v: int)
    requires SinRepetidos(claves)
    requires forall i :: 0 <= i < |claves| ==> claves[i] in valores
    ensures SumaEnterosEn(claves, valores[k := v])
            == SumaEnterosEn(claves, valores) + (if k in claves then v - valores[k] else 0)
  {
    if claves != [] {
      var previos := claves[..|claves| - 1];
      assert claves == previos + [claves[|claves| - 1]];
      SumaEnterosCambia(previos, valores, k, v);
    }
  }

  lemma {:induction false} SumaRealesCambia(claves: seq<string>, valores: map<string, real>, k: string, v: real)
    requires SinRepetidos(claves)
    requires forall i :: 0 <= i < |claves| ==> claves[i] in valores
    ensures SumaRealesEn(claves, valores[k := v])
            == SumaRealesEn(claves, valores) + (if k in claves then v - valores[k] else 0.0)
  {
    if claves != [] {
      var previos := claves[..|claves| - 1];
      assert claves == previos + [claves[|claves| - 1]];
      SumaRealesCambia(previos, valores, k, v);
    }
  }

  /** Setting `d[k] = v` replaces k's old value (0 if absent) by v in the sum. */
  lemma SumaEnterosTrasPoner(d: Dict<int>, k: string, v: int)
    requires Valido(d)
    ensures SumaEnteros(Poner(d, k, v)) == SumaEnteros(d) - ObtenerO(d.valores, k, 0) + v
  {
    SumaEnterosCambia(d.claves, d.valores, k, v);
    var r := Poner(d, k, v);
    if k !in d.valores {
      assert r.claves[..|r.claves| - 1] == d.claves;
    }
  }

  /** Adding x to k's value (0.0 if absent) adds x to the sum. */
  lemma SumaRealesTrasSumar(d: Dict<real>, k: string, x: real)
    requires Valido(d)
    ensures SumaRealesDict(Poner(d, k, ObtenerO(d.valores, k, 0.0) + x)) == SumaRealesDict(d) + x
  {
    var v := ObtenerO(d.valores, k, 0.0) + x;
    SumaRealesCambia(d.claves, d.valores, k, v);
    var r := Poner(d, k, v);
    if k !in d.valores {
      assert r.claves[..|r.claves| - 1] == d.claves;
    }
  }

  // ----- counting with a `defaultdict(int)` and `d[k] += 1` -----

  /** d counts the keys of ks: its keys are those of ks in order of first
      appearance, each mapped to its number of occurrences. */
  ghost predicate Conteo(d: Dict<int>, ks: seq<string>) {
    && Valido(d)
    && d.claves == Distintos(ks)
    && (forall k :: k in d.valores ==> d.valores[k] == multiset(ks)[k])
    && SumaEnteros(d) == |ks|
  }

  lemma ConteoVacio()
    ensures Conteo(Vacio(), [])
  {
  }

  /** Counting one more key k keeps the dict a count of the longer sequence. */
  lemma ConteoPaso(d: Dict<int>, ks: seq<string>, k: string)
    requires Conteo(d, ks)
    ensures Conteo(Poner(d, k, ObtenerO(d.valores, k, 0) + 1), ks + [k])
  {
    var v := ObtenerO(d.valores, k, 0) + 1;
    ClavesTrasPoner(d, ks, k, v);
    CuentasTrasPoner(d, ks, k);
    SumaEnterosTrasPoner(d, k, v);
  }

  /** Setting a key keeps the key order that of first appearance. */
  lemma ClavesTrasPoner<V>(d: Dict<V>, ks: seq<string>, k: string, v: V)
    requires Valido(d) && d.claves == Distintos(ks)
    ensures Poner(d, k, v).claves == Distintos(ks + [k])
  {
    DistintosPaso(ks, k);
    assert (k in d.valores) == (k in ks);
  }

  lemma CuentasTrasPoner(d: Dict<int>, ks: seq<string>, k: string)
    requires Valido(d) && d.claves == Distintos(ks)
    requires forall j :: j in d.valores ==> d.valores[j] == multiset(ks)[j]
    ensures var r := Poner(d, k, ObtenerO(d.valores, k, 0) + 1);
            forall j :: j in r.valores ==> r.valores[j] == multiset(ks + [k])[j]
  {
    assert multiset(ks + [k]) == multiset(ks) + multiset{k};
    if k !in d.valores {
      assert k !in Distintos(ks);
    }
  }

  /** A count has a positive value for exactly the keys of the sequence. */
  lemma ConteoPositivo(d: Dict<int>, ks: seq<string>, k: string)
    requires Conteo(d, ks)
    ensures k in d.valores <==> k in ks
    ensures k in d.valores ==> d.valores[k] >= 1
  {
    if k in d.valores {
      assert k in Distintos(ks);
    }
  }

  /** Counts the keys of ks, as `d[k] += 1` on a `defaultdict(int)` does key by key. */
  method ContarPorClave(ks: seq<string>) returns (d: Dict<int>)
    ensures Conteo(d, ks)
  {
    d := Vacio();
    ConteoVacio();
    for i := 0 to |ks|
      invariant Conteo(d, ks[..i])
    {
      var k := ks[i];
      assert ks[..i + 1] == ks[..i] + [k];
      ConteoPaso(d, ks[..i], k);
      d := Poner(d, k, ObtenerO(d.valores, k, 0) + 1);
    }
    assert ks[..|ks|] == ks;
  }

  // ----- summing with a `defaultdict(float)` and `d[k] += x` -----

  /** d sums the amounts of ps by key: its keys are those of ps in order of
      first appearance, each mapped to the total amount paired with it. */
  ghost predicate Acumulado(d: Dict<real>, ps: seq<(string, real)>) {
    && Valido(d)
    && d.claves == Distintos(Primeros(ps))
    && (forall k :: k in d.valores ==> d.valores[k] == SumaDeClave(ps, k))
    && SumaRealesDict(d) == SumaSegundos(ps)
  }

  lemma AcumuladoVacio()
    ensures Acumulado(Vacio(), [])
  {
  }

  /** Adding amount x to key k keeps the dict the sums of the longer sequence. */
  lemma AcumuladoPaso(d: Dict<real>, ps: seq<(string, real)>, k: string, x: real)
    requires Acumulado(d, ps)
    ensures Acumulado(Poner(d, k, ObtenerO(d.valores, k, 0.0) + x), ps + [(k, x)])
  {
    PrimerosTrasPoner(d, ps, k, x);
    SumasTrasPoner(d, ps, k, x);
    TotalTrasPoner(d, ps, k, x);
  }

  lemma PrimerosTrasPoner(d: Dict<real>, ps: seq<(string, real)>, k: string, x: real)
    requires Valido(d) && d.claves == Distintos(Primeros(ps))
    ensures Poner(d, k, ObtenerO(d.valores, k, 0.0) + x).claves == Distintos(Primeros(ps + [(k, x)]))
  {
    assert (ps + [(k, x)])[..|ps|] == ps;
    ClavesTrasPoner(d, Primeros(ps), k, ObtenerO(d.valores, k, 0.0) + x);
  }

  lemma TotalTrasPoner(d: Dict<real>, ps: seq<(string, real)>, k: string, x: real)
    requires Valido(d) && SumaRealesDict(d) == SumaSegundos(ps)
    ensures SumaRealesDict(Poner(d, k, ObtenerO(d.valores, k, 0.0) + x)) == SumaSegundos(ps + [(k, x)])
  {
    assert (ps + [(k, x)])[..|ps|] == ps;
    SumaRealesTrasSumar(d, k, x);
  }

  lemma SumasTrasPoner(d: Dict<real>, ps: seq<(string, real)>, k: string, x: real)
    requires Valido(d) && d.claves == Distintos(Primeros(ps))
    requires forall j :: j in d.valores ==> d.valores[j] == SumaDeClave(ps, j)
    ensures var r := Poner(d, k, ObtenerO(d.valores, k, 0.0) + x);
            forall j :: j in r.valores ==> r.valores[j] == SumaDeClave(ps + [(k, x)], j)
  {
    assert (ps + [(k, x)])[..|ps|] == ps;
    if k !in d.valores {
      assert k !in Distintos(Primeros(ps));
      SumaDeClaveAusente(ps, k);
    }
  }

  /** The keys of the sums are exactly the keys that occur. */
  lemma AcumuladoClaves(d: Dict<real>, ps: seq<(string, real)>, k: string)
    requires Acumulado(d, ps)
    ensures k in d.valores <==> k in Primeros(ps)
  {
    if k in d.valores {
      assert k in Distintos(Primeros(ps));
    }
  }

  /** Sums the amounts of ps by key, as `d[k] += x` on a `defaultdict(float)` does pair by pair. */
  method SumarPorClave(ps: seq<(string, real)>) returns (d: Dict<real>)
    ensures Acumulado(d, ps)
  {
    d := Vacio();
    AcumuladoVacio();
    for i := 0 to |ps|
      invariant Acumulado(d, ps[..i])
    {
      var (k, x) := ps[i];
      assert ps[..i + 1] == ps[..i] + [(k, x)];
      AcumuladoPaso(d, ps[..i], k, x);
      d := Poner(d, k, ObtenerO(d.valores, k, 0.0) + x);
    }
    assert ps[..|ps|] == ps;
  }
}
