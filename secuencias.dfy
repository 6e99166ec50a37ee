/** Sequence operations behind the engine's list comprehensions, `set`,
    `sorted`, slicing and `sum`. */
module Secuencias {

  /** `[x for x in s if p(x)]`: the elements of s satisfying p, in order. */
  function Filtro<T(!new)>(s: seq<T>, p: T -> bool): (r: seq<T>)
    ensures |r| <= |s|
    ensures forall x :: x in r <==> x in s && p(x)
    ensures forall x :: multiset(r)[x] == if p(x) then multiset(s)[x] else 0
  {
    if s == [] then []
    else
      var previos := s[..|s| - 1];
      assert s == previos + [s[|s| - 1]];
      Filtro(previos, p) + (if p(s[|s| - 1]) then [s[|s| - 1]] else [])
  }

  /** r is s with some elements deleted, the rest kept in order. */
  predicate EsSubsecuencia<T(==)>(r: seq<T>, s: seq<T>)
    decreases |s|
  {
    if r == [] then true
    else if s == [] then false
    else (r[|r| - 1] == s[|s| - 1] && EsSubsecuencia(r[..|r| - 1], s[..|s| - 1]))
         || EsSubsecuencia(r, s[..|s| - 1])
  }

  lemma {:induction false} FiltroEsSubsecuencia<T(!new)>(s: seq<T>, p: T -> bool)
    ensures EsSubsecuencia(Filtro(s, p), s)
  {
    if s != [] {
      var previos := s[..|s| - 1];
      FiltroEsSubsecuencia(previos, p);
      var r := Filtro(s, p);
      if p(s[|s| - 1]) {
        assert r[..|r| - 1] == Filtro(previos, p);
      } else {
        assert r == Filtro(previos, p);
      }
    }
  }

  /** Filtering by two predicates no element satisfies together keeps at most |s| elements in all. */
  lemma {:induction false} FiltrosDisjuntos<T(!new)>(s: seq<T>, p: T -> bool, q: T -> bool)
    requires forall x :: !(p(x) && q(x))
    ensures |Filtro(s, p)| + |Filtro(s, q)| <= |s|
  {
    if s != [] {
      FiltrosDisjuntos(s[..|s| - 1], p, q);
    }
  }

  ghost predicate SinRepetidos<T>(s: seq<T>) {
    forall i, j :: 0 <= i < j < |s| ==> s[i] != s[j]
  }

  /** The distinct elements of s in order of first appearance (the key order
      of a dict filled from s). */
  function Distintos<T(==,!new)>(s: seq<T>): (r: seq<T>)
    ensures SinRepetidos(r)
    ensures forall x :: x in r <==> x in s
  {
    if s == [] then []
    else
      var previos := s[..|s| - 1];
      assert s == previos + [s[|s| - 1]];
      var d := Distintos(previos);
      if s[|s| - 1] in d then d else d + [s[|s| - 1]]
  }

  lemma DistintosPaso<T(!new)>(s: seq<T>, x: T)
    ensures Distintos(s + [x]) == if x in s then Distintos(s) else Distintos(s) + [x]
  {
    assert (s + [x])[..|s|] == s;
  }

  lemma {:induction false} MultiplicidadSinRepetidos<T>(s: seq<T>, x: T)
    requires SinRepetidos(s)
    ensures multiset(s)[x] <= 1
  {
    if s != [] {
      assert s == [s[0]] + s[1..];
      MultiplicidadSinRepetidos(s[1..], x);
      if x == s[0] {
        assert x !in s[1..];
      }
    }
  }

  lemma DosPosiciones<T>(s: seq<T>, i: int, j: int)
    requires 0 <= i < j < |s| && s[i] == s[j]
    ensures multiset(s)[s[i]] >= 2
  {
    assert s == s[..j] + [s[j]] + s[j + 1..];
    assert s[i] in s[..j];
  }

  /** A rearrangement of a sequence without repetitions has none either. */
  lemma PermutacionSinRepetidos<T>(a: seq<T>, b: seq<T>)
    requires multiset(a) == multiset(b) && SinRepetidos(a)
    ensures SinRepetidos(b)
  {
    forall i, j | 0 <= i < j < |b|
      ensures b[i] != b[j]
    {
      if b[i] == b[j] {
        DosPosiciones(b, i, j);
        MultiplicidadSinRepetidos(a, b[i]);
        assert false;
      }
    }
  }

  /** s is in non-decreasing order of clave. */
  predicate Ordenada<T>(s: seq<T>, clave: T -> int) {
    forall i, j :: 0 <= i < j < |s| ==> clave(s[i]) <= clave(s[j])
  }

  /** Inserts x before the first element whose key is not smaller. */
  function Insertar<T>(x: T, s: seq<T>, clave: T -> int): (r: seq<T>)
    requires Ordenada(s, clave)
    ensures multiset(r) == multiset(s) + multiset{x}
    ensures Ordenada(r, clave)
    ensures r[0] == x || (s != [] && r[0] == s[0])
  {
    if s == [] || clave(x) <= clave(s[0]) then [x] + s
    else
      var resto := Insertar(x, s[1..], clave);
      assert s == [s[0]] + s[1..];
      assert clave(s[0]) <= clave(resto[0]);
      [s[0]] + resto
  }

  /** `sorted(s, key=clave)`: a stable sort (among equal keys the order of s is kept). */
  function OrdenarPor<T>(s: seq<T>, clave: T -> int): (r: seq<T>)
    ensures multiset(r) == multiset(s)
    ensures Ordenada(r, clave)
  {
    if s == [] then []
    else
      assert s == [s[0]] + s[1..];
      Insertar(s[0], OrdenarPor(s[1..], clave), clave)
  }

  /** Python's `s[:n]`: a negative n counts from the end. */
  function Tomar<T>(s: seq<T>, n: int): (r: seq<T>)
    ensures |r| <= |s| && r == s[..|r|]
    ensures n >= 0 ==> |r| == if n <= |s| then n else |s|
    ensures n < 0 ==> |r| == if |s| + n >= 0 then |s| + n else 0
  {
    if n >= 0 then (if n <= |s| then s[..n] else s)
    else (if |s| + n >= 0 then s[..|s| + n] else [])
  }

  /** `sum(xs)` over reals. */
  function SumaReales(xs: seq<real>): real {
    if xs == [] then 0.0 else SumaReales(xs[..|xs| - 1]) + xs[|xs| - 1]
  }

  predicate Acotados(xs: seq<real>, menor: real, mayor: real) {
    forall i :: 0 <= i < |xs| ==> menor <= xs[i] <= mayor
  }

  lemma {:induction false} SumaAcotada(xs: seq<real>, menor: real, mayor: real)
    requires Acotados(xs, menor, mayor)
    ensures (|xs| as real) * menor <= SumaReales(xs) <= (|xs| as real) * mayor
  {
    if xs != [] {
      SumaAcotada(xs[..|xs| - 1], menor, mayor);
    }
  }

  /** The mean of values within [menor, mayor] lies within [menor, mayor]. */
  lemma PromedioAcotado(xs: seq<real>, menor: real, mayor: real)
    requires xs != [] && Acotados(xs, menor, mayor)
    ensures menor <= SumaReales(xs) / (|xs| as real) <= mayor
  {
    SumaAcotada(xs, menor, mayor);
    var n := |xs| as real;
    assert SumaReales(xs) / n * n == SumaReales(xs);
  }

  // ----- sequences of (key, amount) pairs -----

  /** The keys of a sequence of pairs, in order. */
  function Primeros<K, V>(ps: seq<(K, V)>): seq<K> {
    if ps == [] then [] else Primeros(ps[..|ps| - 1]) + [ps[|ps| - 1].0]
  }

  /** The summed amounts of the pairs with key k. */
  function SumaDeClave<K(==)>(ps: seq<(K, real)>, k: K): real {
    if ps == [] then 0.0
    else SumaDeClave(ps[..|ps| - 1], k) + if ps[|ps| - 1].0 == k then ps[|ps| - 1].1 else 0.0
  }

  /** The summed amounts of all pairs. */
  function SumaSegundos<K>(ps: seq<(K, real)>): real {
    if ps == [] then 0.0 else SumaSegundos(ps[..|ps| - 1]) + ps[|ps| - 1].1
  }

  /** A key that does not occur has summed to nothing. */
  lemma {:induction false} SumaDeClaveAusente<K>(ps: seq<(K, real)>, k: K)
    requires k !in Primeros(ps)
    ensures SumaDeClave(ps, k) == 0.0
  {
    if ps != [] {
      SumaDeClaveAusente(ps[..|ps| - 1], k);
    }
  }
}
