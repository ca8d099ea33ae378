/** Generic sequence operations shared by the three components: an order-preserving filter
    (Python's list building with `if`, pandas' `dropna`, JavaScript's `Array.filter`), a map,
    and a sum of real amounts. All three recurse on the last element, so that a loop that
    walks a list from the front keeps "the answer for the prefix" as its invariant. */
module Secuencias {

  function Filtrar<T>(s: seq<T>, p: T -> bool): (r: seq<T>)
    ensures |r| <= |s|
  {
    if s == [] then [] else Filtrar(s[..|s| - 1], p) + (if p(s[|s| - 1]) then [s[|s| - 1]] else [])
  }

  function Mapear<T, U>(s: seq<T>, f: T -> U): (r: seq<U>)
    ensures |r| == |s|
    ensures forall i :: 0 <= i < |s| ==> r[i] == f(s[i])
  {
    if s == [] then [] else Mapear(s[..|s| - 1], f) + [f(s[|s| - 1])]
  }

  function Suma<T>(s: seq<T>, f: T -> real): real
  {
    if s == [] then 0.0 else Suma(s[..|s| - 1], f) + f(s[|s| - 1])
  }

  /** `a` is `b` with some elements removed and the rest kept in order
      (matched greedily from the end, which is complete for subsequences). */
  predicate EsSubsecuencia<T(==)>(a: seq<T>, b: seq<T>)
    decreases |b|
  {
    if a == [] then true
    else if b == [] then false
    else if a[|a| - 1] == b[|b| - 1] then EsSubsecuencia(a[..|a| - 1], b[..|b| - 1])
    else EsSubsecuencia(a, b[..|b| - 1])
  }

  /** Two tests that agree on every element of a list filter it alike. */
  lemma {:induction false} FiltrarEquivalente<T>(s: seq<T>, p: T -> bool, q: T -> bool)
    requires forall i :: 0 <= i < |s| ==> p(s[i]) == q(s[i])
    ensures Filtrar(s, p) == Filtrar(s, q)
  {
    if s != [] {
      FiltrarEquivalente(s[..|s| - 1], p, q);
    }
  }

  /** Mapping a list one element longer appends that element's image. */
  lemma MapearAgregar<T, U>(s: seq<T>, x: T, f: T -> U)
    ensures Mapear(s + [x], f) == Mapear(s, f) + [f(x)]
  {
    assert (s + [x])[..|s|] == s;
  }

  /** Filtering keeps exactly the elements that satisfy the predicate. */
  lemma {:induction false} FiltrarMiembro<T>(s: seq<T>, p: T -> bool, x: T)
    ensures x in Filtrar(s, p) <==> x in s && p(x)
  {
    if s != [] {
      var init := s[..|s| - 1];
      FiltrarMiembro(init, p, x);
      assert s == init + [s[|s| - 1]];
    }
  }

  /** Filtering keeps every copy of an element that satisfies the predicate and drops every
      copy of one that does not. */
  lemma {:induction false} FiltrarMultiplicidad<T>(s: seq<T>, p: T -> bool, x: T)
    ensures multiset(Filtrar(s, p))[x] == if p(x) then multiset(s)[x] else 0
  {
    if s != [] {
      var init := s[..|s| - 1];
      FiltrarMultiplicidad(init, p, x);
      assert s == init + [s[|s| - 1]];
    }
  }

  /** Filtering distributes over concatenation: each part is filtered on its own
      and the parts stay in their order. */
  lemma {:induction false} FiltrarConcat<T>(a: seq<T>, b: seq<T>, p: T -> bool)
    ensures Filtrar(a + b, p) == Filtrar(a, p) + Filtrar(b, p)
    decreases |b|
  {
    if b == [] {
      assert a + b == a;
    } else {
      var binit := b[..|b| - 1];
      assert (a + b)[..|a + b| - 1] == a + binit;
      assert (a + b)[|a + b| - 1] == b[|b| - 1];
      FiltrarConcat(a, binit, p);
    }
  }

  /** Filtering yields a subsequence: the survivors keep their relative order. */
  lemma {:induction false} FiltrarSubsecuencia<T>(s: seq<T>, p: T -> bool)
    ensures EsSubsecuencia(Filtrar(s, p), s)
  {
    if s != [] {
      var init := s[..|s| - 1];
      var last := s[|s| - 1];
      FiltrarSubsecuencia(init, p);
      var r := Filtrar(s, p);
      if p(last) {
        assert r[..|r| - 1] == Filtrar(init, p);
      } else if r != [] {
        assert r == Filtrar(init, p);
        if r[|r| - 1] == last {
          FiltrarMiembro(init, p, r[|r| - 1]);
          assert false;
        }
      }
    }
  }

  /** Summing distributes over concatenation. */
  lemma {:induction false} SumaConcat<T>(a: seq<T>, b: seq<T>, f: T -> real)
    ensures Suma(a + b, f) == Suma(a, f) + Suma(b, f)
    decreases |b|
  {
    if b == [] {
      assert a + b == a;
    } else {
      var binit := b[..|b| - 1];
      assert (a + b)[..|a + b| - 1] == a + binit;
      SumaConcat(a, binit, f);
    }
  }

  /** The sum of a sequence whose first element is split off. */
  lemma SumaCabeza<T>(s: seq<T>, f: T -> real)
    requires s != []
    ensures Suma(s, f) == f(s[0]) + Suma(s[1..], f)
  {
    assert s == [s[0]] + s[1..];
    SumaConcat([s[0]], s[1..], f);
  }

  /** Sum of a pointwise difference is the difference of the sums. */
  lemma {:induction false} SumaResta<T>(s: seq<T>, f: T -> real, g: T -> real, h: T -> real)
    requires forall x :: x in s ==> h(x) == f(x) - g(x)
    ensures Suma(s, h) == Suma(s, f) - Suma(s, g)
  {
    if s != [] {
      SumaResta(s[..|s| - 1], f, g, h);
    }
  }
}
