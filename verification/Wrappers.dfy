/** Failure-free building blocks shared by the other modules. */
module Wrappers {

  datatype Option<+T> = None | Some(value: T)

  datatype Result<+T, +E> = Ok(value: T) | Err(error: E)

  /**
   Large predicates are stated folded, `forall n :: Unfold(n) ==> Body`, so that the verifier
   carries them around as one fact. A proof that needs the contents mentions `Unfold(0)`.
   */
  ghost predicate Unfold(n: nat) {
    true
  }

  function Min(a: int, b: int): int {
    if a <= b then a else b
  }

  function Max(a: int, b: int): int {
    if a >= b then a else b
  }

  lemma Assoc<T>(a: seq<T>, b: seq<T>, c: seq<T>)
    ensures a + b + c == a + (b + c)
  {
  }

  lemma PrefixNext<T>(a: seq<T>, b: seq<T>, i: nat)
    requires i < |b|
    ensures a + b[..i] + [b[i]] == a + b[..i + 1]
  {
  }

  lemma PrefixEnds<T>(a: seq<T>, b: seq<T>)
    ensures a + b[..0] == a && a + b[..|b|] == a + b
  {
    assert b[..|b|] == b;
  }

  /** Sum of the first n elements. */
  function SumTo(s: seq<nat>, n: nat): nat
    requires n <= |s|
  {
    if n == 0 then 0 else SumTo(s, n - 1) + s[n - 1]
  }

  function Sum(s: seq<nat>): nat {
    SumTo(s, |s|)
  }

  lemma {:induction false} SumToSame(s: seq<nat>, t: seq<nat>, n: nat)
    requires n <= |s| && n <= |t|
    requires forall i :: 0 <= i < n ==> s[i] == t[i]
    ensures SumTo(s, n) == SumTo(t, n)
  {
    if n > 0 {
      SumToSame(s, t, n - 1);
    }
  }

  lemma {:induction false} SumToUpdate(s: seq<nat>, i: nat, x: nat, n: nat)
    requires i < n <= |s|
    ensures SumTo(s[i := x], n) + s[i] == SumTo(s, n) + x
  {
    if i == n - 1 {
      SumToSame(s, s[i := x], i);
    } else {
      SumToUpdate(s, i, x, n - 1);
    }
  }

  lemma SumUpdate(s: seq<nat>, i: nat, x: nat)
    requires i < |s|
    ensures Sum(s[i := x]) + s[i] == Sum(s) + x
  {
    SumToUpdate(s, i, x, |s|);
  }

  lemma SumAppend(s: seq<nat>, x: nat)
    ensures Sum(s + [x]) == Sum(s) + x
  {
    SumToSame(s, s + [x], |s|);
  }

  lemma {:induction false} SumConcat(a: seq<nat>, b: seq<nat>)
    ensures Sum(a + b) == Sum(a) + Sum(b)
  {
    SumToConcat(a, b, |b|);
  }

  lemma {:induction false} SumToConcat(a: seq<nat>, b: seq<nat>, n: nat)
    requires n <= |b|
    ensures SumTo(a + b, |a| + n) == Sum(a) + SumTo(b, n)
  {
    if n == 0 {
      SumToSame(a, a + b, |a|);
    } else {
      SumToConcat(a, b, n - 1);
    }
  }

  lemma {:induction false} SumBound(s: seq<nat>, c: nat, n: nat)
    requires n <= |s| && forall i :: 0 <= i < n ==> s[i] <= c
    ensures SumTo(s, n) <= n * c
  {
    if n > 0 {
      SumBound(s, c, n - 1);
    }
  }

  /** Sum of a map's values. */
  ghost function SumMap<K>(f: map<K, nat>): nat {
    if f == map[] then 0
    else
      var k :| k in f;
      f[k] + SumMap(f - {k})
  }

  lemma {:induction false} SumMapTake<K>(f: map<K, nat>, k: K)
    requires k in f
    ensures SumMap(f) == f[k] + SumMap(f - {k})
  {
    var c :| c in f && SumMap(f) == f[c] + SumMap(f - {c});
    if c != k {
      SumMapTake(f - {c}, k);
      SumMapTake(f - {k}, c);
      assert f - {c} - {k} == f - {k} - {c};
    }
  }

  lemma SumMapPut<K>(f: map<K, nat>, k: K, v: nat)
    ensures SumMap(f[k := v]) == SumMap(f - {k}) + v
    ensures k !in f ==> SumMap(f[k := v]) == SumMap(f) + v
    ensures k in f ==> SumMap(f[k := v]) + f[k] == SumMap(f) + v
  {
    SumMapTake(f[k := v], k);
    assert f[k := v] - {k} == f - {k};
    if k in f {
      SumMapTake(f, k);
    } else {
      assert f - {k} == f;
    }
  }

  lemma {:induction false} SumMapMonotone<K>(f: map<K, nat>, g: map<K, nat>)
    requires f.Keys == g.Keys && forall k :: k in f ==> f[k] <= g[k]
    ensures SumMap(f) <= SumMap(g)
    decreases |f|
  {
    if k :| k in f {
      SumMapTake(f, k);
      SumMapTake(g, k);
      SumMapMonotone(f - {k}, g - {k});
    } else {
      assert f == map[] == g;
    }
  }

  lemma {:induction false} SumMapZero<K>(f: map<K, nat>)
    requires forall k :: k in f ==> f[k] == 0
    ensures SumMap(f) == 0
    decreases |f|
  {
    if k :| k in f {
      SumMapTake(f, k);
      SumMapZero(f - {k});
    }
  }
}
