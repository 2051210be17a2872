/** Drawing from a stream's top candidates: temperature, then top-k, then top-p, by inverse cumulative sum. */
module Sampling {
  import opened Wrappers
  import opened KvModel

  /** The first n numbers added up. */
  ghost function Mass(p: seq<real>, n: nat): real
    requires n <= |p|
  {
    if n == 0 then 0.0 else Mass(p, n - 1) + p[n - 1]
  }

  ghost predicate Positive(p: seq<real>) {
    forall i :: 0 <= i < |p| ==> p[i] > 0.0
  }

  lemma {:induction false} MassGrows(p: seq<real>, m: nat, n: nat)
    requires Positive(p) && m <= n <= |p|
    ensures Mass(p, m) <= Mass(p, n) && (m < n ==> Mass(p, m) < Mass(p, n))
  {
    if m < n {
      MassGrows(p, m, n - 1);
    }
  }

  /** What is kept of a pool: all of it up to top-k, or the fewest of those that together reach top-p. */
  ghost predicate Kept(params: SamplingParams, p: seq<real>, n: nat) {
    var most := if params.topK == 0 then |p| else Min(params.topK, |p|);
    && 1 <= n <= most
    && if 0.0 < params.topP < 1.0 then
         Mass(p, n) >= params.topP * Mass(p, most) && forall k :: 0 <= k < n ==> Mass(p, k) < params.topP * Mass(p, most)
       else n == most
  }

  /** The weights of the top-k candidates, made to add up to one. */
  method Normalised(weights: seq<real>) returns (p: seq<real>)
    requires weights != [] && Positive(weights)
    ensures |p| == |weights| && Positive(p) && Mass(p, |p|) == 1.0
    ensures forall i :: 0 <= i < |p| ==> p[i] * Mass(weights, |weights|) == weights[i]
  {
    hide Mass;
    var z := Total(weights, |weights|);
    MassPositive(weights, |weights|);
    p := seq(|weights|, i requires 0 <= i < |weights| => weights[i] / z);
    forall i | 0 <= i < |p| ensures p[i] * z == weights[i] && p[i] > 0.0 {
      Quotient(weights[i], z);
    }
    AddsToOne(p, weights, z);
  }

  lemma {:induction false} AddsToOne(p: seq<real>, w: seq<real>, z: real)
    requires |p| == |w| && z == Mass(w, |w|) > 0.0 && forall i :: 0 <= i < |p| ==> p[i] * z == w[i]
    ensures Mass(p, |p|) == 1.0
  {
    Scaled(p, w, z, |w|);
    hide Mass;
    Cancel(Mass(p, |w|), z, Mass(w, |w|));
  }

  method Total(p: seq<real>, n: nat) returns (z: real)
    requires n <= |p|
    ensures z == Mass(p, n)
  {
    z := 0.0;
    var i := 0;
    while i < n
      invariant i <= n && z == Mass(p, i)
    {
      z := z + p[i];
      i := i + 1;
    }
  }

  lemma {:induction false} MassPositive(p: seq<real>, n: nat)
    requires Positive(p) && 0 < n <= |p|
    ensures Mass(p, n) > 0.0
  {
    MassGrows(p, 0, n);
  }

  lemma {:induction false} Scaled(p: seq<real>, w: seq<real>, z: real, n: nat)
    requires |p| == |w| && n <= |p| && forall i :: 0 <= i < |p| ==> p[i] * z == w[i]
    ensures Mass(p, n) * z == Mass(w, n)
  {
    if n > 0 {
      Scaled(p, w, z, n - 1);
      assert (Mass(p, n - 1) + p[n - 1]) * z == Mass(p, n - 1) * z + p[n - 1] * z;
    }
  }

  lemma Quotient(x: real, z: real)
    requires x > 0.0 && z > 0.0
    ensures x / z * z == x && x / z > 0.0
  {
  }

  lemma Cancel(x: real, z: real, y: real)
    requires x * z == y && y == z && z > 0.0
    ensures x == 1.0
  {
    assert (x - 1.0) * z == 0.0;
  }

  /** The smallest prefix that reaches top-p. */
  method Cut(p: seq<real>, topP: real) returns (cut: nat)
    requires p != [] && Positive(p) && Mass(p, |p|) == 1.0
    ensures 1 <= cut <= |p|
    ensures if 0.0 < topP < 1.0 then Mass(p, cut) >= topP && forall k :: 0 <= k < cut ==> Mass(p, k) < topP
            else cut == |p|
  {
    cut := |p|;
    if 0.0 < topP < 1.0 {
      var cum := 0.0;
      var i := 0;
      while i < |p|
        invariant i <= |p| && cum == Mass(p, i)
        invariant forall k :: 0 <= k <= i ==> Mass(p, k) < topP
      {
        cum := cum + p[i];
        if cum >= topP {
          cut := i + 1;
          return;
        }
        i := i + 1;
      }
    }
  }

  /** The candidate on which u, of the kept mass, falls. */
  method Draw(p: seq<real>, cut: nat, u: real) returns (k: nat)
    requires 1 <= cut <= |p| && Positive(p) && 0.0 < u < 1.0
    ensures k < cut && Mass(p, k) < u * Mass(p, cut) <= Mass(p, k + 1)
  {
    hide Mass, Share;
    var zc := Total(p, cut);
    MassPositive(p, cut);
    ShareBelow(u, zc);
    k := Crossing(p, cut, Share(u, zc));
    Shared(Mass(p, k), u, Mass(p, cut), Mass(p, k + 1));
  }

  /** The candidate at which the running sum reaches the target, the last kept one if none before it. */
  method Crossing(p: seq<real>, cut: nat, target: real) returns (k: nat)
    requires 1 <= cut <= |p| && 0.0 < target <= Mass(p, cut)
    ensures k < cut && Mass(p, k) < target <= Mass(p, k + 1)
  {
    var acc := 0.0;
    k := 0;
    while true
      invariant k < cut && acc == Mass(p, k) < target
      decreases cut - k
    {
      acc := acc + p[k];
      assert acc == Mass(p, k + 1);
      if acc >= target || k == cut - 1 {
        return;
      }
      k := k + 1;
    }
  }

  function Share(u: real, z: real): real {
    u * z
  }

  lemma ShareBelow(u: real, z: real)
    requires 0.0 < u < 1.0 && 0.0 < z
    ensures 0.0 < Share(u, z) < z
  {
    ProductPositive(u, z);
    PartBelow(u, z, Share(u, z));
  }

  lemma PartBelow(u: real, z: real, t: real)
    requires 0.0 < u < 1.0 && 0.0 < z && t == u * z
    ensures t < z
  {
    var d := (1.0 - u) * z;
    ProductPositive(1.0 - u, z);
    assert d == z - t;
  }

  lemma ProductPositive(a: real, b: real)
    requires a > 0.0 && b > 0.0
    ensures a * b > 0.0
  {
  }

  lemma Shared(x: real, u: real, z: real, y: real)
    requires x < Share(u, z) <= y
    ensures x < u * z <= y
  {
  }

  /** The kept candidates' position drawn by u, from the candidates' weights in rank order. */
  method DrawFrom(weights: seq<real>, params: SamplingParams, u: real) returns (k: nat, ghost n: nat)
    requires weights != [] && Positive(weights) && 0.0 < u < 1.0
    ensures Kept(params, weights, n) && n <= |weights|
    ensures k < n && Mass(weights, k) < u * Mass(weights, n) <= Mass(weights, k + 1)
  {
    hide Kept, Mass;
    var most := if params.topK == 0 then |weights| else Min(params.topK, |weights|);
    var top := weights[..most];
    var p := Normalised(top);
    var cut := Cut(p, params.topP);
    k := Draw(p, cut, u);
    n := cut;
    assert |p| == most;
    Rescaled(p, top, weights, most, cut, k, u, params);
  }

  lemma {:induction false} MassPrefix(p: seq<real>, most: nat, n: nat)
    requires n <= most <= |p|
    ensures Mass(p[..most], n) == Mass(p, n)
  {
    if n > 0 {
      MassPrefix(p, most, n - 1);
    }
  }

  /** Partial sums of normalised weights are those of the weights, scaled. */
  lemma {:induction false} MassScaled(p: seq<real>, w: seq<real>, most: nat, j: nat)
    requires 1 <= most <= |w| && |p| == most && j <= most
    requires forall i :: 0 <= i < most ==> p[i] * Mass(w[..most], most) == w[..most][i]
    ensures Mass(p, j) * Mass(w, most) == Mass(w, j)
  {
    MassPrefix(w, most, most);
    Scaled(p, w[..most], Mass(w, most), j);
    MassPrefix(w, most, j);
  }

  /** Comparisons of partial sums, with a factor on one side, survive scaling. */
  lemma Compare(x: real, u: real, y: real, z: real, wx: real, wy: real)
    requires z > 0.0 && wx == x * z && wy == y * z
    ensures x < u * y <==> wx < u * wy
    ensures u * y <= x <==> u * wy <= wx
  {
    Assoc3(u, y, z);
    Times(x, u * y, z);
    Times(u * y, x, z);
  }

  /** Conditions on normalised weights carry over to the weights. */
  lemma Rescaled(p: seq<real>, top: seq<real>, w: seq<real>, most: nat, n: nat, k: nat, u: real, params: SamplingParams)
    requires 1 <= most <= |w| && top == w[..most] && |p| == most && Positive(w) && Mass(p, most) == 1.0
    requires most == if params.topK == 0 then |w| else Min(params.topK, |w|)
    requires forall i :: 0 <= i < most ==> p[i] * Mass(top, most) == top[i]
    requires k < n <= most && Mass(p, k) < u * Mass(p, n) <= Mass(p, k + 1)
    requires if 0.0 < params.topP < 1.0 then Mass(p, n) >= params.topP && forall j :: 0 <= j < n ==> Mass(p, j) < params.topP
             else n == most
    ensures Kept(params, w, n) && Mass(w, k) < u * Mass(w, n) <= Mass(w, k + 1)
  {
    hide Mass, Kept;
    MassPositive(w, most);
    forall j | 0 <= j <= most ensures Share(Mass(p, j), Mass(w, most)) == Mass(w, j) {
      MassScaled(p, w, most, j);
    }
    RescaledKept(p, w, most, n, params);
    RescaledDraw(p, w, most, n, k, u);
  }

  lemma {:induction false} RescaledKept(p: seq<real>, w: seq<real>, most: nat, n: nat, params: SamplingParams)
    requires most == (if params.topK == 0 then |w| else Min(params.topK, |w|)) && |p| == most && Mass(w, most) > 0.0
    requires forall j :: 0 <= j <= most ==> Share(Mass(p, j), Mass(w, most)) == Mass(w, j)
    requires 1 <= n <= most
    requires if 0.0 < params.topP < 1.0 then Mass(p, n) >= params.topP && forall j :: 0 <= j < n ==> Mass(p, j) < params.topP
             else n == most
    ensures Kept(params, w, n)
  {
    hide Mass, Share, Kept;
    var t := Share(params.topP, Mass(w, most));
    forall j | 0 <= j <= most ensures Mass(p, j) < params.topP <==> Mass(w, j) < t {
      Crosses(Mass(p, j), params.topP, Mass(w, most), Mass(w, j));
    }
    Keeps(w, params, most, n, t);
  }

  lemma {:induction false} Keeps(w: seq<real>, params: SamplingParams, most: nat, n: nat, t: real)
    requires most == (if params.topK == 0 then |w| else Min(params.topK, |w|)) && 1 <= n <= most
    requires t == Share(params.topP, Mass(w, most))
    requires if 0.0 < params.topP < 1.0 then Mass(w, n) >= t && forall k :: 0 <= k < n ==> Mass(w, k) < t else n == most
    ensures Kept(params, w, n)
  {
    hide Mass;
  }

  lemma Crosses(x: real, q: real, z: real, wx: real)
    requires z > 0.0 && Share(x, z) == wx
    ensures x < q <==> wx < Share(q, z)
  {
    Times(x, q, z);
  }

  lemma RescaledDraw(p: seq<real>, w: seq<real>, most: nat, n: nat, k: nat, u: real)
    requires most <= |w| && |p| == most && Mass(w, most) > 0.0
    requires forall j :: 0 <= j <= most ==> Share(Mass(p, j), Mass(w, most)) == Mass(w, j)
    requires k < n <= most && Mass(p, k) < u * Mass(p, n) <= Mass(p, k + 1)
    ensures Mass(w, k) < u * Mass(w, n) <= Mass(w, k + 1)
  {
    hide Mass;
    var z := Mass(w, most);
    Compare(Mass(p, k), u, Mass(p, n), z, Mass(w, k), Mass(w, n));
    Compare(Mass(p, k + 1), u, Mass(p, n), z, Mass(w, k + 1), Mass(w, n));
  }

  lemma Assoc3(a: real, b: real, c: real)
    ensures a * b * c == a * (b * c)
  {
  }

  lemma Times(a: real, b: real, z: real)
    requires z > 0.0
    ensures a < b <==> a * z < b * z
    ensures a <= b <==> a * z <= b * z
  {
    assert (b - a) * z == b * z - a * z;
  }

  const SENTINEL: real := -30000000000000000000000000000000000000.0

  /** How many candidates are real: the values are in descending order, and the kernel fills up with a sentinel. */
  method Candidates(vals: seq<real>, idxs: seq<Token>) returns (n: nat)
    ensures n <= |vals| && n <= |idxs|
    ensures forall i :: 0 <= i < n ==> vals[i] > SENTINEL
    ensures n < |vals| && n < |idxs| ==> vals[n] <= SENTINEL
  {
    n := 0;
    while n < |vals| && vals[n] > SENTINEL
      invariant n <= |vals| && forall i :: 0 <= i < n ==> vals[i] > SENTINEL
    {
      n := n + 1;
    }
    n := Min(n, |idxs|);
  }

  /** A candidate's weight at a temperature, relative to the best. */
  function Weights(exp: real -> real, vals: seq<real>, n: nat, temp: real): (w: seq<real>)
    requires n <= |vals| && temp > 0.0
    ensures |w| == n && forall i :: 0 <= i < n ==> w[i] == exp((vals[i] - vals[0]) / temp)
  {
    seq(n, i requires 0 <= i < n => exp((vals[i] - vals[0]) / temp))
  }

  /**
   Draws a candidate. At temperature zero, or without a real candidate, it is the first; otherwise the
   one on which u falls among those that top-k and top-p keep.
   */
  method SampleTopK(exp: real -> real, vals: seq<real>, idxs: seq<Token>, params: SamplingParams, u: real) returns (t: Token, ghost n: nat, ghost k: nat)
    requires idxs != [] && 0.0 < u < 1.0 && forall x :: exp(x) > 0.0
    ensures n <= |vals| && k < |idxs| && t == idxs[k]
    ensures n == 0 || params.temp <= 0.0 ==> k == 0
    ensures n > 0 && params.temp > 0.0 ==>
        var w := Weights(exp, vals, n, params.temp);
        exists kept: nat :: kept <= n && k < kept && Kept(params, w, kept) && Mass(w, k) < u * Mass(w, kept) <= Mass(w, k + 1)
  {
    hide Kept, Mass, Weights;
    var found := Candidates(vals, idxs);
    if found == 0 || params.temp <= 0.0 {
      return idxs[0], found, 0;
    }
    var w := Weights(exp, vals, found, params.temp);
    assert Positive(w);
    var pos;
    ghost var kept;
    pos, kept := DrawFrom(w, params, u);
    return idxs[pos], found, pos;
  }

  /** The candidate path is needed exactly when some pool loses a candidate to top-k or top-p. */
  lemma NeedsTopKIff(params: SamplingParams)
    ensures params.NeedsTopK() <==> exists p: seq<real>, n: nat :: Positive(p) && n < |p| && Kept(params, p, n)
  {
    if 0.0 < params.topP < 1.0 {
      TopPCuts(params);
    } else if params.topK > 0 {
      var p := seq(params.topK + 1, _ => 1.0);
      assert Kept(params, p, params.topK);
    }
  }

  /** Two candidates, the first so heavy that it reaches top-p alone. */
  lemma TopPCuts(params: SamplingParams)
    requires 0.0 < params.topP < 1.0
    ensures exists p: seq<real>, n: nat :: Positive(p) && n < |p| && Kept(params, p, n)
  {
    var p := [params.topP, 1.0 - params.topP];
    assert Mass(p, 0) == 0.0 && Mass(p, 1) == params.topP && Mass(p, 2) == 1.0;
    assert params.topP * params.topP < params.topP;
    assert Kept(params, p, 1);
  }
}
