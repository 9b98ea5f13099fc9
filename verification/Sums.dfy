/** Sums over the producers. */
module Sums {

  function Sum(f: seq<nat>): nat {
    if f == [] then 0 else Sum(f[..|f| - 1]) + f[|f| - 1]
  }

  lemma {:induction false} SumUpdate(f: seq<nat>, j: nat, v: nat)
    requires j < |f|
    ensures Sum(f[j := v]) + f[j] == Sum(f) + v
  {
    var n := |f| - 1;
    if j == n {
      assert f[j := v][..n] == f[..n];
    } else {
      SumUpdate(f[..n], j, v);
      assert f[j := v][..n] == f[..n][j := v];
    }
  }

  lemma SumOneChange(f: seq<nat>, g: seq<nat>, j: nat, x: nat, y: nat)
    requires |f| == |g| && j < |f| && g[j] + x == f[j] + y
    requires forall i :: 0 <= i < |f| && i != j ==> g[i] == f[i]
    ensures Sum(g) + x == Sum(f) + y
  {
    SumUpdate(f, j, g[j]);
    assert g == f[j := g[j]];
  }

  lemma {:induction false} SumAdd(f: seq<nat>, g: seq<nat>, h: seq<nat>)
    requires |f| == |g| == |h|
    requires forall i :: 0 <= i < |f| ==> h[i] == f[i] + g[i]
    ensures Sum(h) == Sum(f) + Sum(g)
  {
    if f != [] {
      var n := |f| - 1;
      SumAdd(f[..n], g[..n], h[..n]);
    }
  }

  lemma {:induction false} SumZero(f: seq<nat>)
    requires forall i :: 0 <= i < |f| ==> f[i] == 0
    ensures Sum(f) == 0
  {
    if f != [] {
      SumZero(f[..|f| - 1]);
    }
  }

  lemma {:induction false} SumAtMost(f: seq<nat>, g: seq<nat>)
    requires |f| == |g| && forall i :: 0 <= i < |f| ==> f[i] <= g[i]
    ensures Sum(f) <= Sum(g)
    ensures Sum(f) == Sum(g) ==> f == g
  {
    if f != [] {
      var n := |f| - 1;
      SumAtMost(f[..n], g[..n]);
      if Sum(f) == Sum(g) {
        assert f == f[..n] + [f[n]] && g == g[..n] + [g[n]];
      }
    }
  }

  lemma {:induction false} SumBounded(f: seq<nat>, m: nat)
    requires forall i :: 0 <= i < |f| ==> f[i] <= m
    ensures Sum(f) <= |f| * m
  {
    if f != [] {
      var rest := f[..|f| - 1];
      SumBounded(rest, m);
      assert |f| * m == |rest| * m + m;
    }
  }
}
