/** Sums over the values of a finite map, whatever order its keys are visited in. */
module MapSums {

  ghost function Sum<K>(m: map<K, nat>): nat
    decreases |m|
  {
    if m == map[] then 0
    else
      var k :| k in m;
      assert |m - {k}| < |m| by { SmallerWithout(m, k); }
      m[k] + Sum(m - {k})
  }

  lemma SmallerWithout<K, V>(m: map<K, V>, k: K)
    requires k in m
    ensures |m - {k}| == |m| - 1
  {
    assert (m - {k}).Keys == m.Keys - {k};
    assert |m.Keys| == |m| && |(m - {k}).Keys| == |m - {k}|;
  }

  lemma {:induction false} SumRemove<K>(m: map<K, nat>, k: K)
    requires k in m
    ensures Sum(m) == m[k] + Sum(m - {k})
    decreases |m|
  {
    SmallerWithout(m, k);
    var j :| j in m && Sum(m) == m[j] + Sum(m - {j});
    SmallerWithout(m, j);
    if j != k {
      SumRemove(m - {j}, k);
      SumRemove(m - {k}, j);
      assert m - {j} - {k} == m - {k} - {j};
    }
  }

  lemma SumUpdate<K>(m: map<K, nat>, k: K, v: nat)
    ensures Sum(m[k := v]) == Sum(m) + v - (if k in m then m[k] else 0)
  {
    SumRemove(m[k := v], k);
    assert m[k := v] - {k} == m - {k};
    if k in m {
      SumRemove(m, k);
    } else {
      assert m - {k} == m;
    }
  }

  lemma SumOfEqual<K>(m: map<K, nat>, n: map<K, nat>)
    requires m.Keys == n.Keys
    requires forall k :: k in m ==> m[k] == n[k]
    ensures m == n && Sum(m) == Sum(n)
  {
    assert m == n;
  }

  lemma {:induction false} SumSubsetLe<K>(m: map<K, nat>, n: map<K, nat>)
    requires m.Keys <= n.Keys
    requires forall k :: k in m ==> m[k] <= n[k]
    ensures Sum(m) <= Sum(n)
    decreases |n|
  {
    if n == map[] {
      assert m == map[];
    } else {
      var k :| k in n;
      SmallerWithout(n, k);
      SumSubsetLe(m - {k}, n - {k});
      SumRemove(n, k);
      if k in m {
        SumRemove(m, k);
      } else {
        assert m - {k} == m;
      }
    }
  }

  /** The weight `w` taken `f` times. */
  function Scaled(w: nat, f: real): real
  {
    w as real * f
  }

  lemma ScaledAdds(v: nat, w: nat, f: real)
    ensures Scaled(v + w, f) == Scaled(v, f) + Scaled(w, f)
    ensures Scaled(0, f) == 0.0
  {
    assert (v + w) as real == v as real + w as real;
    Distribute(v as real, w as real, f);
  }

  lemma Distribute(a: real, b: real, f: real)
    ensures (a + b) * f == a * f + b * f
  {
  }

  ghost function RealSum<K>(m: map<K, real>): real
    decreases |m|
  {
    if m == map[] then 0.0
    else
      var k :| k in m;
      assert |m - {k}| < |m| by { SmallerWithout(m, k); }
      m[k] + RealSum(m - {k})
  }

  lemma {:induction false} RealSumRemove<K>(m: map<K, real>, k: K)
    requires k in m
    ensures RealSum(m) == m[k] + RealSum(m - {k})
    decreases |m|
  {
    SmallerWithout(m, k);
    var j :| j in m && RealSum(m) == m[j] + RealSum(m - {j});
    SmallerWithout(m, j);
    if j != k {
      RealSumRemove(m - {j}, k);
      RealSumRemove(m - {k}, j);
      assert m - {j} - {k} == m - {k} - {j};
    }
  }

  lemma {:induction false} OneOfTheRealSum<K>(m: map<K, real>)
    requires forall k :: k in m ==> m[k] >= 0.0
    ensures RealSum(m) >= 0.0 && forall k :: k in m ==> m[k] <= RealSum(m)
    decreases |m|
  {
    forall k | k in m
      ensures m[k] <= RealSum(m)
    {
      SmallerWithout(m, k);
      RealSumRemove(m, k);
      OneOfTheRealSum(m - {k});
    }
    if m != map[] {
      var k :| k in m;
      assert m[k] <= RealSum(m);
    }
  }

  /** The weights scaled by `f` sum to the scaled total weight. */
  lemma {:induction false} RealSumScales<K>(m: map<K, real>, w: map<K, nat>, f: real)
    requires m.Keys == w.Keys
    requires forall k :: k in m ==> m[k] == Scaled(w[k], f)
    ensures RealSum(m) == Scaled(Sum(w), f)
    decreases |m|
  {
    if m == map[] {
      assert w == map[];
      ScaledAdds(0, 0, f);
    } else {
      var k :| k in m;
      SmallerWithout(m, k);
      RealSumRemove(m, k);
      SumRemove(w, k);
      RealSumScales(m - {k}, w - {k}, f);
      ScaledAdds(w[k], Sum(w - {k}), f);
    }
  }

  /** Values within an error of `f` times the weights sum to at most `f` times the total weight and the errors together. */
  lemma {:induction false} SumAtMostScaled<K>(m: map<K, nat>, w: map<K, nat>, f: real, eps: map<K, real>)
    requires m.Keys == w.Keys == eps.Keys
    requires forall k :: k in m ==> m[k] as real <= Scaled(w[k], f) + eps[k]
    ensures Sum(m) as real <= Scaled(Sum(w), f) + RealSum(eps)
    decreases |m|
  {
    if m == map[] {
      assert w == map[] && eps == map[];
      ScaledAdds(0, 0, f);
    } else {
      var k :| k in m;
      SmallerWithout(m, k);
      SumRemove(m, k);
      SumRemove(w, k);
      RealSumRemove(eps, k);
      SumAtMostScaled(m - {k}, w - {k}, f, eps - {k});
      ScaledAdds(w[k], Sum(w - {k}), f);
    }
  }

  /** Values above `f` times the weights less one sum to at least the scaled total less the key count. */
  lemma {:induction false} SumAboveScaled<K>(m: map<K, nat>, w: map<K, nat>, f: real)
    requires m.Keys == w.Keys
    requires forall k :: k in m ==> m[k] as real > Scaled(w[k], f) - 1.0
    ensures Sum(m) as real >= Scaled(Sum(w), f) - |m| as real
    ensures m != map[] ==> Sum(m) as real > Scaled(Sum(w), f) - |m| as real
    decreases |m|
  {
    if m == map[] {
      assert w == map[];
      ScaledAdds(0, 0, f);
    } else {
      var k :| k in m;
      SmallerWithout(m, k);
      SumRemove(m, k);
      SumRemove(w, k);
      SumAboveScaled(m - {k}, w - {k}, f);
      ScaledAdds(w[k], Sum(w - {k}), f);
    }
  }

  /** Splitting every value in two splits the sum. */
  lemma {:induction false} SumSplit<K>(m: map<K, nat>, a: map<K, nat>, b: map<K, nat>)
    requires m.Keys == a.Keys == b.Keys
    requires forall k :: k in m ==> m[k] == a[k] + b[k]
    ensures Sum(m) == Sum(a) + Sum(b)
    decreases |m|
  {
    if m == map[] {
      assert a == map[] && b == map[];
    } else {
      var k :| k in m;
      SmallerWithout(m, k);
      SumRemove(m, k);
      SumRemove(a, k);
      SumRemove(b, k);
      SumSplit(m - {k}, a - {k}, b - {k});
    }
  }

  lemma OneMore(n: nat, v: nat)
    ensures (n + 1) * v == n * v + v
  {
  }

  /** A value held by exactly the keys in `ks` counts once per key of `ks`. */
  lemma {:induction false} SumConstantOn<K>(m: map<K, nat>, ks: set<K>, v: nat)
    requires ks <= m.Keys
    requires forall k :: k in m ==> m[k] == if k in ks then v else 0
    ensures Sum(m) == |ks| * v
    decreases |m|
  {
    if m == map[] {
      assert ks == {};
    } else {
      var k :| k in m;
      SmallerWithout(m, k);
      SumRemove(m, k);
      SumConstantOn(m - {k}, ks - {k}, v);
      if k in ks {
        assert |ks - {k}| == |ks| - 1;
        OneMore(|ks| - 1, v);
      } else {
        assert ks - {k} == ks;
      }
    }
  }
}
