/** Sums, means and elementwise operations on sequences of reals, the
    reductions `sum(-1)` and `mean()` the losses are built from. */
module RealSeq {

  function Sum(s: seq<real>): real
  {
    if |s| == 0 then 0.0 else s[0] + Sum(s[1..])
  }

  function Mean(s: seq<real>): real
    requires |s| > 0
  {
    Sum(s) / (|s| as real)
  }

  function Mul(a: seq<real>, b: seq<real>): (r: seq<real>)
    requires |a| == |b|
    ensures |r| == |a|
    ensures forall i :: 0 <= i < |a| ==> r[i] == a[i] * b[i]
  {
    if |a| == 0 then [] else [a[0] * b[0]] + Mul(a[1..], b[1..])
  }

  function Add(a: seq<real>, b: seq<real>): (r: seq<real>)
    requires |a| == |b|
    ensures |r| == |a|
    ensures forall i :: 0 <= i < |a| ==> r[i] == a[i] + b[i]
  {
    if |a| == 0 then [] else [a[0] + b[0]] + Add(a[1..], b[1..])
  }

  function Sub(a: seq<real>, b: seq<real>): (r: seq<real>)
    requires |a| == |b|
    ensures |r| == |a|
    ensures forall i :: 0 <= i < |a| ==> r[i] == a[i] - b[i]
  {
    if |a| == 0 then [] else [a[0] - b[0]] + Sub(a[1..], b[1..])
  }

  function Scale(a: seq<real>, k: real): (r: seq<real>)
    ensures |r| == |a|
    ensures forall i :: 0 <= i < |a| ==> r[i] == k * a[i]
  {
    seq(|a|, i requires 0 <= i < |a| => k * a[i])
  }

  /** `a / d`, elementwise. */
  function DivideBy(a: seq<real>, d: real): (r: seq<real>)
    requires d != 0.0
    ensures |r| == |a|
    ensures forall i :: 0 <= i < |a| ==> r[i] == a[i] / d
  {
    seq(|a|, i requires 0 <= i < |a| => a[i] / d)
  }

  /** `1 - a`, elementwise. */
  function OneMinus(a: seq<real>): (r: seq<real>)
    ensures |r| == |a|
    ensures forall i :: 0 <= i < |a| ==> r[i] == 1.0 - a[i]
  {
    if |a| == 0 then [] else [1.0 - a[0]] + OneMinus(a[1..])
  }

  /** `f` applied to every element (an elementwise activation). */
  function Apply(f: real -> real, a: seq<real>): (r: seq<real>)
    ensures |r| == |a|
    ensures forall i :: 0 <= i < |a| ==> r[i] == f(a[i])
  {
    if |a| == 0 then [] else [f(a[0])] + Apply(f, a[1..])
  }

  function Const(n: nat, v: real): (r: seq<real>)
    ensures |r| == n
  {
    seq(n, _ => v)
  }

  function Max(a: real, b: real): real
  {
    if a >= b then a else b
  }

  function Abs(a: real): real
  {
    if a >= 0.0 then a else -a
  }

  ghost predicate AllIn(s: seq<real>, lo: real, hi: real)
  {
    forall i :: 0 <= i < |s| ==> lo <= s[i] <= hi
  }

  ghost predicate AllEqual(s: seq<real>, v: real)
  {
    forall i :: 0 <= i < |s| ==> s[i] == v
  }

  lemma {:induction false} SumAppend(a: seq<real>, b: seq<real>)
    ensures Sum(a + b) == Sum(a) + Sum(b)
  {
    if |a| > 0 {
      assert (a + b)[1..] == a[1..] + b;
      SumAppend(a[1..], b);
    } else {
      assert a + b == b;
    }
  }

  /** Extending a prefix by one element adds that element to its sum. */
  lemma SumPrefixStep(a: seq<real>, i: nat)
    requires i < |a|
    ensures Sum(a[..i + 1]) == Sum(a[..i]) + a[i]
  {
    assert a[..i + 1] == a[..i] + [a[i]];
    SumAppend(a[..i], [a[i]]);
    MeanSingleton(a[i]);
  }

  /** A sum whose terms are all zero but the one at `t` is that term. */
  lemma {:induction false} SumSingleNonzero(a: seq<real>, t: nat)
    requires t < |a| && forall c :: 0 <= c < |a| && c != t ==> a[c] == 0.0
    ensures Sum(a) == a[t]
  {
    if t == 0 {
      SumConst(a[1..], 0.0);
    } else {
      SumSingleNonzero(a[1..], t - 1);
    }
  }

  lemma {:induction false} SumScale(a: seq<real>, k: real)
    ensures Sum(Scale(a, k)) == k * Sum(a)
  {
    if |a| > 0 {
      SumScale(a[1..], k);
      var t := Scale(a, k);
      ScaleTail(a, k);
      ScaleStep(k, a[0], Sum(a[1..]), t[0], Sum(t[1..]), Sum(a), Sum(t));
    }
  }

  lemma {:induction false} SumDivideBy(a: seq<real>, d: real)
    requires d != 0.0
    ensures Sum(DivideBy(a, d)) == Sum(a) / d
  {
    if |a| > 0 {
      SumDivideBy(a[1..], d);
      DivideByTail(a, d);
      DivideSum(a[0], Sum(a[1..]), d);
    }
  }

  lemma DivideSum(x: real, y: real, d: real)
    requires d != 0.0
    ensures x / d + y / d == (x + y) / d
  {
  }

  lemma ScaleTail(a: seq<real>, k: real)
    requires |a| > 0
    ensures Scale(a, k)[1..] == Scale(a[1..], k)
  {
    forall i | 0 <= i < |a| - 1 ensures Scale(a, k)[1..][i] == Scale(a[1..], k)[i] {
      assert a[1..][i] == a[i + 1];
    }
  }

  lemma DivideByTail(a: seq<real>, d: real)
    requires |a| > 0 && d != 0.0
    ensures DivideBy(a, d)[1..] == DivideBy(a[1..], d)
  {
    forall i | 0 <= i < |a| - 1 ensures DivideBy(a, d)[1..][i] == DivideBy(a[1..], d)[i] {
      assert a[1..][i] == a[i + 1];
    }
  }

  lemma ScaleStep(k: real, x: real, y: real, kx: real, ky: real, xy: real, sum: real)
    requires kx == k * x && ky == k * y && xy == x + y && sum == kx + ky
    ensures sum == k * xy
  {
    Distribute(k, x, y);
  }

  lemma Distribute(k: real, x: real, y: real)
    ensures k * x + k * y == k * (x + y)
  {
  }

  /** Weighting is linear: the weighted sum of a sum is the sum of the weighted sums. */
  lemma {:induction false} SumMulAdd(w: seq<real>, x: seq<real>, y: seq<real>)
    requires |w| == |x| == |y|
    ensures Sum(Mul(w, Add(x, y))) == Sum(Mul(w, x)) + Sum(Mul(w, y))
  {
    if |w| > 0 {
      SumMulAdd(w[1..], x[1..], y[1..]);
      assert Add(x, y)[1..] == Add(x[1..], y[1..]);
      Distribute(w[0], x[0], y[0]);
    }
  }

  lemma {:induction false} SumAdd(a: seq<real>, b: seq<real>)
    requires |a| == |b|
    ensures Sum(Add(a, b)) == Sum(a) + Sum(b)
  {
    if |a| > 0 {
      SumAdd(a[1..], b[1..]);
    }
  }

  lemma {:induction false} SumConst(s: seq<real>, v: real)
    requires AllEqual(s, v)
    ensures Sum(s) == (|s| as real) * v
  {
    if |s| > 0 {
      SumConst(s[1..], v);
    }
  }

  lemma {:induction false} SumOneMinus(a: seq<real>)
    ensures Sum(OneMinus(a)) == (|a| as real) - Sum(a)
  {
    if |a| > 0 {
      SumOneMinus(a[1..]);
    }
  }

  /** A sum of non-negative terms is non-negative, and zero exactly when every term is. */
  lemma {:induction false} SumNonnegZero(s: seq<real>)
    requires forall i :: 0 <= i < |s| ==> s[i] >= 0.0
    ensures Sum(s) >= 0.0
    ensures Sum(s) == 0.0 <==> AllEqual(s, 0.0)
  {
    if |s| > 0 {
      SumNonnegZero(s[1..]);
      if s[0] == 0.0 && AllEqual(s[1..], 0.0) {
        forall i | 0 <= i < |s| ensures s[i] == 0.0 {
          if i > 0 { assert s[i] == s[1..][i - 1]; }
        }
      }
      if AllEqual(s, 0.0) {
        forall i | 0 <= i < |s| - 1 ensures s[1..][i] == 0.0 {
          assert s[1..][i] == s[i + 1];
        }
      }
    }
  }

  lemma {:induction false} SumBounds(s: seq<real>, lo: real, hi: real)
    requires AllIn(s, lo, hi)
    ensures (|s| as real) * lo <= Sum(s) <= (|s| as real) * hi
  {
    if |s| > 0 {
      SumBounds(s[1..], lo, hi);
    }
  }

  lemma {:induction false} SumMonotone(a: seq<real>, b: seq<real>)
    requires |a| == |b|
    requires forall i :: 0 <= i < |a| ==> a[i] <= b[i]
    ensures Sum(a) <= Sum(b)
  {
    if |a| > 0 {
      SumMonotone(a[1..], b[1..]);
    }
  }

  /** The sum of products is at most half the sum of squares: 2·Σab ≤ Σa² + Σb². */
  lemma {:induction false} SumCrossBound(a: seq<real>, b: seq<real>)
    requires |a| == |b|
    ensures 2.0 * Sum(Mul(a, b)) <= Sum(Mul(a, a)) + Sum(Mul(b, b))
  {
    if |a| > 0 {
      SumCrossBound(a[1..], b[1..]);
      CrossBound(a[0], b[0]);
    }
  }

  /** 2·xy ≤ x² + y², as (x - y)² ≥ 0. */
  lemma CrossBound(x: real, y: real)
    ensures 2.0 * (x * y) <= x * x + y * y
  {
    assert (x - y) * (x - y) >= 0.0;
  }

  /** For values in [0, 1], 2·xy ≤ x + y. */
  lemma ProductInUnit(x: real, y: real)
    requires 0.0 <= x <= 1.0 && 0.0 <= y <= 1.0
    ensures 2.0 * (x * y) <= x + y
  {
    ProductBelowFactors(x, y);
    TwiceBelowSum(x, y, x * y);
  }

  lemma ProductBelowFactors(x: real, y: real)
    requires 0.0 <= x <= 1.0 && 0.0 <= y <= 1.0
    ensures x * y <= y
    ensures x * y <= x
  {
    assert x * y <= 1.0 * y;
    assert x * y <= x * 1.0;
  }

  lemma TwiceBelowSum(x: real, y: real, p: real)
    requires p <= x && p <= y
    ensures 2.0 * p <= x + y
  {
  }

  /** For values in [0, 1], 2·Σab ≤ Σ(a + b). */
  lemma {:induction false} SumProductBelowSum(a: seq<real>, b: seq<real>)
    requires |a| == |b| && AllIn(a, 0.0, 1.0) && AllIn(b, 0.0, 1.0)
    ensures 2.0 * Sum(Mul(a, b)) <= Sum(Add(a, b))
  {
    if |a| > 0 {
      var m, d := Mul(a, b), Add(a, b);
      assert m[1..] == Mul(a[1..], b[1..]);
      assert d[1..] == Add(a[1..], b[1..]);
      SumProductBelowSum(a[1..], b[1..]);
      ProductInUnit(a[0], b[0]);
    }
  }

  /** Products of non-negative values have a non-negative sum. */
  lemma {:induction false} SumProductNonneg(a: seq<real>, b: seq<real>)
    requires |a| == |b| && AllIn(a, 0.0, 1.0) && AllIn(b, 0.0, 1.0)
    ensures 0.0 <= Sum(Mul(a, b))
  {
    if |a| > 0 {
      assert Mul(a, b)[1..] == Mul(a[1..], b[1..]);
      SumProductNonneg(a[1..], b[1..]);
    }
  }

  /** Binary values are their own squares, so Σab = Σa when a == b is binary. */
  lemma {:induction false} SumBinarySquare(a: seq<real>)
    requires forall i :: 0 <= i < |a| ==> a[i] == 0.0 || a[i] == 1.0
    ensures Sum(Mul(a, a)) == Sum(a)
    ensures 0.0 <= Sum(a)
  {
    if |a| > 0 {
      SumBinarySquare(a[1..]);
    }
  }

  lemma {:induction false} SumMulZeroLeft(a: seq<real>, b: seq<real>)
    requires |a| == |b| && AllEqual(a, 0.0)
    ensures Sum(Mul(a, b)) == 0.0
  {
    if |a| > 0 {
      SumMulZeroLeft(a[1..], b[1..]);
    }
  }

  lemma {:induction false} MeanConst(s: seq<real>, v: real)
    requires |s| > 0 && AllEqual(s, v)
    ensures Mean(s) == v
  {
    SumConst(s, v);
  }

  lemma MeanSingleton(v: real)
    ensures Mean([v]) == v
  {
    assert [v][1..] == [];
    assert Sum([v]) == v + Sum([]);
  }

  /** 0 ≤ a/b ≤ 1 whenever 0 ≤ a ≤ b and b is positive. */
  lemma RatioInUnit(a: real, b: real)
    requires 0.0 <= a <= b && b > 0.0
    ensures 0.0 <= a / b <= 1.0
  {
  }
}
