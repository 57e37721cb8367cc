/** The structural similarity index of CNN-Baseline/utils/evaluation_functions.py:
    the pointwise formula over the local statistics, the similarity map of two
    images, its `size_average` reduction, the stateless `ssim` / `ssim3D`
    functions and the `SSIM` / `SSIM3D` modules with their cached window.
    The convolution is given: `conv(x, window, padding, groups)`. */
module Ssim {
  import opened Results
  import opened RealSeq
  import opened Tensors
  import opened Windows
  import opened Reductions

  /** `C1 = 0.01 ** 2` and `C2 = 0.03 ** 2`. */
  const C1: real := 0.0001
  const C2: real := 0.0009

  // ---------------------------------------------------------------- the pointwise formula

  /** `(2 * mu1_mu2 + C1) * (2 * sigma12 + C2)`. */
  function Numerator(mu1: real, mu2: real, s12: real): real
  {
    (2.0 * (mu1 * mu2) + C1) * (2.0 * s12 + C2)
  }

  /** `(mu1_sq + mu2_sq + C1) * (sigma1_sq + sigma2_sq + C2)`. */
  function Denominator(mu1: real, mu2: real, s11: real, s22: real): real
  {
    (mu1 * mu1 + mu2 * mu2 + C1) * (s11 + s22 + C2)
  }

  /** The luminance factor of the denominator is never zero. */
  lemma LuminancePositive(mu1: real, mu2: real)
    ensures mu1 * mu1 + mu2 * mu2 + C1 > 0.0
  {
    assert mu1 * mu1 >= 0.0 && mu2 * mu2 >= 0.0;
  }

  lemma ProductZero(a: real, b: real)
    requires a > 0.0
    ensures a * b == 0.0 <==> b == 0.0
  {
  }

  /** One entry of `ssim_map`. A zero denominator makes torch return a
      non-finite value; that happens exactly when the variances add up to
      `-C2`. */
  function SsimPoint(mu1: real, mu2: real, s11: real, s22: real, s12: real): (r: Result<real>)
    ensures r.Err? <==> s11 + s22 + C2 == 0.0
    ensures r.Err? ==> r.error == NonFinite
    ensures r.Ok? ==> r.value * Denominator(mu1, mu2, s11, s22) == Numerator(mu1, mu2, s12)
  {
    LuminancePositive(mu1, mu2);
    ProductZero(mu1 * mu1 + mu2 * mu2 + C1, s11 + s22 + C2);
    var d := Denominator(mu1, mu2, s11, s22);
    if d == 0.0 then Err(NonFinite) else Ok(Numerator(mu1, mu2, s12) / d)
  }

  /** Equal means and equal variances and covariance give similarity one. */
  lemma SsimPointIdentical(mu: real, s: real)
    requires s + s + C2 != 0.0
    ensures SsimPoint(mu, mu, s, s, s) == Ok(1.0)
  {
    LuminancePositive(mu, mu);
    ProductZero(mu * mu + mu * mu + C1, s + s + C2);
    MulCongruence(2.0 * (mu * mu) + C1, mu * mu + mu * mu + C1, 2.0 * s + C2, s + s + C2);
    SelfRatio(Numerator(mu, mu, s), Denominator(mu, mu, s, s));
  }

  lemma MulCongruence(a: real, a': real, b: real, b': real)
    requires a == a' && b == b'
    ensures a * b == a' * b'
  {
  }

  lemma SelfRatio(n: real, d: real)
    requires n == d && d != 0.0
    ensures n / d == 1.0
  {
  }

  /** The formula does not depend on which image comes first. */
  lemma SsimPointSymmetric(mu1: real, mu2: real, s11: real, s22: real, s12: real)
    ensures SsimPoint(mu1, mu2, s11, s22, s12) == SsimPoint(mu2, mu1, s22, s11, s12)
  {
    NumeratorSymmetric(mu1, mu2, s12);
    DenominatorSymmetric(mu1, mu2, s11, s22);
  }

  lemma NumeratorSymmetric(mu1: real, mu2: real, s12: real)
    ensures Numerator(mu1, mu2, s12) == Numerator(mu2, mu1, s12)
  {
    MulCongruence(2.0 * (mu1 * mu2) + C1, 2.0 * (mu2 * mu1) + C1, 2.0 * s12 + C2, 2.0 * s12 + C2);
  }

  lemma DenominatorSymmetric(mu1: real, mu2: real, s11: real, s22: real)
    ensures Denominator(mu1, mu2, s11, s22) == Denominator(mu2, mu1, s22, s11)
  {
    MulCongruence(mu1 * mu1 + mu2 * mu2 + C1, mu2 * mu2 + mu1 * mu1 + C1, s11 + s22 + C2, s22 + s11 + C2);
  }

  /** With non-negative variances and a covariance obeying the Cauchy-Schwarz
      bound (as windowed statistics with non-negative weights do), the
      similarity lies in [-1, 1]. */
  lemma SsimPointBounded(mu1: real, mu2: real, s11: real, s22: real, s12: real)
    requires s11 >= 0.0 && s22 >= 0.0 && s12 * s12 <= s11 * s22
    ensures SsimPoint(mu1, mu2, s11, s22, s12).Ok?
    ensures -1.0 <= SsimPoint(mu1, mu2, s11, s22, s12).value <= 1.0
  {
    var a := 2.0 * (mu1 * mu2) + C1;
    var bigA := mu1 * mu1 + mu2 * mu2 + C1;
    var b := 2.0 * s12 + C2;
    var bigB := s11 + s22 + C2;
    LuminancePositive(mu1, mu2);
    LuminanceBound(mu1, mu2);
    CovarianceBound(s11, s22, s12);
    MulBound(a, bigA, b, bigB);
    PositiveProduct(bigA, bigB);
    RatioBound(a * b, bigA * bigB);
    assert Numerator(mu1, mu2, s12) == a * b;
    assert Denominator(mu1, mu2, s11, s22) == bigA * bigB;
    assert SsimPoint(mu1, mu2, s11, s22, s12).value == (a * b) / (bigA * bigB);
  }

  lemma LuminanceBound(mu1: real, mu2: real)
    ensures -(mu1 * mu1 + mu2 * mu2 + C1) <= 2.0 * (mu1 * mu2) + C1 <= mu1 * mu1 + mu2 * mu2 + C1
  {
    CrossBound(mu1, mu2);
    CrossBound(mu1, -mu2);
    NegateSquare(mu2);
    NegateRight(mu1, mu2);
  }

  lemma NegateRight(x: real, y: real)
    ensures x * -y == -(x * y)
  {
  }

  lemma NegateSquare(x: real)
    ensures (-x) * (-x) == x * x
  {
  }

  lemma CovarianceBound(s11: real, s22: real, s12: real)
    requires s11 >= 0.0 && s22 >= 0.0 && s12 * s12 <= s11 * s22
    ensures -(s11 + s22) <= 2.0 * s12 <= s11 + s22
  {
    SquareOfSum(s11, s22);
    TwiceSquared(s12);
    ScaleLeft(s12 * s12, s11 * s22, 4.0);
    SquareBound(2.0 * s12, s11 + s22);
  }

  /** `(x + y)² ≥ 4xy`, as `(x - y)² ≥ 0`. */
  lemma SquareOfSum(x: real, y: real)
    ensures (x + y) * (x + y) >= 4.0 * (x * y)
  {
    assert (x - y) * (x - y) >= 0.0;
  }

  lemma TwiceSquared(s: real)
    ensures (2.0 * s) * (2.0 * s) == 4.0 * (s * s)
  {
  }

  lemma ScaleLeft(a: real, b: real, k: real)
    requires a <= b && k >= 0.0
    ensures k * a <= k * b
  {
  }

  /** `x² ≤ y²` with `y ≥ 0` bounds `x` by `y` on both sides. */
  lemma SquareBound(x: real, y: real)
    requires y >= 0.0 && x * x <= y * y
    ensures -y <= x <= y
  {
    if y < x {
      MulStrictMono(y, x, y, x);
    }
    if y < -x {
      MulStrictMono(y, -x, y, -x);
      NegateSquare(x);
    }
  }

  lemma MulStrictMono(a: real, b: real, c: real, d: real)
    requires 0.0 <= a < b && 0.0 <= c < d
    ensures a * c < b * d
  {
    assert a * c <= a * d;
    assert a * d < b * d;
  }

  lemma MulBound(a: real, bigA: real, b: real, bigB: real)
    requires -bigA <= a <= bigA && -bigB <= b <= bigB
    ensures -(bigA * bigB) <= a * b <= bigA * bigB
  {
    if a >= 0.0 && b >= 0.0 {
      assert a * b <= bigA * b;
      assert bigA * b <= bigA * bigB;
    } else if a >= 0.0 {
      assert a * (-b) <= bigA * (-b);
      assert bigA * (-b) <= bigA * bigB;
    } else if b >= 0.0 {
      assert (-a) * b <= bigA * b;
      assert bigA * b <= bigA * bigB;
    } else {
      assert (-a) * (-b) <= bigA * (-b);
      assert bigA * (-b) <= bigA * bigB;
    }
  }

  lemma PositiveProduct(a: real, b: real)
    requires a > 0.0 && b > 0.0
    ensures a * b > 0.0
  {
  }

  lemma RatioBound(n: real, d: real)
    requires d > 0.0 && -d <= n <= d
    ensures -1.0 <= n / d <= 1.0
  {
  }

  // ---------------------------------------------------------------- the similarity map

  /** `ssim_map` entry by entry from the local statistics. */
  function MapPoints(mu1: seq<real>, mu2: seq<real>, s11: seq<real>, s22: seq<real>, s12: seq<real>): (r: Result<seq<real>>)
    requires |mu2| == |mu1| && |s11| == |mu1| && |s22| == |mu1| && |s12| == |mu1|
    ensures r.Err? ==> r.error == NonFinite
    ensures r.Ok? <==> forall i :: 0 <= i < |mu1| ==> SsimPoint(mu1[i], mu2[i], s11[i], s22[i], s12[i]).Ok?
    ensures r.Ok? ==> |r.value| == |mu1| && forall i :: 0 <= i < |mu1| ==>
      Ok(r.value[i]) == SsimPoint(mu1[i], mu2[i], s11[i], s22[i], s12[i])
  {
    if exists i :: 0 <= i < |mu1| && s11[i] + s22[i] + C2 == 0.0 then Err(NonFinite)
    else Ok(seq(|mu1|, i requires 0 <= i < |mu1| => SsimPoint(mu1[i], mu2[i], s11[i], s22[i], s12[i]).value))
  }

  /** Two valid tensors of one shape. */
  predicate SameShape(a: Tensor, b: Tensor)
  {
    a.Valid() && b.Valid() && a.shape == b.shape
  }

  /** The elementwise product of two tensors of one shape. */
  function Times(a: Tensor, b: Tensor): (r: Tensor)
    requires SameShape(a, b)
    ensures SameShape(r, a)
  {
    Tensor(a.shape, Mul(a.data, b.data))
  }

  /** The similarity map of `_ssim` / `_ssim_3D`: the local means are the
      window-weighted convolutions of the images, the variances and the
      covariance are those of the squares and the product less the products
      of the means. Images of different shapes, or a convolution whose five
      results disagree in shape, raise. */
  function SsimMap(conv: (Tensor, Tensor, nat, nat) -> Tensor, img1: Tensor, img2: Tensor,
                   window: Tensor, windowSize: nat, channel: nat): (r: Result<Tensor>)
    ensures !SameShape(img1, img2) ==> r == Err(ShapeMismatch)
    ensures r.Err? ==> r.error in {ShapeMismatch, NonFinite}
    ensures r.Ok? ==> r.value.Valid() && r.value.shape == conv(img1, window, windowSize / 2, channel).shape
  {
    if !SameShape(img1, img2) then Err(ShapeMismatch)
    else
      var pad := windowSize / 2;
      var mu1 := conv(img1, window, pad, channel);
      var mu2 := conv(img2, window, pad, channel);
      var e11 := conv(Times(img1, img1), window, pad, channel);
      var e22 := conv(Times(img2, img2), window, pad, channel);
      var e12 := conv(Times(img1, img2), window, pad, channel);
      if !(SameShape(mu1, mu2) && SameShape(mu1, e11) && SameShape(mu1, e22) && SameShape(mu1, e12)) then
        Err(ShapeMismatch)
      else
        var points :- MapPoints(mu1.data, mu2.data,
                                Sub(e11.data, Mul(mu1.data, mu1.data)),
                                Sub(e22.data, Mul(mu2.data, mu2.data)),
                                Sub(e12.data, Mul(mu1.data, mu2.data)));
        Ok(Tensor(mu1.shape, points))
  }

  /** An image compared with itself has similarity one everywhere, whatever
      the convolution. */
  lemma SsimMapIdentical(conv: (Tensor, Tensor, nat, nat) -> Tensor, img: Tensor, window: Tensor, windowSize: nat, channel: nat)
    requires SsimMap(conv, img, img, window, windowSize, channel).Ok?
    ensures AllEqual(SsimMap(conv, img, img, window, windowSize, channel).value.data, 1.0)
  {
    var pad := windowSize / 2;
    var mu := conv(img, window, pad, channel);
    var e := conv(Times(img, img), window, pad, channel);
    var s := Sub(e.data, Mul(mu.data, mu.data));
    var points := MapPoints(mu.data, mu.data, s, s, s).value;
    forall i | 0 <= i < |points| ensures points[i] == 1.0 {
      SsimPointIdentical(mu.data[i], s[i]);
    }
  }

  lemma MulCommutes(a: seq<real>, b: seq<real>)
    requires |a| == |b|
    ensures Mul(a, b) == Mul(b, a)
  {
    assert forall i :: 0 <= i < |a| ==> Mul(a, b)[i] == Mul(b, a)[i];
  }

  /** The map does not depend on which image comes first. */
  lemma SsimMapSymmetric(conv: (Tensor, Tensor, nat, nat) -> Tensor, img1: Tensor, img2: Tensor,
                         window: Tensor, windowSize: nat, channel: nat)
    ensures SsimMap(conv, img1, img2, window, windowSize, channel) == SsimMap(conv, img2, img1, window, windowSize, channel)
  {
    if SameShape(img1, img2) {
      var pad := windowSize / 2;
      MulCommutes(img1.data, img2.data);
      assert Times(img1, img2) == Times(img2, img1);
      var mu1 := conv(img1, window, pad, channel);
      var mu2 := conv(img2, window, pad, channel);
      var e11 := conv(Times(img1, img1), window, pad, channel);
      var e22 := conv(Times(img2, img2), window, pad, channel);
      var e12 := conv(Times(img1, img2), window, pad, channel);
      if SameShape(mu1, mu2) && SameShape(mu1, e11) && SameShape(mu1, e22) && SameShape(mu1, e12) {
        MulCommutes(mu1.data, mu2.data);
        var s11 := Sub(e11.data, Mul(mu1.data, mu1.data));
        var s22 := Sub(e22.data, Mul(mu2.data, mu2.data));
        var s12 := Sub(e12.data, Mul(mu1.data, mu2.data));
        MapPointsSymmetric(mu1.data, mu2.data, s11, s22, s12);
      }
    }
  }

  lemma MapPointsSymmetric(mu1: seq<real>, mu2: seq<real>, s11: seq<real>, s22: seq<real>, s12: seq<real>)
    requires |mu2| == |mu1| && |s11| == |mu1| && |s22| == |mu1| && |s12| == |mu1|
    ensures MapPoints(mu1, mu2, s11, s22, s12) == MapPoints(mu2, mu1, s22, s11, s12)
  {
    forall i | 0 <= i < |mu1|
      ensures SsimPoint(mu1[i], mu2[i], s11[i], s22[i], s12[i]) == SsimPoint(mu2[i], mu1[i], s22[i], s11[i], s12[i])
    {
      SsimPointSymmetric(mu1[i], mu2[i], s11[i], s22[i], s12[i]);
    }
    var r1 := MapPoints(mu1, mu2, s11, s22, s12);
    var r2 := MapPoints(mu2, mu1, s22, s11, s12);
    if r1.Ok? {
      assert r1.value == r2.value;
    }
  }

  // ---------------------------------------------------------------- the index

  /** `_ssim`, `_ssim_3D` and `SSIM3D.ssim_3D`: the global mean of the map,
      or the mean of each sample. */
  function SsimIndex(conv: (Tensor, Tensor, nat, nat) -> Tensor, img1: Tensor, img2: Tensor,
                     window: Tensor, windowSize: nat, channel: nat, sizeAverage: bool): (r: Result<Tensor>)
    ensures !SameShape(img1, img2) ==> r == Err(ShapeMismatch)
    ensures r.Ok? && sizeAverage ==> r.value.Valid() && r.value.shape == []
    ensures r.Ok? && !sizeAverage ==> r.value.Valid() && |r.value.shape| == 1
  {
    var m :- SsimMap(conv, img1, img2, window, windowSize, channel);
    if sizeAverage then MeanAll(m) else SampleMeans(m)
  }

  /** The non-averaged reduction as written: `ssim_map.mean(1).mean(1).mean(1)`. */
  function SsimIndexAsWritten(conv: (Tensor, Tensor, nat, nat) -> Tensor, img1: Tensor, img2: Tensor,
                              window: Tensor, windowSize: nat, channel: nat, sizeAverage: bool): (r: Result<Tensor>)
    ensures !SameShape(img1, img2) ==> r == Err(ShapeMismatch)
    ensures sizeAverage ==> r == SsimIndex(conv, img1, img2, window, windowSize, channel, sizeAverage)
  {
    var m :- SsimMap(conv, img1, img2, window, windowSize, channel);
    if sizeAverage then MeanAll(m) else ReduceAsWritten(m)
  }

  /** For a four-dimensional map (two-dimensional images) the reduction as
      written is the per-sample mean. */
  lemma SsimIndexFourDims(conv: (Tensor, Tensor, nat, nat) -> Tensor, img1: Tensor, img2: Tensor,
                          window: Tensor, windowSize: nat, channel: nat, sizeAverage: bool)
    requires SsimMap(conv, img1, img2, window, windowSize, channel).Ok?
    requires var s := SsimMap(conv, img1, img2, window, windowSize, channel).value.shape;
      |s| == 4 && s[1] > 0 && s[2] > 0 && s[3] > 0
    ensures SsimIndexAsWritten(conv, img1, img2, window, windowSize, channel, sizeAverage) ==
            SsimIndex(conv, img1, img2, window, windowSize, channel, sizeAverage)
  {
    ReduceAsWrittenFourDims(SsimMap(conv, img1, img2, window, windowSize, channel).value);
  }

  /** For a five-dimensional map (three-dimensional images) the reduction as
      written keeps the last axis instead of giving one value per sample. */
  lemma SsimIndexFiveDims(conv: (Tensor, Tensor, nat, nat) -> Tensor, img1: Tensor, img2: Tensor,
                          window: Tensor, windowSize: nat, channel: nat)
    requires SsimMap(conv, img1, img2, window, windowSize, channel).Ok?
    requires var s := SsimMap(conv, img1, img2, window, windowSize, channel).value.shape;
      |s| == 5 && s[1] > 0 && s[2] > 0 && s[3] > 0
    ensures var s := SsimMap(conv, img1, img2, window, windowSize, channel).value.shape;
      SsimIndexAsWritten(conv, img1, img2, window, windowSize, channel, false).Ok? &&
      SsimIndexAsWritten(conv, img1, img2, window, windowSize, channel, false).value.shape == [s[0], s[4]]
  {
    ReduceAsWrittenFiveDims(SsimMap(conv, img1, img2, window, windowSize, channel).value);
  }

  /** An image compared with itself has index one, averaged or per sample. */
  lemma SsimIndexIdentical(conv: (Tensor, Tensor, nat, nat) -> Tensor, img: Tensor,
                           window: Tensor, windowSize: nat, channel: nat, sizeAverage: bool)
    requires SsimIndex(conv, img, img, window, windowSize, channel, sizeAverage).Ok?
    ensures AllEqual(SsimIndex(conv, img, img, window, windowSize, channel, sizeAverage).value.data, 1.0)
  {
    var m := SsimMap(conv, img, img, window, windowSize, channel).value;
    SsimMapIdentical(conv, img, window, windowSize, channel);
    if sizeAverage {
      MeanConst(m.data, 1.0);
    } else {
      SampleMeansConst(m, 1.0);
    }
  }

  /** The samples of a constant tensor have that constant as their mean. */
  lemma SampleMeansConst(t: Tensor, v: real)
    requires t.Valid() && AllEqual(t.data, v) && SampleMeans(t).Ok?
    ensures AllEqual(SampleMeans(t).value.data, v)
  {
    var n, len := t.shape[0], Prod(t.shape[1..]);
    ProdHead(t.shape);
    ChunksAllIn(t.data, n, len, v, v);
    forall k | 0 <= k < n ensures SampleMeans(t).value.data[k] == v {
      SumConst(Sample(t, k), v);
      ConstQuotient(Sum(Sample(t, k)), len as real, v);
    }
  }

  lemma ConstQuotient(s: real, n: real, v: real)
    requires n > 0.0 && s == n * v
    ensures s / n == v
  {
  }

  // ---------------------------------------------------------------- ssim() and ssim3D()

  /** The dtype name of the window `create_window` returns before any `type_as`. */
  const FLOAT_TYPE: string := "torch.FloatTensor"

  /** `ssim(img1, img2, window_size, size_average)`: a four-dimensional
      `img1` gives the channel count of a fresh window. Any other rank fails
      to unpack. */
  function SsimFunction(conv: (Tensor, Tensor, nat, nat) -> Tensor, exp: real -> real,
                        img1: Tensor, img2: Tensor, windowSize: nat, sizeAverage: bool): (r: Result<Tensor>)
    requires PositiveExp(exp)
    ensures |img1.shape| != 4 ==> r == Err(ShapeMismatch)
    ensures |img1.shape| == 4 ==> r == SsimIndex(conv, img1, img2, CreateWindow(windowSize, img1.shape[1], exp),
                                                 windowSize, img1.shape[1], sizeAverage)
  {
    if |img1.shape| != 4 then Err(ShapeMismatch)
    else
      var channel := img1.shape[1];
      SsimIndex(conv, img1, img2, CreateWindow(windowSize, channel, exp), windowSize, channel, sizeAverage)
  }

  /** `ssim3D(img1, img2, window_size, size_average)`, for five-dimensional images. */
  function Ssim3DFunction(conv: (Tensor, Tensor, nat, nat) -> Tensor, exp: real -> real,
                          img1: Tensor, img2: Tensor, windowSize: nat, sizeAverage: bool): (r: Result<Tensor>)
    requires PositiveExp(exp)
    ensures |img1.shape| != 5 ==> r == Err(ShapeMismatch)
    ensures |img1.shape| == 5 ==> r == SsimIndex(conv, img1, img2, CreateWindow3D(windowSize, img1.shape[1], exp),
                                                 windowSize, img1.shape[1], sizeAverage)
  {
    if |img1.shape| != 5 then Err(ShapeMismatch)
    else
      var channel := img1.shape[1];
      SsimIndex(conv, img1, img2, CreateWindow3D(windowSize, channel, exp), windowSize, channel, sizeAverage)
  }

  /** `ssim3D` as written, with the reduction of `_ssim_3D` line for line. */
  function Ssim3DFunctionAsWritten(conv: (Tensor, Tensor, nat, nat) -> Tensor, exp: real -> real,
                                   img1: Tensor, img2: Tensor, windowSize: nat, sizeAverage: bool): (r: Result<Tensor>)
    requires PositiveExp(exp)
    ensures |img1.shape| != 5 ==> r == Err(ShapeMismatch)
    ensures |img1.shape| == 5 ==> r == SsimIndexAsWritten(conv, img1, img2, CreateWindow3D(windowSize, img1.shape[1], exp),
                                                          windowSize, img1.shape[1], sizeAverage)
  {
    if |img1.shape| != 5 then Err(ShapeMismatch)
    else
      var channel := img1.shape[1];
      SsimIndexAsWritten(conv, img1, img2, CreateWindow3D(windowSize, channel, exp), windowSize, channel, sizeAverage)
  }

  /** Averaged, `ssim3D` as written and the corrected one agree; per sample,
      the one as written gives an (N, W) tensor instead of N values. */
  lemma Ssim3DAsWrittenDiffers(conv: (Tensor, Tensor, nat, nat) -> Tensor, exp: real -> real,
                               img1: Tensor, img2: Tensor, windowSize: nat)
    requires PositiveExp(exp) && |img1.shape| == 5
    requires SsimMap(conv, img1, img2, CreateWindow3D(windowSize, img1.shape[1], exp), windowSize, img1.shape[1]).Ok?
    requires var s := SsimMap(conv, img1, img2, CreateWindow3D(windowSize, img1.shape[1], exp), windowSize, img1.shape[1]).value.shape;
      |s| == 5 && s[1] > 0 && s[2] > 0 && s[3] > 0
    ensures Ssim3DFunctionAsWritten(conv, exp, img1, img2, windowSize, true) == Ssim3DFunction(conv, exp, img1, img2, windowSize, true)
    ensures var s := SsimMap(conv, img1, img2, CreateWindow3D(windowSize, img1.shape[1], exp), windowSize, img1.shape[1]).value.shape;
      Ssim3DFunctionAsWritten(conv, exp, img1, img2, windowSize, false).Ok? &&
      Ssim3DFunctionAsWritten(conv, exp, img1, img2, windowSize, false).value.shape == [s[0], s[4]]
  {
    SsimIndexFiveDims(conv, img1, img2, CreateWindow3D(windowSize, img1.shape[1], exp), windowSize, img1.shape[1]);
  }

  // ---------------------------------------------------------------- the modules with a cached window

  /** `SSIM`: keeps the window of the last channel count and dtype it saw. */
  class SsimModule {
    const windowSize: nat
    const sizeAverage: bool
    const exp: real -> real
    var channel: nat
    var window: Tensor
    var windowType: string

    /** The cached window is always the one `create_window` builds for the
        cached channel count. */
    ghost predicate Valid()
      reads this
    {
      PositiveExp(exp) && window == CreateWindow(windowSize, channel, exp)
    }

    constructor(exp: real -> real, windowSize: nat := 11, sizeAverage: bool := true)
      requires PositiveExp(exp)
      ensures Valid()
      ensures this.exp == exp && this.windowSize == windowSize && this.sizeAverage == sizeAverage
      ensures channel == 1 && windowType == FLOAT_TYPE
      ensures window.shape == [1, 1, windowSize, windowSize]
    {
      this.exp := exp;
      this.windowSize := windowSize;
      this.sizeAverage := sizeAverage;
      channel := 1;
      window := CreateWindow(windowSize, 1, exp);
      windowType := FLOAT_TYPE;
    }

    /** `forward(img1, img2)`. The window is reused when the channel count
        and the dtype of `img1` match the cached ones, and rebuilt and cached
        otherwise. Either way the result is that of `ssim`. */
    method Forward(conv: (Tensor, Tensor, nat, nat) -> Tensor, img1: Tensor, img1Type: string, img2: Tensor)
      returns (r: Result<Tensor>)
      requires Valid()
      modifies this
      ensures Valid()
      ensures |img1.shape| != 4 ==> unchanged(this)
      ensures |img1.shape| == 4 && old(channel) == img1.shape[1] && old(windowType) == img1Type ==> unchanged(this)
      ensures |img1.shape| == 4 ==> channel == img1.shape[1] && windowType == img1Type
      ensures r == SsimFunction(conv, exp, img1, img2, windowSize, sizeAverage)
    {
      if |img1.shape| != 4 {
        return Err(ShapeMismatch);
      }
      var c := img1.shape[1];
      if !(c == channel && windowType == img1Type) {
        window := CreateWindow(windowSize, c, exp);
        windowType := img1Type;
        channel := c;
      }
      r := SsimIndex(conv, img1, img2, window, windowSize, c, sizeAverage);
    }
  }

  /** `SSIM3D`: the same cache over three-dimensional windows. */
  class Ssim3DModule {
    const windowSize: nat
    const sizeAverage: bool
    const exp: real -> real
    var channel: nat
    var window: Tensor
    var windowType: string

    ghost predicate Valid()
      reads this
    {
      PositiveExp(exp) && window == CreateWindow3D(windowSize, channel, exp)
    }

    constructor(exp: real -> real, windowSize: nat := 11, sizeAverage: bool := true)
      requires PositiveExp(exp)
      ensures Valid()
      ensures this.exp == exp && this.windowSize == windowSize && this.sizeAverage == sizeAverage
      ensures channel == 1 && windowType == FLOAT_TYPE
      ensures window.shape == [1, 1, windowSize, windowSize, windowSize]
    {
      this.exp := exp;
      this.windowSize := windowSize;
      this.sizeAverage := sizeAverage;
      channel := 1;
      window := CreateWindow3D(windowSize, 1, exp);
      windowType := FLOAT_TYPE;
    }

    /** `forward(img1, img2)` with `ssim_3D`, whose formula is that of `_ssim_3D`. */
    method Forward(conv: (Tensor, Tensor, nat, nat) -> Tensor, img1: Tensor, img1Type: string, img2: Tensor)
      returns (r: Result<Tensor>)
      requires Valid()
      modifies this
      ensures Valid()
      ensures |img1.shape| != 5 ==> unchanged(this)
      ensures |img1.shape| == 5 && old(channel) == img1.shape[1] && old(windowType) == img1Type ==> unchanged(this)
      ensures |img1.shape| == 5 ==> channel == img1.shape[1] && windowType == img1Type
      ensures r == Ssim3DFunction(conv, exp, img1, img2, windowSize, sizeAverage)
    {
      if |img1.shape| != 5 {
        return Err(ShapeMismatch);
      }
      var c := img1.shape[1];
      if !(c == channel && windowType == img1Type) {
        window := CreateWindow3D(windowSize, c, exp);
        windowType := img1Type;
        channel := c;
      }
      r := SsimIndex(conv, img1, img2, window, windowSize, c, sizeAverage);
    }
  }
}
