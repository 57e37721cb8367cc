/** `PixelWiseCrossEntropyLoss` of CNN-Baseline/losses.py, given the
    log-probabilities: the ignored target positions are overwritten with class 0
    in place, the target is one-hot encoded and masked, and the mean of
    `-weights * target * log_probabilities` is returned. The target has shape
    (N, spatial...) and holds class indices; the log-probabilities have shape
    (N, C, spatial...). */
module PixelWise {
  import opened Results
  import opened RealSeq
  import opened Tensors
  import opened Layout

  // ---------------------------------------------------------------- the ignore-index remap

  /** `target[target == ignore_index] = 0`. */
  function Remap(target: seq<int>, ignore: Option<int>): (r: seq<int>)
    ensures |r| == |target|
    ensures forall i :: 0 <= i < |target| ==>
      r[i] == if ignore.Some? && target[i] == ignore.value then 0 else target[i]
  {
    seq(|target|, i requires 0 <= i < |target| =>
      if ignore.Some? && target[i] == ignore.value then 0 else target[i])
  }

  /** The inverted mask: 1 at the positions that count, 0 at the ignored ones. */
  function KeepMask(target: seq<int>, ignore: Option<int>): (m: seq<real>)
    ensures |m| == |target|
    ensures forall i :: 0 <= i < |target| ==>
      m[i] == if ignore.Some? && target[i] == ignore.value then 0.0 else 1.0
  {
    seq(|target|, i requires 0 <= i < |target| =>
      if ignore.Some? && target[i] == ignore.value then 0.0 else 1.0)
  }

  /** Remapping twice is remapping once, and afterwards only a class-0 position
      can still carry the ignore index. */
  lemma RemapIdempotent(target: seq<int>, ignore: Option<int>)
    ensures Remap(Remap(target, ignore), ignore) == Remap(target, ignore)
    ensures forall i :: 0 <= i < |target| && ignore.Some? && Remap(target, ignore)[i] == ignore.value ==>
      ignore.value == 0
  {
    var once := Remap(target, ignore);
    var twice := Remap(once, ignore);
    forall i | 0 <= i < |target| ensures twice[i] == once[i] {
      if ignore.Some? && target[i] == ignore.value {
        assert once[i] == 0;
      }
    }
  }

  // ---------------------------------------------------------------- shapes

  /** `assert target.size() == weights.size()`, with the target's entries
      matching its shape. */
  predicate TargetMatchesWeights(targetShape: seq<nat>, target: seq<int>, weights: Tensor)
  {
    weights.shape == targetShape && weights.Valid() && |target| == Prod(targetShape)
  }

  /** The permute accepts targets of rank 3 or 4, and the product broadcasts only
      if the log-probabilities have the target's batch and spatial axes. */
  predicate LayoutAgrees(lp: Tensor, targetShape: seq<nat>)
  {
    (|targetShape| == 3 || |targetShape| == 4) && Batched(lp) &&
    |lp.shape| == |targetShape| + 1 && lp.shape[0] == targetShape[0] && lp.shape[2..] == targetShape[1..]
  }

  lemma LayoutSizes(lp: Tensor, targetShape: seq<nat>)
    requires LayoutAgrees(lp, targetShape)
    ensures Prod(targetShape) == Batch(lp) * SpatialSize(lp)
  {
  }

  // ---------------------------------------------------------------- cells of the product

  /** Entry c of the one-hot encoding of class t. */
  function OneHot(t: int, c: int): real
  {
    if t == c then 1.0 else 0.0
  }

  /** One entry of `-weights * (one_hot * mask) * log_probabilities`. */
  function Cell(w: real, oh: real, keep: real, lp: real): real
  {
    (-w * (oh * keep)) * lp
  }

  /** The contribution of a position of class t at channel t: `-w · keep · log p`. */
  function TrueTerm(w: real, keep: real, lp: real): real
  {
    -w * keep * lp
  }

  lemma CellOfOneHot(w: real, t: int, c: int, keep: real, lp: real)
    ensures t != c ==> Cell(w, OneHot(t, c), keep, lp) == 0.0
    ensures t == c ==> Cell(w, OneHot(t, c), keep, lp) == TrueTerm(w, keep, lp)
  {
  }

  /** Row j of one sample's product, over its S positions: the one-hot entry is
      read at class `if classZero then 0 else j` (a one-hot of width 1
      broadcast over the channels) and the log-probabilities at channel
      `if |lps| == 1 then 0 else j` (a single channel broadcast). */
  function ProductRow(lps: seq<seq<real>>, ts: seq<int>, ks: seq<real>, ws: seq<real>, j: nat, classZero: bool): (r: seq<real>)
    requires |ts| == |ks| == |ws| && Uniform(lps, |ts|) && (j < |lps| || |lps| == 1)
    ensures |r| == |ts|
    ensures forall s :: 0 <= s < |ts| ==>
      r[s] == Cell(ws[s], OneHot(ts[s], if classZero then 0 else j), ks[s], lps[if |lps| == 1 then 0 else j][s])
  {
    var l := lps[if |lps| == 1 then 0 else j];
    seq(|ts|, s requires 0 <= s < |ts| => Cell(ws[s], OneHot(ts[s], if classZero then 0 else j), ks[s], l[s]))
  }

  /** The m product rows of one sample. */
  function ProductRows(lps: seq<seq<real>>, ts: seq<int>, ks: seq<real>, ws: seq<real>, m: nat, classZero: bool): (r: seq<seq<real>>)
    requires |ts| == |ks| == |ws| && Uniform(lps, |ts|) && (m == |lps| || |lps| == 1)
    ensures |r| == m && Uniform(r, |ts|)
    ensures forall j :: 0 <= j < m ==> r[j] == ProductRow(lps, ts, ks, ws, j, classZero)
  {
    seq(m, j requires 0 <= j < m => ProductRow(lps, ts, ks, ws, j, classZero))
  }

  /** The product rows of every sample, each sample's rows concatenated. */
  function ProductBlocks(lp: Tensor, targetShape: seq<nat>, ts: seq<int>, ks: seq<real>, ws: seq<real>, m: nat, classZero: bool): (r: seq<seq<real>>)
    requires LayoutAgrees(lp, targetShape) && |ts| == |ks| == |ws| == Prod(targetShape)
    requires m == Channels(lp) || Channels(lp) == 1
    ensures |r| == Batch(lp) && Uniform(r, m * SpatialSize(lp))
    ensures forall n :: 0 <= n < Batch(lp) ==>
      r[n] == Flat(ProductRows(Samples(lp)[n], Chunks(ts, Batch(lp), SpatialSize(lp))[n],
                               Chunks(ks, Batch(lp), SpatialSize(lp))[n], Chunks(ws, Batch(lp), SpatialSize(lp))[n], m, classZero))
  {
    LayoutSizes(lp, targetShape);
    var N, S := Batch(lp), SpatialSize(lp);
    var smp, tr, kr, wr := Samples(lp), Chunks(ts, N, S), Chunks(ks, N, S), Chunks(ws, N, S);
    var blocks := seq(N, n requires 0 <= n < N => Flat(ProductRows(smp[n], tr[n], kr[n], wr[n], m, classZero)));
    forall n | 0 <= n < N ensures |blocks[n]| == m * S {
      FlatLength(ProductRows(smp[n], tr[n], kr[n], wr[n], m, classZero), S);
    }
    blocks
  }

  /** The (N, m, S) product tensor's entries in row-major order. */
  function Product(lp: Tensor, targetShape: seq<nat>, ts: seq<int>, ks: seq<real>, ws: seq<real>, m: nat, classZero: bool): (r: seq<real>)
    requires LayoutAgrees(lp, targetShape) && |ts| == |ks| == |ws| == Prod(targetShape)
    requires m == Channels(lp) || Channels(lp) == 1
    ensures |r| == Batch(lp) * (m * SpatialSize(lp))
  {
    FlatLength(ProductBlocks(lp, targetShape, ts, ks, ws, m, classZero), m * SpatialSize(lp));
    Flat(ProductBlocks(lp, targetShape, ts, ks, ws, m, classZero))
  }

  // ---------------------------------------------------------------- the reference value

  /** Every class index lies in [0, c). */
  ghost predicate ClassesBelow(ts: seq<int>, c: nat)
  {
    forall i :: 0 <= i < |ts| ==> 0 <= ts[i] < c
  }

  /** What each position of one sample contributes when only its own class is
      counted: `-w · keep · log p(class)`. */
  function TrueClassTerms(lps: seq<seq<real>>, ts: seq<int>, ks: seq<real>, ws: seq<real>): (r: seq<real>)
    requires |ts| == |ks| == |ws| && Uniform(lps, |ts|) && ClassesBelow(ts, |lps|)
    ensures |r| == |ts|
    ensures forall s :: 0 <= s < |ts| ==> r[s] == TrueTerm(ws[s], ks[s], lps[ts[s]][s])
  {
    seq(|ts|, s requires 0 <= s < |ts| => TrueTerm(ws[s], ks[s], lps[ts[s]][s]))
  }

  lemma ChunksBelow(ts: seq<int>, n: nat, len: nat, c: nat)
    requires |ts| == n * len && ClassesBelow(ts, c)
    ensures forall i :: 0 <= i < n ==> ClassesBelow(Chunks(ts, n, len)[i], c)
  {
    forall i, j | 0 <= i < n && 0 <= j < len ensures 0 <= Chunks(ts, n, len)[i][j] < c {
      ChunksAt(ts, n, len, i, j);
    }
  }

  /** The true-class terms of every sample. */
  function TrueClassBlocks(lp: Tensor, targetShape: seq<nat>, ts: seq<int>, ks: seq<real>, ws: seq<real>): (r: seq<seq<real>>)
    requires LayoutAgrees(lp, targetShape) && |ts| == |ks| == |ws| == Prod(targetShape)
    requires ClassesBelow(ts, Channels(lp))
    ensures |r| == Batch(lp)
    ensures forall n :: 0 <= n < Batch(lp) ==>
      ClassesBelow(Chunks(ts, Batch(lp), SpatialSize(lp))[n], Channels(lp)) &&
      r[n] == TrueClassTerms(Samples(lp)[n], Chunks(ts, Batch(lp), SpatialSize(lp))[n],
                             Chunks(ks, Batch(lp), SpatialSize(lp))[n], Chunks(ws, Batch(lp), SpatialSize(lp))[n])
  {
    LayoutSizes(lp, targetShape);
    var N, S := Batch(lp), SpatialSize(lp);
    var smp, tr, kr, wr := Samples(lp), Chunks(ts, N, S), Chunks(ks, N, S), Chunks(ws, N, S);
    ChunksBelow(ts, N, S, Channels(lp));
    seq(N, n requires 0 <= n < N => TrueClassTerms(smp[n], tr[n], kr[n], wr[n]))
  }

  /** The weighted negative log-likelihood of the true class at every (n, s)
      position, in row-major order. */
  function NegLogLikelihood(lp: Tensor, targetShape: seq<nat>, ts: seq<int>, ks: seq<real>, ws: seq<real>): seq<real>
    requires LayoutAgrees(lp, targetShape) && |ts| == |ks| == |ws| == Prod(targetShape)
    requires ClassesBelow(ts, Channels(lp))
  {
    Flat(TrueClassBlocks(lp, targetShape, ts, ks, ws))
  }

  /** At one position the one-hot product over the C channels keeps only the
      channel of that position's class. */
  lemma PositionSum(lps: seq<seq<real>>, ts: seq<int>, ks: seq<real>, ws: seq<real>, s: nat)
    requires |ts| == |ks| == |ws| && Uniform(lps, |ts|) && ClassesBelow(ts, |lps|) && s < |ts|
    ensures Sum(Column(ProductRows(lps, ts, ks, ws, |lps|, false), |ts|, s)) == TrueTerm(ws[s], ks[s], lps[ts[s]][s])
  {
    var rows := ProductRows(lps, ts, ks, ws, |lps|, false);
    var col := Column(rows, |ts|, s);
    forall c | 0 <= c < |col| ensures col[c] == Cell(ws[s], OneHot(ts[s], c), ks[s], lps[c][s]) {
      assert rows[c] == ProductRow(lps, ts, ks, ws, c, false);
    }
    forall c | 0 <= c < |col| && c != ts[s] ensures col[c] == 0.0 {
      CellOfOneHot(ws[s], ts[s], c, ks[s], lps[c][s]);
    }
    SumSingleNonzero(col, ts[s]);
    CellOfOneHot(ws[s], ts[s], ts[s], ks[s], lps[ts[s]][s]);
  }

  /** In one sample the summed product is the summed true-class terms. */
  lemma SampleProductSum(lps: seq<seq<real>>, ts: seq<int>, ks: seq<real>, ws: seq<real>)
    requires |ts| == |ks| == |ws| && Uniform(lps, |ts|) && ClassesBelow(ts, |lps|)
    ensures Sum(Flat(ProductRows(lps, ts, ks, ws, |lps|, false))) == Sum(TrueClassTerms(lps, ts, ks, ws))
  {
    var rows := ProductRows(lps, ts, ks, ws, |lps|, false);
    var terms := TrueClassTerms(lps, ts, ks, ws);
    SumColumnSums(rows, |ts|);
    var cols := ColumnSums(rows, |ts|);
    forall s | 0 <= s < |ts| ensures cols[s] == terms[s] {
      ColumnSumsAt(rows, |ts|, s);
      PositionSum(lps, ts, ks, ws, s);
    }
    assert cols == terms;
  }

  /** The summed product is the summed true-class terms. */
  lemma ProductSum(lp: Tensor, targetShape: seq<nat>, ts: seq<int>, ks: seq<real>, ws: seq<real>)
    requires LayoutAgrees(lp, targetShape) && |ts| == |ks| == |ws| == Prod(targetShape)
    requires ClassesBelow(ts, Channels(lp))
    ensures Sum(Product(lp, targetShape, ts, ks, ws, Channels(lp), false)) == Sum(NegLogLikelihood(lp, targetShape, ts, ks, ws))
  {
    var pb := ProductBlocks(lp, targetShape, ts, ks, ws, Channels(lp), false);
    var tb := TrueClassBlocks(lp, targetShape, ts, ks, ws);
    SumFlat(pb);
    SumFlat(tb);
    forall n | 0 <= n < |pb| ensures Sum(pb[n]) == Sum(tb[n]) {
      var N, S := Batch(lp), SpatialSize(lp);
      SampleProductSum(Samples(lp)[n], Chunks(ts, N, S)[n], Chunks(ks, N, S)[n], Chunks(ws, N, S)[n]);
    }
    assert BlockSums(pb) == BlockSums(tb);
  }

  // ---------------------------------------------------------------- the loss

  /** `torch.mean` of the product: its sum divided by its count of entries, one
      per target position and class. */
  function MeanOver(cells: seq<real>, positions: nat, classes: nat): real
    requires positions > 0 && classes > 0
  {
    Sum(cells) / ((positions * classes) as real)
  }

  /** The loss once the target is remapped and the mask known, with
      `F.one_hot(target, num_classes=C)`: a class outside [0, C) is refused, a
      target of the wrong rank or a product that does not broadcast is a shape
      error, and a mean over no element is NaN. */
  function LossOfParts(lp: Tensor, targetShape: seq<nat>, remapped: seq<int>, keep: seq<real>, weights: Tensor): (r: Result<real>)
    requires TargetMatchesWeights(targetShape, remapped, weights) && |keep| == |remapped|
  {
    if !Batched(lp) then Err(ShapeMismatch)
    else if exists i :: 0 <= i < |remapped| && !(0 <= remapped[i] < Channels(lp)) then Err(InvalidValue)
    else if !LayoutAgrees(lp, targetShape) then Err(ShapeMismatch)
    else if |remapped| == 0 || Channels(lp) == 0 then Err(NonFinite)
    else
      var cells := Product(lp, targetShape, remapped, keep, weights.data, Channels(lp), false);
      Ok(MeanOver(cells, |remapped|, Channels(lp)))
  }

  /** `forward(input, target, weights)` as evidently intended: ignored positions
      are masked out by the logical negation of `target == ignore_index`, and
      the classes are encoded over the C channels of the input. */
  function Loss(ignore: Option<int>, lp: Tensor, targetShape: seq<nat>, target: seq<int>, weights: Tensor): (r: Result<real>)
    ensures !TargetMatchesWeights(targetShape, target, weights) || !Batched(lp) ==> r == Err(ShapeMismatch)
    ensures r == Err(InvalidValue) <==>
      TargetMatchesWeights(targetShape, target, weights) && Batched(lp) && !ClassesBelow(Remap(target, ignore), Channels(lp))
    ensures r.Ok? <==>
      TargetMatchesWeights(targetShape, target, weights) && LayoutAgrees(lp, targetShape) &&
      ClassesBelow(Remap(target, ignore), Channels(lp)) && |target| > 0 && Channels(lp) > 0
  {
    if !TargetMatchesWeights(targetShape, target, weights) then Err(ShapeMismatch)
    else LossOfParts(lp, targetShape, Remap(target, ignore), KeepMask(target, ignore), weights)
  }

  /** The loss is the mean, over the N·C·S entries of the product, of the
      weighted negative log-likelihood of each non-ignored position's class. */
  lemma LossIsNegLogLikelihood(ignore: Option<int>, lp: Tensor, targetShape: seq<nat>, target: seq<int>, weights: Tensor)
    requires Loss(ignore, lp, targetShape, target, weights).Ok?
    ensures TargetMatchesWeights(targetShape, target, weights) && LayoutAgrees(lp, targetShape)
    ensures ClassesBelow(Remap(target, ignore), Channels(lp))
    ensures Loss(ignore, lp, targetShape, target, weights).value
            == Sum(NegLogLikelihood(lp, targetShape, Remap(target, ignore), KeepMask(target, ignore), weights.data))
               / ((|target| * Channels(lp)) as real)
  {
    ProductSum(lp, targetShape, Remap(target, ignore), KeepMask(target, ignore), weights.data);
  }

  /** Two weightings that agree wherever the mask keeps the position. */
  ghost predicate AgreeWhereKept(w1: seq<real>, w2: seq<real>, ks: seq<real>)
  {
    |w1| == |w2| == |ks| && forall i :: 0 <= i < |ks| && ks[i] != 0.0 ==> w1[i] == w2[i]
  }

  lemma TermsAgree(lps: seq<seq<real>>, ts: seq<int>, ks: seq<real>, w1: seq<real>, w2: seq<real>)
    requires |ts| == |ks| == |w1| && Uniform(lps, |ts|) && ClassesBelow(ts, |lps|) && AgreeWhereKept(w1, w2, ks)
    ensures TrueClassTerms(lps, ts, ks, w1) == TrueClassTerms(lps, ts, ks, w2)
  {
    assert forall s :: 0 <= s < |ts| ==> TrueClassTerms(lps, ts, ks, w1)[s] == TrueClassTerms(lps, ts, ks, w2)[s];
  }

  lemma {:induction false} ChunksAgree(w1: seq<real>, w2: seq<real>, ks: seq<real>, n: nat, len: nat)
    requires |ks| == n * len && AgreeWhereKept(w1, w2, ks)
    ensures forall i :: 0 <= i < n ==> AgreeWhereKept(Chunks(w1, n, len)[i], Chunks(w2, n, len)[i], Chunks(ks, n, len)[i])
    decreases n
  {
    if n > 0 {
      MulSucc(n, len);
      ChunksAgree(w1[len..], w2[len..], ks[len..], n - 1, len);
      var r1, r2, rk := Chunks(w1, n, len), Chunks(w2, n, len), Chunks(ks, n, len);
      forall i | 0 <= i < n ensures AgreeWhereKept(r1[i], r2[i], rk[i]) {
        if i > 0 {
          assert r1[i] == Chunks(w1[len..], n - 1, len)[i - 1];
          assert r2[i] == Chunks(w2[len..], n - 1, len)[i - 1];
          assert rk[i] == Chunks(ks[len..], n - 1, len)[i - 1];
        }
      }
    }
  }

  lemma NegLogLikelihoodAgree(lp: Tensor, targetShape: seq<nat>, ts: seq<int>, ks: seq<real>, w1: seq<real>, w2: seq<real>)
    requires LayoutAgrees(lp, targetShape) && |ts| == |ks| == |w1| == Prod(targetShape)
    requires ClassesBelow(ts, Channels(lp)) && AgreeWhereKept(w1, w2, ks)
    ensures NegLogLikelihood(lp, targetShape, ts, ks, w1) == NegLogLikelihood(lp, targetShape, ts, ks, w2)
  {
    LayoutSizes(lp, targetShape);
    var N, S := Batch(lp), SpatialSize(lp);
    var b1 := TrueClassBlocks(lp, targetShape, ts, ks, w1);
    var b2 := TrueClassBlocks(lp, targetShape, ts, ks, w2);
    ChunksAgree(w1, w2, ks, N, S);
    forall n | 0 <= n < N ensures b1[n] == b2[n] {
      TermsAgree(Samples(lp)[n], Chunks(ts, N, S)[n], Chunks(ks, N, S)[n], Chunks(w1, N, S)[n], Chunks(w2, N, S)[n]);
    }
    assert b1 == b2;
  }

  /** The weights at ignored positions do not affect the loss. */
  lemma IgnoredWeightsIrrelevant(ignore: Option<int>, lp: Tensor, targetShape: seq<nat>, target: seq<int>,
                                 w1: Tensor, w2: Tensor)
    requires w1.shape == w2.shape && |w1.data| == |w2.data|
    requires forall i :: 0 <= i < |w1.data| && i < |target| && !(ignore.Some? && target[i] == ignore.value) ==>
               w1.data[i] == w2.data[i]
    ensures Loss(ignore, lp, targetShape, target, w1) == Loss(ignore, lp, targetShape, target, w2)
  {
    if Loss(ignore, lp, targetShape, target, w1).Ok? {
      LossIsNegLogLikelihood(ignore, lp, targetShape, target, w1);
      var rt, km := Remap(target, ignore), KeepMask(target, ignore);
      assert Loss(ignore, lp, targetShape, target, w2).Ok?;
      LossIsNegLogLikelihood(ignore, lp, targetShape, target, w2);
      NegLogLikelihoodAgree(lp, targetShape, rt, km, w1.data, w2.data);
    }
  }

  // ---------------------------------------------------------------- the code as written

  /** The largest class index: `F.one_hot` without `num_classes` encodes over
      `max + 1` classes. */
  function MaxOf(s: seq<int>): (r: int)
    requires |s| > 0
    ensures forall i :: 0 <= i < |s| ==> s[i] <= r
    ensures exists i :: 0 <= i < |s| && s[i] == r
  {
    if |s| == 1 then s[0]
    else
      var rest := MaxOf(s[1..]);
      assert forall i :: 1 <= i < |s| ==> s[i] == s[1..][i - 1];
      if s[0] >= rest then s[0] else rest
  }

  /** `forward` exactly as written. With an `ignore_index` the mask is a bool
      tensor and `1 - mask` raises. Without one, `F.one_hot` infers K = max + 1
      classes from the target: an empty target or a negative class is refused,
      and the (N, K, S) one-hot broadcasts against the C channels only when
      K == C or one of them is 1. */
  function LossAsWritten(ignore: Option<int>, lp: Tensor, targetShape: seq<nat>, target: seq<int>, weights: Tensor): (r: Result<real>)
  {
    if !TargetMatchesWeights(targetShape, target, weights) then Err(ShapeMismatch)
    else if !Batched(lp) then Err(ShapeMismatch)
    else if ignore.Some? then Err(TypeMismatch)
    else if |target| == 0 || exists i :: 0 <= i < |target| && target[i] < 0 then Err(InvalidValue)
    else OneHotLoss(lp, targetShape, target, weights, MaxOf(target) + 1)
  }

  /** The rest of `forward` as written once `F.one_hot` has chosen k classes. */
  function OneHotLoss(lp: Tensor, targetShape: seq<nat>, target: seq<int>, weights: Tensor, k: nat): (r: Result<real>)
    requires TargetMatchesWeights(targetShape, target, weights) && Batched(lp)
  {
    var c := Channels(lp);
    if !LayoutAgrees(lp, targetShape) || !(k == c || k == 1 || c == 1) then Err(ShapeMismatch)
    else
      var m := if k == 1 then c else k;
      if |target| == 0 || m == 0 then Err(NonFinite)
      else Ok(MeanOver(Product(lp, targetShape, target, KeepMask(target, None), weights.data, m, k == 1), |target|, m))
  }

  /** Once `F.one_hot` has chosen k classes, the loss is defined exactly when the
      (N, k, S) one-hot broadcasts against the C channels and the mean is over
      at least one entry. */
  lemma OneHotBroadcastRule(lp: Tensor, targetShape: seq<nat>, target: seq<int>, weights: Tensor, k: nat)
    requires TargetMatchesWeights(targetShape, target, weights) && Batched(lp)
    ensures var r := OneHotLoss(lp, targetShape, target, weights, k);
      (r.Ok? <==>
        LayoutAgrees(lp, targetShape) && (k == Channels(lp) || k == 1 || Channels(lp) == 1) &&
        |target| > 0 && (if k == 1 then Channels(lp) else k) > 0) &&
      (r.Err? ==> r.error == ShapeMismatch || r.error == NonFinite)
  {
  }

  /** As written, a defined loss has no ignore index, a non-empty target of
      non-negative classes, and a one-hot width max + 1 that equals C or
      broadcasts against it. */
  lemma AsWrittenDefinedOnly(ignore: Option<int>, lp: Tensor, targetShape: seq<nat>, target: seq<int>, weights: Tensor)
    ensures !TargetMatchesWeights(targetShape, target, weights) || !Batched(lp) ==>
      LossAsWritten(ignore, lp, targetShape, target, weights) == Err(ShapeMismatch)
    ensures LossAsWritten(ignore, lp, targetShape, target, weights).Ok? ==>
      ignore.None? && |target| > 0 && (forall i :: 0 <= i < |target| ==> 0 <= target[i]) &&
      LayoutAgrees(lp, targetShape) &&
      (MaxOf(target) + 1 == Channels(lp) || MaxOf(target) == 0 || Channels(lp) == 1)
  {
    if LossAsWritten(ignore, lp, targetShape, target, weights).Ok? {
      AsWrittenClasses(lp, targetShape, target, weights);
      OneHotBroadcastRule(lp, targetShape, target, weights, MaxOf(target) + 1);
    }
  }

  /** As written, every call with an `ignore_index` that passes the shape
      assertion fails. */
  lemma AsWrittenRejectsIgnoreIndex(ignore: Option<int>, lp: Tensor, targetShape: seq<nat>, target: seq<int>, weights: Tensor)
    requires ignore.Some? && TargetMatchesWeights(targetShape, target, weights) && Batched(lp)
    ensures LossAsWritten(ignore, lp, targetShape, target, weights) == Err(TypeMismatch)
  {
  }

  /** A single channel-1 broadcast reads the one class either way. */
  lemma ProductSingleChannel(lp: Tensor, targetShape: seq<nat>, ts: seq<int>, ks: seq<real>, ws: seq<real>)
    requires LayoutAgrees(lp, targetShape) && |ts| == |ks| == |ws| == Prod(targetShape) && Channels(lp) == 1
    ensures Product(lp, targetShape, ts, ks, ws, 1, true) == Product(lp, targetShape, ts, ks, ws, 1, false)
  {
    var N, S := Batch(lp), SpatialSize(lp);
    LayoutSizes(lp, targetShape);
    var b1 := ProductBlocks(lp, targetShape, ts, ks, ws, 1, true);
    var b2 := ProductBlocks(lp, targetShape, ts, ks, ws, 1, false);
    forall n | 0 <= n < N ensures b1[n] == b2[n] {
      var lps, tr, kr, wr := Samples(lp)[n], Chunks(ts, N, S)[n], Chunks(ks, N, S)[n], Chunks(ws, N, S)[n];
      assert ProductRow(lps, tr, kr, wr, 0, true) == ProductRow(lps, tr, kr, wr, 0, false);
      assert ProductRows(lps, tr, kr, wr, 1, true) == ProductRows(lps, tr, kr, wr, 1, false);
    }
    assert b1 == b2;
  }

  /** Without an ignore index, and when the target's largest class is the last
      channel, the code as written computes the intended loss. */
  lemma AsWrittenAgreesWhenLastClassPresent(lp: Tensor, targetShape: seq<nat>, target: seq<int>, weights: Tensor)
    requires TargetMatchesWeights(targetShape, target, weights) && LayoutAgrees(lp, targetShape)
    requires |target| > 0 && ClassesBelow(target, Channels(lp)) && MaxOf(target) == Channels(lp) - 1
    ensures LossAsWritten(None, lp, targetShape, target, weights) == Loss(None, lp, targetShape, target, weights)
  {
    var c := Channels(lp);
    var km := KeepMask(target, None);
    AsWrittenValue(lp, targetShape, target, weights);
    IntendedValue(lp, targetShape, target, weights);
    if c == 1 {
      ProductSingleChannel(lp, targetShape, target, km, weights.data);
    }
  }

  /** With every class below C and class C - 1 present, the code as written
      encodes over the C channels, broadcasting only when C is 1. */
  lemma AsWrittenValue(lp: Tensor, targetShape: seq<nat>, target: seq<int>, weights: Tensor)
    requires TargetMatchesWeights(targetShape, target, weights) && LayoutAgrees(lp, targetShape)
    requires |target| > 0 && ClassesBelow(target, Channels(lp)) && MaxOf(target) == Channels(lp) - 1
    ensures Channels(lp) >= 1
    ensures LossAsWritten(None, lp, targetShape, target, weights)
            == Ok(MeanOver(Product(lp, targetShape, target, KeepMask(target, None), weights.data, Channels(lp), Channels(lp) == 1),
                           |target|, Channels(lp)))
  {
    assert 0 <= target[0] < Channels(lp);
    AsWrittenClasses(lp, targetShape, target, weights);
  }

  /** Without an ignore index, a non-empty target of non-negative classes
      reaches `F.one_hot` with max + 1 classes. */
  lemma AsWrittenClasses(lp: Tensor, targetShape: seq<nat>, target: seq<int>, weights: Tensor)
    requires TargetMatchesWeights(targetShape, target, weights) && Batched(lp)
    requires |target| > 0 && forall i :: 0 <= i < |target| ==> target[i] >= 0
    ensures MaxOf(target) >= 0
    ensures LossAsWritten(None, lp, targetShape, target, weights) == OneHotLoss(lp, targetShape, target, weights, MaxOf(target) + 1)
  {
    assert target[0] >= 0;
    assert !(exists i :: 0 <= i < |target| && target[i] < 0);
  }

  /** With every class below C, the intended loss has no ignored position to remap. */
  lemma IntendedValue(lp: Tensor, targetShape: seq<nat>, target: seq<int>, weights: Tensor)
    requires TargetMatchesWeights(targetShape, target, weights) && LayoutAgrees(lp, targetShape)
    requires |target| > 0 && ClassesBelow(target, Channels(lp))
    ensures Channels(lp) >= 1
    ensures Loss(None, lp, targetShape, target, weights)
            == Ok(MeanOver(Product(lp, targetShape, target, KeepMask(target, None), weights.data, Channels(lp), false),
                           |target|, Channels(lp)))
  {
    assert 0 <= target[0] < Channels(lp);
    assert Remap(target, None) == target;
  }

  /** One sample, one position of class 0, unit weight, two channels with
      log-probabilities -1 and -2. The intended loss is 1·1 / 2 = 0.5. Without
      an ignore index the code as written infers a single class, broadcasts the
      one-hot entry over both channels and returns (1 + 2) / 2 = 1.5; with one
      it raises. */
  lemma AsWrittenCounterexample()
    ensures LossAsWritten(None, ExampleLogProbs(), [1, 1, 1], [0], ExampleWeights()) == Ok(1.5)
    ensures Loss(None, ExampleLogProbs(), [1, 1, 1], [0], ExampleWeights()) == Ok(0.5)
    ensures LossAsWritten(Some(-1), ExampleLogProbs(), [1, 1, 1], [0], ExampleWeights()) == Err(TypeMismatch)
    ensures Loss(Some(-1), ExampleLogProbs(), [1, 1, 1], [0], ExampleWeights()) == Ok(0.5)
  {
    var lp, w, shape := ExampleLogProbs(), ExampleWeights(), [1, 1, 1];
    ExampleProducts();
    AsWrittenClasses(lp, shape, [0], w);
    assert MaxOf([0]) == 0;
    assert Sum([1.0, 2.0]) == 3.0;
    assert Sum([1.0, 0.0]) == 1.0;
    assert KeepMask([0], None) == [1.0] && KeepMask([0], Some(-1)) == [1.0];
    assert Remap([0], None) == [0] && Remap([0], Some(-1)) == [0];
  }

  /** The example's one sample holds the rows [-1] and [-2]. */
  lemma ExampleLayout()
    ensures LayoutAgrees(ExampleLogProbs(), [1, 1, 1]) && TargetMatchesWeights([1, 1, 1], [0], ExampleWeights())
    ensures Channels(ExampleLogProbs()) == 2 && SpatialSize(ExampleLogProbs()) == 1 && Batch(ExampleLogProbs()) == 1
    ensures Samples(ExampleLogProbs()) == [[[-1.0], [-2.0]]]
  {
    var lp := ExampleLogProbs();
    assert Prod([1, 1, 1]) == 1;
    assert Prod(lp.shape) == 2;
    assert lp.shape[2..] == [1, 1];
    SingleChunk(lp.data);
    assert lp.data[..1] == [-1.0] && lp.data[1..] == [-2.0];
    assert Chunks(lp.data, 2, 1) == [[-1.0]] + Chunks([-2.0], 1, 1);
    SingleChunk([-2.0]);
    assert Chunks(lp.data, 1, 2 * 1) == [lp.data];
    assert Samples(lp)[0] == [[-1.0], [-2.0]];
  }

  /** The example's product as written, [1, 2], and as intended, [1, 0]. */
  lemma ExampleProducts()
    ensures LayoutAgrees(ExampleLogProbs(), [1, 1, 1]) && TargetMatchesWeights([1, 1, 1], [0], ExampleWeights())
    ensures Channels(ExampleLogProbs()) == 2
    ensures Product(ExampleLogProbs(), [1, 1, 1], [0], [1.0], [1.0], 2, true) == [1.0, 2.0]
    ensures Product(ExampleLogProbs(), [1, 1, 1], [0], [1.0], [1.0], 2, false) == [1.0, 0.0]
  {
    ExampleLayout();
    var lp, shape := ExampleLogProbs(), [1, 1, 1];
    var smp := Samples(lp);
    SingleChunk([1.0]);
    SingleChunk([0]);
    ExampleRows(smp[0]);
    assert ProductBlocks(lp, shape, [0], [1.0], [1.0], 2, true) == [[1.0, 2.0]];
    assert ProductBlocks(lp, shape, [0], [1.0], [1.0], 2, false) == [[1.0, 0.0]];
  }

  lemma ExampleRows(lps: seq<seq<real>>)
    requires lps == [[-1.0], [-2.0]]
    ensures Flat(ProductRows(lps, [0], [1.0], [1.0], 2, true)) == [1.0, 2.0]
    ensures Flat(ProductRows(lps, [0], [1.0], [1.0], 2, false)) == [1.0, 0.0]
  {
    var rows := ProductRows(lps, [0], [1.0], [1.0], 2, true);
    assert rows[0][0] == 1.0 && rows[1][0] == 2.0;
    assert |rows[0]| == 1 && |rows[1]| == 1;
    assert rows[0] == [1.0] && rows[1] == [2.0];
    assert rows == [[1.0], [2.0]];
    assert Flat(rows) == [1.0] + Flat([[2.0]]);
    assert Flat([[2.0]]) == [2.0] + Flat([]);
    var right := ProductRows(lps, [0], [1.0], [1.0], 2, false);
    assert right[0][0] == 1.0 && right[1][0] == 0.0;
    assert |right[0]| == 1 && |right[1]| == 1;
    assert right[0] == [1.0] && right[1] == [0.0];
    assert right == [[1.0], [0.0]];
    assert Flat(right) == [1.0] + Flat([[0.0]]);
    assert Flat([[0.0]]) == [0.0] + Flat([]);
  }

  function ExampleLogProbs(): Tensor
  {
    Tensor([1, 2, 1, 1], [-1.0, -2.0])
  }

  function ExampleWeights(): Tensor
  {
    Tensor([1, 1, 1], [1.0])
  }

  datatype PixelWiseCrossEntropyLoss = PixelWiseCrossEntropyLoss(ignoreIndex: Option<int> := None)
  {
    /** `forward` given the log-probabilities. The target is the caller's
        array: on every call that passes the shape assertion its ignored
        positions are overwritten with class 0. */
    method Forward(logProbs: Tensor, target: array<int>, targetShape: seq<nat>, weights: Tensor) returns (r: Result<real>)
      modifies target
      ensures !TargetMatchesWeights(targetShape, old(target[..]), weights) ==> target[..] == old(target[..])
      ensures TargetMatchesWeights(targetShape, old(target[..]), weights) ==> target[..] == Remap(old(target[..]), ignoreIndex)
      ensures r == Loss(ignoreIndex, logProbs, targetShape, old(target[..]), weights)
    {
      if !TargetMatchesWeights(targetShape, target[..], weights) {
        return Err(ShapeMismatch);
      }
      ghost var was := target[..];
      var keep: seq<real> := [];
      var i := 0;
      while i < target.Length
        invariant 0 <= i <= target.Length
        invariant forall k :: 0 <= k < i ==> target[k] == Remap(was, ignoreIndex)[k]
        invariant forall k :: i <= k < target.Length ==> target[k] == was[k]
        invariant keep == KeepMask(was, ignoreIndex)[..i]
      {
        if ignoreIndex.Some? && target[i] == ignoreIndex.value {
          target[i] := 0;
          keep := keep + [0.0];
        } else {
          keep := keep + [1.0];
        }
        i := i + 1;
      }
      assert target[..] == Remap(was, ignoreIndex);
      assert keep == KeepMask(was, ignoreIndex);
      r := LossOfParts(logProbs, targetShape, target[..], keep, weights);
    }
  }
}
