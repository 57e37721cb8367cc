/** The Dice family of CNN-Baseline/losses.py: `compute_per_channel_dice`,
    `_AbstractDiceLoss` with its `DiceLoss` and `GeneralizedDiceLoss`
    subclasses, `SoftDiceLoss` and `BCEDiceLoss`. */
module DiceLosses {
  import opened Results
  import opened RealSeq
  import opened Tensors
  import opened Layout

  /** The default `epsilon` of `compute_per_channel_dice` and `GeneralizedDiceLoss`
      and the default `smooth` of `SoftDiceLoss` (1e-6). */
  const EPSILON: real := 0.000001

  // ---------------------------------------------------------------- normalization

  /** The three values `_AbstractDiceLoss` accepts for `normalization`. */
  datatype Normalization = Sigmoid | Softmax | Identity

  function NormalizationName(n: Normalization): string
  {
    match n
    case Sigmoid => "sigmoid"
    case Softmax => "softmax"
    case Identity => "none"
  }

  /** The constructor's `assert normalization in [...]`: any other name fails. */
  function ParseNormalization(name: string): (r: Result<Normalization>)
    ensures r.Ok? ==> NormalizationName(r.value) == name
    ensures r.Err? ==> r.error == ConfigurationError
    ensures r.Err? <==> forall n: Normalization :: NormalizationName(n) != name
  {
    if name == "sigmoid" then Ok(Sigmoid)
    else if name == "softmax" then Ok(Softmax)
    else if name == "none" then Ok(Identity)
    else
      assert NormalizationName(Sigmoid) != name && NormalizationName(Softmax) != name;
      Err(ConfigurationError)
  }

  lemma ParseNormalizationName(n: Normalization)
    ensures ParseNormalization(NormalizationName(n)) == Ok(n)
  {
  }

  /** The logistic function and the softmax over axis 1. Both are transcendental,
      so the caller supplies them. */
  datatype Activations = Activations(sigmoid: real -> real, softmax: Tensor -> Tensor)

  /** `self.normalization(input)`. */
  function Normalize(n: Normalization, act: Activations, t: Tensor): (r: Tensor)
    ensures n == Identity ==> r == t
    ensures n == Sigmoid ==>
      r.shape == t.shape && |r.data| == |t.data| &&
      forall i :: 0 <= i < |t.data| ==> r.data[i] == act.sigmoid(t.data[i])
  {
    match n
    case Sigmoid => Tensor(t.shape, Apply(act.sigmoid, t.data))
    case Softmax => act.softmax(t)
    case Identity => t
  }

  /** A sigmoid with values in [0, 1] yields a same-shape tensor of probabilities. */
  lemma SigmoidProbabilities(act: Activations, t: Tensor)
    requires forall x :: 0.0 <= act.sigmoid(x) <= 1.0
    ensures Normalize(Sigmoid, act, t).shape == t.shape
    ensures Normalize(Sigmoid, act, t).Valid() == t.Valid()
    ensures AllIn(Normalize(Sigmoid, act, t).data, 0.0, 1.0)
  {
    var r := Normalize(Sigmoid, act, t);
    forall i | 0 <= i < |r.data| ensures 0.0 <= r.data[i] <= 1.0 {
      var v := t.data[i];
      assert 0.0 <= act.sigmoid(v) <= 1.0;
      assert r.data[i] == act.sigmoid(v);
    }
  }

  // ---------------------------------------------------------------- broadcasting

  /** Two one-dimensional operands torch can broadcast against each other. */
  predicate Broadcastable(a: seq<real>, b: seq<real>)
  {
    |a| == |b| || |a| == 1 || |b| == 1
  }

  function BroadcastLength(a: seq<real>, b: seq<real>): nat
  {
    if |a| == 1 then |b| else |a|
  }

  /** Element `k` of `s` once broadcast: a length-1 operand repeats its element. */
  function At(s: seq<real>, k: nat): (r: real)
    requires |s| == 1 || k < |s|
    ensures k < |s| ==> r == s[k]
  {
    if |s| == 1 then s[0] else s[k]
  }

  /** `weight * intersect`; without a weight the intersections are left as they are. */
  function ApplyWeight(weight: Option<seq<real>>, inter: seq<real>): (r: Result<seq<real>>)
    ensures weight.None? ==> r == Ok(inter)
    ensures weight.Some? ==> (r.Ok? <==> Broadcastable(weight.value, inter))
    ensures r.Err? ==> r.error == ShapeMismatch
    ensures weight.Some? && r.Ok? ==>
      |r.value| == BroadcastLength(weight.value, inter) &&
      forall k :: 0 <= k < |r.value| ==> r.value[k] == At(weight.value, k) * At(inter, k)
  {
    match weight
    case None => Ok(inter)
    case Some(w) =>
      if Broadcastable(w, inter) then
        Ok(seq(BroadcastLength(w, inter), k requires 0 <= k < BroadcastLength(w, inter) => At(w, k) * At(inter, k)))
      else Err(ShapeMismatch)
  }

  /** `2 * (num / den)` elementwise with broadcasting; a zero divisor makes torch
      produce inf or NaN. */
  function DoubledRatios(num: seq<real>, den: seq<real>): (r: Result<seq<real>>)
    ensures r.Ok? ==> Broadcastable(num, den) && |r.value| == BroadcastLength(num, den)
    ensures r.Ok? ==> forall k :: 0 <= k < |r.value| ==> At(den, k) != 0.0 && r.value[k] == 2.0 * (At(num, k) / At(den, k))
    ensures r.Err? ==>
      (!Broadcastable(num, den) && r.error == ShapeMismatch) ||
      (Broadcastable(num, den) && r.error == NonFinite &&
       exists k :: 0 <= k < BroadcastLength(num, den) && At(den, k) == 0.0)
  {
    if !Broadcastable(num, den) then Err(ShapeMismatch)
    else if exists k :: 0 <= k < BroadcastLength(num, den) && At(den, k) == 0.0 then Err(NonFinite)
    else Ok(seq(BroadcastLength(num, den), k requires 0 <= k < BroadcastLength(num, den) => 2.0 * (At(num, k) / At(den, k))))
  }

  // ---------------------------------------------------------------- row sums

  /** Two matrices of C rows whose rows pair up in length. */
  predicate SameLayout(xs: seq<seq<real>>, ts: seq<seq<real>>)
  {
    |xs| == |ts| && forall c :: 0 <= c < |xs| ==> |xs[c]| == |ts[c]|
  }

  /** `(input * target).sum(-1)`. */
  function Intersections(xs: seq<seq<real>>, ts: seq<seq<real>>): (r: seq<real>)
    requires SameLayout(xs, ts)
    ensures |r| == |xs|
    ensures forall c :: 0 <= c < |xs| ==> r[c] == Sum(Mul(xs[c], ts[c]))
  {
    seq(|xs|, c requires 0 <= c < |xs| => Sum(Mul(xs[c], ts[c])))
  }

  /** `(input * input).sum(-1) + (target * target).sum(-1)`. */
  function SquareSums(xs: seq<seq<real>>, ts: seq<seq<real>>): (r: seq<real>)
    requires SameLayout(xs, ts)
    ensures |r| == |xs|
    ensures forall c :: 0 <= c < |xs| ==> r[c] == Sum(Mul(xs[c], xs[c])) + Sum(Mul(ts[c], ts[c]))
  {
    seq(|xs|, c requires 0 <= c < |xs| => Sum(Mul(xs[c], xs[c])) + Sum(Mul(ts[c], ts[c])))
  }

  /** `(input + target).sum(-1)`. */
  function Totals(xs: seq<seq<real>>, ts: seq<seq<real>>): (r: seq<real>)
    requires SameLayout(xs, ts)
    ensures |r| == |xs|
    ensures forall c :: 0 <= c < |xs| ==> r[c] == Sum(Add(xs[c], ts[c]))
  {
    seq(|xs|, c requires 0 <= c < |xs| => Sum(Add(xs[c], ts[c])))
  }

  /** `a.clamp(min=lo)`. */
  function Clamp(a: seq<real>, lo: real): (r: seq<real>)
    ensures |r| == |a|
    ensures forall i :: 0 <= i < |a| ==> r[i] == Max(a[i], lo)
  {
    seq(|a|, i requires 0 <= i < |a| => Max(a[i], lo))
  }

  // ---------------------------------------------------------------- compute_per_channel_dice

  /** The per-channel Dice on already flattened input and target rows. */
  function DiceOfRows(xs: seq<seq<real>>, ts: seq<seq<real>>, eps: real, weight: Option<seq<real>>): (r: Result<seq<real>>)
    requires SameLayout(xs, ts)
  {
    var inter :- ApplyWeight(weight, Intersections(xs, ts));
    DoubledRatios(inter, Clamp(SquareSums(xs, ts), eps))
  }

  /** `compute_per_channel_dice(input, target, epsilon, weight)`. Different shapes
      fail the function's assert; a tensor without a channel axis, or without
      channels, cannot be flattened. */
  function PerChannelDice(input: Tensor, target: Tensor, eps: real, weight: Option<seq<real>>): (r: Result<seq<real>>)
    ensures input.shape != target.shape ==> r == Err(ShapeMismatch)
    ensures !Flattenable(input) || !target.Valid() ==> r == Err(ShapeMismatch)
    ensures r.Ok? ==> input.shape == target.shape && Flattenable(input) && Flattenable(target)
  {
    if input.shape != target.shape || !Flattenable(input) || !target.Valid() then Err(ShapeMismatch)
    else
      FlattenSameShape(input, target);
      DiceOfRows(Flatten(input), Flatten(target), eps, weight)
  }

  /** The Dice score of one channel, 2·w·Σx·t / max(Σx² + Σt², ε). */
  function DiceScore(x: seq<real>, t: seq<real>, w: real, eps: real): real
    requires |x| == |t| && eps > 0.0
  {
    2.0 * (w * Sum(Mul(x, t)) / Max(Sum(Mul(x, x)) + Sum(Mul(t, t)), eps))
  }

  /** On rows: with a positive ε and a weight of one entry per channel (or none)
      every channel gets 2·w[c]·Σx·t / max(Σx² + Σt², ε). */
  lemma DiceOfRowsFormula(xs: seq<seq<real>>, ts: seq<seq<real>>, eps: real, weight: Option<seq<real>>)
    requires SameLayout(xs, ts) && eps > 0.0
    requires weight.Some? ==> |weight.value| == |xs|
    ensures DiceOfRows(xs, ts, eps, weight).Ok?
    ensures |DiceOfRows(xs, ts, eps, weight).value| == |xs|
    ensures forall c :: 0 <= c < |xs| ==>
      DiceOfRows(xs, ts, eps, weight).value[c]
      == DiceScore(xs[c], ts[c], if weight.Some? then weight.value[c] else 1.0, eps)
  {
    var inter := Intersections(xs, ts);
    var den := Clamp(SquareSums(xs, ts), eps);
    ChannelwiseWeight(weight, inter);
    var wi := ApplyWeight(weight, inter).value;
    forall k | 0 <= k < |den| ensures den[k] != 0.0 {
      PositiveMax(SquareSums(xs, ts)[k], eps);
    }
    ChannelwiseRatios(wi, den);
    var v := DoubledRatios(wi, den).value;
    forall c | 0 <= c < |xs|
      ensures v[c] == DiceScore(xs[c], ts[c], if weight.Some? then weight.value[c] else 1.0, eps)
    {
      var w := if weight.Some? then weight.value[c] else 1.0;
      ChannelScore(inter[c], SquareSums(xs, ts)[c], w, eps, inter[c], den[c], wi[c], v[c]);
    }
  }

  lemma PositiveMax(a: real, eps: real)
    requires eps > 0.0
    ensures Max(a, eps) != 0.0
  {
  }

  /** The per-channel steps of `compute_per_channel_dice`, on the channel's
      overlap `inter` and summed squares `squares`, give the Dice score. */
  lemma ChannelScore(overlap: real, squares: real, w: real, eps: real, inter: real, den: real, wi: real, v: real)
    requires eps > 0.0 && inter == overlap && den == Max(squares, eps)
    requires wi == w * inter && v == 2.0 * (wi / den)
    ensures v == 2.0 * (w * overlap / Max(squares, eps))
  {
  }

  /** A weight with one entry per channel (or none) scales each channel by its own entry. */
  lemma ChannelwiseWeight(weight: Option<seq<real>>, inter: seq<real>)
    requires weight.Some? ==> |weight.value| == |inter|
    ensures ApplyWeight(weight, inter).Ok?
    ensures |ApplyWeight(weight, inter).value| == |inter|
    ensures forall c :: 0 <= c < |inter| ==>
      ApplyWeight(weight, inter).value[c] == (if weight.Some? then weight.value[c] else 1.0) * inter[c]
  {
  }

  /** Equally long operands with nonzero divisors are divided channel by channel. */
  lemma ChannelwiseRatios(num: seq<real>, den: seq<real>)
    requires |num| == |den| && forall k :: 0 <= k < |den| ==> den[k] != 0.0
    ensures DoubledRatios(num, den).Ok?
    ensures |DoubledRatios(num, den).value| == |num|
    ensures forall c :: 0 <= c < |num| ==> DoubledRatios(num, den).value[c] == 2.0 * (num[c] / den[c])
  {
  }

  /** Once the shapes are checked, the per-channel Dice is the Dice of the flattened rows. */
  lemma PerChannelDiceRows(input: Tensor, target: Tensor, eps: real, weight: Option<seq<real>>)
    requires Flattenable(input) && input.shape == target.shape && target.Valid()
    ensures SameLayout(Flatten(input), Flatten(target))
    ensures PerChannelDice(input, target, eps, weight) == DiceOfRows(Flatten(input), Flatten(target), eps, weight)
  {
    FlattenSameShape(input, target);
  }

  /** The value per channel is 2·w[c]·Σx·t / max(Σx² + Σt², ε) for a weight with
      one entry per channel, and 2·Σx·t / max(Σx² + Σt², ε) without one; for a
      positive ε neither can fail. */
  lemma PerChannelDiceFormula(input: Tensor, target: Tensor, eps: real, weight: Option<seq<real>>)
    requires Flattenable(input) && input.shape == target.shape && target.Valid() && eps > 0.0
    requires weight.Some? ==> |weight.value| == Channels(input)
    ensures SameLayout(Flatten(input), Flatten(target))
    ensures PerChannelDice(input, target, eps, weight).Ok?
    ensures |PerChannelDice(input, target, eps, weight).value| == Channels(input)
    ensures forall c :: 0 <= c < Channels(input) ==>
      PerChannelDice(input, target, eps, weight).value[c]
      == DiceScore(Flatten(input)[c], Flatten(target)[c], if weight.Some? then weight.value[c] else 1.0, eps)
  {
    PerChannelDiceRows(input, target, eps, weight);
    DiceOfRowsFormula(Flatten(input), Flatten(target), eps, weight);
  }

  /** Identical all-ones input and target score exactly 1 in every channel, as
      long as there is at least one value per channel and ε ≤ 2. */
  lemma PerChannelDiceAllOnes(t: Tensor, eps: real)
    requires Flattenable(t) && AllEqual(t.data, 1.0)
    requires Batch(t) * SpatialSize(t) > 0 && 0.0 < eps <= 2.0
    ensures PerChannelDice(t, t, eps, None).Ok?
    ensures PerChannelDice(t, t, eps, None).value == Const(Channels(t), 1.0)
  {
    PerChannelDiceFormula(t, t, eps, None);
    FlattenAllIn(t, 1.0, 1.0);
    var r := PerChannelDice(t, t, eps, None).value;
    var len := Batch(t) * SpatialSize(t);
    forall c | 0 <= c < Channels(t) ensures r[c] == 1.0 {
      FlattenSameShape(t, t);
      var x := Flatten(t)[c];
      var sq := Mul(x, x);
      assert AllEqual(sq, 1.0);
      SumConst(sq, 1.0);
      assert Sum(sq) == len as real;
      AllOnesScore(len as real, eps);
    }
  }

  lemma AllOnesScore(l: real, eps: real)
    requires l >= 1.0 && 0.0 < eps <= 2.0
    ensures 2.0 * (1.0 * l / Max(l + l, eps)) == 1.0
  {
    assert Max(l + l, eps) == 2.0 * l;
  }

  /** An all-zero input scores 0 in every channel, whatever the target and weight. */
  lemma PerChannelDiceZeroInput(input: Tensor, target: Tensor, eps: real, weight: Option<seq<real>>)
    requires AllEqual(input.data, 0.0)
    ensures PerChannelDice(input, target, eps, weight).Ok? ==>
      AllEqual(PerChannelDice(input, target, eps, weight).value, 0.0)
  {
    if PerChannelDice(input, target, eps, weight).Ok? {
      PerChannelDiceRows(input, target, eps, weight);
      FlattenAllIn(input, 0.0, 0.0);
      DiceOfRowsZero(Flatten(input), Flatten(target), eps, weight);
    }
  }

  /** On rows: all-zero input rows give all-zero scores. */
  lemma DiceOfRowsZero(xs: seq<seq<real>>, ts: seq<seq<real>>, eps: real, weight: Option<seq<real>>)
    requires SameLayout(xs, ts)
    requires forall c :: 0 <= c < |xs| ==> AllIn(xs[c], 0.0, 0.0)
    ensures DiceOfRows(xs, ts, eps, weight).Ok? ==> AllEqual(DiceOfRows(xs, ts, eps, weight).value, 0.0)
  {
    var inter := Intersections(xs, ts);
    forall c | 0 <= c < |xs| ensures inter[c] == 0.0 {
      SumMulZeroLeft(xs[c], ts[c]);
    }
    if DiceOfRows(xs, ts, eps, weight).Ok? {
      var wi := ApplyWeight(weight, inter).value;
      forall k | 0 <= k < |wi| ensures wi[k] == 0.0 {
        if weight.Some? {
          assert At(inter, k) == 0.0;
        }
      }
      var den := Clamp(SquareSums(xs, ts), eps);
      var r := DoubledRatios(wi, den).value;
      forall k | 0 <= k < |r| ensures r[k] == 0.0 {
        ZeroRatio(At(wi, k), At(den, k));
      }
    }
  }

  lemma ZeroRatio(a: real, d: real)
    requires a == 0.0 && d != 0.0
    ensures 2.0 * (a / d) == 0.0
  {
  }

  /** Every channel's score is at most 1 (2·Σx·t never exceeds Σx² + Σt²), and at
      least 0 when input and target hold probabilities. */
  lemma PerChannelDiceBounds(input: Tensor, target: Tensor, eps: real)
    requires Flattenable(input) && input.shape == target.shape && target.Valid() && eps > 0.0
    ensures forall c :: 0 <= c < Channels(input) ==> PerChannelDice(input, target, eps, None).value[c] <= 1.0
    ensures AllIn(input.data, 0.0, 1.0) && AllIn(target.data, 0.0, 1.0) ==>
      AllIn(PerChannelDice(input, target, eps, None).value, 0.0, 1.0)
  {
    PerChannelDiceFormula(input, target, eps, None);
    FlattenSameShape(input, target);
    var xs, ts := Flatten(input), Flatten(target);
    var r := PerChannelDice(input, target, eps, None).value;
    var probabilities := AllIn(input.data, 0.0, 1.0) && AllIn(target.data, 0.0, 1.0);
    if probabilities {
      FlattenAllIn(input, 0.0, 1.0);
      FlattenAllIn(target, 0.0, 1.0);
    }
    forall c | 0 <= c < Channels(input)
      ensures r[c] <= 1.0
      ensures probabilities ==> 0.0 <= r[c]
    {
      DiceScoreBounds(xs[c], ts[c], eps);
    }
  }

  /** One channel's unweighted score is at most 1, and at least 0 on probabilities. */
  lemma DiceScoreBounds(x: seq<real>, t: seq<real>, eps: real)
    requires |x| == |t| && eps > 0.0
    ensures DiceScore(x, t, 1.0, eps) <= 1.0
    ensures AllIn(x, 0.0, 1.0) && AllIn(t, 0.0, 1.0) ==> 0.0 <= DiceScore(x, t, 1.0, eps)
  {
    SumCrossBound(x, t);
    var i, m := Sum(Mul(x, t)), Max(Sum(Mul(x, x)) + Sum(Mul(t, t)), eps);
    DoubledRatioAtMostOne(1.0 * i, m);
    if AllIn(x, 0.0, 1.0) && AllIn(t, 0.0, 1.0) {
      SumProductNonneg(x, t);
    }
  }

  lemma DoubledRatioAtMostOne(a: real, m: real)
    requires m > 0.0 && 2.0 * a <= m
    ensures 2.0 * (a / m) <= 1.0
  {
  }

  // ---------------------------------------------------------------- _AbstractDiceLoss

  /** `1. - torch.mean(per_channel_dice)`; the mean of no channels is NaN. */
  function OneMinusMean(d: seq<real>): (r: Result<real>)
    ensures r.Err? <==> |d| == 0
    ensures r.Err? ==> r.error == NonFinite
  {
    if |d| == 0 then Err(NonFinite) else Ok(1.0 - Mean(d))
  }

  /** A perfect score in every channel is a loss of exactly 0. */
  lemma OneMinusMeanOfOnes(d: seq<real>)
    requires |d| > 0 && AllEqual(d, 1.0)
    ensures OneMinusMean(d) == Ok(0.0)
  {
    MeanConst(d, 1.0);
  }

  /** Scores in [0, 1] give a loss in [0, 1]. */
  lemma {:induction false} OneMinusMeanInUnit(d: seq<real>)
    requires |d| > 0 && AllIn(d, 0.0, 1.0)
    ensures OneMinusMean(d).Ok? && 0.0 <= OneMinusMean(d).value <= 1.0
  {
    SumBounds(d, 0.0, 1.0);
    RatioInUnit(Sum(d), |d| as real);
  }

  /** `DiceLoss(weight, normalization)`. */
  datatype DiceLoss = DiceLoss(weight: Option<seq<real>>, normalization: Normalization)
  {
    /** `_AbstractDiceLoss.forward`: normalize, score each channel, `1 - mean`. */
    function Forward(act: Activations, input: Tensor, target: Tensor): (r: Result<real>)
      ensures PerChannelDice(Normalize(normalization, act, input), target, EPSILON, weight).Err? ==> r.Err?
    {
      var d :- PerChannelDice(Normalize(normalization, act, input), target, EPSILON, weight);
      OneMinusMean(d)
    }
  }

  /** The constructor, which accepts only the three normalization names. */
  function NewDiceLoss(weight: Option<seq<real>>, normalization: string): (r: Result<DiceLoss>)
    ensures r.Ok? <==> normalization in {"sigmoid", "softmax", "none"}
    ensures r.Ok? ==> r.value.weight == weight && NormalizationName(r.value.normalization) == normalization
    ensures r.Err? ==> r.error == ConfigurationError
  {
    var n :- ParseNormalization(normalization);
    Ok(DiceLoss(weight, n))
  }

  /** Without normalization, an all-ones prediction of an all-ones target costs exactly 0. */
  lemma DiceLossPerfectMatch(act: Activations, t: Tensor)
    requires Batched(t) && AllEqual(t.data, 1.0)
    requires Batch(t) * SpatialSize(t) > 0 && Channels(t) > 0
    ensures DiceLoss(None, Identity).Forward(act, t, t) == Ok(0.0)
  {
    PerChannelDiceAllOnes(t, EPSILON);
    OneMinusMeanOfOnes(Const(Channels(t), 1.0));
  }

  /** Once normalized into probabilities, the unweighted Dice loss lies in [0, 1]. */
  lemma DiceLossInUnit(n: Normalization, act: Activations, input: Tensor, target: Tensor)
    requires Batched(Normalize(n, act, input)) && Normalize(n, act, input).shape == target.shape
    requires Channels(target) > 0 && target.Valid()
    requires AllIn(Normalize(n, act, input).data, 0.0, 1.0) && AllIn(target.data, 0.0, 1.0)
    ensures DiceLoss(None, n).Forward(act, input, target).Ok?
    ensures 0.0 <= DiceLoss(None, n).Forward(act, input, target).value <= 1.0
  {
    var x := Normalize(n, act, input);
    PerChannelDiceFormula(x, target, EPSILON, None);
    PerChannelDiceBounds(x, target, EPSILON);
    OneMinusMeanInUnit(PerChannelDice(x, target, EPSILON, None).value);
  }

  // ---------------------------------------------------------------- GeneralizedDiceLoss

  /** With a single channel, GDL puts foreground and background in separate
      channels: `[x, 1 - x]`. */
  function GdlChannels(rows: seq<seq<real>>): (r: seq<seq<real>>)
    ensures |rows| == 1 ==> r == [rows[0], OneMinus(rows[0])]
    ensures |rows| != 1 ==> r == rows
  {
    if |rows| == 1 then [rows[0], OneMinus(rows[0])] else rows
  }

  lemma GdlChannelsLayout(xs: seq<seq<real>>, ts: seq<seq<real>>)
    requires SameLayout(xs, ts)
    ensures SameLayout(GdlChannels(xs), GdlChannels(ts))
    ensures |GdlChannels(xs)| != 1
  {
  }

  /** Complementing probabilities keeps them probabilities. */
  lemma GdlChannelsInUnit(rows: seq<seq<real>>)
    requires forall c :: 0 <= c < |rows| ==> AllIn(rows[c], 0.0, 1.0)
    ensures forall c :: 0 <= c < |GdlChannels(rows)| ==> AllIn(GdlChannels(rows)[c], 0.0, 1.0)
  {
  }

  /** The label volumes `target.sum(-1)`, squared and clamped: `(w_l * w_l).clamp(min=eps)`. */
  function ClampedVolumes(ts: seq<seq<real>>, eps: real): (r: seq<real>)
    ensures |r| == |ts|
    ensures forall c :: 0 <= c < |ts| ==> r[c] == Max(Square(Sum(ts[c])), eps)
  {
    seq(|ts|, c requires 0 <= c < |ts| => Max(Square(Sum(ts[c])), eps))
  }

  function Square(x: real): real
  {
    x * x
  }

  /** `1 / v` elementwise, on nonzero values. */
  function Reciprocals(v: seq<real>): (r: seq<real>)
    requires forall i :: 0 <= i < |v| ==> v[i] != 0.0
    ensures |r| == |v|
    ensures forall i :: 0 <= i < |v| ==> r[i] == 1.0 / v[i]
  {
    seq(|v|, i requires 0 <= i < |v| => 1.0 / v[i])
  }

  /** Per-channel quantities times the per-channel weights `w_l`. */
  function Weigh(a: seq<real>, w: seq<real>): (r: seq<real>)
    requires |a| == |w|
    ensures |r| == |a|
    ensures forall c :: 0 <= c < |a| ==> r[c] == a[c] * w[c]
  {
    seq(|a|, c requires 0 <= c < |a| => a[c] * w[c])
  }

  /** `GeneralizedDiceLoss.dice` on flattened rows:
      2·Σ_c(w_c·Σx·t) / Σ_c max(w_c·Σ(x + t), ε) with w_c = 1 / max((Σt)², ε).
      A zero volume with ε ≤ 0 gives an infinite weight, and a zero overall
      denominator a NaN. */
  function GeneralizedDiceOfRows(xs: seq<seq<real>>, ts: seq<seq<real>>, eps: real): (r: Result<real>)
    requires SameLayout(xs, ts)
  {
    GdlChannelsLayout(xs, ts);
    var xs2, ts2 := GdlChannels(xs), GdlChannels(ts);
    var vol := ClampedVolumes(ts2, eps);
    if exists c :: 0 <= c < |vol| && vol[c] == 0.0 then Err(NonFinite)
    else
      var w := Reciprocals(vol);
      var inter := Weigh(Intersections(xs2, ts2), w);
      var den := Clamp(Weigh(Totals(xs2, ts2), w), eps);
      if Sum(den) == 0.0 then Err(NonFinite)
      else Ok(2.0 * (Sum(inter) / Sum(den)))
  }

  /** With a positive ε the weights are positive and the score is defined for any
      non-empty set of channels. */
  lemma GdlWeightsPositive(ts: seq<seq<real>>, eps: real)
    requires eps > 0.0
    ensures forall c :: 0 <= c < |ts| ==> ClampedVolumes(ts, eps)[c] >= eps
    ensures forall c :: 0 <= c < |ts| ==> 1.0 / ClampedVolumes(ts, eps)[c] > 0.0
  {
  }

  /** `GeneralizedDiceLoss.dice(input, target)`. */
  function GeneralizedDice(input: Tensor, target: Tensor, eps: real): (r: Result<real>)
    ensures input.shape != target.shape || !Flattenable(input) || !target.Valid() ==> r == Err(ShapeMismatch)
    ensures r.Ok? ==> Flattenable(input) && input.shape == target.shape
  {
    if input.shape != target.shape || !Flattenable(input) || !target.Valid() then Err(ShapeMismatch)
    else
      FlattenSameShape(input, target);
      GeneralizedDiceOfRows(Flatten(input), Flatten(target), eps)
  }

  /** For probabilities and a positive ε, the generalized score lies in [0, 1]. */
  lemma GeneralizedDiceOfRowsInUnit(xs: seq<seq<real>>, ts: seq<seq<real>>, eps: real)
    requires SameLayout(xs, ts) && |xs| > 0 && eps > 0.0
    requires forall c :: 0 <= c < |xs| ==> AllIn(xs[c], 0.0, 1.0) && AllIn(ts[c], 0.0, 1.0)
    ensures GeneralizedDiceOfRows(xs, ts, eps).Ok?
    ensures 0.0 <= GeneralizedDiceOfRows(xs, ts, eps).value <= 1.0
  {
    GdlChannelsLayout(xs, ts);
    GdlChannelsInUnit(xs);
    GdlChannelsInUnit(ts);
    var xs2, ts2 := GdlChannels(xs), GdlChannels(ts);
    var vol := ClampedVolumes(ts2, eps);
    GdlWeightsPositive(ts2, eps);
    var w := Reciprocals(vol);
    var inter := Weigh(Intersections(xs2, ts2), w);
    var den := Clamp(Weigh(Totals(xs2, ts2), w), eps);
    RowsNonneg(xs2, ts2);
    RowsHalf(xs2, ts2);
    WeightedTermsNonneg(Intersections(xs2, ts2), w);
    WeightedTermsHalf(Intersections(xs2, ts2), Totals(xs2, ts2), w, eps);
    SumRatioBound(inter, den, eps);
  }

  /** For probabilities every channel's intersection is non-negative ... */
  lemma RowsNonneg(xs: seq<seq<real>>, ts: seq<seq<real>>)
    requires SameLayout(xs, ts)
    requires forall c :: 0 <= c < |xs| ==> AllIn(xs[c], 0.0, 1.0) && AllIn(ts[c], 0.0, 1.0)
    ensures forall c :: 0 <= c < |xs| ==> 0.0 <= Intersections(xs, ts)[c]
  {
    forall c | 0 <= c < |xs| ensures 0.0 <= Sum(Mul(xs[c], ts[c])) {
      SumProductNonneg(xs[c], ts[c]);
    }
  }

  /** ... and at most half of the channel's total. */
  lemma RowsHalf(xs: seq<seq<real>>, ts: seq<seq<real>>)
    requires SameLayout(xs, ts)
    requires forall c :: 0 <= c < |xs| ==> AllIn(xs[c], 0.0, 1.0) && AllIn(ts[c], 0.0, 1.0)
    ensures forall c :: 0 <= c < |xs| ==> 2.0 * Intersections(xs, ts)[c] <= Totals(xs, ts)[c]
  {
    forall c | 0 <= c < |xs| ensures 2.0 * Sum(Mul(xs[c], ts[c])) <= Sum(Add(xs[c], ts[c])) {
      SumProductBelowSum(xs[c], ts[c]);
    }
  }

  /** Positive weights keep intersections non-negative ... */
  lemma WeightedTermsNonneg(inter: seq<real>, w: seq<real>)
    requires |inter| == |w|
    requires forall c :: 0 <= c < |w| ==> 0.0 <= inter[c] && w[c] > 0.0
    ensures forall c :: 0 <= c < |w| ==> 0.0 <= Weigh(inter, w)[c]
  {
    forall c | 0 <= c < |w| ensures 0.0 <= inter[c] * w[c] {
      WeightedNonneg(inter[c], w[c]);
    }
  }

  /** ... and below half of the clamped weighted totals, which are at least ε. */
  lemma WeightedTermsHalf(inter: seq<real>, tot: seq<real>, w: seq<real>, eps: real)
    requires |inter| == |tot| == |w|
    requires forall c :: 0 <= c < |w| ==> 2.0 * inter[c] <= tot[c] && w[c] > 0.0
    ensures forall c :: 0 <= c < |w| ==>
      2.0 * Weigh(inter, w)[c] <= Clamp(Weigh(tot, w), eps)[c] && eps <= Clamp(Weigh(tot, w), eps)[c]
  {
    var m, n := Weigh(inter, w), Weigh(tot, w);
    var cl := Clamp(n, eps);
    forall c | 0 <= c < |w| ensures 2.0 * m[c] <= cl[c] {
      WeightedHalf(inter[c], tot[c], w[c], m[c], n[c]);
      assert cl[c] == Max(n[c], eps);
    }
  }

  lemma WeightedNonneg(i: real, w: real)
    requires 0.0 <= i && w > 0.0
    ensures 0.0 <= i * w
  {
  }

  /** Termwise 0 ≤ 2·a ≤ d with every d ≥ ε > 0 bounds 2·Σa / Σd by [0, 1]. */
  lemma SumRatioBound(a: seq<real>, d: seq<real>, eps: real)
    requires |a| == |d| && |d| > 0 && eps > 0.0
    requires forall c :: 0 <= c < |a| ==> 0.0 <= a[c] && 2.0 * a[c] <= d[c] && eps <= d[c]
    ensures Sum(d) > 0.0
    ensures 0.0 <= 2.0 * (Sum(a) / Sum(d)) <= 1.0
  {
    SumTwiceBelow(a, d);
    SumNonneg(a);
    SumAtLeast(d, eps);
    DoubledRatioAtMostOne(Sum(a), Sum(d));
  }

  lemma {:induction false} SumTwiceBelow(a: seq<real>, d: seq<real>)
    requires |a| == |d| && forall c :: 0 <= c < |a| ==> 2.0 * a[c] <= d[c]
    ensures 2.0 * Sum(a) <= Sum(d)
  {
    if |a| > 0 {
      SumTwiceBelow(a[1..], d[1..]);
    }
  }

  lemma {:induction false} SumNonneg(a: seq<real>)
    requires forall c :: 0 <= c < |a| ==> 0.0 <= a[c]
    ensures 0.0 <= Sum(a)
  {
    if |a| > 0 {
      SumNonneg(a[1..]);
    }
  }

  /** A non-empty sum of terms each at least ε > 0 is at least ε. */
  lemma {:induction false} SumAtLeast(d: seq<real>, eps: real)
    requires |d| > 0 && eps > 0.0 && forall c :: 0 <= c < |d| ==> eps <= d[c]
    ensures eps <= Sum(d)
  {
    if |d| > 1 {
      SumAtLeast(d[1..], eps);
    }
  }

  /** 2·i ≤ d carries over to the weighted products for a positive weight. */
  lemma WeightedHalf(i: real, d: real, w: real, p: real, q: real)
    requires 2.0 * i <= d && w > 0.0 && p == i * w && q == d * w
    ensures 2.0 * p <= q
  {
    assert (2.0 * i) * w <= d * w;
  }

  /** `GeneralizedDiceLoss(normalization, epsilon)`. */
  datatype GeneralizedDiceLoss = GeneralizedDiceLoss(normalization: Normalization, epsilon: real)
  {
    /** `_AbstractDiceLoss.forward`; the mean of the single scalar score is the score. */
    function Forward(act: Activations, input: Tensor, target: Tensor): (r: Result<real>)
      ensures r.Ok? <==> GeneralizedDice(Normalize(normalization, act, input), target, epsilon).Ok?
      ensures r.Ok? ==> r.value == 1.0 - GeneralizedDice(Normalize(normalization, act, input), target, epsilon).value
    {
      var d :- GeneralizedDice(Normalize(normalization, act, input), target, epsilon);
      MeanSingleton(d);
      OneMinusMean([d])
    }
  }

  /** The constructor: `normalization` defaults to sigmoid and `epsilon` to 1e-6. */
  function NewGeneralizedDiceLoss(normalization: string := "sigmoid", epsilon: real := EPSILON): (r: Result<GeneralizedDiceLoss>)
    ensures r.Ok? <==> normalization in {"sigmoid", "softmax", "none"}
    ensures r.Ok? ==> r.value.epsilon == epsilon && NormalizationName(r.value.normalization) == normalization
    ensures r.Err? ==> r.error == ConfigurationError
  {
    var n :- ParseNormalization(normalization);
    Ok(GeneralizedDiceLoss(n, epsilon))
  }

  /** For probabilities and a positive ε the generalized Dice loss lies in [0, 1]. */
  lemma GeneralizedDiceLossInUnit(n: Normalization, act: Activations, input: Tensor, target: Tensor, eps: real)
    requires Batched(Normalize(n, act, input)) && Normalize(n, act, input).shape == target.shape
    requires Channels(target) > 0 && target.Valid() && eps > 0.0
    requires AllIn(Normalize(n, act, input).data, 0.0, 1.0) && AllIn(target.data, 0.0, 1.0)
    ensures GeneralizedDiceLoss(n, eps).Forward(act, input, target).Ok?
    ensures 0.0 <= GeneralizedDiceLoss(n, eps).Forward(act, input, target).value <= 1.0
  {
    var x := Normalize(n, act, input);
    FlattenSameShape(x, target);
    FlattenAllIn(x, 0.0, 1.0);
    FlattenAllIn(target, 0.0, 1.0);
    GeneralizedDiceOfRowsInUnit(Flatten(x), Flatten(target), eps);
  }

  // ---------------------------------------------------------------- SoftDiceLoss

  /** Per-sample soft Dice `(2·I_b + s) / (sums_b + s)`, defined when every
      divisor is nonzero. */
  function SoftScores(ps: seq<seq<real>>, ts: seq<seq<real>>, smooth: real): (r: seq<real>)
    requires SameLayout(ps, ts)
    requires forall b :: 0 <= b < |ps| ==> Sum(ps[b]) + Sum(ts[b]) + smooth != 0.0
    ensures |r| == |ps|
    ensures forall b :: 0 <= b < |ps| ==> r[b] == SoftScore(ps[b], ts[b], smooth)
  {
    seq(|ps|, b requires 0 <= b < |ps| => SoftScore(ps[b], ts[b], smooth))
  }

  /** One sample's soft Dice: the smoothed overlap over the smoothed sizes. */
  function SoftScore(p: seq<real>, t: seq<real>, smooth: real): real
    requires |p| == |t| && Sum(p) + Sum(t) + smooth != 0.0
  {
    (2.0 * Sum(Mul(p, t)) + smooth) / (Sum(p) + Sum(t) + smooth)
  }

  /** `SoftDiceLoss(smooth)`, smooth defaulting to 1e-6. */
  datatype SoftDiceLoss = SoftDiceLoss(smooth: real)
  {
    /** `B` samples viewed as rows `view(B, -1)`; `1 - dice` averaged over the batch.
        A tensor with no axis cannot be viewed that way, and `view(0, -1)` leaves
        the row length undetermined; samples without elements are empty rows.
        A target with a different number of elements does not fit. */
    function Forward(probs: Tensor, targets: Tensor): (r: Result<real>)
      ensures (!probs.Valid() || !targets.Valid() || |probs.shape| == 0 || probs.shape[0] == 0 ||
               |targets.data| != |probs.data|) ==> r == Err(ShapeMismatch)
      ensures r == Err(NonFinite) <==>
        probs.Valid() && targets.Valid() && |probs.shape| > 0 && probs.shape[0] > 0 &&
        |targets.data| == |probs.data| &&
        exists b :: 0 <= b < probs.shape[0] && Sum(Rows(probs)[b]) + Sum(Chunks(targets.data, probs.shape[0], Prod(probs.shape[1..]))[b]) + smooth == 0.0
    {
      if !probs.Valid() || !targets.Valid() || |probs.shape| == 0 || probs.shape[0] == 0
         || |targets.data| != |probs.data| then Err(ShapeMismatch)
      else
        var B, L := probs.shape[0], Prod(probs.shape[1..]);
        var ps, ts := Chunks(probs.data, B, L), Chunks(targets.data, B, L);
        if exists b :: 0 <= b < B && Sum(ps[b]) + Sum(ts[b]) + smooth == 0.0 then Err(NonFinite)
        else Ok(Mean(OneMinus(SoftScores(ps, ts, smooth))))
    }
  }

  /** The rows `view(B, -1)` of a valid tensor of rank at least 1. */
  function Rows(t: Tensor): (r: seq<seq<real>>)
    requires t.Valid() && |t.shape| > 0
    ensures |r| == t.shape[0] && Uniform(r, Prod(t.shape[1..]))
  {
    Chunks(t.data, t.shape[0], Prod(t.shape[1..]))
  }

  /** An all-zero prediction of an all-zero target costs 0 for any nonzero smoothing. */
  lemma SoftDiceZeroZero(loss: SoftDiceLoss, probs: Tensor, targets: Tensor)
    requires probs.Valid() && targets.Valid() && |probs.shape| > 0 && probs.shape[0] > 0
    requires |targets.data| == |probs.data| && loss.smooth != 0.0
    requires AllEqual(probs.data, 0.0) && AllEqual(targets.data, 0.0)
    ensures loss.Forward(probs, targets) == Ok(0.0)
  {
    var B, L := probs.shape[0], Prod(probs.shape[1..]);
    var ps, ts := Rows(probs), Chunks(targets.data, B, L);
    ChunksAllIn(probs.data, B, L, 0.0, 0.0);
    ChunksAllIn(targets.data, B, L, 0.0, 0.0);
    forall b | 0 <= b < B
      ensures Sum(ps[b]) == 0.0 && Sum(ts[b]) == 0.0 && Sum(Mul(ps[b], ts[b])) == 0.0
    {
      SumConst(ps[b], 0.0);
      SumConst(ts[b], 0.0);
      SumMulZeroLeft(ps[b], ts[b]);
    }
    SoftLossOfPerfect(ps, ts, loss.smooth);
  }

  /** Two samples without elements are two empty rows, each of soft Dice s / s. */
  lemma SoftDiceEmptySamples(loss: SoftDiceLoss)
    requires loss.smooth != 0.0
    ensures loss.Forward(Tensor([2, 0], []), Tensor([2, 0], [])) == Ok(0.0)
  {
    var e := Tensor([2, 0], []);
    assert Prod(e.shape[1..]) == 0 by { assert e.shape[1..] == [0]; }
    assert e.Valid();
    SoftDiceZeroZero(loss, e, e);
  }

  /** A prediction equal to a binary target costs 0 for a positive smoothing. */
  lemma SoftDicePerfectMatch(loss: SoftDiceLoss, t: Tensor)
    requires t.Valid() && |t.shape| > 0 && t.shape[0] > 0 && loss.smooth > 0.0
    requires forall i :: 0 <= i < |t.data| ==> t.data[i] == 0.0 || t.data[i] == 1.0
    ensures loss.Forward(t, t) == Ok(0.0)
  {
    var ts := Rows(t);
    forall b | 0 <= b < |ts|
      ensures Sum(Mul(ts[b], ts[b])) == Sum(ts[b]) && 0.0 <= Sum(ts[b])
    {
      forall j | 0 <= j < |ts[b]| ensures ts[b][j] == 0.0 || ts[b][j] == 1.0 {
        ChunksAt(t.data, |ts|, Prod(t.shape[1..]), b, j);
      }
      SumBinarySquare(ts[b]);
    }
    SoftLossOfPerfect(ts, ts, loss.smooth);
  }

  /** When every sample's soft Dice is (2I + s) / (2I + s), the loss is 0. */
  lemma SoftLossOfPerfect(ps: seq<seq<real>>, ts: seq<seq<real>>, smooth: real)
    requires SameLayout(ps, ts) && |ps| > 0
    requires forall b :: 0 <= b < |ps| ==>
      Sum(ps[b]) + Sum(ts[b]) == 2.0 * Sum(Mul(ps[b], ts[b])) && Sum(ps[b]) + Sum(ts[b]) + smooth != 0.0
    ensures AllEqual(OneMinus(SoftScores(ps, ts, smooth)), 0.0)
    ensures Mean(OneMinus(SoftScores(ps, ts, smooth))) == 0.0
  {
    var s := SoftScores(ps, ts, smooth);
    forall b | 0 <= b < |ps| ensures s[b] == 1.0 {
      PerfectScore(ps[b], ts[b], smooth);
    }
    MeanConst(OneMinus(s), 0.0);
  }

  lemma PerfectScore(p: seq<real>, t: seq<real>, smooth: real)
    requires |p| == |t| && Sum(p) + Sum(t) == 2.0 * Sum(Mul(p, t)) && Sum(p) + Sum(t) + smooth != 0.0
    ensures SoftScore(p, t, smooth) == 1.0
  {
    UnitRatio(2.0 * Sum(Mul(p, t)), Sum(p) + Sum(t), smooth, SoftScore(p, t, smooth));
  }

  /** (i + s) / (d + s) is 1 when i = d. */
  lemma UnitRatio(i: real, d: real, s: real, q: real)
    requires d + s != 0.0 && d == i && q == (i + s) / (d + s)
    ensures q == 1.0
  {
    var m := d + s;
    assert q == m / m;
    SelfRatio(m, q);
  }

  lemma SelfRatio(m: real, q: real)
    requires m != 0.0 && q == m / m
    ensures q == 1.0
  {
  }

  /** For probabilities and a positive smoothing, the soft Dice loss lies in [0, 1). */
  lemma SoftDiceInUnit(loss: SoftDiceLoss, probs: Tensor, targets: Tensor)
    requires probs.Valid() && targets.Valid() && |probs.shape| > 0 && probs.shape[0] > 0
    requires |targets.data| == |probs.data| && loss.smooth > 0.0
    requires AllIn(probs.data, 0.0, 1.0) && AllIn(targets.data, 0.0, 1.0)
    ensures loss.Forward(probs, targets).Ok?
    ensures 0.0 <= loss.Forward(probs, targets).value < 1.0
  {
    var B, L := probs.shape[0], Prod(probs.shape[1..]);
    var ps, ts := Rows(probs), Chunks(targets.data, B, L);
    ChunksAllIn(probs.data, B, L, 0.0, 1.0);
    ChunksAllIn(targets.data, B, L, 0.0, 1.0);
    SoftLossInUnit(ps, ts, loss.smooth);
  }

  lemma SoftLossInUnit(ps: seq<seq<real>>, ts: seq<seq<real>>, smooth: real)
    requires SameLayout(ps, ts) && |ps| > 0 && smooth > 0.0
    requires forall b :: 0 <= b < |ps| ==> AllIn(ps[b], 0.0, 1.0) && AllIn(ts[b], 0.0, 1.0)
    ensures forall b :: 0 <= b < |ps| ==> Sum(ps[b]) + Sum(ts[b]) + smooth > 0.0
    ensures 0.0 <= Mean(OneMinus(SoftScores(ps, ts, smooth))) < 1.0
  {
    forall b | 0 <= b < |ps| ensures Sum(ps[b]) + Sum(ts[b]) + smooth > 0.0 {
      ProbabilitySizes(ps[b], ts[b]);
    }
    var s := SoftScores(ps, ts, smooth);
    var l := OneMinus(s);
    forall b | 0 <= b < |ps| ensures 0.0 <= l[b] < 1.0 {
      ScoreInUnit(ps[b], ts[b], smooth);
    }
    StrictMean(l);
  }

  /** For probabilities, twice the overlap lies between 0 and the summed sizes. */
  lemma ProbabilitySizes(p: seq<real>, t: seq<real>)
    requires |p| == |t| && AllIn(p, 0.0, 1.0) && AllIn(t, 0.0, 1.0)
    ensures 0.0 <= 2.0 * Sum(Mul(p, t)) <= Sum(p) + Sum(t)
  {
    SumProductBelowSum(p, t);
    SumProductNonneg(p, t);
    SumAdd(p, t);
  }

  lemma ScoreInUnit(p: seq<real>, t: seq<real>, smooth: real)
    requires |p| == |t| && AllIn(p, 0.0, 1.0) && AllIn(t, 0.0, 1.0) && smooth > 0.0
    ensures Sum(p) + Sum(t) + smooth > 0.0
    ensures 0.0 < SoftScore(p, t, smooth) <= 1.0
  {
    ProbabilitySizes(p, t);
    SmoothedRatio(2.0 * Sum(Mul(p, t)), Sum(p) + Sum(t), smooth, SoftScore(p, t, smooth));
  }

  /** 0 ≤ i ≤ d and s > 0 put (i + s) / (d + s) in (0, 1]. */
  lemma SmoothedRatio(i: real, d: real, s: real, q: real)
    requires 0.0 <= i <= d && s > 0.0 && q == (i + s) / (d + s)
    ensures 0.0 < q <= 1.0
  {
    PositiveFactor(q, d + s);
    FactorAtMostOne(q, d + s, i + s);
  }

  lemma PositiveFactor(q: real, m: real)
    requires m > 0.0 && q * m > 0.0
    ensures q > 0.0
  {
  }

  lemma FactorAtMostOne(q: real, m: real, p: real)
    requires m > 0.0 && q * m == p && p <= m
    ensures q <= 1.0
  {
  }

  /** The mean of values in [0, 1) lies in [0, 1). */
  lemma {:induction false} StrictMean(l: seq<real>)
    requires |l| > 0 && forall b :: 0 <= b < |l| ==> 0.0 <= l[b] < 1.0
    ensures 0.0 <= Mean(l) < 1.0
  {
    StrictSum(l);
  }

  lemma {:induction false} StrictSum(l: seq<real>)
    requires |l| > 0 && forall b :: 0 <= b < |l| ==> 0.0 <= l[b] < 1.0
    ensures 0.0 <= Sum(l) < |l| as real
  {
    if |l| > 1 {
      StrictSum(l[1..]);
    }
  }

  // ---------------------------------------------------------------- BCEDiceLoss

  /** `BCEDiceLoss(alpha, beta)`: its Dice part is a default `DiceLoss()`, with
      sigmoid normalization and no weight. */
  datatype BceDiceLoss = BceDiceLoss(alpha: real, beta: real)
  {
    /** `alpha * bce + beta * dice`; `bce` is the value of `nn.BCEWithLogitsLoss`. */
    function Forward(bce: real, act: Activations, input: Tensor, target: Tensor): (r: Result<real>)
      ensures r.Ok? <==> DiceLoss(None, Sigmoid).Forward(act, input, target).Ok?
      ensures r.Ok? ==> r.value == alpha * bce + beta * DiceLoss(None, Sigmoid).Forward(act, input, target).value
    {
      var dice :- DiceLoss(None, Sigmoid).Forward(act, input, target);
      Ok(alpha * bce + beta * dice)
    }
  }
}
