/** The weighting rules of CNN-Baseline/losses.py: the class weights of
    `WeightedCrossEntropyLoss` and the in-place reweighting of
    `WeightedSmoothL1Loss`. The cross entropy and the elementwise smooth-L1
    loss themselves are torch built-ins; the caller supplies them. */
module WeightedLosses {
  import opened Results
  import opened RealSeq
  import opened Tensors
  import opened Layout
  import opened DiceLosses

  // ---------------------------------------------------------------- WeightedCrossEntropyLoss

  /** The probability mass of every channel: `flatten(probs).sum(-1)`. */
  function ChannelMass(probs: Tensor): (r: seq<real>)
    requires Batched(probs)
    ensures |r| == Channels(probs)
    ensures forall c :: 0 <= c < |r| ==> r[c] == Sum(Flatten(probs)[c])
  {
    BlockSums(Flatten(probs))
  }

  /** `_class_weights` after the softmax: channel c weighs `Σ(1 - p) / Σ p`, the
      number of positions it does not cover over the mass it does. A channel of
      zero mass makes torch divide by zero; a tensor without channels cannot be
      flattened. */
  function ClassWeights(probs: Tensor): (r: Result<seq<real>>)
    ensures r.Err? <==> !Flattenable(probs) || exists c :: 0 <= c < |ChannelMass(probs)| && ChannelMass(probs)[c] == 0.0
    ensures r.Err? && !Flattenable(probs) ==> r.error == ShapeMismatch
    ensures r.Err? && Flattenable(probs) ==> r.error == NonFinite
    ensures r.Ok? ==> |r.value| == Channels(probs)
    ensures r.Ok? ==> forall c :: 0 <= c < |r.value| ==>
      Sum(Flatten(probs)[c]) != 0.0 &&
      r.value[c] == ((Batch(probs) * SpatialSize(probs)) as real) / Sum(Flatten(probs)[c]) - 1.0
  {
    if !Flattenable(probs) then Err(ShapeMismatch)
    else
      var mass := ChannelMass(probs);
      if exists c :: 0 <= c < |mass| && mass[c] == 0.0 then Err(NonFinite)
      else
        FlattenLayout(probs);
        Ok(RowWeights(Flatten(probs), Batch(probs) * SpatialSize(probs)))
  }

  /** `(1 - rows).sum(-1) / rows.sum(-1)` for rows of `len` entries and nonzero sums. */
  function RowWeights(rows: seq<seq<real>>, len: nat): (r: seq<real>)
    requires Uniform(rows, len) && forall c :: 0 <= c < |rows| ==> Sum(rows[c]) != 0.0
    ensures |r| == |rows|
    ensures forall c :: 0 <= c < |rows| ==> r[c] == (len as real) / Sum(rows[c]) - 1.0
  {
    var r := seq(|rows|, c requires 0 <= c < |rows| => Sum(OneMinus(rows[c])) / Sum(rows[c]));
    assert forall c :: 0 <= c < |rows| ==> r[c] == (len as real) / Sum(rows[c]) - 1.0 by {
      forall c | 0 <= c < |rows| ensures r[c] == (len as real) / Sum(rows[c]) - 1.0 {
        SumOneMinus(rows[c]);
        UncoveredRatio(len as real, Sum(rows[c]));
      }
    }
    r
  }

  lemma UncoveredRatio(l: real, p: real)
    requires p != 0.0
    ensures (l - p) / p == l / p - 1.0
  {
    assert p / p == 1.0;
    assert (l - p) / p == l / p - p / p;
  }

  /** A batch without channels is rejected by every caller of `flatten`. */
  lemma NoChannelsRejected(eps: real, weight: Option<seq<real>>)
    ensures PerChannelDice(Tensor([1, 0, 4], []), Tensor([1, 0, 4], []), eps, weight) == Err(ShapeMismatch)
    ensures GeneralizedDice(Tensor([1, 0, 4], []), Tensor([1, 0, 4], []), eps) == Err(ShapeMismatch)
    ensures ClassWeights(Tensor([1, 0, 4], [])) == Err(ShapeMismatch)
  {
    var t := Tensor([1, 0, 4], []);
    assert Channels(t) == 0;
  }

  /** For probabilities every class weight is non-negative: no channel can hold
      more mass than there are positions. */
  lemma ClassWeightsNonneg(probs: Tensor)
    requires AllIn(probs.data, 0.0, 1.0) && ClassWeights(probs).Ok?
    ensures forall c :: 0 <= c < |ClassWeights(probs).value| ==> ClassWeights(probs).value[c] >= 0.0
  {
    var w := ClassWeights(probs).value;
    var l := (Batch(probs) * SpatialSize(probs)) as real;
    FlattenLayout(probs);
    FlattenAllIn(probs, 0.0, 1.0);
    forall c | 0 <= c < |w| ensures w[c] >= 0.0 {
      var row := Flatten(probs)[c];
      SumBounds(row, 0.0, 1.0);
      RatioAtLeastOne(l, Sum(row));
    }
  }

  lemma RatioAtLeastOne(l: real, p: real)
    requires 0.0 < p <= l
    ensures l / p - 1.0 >= 0.0
  {
    assert l / p >= p / p;
  }

  /** A channel with more probability mass gets a smaller weight: the weights
      favour the rarer classes. */
  lemma ClassWeightsAntitone(probs: Tensor, a: nat, b: nat)
    requires ClassWeights(probs).Ok? && a < Channels(probs) && b < Channels(probs)
    requires 0.0 < Sum(Flatten(probs)[a]) <= Sum(Flatten(probs)[b])
    ensures ClassWeights(probs).value[a] >= ClassWeights(probs).value[b]
  {
    var l := (Batch(probs) * SpatialSize(probs)) as real;
    ReciprocalAntitone(l, Sum(Flatten(probs)[a]), Sum(Flatten(probs)[b]));
  }

  lemma ReciprocalAntitone(l: real, p: real, q: real)
    requires l >= 0.0 && 0.0 < p <= q
    ensures l / p >= l / q
  {
    assert l / p - l / q == l * (q - p) / (p * q);
    assert p * q > 0.0;
  }

  /** `WeightedCrossEntropyLoss(ignore_index=-1)`. */
  datatype WeightedCrossEntropyLoss = WeightedCrossEntropyLoss(ignoreIndex: int := -1)
  {
    /** `forward`: the class weights of the softmaxed input, then torch's cross
        entropy (supplied by the caller) with those weights and the ignore index. */
    function Forward(crossEntropy: (Tensor, Tensor, seq<real>, int) -> real, act: Activations,
                     input: Tensor, target: Tensor): (r: Result<real>)
      ensures ClassWeights(act.softmax(input)).Err? ==> r == Err(ClassWeights(act.softmax(input)).error)
      ensures ClassWeights(act.softmax(input)).Ok? ==>
        r == Ok(crossEntropy(input, target, ClassWeights(act.softmax(input)).value, ignoreIndex))
    {
      var w :- ClassWeights(act.softmax(input));
      Ok(crossEntropy(input, target, w, ignoreIndex))
    }
  }

  // ---------------------------------------------------------------- WeightedSmoothL1Loss

  datatype WeightedSmoothL1Loss = WeightedSmoothL1Loss(threshold: real, weight: real, applyBelowThreshold: bool := true)
  {
    /** The mask of `forward` at one target value. */
    predicate Selected(t: real)
    {
      if applyBelowThreshold then t < threshold else t >= threshold
    }

    /** One entry of the loss after `l1[mask] = l1[mask] * weight`. */
    function Entry(x: real, t: real): real
    {
      if Selected(t) then x * weight else x
    }

    /** One entry of the part of the loss the mask selects, zero elsewhere. */
    function Part(x: real, t: real): real
    {
      if Selected(t) then x else 0.0
    }

    /** Reweighting adds `weight - 1` times the selected part. */
    lemma EntrySplit(x: real, t: real)
      ensures Entry(x, t) == x + (weight - 1.0) * Part(x, t)
    {
      if Selected(t) {
        assert x * weight == x + (weight - 1.0) * x;
      }
    }

    function Reweighted(l1: seq<real>, target: seq<real>): (r: seq<real>)
      requires |l1| == |target|
      ensures |r| == |l1|
      ensures forall i :: 0 <= i < |l1| ==> r[i] == Entry(l1[i], target[i])
    {
      seq(|l1|, i requires 0 <= i < |l1| => Entry(l1[i], target[i]))
    }

    function SelectedPart(l1: seq<real>, target: seq<real>): (r: seq<real>)
      requires |l1| == |target|
      ensures |r| == |l1|
      ensures forall i :: 0 <= i < |l1| ==> r[i] == Part(l1[i], target[i])
    {
      seq(|l1|, i requires 0 <= i < |l1| => Part(l1[i], target[i]))
    }

    /** `forward` given the elementwise loss `l1`: reweights the selected
        positions in place and returns the mean. A mask of another length is
        an indexing error; the mean of no element is NaN. */
    method Forward(l1: array<real>, target: seq<real>) returns (r: Result<real>)
      modifies l1
      ensures l1.Length != |target| ==> r == Err(ShapeMismatch) && l1[..] == old(l1[..])
      ensures l1.Length == |target| ==> l1[..] == Reweighted(old(l1[..]), target)
      ensures l1.Length == |target| && |target| == 0 ==> r == Err(NonFinite)
      ensures l1.Length == |target| && |target| > 0 ==> r == Ok(Mean(l1[..]))
    {
      if l1.Length != |target| {
        return Err(ShapeMismatch);
      }
      ghost var was := l1[..];
      ghost var goal := Reweighted(was, target);
      var i, s := 0, 0.0;
      while i < l1.Length
        invariant 0 <= i <= l1.Length
        invariant forall k :: 0 <= k < i ==> l1[k] == goal[k]
        invariant forall k :: i <= k < l1.Length ==> l1[k] == was[k]
        invariant s == Sum(goal[..i])
      {
        if Selected(target[i]) {
          l1[i] := l1[i] * weight;
        }
        SumPrefixStep(goal, i);
        s := s + l1[i];
        i := i + 1;
      }
      assert l1[..] == goal;
      assert goal[..i] == goal;
      if i == 0 {
        r := Err(NonFinite);
      } else {
        r := Ok(s / (i as real));
      }
    }
  }

  /** Reweighting adds `(weight - 1)` times the selected part to the total loss. */
  lemma {:induction false} ReweightedSum(loss: WeightedSmoothL1Loss, l1: seq<real>, target: seq<real>)
    requires |l1| == |target|
    ensures Sum(loss.Reweighted(l1, target)) == Sum(l1) + (loss.weight - 1.0) * Sum(loss.SelectedPart(l1, target))
  {
    if |l1| > 0 {
      ReweightedSum(loss, l1[1..], target[1..]);
      var r, p := loss.Reweighted(l1, target), loss.SelectedPart(l1, target);
      assert r[1..] == loss.Reweighted(l1[1..], target[1..]) by {
        forall i | 0 <= i < |l1| - 1 ensures r[1..][i] == loss.Reweighted(l1[1..], target[1..])[i] {
          assert target[1..][i] == target[i + 1];
        }
      }
      assert p[1..] == loss.SelectedPart(l1[1..], target[1..]) by {
        forall i | 0 <= i < |l1| - 1 ensures p[1..][i] == loss.SelectedPart(l1[1..], target[1..])[i] {
          assert target[1..][i] == target[i + 1];
        }
      }
      var y := Sum(p[1..]);
      var k := loss.weight - 1.0;
      loss.EntrySplit(l1[0], target[0]);
      assert k * (p[0] + y) == k * p[0] + k * y;
    }
  }

  /** An initial weight of 1 leaves the loss as it is. */
  lemma ReweightedByOne(loss: WeightedSmoothL1Loss, l1: seq<real>, target: seq<real>)
    requires |l1| == |target| && loss.weight == 1.0
    ensures loss.Reweighted(l1, target) == l1
  {
    assert forall i :: 0 <= i < |l1| ==> loss.Reweighted(l1, target)[i] == l1[i];
  }

  /** A weight of at least 1 on a non-negative loss never lowers the total. */
  lemma {:induction false} ReweightedNotSmaller(loss: WeightedSmoothL1Loss, l1: seq<real>, target: seq<real>)
    requires |l1| == |target| && loss.weight >= 1.0
    requires forall i :: 0 <= i < |l1| ==> 0.0 <= l1[i]
    ensures Sum(loss.Reweighted(l1, target)) >= Sum(l1)
  {
    ReweightedSum(loss, l1, target);
    var part := loss.SelectedPart(l1, target);
    forall i | 0 <= i < |part| ensures part[i] >= 0.0 {
      assert l1[i] >= 0.0;
    }
    SumNonneg(part);
    NonnegProduct(loss.weight - 1.0, Sum(part));
  }

  lemma NonnegProduct(a: real, b: real)
    requires a >= 0.0 && b >= 0.0
    ensures a * b >= 0.0
  {
  }

  /** The two settings of `apply_below_threshold` select complementary
      positions: reweighting with one and then the other scales every entry. */
  lemma ReweightedModesComplement(loss: WeightedSmoothL1Loss, l1: seq<real>, target: seq<real>)
    requires |l1| == |target|
    ensures forall t :: loss.Selected(t) != loss.(applyBelowThreshold := !loss.applyBelowThreshold).Selected(t)
    ensures loss.(applyBelowThreshold := !loss.applyBelowThreshold).Reweighted(loss.Reweighted(l1, target), target)
            == Scale(l1, loss.weight)
  {
    var other := loss.(applyBelowThreshold := !loss.applyBelowThreshold);
    var both := other.Reweighted(loss.Reweighted(l1, target), target);
    forall i | 0 <= i < |l1| ensures both[i] == Scale(l1, loss.weight)[i] {
      assert loss.Selected(target[i]) != other.Selected(target[i]);
    }
  }
}
