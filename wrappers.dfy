/** The two loss wrappers of CNN-Baseline/losses.py: `_MaskingLossWrapper`,
    which hides the positions whose target equals `ignore_index`, and
    `SkipLastTargetChannelWrapper`, which drops the last target channel.
    The wrapped loss is a value of any type `L`; evaluating it is a
    function the caller passes in. */
module LossWrappers {
  import opened Results
  import opened RealSeq
  import opened Tensors
  import opened Layout

  // ---------------------------------------------------------------- _MaskingLossWrapper

  datatype MaskingLossWrapper<L> = MaskingLossWrapper(loss: L, ignoreIndex: int)
  {
    /** `input * mask` and `target * mask` with `mask = target != ignore_index`;
        the two tensors must have one shape. */
    function MaskedArguments(input: Tensor, target: Tensor): (r: Result<(Tensor, Tensor)>)
      ensures r.Err? <==> input.shape != target.shape || !input.Valid() || !target.Valid()
      ensures r.Err? ==> r.error == ShapeMismatch
      ensures r.Ok? ==>
        var (x, t) := r.value;
        x.shape == input.shape && t.shape == target.shape &&
        |x.data| == |input.data| == |t.data| == |target.data| &&
        forall i :: 0 <= i < |target.data| ==>
          if target.data[i] == ignoreIndex as real
          then x.data[i] == 0.0 && t.data[i] == 0.0
          else x.data[i] == input.data[i] && t.data[i] == target.data[i]
    {
      if input.shape != target.shape || !input.Valid() || !target.Valid() then Err(ShapeMismatch)
      else
        var mask := NotEqualMask(target.data, ignoreIndex as real);
        Ok((Tensor(input.shape, Mul(input.data, mask)), Tensor(target.shape, Mul(target.data, mask))))
    }

    /** `forward`: the wrapped loss sees the masked input and target. */
    function Forward(eval: (Tensor, Tensor) -> Result<real>, input: Tensor, target: Tensor): (r: Result<real>)
      ensures MaskedArguments(input, target).Err? ==> r == Err(ShapeMismatch)
      ensures MaskedArguments(input, target).Ok? ==>
        r == eval(MaskedArguments(input, target).value.0, MaskedArguments(input, target).value.1)
    {
      var (x, t) :- MaskedArguments(input, target);
      eval(x, t)
    }
  }

  /** `target.ne(ignore_index)` as 0/1 factors. */
  function NotEqualMask(target: seq<real>, ignore: real): (m: seq<real>)
    ensures |m| == |target|
    ensures forall i :: 0 <= i < |target| ==> m[i] == (if target[i] == ignore then 0.0 else 1.0)
  {
    seq(|target|, i requires 0 <= i < |target| => if target[i] == ignore then 0.0 else 1.0)
  }

  /** The constructor's `assert ignore_index is not None`. */
  function NewMaskingLossWrapper<L>(loss: L, ignoreIndex: Option<int>): (r: Result<MaskingLossWrapper<L>>)
    ensures r.Err? <==> ignoreIndex.None?
    ensures r.Err? ==> r.error == ConfigurationError
    ensures r.Ok? ==> r.value == MaskingLossWrapper(loss, ignoreIndex.value)
  {
    match ignoreIndex
    case None => Err(ConfigurationError)
    case Some(i) => Ok(MaskingLossWrapper(loss, i))
  }

  /** Two inputs that differ only where the target is ignored give the wrapped
      loss identical arguments, so the wrapper's result cannot depend on them. */
  lemma MaskingHidesIgnored<L>(w: MaskingLossWrapper<L>, eval: (Tensor, Tensor) -> Result<real>,
                               input1: Tensor, input2: Tensor, target: Tensor)
    requires input1.shape == input2.shape
    requires |input1.data| == |input2.data| == |target.data|
    requires forall i :: 0 <= i < |target.data| && target.data[i] != w.ignoreIndex as real ==>
               input1.data[i] == input2.data[i]
    ensures w.MaskedArguments(input1, target) == w.MaskedArguments(input2, target)
    ensures w.Forward(eval, input1, target) == w.Forward(eval, input2, target)
  {
    var r1, r2 := w.MaskedArguments(input1, target), w.MaskedArguments(input2, target);
    if r1.Ok? {
      assert r1.value.0.data == r2.value.0.data;
    }
  }

  /** Masking is idempotent: masking the masked arguments changes nothing more. */
  lemma MaskingIdempotent<L>(w: MaskingLossWrapper<L>, input: Tensor, target: Tensor)
    requires w.MaskedArguments(input, target).Ok?
    ensures w.MaskedArguments(w.MaskedArguments(input, target).value.0,
                              w.MaskedArguments(input, target).value.1).Ok?
    ensures w.MaskedArguments(w.MaskedArguments(input, target).value.0,
                              w.MaskedArguments(input, target).value.1).value.0
            == w.MaskedArguments(input, target).value.0
  {
    var (x, t) := w.MaskedArguments(input, target).value;
    var (x2, t2) := w.MaskedArguments(x, t).value;
    forall i | 0 <= i < |x.data| ensures x2.data[i] == x.data[i] {
      if target.data[i] == w.ignoreIndex as real {
        assert x.data[i] == 0.0;
      }
    }
  }

  // ---------------------------------------------------------------- SkipLastTargetChannelWrapper

  /** The first C - 1 channel blocks of every sample, each sample's blocks concatenated. */
  function KeptBlocks(t: Tensor): (r: seq<seq<real>>)
    requires Batched(t) && Channels(t) > 0
    ensures |r| == Batch(t) && Uniform(r, (Channels(t) - 1) * SpatialSize(t))
    ensures forall n :: 0 <= n < Batch(t) ==> r[n] == Flat(Samples(t)[n][..Channels(t) - 1])
  {
    var smp := Samples(t);
    var r := seq(Batch(t), n requires 0 <= n < Batch(t) => Flat(smp[n][..Channels(t) - 1]));
    forall n | 0 <= n < Batch(t) ensures |r[n]| == (Channels(t) - 1) * SpatialSize(t) {
      FlatLength(smp[n][..Channels(t) - 1], SpatialSize(t));
    }
    r
  }

  /** `target[:, :-1, ...]`: every sample keeps its first C - 1 channel blocks. */
  function DropLastChannel(t: Tensor): (r: Tensor)
    requires Batched(t) && Channels(t) > 0
    ensures r.shape == [Batch(t), Channels(t) - 1] + t.shape[2..]
  {
    Tensor([Batch(t), Channels(t) - 1] + t.shape[2..], Flat(KeptBlocks(t)))
  }

  lemma DropLastChannelValid(t: Tensor)
    requires Batched(t) && Channels(t) > 0
    ensures Batched(DropLastChannel(t))
    ensures Batch(DropLastChannel(t)) == Batch(t) && Channels(DropLastChannel(t)) == Channels(t) - 1
    ensures SpatialSize(DropLastChannel(t)) == SpatialSize(t)
    ensures |DropLastChannel(t).data| == Batch(t) * ((Channels(t) - 1) * SpatialSize(t))
    ensures Chunks(DropLastChannel(t).data, Batch(t), (Channels(t) - 1) * SpatialSize(t)) == KeptBlocks(t)
  {
    var r := DropLastChannel(t);
    assert r.shape[2..] == t.shape[2..];
    ProdBatched(r.shape);
    ChunksFlat(KeptBlocks(t), (Channels(t) - 1) * SpatialSize(t));
  }

  /** The blocks kept are exactly the first C - 1 channels of every sample, in order. */
  lemma DropLastChannelLayout(t: Tensor)
    requires Batched(t) && Channels(t) > 0
    ensures Batched(DropLastChannel(t))
    ensures forall n :: 0 <= n < Batch(t) ==> Samples(DropLastChannel(t))[n] == Samples(t)[n][..Channels(t) - 1]
  {
    DropLastChannelValid(t);
    var kept := KeptBlocks(t);
    forall n | 0 <= n < Batch(t) ensures Samples(DropLastChannel(t))[n] == Samples(t)[n][..Channels(t) - 1] {
      ChunksFlat(Samples(t)[n][..Channels(t) - 1], SpatialSize(t));
    }
  }

  /** `torch.squeeze(t, dim=1)`: removes axis 1 only when it has size 1. */
  function SqueezeChannel(t: Tensor): (r: Tensor)
    ensures r.data == t.data && Prod(r.shape) == Prod(t.shape)
    ensures |t.shape| >= 2 && t.shape[1] == 1 ==> r.shape == [t.shape[0]] + t.shape[2..]
    ensures !(|t.shape| >= 2 && t.shape[1] == 1) ==> r == t
  {
    if |t.shape| >= 2 && t.shape[1] == 1 then
      assert t.shape[1..][1..] == t.shape[2..];
      Tensor([t.shape[0]] + t.shape[2..], t.data)
    else t
  }

  datatype SkipLastTargetChannelWrapper<L> = SkipLastTargetChannelWrapper(loss: L, squeezeChannel: bool)
  {
    /** The target the wrapped loss receives. */
    function SkippedTarget(target: Tensor): (r: Tensor)
      requires Batched(target) && Channels(target) > 1
      ensures squeezeChannel && Channels(target) == 2 ==>
        r.shape == [Batch(target)] + target.shape[2..] && r.data == DropLastChannel(target).data
      ensures !(squeezeChannel && Channels(target) == 2) ==> r == DropLastChannel(target)
    {
      var dropped := DropLastChannel(target);
      if squeezeChannel then SqueezeChannel(dropped) else dropped
    }

    /** `forward(input, target, weight)`: a target without a channel axis or with
        a single channel is rejected; otherwise the wrapped loss receives the
        input and the weight unchanged and the shortened target. */
    function Forward(eval: (Tensor, Tensor, Option<Tensor>) -> Result<real>,
                     input: Tensor, target: Tensor, weight: Option<Tensor>): (r: Result<real>)
      ensures !Batched(target) || Channels(target) <= 1 ==> r == Err(ShapeMismatch)
      ensures Batched(target) && Channels(target) > 1 ==> r == eval(input, SkippedTarget(target), weight)
    {
      if !Batched(target) || Channels(target) <= 1 then Err(ShapeMismatch)
      else eval(input, SkippedTarget(target), weight)
    }
  }
}
