/** `UnifiedSegmentationLoss` of CNN-Baseline/losses.py: a weighted sum of a
    weighted cross entropy, a class-weighted Dice loss and an edge term, the
    L1 distance between the Laplacian edge maps of the softmaxed prediction
    and of the one-hot target. The edge maps come from a 3×3×3 convolution
    with padding 1, which is modelled here for the fixed Laplacian kernel. */
module UnifiedLoss {
  import opened Results
  import opened RealSeq
  import opened Tensors
  import opened Layout
  import opened DiceLosses
  import opened WeightedLosses

  // ---------------------------------------------------------------- constants

  /** `self.num_class`. */
  const NUM_CLASS: nat := 3

  /** The class weights the Dice part is built with. */
  const CLASS_WEIGHTS: seq<real> := [0.001, 10.0, 100.0]

  /** The 27 taps of the 3×3×3 Laplacian, in row-major (depth, height, width)
      order: -1 everywhere but the centre tap 13, which weighs 26. */
  const LAPLACIAN: seq<real> := Const(13, -1.0) + [26.0] + Const(13, -1.0)

  /** The kernel of shape (1, 3, 3, 3, 3): the Laplacian repeated for each of the
      three input channels, one row of 27 taps per channel. */
  function KernelRows(): (r: seq<seq<real>>)
    ensures |r| == NUM_CLASS && forall c :: 0 <= c < |r| ==> r[c] == LAPLACIAN
  {
    seq(NUM_CLASS, _ => LAPLACIAN)
  }

  function KernelTensor(): (k: Tensor)
  {
    Tensor([1, NUM_CLASS, 3, 3, 3], Flat(KernelRows()))
  }

  /** The centre tap (1, 1, 1) weighs 26, the other 26 taps -1, so the taps sum
      to 0 and a constant volume has no edges. */
  lemma LaplacianTaps()
    ensures |LAPLACIAN| == 27 && LAPLACIAN[13] == 26.0
    ensures forall o :: 0 <= o < 27 && o != 13 ==> LAPLACIAN[o] == -1.0
    ensures Sum(LAPLACIAN) == 0.0
  {
    var side := Const(13, -1.0);
    SumConst(side, -1.0);
    SumAppend(side + [26.0], side);
    SumAppend(side, [26.0]);
    MeanSingleton(26.0);
  }

  /** The kernel tensor is well formed with 81 entries, every channel's taps
      being the Laplacian. */
  lemma KernelLayout()
    ensures KernelTensor().Valid() && |KernelTensor().data| == 81
    ensures Chunks(KernelTensor().data, NUM_CLASS, 27) == KernelRows()
  {
    assert |LAPLACIAN| == 27;
    ChunksFlat(KernelRows(), 27);
    assert [3][1..] == [] && [3, 3][1..] == [3] && [3, 3, 3][1..] == [3, 3];
    assert [3, 3, 3, 3][1..] == [3, 3, 3] && [1, NUM_CLASS, 3, 3, 3][1..] == [3, 3, 3, 3];
    assert Prod([3, 3, 3]) == 27;
    assert Prod([1, NUM_CLASS, 3, 3, 3]) == 81;
  }

  // ---------------------------------------------------------------- the 3×3×3 convolution

  /** Number of positions of a volume with dimensions (X, Y, Z). */
  function Voxels(dims: seq<nat>): nat
    requires |dims| == 3
  {
    dims[0] * (dims[1] * dims[2])
  }

  lemma IndexBound(x: nat, y: nat, z: nat, sx: nat, sy: nat, sz: nat)
    requires x < sx && y < sy && z < sz
    ensures x * (sy * sz) + y * sz + z < sx * (sy * sz)
  {
    assert y * sz + z < (y + 1) * sz <= sy * sz;
    assert x * (sy * sz) + sy * sz == (x + 1) * (sy * sz) <= sx * (sy * sz);
  }

  /** The flat position read under tap `o` (offsets -1, 0, +1 on each axis)
      at position `p`, or None where the tap falls in the zero padding. */
  function Neighbour(dims: seq<nat>, p: nat, o: nat): (r: Option<nat>)
    requires |dims| == 3
    ensures r.Some? ==> r.value < Voxels(dims)
  {
    var sx, sy, sz := dims[0], dims[1], dims[2];
    if sy * sz == 0 then None
    else
      var x, y, z := p / (sy * sz) + o / 9 - 1, (p / sz) % sy + (o / 3) % 3 - 1, p % sz + o % 3 - 1;
      if 0 <= x < sx && 0 <= y < sy && 0 <= z < sz then
        IndexBound(x, y, z, sx, sy, sz);
        Some(x * (sy * sz) + y * sz + z)
      else None
  }

  /** The positions the 27 taps read at `p`. */
  function Neighbours(dims: seq<nat>, p: nat): (r: seq<Option<nat>>)
    requires |dims| == 3
    ensures |r| == 27 && Within(r, Voxels(dims))
    ensures forall o :: 0 <= o < 27 ==> r[o] == Neighbour(dims, p, o)
  {
    seq(27, o requires 0 <= o < 27 => Neighbour(dims, p, o))
  }

  /** Every position read lies inside a block of `size` entries. */
  ghost predicate Within(nbrs: seq<Option<nat>>, size: nat)
  {
    forall o :: 0 <= o < |nbrs| && nbrs[o].Some? ==> nbrs[o].value < size
  }

  /** What one channel block shows at a tapped position: zero in the padding. */
  function Tap(block: seq<real>, n: Option<nat>): real
    requires n.Some? ==> n.value < |block|
  {
    match n
    case None => 0.0
    case Some(q) => block[q]
  }

  /** What the 27 taps of one channel block read. */
  function TapValues(block: seq<real>, nbrs: seq<Option<nat>>): (r: seq<real>)
    requires Within(nbrs, |block|)
    ensures |r| == |nbrs| && forall o :: 0 <= o < |nbrs| ==> r[o] == Tap(block, nbrs[o])
  {
    seq(|nbrs|, o requires 0 <= o < |nbrs| => Tap(block, nbrs[o]))
  }

  /** The 27 weighted taps of one channel block. */
  function Taps(taps: seq<real>, block: seq<real>, nbrs: seq<Option<nat>>): (r: seq<real>)
    requires |taps| == |nbrs| == 27 && Within(nbrs, |block|)
    ensures |r| == 27 && forall o :: 0 <= o < 27 ==> r[o] == taps[o] * Tap(block, nbrs[o])
  {
    Mul(taps, TapValues(block, nbrs))
  }

  /** The response of one kernel channel to one input channel at position `p`. */
  function Response(taps: seq<real>, block: seq<real>, dims: seq<nat>, p: nat): real
    requires |taps| == 27 && |dims| == 3 && |block| == Voxels(dims)
  {
    Sum(Taps(taps, block, Neighbours(dims, p)))
  }

  /** The response map of one kernel channel over one input channel. */
  function ChannelMap(taps: seq<real>, block: seq<real>, dims: seq<nat>): (r: seq<real>)
    requires |taps| == 27 && |dims| == 3 && |block| == Voxels(dims)
    ensures |r| == Voxels(dims) && forall p :: 0 <= p < |r| ==> r[p] == Response(taps, block, dims, p)
  {
    seq(Voxels(dims), p requires 0 <= p < Voxels(dims) => Response(taps, block, dims, p))
  }

  /** A kernel with one row of 27 taps per input channel. */
  ghost predicate KernelShaped(kernel: seq<seq<real>>, c: nat)
  {
    |kernel| == c && Uniform(kernel, 27)
  }

  /** The responses of every kernel channel to its input channel at `p`. */
  function ChannelResponses(kernel: seq<seq<real>>, sample: seq<seq<real>>, dims: seq<nat>, p: nat): (r: seq<real>)
    requires |dims| == 3 && KernelShaped(kernel, |sample|) && Uniform(sample, Voxels(dims))
    ensures |r| == |sample| && forall c :: 0 <= c < |r| ==> r[c] == Response(kernel[c], sample[c], dims, p)
  {
    seq(|sample|, c requires 0 <= c < |sample| => Response(kernel[c], sample[c], dims, p))
  }

  /** `F.conv3d(x, kernel, padding=1)` with a (1, C, 3, 3, 3) kernel, as written:
      a single output channel that sums the responses over the input channels. */
  function SummedMap(kernel: seq<seq<real>>, sample: seq<seq<real>>, dims: seq<nat>): (r: seq<real>)
    requires |dims| == 3 && KernelShaped(kernel, |sample|) && Uniform(sample, Voxels(dims))
    ensures |r| == Voxels(dims) && forall p :: 0 <= p < |r| ==> r[p] == Sum(ChannelResponses(kernel, sample, dims, p))
  {
    seq(Voxels(dims), p requires 0 <= p < Voxels(dims) => Sum(ChannelResponses(kernel, sample, dims, p)))
  }

  /** The convolution with `groups=C` and a (C, 1, 3, 3, 3) kernel: one edge map
      per channel. */
  function GroupedMaps(kernel: seq<seq<real>>, sample: seq<seq<real>>, dims: seq<nat>): (r: seq<seq<real>>)
    requires |dims| == 3 && KernelShaped(kernel, |sample|) && Uniform(sample, Voxels(dims))
    ensures |r| == |sample| && Uniform(r, Voxels(dims))
    ensures forall c :: 0 <= c < |r| ==> r[c] == ChannelMap(kernel[c], sample[c], dims)
  {
    seq(|sample|, c requires 0 <= c < |sample| => ChannelMap(kernel[c], sample[c], dims))
  }

  // ---------------------------------------------------------------- summing over channels first

  /** The taps of every channel at one position, one row per channel. */
  function TapMatrix(taps: seq<real>, sample: seq<seq<real>>, nbrs: seq<Option<nat>>, len: nat): (r: seq<seq<real>>)
    requires |taps| == |nbrs| == 27 && Uniform(sample, len) && Within(nbrs, len)
    ensures |r| == |sample| && Uniform(r, 27)
    ensures forall c :: 0 <= c < |r| ==> r[c] == Taps(taps, sample[c], nbrs)
  {
    seq(|sample|, c requires 0 <= c < |sample| => Taps(taps, sample[c], nbrs))
  }

  /** Tapping is linear in the block: the taps of a sum of blocks are the sums of their taps. */
  lemma TapsOfSum(taps: seq<real>, a: seq<real>, b: seq<real>, nbrs: seq<Option<nat>>)
    requires |taps| == |nbrs| == 27 && |a| == |b| && Within(nbrs, |a|)
    ensures Sum(Taps(taps, Add(a, b), nbrs)) == Sum(Taps(taps, a, nbrs)) + Sum(Taps(taps, b, nbrs))
  {
    var va, vb := TapValues(a, nbrs), TapValues(b, nbrs);
    forall o | 0 <= o < 27 ensures TapValues(Add(a, b), nbrs)[o] == Add(va, vb)[o] {
      TapOfSum(a, b, nbrs[o]);
    }
    assert TapValues(Add(a, b), nbrs) == Add(va, vb);
    SumMulAdd(taps, va, vb);
  }

  lemma TapOfSum(a: seq<real>, b: seq<real>, n: Option<nat>)
    requires |a| == |b| && (n.Some? ==> n.value < |a|)
    ensures Tap(Add(a, b), n) == Tap(a, n) + Tap(b, n)
  {
  }

  /** The taps of an all-zero block sum to zero. */
  lemma TapsOfZero(taps: seq<real>, len: nat, nbrs: seq<Option<nat>>)
    requires |taps| == |nbrs| == 27 && Within(nbrs, len)
    ensures Sum(Taps(taps, Const(len, 0.0), nbrs)) == 0.0
  {
    var t := Taps(taps, Const(len, 0.0), nbrs);
    assert AllEqual(t, 0.0);
    SumConst(t, 0.0);
  }

  /** With the same taps for every channel, the summed taps are the taps of the
      channel sum. */
  lemma {:induction false} SummedTaps(taps: seq<real>, sample: seq<seq<real>>, nbrs: seq<Option<nat>>, len: nat)
    requires |taps| == |nbrs| == 27 && Uniform(sample, len) && Within(nbrs, len)
    ensures Sum(Flat(TapMatrix(taps, sample, nbrs, len))) == Sum(Taps(taps, ColumnSums(sample, len), nbrs))
    decreases |sample|
  {
    var m := TapMatrix(taps, sample, nbrs, len);
    if |sample| == 0 {
      TapsOfZero(taps, len, nbrs);
    } else {
      var rest := sample[1..];
      SummedTaps(taps, rest, nbrs, len);
      assert m[1..] == TapMatrix(taps, rest, nbrs, len);
      SumAppend(m[0], Flat(m[1..]));
      TapsOfSum(taps, sample[0], ColumnSums(rest, len), nbrs);
    }
  }

  /** A kernel that repeats one row of taps for every channel. */
  ghost predicate Repeated(kernel: seq<seq<real>>, taps: seq<real>)
  {
    forall c :: 0 <= c < |kernel| ==> kernel[c] == taps
  }

  /** The summed map of a repeated kernel is the single-channel map of the
      channel sums: the convolution as written sees only `x.sum(1)`. */
  lemma SummedMapOfChannelSums(kernel: seq<seq<real>>, taps: seq<real>, sample: seq<seq<real>>, dims: seq<nat>)
    requires |dims| == 3 && KernelShaped(kernel, |sample|) && Uniform(sample, Voxels(dims))
    requires |taps| == 27 && Repeated(kernel, taps)
    ensures SummedMap(kernel, sample, dims) == ChannelMap(taps, ColumnSums(sample, Voxels(dims)), dims)
  {
    var sums := ColumnSums(sample, Voxels(dims));
    forall p | 0 <= p < Voxels(dims)
      ensures SummedMap(kernel, sample, dims)[p] == ChannelMap(taps, sums, dims)[p]
    {
      var m := TapMatrix(taps, sample, Neighbours(dims, p), Voxels(dims));
      SumFlat(m);
      assert BlockSums(m) == ChannelResponses(kernel, sample, dims, p);
      SummedTaps(taps, sample, Neighbours(dims, p), Voxels(dims));
    }
  }

  // ---------------------------------------------------------------- batches of volumes

  /** A (N, 3, X, Y, Z) tensor, the only input the convolution accepts: its
      kernel has three input channels. */
  predicate Volume(t: Tensor)
  {
    Batched(t) && |t.shape| == 5 && Channels(t) == NUM_CLASS
  }

  lemma VolumeDims(t: Tensor)
    requires |t.shape| == 5
    ensures |t.shape[2..]| == 3 && Voxels(t.shape[2..]) == SpatialSize(t)
  {
    var d := t.shape[2..];
    assert d[1..][1..][1..] == [];
    assert Prod(d[1..][1..]) == d[2];
    assert Prod(d[1..]) == d[1] * d[2];
  }

  /** The single-channel edge map of every sample, as written. */
  function SummedBlocks(kernel: seq<seq<real>>, t: Tensor): (r: seq<seq<real>>)
    requires Volume(t) && KernelShaped(kernel, NUM_CLASS)
    ensures |r| == Batch(t) && Uniform(r, SpatialSize(t))
    ensures |t.shape[2..]| == 3 && Voxels(t.shape[2..]) == SpatialSize(t)
    ensures forall n :: 0 <= n < |r| ==> r[n] == SummedMap(kernel, Samples(t)[n], t.shape[2..])
  {
    VolumeDims(t);
    var smp := Samples(t);
    seq(Batch(t), n requires 0 <= n < Batch(t) => SummedMap(kernel, smp[n], t.shape[2..]))
  }

  /** `F.conv3d(x, kernel, padding=1)` as written: shape (N, 1, X, Y, Z). */
  function SummedEdges(kernel: seq<seq<real>>, t: Tensor): (r: seq<real>)
    requires Volume(t) && KernelShaped(kernel, NUM_CLASS)
    ensures |r| == Batch(t) * SpatialSize(t)
  {
    FlatLength(SummedBlocks(kernel, t), SpatialSize(t));
    Flat(SummedBlocks(kernel, t))
  }

  /** The per-channel edge maps of every sample, with `groups=3`. */
  function GroupedBlocks(kernel: seq<seq<real>>, t: Tensor): (r: seq<seq<real>>)
    requires Volume(t) && KernelShaped(kernel, NUM_CLASS)
    ensures |r| == Batch(t) && Uniform(r, NUM_CLASS * SpatialSize(t))
    ensures |t.shape[2..]| == 3 && Voxels(t.shape[2..]) == SpatialSize(t)
    ensures forall n :: 0 <= n < |r| ==> r[n] == Flat(GroupedMaps(kernel, Samples(t)[n], t.shape[2..]))
  {
    VolumeDims(t);
    var smp := Samples(t);
    var r := seq(Batch(t), n requires 0 <= n < Batch(t) => Flat(GroupedMaps(kernel, smp[n], t.shape[2..])));
    forall n | 0 <= n < Batch(t) ensures |r[n]| == NUM_CLASS * SpatialSize(t) {
      FlatLength(GroupedMaps(kernel, smp[n], t.shape[2..]), SpatialSize(t));
    }
    r
  }

  /** The grouped convolution: shape (N, 3, X, Y, Z). */
  function GroupedEdges(kernel: seq<seq<real>>, t: Tensor): (r: seq<real>)
    requires Volume(t) && KernelShaped(kernel, NUM_CLASS)
    ensures |r| == Batch(t) * (NUM_CLASS * SpatialSize(t))
  {
    FlatLength(GroupedBlocks(kernel, t), NUM_CLASS * SpatialSize(t));
    Flat(GroupedBlocks(kernel, t))
  }

  // ---------------------------------------------------------------- F.l1_loss

  function AbsDiff(a: seq<real>, b: seq<real>): (r: seq<real>)
    requires |a| == |b|
    ensures |r| == |a| && forall i :: 0 <= i < |r| ==> r[i] == Abs(a[i] - b[i])
  {
    seq(|a|, i requires 0 <= i < |a| => Abs(a[i] - b[i]))
  }

  /** `F.l1_loss(a, b)`, the mean absolute difference (NaN for empty inputs). It
      is non-negative and zero exactly when the two inputs agree. */
  function L1Loss(a: seq<real>, b: seq<real>): (r: Result<real>)
    requires |a| == |b|
    ensures |a| == 0 <==> r == Err(NonFinite)
    ensures r.Ok? ==> r.value >= 0.0 && (r.value == 0.0 <==> a == b)
  {
    if |a| == 0 then Err(NonFinite)
    else
      MeanAbsDiff(a, b);
      Ok(Mean(AbsDiff(a, b)))
  }

  lemma MeanAbsDiff(a: seq<real>, b: seq<real>)
    requires |a| == |b| > 0
    ensures Mean(AbsDiff(a, b)) >= 0.0 && (Mean(AbsDiff(a, b)) == 0.0 <==> a == b)
  {
    var d := AbsDiff(a, b);
    SumNonnegZero(d);
    if AllEqual(d, 0.0) {
      forall i | 0 <= i < |a| ensures a[i] == b[i] {
        assert d[i] == 0.0;
      }
    }
    if a == b {
      assert AllEqual(d, 0.0);
    }
  }

  lemma ThreeFold(n: nat, s: nat)
    ensures n * (NUM_CLASS * s) == 3 * (n * s)
  {
  }

  /** The edge term as written: the summed convolution of the probabilities
      against that of the one-hot target. */
  function EdgeLossAsWritten(kernel: seq<seq<real>>, probs: Tensor, onehot: Tensor): (r: Result<real>)
    requires KernelShaped(kernel, NUM_CLASS)
    ensures !Volume(probs) || !Volume(onehot) || probs.shape != onehot.shape ==> r == Err(ShapeMismatch)
    ensures Volume(probs) && Volume(onehot) && probs.shape == onehot.shape ==>
      r == L1Loss(SummedEdges(kernel, probs), SummedEdges(kernel, onehot))
  {
    if !Volume(probs) || !Volume(onehot) || probs.shape != onehot.shape then Err(ShapeMismatch)
    else L1Loss(SummedEdges(kernel, probs), SummedEdges(kernel, onehot))
  }

  /** The edge term with one edge map per class (`groups=3`): zero exactly when
      every class's edge map agrees with the target's. */
  function EdgeLoss(kernel: seq<seq<real>>, probs: Tensor, onehot: Tensor): (r: Result<real>)
    requires KernelShaped(kernel, NUM_CLASS)
    ensures !Volume(probs) || !Volume(onehot) || probs.shape != onehot.shape ==> r == Err(ShapeMismatch)
    ensures Volume(probs) && Volume(onehot) && probs.shape == onehot.shape ==>
      (r.Err? <==> Batch(probs) * SpatialSize(probs) == 0) &&
      (r.Ok? ==> r.value >= 0.0 &&
                 (r.value == 0.0 <==> GroupedEdges(kernel, probs) == GroupedEdges(kernel, onehot)))
  {
    if !Volume(probs) || !Volume(onehot) || probs.shape != onehot.shape then Err(ShapeMismatch)
    else
      ThreeFold(Batch(probs), SpatialSize(probs));
      L1Loss(GroupedEdges(kernel, probs), GroupedEdges(kernel, onehot))
  }

  // ---------------------------------------------------------------- what the summed convolution sees

  /** The 3 channel probabilities at every position sum to 1, as they do for a
      softmax over the channel axis and for a one-hot encoding. */
  ghost predicate ChannelSumsOne(t: Tensor)
    requires Batched(t)
  {
    forall n, s :: 0 <= n < Batch(t) && 0 <= s < SpatialSize(t) ==>
      Sum(Column(Samples(t)[n], SpatialSize(t), s)) == 1.0
  }

  lemma ChannelSumsOneAgree(a: Tensor, b: Tensor, n: nat)
    requires Batched(a) && Batched(b) && a.shape == b.shape && n < Batch(a)
    requires ChannelSumsOne(a) && ChannelSumsOne(b)
    ensures ColumnSums(Samples(a)[n], SpatialSize(a)) == ColumnSums(Samples(b)[n], SpatialSize(b))
  {
    var len := SpatialSize(a);
    forall s | 0 <= s < len
      ensures ColumnSums(Samples(a)[n], len)[s] == ColumnSums(Samples(b)[n], len)[s]
    {
      ColumnSumsAt(Samples(a)[n], len, s);
      ColumnSumsAt(Samples(b)[n], len, s);
    }
  }

  /** With a kernel that repeats one row for every channel, two volumes whose
      channel sums agree have the same summed edge maps. */
  lemma SummedEdgesOfChannelSums(kernel: seq<seq<real>>, taps: seq<real>, a: Tensor, b: Tensor)
    requires Volume(a) && Volume(b) && a.shape == b.shape
    requires KernelShaped(kernel, NUM_CLASS) && |taps| == 27 && Repeated(kernel, taps)
    requires forall n :: 0 <= n < Batch(a) ==>
      ColumnSums(Samples(a)[n], SpatialSize(a)) == ColumnSums(Samples(b)[n], SpatialSize(b))
    ensures SummedEdges(kernel, a) == SummedEdges(kernel, b)
  {
    var dims := a.shape[2..];
    VolumeDims(a);
    forall n | 0 <= n < Batch(a) ensures SummedBlocks(kernel, a)[n] == SummedBlocks(kernel, b)[n] {
      SummedMapOfChannelSums(kernel, taps, Samples(a)[n], dims);
      SummedMapOfChannelSums(kernel, taps, Samples(b)[n], dims);
    }
    assert SummedBlocks(kernel, a) == SummedBlocks(kernel, b);
  }

  /** As written, the edge term between a softmax output and a one-hot target is
      zero whatever the prediction: both have channel sums 1 everywhere. */
  lemma AsWrittenEdgeLossVanishes(kernel: seq<seq<real>>, taps: seq<real>, probs: Tensor, onehot: Tensor)
    requires Volume(probs) && Volume(onehot) && probs.shape == onehot.shape
    requires KernelShaped(kernel, NUM_CLASS) && |taps| == 27 && Repeated(kernel, taps)
    requires ChannelSumsOne(probs) && ChannelSumsOne(onehot)
    requires Batch(probs) * SpatialSize(probs) > 0
    ensures EdgeLossAsWritten(kernel, probs, onehot) == Ok(0.0)
  {
    forall n | 0 <= n < Batch(probs)
      ensures ColumnSums(Samples(probs)[n], SpatialSize(probs)) == ColumnSums(Samples(onehot)[n], SpatialSize(onehot))
    {
      ChannelSumsOneAgree(probs, onehot, n);
    }
    SummedEdgesOfChannelSums(kernel, taps, probs, onehot);
  }

  /** The kernel the loss builds repeats the Laplacian for each of the 3 channels. */
  lemma KernelRepeated()
    ensures KernelShaped(KernelRows(), NUM_CLASS) && Repeated(KernelRows(), LAPLACIAN)
  {
    LaplacianTaps();
  }

  // ---------------------------------------------------------------- a single voxel

  /** In a 1×1×1 volume only the centre tap reads inside the padding. */
  lemma SingleVoxelNeighbour(o: nat)
    requires o < 27
    ensures Neighbour([1, 1, 1], 0, o) == if o == 13 then Some(0) else None
  {
    var dims: seq<nat> := [1, 1, 1];
    assert dims[1] * dims[2] == 1;
    assert 0 / 1 == 0 && 0 % 1 == 0 && (0 / 1) % 1 == 0;
  }

  /** The response at the single voxel is the centre tap's weight times its value. */
  lemma SingleVoxelResponse(taps: seq<real>, v: real)
    requires |taps| == 27
    ensures Response(taps, [v], [1, 1, 1], 0) == taps[13] * v
  {
    var r := Taps(taps, [v], Neighbours([1, 1, 1], 0));
    forall o | 0 <= o < 27 && o != 13 ensures r[o] == 0.0 {
      SingleVoxelTap(taps, v, o);
    }
    SingleVoxelTap(taps, v, 13);
    SumSingleNonzero(r, 13);
  }

  lemma SingleVoxelTap(taps: seq<real>, v: real, o: nat)
    requires |taps| == 27 && o < 27
    ensures Taps(taps, [v], Neighbours([1, 1, 1], 0))[o] == if o == 13 then taps[13] * v else 0.0
  {
    SingleVoxelNeighbour(o);
  }

  lemma FlatThree<T>(x: seq<T>, y: seq<T>, z: seq<T>)
    ensures Flat([x, y, z]) == x + y + z
  {
    assert [x, y, z][1..] == [y, z] && [y, z][1..] == [z] && [z][1..] == [];
    assert Flat([z]) == z + [];
    assert Flat([y, z]) == y + z;
  }

  lemma SumThree(x: real, y: real, z: real)
    ensures Sum([x, y, z]) == x + y + z
  {
    assert [x, y, z][1..] == [y, z] && [y, z][1..] == [z] && [z][1..] == [];
    assert Sum([z]) == z;
    assert Sum([y, z]) == y + z;
  }

  /** A batch of one 1×1×1 volume with channel values a, b, c. */
  function SingleVoxel(a: real, b: real, c: real): Tensor
  {
    Tensor([1, NUM_CLASS, 1, 1, 1], [a, b, c])
  }

  lemma SingleVoxelLayout(a: real, b: real, c: real)
    ensures Volume(SingleVoxel(a, b, c))
    ensures Batch(SingleVoxel(a, b, c)) == 1 && SpatialSize(SingleVoxel(a, b, c)) == 1
    ensures SingleVoxel(a, b, c).shape[2..] == [1, 1, 1]
    ensures Samples(SingleVoxel(a, b, c)) == [[[a], [b], [c]]]
  {
    var t := SingleVoxel(a, b, c);
    var d := [a, b, c];
    assert t.shape[2..] == [1, 1, 1];
    VolumeDims(t);
    assert Prod(t.shape) == 3 by {
      ProdBatched(t.shape);
    }
    SingleChunk(d);
    assert Chunks(t.data, 1, 3 * 1) == [d];
    assert d[..1] == [a] && d[1..] == [b, c] && d[1..][..1] == [b] && d[1..][1..] == [c];
    SingleChunk([c]);
    assert Chunks(d, 3, 1) == [[a]] + ([[b]] + [[c]]);
    var blocks := Chunks(t.data, Batch(t), Channels(t) * SpatialSize(t));
    assert blocks == [d];
    assert Chunks(d, 3, 1) == [[a], [b], [c]];
    assert Samples(t)[0] == Chunks(blocks[0], Channels(t), SpatialSize(t));
    assert Samples(t) == [Samples(t)[0]];
  }

  lemma SingleVoxelMap(taps: seq<real>, v: real)
    requires |taps| == 27
    ensures ChannelMap(taps, [v], [1, 1, 1]) == [taps[13] * v]
  {
    SingleVoxelResponse(taps, v);
  }

  /** With the Laplacian kernel, the grouped edge maps of a single voxel are 26
      times its channel values. */
  lemma SingleVoxelGrouped(a: real, b: real, c: real)
    ensures KernelShaped(KernelRows(), NUM_CLASS) && Volume(SingleVoxel(a, b, c))
    ensures GroupedEdges(KernelRows(), SingleVoxel(a, b, c)) == [26.0 * a, 26.0 * b, 26.0 * c]
  {
    KernelRepeated();
    SingleVoxelLayout(a, b, c);
    var t := SingleVoxel(a, b, c);
    var dims: seq<nat> := [1, 1, 1];
    var sample := [[a], [b], [c]];
    LaplacianTaps();
    SingleVoxelMap(LAPLACIAN, a);
    SingleVoxelMap(LAPLACIAN, b);
    SingleVoxelMap(LAPLACIAN, c);
    var maps := GroupedMaps(KernelRows(), sample, dims);
    assert maps[0] == [26.0 * a] && maps[1] == [26.0 * b] && maps[2] == [26.0 * c];
    assert maps == [[26.0 * a], [26.0 * b], [26.0 * c]];
    FlatThree(maps[0], maps[1], maps[2]);
    var blocks := GroupedBlocks(KernelRows(), t);
    assert blocks == [Flat(maps)];
  }

  /** As written, the single output channel of a single voxel is 26 times the
      sum of its channel values. */
  lemma SingleVoxelSummed(a: real, b: real, c: real)
    ensures KernelShaped(KernelRows(), NUM_CLASS) && Volume(SingleVoxel(a, b, c))
    ensures SummedEdges(KernelRows(), SingleVoxel(a, b, c)) == [26.0 * (a + b + c)]
  {
    KernelRepeated();
    SingleVoxelLayout(a, b, c);
    var t := SingleVoxel(a, b, c);
    var dims: seq<nat> := [1, 1, 1];
    var sample := [[a], [b], [c]];
    var rs := ChannelResponses(KernelRows(), sample, dims, 0);
    LaplacianTaps();
    SingleVoxelResponse(LAPLACIAN, a);
    SingleVoxelResponse(LAPLACIAN, b);
    SingleVoxelResponse(LAPLACIAN, c);
    assert rs[0] == 26.0 * a && rs[1] == 26.0 * b && rs[2] == 26.0 * c;
    assert rs == [rs[0], rs[1], rs[2]];
    SumThree(rs[0], rs[1], rs[2]);
    var m := SummedMap(KernelRows(), sample, dims);
    assert m == [26.0 * (a + b + c)];
    assert SummedBlocks(KernelRows(), t) == [m];
  }

  /** For one voxel, the term as written compares only the channel sums, while
      the grouped term compares every channel. */
  lemma SingleVoxelEdgeLosses(a: real, b: real, c: real, x: real, y: real, z: real)
    ensures KernelShaped(KernelRows(), NUM_CLASS)
    ensures a + b + c == x + y + z ==> EdgeLossAsWritten(KernelRows(), SingleVoxel(a, b, c), SingleVoxel(x, y, z)) == Ok(0.0)
    ensures EdgeLoss(KernelRows(), SingleVoxel(a, b, c), SingleVoxel(x, y, z))
            == Ok(26.0 * (Abs(a - x) + Abs(b - y) + Abs(c - z)) / 3.0)
  {
    KernelRepeated();
    if a + b + c == x + y + z {
      SingleVoxelSummedLoss(a, b, c, x, y, z);
    }
    SingleVoxelGroupedLoss(a, b, c, x, y, z);
  }

  lemma SingleVoxelSummedLoss(a: real, b: real, c: real, x: real, y: real, z: real)
    requires a + b + c == x + y + z
    ensures KernelShaped(KernelRows(), NUM_CLASS)
    ensures EdgeLossAsWritten(KernelRows(), SingleVoxel(a, b, c), SingleVoxel(x, y, z)) == Ok(0.0)
  {
    SingleVoxelSummed(a, b, c);
    SingleVoxelSummed(x, y, z);
    MeanAbsDiff([26.0 * (a + b + c)], [26.0 * (x + y + z)]);
  }

  lemma SingleVoxelGroupedLoss(a: real, b: real, c: real, x: real, y: real, z: real)
    ensures KernelShaped(KernelRows(), NUM_CLASS)
    ensures EdgeLoss(KernelRows(), SingleVoxel(a, b, c), SingleVoxel(x, y, z))
            == Ok(26.0 * (Abs(a - x) + Abs(b - y) + Abs(c - z)) / 3.0)
  {
    SingleVoxelGrouped(a, b, c);
    SingleVoxelGrouped(x, y, z);
    ThreeChannelL1(a, b, c, x, y, z);
  }

  lemma ThreeChannelL1(a: real, b: real, c: real, x: real, y: real, z: real)
    ensures L1Loss([26.0 * a, 26.0 * b, 26.0 * c], [26.0 * x, 26.0 * y, 26.0 * z])
            == Ok(26.0 * (Abs(a - x) + Abs(b - y) + Abs(c - z)) / 3.0)
  {
    var d := AbsDiff([26.0 * a, 26.0 * b, 26.0 * c], [26.0 * x, 26.0 * y, 26.0 * z]);
    assert d == [26.0 * Abs(a - x), 26.0 * Abs(b - y), 26.0 * Abs(c - z)];
    SumThree(d[0], d[1], d[2]);
  }

  /** A prediction that splits the first class's probability with the second
      costs nothing as written, and 26/3 with one edge map per class. */
  lemma EdgeLossExample()
    ensures KernelShaped(KernelRows(), NUM_CLASS)
    ensures EdgeLossAsWritten(KernelRows(), SingleVoxel(0.5, 0.5, 0.0), SingleVoxel(1.0, 0.0, 0.0)) == Ok(0.0)
    ensures EdgeLoss(KernelRows(), SingleVoxel(0.5, 0.5, 0.0), SingleVoxel(1.0, 0.0, 0.0)) == Ok(26.0 / 3.0)
  {
    SingleVoxelEdgeLosses(0.5, 0.5, 0.0, 1.0, 0.0, 0.0);
  }

  // ---------------------------------------------------------------- the composition

  /** The dictionary of parts `forward` returns beside the total. */
  datatype Diagnostics = Diagnostics(ceLoss: real, diceLoss: real, edgeLoss: real)

  /** The weighted sum of the three parts. */
  function Total(ceWeight: real, diceWeight: real, edgeWeight: real, d: Diagnostics): real
  {
    ceWeight * d.ceLoss + diceWeight * d.diceLoss + edgeWeight * d.edgeLoss
  }

  /** The three parts, in the order `forward` computes them (edges, Dice, cross
      entropy), weighed into the total; the first part that fails decides the error. */
  function Compose(edge: Result<real>, dice: Result<real>, ce: Result<real>,
                   ceWeight: real, diceWeight: real, edgeWeight: real): (r: Result<(real, Diagnostics)>)
    ensures r.Ok? <==> edge.Ok? && dice.Ok? && ce.Ok?
    ensures edge.Err? ==> r == Err(edge.error)
    ensures edge.Ok? && dice.Err? ==> r == Err(dice.error)
    ensures edge.Ok? && dice.Ok? && ce.Err? ==> r == Err(ce.error)
    ensures r.Ok? ==> r.value.1 == Diagnostics(ce.value, dice.value, edge.value) &&
                      r.value.0 == Total(ceWeight, diceWeight, edgeWeight, r.value.1)
  {
    var e :- edge;
    var d :- dice;
    var c :- ce;
    var parts := Diagnostics(c, d, e);
    Ok((Total(ceWeight, diceWeight, edgeWeight, parts), parts))
  }

  /** Two compositions of the same Dice and cross-entropy parts differ only in
      the edge part, by the edge weight times the difference of the edge terms. */
  lemma ComposeSharesParts(edgeA: Result<real>, edgeB: Result<real>, dice: Result<real>, ce: Result<real>,
                           ceWeight: real, diceWeight: real, edgeWeight: real)
    requires Compose(edgeA, dice, ce, ceWeight, diceWeight, edgeWeight).Ok?
    requires Compose(edgeB, dice, ce, ceWeight, diceWeight, edgeWeight).Ok?
    ensures
      var a := Compose(edgeA, dice, ce, ceWeight, diceWeight, edgeWeight).value;
      var b := Compose(edgeB, dice, ce, ceWeight, diceWeight, edgeWeight).value;
      a.1.ceLoss == b.1.ceLoss && a.1.diceLoss == b.1.diceLoss &&
      a.0 - b.0 == edgeWeight * (a.1.edgeLoss - b.1.edgeLoss)
  {
    var a := Compose(edgeA, dice, ce, ceWeight, diceWeight, edgeWeight).value;
    var b := Compose(edgeB, dice, ce, ceWeight, diceWeight, edgeWeight).value;
    TotalDifference(ceWeight, diceWeight, edgeWeight, a.1, b.1);
  }

  lemma TotalDifference(ceWeight: real, diceWeight: real, edgeWeight: real, a: Diagnostics, b: Diagnostics)
    requires a.ceLoss == b.ceLoss && a.diceLoss == b.diceLoss
    ensures Total(ceWeight, diceWeight, edgeWeight, a) - Total(ceWeight, diceWeight, edgeWeight, b) ==
            edgeWeight * (a.edgeLoss - b.edgeLoss)
  {
  }

  /** The parts are computed in the order of `forward` (edges, Dice, cross
      entropy); the first one that fails decides the error. */
  function Combined(kernel: seq<seq<real>>, crossEntropy: (Tensor, Tensor, seq<real>, int) -> real,
                    act: Activations, ceWeight: real, diceWeight: real, edgeWeight: real,
                    pred: Tensor, target: Tensor, targetOneHot: Tensor): (r: Result<(real, Diagnostics)>)
    requires KernelShaped(kernel, NUM_CLASS)
    ensures
      var edge := EdgeLoss(kernel, act.softmax(pred), targetOneHot);
      var dice := DiceLoss(Some(CLASS_WEIGHTS), Softmax).Forward(act, pred, targetOneHot);
      var ce := WeightedCrossEntropyLoss(-100).Forward(crossEntropy, act, pred, target);
      (r.Ok? <==> edge.Ok? && dice.Ok? && ce.Ok?) &&
      (r.Ok? ==> r.value.1 == Diagnostics(ce.value, dice.value, edge.value) &&
                 r.value.0 == Total(ceWeight, diceWeight, edgeWeight, r.value.1))
  {
    Compose(EdgeLoss(kernel, act.softmax(pred), targetOneHot),
            DiceLoss(Some(CLASS_WEIGHTS), Softmax).Forward(act, pred, targetOneHot),
            WeightedCrossEntropyLoss(-100).Forward(crossEntropy, act, pred, target),
            ceWeight, diceWeight, edgeWeight)
  }

  /** The first part that fails, in the order of `forward`, decides the error. */
  lemma CombinedFirstError(kernel: seq<seq<real>>, crossEntropy: (Tensor, Tensor, seq<real>, int) -> real,
                           act: Activations, ceWeight: real, diceWeight: real, edgeWeight: real,
                           pred: Tensor, target: Tensor, targetOneHot: Tensor)
    requires KernelShaped(kernel, NUM_CLASS)
    ensures
      var r := Combined(kernel, crossEntropy, act, ceWeight, diceWeight, edgeWeight, pred, target, targetOneHot);
      var edge := EdgeLoss(kernel, act.softmax(pred), targetOneHot);
      var dice := DiceLoss(Some(CLASS_WEIGHTS), Softmax).Forward(act, pred, targetOneHot);
      var ce := WeightedCrossEntropyLoss(-100).Forward(crossEntropy, act, pred, target);
      (edge.Err? ==> r == Err(edge.error)) &&
      (edge.Ok? && dice.Err? ==> r == Err(dice.error)) &&
      (edge.Ok? && dice.Ok? && ce.Err? ==> r == Err(ce.error))
  {
  }

  /** With non-negative weights, a prediction whose edge maps match the target's
      costs only the weighted cross entropy and Dice parts. */
  lemma MatchingEdgesCostNothing(kernel: seq<seq<real>>, crossEntropy: (Tensor, Tensor, seq<real>, int) -> real,
                                 act: Activations, ceWeight: real, diceWeight: real, edgeWeight: real,
                                 pred: Tensor, target: Tensor, targetOneHot: Tensor)
    requires KernelShaped(kernel, NUM_CLASS)
    requires Volume(act.softmax(pred)) && Volume(targetOneHot) && act.softmax(pred).shape == targetOneHot.shape
    requires Batch(targetOneHot) > 0 && SpatialSize(targetOneHot) > 0
    requires GroupedEdges(kernel, act.softmax(pred)) == GroupedEdges(kernel, targetOneHot)
    requires Combined(kernel, crossEntropy, act, ceWeight, diceWeight, edgeWeight, pred, target, targetOneHot).Ok?
    ensures
      var r := Combined(kernel, crossEntropy, act, ceWeight, diceWeight, edgeWeight, pred, target, targetOneHot).value;
      r.1.edgeLoss == 0.0 && r.0 == ceWeight * r.1.ceLoss + diceWeight * r.1.diceLoss
  {
    var probs := act.softmax(pred);
    NonEmptyVolume(probs, targetOneHot);
    var e := EdgeLoss(kernel, probs, targetOneHot);
    assert e.Ok? && e.value == 0.0;
    var r := Combined(kernel, crossEntropy, act, ceWeight, diceWeight, edgeWeight, pred, target, targetOneHot).value;
    assert r.1.edgeLoss == 0.0 && r.0 == Total(ceWeight, diceWeight, edgeWeight, r.1);
    TotalWithoutEdge(ceWeight, diceWeight, edgeWeight, r.1);
  }

  /** The composition as written: the same parts in the same order, with the
      summed edge term of `groups=1`. */
  function CombinedAsWritten(kernel: seq<seq<real>>, crossEntropy: (Tensor, Tensor, seq<real>, int) -> real,
                             act: Activations, ceWeight: real, diceWeight: real, edgeWeight: real,
                             pred: Tensor, target: Tensor, targetOneHot: Tensor): (r: Result<(real, Diagnostics)>)
    requires KernelShaped(kernel, NUM_CLASS)
    ensures
      var edge := EdgeLossAsWritten(kernel, act.softmax(pred), targetOneHot);
      var dice := DiceLoss(Some(CLASS_WEIGHTS), Softmax).Forward(act, pred, targetOneHot);
      var ce := WeightedCrossEntropyLoss(-100).Forward(crossEntropy, act, pred, target);
      (r.Ok? <==> edge.Ok? && dice.Ok? && ce.Ok?) &&
      (r.Ok? ==> r.value.1 == Diagnostics(ce.value, dice.value, edge.value) &&
                 r.value.0 == Total(ceWeight, diceWeight, edgeWeight, r.value.1))
  {
    Compose(EdgeLossAsWritten(kernel, act.softmax(pred), targetOneHot),
            DiceLoss(Some(CLASS_WEIGHTS), Softmax).Forward(act, pred, targetOneHot),
            WeightedCrossEntropyLoss(-100).Forward(crossEntropy, act, pred, target),
            ceWeight, diceWeight, edgeWeight)
  }

  /** As written, with a kernel that repeats one row for every channel (as the
      Laplacian kernel the loss builds does), the loss of a softmax output against
      a one-hot target over a non-empty volume is `ce_weight·ce + dice_weight·dice`
      whatever the prediction and the edge weight: the edge term is always zero. */
  lemma AsWrittenTotalIgnoresEdges(kernel: seq<seq<real>>, taps: seq<real>,
                                   crossEntropy: (Tensor, Tensor, seq<real>, int) -> real,
                                   act: Activations, ceWeight: real, diceWeight: real, edgeWeight: real,
                                   pred: Tensor, target: Tensor, targetOneHot: Tensor)
    requires KernelShaped(kernel, NUM_CLASS) && |taps| == 27 && Repeated(kernel, taps)
    requires Volume(act.softmax(pred)) && Volume(targetOneHot) && act.softmax(pred).shape == targetOneHot.shape
    requires ChannelSumsOne(act.softmax(pred)) && ChannelSumsOne(targetOneHot)
    requires Batch(targetOneHot) > 0 && SpatialSize(targetOneHot) > 0
    ensures
      var r := CombinedAsWritten(kernel, crossEntropy, act, ceWeight, diceWeight, edgeWeight, pred, target, targetOneHot);
      var dice := DiceLoss(Some(CLASS_WEIGHTS), Softmax).Forward(act, pred, targetOneHot);
      var ce := WeightedCrossEntropyLoss(-100).Forward(crossEntropy, act, pred, target);
      (r.Ok? <==> dice.Ok? && ce.Ok?) &&
      (r.Ok? ==> r.value.1.edgeLoss == 0.0 && r.value.0 == ceWeight * ce.value + diceWeight * dice.value)
  {
    var probs := act.softmax(pred);
    NonEmptyVolume(probs, targetOneHot);
    AsWrittenEdgeLossVanishes(kernel, taps, probs, targetOneHot);
    AsWrittenWithZeroEdge(kernel, crossEntropy, act, ceWeight, diceWeight, edgeWeight, pred, target, targetOneHot);
    ZeroEdgeTotal(DiceLoss(Some(CLASS_WEIGHTS), Softmax).Forward(act, pred, targetOneHot),
                  WeightedCrossEntropyLoss(-100).Forward(crossEntropy, act, pred, target),
                  ceWeight, diceWeight, edgeWeight);
  }

  /** With a zero edge term, the composition as written is that of a zero edge part. */
  lemma AsWrittenWithZeroEdge(kernel: seq<seq<real>>, crossEntropy: (Tensor, Tensor, seq<real>, int) -> real,
                              act: Activations, ceWeight: real, diceWeight: real, edgeWeight: real,
                              pred: Tensor, target: Tensor, targetOneHot: Tensor)
    requires KernelShaped(kernel, NUM_CLASS)
    requires EdgeLossAsWritten(kernel, act.softmax(pred), targetOneHot) == Ok(0.0)
    ensures CombinedAsWritten(kernel, crossEntropy, act, ceWeight, diceWeight, edgeWeight, pred, target, targetOneHot)
            == Compose(Ok(0.0), DiceLoss(Some(CLASS_WEIGHTS), Softmax).Forward(act, pred, targetOneHot),
                       WeightedCrossEntropyLoss(-100).Forward(crossEntropy, act, pred, target),
                       ceWeight, diceWeight, edgeWeight)
  {
  }

  lemma NonEmptyVolume(a: Tensor, b: Tensor)
    requires |a.shape| >= 2 && a.shape == b.shape && Batch(b) > 0 && SpatialSize(b) > 0
    ensures Batch(a) * SpatialSize(a) > 0
  {
  }

  /** A composition whose edge part is zero costs the weighted other two parts. */
  lemma ZeroEdgeTotal(dice: Result<real>, ce: Result<real>, ceWeight: real, diceWeight: real, edgeWeight: real)
    ensures var r := Compose(Ok(0.0), dice, ce, ceWeight, diceWeight, edgeWeight);
      (r.Ok? <==> dice.Ok? && ce.Ok?) &&
      (r.Ok? ==> r.value.1.edgeLoss == 0.0 && r.value.0 == ceWeight * ce.value + diceWeight * dice.value)
  {
    var r := Compose(Ok(0.0), dice, ce, ceWeight, diceWeight, edgeWeight);
    if r.Ok? {
      TotalWithoutEdge(ceWeight, diceWeight, edgeWeight, r.value.1);
    }
  }

  /** The kernel the loss builds qualifies. */
  lemma SourceKernelIgnoresEdges(crossEntropy: (Tensor, Tensor, seq<real>, int) -> real,
                                 act: Activations, ceWeight: real, diceWeight: real, edgeWeight: real,
                                 pred: Tensor, target: Tensor, targetOneHot: Tensor)
    requires Volume(act.softmax(pred)) && Volume(targetOneHot) && act.softmax(pred).shape == targetOneHot.shape
    requires ChannelSumsOne(act.softmax(pred)) && ChannelSumsOne(targetOneHot)
    requires Batch(targetOneHot) > 0 && SpatialSize(targetOneHot) > 0
    ensures KernelShaped(KernelRows(), NUM_CLASS)
    ensures
      var r := CombinedAsWritten(KernelRows(), crossEntropy, act, ceWeight, diceWeight, edgeWeight, pred, target, targetOneHot);
      r.Ok? ==> r.value.1.edgeLoss == 0.0
  {
    KernelRepeated();
    AsWrittenTotalIgnoresEdges(KernelRows(), LAPLACIAN, crossEntropy, act, ceWeight, diceWeight, edgeWeight,
                               pred, target, targetOneHot);
  }

  lemma TotalWithoutEdge(ceWeight: real, diceWeight: real, edgeWeight: real, d: Diagnostics)
    requires d.edgeLoss == 0.0
    ensures Total(ceWeight, diceWeight, edgeWeight, d) == ceWeight * d.ceLoss + diceWeight * d.diceLoss
  {
  }

  /** `UnifiedSegmentationLoss`. The Laplacian kernel is the one field `forward`
      reassigns (moving it to the prediction's device leaves its values alone). */
  class UnifiedSegmentationLoss {
    const ceWeight: real
    const diceWeight: real
    const edgeWeight: real
    const numClass: nat
    var laplacianKernel: Tensor
    const ceLoss: WeightedCrossEntropyLoss
    const diceLoss: DiceLoss

    /** The state the constructor builds. */
    ghost predicate Valid()
      reads this
    {
      numClass == NUM_CLASS && laplacianKernel == KernelTensor() &&
      ceLoss == WeightedCrossEntropyLoss(-100) && diceLoss == DiceLoss(Some(CLASS_WEIGHTS), Softmax)
    }

    constructor (ceWeight: real := 2.0, diceWeight: real := 1.0, edgeWeight: real := 5.0)
      ensures Valid()
      ensures this.ceWeight == ceWeight && this.diceWeight == diceWeight && this.edgeWeight == edgeWeight
    {
      this.ceWeight := ceWeight;
      this.diceWeight := diceWeight;
      this.edgeWeight := edgeWeight;
      numClass := NUM_CLASS;
      laplacianKernel := KernelTensor();
      ceLoss := WeightedCrossEntropyLoss(-100);
      diceLoss := DiceLoss(Some(CLASS_WEIGHTS), Softmax);
    }

    /** `forward(pred, prediction, target, target_onehot)`; `prediction` is not used. */
    method Forward(crossEntropy: (Tensor, Tensor, seq<real>, int) -> real, act: Activations,
                   pred: Tensor, prediction: Tensor, target: Tensor, targetOneHot: Tensor)
      returns (r: Result<(real, Diagnostics)>)
      requires Valid()
      modifies this
      ensures Valid() && laplacianKernel == old(laplacianKernel)
      ensures KernelShaped(KernelRows(), NUM_CLASS)
      ensures r == Combined(KernelRows(), crossEntropy, act, ceWeight, diceWeight, edgeWeight, pred, target, targetOneHot)
    {
      laplacianKernel := laplacianKernel;
      KernelLayout();
      KernelRepeated();
      var kernel := Chunks(laplacianKernel.data, numClass, 27);
      var edge :- EdgeLoss(kernel, act.softmax(pred), targetOneHot);
      var dice :- diceLoss.Forward(act, pred, targetOneHot);
      var ce :- ceLoss.Forward(crossEntropy, act, pred, target);
      var d := Diagnostics(ce, dice, edge);
      return Ok((Total(ceWeight, diceWeight, edgeWeight, d), d));
    }
  }
}
