/** The channel-first layout of `flatten` in CNN-Baseline/losses.py: a tensor
    of shape (N, C, spatial...) becomes a (C, N·S) matrix, S being the number
    of spatial positions. The matrix is represented by its C rows. */
module Layout {
  import opened RealSeq
  import opened Tensors

  /** A well-formed tensor with a batch and a channel axis. */
  predicate Batched(t: Tensor)
  {
    t.Valid() && |t.shape| >= 2
  }

  function Batch(t: Tensor): nat
    requires |t.shape| >= 1
  {
    t.shape[0]
  }

  function Channels(t: Tensor): nat
    requires |t.shape| >= 2
  {
    t.shape[1]
  }

  /** Number of spatial positions per sample and channel. */
  function SpatialSize(t: Tensor): nat
    requires |t.shape| >= 2
  {
    Prod(t.shape[2..])
  }

  lemma ProdBatched(shape: seq<nat>)
    requires |shape| >= 2
    ensures Prod(shape) == shape[0] * (shape[1] * Prod(shape[2..]))
  {
    assert shape[1..][1..] == shape[2..];
  }

  /** The tensor seen as N samples of C channels of S values: `Samples(t)[n][c][s]`
      is element [n, c, s] of `t` with its spatial axes read row-major. */
  function Samples(t: Tensor): (r: seq<seq<seq<real>>>)
    requires Batched(t)
    ensures |r| == Batch(t)
    ensures forall n :: 0 <= n < |r| ==> |r[n]| == Channels(t) && Uniform(r[n], SpatialSize(t))
  {
    ProdBatched(t.shape);
    var blocks := Chunks(t.data, Batch(t), Channels(t) * SpatialSize(t));
    seq(Batch(t), n requires 0 <= n < Batch(t) => Chunks(blocks[n], Channels(t), SpatialSize(t)))
  }

  /** The channel-`c` block of every sample, in sample order. */
  function ChannelBlocks(t: Tensor, c: nat): (r: seq<seq<real>>)
    requires Batched(t) && c < Channels(t)
    ensures |r| == Batch(t) && Uniform(r, SpatialSize(t))
    ensures forall n :: 0 <= n < Batch(t) ==> r[n] == Samples(t)[n][c]
  {
    var smp := Samples(t);
    seq(Batch(t), n requires 0 <= n < Batch(t) => smp[n][c])
  }

  /** Row `c` of the flattened matrix. */
  function ChannelRow(t: Tensor, c: nat): seq<real>
    requires Batched(t) && c < Channels(t)
  {
    Flat(ChannelBlocks(t, c))
  }

  /** The tensors `flatten` accepts: `view(C, -1)` leaves the row length
      undetermined when there are no channels, and torch raises. */
  predicate Flattenable(t: Tensor)
  {
    Batched(t) && Channels(t) > 0
  }

  /** `flatten(tensor)`: permute (N, C, ...) to (C, N, ...) and view as (C, N·S).
      Defined for zero channels as well; every caller checks `Flattenable` first. */
  function Flatten(t: Tensor): (rows: seq<seq<real>>)
    requires Batched(t)
    ensures |rows| == Channels(t)
  {
    seq(Channels(t), c requires 0 <= c < Channels(t) => ChannelRow(t, c))
  }

  /** The flattened matrix has C rows of length N·S, and cutting row `c` into N
      blocks of S gives back the channel-`c` block of each sample. */
  lemma FlattenLayout(t: Tensor)
    requires Batched(t)
    ensures Uniform(Flatten(t), Batch(t) * SpatialSize(t))
    ensures forall c, n :: 0 <= c < Channels(t) && 0 <= n < Batch(t) ==>
              Chunks(Flatten(t)[c], Batch(t), SpatialSize(t))[n] == Samples(t)[n][c]
  {
    forall c | 0 <= c < Channels(t)
      ensures |Flatten(t)[c]| == Batch(t) * SpatialSize(t)
      ensures Chunks(Flatten(t)[c], Batch(t), SpatialSize(t)) == ChannelBlocks(t, c)
    {
      ChunksFlat(ChannelBlocks(t, c), SpatialSize(t));
    }
  }

  /** Tensors of one shape flatten to matrices of one shape. */
  lemma FlattenSameShape(a: Tensor, b: Tensor)
    requires Batched(a) && Batched(b) && a.shape == b.shape
    ensures |Flatten(a)| == |Flatten(b)|
    ensures forall c :: 0 <= c < |Flatten(a)| ==>
      |Flatten(a)[c]| == |Flatten(b)[c]| == Batch(a) * SpatialSize(a)
  {
    FlattenLayout(a);
    FlattenLayout(b);
  }

  /** The exact index map: element [n, c, s] (flat offset n·C·S + c·S + s) lands
      in row c, column n·S + s. It depends on the shape only, so two tensors of
      one shape are laid out identically. */
  lemma FlattenAt(t: Tensor, n: nat, c: nat, s: nat)
    requires Batched(t) && n < Batch(t) && c < Channels(t) && s < SpatialSize(t)
    ensures n * SpatialSize(t) + s < Batch(t) * SpatialSize(t)
    ensures n * (Channels(t) * SpatialSize(t)) + c * SpatialSize(t) + s < |t.data|
    ensures |Flatten(t)[c]| == Batch(t) * SpatialSize(t)
    ensures Flatten(t)[c][n * SpatialSize(t) + s]
            == t.data[n * (Channels(t) * SpatialSize(t)) + c * SpatialSize(t) + s]
  {
    var N, C, S := Batch(t), Channels(t), SpatialSize(t);
    ProdBatched(t.shape);
    var blocks := Chunks(t.data, N, C * S);
    var row := Flatten(t)[c];
    ChunksFlat(ChannelBlocks(t, c), S);
    ChunksAt(row, N, S, n, s);
    ChunksAt(blocks[n], C, S, c, s);
    ChunksAt(t.data, N, C * S, n, c * S + s);
  }

  /** Every entry of the flattened matrix is an entry of the tensor, so bounds
      on the tensor's entries hold for every row. */
  lemma FlattenAllIn(t: Tensor, lo: real, hi: real)
    requires Batched(t) && AllIn(t.data, lo, hi)
    ensures forall c :: 0 <= c < Channels(t) ==> AllIn(Flatten(t)[c], lo, hi)
  {
    var N, C, S := Batch(t), Channels(t), SpatialSize(t);
    ProdBatched(t.shape);
    var blocks := Chunks(t.data, N, C * S);
    ChunksAllIn(t.data, N, C * S, lo, hi);
    forall c | 0 <= c < C ensures AllIn(Flatten(t)[c], lo, hi) {
      var parts := ChannelBlocks(t, c);
      forall n | 0 <= n < N ensures AllIn(parts[n], lo, hi) {
        ChunksAllIn(blocks[n], C, S, lo, hi);
      }
      FlatAllIn(parts, lo, hi);
    }
  }
}
