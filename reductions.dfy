/** The reductions the similarity index ends with: `x.mean()` over every
    entry, `x.mean(1)` over the second axis, and the mean of each sample. */
module Reductions {
  import opened Results
  import opened RealSeq
  import opened Tensors

  /** The number of entries of a shape is the product of its leading extent
      and the rest. */
  lemma ProdHead(shape: seq<nat>)
    requires |shape| > 0
    ensures Prod(shape) == shape[0] * Prod(shape[1..])
  {
  }

  lemma ProdSplit(shape: seq<nat>)
    requires |shape| >= 2
    ensures Prod(shape[1..]) == shape[1] * Prod(shape[2..])
    ensures Prod(shape) == shape[0] * (shape[1] * Prod(shape[2..]))
  {
    assert shape[1..][1..] == shape[2..];
  }

  lemma ProdCons(n: nat, rest: seq<nat>)
    ensures Prod([n] + rest) == n * Prod(rest)
    ensures ([n] + rest)[1..] == rest
  {
    assert ([n] + rest)[1..] == rest;
  }

  lemma ProdSingle(n: nat)
    ensures Prod([n]) == n
  {
    assert [n][1..] == [];
  }

  /** Sample `k` of a tensor: the entries whose leading index is `k`. */
  function Sample(t: Tensor, k: nat): (r: seq<real>)
    requires t.Valid() && |t.shape| > 0 && k < t.shape[0]
    ensures |r| == Prod(t.shape[1..])
  {
    ProdHead(t.shape);
    Chunks(t.data, t.shape[0], Prod(t.shape[1..]))[k]
  }

  // ---------------------------------------------------------------- x.mean()

  /** `x.mean()`: a zero-dimensional tensor holding the mean of every entry;
      over no entry torch returns NaN. */
  function MeanAll(t: Tensor): (r: Result<Tensor>)
    ensures r.Err? <==> |t.data| == 0
    ensures r.Err? ==> r.error == NonFinite
    ensures r.Ok? ==> r.value.Valid() && r.value.shape == [] && |r.value.data| == 1
    ensures r.Ok? ==> r.value.data[0] * (|t.data| as real) == Sum(t.data)
  {
    if |t.data| == 0 then Err(NonFinite) else Ok(Tensor([], [Mean(t.data)]))
  }

  /** A mean lies between the least and the greatest bound of its entries. */
  lemma MeanAllBounds(t: Tensor, lo: real, hi: real)
    requires |t.data| > 0 && AllIn(t.data, lo, hi)
    ensures lo <= MeanAll(t).value.data[0] <= hi
  {
    SumBounds(t.data, lo, hi);
    MeanBetween(Sum(t.data), |t.data| as real, lo, hi);
  }

  lemma MeanBetween(s: real, n: real, lo: real, hi: real)
    requires n > 0.0 && n * lo <= s <= n * hi
    ensures lo <= s / n <= hi
  {
  }

  // ---------------------------------------------------------------- x.mean(1)

  /** The mean over the `c` rows of a block of `c * len` entries, column by
      column. */
  function ColumnMeans(block: seq<real>, c: nat, len: nat): (r: seq<real>)
    requires |block| == c * len
    ensures |r| == len
  {
    if c == 0 then Const(len, 0.0)
    else DivideBy(ColumnSums(Chunks(block, c, len), len), c as real)
  }

  /** The column means of every sample. */
  function SampleColumnMeans(blocks: seq<seq<real>>, c: nat, len: nat): (r: seq<seq<real>>)
    requires forall k :: 0 <= k < |blocks| ==> |blocks[k]| == c * len
    ensures |r| == |blocks| && Uniform(r, len)
    ensures forall k :: 0 <= k < |blocks| ==> r[k] == ColumnMeans(blocks[k], c, len)
  {
    seq(|blocks|, k requires 0 <= k < |blocks| => ColumnMeans(blocks[k], c, len))
  }

  /** `x.mean(1)`: removes the second axis, averaging over it. A tensor with
      fewer than two axes has no axis 1 and raises; averaging over an empty
      axis gives NaN wherever there is an output entry. */
  function MeanDim1(t: Tensor): (r: Result<Tensor>)
    requires t.Valid()
    ensures r.Err? <==> |t.shape| < 2 || (t.shape[1] == 0 && t.shape[0] * Prod(t.shape[2..]) > 0)
    ensures r.Err? ==> (r.error == ShapeMismatch <==> |t.shape| < 2)
    ensures r.Err? ==> r.error in {ShapeMismatch, NonFinite}
    ensures r.Ok? ==> r.value.Valid() && r.value.shape == [t.shape[0]] + t.shape[2..]
  {
    if |t.shape| < 2 then Err(ShapeMismatch)
    else
      var n, c, rest := t.shape[0], t.shape[1], t.shape[2..];
      var len := Prod(rest);
      ProdSplit(t.shape);
      ProdCons(n, rest);
      if c == 0 && n * len > 0 then Err(NonFinite)
      else
        var means := SampleColumnMeans(Chunks(t.data, n, c * len), c, len);
        FlatLength(means, len);
        Ok(Tensor([n] + rest, Flat(means)))
  }

  /** Sample `k` of `x.mean(1)` is the column means of sample `k`. */
  lemma MeanDim1Samples(t: Tensor, k: nat)
    requires t.Valid() && |t.shape| >= 2 && t.shape[1] > 0 && k < t.shape[0]
    ensures MeanDim1(t).Ok?
    ensures |Sample(t, k)| == t.shape[1] * Prod(t.shape[2..])
    ensures Sample(MeanDim1(t).value, k) == ColumnMeans(Sample(t, k), t.shape[1], Prod(t.shape[2..]))
  {
    var n, c, rest := t.shape[0], t.shape[1], t.shape[2..];
    var len := Prod(rest);
    ProdSplit(t.shape);
    ProdCons(n, rest);
    var means := SampleColumnMeans(Chunks(t.data, n, c * len), c, len);
    ChunksFlat(means, len);
  }

  /** Entry `j` of the column means is the mean of column `j`. */
  lemma ColumnMeansAt(block: seq<real>, c: nat, len: nat, j: nat)
    requires |block| == c * len && c > 0 && j < len
    ensures ColumnMeans(block, c, len)[j] == Mean(Column(Chunks(block, c, len), len, j))
  {
    var rows := Chunks(block, c, len);
    ColumnSumsAt(rows, len, j);
  }

  /** The column means add up to the block's total divided by the number of rows. */
  lemma ColumnMeansSum(block: seq<real>, c: nat, len: nat)
    requires |block| == c * len && c > 0
    ensures Sum(ColumnMeans(block, c, len)) == Sum(block) / (c as real)
  {
    var rows := Chunks(block, c, len);
    SumDivideBy(ColumnSums(rows, len), c as real);
    SumColumnSums(rows, len);
    FlatChunks(block, c, len);
  }

  /** Entry `[k][j]` of `x.mean(1)` is the mean of `x[k][0..c][j]`. */
  lemma MeanDim1Entries(t: Tensor, k: nat, j: nat)
    requires t.Valid() && |t.shape| >= 2 && t.shape[1] > 0
    requires k < t.shape[0] && j < Prod(t.shape[2..])
    ensures MeanDim1(t).Ok? && |Sample(t, k)| == t.shape[1] * Prod(t.shape[2..])
    ensures |Sample(MeanDim1(t).value, k)| == Prod(t.shape[2..])
    ensures var c, len := t.shape[1], Prod(t.shape[2..]);
      Sample(MeanDim1(t).value, k)[j] == Mean(Column(Chunks(Sample(t, k), c, len), len, j))
  {
    MeanDim1Samples(t, k);
    ColumnMeansAt(Sample(t, k), t.shape[1], Prod(t.shape[2..]), j);
  }

  /** Each sample of `x.mean(1)` adds up to the sample's total divided by the
      extent of the averaged axis. */
  lemma MeanDim1SampleSum(t: Tensor, k: nat, c: nat)
    requires t.Valid() && |t.shape| >= 2 && t.shape[1] == c && c > 0 && k < t.shape[0]
    ensures MeanDim1(t).Ok?
    ensures Sum(Sample(MeanDim1(t).value, k)) == Sum(Sample(t, k)) / (c as real)
  {
    MeanDim1Samples(t, k);
    ColumnMeansSum(Sample(t, k), t.shape[1], Prod(t.shape[2..]));
  }

  // ---------------------------------------------------------------- the reductions of the index

  /** `x.mean(1).mean(1).mean(1)`, the non-averaged reduction as written. */
  function ReduceAsWritten(t: Tensor): (r: Result<Tensor>)
    requires t.Valid()
    ensures r.Ok? ==> r.value.Valid() && |t.shape| >= 4 && r.value.shape == [t.shape[0]] + t.shape[4..]
  {
    var a :- MeanDim1(t);
    assert a.shape[1..] == t.shape[2..];
    var b :- MeanDim1(a);
    assert b.shape[1..] == t.shape[3..];
    MeanDim1(b)
  }

  /** The mean of every sample, the per-sample index the reduction is meant to
      give. A tensor without axes has no samples and raises; an empty sample
      gives NaN. */
  function SampleMeans(t: Tensor): (r: Result<Tensor>)
    requires t.Valid()
    ensures r.Err? <==> |t.shape| == 0 || (t.shape[0] > 0 && Prod(t.shape[1..]) == 0)
    ensures r.Err? ==> (r.error == ShapeMismatch <==> |t.shape| == 0)
    ensures r.Ok? ==> r.value.Valid() && r.value.shape == [t.shape[0]]
    ensures r.Ok? ==> forall k :: 0 <= k < t.shape[0] ==>
      r.value.data[k] == Sum(Sample(t, k)) / (Prod(t.shape[1..]) as real)
  {
    if |t.shape| == 0 then Err(ShapeMismatch)
    else
      var n, len := t.shape[0], Prod(t.shape[1..]);
      ProdCons(n, []);
      if n > 0 && len == 0 then Err(NonFinite)
      else Ok(Tensor([n], seq(n, k requires 0 <= k < n => Mean(Sample(t, k)))))
  }

  /** For a four-dimensional map with non-empty axes, three means over axis 1
      are the per-sample mean. */
  lemma ReduceAsWrittenFourDims(t: Tensor)
    requires t.Valid() && |t.shape| == 4 && t.shape[1] > 0 && t.shape[2] > 0 && t.shape[3] > 0
    ensures ReduceAsWritten(t).Ok? && SampleMeans(t).Ok?
    ensures ReduceAsWritten(t) == SampleMeans(t)
  {
    var n := t.shape[0];
    SizesOfFourDims(t.shape);
    PositiveProduct(t.shape[1], t.shape[2], t.shape[3]);
    var f := ReduceAsWritten(t).value;
    var m := SampleMeans(t).value;
    assert t.shape[4..] == [];
    assert f.shape == m.shape;
    assert |f.data| == n && |m.data| == n by { ProdCons(n, []); }
    forall k | 0 <= k < n ensures f.data[k] == m.data[k] {
      FourDimsAt(t, k);
    }
    assert f.data == m.data;
  }

  lemma FourDimsAt(t: Tensor, k: nat)
    requires t.Valid() && |t.shape| == 4 && t.shape[1] > 0 && t.shape[2] > 0 && t.shape[3] > 0
    requires k < t.shape[0]
    ensures ReduceAsWritten(t).Ok? && SampleMeans(t).Ok?
    ensures k < |ReduceAsWritten(t).value.data| && k < |SampleMeans(t).value.data|
    ensures ReduceAsWritten(t).value.data[k] == SampleMeans(t).value.data[k]
  {
    var c, h, w := t.shape[1], t.shape[2], t.shape[3];
    FourDimsSums(t, k);
    SizesOfFourDims(t.shape);
    PositiveProduct(c, h, w);
    var s0 := Sum(Sample(t, k));
    DivideThrice(s0, s0 / (c as real), (s0 / (c as real)) / (h as real), ReduceAsWritten(t).value.data[k],
                 c, h, w, h, w, Prod(t.shape[1..]), SampleMeans(t).value.data[k]);
  }

  /** The shapes after each of the three means of a four-dimensional tensor. */
  lemma FourDimsShapes(t: Tensor)
    requires t.Valid() && |t.shape| == 4 && t.shape[1] > 0 && t.shape[2] > 0 && t.shape[3] > 0
    ensures MeanDim1(t).Ok? && MeanDim1(t).value.shape == [t.shape[0], t.shape[2], t.shape[3]]
    ensures MeanDim1(MeanDim1(t).value).Ok?
    ensures MeanDim1(MeanDim1(t).value).value.shape == [t.shape[0], t.shape[3]]
    ensures MeanDim1(MeanDim1(MeanDim1(t).value).value).Ok?
    ensures ReduceAsWritten(t) == MeanDim1(MeanDim1(MeanDim1(t).value).value)
    ensures ReduceAsWritten(t).value.shape == [t.shape[0]]
  {
  }

  /** Entry `k` of the reduction as written is the total of sample `k`
      divided by each of the three averaged extents in turn. */
  lemma FourDimsSums(t: Tensor, k: nat)
    requires t.Valid() && |t.shape| == 4 && t.shape[1] > 0 && t.shape[2] > 0 && t.shape[3] > 0
    requires k < t.shape[0]
    ensures ReduceAsWritten(t).Ok? && k < |ReduceAsWritten(t).value.data|
    ensures ReduceAsWritten(t).value.data[k] ==
      ((Sum(Sample(t, k)) / (t.shape[1] as real)) / (t.shape[2] as real)) / (t.shape[3] as real)
  {
    FourDimsShapes(t);
    var a := MeanDim1(t).value;
    var b := MeanDim1(a).value;
    var f := MeanDim1(b).value;
    ProdSingle(t.shape[0]);
    MeanDim1SampleSum(t, k, t.shape[1]);
    MeanDim1SampleSum(a, k, t.shape[2]);
    MeanDim1SampleSum(b, k, t.shape[3]);
    SingleSample(f, k);
    DivideChain(Sum(Sample(t, k)), Sum(Sample(a, k)), Sum(Sample(b, k)), Sum(Sample(f, k)), f.data[k],
                t.shape[1] as real, t.shape[2] as real, t.shape[3] as real);
  }

  lemma DivideChain(s0: real, s1: real, s2: real, s3: real, e: real, c: real, h: real, w: real)
    requires c > 0.0 && h > 0.0 && w > 0.0
    requires s1 == s0 / c && s2 == s1 / h && s3 == s2 / w && e == s3
    ensures e == ((s0 / c) / h) / w
  {
  }

  lemma SizesOfFourDims(shape: seq<nat>)
    requires |shape| == 4
    ensures Prod(shape[1..]) == shape[1] * (shape[2] * shape[3])
  {
    assert shape[1..][1..] == shape[2..];
    assert shape[2..][1..] == shape[3..];
    assert shape[3..][1..] == [];
    assert Prod(shape[3..]) == shape[3];
    assert Prod(shape[2..]) == shape[2] * shape[3];
  }

  lemma PositiveProduct(c: nat, h: nat, w: nat)
    requires c > 0 && h > 0 && w > 0
    ensures c * (h * w) > 0
  {
    assert h * w > 0;
  }

  /** A sample of a one-dimensional tensor is its single entry. */
  lemma SingleSample(f: Tensor, k: nat)
    requires f.Valid() && |f.shape| == 1 && k < f.shape[0]
    ensures Prod(f.shape[1..]) == 1 && Sum(Sample(f, k)) == f.data[k]
  {
    assert f.shape == [f.shape[0]] + [] && f.shape[1..] == [];
    ProdCons(f.shape[0], []);
    ChunksAt(f.data, f.shape[0], 1, k, 0);
    var s := Sample(f, k);
    assert s == [s[0]];
    assert Sum(s) == s[0] + Sum(s[1..]);
    assert s[1..] == [];
  }

  lemma DivideThrice(s0: real, s1: real, s2: real, s3: real, c: nat, h: nat, w: nat, h': nat, w': nat, p: nat, m: real)
    requires c > 0 && h > 0 && w > 0 && p == c * (h * w) && h' == h && w' == w
    requires s1 == s0 / (c as real) && s2 == s1 / (h' as real) && s3 == s2 / (w' as real)
    requires m == s0 / (p as real)
    ensures s3 == m
  {
    assert (p as real) == (c as real) * ((h as real) * (w as real));
  }

  /** A five-dimensional map keeps its last axis: the result is indexed by
      sample and by the last spatial axis. */
  lemma ReduceAsWrittenFiveDims(t: Tensor)
    requires t.Valid() && |t.shape| == 5 && t.shape[1] > 0 && t.shape[2] > 0 && t.shape[3] > 0
    ensures ReduceAsWritten(t).Ok?
    ensures ReduceAsWritten(t).value.shape == [t.shape[0], t.shape[4]]
  {
    var a := MeanDim1(t).value;
    var b := MeanDim1(a).value;
    assert a.shape == [t.shape[0], t.shape[2], t.shape[3], t.shape[4]];
    assert b.shape == [t.shape[0], t.shape[3], t.shape[4]];
  }

  /** A map of shape `(1, 1, 1, 1, 2)` reduces to two values as written, but
      to the one value 0.5 as a per-sample index. */
  lemma ReduceAsWrittenKeepsLastAxis()
    ensures var t := Tensor([1, 1, 1, 1, 2], [0.0, 1.0]);
      t.Valid() && ReduceAsWritten(t).Ok? && ReduceAsWritten(t).value.shape == [1, 2] &&
      SampleMeans(t).Ok? && SampleMeans(t).value == Tensor([1], [0.5])
  {
    var t := Tensor([1, 1, 1, 1, 2], [0.0, 1.0]);
    SizesOfFourDims([1, 1, 1, 2]);
    assert Prod(t.shape) == 2 && t.shape[1..] == [1, 1, 1, 2];
    ReduceAsWrittenFiveDims(t);
    var m := SampleMeans(t).value;
    assert Sample(t, 0) == t.data by { SingleChunk(t.data); }
    assert Sum(t.data) == 1.0 by {
      assert t.data[1..] == [1.0];
      assert [1.0][1..] == [];
    }
    assert m.data[0] * 2.0 == 1.0;
    assert m.data == [0.5];
  }
}
