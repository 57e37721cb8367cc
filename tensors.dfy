/** Tensors as a flat row-major sequence of reals plus a shape, and the
    block structure (`view`, `reshape`, `cat`) the losses rely on. */
module Tensors {
  import opened RealSeq

  /** Number of elements of a tensor of the given shape. */
  function Prod(dims: seq<nat>): nat
  {
    if |dims| == 0 then 1 else dims[0] * Prod(dims[1..])
  }

  datatype Tensor = Tensor(shape: seq<nat>, data: seq<real>) {
    predicate Valid() { |data| == Prod(shape) }
  }

  /** A real-valued tensor of the given shape filled with `v`. */
  function Full(shape: seq<nat>, v: real): (t: Tensor)
    ensures t.Valid() && t.shape == shape && AllEqual(t.data, v)
  {
    Tensor(shape, Const(Prod(shape), v))
  }

  lemma MulSucc(n: nat, len: nat)
    requires n > 0
    ensures n * len == len + (n - 1) * len
  {
  }

  /** Splits `d` into `n` consecutive blocks of length `len` (`d.view(n, len)`). */
  function Chunks<T>(d: seq<T>, n: nat, len: nat): (r: seq<seq<T>>)
    requires |d| == n * len
    ensures |r| == n
    ensures forall i :: 0 <= i < n ==> |r[i]| == len
    decreases n
  {
    if n == 0 then []
    else
      MulSucc(n, len);
      [d[..len]] + Chunks(d[len..], n - 1, len)
  }

  lemma SingleChunk<T>(d: seq<T>)
    ensures Chunks(d, 1, |d|) == [d]
  {
    assert d[..|d|] == d;
  }

  /** Concatenates blocks (the inverse of a `view` into rows). */
  function Flat<T>(parts: seq<seq<T>>): seq<T>
  {
    if |parts| == 0 then [] else parts[0] + Flat(parts[1..])
  }

  ghost predicate Uniform<T>(parts: seq<seq<T>>, len: nat)
  {
    forall i :: 0 <= i < |parts| ==> |parts[i]| == len
  }

  lemma {:induction false} FlatLength<T>(parts: seq<seq<T>>, len: nat)
    requires Uniform(parts, len)
    ensures |Flat(parts)| == |parts| * len
  {
    if |parts| > 0 {
      FlatLength(parts[1..], len);
      MulSucc(|parts|, len);
    }
  }

  /** Block `i` of `Chunks(d, n, len)` at position `j` is `d[i * len + j]`. */
  lemma {:induction false} ChunksAt<T>(d: seq<T>, n: nat, len: nat, i: nat, j: nat)
    requires |d| == n * len && i < n && j < len
    ensures i * len + j < |d|
    ensures Chunks(d, n, len)[i][j] == d[i * len + j]
    decreases i
  {
    if i > 0 {
      ChunksTail(d, n, len, i);
      ChunksAt(d[len..], n - 1, len, i - 1, j);
      ShiftedIndex(i, len, j, (i - 1) * len + j);
    } else {
      ChunksHead(d, n, len);
    }
  }

  lemma ChunksHead<T>(d: seq<T>, n: nat, len: nat)
    requires |d| == n * len && n > 0
    ensures len <= |d| && Chunks(d, n, len)[0] == d[..len]
  {
    MulSucc(n, len);
  }

  lemma ChunksTail<T>(d: seq<T>, n: nat, len: nat, i: nat)
    requires |d| == n * len && 0 < i < n
    ensures len <= |d| && |d[len..]| == (n - 1) * len
    ensures Chunks(d, n, len)[i] == Chunks(d[len..], n - 1, len)[i - 1]
  {
    MulSucc(n, len);
  }

  lemma ShiftedIndex(i: nat, len: nat, j: nat, k: nat)
    requires i > 0 && k == (i - 1) * len + j
    ensures len + k == i * len + j
  {
    MulSucc(i, len);
  }

  lemma {:induction false} FlatChunks<T>(d: seq<T>, n: nat, len: nat)
    requires |d| == n * len
    ensures Flat(Chunks(d, n, len)) == d
    decreases n
  {
    if n > 0 {
      MulSucc(n, len);
      var r := Chunks(d, n, len);
      assert r[1..] == Chunks(d[len..], n - 1, len);
      FlatChunks(d[len..], n - 1, len);
      assert d == d[..len] + d[len..];
    } else {
      assert d == [];
    }
  }

  lemma {:induction false} ChunksFlat<T>(parts: seq<seq<T>>, len: nat)
    requires Uniform(parts, len)
    ensures |Flat(parts)| == |parts| * len
    ensures Chunks(Flat(parts), |parts|, len) == parts
  {
    FlatLength(parts, len);
    if |parts| > 0 {
      ChunksFlat(parts[1..], len);
      var f := Flat(parts);
      MulSucc(|parts|, len);
      assert f[..len] == parts[0];
      assert f[len..] == Flat(parts[1..]);
      assert Chunks(f, |parts|, len) == [parts[0]] + Chunks(Flat(parts[1..]), |parts| - 1, len);
    }
  }

  /** `n` copies of one block (`expand(n, ...)` of a single block). */
  function Copies<T>(d: seq<T>, n: nat): (r: seq<seq<T>>)
    ensures |r| == n
    ensures forall i :: 0 <= i < n ==> r[i] == d
  {
    seq(n, _ => d)
  }

  /** Viewing `n` concatenated copies of `d` as `n` blocks gives back the copies. */
  lemma FlatCopies<T>(d: seq<T>, n: nat)
    ensures |Flat(Copies(d, n))| == n * |d|
    ensures Chunks(Flat(Copies(d, n)), n, |d|) == Copies(d, n)
  {
    ChunksFlat(Copies(d, n), |d|);
  }

  /** Summing a concatenation sums its blocks. */
  lemma {:induction false} SumFlat(parts: seq<seq<real>>)
    ensures Sum(Flat(parts)) == Sum(BlockSums(parts))
  {
    if |parts| > 0 {
      SumAppend(parts[0], Flat(parts[1..]));
      SumFlat(parts[1..]);
      assert BlockSums(parts)[1..] == BlockSums(parts[1..]);
    }
  }

  /** `x.sum(-1)` of a matrix given by its rows. */
  function BlockSums(parts: seq<seq<real>>): (r: seq<real>)
    ensures |r| == |parts|
    ensures forall i :: 0 <= i < |parts| ==> r[i] == Sum(parts[i])
  {
    seq(|parts|, i requires 0 <= i < |parts| => Sum(parts[i]))
  }

  /** The elementwise sum of equally long rows (`x.sum(0)` of a matrix). */
  function ColumnSums(rows: seq<seq<real>>, len: nat): (r: seq<real>)
    requires Uniform(rows, len)
    ensures |r| == len
    decreases |rows|
  {
    if |rows| == 0 then Const(len, 0.0) else Add(rows[0], ColumnSums(rows[1..], len))
  }

  /** Column `j` of a matrix given by its rows (`x[:, j]`). */
  function Column(rows: seq<seq<real>>, len: nat, j: nat): (r: seq<real>)
    requires Uniform(rows, len) && j < len
    ensures |r| == |rows|
    ensures forall k :: 0 <= k < |rows| ==> r[k] == rows[k][j]
  {
    seq(|rows|, k requires 0 <= k < |rows| => rows[k][j])
  }

  lemma {:induction false} ColumnSumsAt(rows: seq<seq<real>>, len: nat, j: nat)
    requires Uniform(rows, len) && j < len
    ensures ColumnSums(rows, len)[j] == Sum(Column(rows, len, j))
    decreases |rows|
  {
    if |rows| > 0 {
      ColumnSumsAt(rows[1..], len, j);
      assert Column(rows, len, j)[1..] == Column(rows[1..], len, j);
    }
  }

  /** Summing all entries row by row or column by column gives the same total. */
  lemma {:induction false} SumColumnSums(rows: seq<seq<real>>, len: nat)
    requires Uniform(rows, len)
    ensures Sum(ColumnSums(rows, len)) == Sum(Flat(rows))
    decreases |rows|
  {
    if |rows| == 0 {
      SumConst(Const(len, 0.0), 0.0);
    } else {
      SumColumnSums(rows[1..], len);
      SumAdd(rows[0], ColumnSums(rows[1..], len));
      SumAppend(rows[0], Flat(rows[1..]));
    }
  }

  lemma {:induction false} FlatAllIn(parts: seq<seq<real>>, lo: real, hi: real)
    requires forall i :: 0 <= i < |parts| ==> AllIn(parts[i], lo, hi)
    ensures AllIn(Flat(parts), lo, hi)
  {
    if |parts| > 0 {
      FlatAllIn(parts[1..], lo, hi);
      var f := Flat(parts);
      assert f == parts[0] + Flat(parts[1..]);
      forall k | 0 <= k < |f| ensures lo <= f[k] <= hi {
        if k >= |parts[0]| {
          assert f[k] == Flat(parts[1..])[k - |parts[0]|];
        }
      }
    }
  }

  /** Every entry of every block of `Chunks(d, n, len)` is an entry of `d`. */
  lemma ChunksAllIn(d: seq<real>, n: nat, len: nat, lo: real, hi: real)
    requires |d| == n * len && AllIn(d, lo, hi)
    ensures forall i :: 0 <= i < n ==> AllIn(Chunks(d, n, len)[i], lo, hi)
  {
    forall i, j | 0 <= i < n && 0 <= j < len
      ensures lo <= Chunks(d, n, len)[i][j] <= hi
    {
      ChunksAt(d, n, len, i, j);
    }
  }
}
