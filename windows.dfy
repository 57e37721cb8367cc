/** The Gaussian windows of CNN-Baseline/utils/evaluation_functions.py:
    a normalized one-dimensional profile and its two- and three-dimensional
    outer products, one copy per channel. The exponential is given. */
module Windows {
  import opened Results
  import opened RealSeq
  import opened Tensors

  /** The standard deviation `create_window` and `create_window_3D` use. */
  const SIGMA: real := 1.5

  /** What the windows need of the exponential: it is positive everywhere. */
  ghost predicate PositiveExp(exp: real -> real)
  {
    forall x :: exp(x) > 0.0
  }

  /** The exponent `-(x - w // 2) ** 2 / (2 * sigma ** 2)` of entry `x`. */
  function Exponent(w: nat, sigma: real, x: nat): real
    requires sigma != 0.0
  {
    GaussArg(x as int - w / 2, sigma)
  }

  /** `-d ** 2 / (2 * sigma ** 2)` for the offset `d` from the centre. */
  function GaussArg(d: int, sigma: real): real
    requires sigma != 0.0
  {
    assert sigma * sigma > 0.0;
    -((d * d) as real) / (2.0 * (sigma * sigma))
  }

  /** The profile before normalization. */
  function Profile(w: nat, sigma: real, exp: real -> real): (r: seq<real>)
    requires sigma != 0.0
    ensures |r| == w
    ensures forall x :: 0 <= x < w ==> r[x] == exp(Exponent(w, sigma, x))
  {
    seq(w, x requires 0 <= x < w => exp(Exponent(w, sigma, x)))
  }

  lemma {:induction false} SumPositive(s: seq<real>)
    requires |s| > 0 && forall i :: 0 <= i < |s| ==> s[i] > 0.0
    ensures Sum(s) > 0.0
  {
    SumNonnegZero(s);
    assert !AllEqual(s, 0.0) by {
      assert s[0] != 0.0;
    }
  }

  /** Dividing positive entries by their positive total gives positive
      entries summing to one. */
  lemma Normalized(p: seq<real>)
    requires |p| > 0 && forall i :: 0 <= i < |p| ==> p[i] > 0.0
    ensures Sum(p) > 0.0
    ensures Sum(Scale(p, 1.0 / Sum(p))) == 1.0
    ensures forall i :: 0 <= i < |p| ==> Scale(p, 1.0 / Sum(p))[i] == p[i] / Sum(p) > 0.0
  {
    SumPositive(p);
    NormalizedSum(p, Sum(p));
    NormalizedEntries(p, Sum(p));
  }

  lemma NormalizedSum(p: seq<real>, total: real)
    requires total == Sum(p) && total > 0.0
    ensures Sum(Scale(p, 1.0 / total)) == 1.0
  {
    SumScale(p, 1.0 / total);
    Reciprocal(total);
  }

  lemma Reciprocal(total: real)
    requires total > 0.0
    ensures (1.0 / total) * total == 1.0
  {
  }

  lemma NormalizedEntries(p: seq<real>, total: real)
    requires total > 0.0 && forall i :: 0 <= i < |p| ==> p[i] > 0.0
    ensures forall i :: 0 <= i < |p| ==> Scale(p, 1.0 / total)[i] == p[i] / total > 0.0
  {
    forall i | 0 <= i < |p| ensures Scale(p, 1.0 / total)[i] == p[i] / total > 0.0 {
      DivideByPositive(p[i], total);
    }
  }

  lemma DivideByPositive(e: real, total: real)
    requires e > 0.0 && total > 0.0
    ensures (1.0 / total) * e == e / total > 0.0
  {
  }

  /** `gaussian(window_size, sigma)`: `w` positive entries summing to one, each
      proportional to the exponential of its exponent. A zero `sigma` divides
      by zero and raises. */
  function Gaussian(w: nat, sigma: real, exp: real -> real): (r: Result<seq<real>>)
    requires PositiveExp(exp)
    ensures r.Err? <==> sigma == 0.0
    ensures r.Err? ==> r.error == InvalidValue
    ensures r.Ok? ==> |r.value| == w
    ensures r.Ok? && w > 0 ==> Sum(r.value) == 1.0
    ensures r.Ok? && w > 0 ==> Sum(Profile(w, sigma, exp)) > 0.0 && forall x :: 0 <= x < w ==>
      r.value[x] > 0.0 && r.value[x] == exp(Exponent(w, sigma, x)) / Sum(Profile(w, sigma, exp))
  {
    if sigma == 0.0 then Err(InvalidValue)
    else if w == 0 then Ok([])
    else
      var p := Profile(w, sigma, exp);
      Normalized(p);
      Ok(Scale(p, 1.0 / Sum(p)))
  }

  /** Entry `x` depends only on `(x - w // 2) ** 2`, so for an odd size the
      profile is mirror-symmetric about its centre. */
  lemma GaussianSymmetric(w: nat, sigma: real, exp: real -> real)
    requires PositiveExp(exp) && sigma != 0.0 && w % 2 == 1
    ensures forall x :: 0 <= x < w ==> Gaussian(w, sigma, exp).value[x] == Gaussian(w, sigma, exp).value[w - 1 - x]
  {
    forall x | 0 <= x < w ensures Exponent(w, sigma, x) == Exponent(w, sigma, w - 1 - x) {
      assert w == 2 * (w / 2) + 1;
      var d := x as int - w / 2;
      var e := (w - 1 - x) as int - w / 2;
      assert e == -d;
      assert e * e == d * d;
    }
  }

  // ---------------------------------------------------------------- outer products

  /** `col.mm(row)` for a column `col` and a row `row`, by rows: row `i` is
      `col[i] * row`. */
  function Product(col: seq<real>, row: seq<real>): (r: seq<seq<real>>)
    ensures |r| == |col| && Uniform(r, |row|)
    ensures forall i :: 0 <= i < |col| ==> r[i] == Scale(row, col[i])
  {
    seq(|col|, i requires 0 <= i < |col| => Scale(row, col[i]))
  }

  /** `g.unsqueeze(1).mm(g.unsqueeze(1).t())`, the two-dimensional plane. */
  function Outer(g: seq<real>): seq<seq<real>>
  {
    Product(g, g)
  }

  /** `g.mm(Outer(g).reshape(1, -1))`, the cube by rows of length `w * w`. */
  function Outer3(g: seq<real>): seq<seq<real>>
  {
    Product(g, Flat(Outer(g)))
  }

  /** Entry `[i][j]` of the plane is `g[i] * g[j]`. */
  lemma OuterEntries(g: seq<real>)
    ensures |Outer(g)| == |g| && Uniform(Outer(g), |g|)
    ensures forall i, j :: 0 <= i < |g| && 0 <= j < |g| ==> Outer(g)[i][j] == g[i] * g[j]
  {
  }

  /** Row `i` of `Product(col, row)` adds up to `col[i]` times the sum of `row`. */
  lemma ProductRowSums(col: seq<real>, row: seq<real>)
    ensures BlockSums(Product(col, row)) == Scale(col, Sum(row))
  {
    forall i | 0 <= i < |col| ensures BlockSums(Product(col, row))[i] == Scale(col, Sum(row))[i] {
      ProductRowSum(col, row, i);
    }
  }

  lemma ProductRowSum(col: seq<real>, row: seq<real>, i: nat)
    requires i < |col|
    ensures Sum(Product(col, row)[i]) == Scale(col, Sum(row))[i]
  {
    ProductRowSumLeft(col, row, i);
  }

  lemma ProductRowSumLeft(col: seq<real>, row: seq<real>, i: nat)
    requires i < |col|
    ensures Sum(Product(col, row)[i]) == col[i] * Sum(row)
  {
    SumScale(row, col[i]);
  }

  /** The entries of an outer product add up to the product of the sums. */
  lemma OuterSum(g: seq<real>)
    ensures Sum(Flat(Outer(g))) == Sum(g) * Sum(g)
  {
    SumFlat(Outer(g));
    ProductRowSums(g, g);
    SumScale(g, Sum(g));
  }

  /** The entries of the cube add up to the cube of the sum. */
  lemma Outer3Sum(g: seq<real>)
    ensures Sum(Flat(Outer3(g))) == Sum(g) * (Sum(g) * Sum(g))
  {
    var plane := Flat(Outer(g));
    SumFlat(Outer3(g));
    ProductRowSums(g, plane);
    SumScale(g, Sum(plane));
    OuterSum(g);
    CubeOfSum(Sum(g), Sum(plane));
  }

  lemma CubeOfSum(s: real, p: real)
    requires p == s * s
    ensures p * s == s * (s * s)
  {
  }

  lemma MulLeft(a: real, x: real, y: real)
    requires x == y
    ensures a * x == a * y
  {
  }

  // ---------------------------------------------------------------- windows

  lemma ProdWindow(channel: nat, w: nat)
    ensures Prod([channel, 1, w, w]) == channel * (w * w)
    ensures Prod([channel, 1, w, w, w]) == channel * (w * (w * w))
  {
    assert [channel, 1, w, w][1..] == [1, w, w];
    assert [1, w, w][1..] == [w, w];
    assert [w, w][1..] == [w];
    assert [w][1..] == [];
    assert Prod([w]) == w;
    assert Prod([w, w]) == w * w;
    assert Prod([1, w, w]) == w * w;
    assert [channel, 1, w, w, w][1..] == [1, w, w, w];
    assert [1, w, w, w][1..] == [w, w, w];
    assert [w, w, w][1..] == [w, w];
    assert Prod([w, w, w]) == w * (w * w);
    assert Prod([1, w, w, w]) == w * (w * w);
  }

  /** The data of `_2D_window.expand(channel, 1, w, w)` for the profile `g`:
      one copy of the plane per channel. */
  function Window2(g: seq<real>, channel: nat): (r: seq<real>)
    ensures |r| == channel * (|g| * |g|)
  {
    FlatLength(Outer(g), |g|);
    FlatCopies(Flat(Outer(g)), channel);
    Flat(Copies(Flat(Outer(g)), channel))
  }

  /** The data of `_3D_window.expand(channel, 1, w, w, w)`: one copy of the
      cube per channel. */
  function Window3(g: seq<real>, channel: nat): (r: seq<real>)
    ensures |r| == channel * (|g| * (|g| * |g|))
  {
    FlatLength(Outer(g), |g|);
    FlatLength(Outer3(g), |g| * |g|);
    FlatCopies(Flat(Outer3(g)), channel);
    Flat(Copies(Flat(Outer3(g)), channel))
  }

  /** `create_window(window_size, channel)`: a `(channel, 1, w, w)` tensor. */
  function CreateWindow(w: nat, channel: nat, exp: real -> real): (r: Tensor)
    requires PositiveExp(exp)
    ensures r.Valid() && r.shape == [channel, 1, w, w]
    ensures r.data == Window2(Gaussian(w, SIGMA, exp).value, channel)
  {
    ProdWindow(channel, w);
    Tensor([channel, 1, w, w], Window2(Gaussian(w, SIGMA, exp).value, channel))
  }

  /** `create_window_3D(window_size, channel)`: a `(channel, 1, w, w, w)` tensor. */
  function CreateWindow3D(w: nat, channel: nat, exp: real -> real): (r: Tensor)
    requires PositiveExp(exp)
    ensures r.Valid() && r.shape == [channel, 1, w, w, w]
    ensures r.data == Window3(Gaussian(w, SIGMA, exp).value, channel)
  {
    ProdWindow(channel, w);
    Tensor([channel, 1, w, w, w], Window3(Gaussian(w, SIGMA, exp).value, channel))
  }

  /** The block of channel `c`. */
  function ChannelBlock(data: seq<real>, channel: nat, size: nat, c: nat): seq<real>
    requires |data| == channel * size && c < channel
  {
    Chunks(data, channel, size)[c]
  }

  /** Entry `[c][0][i][j]` of a two-dimensional window. */
  function Entry2(data: seq<real>, channel: nat, w: nat, c: nat, i: nat, j: nat): real
    requires |data| == channel * (w * w) && c < channel && i < w && j < w
  {
    Chunks(ChannelBlock(data, channel, w * w, c), w, w)[i][j]
  }

  /** Entry `[c][0][i][j][k]` of a three-dimensional window. */
  function Entry3(data: seq<real>, channel: nat, w: nat, c: nat, i: nat, j: nat, k: nat): real
    requires |data| == channel * (w * (w * w)) && c < channel && i < w && j < w && k < w
  {
    Chunks(Chunks(ChannelBlock(data, channel, w * (w * w), c), w, w * w)[i], w, w)[j][k]
  }

  // ---------------------------------------------------------------- two-dimensional windows

  /** Every channel of a two-dimensional window holds the plane. */
  lemma Window2Blocks(g: seq<real>, channel: nat)
    ensures |Flat(Outer(g))| == |g| * |g|
    ensures forall c :: 0 <= c < channel ==> ChannelBlock(Window2(g, channel), channel, |g| * |g|, c) == Flat(Outer(g))
  {
    FlatLength(Outer(g), |g|);
    FlatCopies(Flat(Outer(g)), channel);
  }

  /** Entry `[c][0][i][j]` of a two-dimensional window is `g[i] * g[j]`. */
  lemma Window2Entries(g: seq<real>, channel: nat)
    ensures forall c, i, j :: 0 <= c < channel && 0 <= i < |g| && 0 <= j < |g| ==>
      Entry2(Window2(g, channel), channel, |g|, c, i, j) == g[i] * g[j]
  {
    Window2Blocks(g, channel);
    OuterEntries(g);
    ChunksFlat(Outer(g), |g|);
  }

  /** A two-dimensional window is symmetric under swapping its two axes. */
  lemma Window2Symmetric(g: seq<real>, channel: nat)
    ensures forall c, i, j :: 0 <= c < channel && 0 <= i < |g| && 0 <= j < |g| ==>
      Entry2(Window2(g, channel), channel, |g|, c, i, j) == Entry2(Window2(g, channel), channel, |g|, c, j, i)
  {
    Window2Entries(g, channel);
  }

  /** All channels of a two-dimensional window are the same, and each adds up
      to the square of the profile's sum. */
  lemma Window2Channels(g: seq<real>, channel: nat)
    ensures forall c, d :: 0 <= c < channel && 0 <= d < channel ==>
      ChannelBlock(Window2(g, channel), channel, |g| * |g|, c) == ChannelBlock(Window2(g, channel), channel, |g| * |g|, d)
    ensures forall c :: 0 <= c < channel ==>
      Sum(ChannelBlock(Window2(g, channel), channel, |g| * |g|, c)) == Sum(g) * Sum(g)
  {
    Window2Blocks(g, channel);
    OuterSum(g);
  }

  // ---------------------------------------------------------------- three-dimensional windows

  /** Every row scaled by `a`. */
  function ScaleRows(rows: seq<seq<real>>, a: real): (r: seq<seq<real>>)
    ensures |r| == |rows|
    ensures forall j :: 0 <= j < |rows| ==> r[j] == Scale(rows[j], a)
  {
    seq(|rows|, j requires 0 <= j < |rows| => Scale(rows[j], a))
  }

  lemma ScaleAppend(x: seq<real>, y: seq<real>, a: real)
    ensures Scale(x + y, a) == Scale(x, a) + Scale(y, a)
  {
    assert forall i :: 0 <= i < |x| + |y| ==> Scale(x + y, a)[i] == (Scale(x, a) + Scale(y, a))[i];
  }

  /** Scaling a concatenation scales each of its blocks. */
  lemma {:induction false} FlatScaleRows(rows: seq<seq<real>>, a: real)
    ensures Flat(ScaleRows(rows, a)) == Scale(Flat(rows), a)
  {
    if |rows| > 0 {
      assert ScaleRows(rows, a)[1..] == ScaleRows(rows[1..], a);
      FlatScaleRows(rows[1..], a);
      ScaleAppend(rows[0], Flat(rows[1..]), a);
    }
  }

  /** Row `i` of the cube, viewed as a `w × w` plane, is `g[i]` times the plane. */
  lemma CubeRowPlane(g: seq<real>, i: nat)
    requires i < |g|
    ensures |Flat(Outer(g))| == |g| * |g|
    ensures |Outer3(g)[i]| == |g| * |g|
    ensures Chunks(Outer3(g)[i], |g|, |g|) == ScaleRows(Outer(g), g[i])
  {
    var w := |g|;
    var scaled := ScaleRows(Outer(g), g[i]);
    FlatLength(Outer(g), w);
    FlatScaleRows(Outer(g), g[i]);
    assert Uniform(scaled, w);
    ChunksFlat(scaled, w);
  }

  /** Hence entry `[i][j][k]` of the cube is `g[i] * (g[j] * g[k])`. */
  lemma CubeRow(g: seq<real>, i: nat, j: nat, k: nat)
    requires i < |g| && j < |g| && k < |g|
    ensures |Flat(Outer(g))| == |g| * |g|
    ensures |Outer3(g)[i]| == |g| * |g|
    ensures Chunks(Outer3(g)[i], |g|, |g|)[j][k] == g[i] * (g[j] * g[k])
  {
    CubeRowPlane(g, i);
    CubeEntry(g, i, j, k);
  }

  /** Kept apart from the length arithmetic above, which the products would
      otherwise be mixed with. */
  lemma CubeEntry(g: seq<real>, i: nat, j: nat, k: nat)
    requires i < |g| && j < |g| && k < |g|
    ensures ScaleRows(Outer(g), g[i])[j][k] == g[i] * (g[j] * g[k])
  {
    ScaledEntry(Outer(g), g[i], j, k);
    MulLeft(g[i], Outer(g)[j][k], g[j] * g[k]);
  }

  lemma ScaledEntry(rows: seq<seq<real>>, a: real, j: nat, k: nat)
    requires j < |rows| && k < |rows[j]|
    ensures ScaleRows(rows, a)[j][k] == a * rows[j][k]
  {
  }

  /** Every channel of a three-dimensional window, viewed as `w` rows of
      `w * w`, is the cube. */
  lemma Window3Blocks(g: seq<real>, channel: nat)
    ensures |Flat(Outer(g))| == |g| * |g| && |Flat(Outer3(g))| == |g| * (|g| * |g|)
    ensures forall c :: 0 <= c < channel ==>
      ChannelBlock(Window3(g, channel), channel, |g| * (|g| * |g|), c) == Flat(Outer3(g))
    ensures Chunks(Flat(Outer3(g)), |g|, |g| * |g|) == Outer3(g)
  {
    FlatLength(Outer(g), |g|);
    FlatLength(Outer3(g), |g| * |g|);
    FlatCopies(Flat(Outer3(g)), channel);
    ChunksFlat(Outer3(g), |g| * |g|);
  }

  /** Entry `[c][0][i][j][k]` of a three-dimensional window is
      `g[i] * g[j] * g[k]` in every channel. */
  lemma Window3Entries(g: seq<real>, channel: nat)
    ensures forall c, i, j, k :: 0 <= c < channel && 0 <= i < |g| && 0 <= j < |g| && 0 <= k < |g| ==>
      Entry3(Window3(g, channel), channel, |g|, c, i, j, k) == g[i] * (g[j] * g[k])
  {
    Window3Blocks(g, channel);
    forall c, i, j, k | 0 <= c < channel && 0 <= i < |g| && 0 <= j < |g| && 0 <= k < |g|
      ensures Entry3(Window3(g, channel), channel, |g|, c, i, j, k) == g[i] * (g[j] * g[k])
    {
      CubeRow(g, i, j, k);
    }
  }

  /** A three-dimensional window is invariant under every permutation of its axes. */
  lemma Window3Symmetric(g: seq<real>, channel: nat)
    ensures var data := Window3(g, channel);
      forall c, i, j, k :: 0 <= c < channel && 0 <= i < |g| && 0 <= j < |g| && 0 <= k < |g| ==>
        var e := Entry3(data, channel, |g|, c, i, j, k);
        e == Entry3(data, channel, |g|, c, i, k, j) && e == Entry3(data, channel, |g|, c, j, i, k) &&
        e == Entry3(data, channel, |g|, c, j, k, i) && e == Entry3(data, channel, |g|, c, k, i, j) &&
        e == Entry3(data, channel, |g|, c, k, j, i)
  {
    Window3Entries(g, channel);
  }

  /** All channels of a three-dimensional window are the same, and each adds
      up to the cube of the profile's sum. */
  lemma Window3Channels(g: seq<real>, channel: nat)
    ensures forall c, d :: 0 <= c < channel && 0 <= d < channel ==>
      ChannelBlock(Window3(g, channel), channel, |g| * (|g| * |g|), c) ==
      ChannelBlock(Window3(g, channel), channel, |g| * (|g| * |g|), d)
    ensures forall c :: 0 <= c < channel ==>
      Sum(ChannelBlock(Window3(g, channel), channel, |g| * (|g| * |g|), c)) == Sum(g) * (Sum(g) * Sum(g))
  {
    Window3Blocks(g, channel);
    Outer3Sum(g);
  }

  // ---------------------------------------------------------------- the Gaussian windows

  /** The windows built from the Gaussian profile add up to one per channel. */
  lemma GaussianWindowsSumToOne(w: nat, channel: nat, exp: real -> real)
    requires PositiveExp(exp) && w > 0
    ensures forall c :: 0 <= c < channel ==> Sum(ChannelBlock(CreateWindow(w, channel, exp).data, channel, w * w, c)) == 1.0
    ensures forall c :: 0 <= c < channel ==>
      Sum(ChannelBlock(CreateWindow3D(w, channel, exp).data, channel, w * (w * w), c)) == 1.0
  {
    var g := Gaussian(w, SIGMA, exp).value;
    Window2Channels(g, channel);
    Window3Channels(g, channel);
  }
}
