/**
  Gathering and scattering along an axis (vllm/distributed/device_communicators/cuda_communicator.py,
  `all_gather` and `reduce_scatter`).

  A tensor is a shape and its elements in row-major order. NCCL's collectives along the first axis are
  given by their contracts; what surrounds them is index algebra. Elements are real numbers.
 */
module Collectives {
  import opened Prelude

  type Shape = seq<nat>

  type Index = seq<int>

  // ------------------------------------------------------------------
  // Row-major order
  // ------------------------------------------------------------------

  function Size(shape: Shape): nat
    decreases |shape|
  {
    if shape == [] then 1 else shape[0] * Size(shape[1..])
  }

  predicate InBounds(shape: Shape, idx: Index) {
    |idx| == |shape| && forall i :: 0 <= i < |idx| ==> 0 <= idx[i] < shape[i]
  }

  function Times(a: nat, b: nat): nat {
    MulMonotone(0, a, b);
    a * b
  }

  /** The place of an index in row-major order. */
  function Ravel(shape: Shape, idx: Index): int
    requires |idx| == |shape|
    decreases |shape|
  {
    if shape == [] then 0 else idx[0] * Size(shape[1..]) + Ravel(shape[1..], idx[1..])
  }

  /** The index at a place. */
  function Unravel(shape: Shape, k: int): (idx: Index)
    requires 0 <= k < Size(shape)
    ensures InBounds(shape, idx) && Ravel(shape, idx) == k
    decreases |shape|
  {
    if shape == [] then []
    else
      var below := Size(shape[1..]);
      PositiveFactor(shape[0], below);
      QuotientBelow(k, below, shape[0]);
      [k / below] + Unravel(shape[1..], k % below)
  }

  lemma PositiveFactor(a: int, b: int)
    requires a >= 0 && b >= 0 && a * b > 0
    ensures a > 0 && b > 0
  {
  }

  lemma QuotientBelow(k: int, m: int, n: int)
    requires m > 0 && 0 <= k < n * m
    ensures 0 <= k / m < n && 0 <= k % m < m && k == k / m * m + k % m
  {
    if k / m >= n {
      MulMonotone(n, k / m, m);
      assert false;
    }
  }

  lemma MulMonotone(a: int, b: int, m: int)
    requires m >= 0 && a <= b
    ensures a * m <= b * m
  {
    NonNegative(b - a, m);
    DistributeMinus(a, b, m);
  }

  lemma NonNegative(a: int, b: int)
    requires a >= 0 && b >= 0
    ensures a * b >= 0
  {
  }

  lemma DistributeMinus(a: int, b: int, m: int)
    ensures (b - a) * m == b * m - a * m
  {
  }

  lemma DivModUnique(w: int, m: int, j: int)
    requires 0 <= j < m
    ensures (w * m + j) / m == w && (w * m + j) % m == j
  {
    var q := (w * m + j) / m;
    assert (q - w) * m == j - (w * m + j) % m;
    if q > w {
      MulMonotone(1, q - w, m);
    } else if q < w {
      MulMonotone(q - w, -1, m);
    }
  }

  lemma {:induction false} RavelInRange(shape: Shape, idx: Index)
    requires InBounds(shape, idx)
    ensures 0 <= Ravel(shape, idx) < Size(shape)
    decreases |shape|
  {
    if shape != [] {
      var below := Size(shape[1..]);
      RavelInRange(shape[1..], idx[1..]);
      MulMonotone(0, idx[0], below);
      MulMonotone(idx[0] + 1, shape[0], below);
      assert (idx[0] + 1) * below == idx[0] * below + below;
    }
  }

  lemma {:induction false} SizeSplit(a: Shape, b: Shape)
    ensures Size(a + b) == Size(a) * Size(b)
    decreases |a|
  {
    if a == [] {
      assert a + b == b;
    } else {
      assert (a + b)[1..] == a[1..] + b;
      SizeSplit(a[1..], b);
      MulAssoc(a[0], Size(a[1..]), Size(b));
    }
  }

  lemma MulAssoc(a: int, b: int, c: int)
    ensures a * (b * c) == (a * b) * c
  {
  }

  lemma SplitPlace(i: int, m: int, s: int, below: int, rest: int)
    ensures (i * m + below) * s + rest == i * (m * s) + (below * s + rest)
  {
    MulAssoc(i, m, s);
    DistributePlus(i * m, below, s);
  }

  lemma DistributePlus(a: int, b: int, m: int)
    ensures (a + b) * m == a * m + b * m
  {
  }

  // The place of a split index.
  lemma {:induction false} RavelSplit(a: Shape, b: Shape, i: Index, j: Index)
    requires |i| == |a| && |j| == |b|
    ensures Ravel(a + b, i + j) == Ravel(a, i) * Size(b) + Ravel(b, j)
    decreases |a|
  {
    if a == [] {
      assert a + b == b && i + j == j;
    } else {
      assert (a + b)[1..] == a[1..] + b && (i + j)[1..] == i[1..] + j;
      RavelSplit(a[1..], b, i[1..], j);
      SizeSplit(a[1..], b);
      SplitPlace(i[0], Size(a[1..]), Size(b), Ravel(a[1..], i[1..]), Ravel(b, j));
    }
  }

  // ------------------------------------------------------------------
  // Tensors
  // ------------------------------------------------------------------

  datatype Tensor = Tensor(shape: Shape, data: seq<real>) {
    ghost predicate Valid() { |data| == Size(shape) }

    ghost function At(idx: Index): real
      requires Valid() && InBounds(shape, idx)
    {
      RavelInRange(shape, idx);
      data[Ravel(shape, idx)]
    }
  }

  function Reshape(t: Tensor, shape: Shape): (r: Tensor)
    requires |t.data| == Size(shape)
    ensures r.Valid() && r.shape == shape
  {
    Tensor(shape, t.data)
  }

  /** `movedim(0, dim)` on a shape or an index: the first entry moves to place dim. */
  function Move<T>(s: seq<T>, dim: nat): (r: seq<T>)
    requires dim < |s|
    ensures |r| == |s|
  {
    s[1..dim + 1] + [s[0]] + s[dim + 1..]
  }

  /** The opposite move. */
  function MoveBack<T>(s: seq<T>, dim: nat): (r: seq<T>)
    requires dim < |s|
    ensures |r| == |s|
  {
    [s[dim]] + s[..dim] + s[dim + 1..]
  }

  lemma MoveInBounds(shape: Shape, idx: Index, dim: nat)
    requires dim < |shape| && |idx| == |shape|
    ensures InBounds(Move(shape, dim), idx) <==> InBounds(shape, MoveBack(idx, dim))
  {
    var moved, back := Move(shape, dim), MoveBack(idx, dim);
    if InBounds(moved, idx) {
      forall i | 0 <= i < |back|
        ensures 0 <= back[i] < shape[i]
      {
        assert i == 0 ==> back[i] == idx[dim] && shape[i] == moved[dim];
        assert 0 < i <= dim ==> back[i] == idx[i - 1] && shape[i] == moved[i - 1];
      }
    }
    if InBounds(shape, back) {
      forall i | 0 <= i < |idx|
        ensures 0 <= idx[i] < moved[i]
      {
        assert i == dim ==> idx[i] == back[0] && moved[i] == shape[0];
        assert i < dim ==> idx[i] == back[i + 1] && moved[i] == shape[i + 1];
        assert i > dim ==> idx[i] == back[i] && moved[i] == shape[i];
      }
    }
  }

  /** `t.movedim(0, dim)`, made contiguous. */
  function MoveDim(t: Tensor, dim: nat): (r: Tensor)
    requires t.Valid() && dim < |t.shape|
    ensures r.Valid() && r.shape == Move(t.shape, dim)
  {
    var shape := Move(t.shape, dim);
    Tensor(shape, seq(Size(shape), k requires 0 <= k < Size(shape) =>
      MoveInBounds(t.shape, Unravel(shape, k), dim);
      RavelInRange(t.shape, MoveBack(Unravel(shape, k), dim));
      t.data[Ravel(t.shape, MoveBack(Unravel(shape, k), dim))]))
  }

  lemma DivModOf(k: int, w: int, m: int, j: int)
    requires 0 <= j < m && k == w * m + j
    ensures k / m == w && k % m == j
  {
    DivModUnique(w, m, j);
  }

  lemma UnravelCons(shape: Shape, w: int, v: int, k: int)
    requires shape != [] && 0 <= v < Size(shape[1..]) && 0 <= k < Size(shape) && k == w * Size(shape[1..]) + v
    ensures Unravel(shape, k) == [w] + Unravel(shape[1..], v)
  {
    DivModOf(k, w, Size(shape[1..]), v);
  }

  lemma {:induction false} UnravelRavel(shape: Shape, idx: Index)
    requires InBounds(shape, idx)
    ensures 0 <= Ravel(shape, idx) < Size(shape) && Unravel(shape, Ravel(shape, idx)) == idx
    decreases |shape|
  {
    RavelInRange(shape, idx);
    if shape != [] {
      RavelInRange(shape[1..], idx[1..]);
      UnravelRavel(shape[1..], idx[1..]);
      UnravelCons(shape, idx[0], Ravel(shape[1..], idx[1..]), Ravel(shape, idx));
      assert idx == [idx[0]] + idx[1..];
    }
  }

  lemma MoveDimAt(t: Tensor, dim: nat, idx: Index)
    requires t.Valid() && dim < |t.shape| && InBounds(Move(t.shape, dim), idx)
    ensures InBounds(t.shape, MoveBack(idx, dim)) && MoveDim(t, dim).At(idx) == t.At(MoveBack(idx, dim))
  {
    MoveInBounds(t.shape, idx, dim);
    UnravelRavel(Move(t.shape, dim), idx);
  }

  lemma Cons(x: nat, b: Shape, i: int, k: Index)
    requires |k| == |b|
    ensures Size([x] + b) == x * Size(b) && Ravel([x] + b, [i] + k) == i * Size(b) + Ravel(b, k)
  {
    assert ([x] + b)[1..] == b && ([i] + k)[1..] == k;
  }

  // Only the size of the last axes, and the place in them, matters for the place in all.
  lemma SameTail(a: Shape, i: Index, b: Shape, j: Index, c: Shape, k: Index)
    requires |i| == |a| && |j| == |b| && |k| == |c|
    requires Size(b) == Size(c) && Ravel(b, j) == Ravel(c, k)
    ensures Size(a + b) == Size(a + c) && Ravel(a + b, i + j) == Ravel(a + c, i + k)
  {
    SizeSplit(a, b);
    SizeSplit(a, c);
    RavelSplit(a, b, i, j);
    RavelSplit(a, c, i, k);
  }

  lemma MergePlaces(n: int, w: int, j: int, s: int, rest: int, x: int)
    requires x == w * n + j
    ensures x * s + rest == w * (n * s) + (j * s + rest)
  {
    SplitPlace(w, n, s, j, rest);
  }

  lemma MergeSizes(m: int, n: int, s: int, p: int)
    requires p == m * n
    ensures p * s == m * (n * s)
  {
    MulAssoc(m, n, s);
  }

  lemma MergeFirst(m: nat, n: nat, b: Shape, w: int, j: int, k: Index, p: nat, x: int)
    requires |k| == |b| && p == m * n && x == w * n + j
    ensures Size([p] + b) == Size([m] + ([n] + b))
    ensures Ravel([p] + b, [x] + k) == Ravel([m] + ([n] + b), [w] + ([j] + k))
  {
    Cons(p, b, x, k);
    Cons(n, b, j, k);
    Cons(m, [n] + b, w, [j] + k);
    MergeSizes(m, n, Size(b), p);
    MergePlaces(n, w, j, Size(b), Ravel(b, k), x);
  }

  lemma Grouped<T>(a: seq<T>, p: T, m: T, n: T, b: seq<T>)
    ensures a + [p] + b == a + ([p] + b) && a + [m, n] + b == a + ([m] + ([n] + b))
  {
  }

  // Merging two neighbouring axes by reshaping keeps the place of every element.
  lemma MergeAxes(a: Shape, m: nat, n: nat, b: Shape, i: Index, w: int, j: int, k: Index, p: nat, x: int)
    requires |i| == |a| && |k| == |b| && p == m * n && x == w * n + j
    ensures Size(a + [p] + b) == Size(a + [m, n] + b)
    ensures Ravel(a + [p] + b, i + [x] + k) == Ravel(a + [m, n] + b, i + [w, j] + k)
  {
    MergeFirst(m, n, b, w, j, k, p, x);
    SameTail(a, i, [p] + b, [x] + k, [m] + ([n] + b), [w] + ([j] + k));
    Grouped(a, p, m, n, b);
    Grouped(i, x, w, j, k);
  }

  // ------------------------------------------------------------------
  // Gathering
  // ------------------------------------------------------------------

  /** The ranks' tensors have one shape. */
  ghost predicate Alike(ts: seq<Tensor>, shape: Shape) {
    forall w :: 0 <= w < |ts| ==> ts[w].shape == shape && ts[w].Valid()
  }

  /** NCCL's all-gather: the ranks' elements one after another. */
  function Concat(ts: seq<Tensor>): seq<real> {
    if ts == [] then [] else Concat(ts[..|ts| - 1]) + ts[|ts| - 1].data
  }

  lemma {:induction false} ConcatSize(ts: seq<Tensor>, size: nat)
    requires forall w :: 0 <= w < |ts| ==> |ts[w].data| == size
    ensures |Concat(ts)| == |ts| * size
  {
    if ts != [] {
      ConcatSize(ts[..|ts| - 1], size);
      assert |ts| * size == (|ts| - 1) * size + size;
    }
  }

  lemma {:induction false} ConcatAt(ts: seq<Tensor>, size: nat, w: nat, k: nat, place: int)
    requires forall i :: 0 <= i < |ts| ==> |ts[i].data| == size
    requires w < |ts| && k < size && place == w * size + k
    ensures 0 <= place < |Concat(ts)| && Concat(ts)[place] == ts[w].data[k]
  {
    var front, n := ts[..|ts| - 1], |ts| - 1;
    MulMonotone(0, w, size);
    ConcatSize(front, size);
    if w < n {
      ConcatAt(front, size, w, k, place);
    }
  }

  function GatheredShape(shape: Shape, dim: nat, world: nat): Shape
    requires dim < |shape|
  {
    shape[..dim] + [Times(world, shape[dim])] + shape[dim + 1..]
  }

  lemma SizeMoved(world: nat, a: Shape, c: Shape)
    ensures Size(a + [world] + c) == world * Size(a + c)
  {
    Cons(world, c, 0, Zeros(|c|));
    assert a + [world] + c == a + ([world] + c);
    SizeSplit(a, [world] + c);
    SizeSplit(a, c);
    MulAssoc(Size(a), world, Size(c));
    MulAssoc(world, Size(a), Size(c));
  }

  function Zeros(n: nat): (z: Index)
    ensures |z| == n
  {
    seq(n, _ => 0)
  }

  lemma MovedShape(shape: Shape, dim: nat, world: nat)
    requires dim < |shape|
    ensures Move([world] + shape, dim) == shape[..dim] + [world, shape[dim]] + shape[dim + 1..]
    ensures Move([world] + shape, dim) == shape[..dim] + [world] + shape[dim..]
    ensures shape == shape[..dim] + shape[dim..]
  {
    var whole := [world] + shape;
    assert whole[1..dim + 1] == shape[..dim] && whole[dim + 1..] == shape[dim..];
    assert shape[dim..] == [shape[dim]] + shape[dim + 1..];
    assert shape[..dim] + [world] + ([shape[dim]] + shape[dim + 1..])
        == shape[..dim] + [world, shape[dim]] + shape[dim + 1..];
  }

  lemma GatheredSizes(shape: Shape, dim: nat, world: nat)
    requires dim < |shape|
    ensures Size([world] + shape) == Size(Move([world] + shape, dim)) == world * Size(shape)
    ensures Size(GatheredShape(shape, dim, world)) == world * Size(shape)
  {
    var a, b := shape[..dim], shape[dim + 1..];
    MovedShape(shape, dim, world);
    Cons(world, shape, 0, Zeros(|shape|));
    SizeMoved(world, a, shape[dim..]);
    MergeAxes(a, world, shape[dim], b, Zeros(|a|), 0, 0, Zeros(|b|), Times(world, shape[dim]), 0);
  }

  /** `all_gather`: the gathered elements, reshaped, moved and reshaped. */
  function AllGather(ts: seq<Tensor>, shape: Shape, dim: nat): (r: Tensor)
    requires dim < |shape| && |Concat(ts)| == |ts| * Size(shape)
    ensures r.Valid() && r.shape == GatheredShape(shape, dim, |ts|)
  {
    GatheredSizes(shape, dim, |ts|);
    Reshape(MoveDim(Reshape(Tensor([Times(|ts|, shape[0])] + shape[1..], Concat(ts)), [|ts|] + shape), dim),
      GatheredShape(shape, dim, |ts|))
  }

  lemma IndexSpread(shape: Shape, dim: nat, world: nat, idx: Index, w: int, j: int)
    requires dim < |shape| && |idx| == |shape| && 0 <= w < world && 0 <= j < shape[dim]
    requires forall i :: 0 <= i < |idx| && i != dim ==> 0 <= idx[i] < shape[i]
    ensures InBounds(shape, idx[dim := j]) && InBounds([world] + shape, [w] + idx[dim := j])
    ensures var long := idx[..dim] + [w, j] + idx[dim + 1..];
            InBounds(Move([world] + shape, dim), long) && MoveBack(long, dim) == [w] + idx[dim := j]
  {
    var long := idx[..dim] + [w, j] + idx[dim + 1..];
    assert MoveBack(long, dim) == [w] + idx[dim := j];
    MoveInBounds([world] + shape, long, dim);
  }

  lemma GatheredIndex(shape: Shape, dim: nat, world: nat, idx: Index)
    requires dim < |shape| && InBounds(GatheredShape(shape, dim, world), idx)
    ensures shape[dim] > 0
    ensures 0 <= idx[dim] / shape[dim] < world && 0 <= idx[dim] % shape[dim] < shape[dim]
    ensures idx[dim] == idx[dim] / shape[dim] * shape[dim] + idx[dim] % shape[dim]
    ensures forall i :: 0 <= i < |idx| && i != dim ==> 0 <= idx[i] < shape[i]
  {
    var g := GatheredShape(shape, dim, world);
    assert g[dim] == Times(world, shape[dim]);
    assert forall i :: 0 <= i < |g| && i != dim ==> g[i] == shape[i];
    PositiveFactor(world, shape[dim]);
    QuotientBelow(idx[dim], shape[dim], world);
  }

  /** The gathered elements with one axis for the ranks in front. */
  function Spread(ts: seq<Tensor>, shape: Shape): (r: Tensor)
    requires |Concat(ts)| == |ts| * Size(shape)
    ensures r.Valid() && r.shape == [|ts|] + shape
  {
    Cons(|ts|, shape, 0, Zeros(|shape|));
    Tensor([|ts|] + shape, Concat(ts))
  }

  lemma SpreadAt(ts: seq<Tensor>, shape: Shape, w: nat, idx: Index)
    requires Alike(ts, shape) && w < |ts| && InBounds(shape, idx) && InBounds([|ts|] + shape, [w] + idx)
    ensures |Concat(ts)| == |ts| * Size(shape)
    ensures Spread(ts, shape).At([w] + idx) == ts[w].At(idx)
  {
    ConcatSize(ts, Size(shape));
    Cons(|ts|, shape, w, idx);
    RavelInRange(shape, idx);
    ConcatAt(ts, Size(shape), w, Ravel(shape, idx), Ravel([|ts|] + shape, [w] + idx));
  }

  lemma MergedAt(t: Tensor, a: Shape, m: nat, n: nat, b: Shape, i: Index, w: int, j: int, k: Index, p: nat, x: int)
    requires t.Valid() && t.shape == a + [m, n] + b && p == m * n && x == w * n + j
    requires |i| == |a| && |k| == |b| && InBounds(t.shape, i + [w, j] + k) && InBounds(a + [p] + b, i + [x] + k)
    ensures Size(a + [p] + b) == |t.data|
    ensures Reshape(t, a + [p] + b).At(i + [x] + k) == t.At(i + [w, j] + k)
  {
    MergeAxes(a, m, n, b, i, w, j, k, p, x);
  }

  // On any number of ranks, for any shape and axis: the element of rank w whose index on the gathered axis is j
  // has index w * size + j there, and its other indices are unchanged.
  lemma AllGatherAt(ts: seq<Tensor>, shape: Shape, dim: nat, idx: Index)
    requires dim < |shape| && Alike(ts, shape) && InBounds(GatheredShape(shape, dim, |ts|), idx)
    ensures |Concat(ts)| == |ts| * Size(shape) && shape[dim] > 0
    ensures var w, j := idx[dim] / shape[dim], idx[dim] % shape[dim];
            && 0 <= w < |ts| && InBounds(shape, idx[dim := j])
            && AllGather(ts, shape, dim).At(idx) == ts[w].At(idx[dim := j])
  {
    GatheredIndex(shape, dim, |ts|, idx);
    var w, j := idx[dim] / shape[dim], idx[dim] % shape[dim];
    IndexSpread(shape, dim, |ts|, idx, w, j);
    SpreadAt(ts, shape, w, idx[dim := j]);
    GatheredFrom(ts, shape, dim, idx, w, j);
  }

  // The gathered element comes from where the move and the merge put it.
  lemma GatheredFrom(ts: seq<Tensor>, shape: Shape, dim: nat, idx: Index, w: int, j: int)
    requires dim < |shape| && Alike(ts, shape) && InBounds(GatheredShape(shape, dim, |ts|), idx)
    requires |Concat(ts)| == |ts| * Size(shape) && idx[dim] == w * shape[dim] + j
    requires InBounds([|ts|] + shape, [w] + idx[dim := j])
    requires var long := idx[..dim] + [w, j] + idx[dim + 1..];
             InBounds(Move([|ts|] + shape, dim), long) && MoveBack(long, dim) == [w] + idx[dim := j]
    ensures AllGather(ts, shape, dim).At(idx) == Spread(ts, shape).At([w] + idx[dim := j])
  {
    MovedShape(shape, dim, |ts|);
    var moved := MoveDim(Spread(ts, shape), dim);
    assert idx == idx[..dim] + [idx[dim]] + idx[dim + 1..];
    MergedAt(moved, shape[..dim], |ts|, shape[dim], shape[dim + 1..], idx[..dim], w, j, idx[dim + 1..],
      Times(|ts|, shape[dim]), idx[dim]);
    MoveDimAt(Spread(ts, shape), dim, idx[..dim] + [w, j] + idx[dim + 1..]);
  }

  // Along the first axis this is what the collective alone gives: the ranks' tensors, one after another.
  lemma AllGatherFirstAxis(ts: seq<Tensor>, shape: Shape)
    requires shape != [] && |Concat(ts)| == |ts| * Size(shape)
    ensures AllGather(ts, shape, 0) == Tensor(GatheredShape(shape, 0, |ts|), Concat(ts))
  {
    GatheredSizes(shape, 0, |ts|);
    MoveNowhere(Reshape(Tensor([Times(|ts|, shape[0])] + shape[1..], Concat(ts)), [|ts|] + shape));
  }

  lemma MoveNowhere(t: Tensor)
    requires t.Valid() && t.shape != []
    ensures MoveDim(t, 0) == t
  {
    var r := MoveDim(t, 0);
    assert Move(t.shape, 0) == t.shape;
    forall k | 0 <= k < |t.data|
      ensures r.data[k] == t.data[k]
    {
      var idx := Unravel(t.shape, k);
      assert MoveBack(idx, 0) == idx;
    }
    assert r.data == t.data;
  }

  // ------------------------------------------------------------------
  // Scattering
  // ------------------------------------------------------------------

  /** The sum of the ranks' elements at one place. */
  function Summed(ts: seq<Tensor>, k: nat): real
    requires forall w :: 0 <= w < |ts| ==> k < |ts[w].data|
  {
    if ts == [] then 0.0 else Summed(ts[..|ts| - 1], k) + ts[|ts| - 1].data[k]
  }

  /** The sum of the ranks' elements at one index. */
  ghost function ElementSum(ts: seq<Tensor>, shape: Shape, idx: Index): real
    requires Alike(ts, shape) && InBounds(shape, idx)
  {
    if ts == [] then 0.0 else ElementSum(ts[..|ts| - 1], shape, idx) + ts[|ts| - 1].At(idx)
  }

  function MovedAll(ts: seq<Tensor>, shape: Shape, dim: nat): (r: seq<Tensor>)
    requires dim < |shape| && forall w :: 0 <= w < |ts| ==> ts[w].shape == shape && |ts[w].data| == Size(shape)
    ensures |r| == |ts| && Alike(r, Move(shape, dim))
  {
    if ts == [] then [] else MovedAll(ts[..|ts| - 1], shape, dim) + [MoveDim(ts[|ts| - 1], dim)]
  }

  /** The shape and size of one rank's part of tensors whose first axis is dealt to `world` ranks. */
  function Part(moved: Shape, world: nat): Shape
    requires moved != [] && world > 0
  {
    [moved[0] / world] + moved[1..]
  }

  lemma PartOffset(c: nat, whole: nat, tail: Shape, r: nat, i: int, k: Index, x: int)
    requires |k| == |tail| && x == r * c + i
    ensures r * Size([c] + tail) + Ravel([c] + tail, [i] + k) == Ravel([whole] + tail, [x] + k)
  {
    Cons(c, tail, i, k);
    Cons(whole, tail, x, k);
    ghost var s, rest := Size(tail), Ravel(tail, k);
    MergePlaces(c, r, i, s, rest, x);
    assert Ravel([c] + tail, [i] + k) == i * s + rest && Size([c] + tail) == c * s;
  }

  lemma PartInside(whole: nat, world: nat, r: nat, i: int)
    requires r < world && whole % world == 0 && 0 <= i < whole / world
    ensures 0 <= r * (whole / world) + i < whole
  {
    var c := whole / world;
    MulMonotone(0, r, c);
    MulMonotone(r + 1, world, c);
    DistributePlus(r, 1, c);
    assert whole == world * c;
  }

  // Place k of part r is place r * size + k of the whole.
  lemma PartFits(moved: Shape, world: nat, r: nat, idx: Index, x: int)
    requires moved != [] && r < world && moved[0] % world == 0 && InBounds(Part(moved, world), idx)
    requires x == r * (moved[0] / world) + idx[0]
    ensures InBounds(moved, idx[0 := x])
    ensures r * Size(Part(moved, world)) + Ravel(Part(moved, world), idx) == Ravel(moved, idx[0 := x])
  {
    PartInside(moved[0], world, r, idx[0]);
    PartOffset(moved[0] / world, moved[0], moved[1..], r, idx[0], idx[1..], x);
    assert moved == [moved[0]] + moved[1..] && idx == [idx[0]] + idx[1..] && idx[0 := x] == [x] + idx[1..];
    FirstInBounds(moved, Part(moved, world), idx, x);
  }

  lemma FirstInBounds(a: Shape, b: Shape, idx: Index, x: int)
    requires a != [] && b != [] && a[1..] == b[1..] && InBounds(b, idx) && 0 <= x < a[0]
    ensures InBounds(a, idx[0 := x])
  {
    forall i | 0 <= i < |idx|
      ensures 0 <= idx[0 := x][i] < a[i]
    {
      assert i > 0 ==> a[i] == a[1..][i - 1] && b[i] == b[1..][i - 1];
    }
  }

  lemma SizeOfMultiple(world: nat, c: nat, whole: nat, tail: Shape)
    requires whole == world * c
    ensures Size([whole] + tail) == world * Size([c] + tail)
  {
    Cons(c, tail, 0, Zeros(|tail|));
    Cons(whole, tail, 0, Zeros(|tail|));
    MulAssoc(world, c, Size(tail));
  }

  lemma PartsMakeWhole(moved: Shape, world: nat)
    requires moved != [] && world > 0 && moved[0] % world == 0
    ensures world * Size(Part(moved, world)) == Size(moved)
  {
    assert moved == [moved[0]] + moved[1..];
    SizeOfMultiple(world, moved[0] / world, moved[0], moved[1..]);
  }

  lemma PartInWhole(moved: Shape, world: nat, r: nat, first: int)
    requires moved != [] && r < world && moved[0] % world == 0 && first == r * Size(Part(moved, world))
    ensures 0 <= first && first + Size(Part(moved, world)) <= Size(moved)
  {
    var size := Size(Part(moved, world));
    PartsMakeWhole(moved, world);
    MulMonotone(0, r, size);
    MulMonotone(r + 1, world, size);
    DistributePlus(r, 1, size);
  }

  /** NCCL's reduce-scatter: rank r gets part r of the sum. */
  function ReducedPart(ts: seq<Tensor>, moved: Shape, r: nat): (p: Tensor)
    requires Alike(ts, moved) && moved != [] && r < |ts| && moved[0] % |ts| == 0
    ensures p.Valid() && p.shape == Part(moved, |ts|)
  {
    var size := Size(Part(moved, |ts|));
    PartInWhole(moved, |ts|, r, r * size);
    Tensor(Part(moved, |ts|), seq(size, k requires 0 <= k < size => Summed(ts, r * size + k)))
  }

  /** What `reduce_scatter` returns on rank r. */
  function ReduceScatter(ts: seq<Tensor>, shape: Shape, dim: nat, r: nat): (p: Tensor)
    requires dim < |shape| && Alike(ts, shape) && r < |ts| && Move(shape, dim)[0] % |ts| == 0
    ensures p.Valid() && p.shape == Move(Part(Move(shape, dim), |ts|), dim)
  {
    MoveDim(ReducedPart(MovedAll(ts, shape, dim), Move(shape, dim), r), dim)
  }

  lemma {:induction false} SummedIsElementSum(ts: seq<Tensor>, shape: Shape, dim: nat, idx: Index)
    requires dim < |shape| && Alike(ts, shape) && InBounds(Move(shape, dim), idx)
    ensures InBounds(shape, MoveBack(idx, dim)) && 0 <= Ravel(Move(shape, dim), idx) < Size(Move(shape, dim))
    ensures Summed(MovedAll(ts, shape, dim), Ravel(Move(shape, dim), idx)) == ElementSum(ts, shape, MoveBack(idx, dim))
    decreases |ts|
  {
    MoveInBounds(shape, idx, dim);
    RavelInRange(Move(shape, dim), idx);
    if ts != [] {
      var last, front := ts[|ts| - 1], ts[..|ts| - 1];
      SummedIsElementSum(front, shape, dim, idx);
      MoveDimAt(last, dim, idx);
      assert MovedAll(ts, shape, dim)[..|ts| - 1] == MovedAll(front, shape, dim);
    }
  }

  // On the first two axes of a tensor the move is its own inverse, and brings the scattered axis to the front.
  lemma MoveSwaps<T>(s: seq<T>, dim: nat)
    requires dim <= 1 && dim < |s|
    ensures Move(s, dim) == MoveBack(s, dim) && Move(s, dim)[0] == s[dim] && Move(Move(s, dim), dim) == s
  {
  }

  lemma ReducedPartAt(ts: seq<Tensor>, moved: Shape, r: nat, idx: Index, x: int)
    requires Alike(ts, moved) && moved != [] && r < |ts| && moved[0] % |ts| == 0
    requires InBounds(Part(moved, |ts|), idx) && x == r * (moved[0] / |ts|) + idx[0]
    ensures InBounds(moved, idx[0 := x]) && 0 <= Ravel(moved, idx[0 := x]) < Size(moved)
    ensures ReducedPart(ts, moved, r).At(idx) == Summed(ts, Ravel(moved, idx[0 := x]))
  {
    RavelInRange(Part(moved, |ts|), idx);
    PartFits(moved, |ts|, r, idx, x);
    RavelInRange(moved, idx[0 := x]);
    PlaceOfPart(ts, moved, r, Ravel(Part(moved, |ts|), idx), Ravel(moved, idx[0 := x]));
  }

  lemma PlaceOfPart(ts: seq<Tensor>, moved: Shape, r: nat, k: int, whole: int)
    requires Alike(ts, moved) && moved != [] && r < |ts| && moved[0] % |ts| == 0
    requires 0 <= k < Size(Part(moved, |ts|)) && 0 <= whole < Size(moved)
    requires whole == r * Size(Part(moved, |ts|)) + k
    ensures ReducedPart(ts, moved, r).data[k] == Summed(ts, whole)
  {
  }

  lemma ScatteredShape(shape: Shape, dim: nat, world: nat)
    requires dim <= 1 && dim < |shape| && world > 0
    ensures Move(Part(Move(shape, dim), world), dim) == shape[dim := shape[dim] / world]
  {
    var moved := Move(shape, dim);
    if dim == 0 {
      assert moved == shape;
    } else {
      assert moved == [shape[1], shape[0]] + shape[2..];
      assert Part(moved, world) == [shape[1] / world, shape[0]] + shape[2..];
    }
  }

  /** Where the call takes the element from that it puts at idx, when x is the place on the axis it deals out. */
  function Origin(idx: Index, dim: nat, x: int): (from: Index)
    requires dim < |idx|
    ensures |from| == |idx|
  {
    MoveBack(MoveBack(idx, dim)[0 := x], dim)
  }

  // What the call computes along any axis: it deals out the axis that the first move brings to the front.
  lemma ReduceScatterTakes(ts: seq<Tensor>, shape: Shape, dim: nat, r: nat, idx: Index, x: int)
    requires dim < |shape| && Alike(ts, shape) && r < |ts| && Move(shape, dim)[0] % |ts| == 0
    requires InBounds(Move(Part(Move(shape, dim), |ts|), dim), idx)
    requires x == r * (Move(shape, dim)[0] / |ts|) + idx[dim]
    ensures InBounds(shape, Origin(idx, dim, x))
    ensures ReduceScatter(ts, shape, dim, r).At(idx) == ElementSum(ts, shape, Origin(idx, dim, x))
  {
    var moved, there := Move(shape, dim), MoveBack(idx, dim);
    MoveDimAt(ReducedPart(MovedAll(ts, shape, dim), moved, r), dim, idx);
    ReducedPartAt(MovedAll(ts, shape, dim), moved, r, there, x);
    SummedIsElementSum(ts, shape, dim, there[0 := x]);
  }

  lemma OriginAlongFirstTwo(idx: Index, dim: nat, x: int)
    requires dim <= 1 && dim < |idx|
    ensures Origin(idx, dim, x) == idx[dim := x]
  {
  }

  // Along axis 0 or 1, rank r gets its block of that axis of the elementwise sum.
  lemma ReduceScatterAt(ts: seq<Tensor>, shape: Shape, dim: nat, r: nat, idx: Index, x: int)
    requires dim <= 1 && dim < |shape| && Alike(ts, shape) && r < |ts| && shape[dim] % |ts| == 0
    requires InBounds(shape[dim := shape[dim] / |ts|], idx) && x == r * (shape[dim] / |ts|) + idx[dim]
    ensures Move(shape, dim)[0] == shape[dim]
    ensures ReduceScatter(ts, shape, dim, r).shape == shape[dim := shape[dim] / |ts|]
    ensures InBounds(shape, idx[dim := x])
    ensures ReduceScatter(ts, shape, dim, r).At(idx) == ElementSum(ts, shape, idx[dim := x])
  {
    MoveSwaps(shape, dim);
    ScatteredShape(shape, dim, |ts|);
    ReduceScatterTakes(ts, shape, dim, r, idx, x);
    OriginAlongFirstTwo(idx, dim, x);
  }

  // ------------------------------------------------------------------
  // Scattering beyond the second axis
  // ------------------------------------------------------------------

  /** The moves leave a shape alone: they shift the axes up to dim by two places, and deal out the second. */
  predicate ShapeKept(shape: Shape, dim: nat, world: nat)
    requires 2 <= dim < |shape| && world > 0
  {
    && (forall i :: 0 <= i < dim - 1 ==> shape[i + 2] == shape[i])
    && shape[dim - 1] == shape[0]
    && shape[1] / world == shape[dim] / world
  }

  lemma ShiftedEntries<T>(s: seq<T>, dim: nat, y: T)
    requires 2 <= dim < |s|
    ensures Move(s, dim)[0] == s[1]
    ensures var twice := Move(Move(s, dim)[0 := y], dim);
            && (forall i :: 0 <= i < dim - 1 ==> twice[i] == s[i + 2])
            && twice[dim - 1] == s[0] && twice[dim] == y
            && (forall i :: dim < i < |s| ==> twice[i] == s[i])
  {
  }

  // The shape of the result along axis 2 and above.
  lemma ScatterShape(ts: seq<Tensor>, shape: Shape, dim: nat, r: nat, part: nat)
    requires 2 <= dim < |shape| && Alike(ts, shape) && r < |ts| && shape[1] % |ts| == 0 && part == shape[1] / |ts|
    ensures Move(shape, dim)[0] == shape[1]
    ensures ReduceScatter(ts, shape, dim, r).shape == Move(Move(shape, dim)[0 := part], dim)
  {
    ShiftedEntries(shape, dim, part);
    var moved := Move(shape, dim);
    assert moved[0 := part] == [part] + moved[1..] == Part(moved, |ts|);
  }

  lemma KeptIffSame(shape: Shape, dim: nat, world: nat, part: nat)
    requires 2 <= dim < |shape| && world > 0 && part == shape[1] / world
    ensures Move(Move(shape, dim)[0 := part], dim) == shape[dim := shape[dim] / world] <==> ShapeKept(shape, dim, world)
  {
    ShiftedEntries(shape, dim, part);
    var twice, meant := Move(Move(shape, dim)[0 := part], dim), shape[dim := shape[dim] / world];
    if ShapeKept(shape, dim, world) {
      forall i | 0 <= i < |shape|
        ensures twice[i] == meant[i]
      {
        if i < dim - 1 {
          assert twice[i] == shape[i + 2];
        }
      }
    }
    if twice == meant {
      forall i | 0 <= i < dim - 1
        ensures shape[i + 2] == shape[i]
      {
        assert twice[i] == meant[i];
      }
      assert twice[dim - 1] == meant[dim - 1] && twice[dim] == meant[dim];
    }
  }

  // Along axis 2 and above the result has the right shape exactly when the moves happen to keep it.
  lemma ScatterShapeRightIff(ts: seq<Tensor>, shape: Shape, dim: nat, r: nat)
    requires 2 <= dim < |shape| && Alike(ts, shape) && r < |ts| && shape[1] % |ts| == 0
    ensures Move(shape, dim)[0] == shape[1]
    ensures ReduceScatter(ts, shape, dim, r).shape == shape[dim := shape[dim] / |ts|] <==> ShapeKept(shape, dim, |ts|)
  {
    var part: nat := shape[1] / |ts|;
    ScatterShape(ts, shape, dim, r, part);
    KeptIffSame(shape, dim, |ts|, part);
  }

  /** The call gives rank r what it should: its block of axis dim of the elementwise sum. */
  ghost predicate ScattersRight(ts: seq<Tensor>, shape: Shape, dim: nat, r: nat)
    requires dim < |shape| && Alike(ts, shape) && r < |ts| && Move(shape, dim)[0] % |ts| == 0
  {
    var p := ReduceScatter(ts, shape, dim, r);
    && p.shape == shape[dim := shape[dim] / |ts|]
    && forall idx: Index :: InBounds(p.shape, idx) ==>
         && InBounds(shape, Meant(idx, shape, dim, |ts|, r))
         && p.At(idx) == ElementSum(ts, shape, Meant(idx, shape, dim, |ts|, r))
  }

  function Meant(idx: Index, shape: Shape, dim: nat, world: nat, r: nat): (m: Index)
    requires dim < |shape| == |idx| && world > 0
    ensures |m| == |idx|
  {
    idx[dim := r * (shape[dim] / world) + idx[dim]]
  }

  /** All zero, but for a one at a place. */
  function Spike(shape: Shape, place: int): (t: Tensor)
    ensures t.Valid() && t.shape == shape
  {
    Tensor(shape, seq(Size(shape), k => if k == place then 1.0 else 0.0))
  }

  /** The first rank has a one at a place; there is nothing else. */
  function Spikes(world: nat, shape: Shape, place: int): (ts: seq<Tensor>)
    ensures |ts| == world && Alike(ts, shape)
  {
    if world == 0 then [] else Spikes(world - 1, shape, place) + [Spike(shape, if world == 1 then place else -1)]
  }

  lemma {:induction false} SpikesSum(world: nat, shape: Shape, at: Index, idx: Index)
    requires InBounds(shape, at) && InBounds(shape, idx)
    ensures ElementSum(Spikes(world, shape, Ravel(shape, at)), shape, idx)
            == if world > 0 && idx == at then 1.0 else 0.0
    decreases world
  {
    if world > 0 {
      var ts := Spikes(world, shape, Ravel(shape, at));
      assert ts[..world - 1] == Spikes(world - 1, shape, Ravel(shape, at));
      SpikesSum(world - 1, shape, at, idx);
      UnravelRavel(shape, at);
      UnravelRavel(shape, idx);
    }
  }

  lemma {:induction false} PositiveAxes(shape: Shape)
    ensures Size(shape) > 0 <==> forall i :: 0 <= i < |shape| ==> shape[i] > 0
    decreases |shape|
  {
    if shape != [] {
      PositiveAxes(shape[1..]);
      if Size(shape) > 0 {
        PositiveFactor(shape[0], Size(shape[1..]));
        assert forall i :: 0 < i < |shape| ==> shape[i] == shape[1..][i - 1];
      } else if forall i :: 0 <= i < |shape| ==> shape[i] > 0 {
        MulMonotone(1, shape[0], Size(shape[1..]));
        assert false;
      }
    }
  }

  /** The index that is one on an axis and zero on the others. */
  function Unit(n: nat, axis: nat): (idx: Index)
    requires axis < n
    ensures |idx| == n && forall i :: 0 <= i < n ==> idx[i] == if i == axis then 1 else 0
  {
    seq(n, i => if i == axis then 1 else 0)
  }

  lemma LargeAxis(shape: Shape, dim: nat, world: nat) returns (axis: nat)
    requires 2 <= dim < |shape| && world > 0 && ShapeKept(shape, dim, world) && Size(shape) > 0
    requires exists i :: 0 <= i <= dim && shape[i] != 1
    ensures axis <= 1 && shape[axis] > 1
  {
    PositiveAxes(shape);
    EvenOddAxes(shape, dim, world);
    var i :| 0 <= i <= dim && shape[i] != 1;
    axis := i % 2;
    assert shape[i] == shape[axis];
  }

  // An element that the call takes from elsewhere, unless the shifted axes are trivial.
  lemma MisplacedElement(shape: Shape, dim: nat, world: nat) returns (idx: Index)
    requires 2 <= dim < |shape| && world > 0 && ShapeKept(shape, dim, world) && Size(shape) > 0
    requires shape[dim] % world == 0 && exists i :: 0 <= i <= dim && shape[i] != 1
    ensures InBounds(shape[dim := shape[dim] / world], idx) && idx[dim] == 0
    ensures Origin(idx, dim, 0) != idx
  {
    var axis := LargeAxis(shape, dim, world);
    idx := Unit(|shape|, axis);
    PositiveAxes(shape);
    PositivePart(shape[dim], world);
    var part := shape[dim := shape[dim] / world];
    assert forall i :: 0 <= i < |shape| && i != dim ==> part[i] == shape[i];
    ShiftedIndex(idx, dim);
    assert Origin(idx, dim, 0)[axis] == 0;
  }

  lemma PositivePart(n: nat, world: nat)
    requires n > 0 && world > 0 && n % world == 0
    ensures n / world > 0
  {
  }

  // A shape that is kept has one size on the even axes and one on the odd.
  lemma EvenOddAxes(shape: Shape, dim: nat, world: nat)
    requires 2 <= dim < |shape| && world > 0 && ShapeKept(shape, dim, world)
    ensures forall i :: 0 <= i <= dim ==> shape[i] == shape[i % 2]
  {
    for n := 0 to dim + 1
      invariant forall i :: 0 <= i < n ==> shape[i] == shape[i % 2]
    {
      if n >= 2 {
        var i := n - 2;
        assert shape[i + 2] == shape[i] && i % 2 == n % 2;
      }
    }
  }

  // The call is right along an axis, for all tensors of a shape and on all ranks, if and only if the axis is the
  // first or the second, or the moves keep the shape and there is nothing to move: no element at all, or
  // only one place on every axis up to this one.
  lemma ScatterIsRightIff(shape: Shape, dim: nat, world: nat)
    requires dim < |shape| && world > 0 && shape[dim] % world == 0 && Move(shape, dim)[0] % world == 0
    ensures (forall ts: seq<Tensor>, r: nat :: Alike(ts, shape) && |ts| == world && r < world
               ==> ScattersRight(ts, shape, dim, r))
            <==> || dim <= 1
                 || (&& ShapeKept(shape, dim, world)
                     && (Size(shape) == 0 || forall i :: 0 <= i <= dim ==> shape[i] == 1))
  {
    if dim <= 1 {
      forall ts: seq<Tensor>, r: nat | Alike(ts, shape) && |ts| == world && r < world
        ensures ScattersRight(ts, shape, dim, r)
      {
        RightAlongFirstTwo(ts, shape, dim, r);
      }
    } else if ShapeKept(shape, dim, world) && (Size(shape) == 0 || forall i :: 0 <= i <= dim ==> shape[i] == 1) {
      forall ts: seq<Tensor>, r: nat | Alike(ts, shape) && |ts| == world && r < world
        ensures ScattersRight(ts, shape, dim, r)
      {
        RightIfTrivial(ts, shape, dim, r);
      }
    } else {
      WrongUnlessTrivial(shape, dim, world);
    }
  }

  lemma RightAlongFirstTwo(ts: seq<Tensor>, shape: Shape, dim: nat, r: nat)
    requires dim <= 1 && dim < |shape| && Alike(ts, shape) && r < |ts| && shape[dim] % |ts| == 0
    ensures Move(shape, dim)[0] == shape[dim] && ScattersRight(ts, shape, dim, r)
  {
    MoveSwaps(shape, dim);
    ScatteredShape(shape, dim, |ts|);
    forall idx: Index | InBounds(ReduceScatter(ts, shape, dim, r).shape, idx)
      ensures InBounds(shape, Meant(idx, shape, dim, |ts|, r))
      ensures ReduceScatter(ts, shape, dim, r).At(idx) == ElementSum(ts, shape, Meant(idx, shape, dim, |ts|, r))
    {
      ReduceScatterAt(ts, shape, dim, r, idx, r * (shape[dim] / |ts|) + idx[dim]);
    }
  }

  lemma MeantInBounds(shape: Shape, dim: nat, world: nat, r: nat, idx: Index)
    requires dim < |shape| && r < world && shape[dim] % world == 0 && InBounds(shape[dim := shape[dim] / world], idx)
    ensures InBounds(shape, Meant(idx, shape, dim, world, r))
  {
    var part, meant := shape[dim := shape[dim] / world], Meant(idx, shape, dim, world, r);
    PartInside(shape[dim], world, r, idx[dim]);
    forall i | 0 <= i < |shape|
      ensures 0 <= meant[i] < shape[i]
    {
      assert i != dim ==> part[i] == shape[i] && meant[i] == idx[i];
    }
  }

  lemma OnlyOnePlace(shape: Shape, dim: nat, world: nat, r: nat, idx: Index)
    requires 2 <= dim < |shape| && r < world && shape[dim] % world == 0
    requires InBounds(shape[dim := shape[dim] / world], idx) && forall i :: 0 <= i <= dim ==> shape[i] == 1
    ensures r == 0 && idx[dim] == 0 && Origin(idx, dim, 0) == idx == Meant(idx, shape, dim, world, r)
  {
    OneIsUndivided(world);
    var part := shape[dim := shape[dim] / world];
    assert forall i :: 0 <= i <= dim ==> part[i] == 1 && idx[i] == 0;
    ShiftedIndex(idx, dim);
    assert forall i :: 0 <= i < |idx| ==> Origin(idx, dim, 0)[i] == idx[i];
  }

  lemma ShiftedIndex(idx: Index, dim: nat)
    requires 2 <= dim < |idx|
    ensures var from := Origin(idx, dim, 0);
            && from[0] == idx[dim - 1] && from[1] == 0
            && (forall i :: 2 <= i <= dim ==> from[i] == idx[i - 2])
            && (forall i :: dim < i < |idx| ==> from[i] == idx[i])
  {
  }

  lemma RightIfTrivial(ts: seq<Tensor>, shape: Shape, dim: nat, r: nat)
    requires 2 <= dim < |shape| && Alike(ts, shape) && r < |ts|
    requires shape[1] % |ts| == 0 && shape[dim] % |ts| == 0
    requires ShapeKept(shape, dim, |ts|) && (Size(shape) == 0 || forall i :: 0 <= i <= dim ==> shape[i] == 1)
    ensures Move(shape, dim)[0] == shape[1] && ScattersRight(ts, shape, dim, r)
  {
    ScatterShapeRightIff(ts, shape, dim, r);
    var p := ReduceScatter(ts, shape, dim, r);
    forall idx: Index | InBounds(p.shape, idx)
      ensures InBounds(shape, Meant(idx, shape, dim, |ts|, r))
      ensures p.At(idx) == ElementSum(ts, shape, Meant(idx, shape, dim, |ts|, r))
    {
      MeantInBounds(shape, dim, |ts|, r, idx);
      RavelInRange(shape, Meant(idx, shape, dim, |ts|, r));
      OnlyOnePlace(shape, dim, |ts|, r, idx);
      ReduceScatterTakes(ts, shape, dim, r, idx, 0);
    }
  }

  lemma OneIsUndivided(world: nat)
    requires world > 0 && 1 % world == 0
    ensures world == 1
  {
  }

  // One on a misplaced element, zero elsewhere, shows the difference.
  lemma SpikeIsMisplaced(shape: Shape, dim: nat, world: nat, idx: Index)
    requires 2 <= dim < |shape| && world > 0 && shape[dim] % world == 0 && shape[1] % world == 0
    requires ShapeKept(shape, dim, world) && InBounds(shape[dim := shape[dim] / world], idx) && idx[dim] == 0
    requires Origin(idx, dim, 0) != idx
    ensures Move(shape, dim)[0] == shape[1] && InBounds(shape, idx)
    ensures !ScattersRight(Spikes(world, shape, Ravel(shape, idx)), shape, dim, 0)
  {
    var ts := Spikes(world, shape, Ravel(shape, idx));
    MeantInBounds(shape, dim, world, 0, idx);
    assert Meant(idx, shape, dim, world, 0) == idx;
    ScatterShapeRightIff(ts, shape, dim, 0);
    ReduceScatterTakes(ts, shape, dim, 0, idx, 0);
    SpikesSum(world, shape, idx, idx);
    SpikesSum(world, shape, idx, Origin(idx, dim, 0));
    assert ReduceScatter(ts, shape, dim, 0).At(idx) != ElementSum(ts, shape, Meant(idx, shape, dim, world, 0));
  }

  lemma WrongUnlessTrivial(shape: Shape, dim: nat, world: nat)
    requires 2 <= dim < |shape| && world > 0 && shape[dim] % world == 0 && shape[1] % world == 0
    requires !(ShapeKept(shape, dim, world) && (Size(shape) == 0 || forall i :: 0 <= i <= dim ==> shape[i] == 1))
    ensures Move(shape, dim)[0] == shape[1]
    ensures exists ts: seq<Tensor> :: Alike(ts, shape) && |ts| == world && !ScattersRight(ts, shape, dim, 0)
  {
    if ShapeKept(shape, dim, world) {
      var idx := MisplacedElement(shape, dim, world);
      SpikeIsMisplaced(shape, dim, world, idx);
    } else {
      var ts := Spikes(world, shape, 0);
      ScatterShapeRightIff(ts, shape, dim, 0);
      assert !ScattersRight(ts, shape, dim, 0);
    }
  }

  // ------------------------------------------------------------------
  // Scattering and gathering
  // ------------------------------------------------------------------

  /** The parts of all ranks. */
  ghost function Scattered(ts: seq<Tensor>, shape: Shape, dim: nat): (p: seq<Tensor>)
    requires dim < |shape| && Alike(ts, shape) && ts != [] && Move(shape, dim)[0] % |ts| == 0
    ensures |p| == |ts| && Alike(p, Move(Part(Move(shape, dim), |ts|), dim))
  {
    seq(|ts|, r requires 0 <= r < |ts| => ReduceScatter(ts, shape, dim, r))
  }

  lemma GatherScatterShape(shape: Shape, dim: nat, world: nat)
    requires dim < |shape| && world > 0 && shape[dim] % world == 0
    ensures GatheredShape(shape[dim := shape[dim] / world], dim, world) == shape
  {
    assert Times(world, shape[dim] / world) == shape[dim];
    assert shape == shape[..dim] + [shape[dim]] + shape[dim + 1..];
  }

  lemma SetTwice(idx: Index, dim: nat, j: int, x: int)
    requires dim < |idx| && x == idx[dim]
    ensures idx[dim := j][dim := x] == idx
  {
  }

  // Scattering the sum along axis 0 or 1 and gathering it again gives every rank the elementwise sum.
  lemma ReduceScatterThenAllGather(ts: seq<Tensor>, shape: Shape, dim: nat, idx: Index)
    requires dim <= 1 && dim < |shape| && Alike(ts, shape) && ts != [] && shape[dim] % |ts| == 0
    requires InBounds(shape, idx)
    ensures Move(shape, dim)[0] == shape[dim]
    ensures var part := shape[dim := shape[dim] / |ts|];
            var parts := Scattered(ts, shape, dim);
            && |Concat(parts)| == |parts| * Size(part) && GatheredShape(part, dim, |ts|) == shape
            && AllGather(parts, part, dim).At(idx) == ElementSum(ts, shape, idx)
  {
    MoveSwaps(shape, dim);
    ScatteredShape(shape, dim, |ts|);
    GatherScatterShape(shape, dim, |ts|);
    var part := shape[dim := shape[dim] / |ts|];
    var parts := Scattered(ts, shape, dim);
    AllGatherAt(parts, part, dim, idx);
    GatheredIndex(part, dim, |ts|, idx);
    var w, j := idx[dim] / part[dim], idx[dim] % part[dim];
    ReduceScatterAt(ts, shape, dim, w, idx[dim := j], idx[dim]);
    SetTwice(idx, dim, j, idx[dim]);
  }

  // ------------------------------------------------------------------
  // The calls
  // ------------------------------------------------------------------

  class CudaCommunicator {
    const worldSize: nat

    constructor (worldSize: nat)
      requires worldSize > 0
      ensures this.worldSize == worldSize
    {
      this.worldSize := worldSize;
    }

    /** NCCL fills the output buffer, rank after rank. */
    method FillGathered(output: array<real>, ts: seq<Tensor>)
      requires output.Length == |Concat(ts)|
      modifies output
      ensures output[..] == Concat(ts)
    {
      var done, i := 0, 0;
      while i < |ts|
        invariant 0 <= i <= |ts| && done == |Concat(ts[..i])| <= output.Length
        invariant output[..done] == Concat(ts[..i])
      {
        assert ts[..i + 1][..i] == ts[..i] && Concat(ts[..i + 1]) == Concat(ts[..i]) + ts[i].data;
        ConcatGrows(ts, i + 1);
        var start := done;
        for k := 0 to |ts[i].data|
          invariant start + |ts[i].data| <= output.Length
          invariant output[..start] == Concat(ts[..i])
          invariant output[start..start + k] == ts[i].data[..k]
        {
          output[start + k] := ts[i].data[k];
        }
        done := start + |ts[i].data|;
        assert output[..done] == output[..start] + output[start..done];
        i := i + 1;
      }
      assert ts[..|ts|] == ts;
    }

    /** `all_gather`; ts are the ranks' inputs. */
    method Gather(ts: seq<Tensor>, shape: Shape, dim: int) returns (out: Tensor)
      requires |ts| == worldSize && Alike(ts, shape) && -|shape| <= dim < |shape|
      ensures |Concat(ts)| == |ts| * Size(shape)
      ensures out == AllGather(ts, shape, if dim < 0 then dim + |shape| else dim)
    {
      var axis := if dim < 0 then dim + |shape| else dim;
      ConcatSize(ts, Size(shape));
      GatheredSizes(shape, axis, worldSize);
      var output := new real[Times(worldSize, Size(shape))];
      FillGathered(output, ts);
      var outputTensor := Reshape(Tensor([Times(worldSize, shape[0])] + shape[1..], output[..]), [worldSize] + shape);
      outputTensor := MoveDim(outputTensor, axis);
      out := Reshape(outputTensor, GatheredShape(shape, axis, worldSize));
    }

    method SumAt(ts: seq<Tensor>, moved: Shape, place: nat) returns (sum: real)
      requires Alike(ts, moved) && place < Size(moved)
      ensures sum == Summed(ts, place)
    {
      sum := 0.0;
      for w := 0 to |ts|
        invariant sum == Summed(ts[..w], place)
      {
        assert ts[..w + 1][..w] == ts[..w];
        sum := sum + ts[w].data[place];
      }
      assert ts[..|ts|] == ts;
    }

    /** NCCL fills rank r's output buffer with its part of the sum. */
    method FillReduced(output: array<real>, ts: seq<Tensor>, moved: Shape, r: nat)
      requires Alike(ts, moved) && moved != [] && r < |ts| && moved[0] % |ts| == 0
      requires output.Length == Size(Part(moved, |ts|))
      modifies output
      ensures output[..] == ReducedPart(ts, moved, r).data
    {
      var first := r * output.Length;
      PartInWhole(moved, |ts|, r, first);
      for k := 0 to output.Length
        invariant forall i :: 0 <= i < k ==> output[i] == Summed(ts, first + i)
      {
        output[k] := SumAt(ts, moved, first + k);
      }
    }

    /** `reduce_scatter` on rank r; it asserts that the first axis, after the move, can be dealt evenly. */
    method Scatter(ts: seq<Tensor>, shape: Shape, dim: int, r: nat) returns (out: Result<Tensor>)
      requires |ts| == worldSize && Alike(ts, shape) && -|shape| <= dim < |shape| && r < worldSize
      ensures var axis := if dim < 0 then dim + |shape| else dim;
              if Move(shape, axis)[0] % worldSize != 0 then out == Raised(AssertionFailed)
              else out == Ok(ReduceScatter(ts, shape, axis, r))
    {
      var axis := if dim < 0 then dim + |shape| else dim;
      var inputs, moved := MovedAll(ts, shape, axis), Move(shape, axis);
      if moved[0] % worldSize != 0 {
        return Raised(AssertionFailed);
      }
      var output := new real[Size(Part(moved, worldSize))];
      FillReduced(output, inputs, moved, r);
      return Ok(MoveDim(Tensor(Part(moved, worldSize), output[..]), axis));
    }
  }

  lemma {:induction false} ConcatGrows(ts: seq<Tensor>, n: nat)
    requires n <= |ts|
    ensures |Concat(ts[..n])| <= |Concat(ts)|
    decreases |ts|
  {
    if n < |ts| {
      assert ts[..|ts| - 1][..n] == ts[..n];
      ConcatGrows(ts[..|ts| - 1], n);
    } else {
      assert ts[..n] == ts;
    }
  }
}
