/**
  Inferring data-parallel ranks from node ranks (vllm/engine/arg_utils.py, `create_engine_config`).

  `w` is the world size within one data-parallel rank, `dp` the number of such ranks. The `dp * w` workers
  are dealt to `nnodes` nodes in equal consecutive blocks.
 */
module NodeRanks {
  import opened Prelude

  // ------------------------------------------------------------------
  // Floor division
  // ------------------------------------------------------------------

  lemma MulMonotone(a: int, b: int, w: int)
    requires w > 0 && a <= b
    ensures a * w <= b * w
  {
    assert (b - a) * w >= 0;
  }

  // The quotient is the only number whose multiple is at most a and whose successor's multiple is above it.
  lemma Floor(a: int, w: int, q: int)
    requires w > 0
    ensures q * w <= a < (q + 1) * w <==> a / w == q
  {
    var f := a / w;
    assert a == f * w + a % w;
    assert (f + 1) * w == f * w + w;
    if q < f {
      MulMonotone(q + 1, f, w);
    } else if q > f {
      MulMonotone(f + 1, q, w);
    }
  }

  lemma FloorAtLeast(a: int, w: int, b: int)
    requires w > 0
    ensures b * w <= a <==> b <= a / w
  {
    Floor(a, w, a / w);
    if b <= a / w {
      MulMonotone(b, a / w, w);
    } else {
      MulMonotone(a / w + 1, b, w);
    }
  }

  // ------------------------------------------------------------------
  // The inference
  // ------------------------------------------------------------------

  datatype Layout = Layout(dp: int, w: int, nnodes: int) {
    predicate Valid() { dp >= 1 && w >= 1 && nnodes >= 1 && (dp * w) % nnodes == 0 }

    /** Workers on one node. */
    function Local(): int
      requires nnodes >= 1
    {
      dp * w / nnodes
    }

    /** The inferred data-parallel rank of node n. */
    function Rank(n: int): int
      requires nnodes >= 1 && w >= 1
    {
      n * Local() / w
    }

    /** The inferred number of data-parallel ranks on each node. */
    function LocalSize(): int
      requires nnodes >= 1 && w >= 1
    {
      Max(Local() / w, 1)
    }

    /** Rank r is one of those that node n is told to run. */
    predicate Assigned(n: int, r: int)
      requires nnodes >= 1 && w >= 1
    {
      Rank(n) <= r < Rank(n) + LocalSize()
    }

    /** Some worker of rank r lives on node n. */
    predicate Hosts(n: int, r: int)
      requires nnodes >= 1
    {
      n * Local() < (r + 1) * w && r * w < (n + 1) * Local()
    }
  }

  lemma WorldIsShared(l: Layout)
    requires l.Valid()
    ensures l.nnodes * l.Local() == l.dp * l.w && l.Local() >= 1
  {
    assert l.dp * l.w >= 1 by { MulMonotone(1, l.dp, l.w); }
    if l.Local() <= 0 {
      MulMonotone(l.Local(), 0, l.nnodes);
    }
  }

  // Ranks lie within the data-parallel size and follow the order of the nodes, from 0.
  lemma RanksInRange(l: Layout, n: int)
    requires l.Valid() && 0 <= n < l.nnodes
    ensures 0 <= l.Rank(n) < l.dp
    ensures l.Rank(0) == 0
    ensures l.Rank(n) + l.LocalSize() <= l.dp
  {
    var local := l.Local();
    WorldIsShared(l);
    MulMonotone(n + 1, l.nnodes, local);
    assert (n + 1) * local == n * local + local;
    MulMonotone(0, n, local);
    FloorAtLeast(n * local, l.w, 0);
    FloorAtLeast(n * local, l.w, l.dp);
    assert l.Rank(n) < l.dp;
    var k := local / l.w;
    FloorAtLeast(local, l.w, k);
    FloorAtLeast(n * local, l.w, l.Rank(n));
    assert (l.Rank(n) + k) * l.w == l.Rank(n) * l.w + k * l.w;
    FloorAtLeast(l.dp * l.w, l.w, l.Rank(n) + k);
    FloorAtLeast(l.dp * l.w, l.w, l.dp + 1);
    assert (l.dp + 1) * l.w == l.dp * l.w + l.w;
  }

  lemma RanksMonotone(l: Layout, m: int, n: int)
    requires l.Valid() && 0 <= m <= n
    ensures l.Rank(m) <= l.Rank(n)
  {
    WorldIsShared(l);
    MulMonotone(m, n, l.Local());
    FloorAtLeast(m * l.Local(), l.w, l.Rank(m));
    FloorAtLeast(n * l.Local(), l.w, l.Rank(m));
  }

  // ------------------------------------------------------------------
  // Tiling
  // ------------------------------------------------------------------

  /** Exactly one of the intervals of one size that begin at `starts` has r in it. */
  ghost predicate InOne(starts: seq<int>, size: int, r: int) {
    exists n :: 0 <= n < |starts| && IsIn(starts[n], size, r)
      && forall m :: 0 <= m < |starts| && IsIn(starts[m], size, r) ==> m == n
  }

  predicate IsIn(start: int, size: int, r: int) { start <= r < start + size }

  ghost predicate Tile(starts: seq<int>, size: int, total: int) {
    forall r :: 0 <= r < total ==> InOne(starts, size, r)
  }

  lemma InTwo(starts: seq<int>, size: int, m: nat, n: nat, r: int)
    requires m < n < |starts| && IsIn(starts[m], size, r) && IsIn(starts[n], size, r)
    ensures !InOne(starts, size, r)
  {
  }

  // Ordered intervals from 0 that tile a range follow one another without gap or overlap.
  lemma {:induction false} TilesFollow(starts: seq<int>, size: int, total: int, n: nat)
    requires size >= 1 && n < |starts| && starts[0] == 0
    requires forall i, j :: 0 <= i <= j < |starts| ==> starts[i] <= starts[j]
    requires forall i :: 0 <= i < |starts| ==> starts[i] + size <= total
    requires Tile(starts, size, total)
    ensures starts[n] == n * size
  {
    if n > 0 {
      TilesFollow(starts, size, total, n - 1);
      var here, before := starts[n], starts[n - 1];
      assert before + size == n * size;
      if here < before + size {
        InTwo(starts, size, n - 1, n, here);
        assert false;
      }
      if here > before + size {
        NothingBetween(starts, size, n, before + size);
        assert false;
      }
    }
  }

  lemma NothingBetween(starts: seq<int>, size: int, n: nat, r: int)
    requires 0 < n <= |starts|
    requires forall i, j :: 0 <= i <= j < |starts| ==> starts[i] <= starts[j]
    requires starts[n - 1] + size <= r && (n < |starts| ==> r < starts[n])
    ensures !InOne(starts, size, r)
  {
    forall m | 0 <= m < |starts|
      ensures !IsIn(starts[m], size, r)
    {
      if m < n {
        assert starts[m] <= starts[n - 1];
      } else {
        assert starts[n] <= starts[m];
      }
    }
  }

  lemma TilesFill(starts: seq<int>, size: int, total: int)
    requires size >= 1 && starts != [] && starts[0] == 0
    requires forall i, j :: 0 <= i <= j < |starts| ==> starts[i] <= starts[j]
    requires forall i :: 0 <= i < |starts| ==> starts[i] + size <= total
    requires Tile(starts, size, total)
    ensures total == |starts| * size
  {
    var last := |starts| - 1;
    TilesFollow(starts, size, total, last);
    assert last * size + size == |starts| * size;
    if starts[last] + size < total {
      NothingBetween(starts, size, |starts|, starts[last] + size);
      assert false;
    }
  }

  lemma MultiplesTile(starts: seq<int>, size: int, total: int)
    requires size >= 1 && total == |starts| * size
    requires forall n :: 0 <= n < |starts| ==> starts[n] == n * size
    ensures Tile(starts, size, total)
  {
    forall r | 0 <= r < total
      ensures InOne(starts, size, r)
    {
      var n := r / size;
      Floor(r, size, n);
      FloorAtLeast(r, size, 0);
      FloorAtLeast(r, size, |starts|);
      assert (n + 1) * size == n * size + size;
      assert IsIn(starts[n], size, r);
      forall m | 0 <= m < |starts| && IsIn(starts[m], size, r)
        ensures m == n
      {
        assert (m + 1) * size == m * size + size;
        Floor(r, size, m);
      }
    }
  }

  function Starts(l: Layout): (s: seq<int>)
    requires l.Valid()
    ensures |s| == l.nnodes && forall n :: 0 <= n < |s| ==> s[n] == l.Rank(n)
  {
    seq(l.nnodes, n => l.Rank(n))
  }

  lemma MulAssoc(a: int, b: int, c: int)
    ensures a * (b * c) == (a * b) * c
  {
  }

  lemma MulCancel(a: int, b: int, w: int)
    requires w > 0 && a * w == b * w
    ensures a == b
  {
    assert (a - b) * w == 0;
  }

  lemma RankOfMultiple(l: Layout, n: int)
    requires l.Valid() && l.Local() % l.w == 0
    ensures l.LocalSize() == l.Local() / l.w && l.Local() == l.LocalSize() * l.w
    ensures l.Rank(n) == n * l.LocalSize() && l.dp == l.nnodes * l.LocalSize()
  {
    var k := l.Local() / l.w;
    WorldIsShared(l);
    assert l.Local() == k * l.w;
    FloorAtLeast(l.Local(), l.w, 1);
    if k < 1 {
      MulMonotone(k, 0, l.w);
    }
    assert n * l.Local() == (n * k) * l.w by { MulAssoc(n, k, l.w); }
    assert (n * k + 1) * l.w == (n * k) * l.w + l.w;
    Floor(n * l.Local(), l.w, n * k);
    MulAssoc(l.nnodes, k, l.w);
    MulCancel(l.dp, l.nnodes * k, l.w);
  }

  lemma StartsInOrder(l: Layout)
    requires l.Valid()
    ensures var s := Starts(l);
            && s[0] == 0
            && (forall i, j :: 0 <= i <= j < |s| ==> s[i] <= s[j])
            && (forall i :: 0 <= i < |s| ==> s[i] + l.LocalSize() <= l.dp)
  {
    var s := Starts(l);
    RanksInRange(l, 0);
    forall i, j | 0 <= i <= j < |s|
      ensures s[i] <= s[j]
    {
      RanksMonotone(l, i, j);
    }
    forall i | 0 <= i < |s|
      ensures s[i] + l.LocalSize() <= l.dp
    {
      RanksInRange(l, i);
    }
  }

  lemma FilledIsMultiple(l: Layout, k: int)
    requires l.Valid() && l.dp == l.nnodes * k
    ensures l.Local() == k * l.w && l.Local() % l.w == 0
  {
    WorldIsShared(l);
    MulAssoc(l.nnodes, k, l.w);
    MulCancel(l.Local(), k * l.w, l.nnodes);
    Floor(l.Local(), l.w, k);
    assert (k + 1) * l.w == k * l.w + l.w;
    assert l.Local() == (l.Local() / l.w) * l.w + l.Local() % l.w;
  }

  // The nodes' intervals tile the data-parallel ranks exactly once if and only if a node's workers make up
  // whole data-parallel ranks.
  lemma TilesIff(l: Layout)
    requires l.Valid()
    ensures Tile(Starts(l), l.LocalSize(), l.dp) <==> l.Local() % l.w == 0
  {
    var s, size, total := Starts(l), l.LocalSize(), l.dp;
    StartsInOrder(l);
    if l.Local() % l.w == 0 {
      forall n | 0 <= n < |s|
        ensures s[n] == n * size
      {
        RankOfMultiple(l, n);
      }
      RankOfMultiple(l, 0);
      MultiplesTile(s, size, total);
    } else if Tile(s, size, total) {
      TilesFill(s, size, total);
      FilledIsMultiple(l, size);
      assert false;
    }
  }

  // ------------------------------------------------------------------
  // Spanning
  // ------------------------------------------------------------------

  // When whole nodes make up a data-parallel rank, rank r is spanned by exactly the q consecutive nodes from
  // r * q on, and every node runs one rank.
  lemma RankSpansNodes(l: Layout, n: int, r: int)
    requires l.Valid() && l.Local() > 0 && l.w % l.Local() == 0
    ensures var q := l.w / l.Local(); l.Rank(n) == r <==> r * q <= n < (r + 1) * q
    ensures l.LocalSize() == 1
  {
    var local := l.Local();
    var q := l.w / local;
    assert l.w == q * local;
    Floor(n * local, l.w, r);
    MulAssoc(r, q, local);
    MulAssoc(r + 1, q, local);
    ScaledOrder(r * q, n, local);
    ScaledOrder((r + 1) * q, n, local);
    FloorAtLeast(local, l.w, 2);
    if q < 1 {
      MulMonotone(q, 0, local);
    } else {
      MulMonotone(1, q, local);
    }
  }

  lemma ScaledOrder(a: int, b: int, w: int)
    requires w > 0
    ensures a * w <= b * w <==> a <= b
    ensures b * w < a * w <==> b < a
  {
    if a <= b {
      MulMonotone(a, b, w);
    } else {
      MulMonotone(b + 1, a, w);
    }
  }

  /** Node n is told to run exactly the ranks that have workers on it. */
  predicate AssignedAsHosted(l: Layout, n: int, r: int)
    requires l.nnodes >= 1 && l.w >= 1
  {
    l.Hosts(n, r) <==> l.Assigned(n, r)
  }

  lemma WholeRanksHosted(l: Layout, n: int, r: int)
    requires l.Valid() && l.Local() % l.w == 0
    ensures AssignedAsHosted(l, n, r)
  {
    var k := l.LocalSize();
    RankOfMultiple(l, n);
    MulAssoc(n, k, l.w);
    MulAssoc(n + 1, k, l.w);
    ScaledOrder(n * k, r + 1, l.w);
    ScaledOrder(r + 1, n * k, l.w);
    ScaledOrder(r, (n + 1) * k, l.w);
    ScaledOrder((n + 1) * k, r, l.w);
    assert (n + 1) * k == n * k + k;
  }

  lemma WholeNodesHosted(l: Layout, n: int, r: int)
    requires l.Valid() && l.Local() > 0 && l.w % l.Local() == 0
    ensures AssignedAsHosted(l, n, r)
  {
    var local := l.Local();
    var q := l.w / local;
    assert l.w == q * local;
    RankSpansNodes(l, n, r);
    MulAssoc(r, q, local);
    MulAssoc(r + 1, q, local);
    ScaledOrder((r + 1) * q, n, local);
    ScaledOrder(n + 1, r * q, local);
  }

  // A node larger than a rank has part of one more rank than it is told to run.
  lemma LargeNodeStraddles(l: Layout, r: int)
    requires l.Valid() && l.Local() > l.w && l.Local() % l.w != 0 && r == l.Local() / l.w
    ensures r < l.dp && l.Hosts(0, r) && !l.Assigned(0, r)
  {
    var local := l.Local();
    WorldIsShared(l);
    RanksInRange(l, 0);
    Floor(local, l.w, r);
    assert r * l.w < local;
    FloorAtLeast(local, l.w, 1);
    MulMonotone(1, l.nnodes, local);
    ScaledOrder(l.dp, r, l.w);
  }

  // A node smaller than a rank has parts of two ranks, and is told to run one.
  lemma SmallNodeStraddles(l: Layout, n: int)
    requires l.Valid() && 0 < l.Local() < l.w && l.w % l.Local() != 0 && n == l.w / l.Local()
    ensures 0 <= n < l.nnodes && 1 < l.dp && l.Hosts(n, 1) && !l.Assigned(n, 1)
  {
    var local := l.Local();
    WorldIsShared(l);
    Floor(l.w, local, n);
    assert l.w == n * local + l.w % local;
    assert n * local < l.w;
    FloorAtLeast(l.w, local, 0);
    MulMonotone(1, l.dp, l.w);
    ScaledOrder(l.nnodes, n, local);
    MulMonotone(0, n, local);
    Floor(n * local, l.w, 0);
    Floor(local, l.w, 0);
    MultipleMod(l.nnodes, local);
  }

  lemma MultipleMod(k: int, m: int)
    requires m > 0
    ensures (k * m) % m == 0
  {
    Floor(k * m, m, k);
    assert (k + 1) * m == k * m + m;
    assert k * m == (k * m) / m * m + (k * m) % m;
  }

  ghost predicate AlwaysAsHosted(l: Layout)
    requires l.nnodes >= 1 && l.w >= 1
  {
    forall n, r :: 0 <= n < l.nnodes && 0 <= r < l.dp ==> AssignedAsHosted(l, n, r)
  }

  lemma NeitherDividesStraddles(l: Layout)
    requires l.Valid() && l.Local() > 0 && l.Local() % l.w != 0 && l.w % l.Local() != 0
    ensures !AlwaysAsHosted(l)
  {
    if l.Local() > l.w {
      LargeNodeStraddles(l, l.Local() / l.w);
      FloorAtLeast(l.Local(), l.w, 0);
      assert !AssignedAsHosted(l, 0, l.Local() / l.w);
    } else {
      SmallNodeStraddles(l, l.w / l.Local());
      assert !AssignedAsHosted(l, l.w / l.Local(), 1);
    }
  }

  // Every node runs exactly the data-parallel ranks that have workers on it if and only if one of the two
  // sizes, a node's and a rank's, divides the other.
  lemma AssignedAsHostedIff(l: Layout)
    requires l.Valid()
    ensures l.Local() >= 1
    ensures AlwaysAsHosted(l) <==> l.Local() % l.w == 0 || l.w % l.Local() == 0
  {
    WorldIsShared(l);
    if l.Local() % l.w == 0 {
      forall n, r
        ensures AssignedAsHosted(l, n, r)
      {
        WholeRanksHosted(l, n, r);
      }
    } else if l.w % l.Local() == 0 {
      forall n, r
        ensures AssignedAsHosted(l, n, r)
      {
        WholeNodesHosted(l, n, r);
      }
    } else {
      NeitherDividesStraddles(l);
    }
  }

  // ------------------------------------------------------------------
  // The launch options
  // ------------------------------------------------------------------

  datatype Backend = MP | RAY

  /** The options that the inference only reads. */
  datatype Options = Options(
    dataParallelSize: int,
    pipelineParallelSize: int,
    tensorParallelSize: int,
    prefillContextParallelSize: int,
    nnodes: int,
    nodeRank: int,
    backend: Backend,
    externalLb: bool,
    startRank: Option<int>,
    faultTolerance: bool,
    headless: bool,
    isMoe: bool,
    raySpans: bool)
  {
    predicate Positive() {
      && dataParallelSize >= 1 && pipelineParallelSize >= 1
      && tensorParallelSize >= 1 && prefillContextParallelSize >= 1
    }

    function WithinDp(): int { pipelineParallelSize * tensorParallelSize * prefillContextParallelSize }

    function ToLayout(): Layout { Layout(dataParallelSize, WithinDp(), nnodes) }
  }

  /** The options that it rewrites. */
  datatype Choice = Choice(rank: Option<int>, sizeLocal: Option<int>, hybridLb: bool)

  /** What the rest of the configuration uses: the local data-parallel size, and whether balancing is external. */
  datatype Inferred = Inferred(sizeLocal: int, externalLb: bool)

  lemma WithinDpPositive(o: Options)
    requires o.Positive()
    ensures o.WithinDp() >= 1
  {
    MulMonotone(1, o.pipelineParallelSize, o.tensorParallelSize);
    MulMonotone(1, o.pipelineParallelSize * o.tensorParallelSize, o.prefillContextParallelSize);
  }

  /** The checks of the node layout; the rewritten options and the inferred rank of this node. */
  function Placed(o: Options, c: Choice): Result<(Choice, int)>
    requires o.Positive()
  {
    WithinDpPositive(o);
    if o.nnodes <= 1 then Ok((c, 0))
    else if (o.dataParallelSize * o.WithinDp()) % o.nnodes != 0 then Raised(ValueError)
    else if !(0 <= o.nodeRank < o.nnodes) then Raised(ValueError)
    else
      var rank := o.ToLayout().Rank(o.nodeRank);
      if o.dataParallelSize > 1 && o.externalLb then Ok((c.(rank := Some(rank)), rank))
      else if c.sizeLocal.None? then Ok((c.(sizeLocal := Some(o.ToLayout().LocalSize())), rank))
      else Ok((c, rank))
  }

  /** Load balancing, for a placed node. */
  function Balanced(o: Options, c: Choice, rank: int): (Choice, Result<Inferred>) {
    var external := o.externalLb || c.rank.Some?;
    if o.faultTolerance && !external then (c, Raised(ValueError))
    else if o.dataParallelSize > 1 && external && !o.isMoe then (c, Raised(ValueError))
    else if external then
      if c.rank.None? then (c, Raised(ValueError))
      else if c.sizeLocal != Some(1) && c.sizeLocal != None then (c, Raised(ValueError))
      else (c.(hybridLb := false), Ok(Inferred(1, true)))
    else if c.sizeLocal.Some? then
      var size := c.sizeLocal.value;
      var hybrid := c.hybridLb || (o.startRank.Some? && !o.headless);
      var chosen := if o.startRank.Some? then o.startRank else Some(rank);
      (c.(hybridLb := hybrid && size != 1 && size != o.dataParallelSize, rank := chosen),
       Ok(Inferred(size, hybrid && size == 1)))
    else if c.hybridLb then (c, Raised(ValueError))
    else (c, Ok(Inferred(if o.backend == RAY && o.raySpans then 1 else o.dataParallelSize, false)))
  }

  function Infer(o: Options, c: Choice): (Choice, Result<Inferred>)
    requires o.Positive()
  {
    if o.headless && c.hybridLb then (c, Raised(AssertionFailed))
    else if c.hybridLb && o.externalLb then (c, Raised(ValueError))
    else if o.nnodes > 1 && o.backend != MP then (c, Raised(ValueError))
    else
      var placed := Placed(o, c);
      if placed.Raised? then (c, Raised(placed.error)) else Balanced(o, placed.value.0, placed.value.1)
  }

  class EngineArgs {
    const options: Options
    var dataParallelRank: Option<int>
    var dataParallelSizeLocal: Option<int>
    var dataParallelHybridLb: bool

    constructor (options: Options, choice: Choice)
      ensures this.options == options && Value() == choice
    {
      this.options := options;
      dataParallelRank, dataParallelSizeLocal, dataParallelHybridLb := choice.rank, choice.sizeLocal, choice.hybridLb;
    }

    ghost function Value(): Choice
      reads this
    {
      Choice(dataParallelRank, dataParallelSizeLocal, dataParallelHybridLb)
    }

    method PlaceNode() returns (r: Result<int>)
      requires options.Positive()
      modifies this
      ensures var placed := Placed(options, old(Value()));
              if placed.Ok? then r == Ok(placed.value.1) && Value() == placed.value.0
              else r == Raised(placed.error) && Value() == old(Value())
    {
      var inferredRank := 0;
      if options.nnodes > 1 {
        WithinDpPositive(options);
        var withinDp := options.WithinDp();
        var world := options.dataParallelSize * withinDp;
        if world % options.nnodes != 0 {
          return Raised(ValueError);
        }
        if !(0 <= options.nodeRank < options.nnodes) {
          return Raised(ValueError);
        }
        var localWorld := world / options.nnodes;
        inferredRank := options.nodeRank * localWorld / withinDp;
        if options.dataParallelSize > 1 && options.externalLb {
          dataParallelRank := Some(inferredRank);
        } else if dataParallelSizeLocal.None? {
          dataParallelSizeLocal := Some(Max(localWorld / withinDp, 1));
        }
      }
      return Ok(inferredRank);
    }

    method ChooseBalancing(inferredRank: int) returns (r: Result<Inferred>)
      modifies this
      ensures (Value(), r) == Balanced(options, old(Value()), inferredRank)
    {
      var externalLb := options.externalLb || dataParallelRank.Some?;
      if options.faultTolerance && !externalLb {
        return Raised(ValueError);
      }
      if options.dataParallelSize > 1 && externalLb && !options.isMoe {
        return Raised(ValueError);
      }
      if externalLb {
        if dataParallelRank.None? {
          return Raised(ValueError);
        }
        if dataParallelSizeLocal != Some(1) && dataParallelSizeLocal != None {
          return Raised(ValueError);
        }
        dataParallelHybridLb := false;
        return Ok(Inferred(1, true));
      } else if dataParallelSizeLocal.Some? {
        var sizeLocal := dataParallelSizeLocal.value;
        if options.startRank.Some? && !options.headless {
          dataParallelHybridLb := true;
        }
        if dataParallelHybridLb && sizeLocal == 1 {
          externalLb := true;
          dataParallelHybridLb := false;
        }
        if sizeLocal == options.dataParallelSize {
          dataParallelHybridLb := false;
        }
        dataParallelRank := if options.startRank.Some? then options.startRank else Some(inferredRank);
        return Ok(Inferred(sizeLocal, externalLb));
      } else {
        if dataParallelHybridLb {
          return Raised(ValueError);
        }
        return Ok(Inferred(if options.backend == RAY && options.raySpans then 1 else options.dataParallelSize, false));
      }
    }

    /** The data-parallel part of `create_engine_config`. */
    method InferDataParallel() returns (r: Result<Inferred>)
      requires options.Positive()
      modifies this
      ensures (Value(), r) == Infer(options, old(Value()))
    {
      if options.headless && dataParallelHybridLb {
        return Raised(AssertionFailed);
      }
      if dataParallelHybridLb && options.externalLb {
        return Raised(ValueError);
      }
      if options.nnodes > 1 && options.backend != MP {
        return Raised(ValueError);
      }
      var placed := PlaceNode();
      if placed.Raised? {
        return Raised(placed.error);
      }
      r := ChooseBalancing(placed.value);
    }
  }

  // ------------------------------------------------------------------
  // A whole launch
  // ------------------------------------------------------------------

  /** The options of node n in a launch that gives every node the same options but its rank. */
  function OnNode(o: Options, n: int): Options { o.(nodeRank := n) }

  const UNSET := Choice(None, None, false)

  /** A multi-node launch on the MP backend, balanced internally, with nothing but the node ranks given. */
  predicate InternalLaunch(o: Options) {
    && o.Positive() && o.nnodes > 1 && o.backend == MP && !o.externalLb && o.startRank.None? && !o.faultTolerance
  }

  // Such a launch is accepted on every node exactly when the nodes divide the world evenly, and gives node n
  // the inferred rank and local size.
  lemma InternalLaunchInfers(o: Options, n: int)
    requires InternalLaunch(o) && 0 <= n < o.nnodes
    ensures var (c, r) := Infer(OnNode(o, n), UNSET);
            && o.WithinDp() >= 1
            && (r.Ok? <==> o.ToLayout().Valid())
            && (r.Ok? ==> c.rank == Some(o.ToLayout().Rank(n)) && r.value == Inferred(o.ToLayout().LocalSize(), false))
            && (r.Ok? ==> c.sizeLocal == Some(o.ToLayout().LocalSize()))
  {
    WithinDpPositive(o);
    assert OnNode(o, n).WithinDp() == o.WithinDp();
    assert OnNode(o, n).ToLayout() == o.ToLayout();
  }

  /** Node n has been given rank r, by what the inference left. */
  predicate Runs(o: Options, n: int, r: int)
    requires o.Positive()
  {
    var (c, result) := Infer(OnNode(o, n), UNSET);
    result.Ok? && c.rank.Some? && IsIn(c.rank.value, result.value.sizeLocal, r)
  }

  /** Every data-parallel rank runs on exactly one node. */
  ghost predicate RunsOnce(o: Options, r: int)
    requires o.Positive()
  {
    exists n :: 0 <= n < o.nnodes && Runs(o, n, r) && forall m :: 0 <= m < o.nnodes && Runs(o, m, r) ==> m == n
  }

  lemma RunsAsAssigned(o: Options, n: int, r: int)
    requires InternalLaunch(o) && o.WithinDp() >= 1 && o.ToLayout().Valid() && 0 <= n < o.nnodes
    ensures Runs(o, n, r) <==> IsIn(Starts(o.ToLayout())[n], o.ToLayout().LocalSize(), r)
  {
    InternalLaunchInfers(o, n);
    assert Starts(o.ToLayout())[n] == o.ToLayout().Rank(n);
  }

  lemma InOneIfRunsOnce(o: Options, starts: seq<int>, size: int, r: int)
    requires o.Positive() && |starts| == o.nnodes && RunsOnce(o, r)
    requires forall n :: 0 <= n < |starts| ==> (Runs(o, n, r) <==> IsIn(starts[n], size, r))
    ensures InOne(starts, size, r)
  {
    var n :| 0 <= n < o.nnodes && Runs(o, n, r) && forall m :: 0 <= m < o.nnodes && Runs(o, m, r) ==> m == n;
    assert IsIn(starts[n], size, r);
  }

  lemma RunsOnceIfInOne(o: Options, starts: seq<int>, size: int, r: int)
    requires o.Positive() && |starts| == o.nnodes && InOne(starts, size, r)
    requires forall n :: 0 <= n < |starts| ==> (Runs(o, n, r) <==> IsIn(starts[n], size, r))
    ensures RunsOnce(o, r)
  {
    var n :| 0 <= n < |starts| && IsIn(starts[n], size, r)
             && forall m :: 0 <= m < |starts| && IsIn(starts[m], size, r) ==> m == n;
    assert Runs(o, n, r);
  }

  lemma RunsOnceIffInOne(o: Options, starts: seq<int>, size: int, r: int)
    requires o.Positive() && |starts| == o.nnodes
    requires forall n :: 0 <= n < |starts| ==> (Runs(o, n, r) <==> IsIn(starts[n], size, r))
    ensures RunsOnce(o, r) <==> InOne(starts, size, r)
  {
    if RunsOnce(o, r) {
      InOneIfRunsOnce(o, starts, size, r);
    }
    if InOne(starts, size, r) {
      RunsOnceIfInOne(o, starts, size, r);
    }
  }

  // From the options to the outcome: an accepted internal launch runs every data-parallel rank on exactly one
  // node if and only if a node's share of the world is a whole number of data-parallel ranks.
  lemma LaunchRunsEveryRankOnceIff(o: Options)
    requires InternalLaunch(o) && o.WithinDp() >= 1 && o.ToLayout().Valid()
    ensures (forall r :: 0 <= r < o.dataParallelSize ==> RunsOnce(o, r)) <==> o.ToLayout().Local() % o.WithinDp() == 0
  {
    var l := o.ToLayout();
    var s, size := Starts(l), l.LocalSize();
    forall r
      ensures RunsOnce(o, r) <==> InOne(s, size, r)
    {
      forall n | 0 <= n < |s|
        ensures Runs(o, n, r) <==> IsIn(s[n], size, r)
      {
        RunsAsAssigned(o, n, r);
      }
      RunsOnceIffInOne(o, s, size, r);
    }
    TilesIff(l);
  }

  // With external balancing each node runs one data-parallel rank, its inferred one. The launch is accepted
  // exactly for an even layout with several ranks of a mixture-of-experts model: a single rank is not inferred.
  lemma ExternalLaunchInfers(o: Options, n: int)
    requires o.Positive() && o.nnodes > 1 && o.backend == MP && o.externalLb && 0 <= n < o.nnodes
    ensures var (c, r) := Infer(OnNode(o, n), UNSET);
            && o.WithinDp() >= 1
            && (r.Ok? <==> o.ToLayout().Valid() && o.dataParallelSize > 1 && o.isMoe)
            && (r.Ok? ==> c.rank == Some(o.ToLayout().Rank(n)) && r.value == Inferred(1, true))
  {
    WithinDpPositive(o);
    assert OnNode(o, n).WithinDp() == o.WithinDp();
    assert OnNode(o, n).ToLayout() == o.ToLayout();
  }
}
