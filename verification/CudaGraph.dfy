/**
  CUDA-graph mode and capture sizes (vllm/config/compilation.py: `CUDAGraphMode`,
  `resolve_cudagraph_mode_and_sizes`, `adjust_cudagraph_sizes_for_spec_decode`), and the second computation
  of the rounded sizes in docker/speculative/sm75_fa2_graph.py, `captured_query_rows`.
 */
module CudaGraph {
  import opened Prelude

  // ------------------------------------------------------------------
  // Modes
  // ------------------------------------------------------------------

  /** The value of an enum member: a number, or the numbers of its decode and mixed routines. */
  datatype Value = One(n: int) | Two(decode: int, mixed: int)

  datatype CUDAGraphMode = NONE | PIECEWISE | FULL | FULL_DECODE_ONLY | FULL_AND_PIECEWISE {
    function Value(): Value {
      match this
      case NONE => One(0)
      case PIECEWISE => One(1)
      case FULL => One(2)
      case FULL_DECODE_ONLY => Two(2, 0)
      case FULL_AND_PIECEWISE => Two(2, 1)
    }

    predicate SeparateRoutine() { Value().Two? }

    function DecodeMode(): CUDAGraphMode { if SeparateRoutine() then OfNumber(Value().decode) else this }

    function MixedMode(): CUDAGraphMode { if SeparateRoutine() then OfNumber(Value().mixed) else this }

    function MaxMode(): CUDAGraphMode {
      if SeparateRoutine() then OfNumber(Max(Value().decode, Value().mixed)) else this
    }

    predicate HasMode(mode: CUDAGraphMode)
      requires !mode.SeparateRoutine()
    {
      if SeparateRoutine() then mode.Value().n == Value().decode || mode.Value().n == Value().mixed
      else this == mode
    }

    predicate RequiresPiecewise() { HasMode(PIECEWISE) }

    predicate HasFull() { MaxMode() == FULL }

    function WithoutPiecewise(): CUDAGraphMode {
      if this == PIECEWISE then NONE
      else if this == FULL_AND_PIECEWISE then FULL_DECODE_ONLY
      else this
    }
  }

  function OfNumber(n: int): CUDAGraphMode {
    if n == 0 then NONE else if n == 1 then PIECEWISE else FULL
  }

  /** How much of a batch an attention backend can capture, weakest first. */
  datatype Support = NEVER | UNIFORM_SINGLE_TOKEN_DECODE | UNIFORM_BATCH | ALWAYS {
    function Rank(): int {
      match this
      case NEVER => 0
      case UNIFORM_SINGLE_TOKEN_DECODE => 1
      case UNIFORM_BATCH => 2
      case ALWAYS => 3
    }
  }

  datatype CompilationMode = EAGER | STOCK_TORCH_COMPILE | DYNAMO_TRACE_ONCE | VLLM_COMPILE

  /** The part of the configuration that resolution only reads. */
  datatype Setup = Setup(
    compilation: CompilationMode,
    splittingOps: Option<seq<string>>,
    attentionOps: seq<string>,
    inductorGraphPartition: bool,
    enableSp: bool)
  {
    predicate SplittingOpsContainAttention() {
      splittingOps.Some? && forall op :: op in attentionOps ==> op in splittingOps.value
    }
  }

  datatype KVCacheConfig = KVCacheConfig(hasMambaLayers: bool, numBlocks: int)

  datatype Arguments = Arguments(
    support: Support,
    queryLen: int,
    useV2Runner: bool,
    tensorParallelSize: int,
    kvCache: Option<KVCacheConfig>,
    maxNumReqs: Option<int>,
    isProfiling: bool,
    piecewiseAvailable: bool)

  /** The part that it rewrites. */
  datatype Settings = Settings(mode: Option<CUDAGraphMode>, sizes: Option<seq<int>>, maxSize: Option<int>)

  // ------------------------------------------------------------------
  // Rounding
  // ------------------------------------------------------------------

  function RoundUp(x: int, m: int): int
    requires m > 0
  {
    (x + m - 1) / m * m
  }

  ghost predicate Divides(m: int, x: int) { exists k: int :: x == k * m }

  lemma MultiplesApart(j: int, k: int, m: int)
    requires m > 0 && j * m < k * m + m
    ensures j <= k
  {
    if j > k {
      MultiplesStep(j, k, m);
    }
  }

  lemma MultiplesStep(j: int, k: int, m: int)
    requires m > 0 && j > k
    ensures j * m >= k * m + m
  {
    NonNegative(j - k - 1, m);
    Distribute(j, k, m);
  }

  lemma NonNegative(a: int, b: int)
    requires a >= 0 && b >= 0
    ensures a * b >= 0
  {
  }

  lemma Distribute(j: int, k: int, m: int)
    ensures (j - k - 1) * m == j * m - k * m - m
  {
  }

  // Rounding up gives the least multiple that covers a size.
  lemma RoundUpIsLeast(x: int, m: int)
    requires m > 0
    ensures Divides(m, RoundUp(x, m)) && x <= RoundUp(x, m) < x + m
    ensures forall k: int :: x <= k * m ==> RoundUp(x, m) <= k * m
  {
    var c := (x + m - 1) / m;
    assert c * m == RoundUp(x, m);
    forall k: int | x <= k * m
      ensures c * m <= k * m
    {
      MultiplesApart(c, k, m);
      assert (k - c) * m >= 0;
    }
  }

  lemma RoundUpFixes(x: int, m: int)
    requires m > 0
    ensures Divides(m, x) <==> RoundUp(x, m) == x
  {
    RoundUpIsLeast(x, m);
    if Divides(m, x) {
      var k: int :| x == k * m;
      assert x <= k * m;
    }
  }

  // ------------------------------------------------------------------
  // Sorting a set
  // ------------------------------------------------------------------

  ghost predicate Ascending(s: seq<int>) { forall i, j :: 0 <= i < j < |s| ==> s[i] < s[j] }

  ghost function Pick<T>(s: set<T>): (a: T)
    requires s != {}
    ensures a in s
  {
    var a :| a in s;
    a
  }

  lemma LeastOf(s: set<int>, a: int, m: int)
    requires a in s && m in s && forall x <- s - {a} :: m <= x
    ensures exists m :: m in s && forall x <- s :: m <= x
  {
    var least := Min(a, m);
    assert forall x <- s :: x == a || x in s - {a};
    assert least in s && forall x <- s :: least <= x;
  }

  lemma {:induction false} SmallestExists(s: set<int>)
    requires s != {}
    ensures exists m :: m in s && forall x <- s :: m <= x
    decreases |s|
  {
    var a := Pick(s);
    var rest := s - {a};
    if rest == {} {
      LeastOf(s, a, a);
    } else {
      SmallestExists(rest);
      var m :| m in rest && forall x <- rest :: m <= x;
      LeastOf(s, a, m);
    }
  }

  function Smallest(s: set<int>): (m: int)
    requires s != {}
    ensures m in s && forall x <- s :: m <= x
  {
    SmallestExists(s);
    var m :| m in s && forall x <- s :: m <= x;
    m
  }

  function Sorted(s: set<int>): (r: seq<int>)
    ensures forall x :: x in r <==> x in s
    decreases |s|
  {
    if s == {} then [] else [Smallest(s)] + Sorted(s - {Smallest(s)})
  }

  lemma {:induction false} SortedAscends(s: set<int>)
    ensures Ascending(Sorted(s))
    decreases |s|
  {
    if s != {} {
      SortedAscends(s - {Smallest(s)});
      PrependAscends(Smallest(s), Sorted(s - {Smallest(s)}));
    }
  }

  lemma PrependAscends(m: int, rest: seq<int>)
    requires Ascending(rest) && forall x :: x in rest ==> m < x
    ensures Ascending([m] + rest)
  {
    assert forall i :: 0 <= i < |rest| ==> rest[i] in rest;
  }

  lemma FirstIn(s: seq<int>)
    requires s != []
    ensures s[0] in s
  {
  }

  // The ascending list of a set of numbers is unique.
  lemma {:induction false} AscendingUnique(r: seq<int>, s: seq<int>)
    requires Ascending(r) && Ascending(s)
    requires forall x :: x in r <==> x in s
    ensures r == s
    decreases |r|
  {
    if r == [] {
      if s != [] {
        FirstIn(s);
        assert false;
      }
    } else if s == [] {
      FirstIn(r);
      assert false;
    } else {
      FirstIn(r);
      FirstIn(s);
      assert r[0] == s[0];
      assert forall x :: x in r[1..] <==> x in r && x != r[0] by {
        assert r == [r[0]] + r[1..];
      }
      assert forall x :: x in s[1..] <==> x in s && x != s[0] by {
        assert s == [s[0]] + s[1..];
      }
      AscendingUnique(r[1..], s[1..]);
      assert r == [r[0]] + r[1..] && s == [s[0]] + s[1..];
    }
  }

  function Last(s: seq<int>): int {
    if s == [] then 0 else s[|s| - 1]
  }

  // ------------------------------------------------------------------
  // Adjusting the sizes
  // ------------------------------------------------------------------

  function MultipleOf(queryLen: int, tensorParallelSize: int, enableSp: bool): Result<int>
    requires queryLen >= 1
  {
    if tensorParallelSize > 1 && enableSp then
      var m := Max(queryLen, tensorParallelSize);
      if m % queryLen != 0 || m % tensorParallelSize != 0 then Raised(ValueError) else Ok(m)
    else Ok(queryLen)
  }

  /** The sizes whose rounding fits. */
  function Rounded(sizes: seq<int>, m: int, maxSize: int): set<int>
    requires m > 0
  {
    set size | size in sizes && RoundUp(size, m) <= maxSize :: RoundUp(size, m)
  }

  /** The list that replaces nonempty sizes, or the error. */
  function NewSizes(sizes: seq<int>, m: int, maxSize: int): Result<seq<int>>
    requires m > 0
  {
    var rounded := Sorted(Rounded(sizes, m, maxSize));
    if rounded != [] then Ok(rounded)
    else if m <= maxSize then Ok([m])
    else Raised(ValueError)
  }

  function AdjustTo(s: Settings, m: int): Result<Settings> {
    if s.sizes.None? || s.sizes.value == [] || m <= 1 then Ok(s)
    else if s.maxSize.None? then Raised(AssertionFailed)
    else
      var sizes := NewSizes(s.sizes.value, m, s.maxSize.value);
      if sizes.Raised? then Raised(sizes.error)
      else Ok(s.(sizes := Some(sizes.value), maxSize := Some(Last(sizes.value))))
  }

  function Adjust(s: Settings, queryLen: int, tensorParallelSize: int, enableSp: bool): Result<Settings>
    requires queryLen >= 1
  {
    var multiple := MultipleOf(queryLen, tensorParallelSize, enableSp);
    if multiple.Raised? then Raised(multiple.error) else AdjustTo(s, multiple.value)
  }

  // The chosen multiple exists if and only if one of the two lengths divides the other, and then it is their
  // least common multiple: a multiple of both that divides every other.
  lemma MultipleIsLcm(queryLen: int, tensorParallelSize: int)
    requires queryLen >= 1 && tensorParallelSize > 1
    ensures var m := MultipleOf(queryLen, tensorParallelSize, true);
            && (m.Ok? <==> queryLen % tensorParallelSize == 0 || tensorParallelSize % queryLen == 0)
            && (m.Ok? ==> m.value % queryLen == 0 && m.value % tensorParallelSize == 0)
            && (m.Ok? ==> forall x: int :: x % queryLen == 0 && x % tensorParallelSize == 0 ==> x % m.value == 0)
  {
    SelfMod(queryLen);
    SelfMod(tensorParallelSize);
    if queryLen < tensorParallelSize {
      SmallMod(queryLen, tensorParallelSize);
    } else if tensorParallelSize < queryLen {
      SmallMod(tensorParallelSize, queryLen);
    }
  }

  lemma SelfMod(x: int)
    requires x > 0
    ensures x % x == 0
  {
  }

  lemma SmallMod(x: int, m: int)
    requires 0 < x < m
    ensures x % m == x && x % m != 0
  {
  }

  /** What the new sizes promise about the old ones. */
  ghost predicate Covers(before: seq<int>, oldMax: int, m: int, sizes: seq<int>)
    requires m > 0
  {
    && sizes != [] && Ascending(sizes)
    && (forall i :: 0 <= i < |sizes| ==> sizes[i] <= oldMax && Divides(m, sizes[i]))
    && (forall x <- before :: RoundUp(x, m) <= oldMax ==> RoundUp(x, m) in sizes)
    && (Rounded(before, m, oldMax) != {} ==> forall y <- sizes :: exists x <- before :: RoundUp(x, m) == y)
  }

  // A rewrite gives a nonempty, strictly ascending list of multiples within the old maximum; each size whose
  // rounding fits keeps its least covering multiple, and nothing else is in the list unless none fits.
  lemma NewSizesCover(sizes: seq<int>, m: int, maxSize: int)
    requires m > 0 && NewSizes(sizes, m, maxSize).Ok?
    ensures Covers(sizes, maxSize, m, NewSizes(sizes, m, maxSize).value)
  {
    var result := NewSizes(sizes, m, maxSize).value;
    var rounded := Rounded(sizes, m, maxSize);
    SortedAscends(rounded);
    forall x <- sizes
      ensures RoundUp(x, m) <= maxSize ==> RoundUp(x, m) in rounded
    {
    }
    forall i | 0 <= i < |result|
      ensures result[i] <= maxSize && Divides(m, result[i])
    {
      if rounded != {} {
        SortedEmpty(rounded);
        assert result[i] in result;
        assert result[i] in rounded;
        var x :| x in sizes && RoundUp(x, m) == result[i] && RoundUp(x, m) <= maxSize;
        RoundUpIsLeast(x, m);
      } else {
        SortedEmpty(rounded);
        assert m == 1 * m;
      }
    }
    SortedEmpty(rounded);
  }

  lemma SortedEmpty(s: set<int>)
    ensures Sorted(s) == [] <==> s == {}
  {
    var r := Sorted(s);
    if s != {} {
      var x :| x in s;
      assert x in r;
    }
  }

  // The rewrite fails if and only if neither a size's rounding nor the multiple itself fits.
  lemma NewSizesFails(sizes: seq<int>, m: int, maxSize: int)
    requires m > 0
    ensures NewSizes(sizes, m, maxSize).Raised?
            <==> m > maxSize && forall x :: x in sizes ==> RoundUp(x, m) > maxSize
  {
    var rounded := Rounded(sizes, m, maxSize);
    SortedEmpty(rounded);
    assert forall x :: x in sizes && RoundUp(x, m) <= maxSize ==> RoundUp(x, m) in rounded;
  }

  lemma LastIsLargest(s: seq<int>, x: int)
    requires Ascending(s) && x in s
    ensures x <= s[|s| - 1]
  {
    var i :| 0 <= i < |s| && s[i] == x;
  }

  lemma NewSizesFixed(sizes: seq<int>, m: int, maxSize: int)
    requires m > 0 && NewSizes(sizes, m, maxSize).Ok?
    ensures var r := NewSizes(sizes, m, maxSize).value;
            r != [] && NewSizes(r, m, Last(r)) == Ok(r)
  {
    NewSizesCover(sizes, m, maxSize);
    var r := NewSizes(sizes, m, maxSize).value;
    var again := Rounded(r, m, Last(r));
    forall x | x in r
      ensures RoundUp(x, m) == x && x in again
    {
      var i :| 0 <= i < |r| && r[i] == x;
      RoundUpFixes(x, m);
      LastIsLargest(r, x);
      assert RoundUp(x, m) <= Last(r);
    }
    SortedAscends(again);
    AscendingUnique(Sorted(again), r);
  }

  lemma AdjustToIdempotent(s: Settings, m: int)
    requires AdjustTo(s, m).Ok?
    ensures AdjustTo(AdjustTo(s, m).value, m) == AdjustTo(s, m)
  {
    if s.sizes.Some? && s.sizes.value != [] && m > 1 {
      NewSizesFixed(s.sizes.value, m, s.maxSize.value);
    }
  }

  // A second application changes nothing.
  lemma AdjustIdempotent(s: Settings, queryLen: int, tensorParallelSize: int, enableSp: bool)
    requires queryLen >= 1 && Adjust(s, queryLen, tensorParallelSize, enableSp).Ok?
    ensures var s' := Adjust(s, queryLen, tensorParallelSize, enableSp).value;
            Adjust(s', queryLen, tensorParallelSize, enableSp) == Ok(s')
  {
    AdjustToIdempotent(s, MultipleOf(queryLen, tensorParallelSize, enableSp).value);
  }

  // ------------------------------------------------------------------
  // Resolving the mode
  // ------------------------------------------------------------------

  /** Mixed batches: below ALWAYS a full mixed graph becomes a mode with full decode graphs only. */
  function MixedStep(mode: CUDAGraphMode, u: Setup, support: Support): Result<CUDAGraphMode> {
    if mode.MixedMode() == FULL && support != ALWAYS then
      if support == NEVER then Raised(ValueError)
      else if u.SplittingOpsContainAttention() then Ok(FULL_AND_PIECEWISE)
      else Ok(FULL_DECODE_ONLY)
    else Ok(mode)
  }

  function DecodeStep(mode: CUDAGraphMode, u: Setup, support: Support): CUDAGraphMode {
    if mode.DecodeMode() == FULL && support == NEVER then
      if u.compilation == VLLM_COMPILE && (u.SplittingOpsContainAttention() || u.inductorGraphPartition)
      then PIECEWISE else NONE
    else mode
  }

  function SpecDecodeStep(mode: CUDAGraphMode, u: Setup, support: Support, queryLen: int): CUDAGraphMode {
    if mode.DecodeMode() == FULL && queryLen > 1 && support.Rank() < UNIFORM_BATCH.Rank() then
      if u.SplittingOpsContainAttention() then PIECEWISE else NONE
    else mode
  }

  function PiecewiseStep(mode: CUDAGraphMode, available: bool): CUDAGraphMode {
    if !available && mode.RequiresPiecewise() then mode.WithoutPiecewise() else mode
  }

  /** The downgrades together, before the safety check. */
  function Downgraded(mode: CUDAGraphMode, u: Setup, a: Arguments): Result<CUDAGraphMode> {
    var mixed := MixedStep(mode, u, a.support);
    if mixed.Raised? then mixed
    else Ok(PiecewiseStep(SpecDecodeStep(DecodeStep(mixed.value, u, a.support), u, a.support, a.queryLen),
      a.piecewiseAvailable))
  }

  predicate LacksMambaBlocks(mode: CUDAGraphMode, a: Arguments) {
    && a.kvCache.Some? && a.maxNumReqs.Some? && mode.HasFull() && !a.isProfiling
    && a.kvCache.value.hasMambaLayers && a.maxNumReqs.value > a.kvCache.value.numBlocks
  }

  /** The sizes after mode has been resolved. */
  function Resized(s: Settings, mode: CUDAGraphMode, u: Setup, a: Arguments): Result<Settings> {
    if !a.useV2Runner && mode.DecodeMode() == FULL && a.queryLen > 1
    then Adjust(s, a.queryLen, a.tensorParallelSize, u.enableSp)
    else Ok(s)
  }

  /** One call: the settings it leaves, and what it returns or raises. */
  function Resolve(s: Settings, u: Setup, a: Arguments): (Settings, Result<CUDAGraphMode>) {
    if s.mode.None? || s.mode.value == NONE then (s.(mode := Some(NONE)), Ok(NONE))
    else
      var mode := Downgraded(s.mode.value, u, a);
      if mode.Raised? then (s, mode)
      else if mode.value.HasFull() && a.support == NEVER then (s, Raised(ValueError))
      else
        var resized := Resized(s, mode.value, u, a);
        if resized.Raised? then (s, Raised(resized.error))
        else if LacksMambaBlocks(mode.value, a) then (resized.value, Raised(ValueError))
        else (resized.value.(mode := Some(mode.value)), mode)
  }

  /** What the backend can capture. */
  predicate Supported(mode: CUDAGraphMode, a: Arguments) {
    && (mode.MixedMode() == FULL ==> a.support == ALWAYS)
    && (mode.DecodeMode() == FULL ==> a.support != NEVER)
    && (mode.DecodeMode() == FULL && a.queryLen > 1 ==> a.support == UNIFORM_BATCH || a.support == ALWAYS)
    && (mode.HasMode(PIECEWISE) ==> a.piecewiseAvailable)
  }

  // The downgrades end in a mode the backend supports, and leave a mode alone exactly when it was one.
  lemma DowngradedIsSupported(mode: CUDAGraphMode, u: Setup, a: Arguments)
    ensures var d := Downgraded(mode, u, a);
            && (d.Ok? ==> Supported(d.value, a))
            && (d == Ok(mode) <==> Supported(mode, a))
            && (d.Raised? <==> mode == FULL && a.support == NEVER)
  {
  }

  // The check after the downgrades never fires: it repeats what they have made sure of.
  lemma SafetyCheckNeverFires(mode: CUDAGraphMode, u: Setup, a: Arguments)
    requires Downgraded(mode, u, a).Ok?
    ensures !(Downgraded(mode, u, a).value.HasFull() && a.support == NEVER)
  {
    DowngradedIsSupported(mode, u, a);
  }

  /** Full graphs for uniform decode batches. */
  predicate DecodeSupported(a: Arguments) { a.support.Rank() >= if a.queryLen > 1 then 2 else 1 }

  /** Attention is compiled piecewise, as the branch for this support checks it. */
  predicate CompiledPiecewise(u: Setup, a: Arguments) {
    if a.support == NEVER
    then u.compilation == VLLM_COMPILE && (u.SplittingOpsContainAttention() || u.inductorGraphPartition)
    else u.SplittingOpsContainAttention()
  }

  // What a downgrade leaves, routine by routine: full graphs exactly where they were asked for and are
  // supported, and piecewise graphs exactly when attention is compiled piecewise and they can be captured.
  lemma DowngradeIsExact(mode: CUDAGraphMode, u: Setup, a: Arguments)
    requires Downgraded(mode, u, a).Ok?
    ensures var d := Downgraded(mode, u, a).value;
            && (d.MixedMode() == FULL <==> mode.MixedMode() == FULL && a.support == ALWAYS)
            && (d.DecodeMode() == FULL <==> mode.DecodeMode() == FULL && DecodeSupported(a))
            && (d != mode ==> (d.MixedMode() == PIECEWISE <==> a.piecewiseAvailable && CompiledPiecewise(u, a)))
  {
  }

  // A normal return leaves the returned mode in the configuration, and the backend supports it.
  lemma ResolveIsSound(s: Settings, u: Setup, a: Arguments)
    ensures var (s', result) := Resolve(s, u, a);
            result.Ok? ==> s'.mode == Some(result.value) && Supported(result.value, a)
  {
    if s.mode.Some? && s.mode.value != NONE {
      DowngradedIsSupported(s.mode.value, u, a);
    }
  }

  // A second call with the same arguments, after a return or after an error, changes nothing and has the
  // same outcome.
  lemma ResolveIsStable(s: Settings, u: Setup, a: Arguments)
    ensures var (s', result) := Resolve(s, u, a);
            Resolve(s', u, a) == (s', result)
  {
    if s.mode.Some? && s.mode.value != NONE {
      DowngradedIsSupported(s.mode.value, u, a);
      var mode := Downgraded(s.mode.value, u, a);
      if mode.Ok? && Resized(s, mode.value, u, a).Ok? {
        DowngradedIsSupported(mode.value, u, a);
        SafetyCheckNeverFires(s.mode.value, u, a);
        ResizedIdempotent(s, mode.value, u, a);
      }
    }
  }

  lemma ResizedIdempotent(s: Settings, mode: CUDAGraphMode, u: Setup, a: Arguments)
    requires Resized(s, mode, u, a).Ok?
    ensures var s' := Resized(s, mode, u, a).value;
            && s'.mode == s.mode
            && Resized(s', mode, u, a) == Ok(s')
            && Resized(s'.(mode := Some(mode)), mode, u, a) == Ok(s'.(mode := Some(mode)))
  {
    if !a.useV2Runner && mode.DecodeMode() == FULL && a.queryLen > 1 {
      AdjustIdempotent(s, a.queryLen, a.tensorParallelSize, u.enableSp);
    }
  }

  // ------------------------------------------------------------------
  // The second computation of the sizes
  // ------------------------------------------------------------------

  function CeilDiv(x: int, q: int): int
    requires q > 0
  {
    (x + q - 1) / q
  }

  /** The row counts to capture, for a number of speculative tokens. */
  function CapturedQueryRows(specTokens: int, sizes: Option<seq<int>>, maxSize: Option<int>): (int, set<int>) {
    var query := specTokens + 1;
    if !(1 <= specTokens <= 7) || maxSize.None? || maxSize.value == 0 || sizes.None? then (query, {})
    else (query, Rows(sizes.value, query, maxSize.value))
  }

  function Rows(sizes: seq<int>, q: int, maxSize: int): set<int>
    requires q > 0
  {
    set size | size in sizes && size > 0 && CeilDiv(size, q) * q <= maxSize && CeilDiv(size, q) <= 8
      :: CeilDiv(size, q) * q
  }

  /** The guard of `supports` and of `build`: exactly one row count, that of a single request. */
  predicate CapturesOneRequest(rows: (int, set<int>)) { rows.1 == {rows.0} }

  /** The rounded sizes from 1 to 8 queries. */
  function Within8(rounded: set<int>, q: int): set<int> {
    set r | r in rounded && 0 < r <= 8 * q
  }

  lemma RoundUpAsRows(x: int, q: int)
    requires q > 0
    ensures CeilDiv(x, q) * q == RoundUp(x, q)
    ensures x > 0 <==> RoundUp(x, q) > 0
    ensures CeilDiv(x, q) <= 8 <==> RoundUp(x, q) <= 8 * q
  {
    RoundUpIsLeast(x, q);
    var c := CeilDiv(x, q);
    if x <= 0 {
      assert x <= 0 * q;
    }
    if c <= 8 {
      MulAtMost(c, 8, q);
    } else {
      MulAtMost(9, c, q);
    }
  }

  lemma MulAtMost(i: int, j: int, q: int)
    requires q > 0 && i <= j
    ensures i * q <= j * q
  {
    assert (j - i) * q >= 0;
  }

  lemma RowsWithin8(sizes: seq<int>, q: int, maxSize: int)
    requires q > 0
    ensures Rows(sizes, q, maxSize) == Within8(Rounded(sizes, q, maxSize), q)
  {
    forall size | size in sizes
      ensures CeilDiv(size, q) * q == RoundUp(size, q)
      ensures size > 0 <==> RoundUp(size, q) > 0
      ensures CeilDiv(size, q) <= 8 <==> RoundUp(size, q) <= 8 * q
    {
      RoundUpAsRows(size, q);
    }
    forall r | r in Rows(sizes, q, maxSize)
      ensures r in Within8(Rounded(sizes, q, maxSize), q)
    {
      var size :| size in sizes && size > 0 && CeilDiv(size, q) * q <= maxSize && CeilDiv(size, q) <= 8
                  && CeilDiv(size, q) * q == r;
      assert RoundUp(size, q) in Rounded(sizes, q, maxSize);
    }
    forall r | r in Within8(Rounded(sizes, q, maxSize), q)
      ensures r in Rows(sizes, q, maxSize)
    {
      var size :| size in sizes && RoundUp(size, q) <= maxSize && RoundUp(size, q) == r;
      assert CeilDiv(size, q) * q == r;
    }
  }

  // The two computations agree on any sizes at all: the captured rows are the positive rounded sizes up to
  // eight queries. Positive sizes round to positive ones, so the bound from below only drops the others.
  lemma RowsAreRoundedSizes(specTokens: int, sizes: seq<int>, maxSize: int)
    requires 1 <= specTokens <= 7
    ensures var q := specTokens + 1;
            CapturedQueryRows(specTokens, Some(sizes), Some(maxSize)) == (q, Within8(Rounded(sizes, q, maxSize), q))
  {
    var q := specTokens + 1;
    RowsWithin8(sizes, q, maxSize);
    if maxSize == 0 {
      assert Within8(Rounded(sizes, q, 0), q) == {};
    }
  }

  lemma PositiveSizesRoundAboveZero(sizes: seq<int>, q: int, maxSize: int)
    requires q > 0
    ensures (forall r <- Rounded(sizes, q, maxSize) :: r > 0)
            <==> forall size <- sizes :: RoundUp(size, q) <= maxSize ==> size > 0
  {
    forall size | size in sizes
      ensures size > 0 <==> RoundUp(size, q) > 0
    {
      RoundUpAsRows(size, q);
    }
    forall size | size in sizes && RoundUp(size, q) <= maxSize
      ensures RoundUp(size, q) in Rounded(sizes, q, maxSize)
    {
    }
  }

  // Rounding the new sizes again gives the same set: the rounded old ones, or the fallback.
  lemma RoundedAgain(sizes: seq<int>, q: int, maxSize: int)
    requires q > 0 && NewSizes(sizes, q, maxSize).Ok?
    ensures var r := NewSizes(sizes, q, maxSize).value;
            Rounded(r, q, Last(r)) == if Rounded(sizes, q, maxSize) == {} then {q} else Rounded(sizes, q, maxSize)
  {
    var r := NewSizes(sizes, q, maxSize).value;
    var rounded := Rounded(sizes, q, maxSize);
    NewSizesCover(sizes, q, maxSize);
    SortedEmpty(rounded);
    forall x | x in r
      ensures RoundUp(x, q) == x && x <= Last(r)
    {
      var i :| 0 <= i < |r| && r[i] == x;
      RoundUpFixes(x, q);
      LastIsLargest(r, x);
    }
    forall x
      ensures x in Rounded(r, q, Last(r)) <==> x in r
    {
      if x in r {
        assert RoundUp(x, q) == x;
      }
    }
  }

  lemma SomeFitsIff(sizes: seq<int>, q: int, maxSize: int)
    requires q > 0
    ensures Rounded(sizes, q, maxSize) != {} <==> exists size :: size in sizes && RoundUp(size, q) <= maxSize
  {
    var rounded := Rounded(sizes, q, maxSize);
    assert forall size :: size in sizes && RoundUp(size, q) <= maxSize ==> RoundUp(size, q) in rounded;
    if rounded != {} {
      var y := Pick(rounded);
      var size :| size in sizes && RoundUp(size, q) <= maxSize && RoundUp(size, q) == y;
    }
  }

  lemma RowsOfNewSizes(specTokens: int, sizes: seq<int>, maxSize: int)
    requires 1 <= specTokens <= 7 && NewSizes(sizes, specTokens + 1, maxSize).Ok?
    ensures var q := specTokens + 1;
            var r := NewSizes(sizes, q, maxSize).value;
            CapturedQueryRows(specTokens, Some(r), Some(Last(r)))
            == if Rounded(sizes, q, maxSize) == {} then (q, {q})
               else CapturedQueryRows(specTokens, Some(sizes), Some(maxSize))
  {
    var q := specTokens + 1;
    var r := NewSizes(sizes, q, maxSize).value;
    RoundedAgain(sizes, q, maxSize);
    RowsAreRoundedSizes(specTokens, sizes, maxSize);
    RowsAreRoundedSizes(specTokens, r, Last(r));
    assert Within8({q}, q) == {q};
  }

  // Without sequence parallelism, the captured rows are the same before and after the sizes are adjusted if
  // and only if some size's rounding fits. Otherwise the sizes become [q]: no row was captured, now one is.
  lemma RowsSurviveAdjustIff(specTokens: int, s: Settings, tensorParallelSize: int)
    requires 1 <= specTokens <= 7
    requires s.sizes.Some? && s.sizes.value != [] && s.maxSize.Some?
    requires Adjust(s, specTokens + 1, tensorParallelSize, false).Ok?
    ensures var q := specTokens + 1;
            var s' := Adjust(s, q, tensorParallelSize, false).value;
            var before := CapturedQueryRows(specTokens, s.sizes, s.maxSize);
            var after := CapturedQueryRows(specTokens, s'.sizes, s'.maxSize);
            if exists size :: size in s.sizes.value && RoundUp(size, q) <= s.maxSize.value then before == after
            else before == (q, {}) && after == (q, {q})
  {
    var sizes, maxSize, q := s.sizes.value, s.maxSize.value, specTokens + 1;
    RowsOfNewSizes(specTokens, sizes, maxSize);
    assert Adjust(s, q, tensorParallelSize, false) == AdjustTo(s, q);
    RowsAreRoundedSizes(specTokens, sizes, maxSize);
    assert Within8({}, q) == {};
    SomeFitsIff(s.sizes.value, specTokens + 1, s.maxSize.value);
  }

  // The guard in terms of the sizes: some size up to q, q itself within the maximum, and no larger size
  // whose rounding is within both the maximum and eight queries.
  lemma CapturesOneRequestIff(specTokens: int, sizes: seq<int>, maxSize: int)
    requires 1 <= specTokens <= 7
    ensures var q := specTokens + 1;
            CapturesOneRequest(CapturedQueryRows(specTokens, Some(sizes), Some(maxSize)))
            <==> && q <= maxSize && (exists size :: size in sizes && 0 < size <= q)
                 && (forall size :: size in sizes && size > q ==>
                       RoundUp(size, q) > maxSize || RoundUp(size, q) > 8 * q)
  {
    var q := specTokens + 1;
    var rows := Within8(Rounded(sizes, q, maxSize), q);
    RowsAreRoundedSizes(specTokens, sizes, maxSize);
    forall size | size in sizes
      ensures 0 < size <= q <==> RoundUp(size, q) == q
      ensures size > q ==> RoundUp(size, q) > q
      ensures size > 0 <==> RoundUp(size, q) > 0
    {
      RoundUpAsRows(size, q);
      RoundUpIsLeast(size, q);
      if 0 < size <= q {
        assert size <= 1 * q;
      }
    }
    forall size | size in sizes && RoundUp(size, q) <= maxSize && 0 < RoundUp(size, q) <= 8 * q
      ensures RoundUp(size, q) in rows
    {
    }
  }

  /** The guard on a configuration. */
  predicate Guard(specTokens: int, s: Settings) {
    CapturesOneRequest(CapturedQueryRows(specTokens, s.sizes, s.maxSize))
  }

  /**
    The support that resolution is given: at most what the guard makes of it, and no uniform batches on a
    device where only the guard can grant them.
   */
  predicate SupportFollowsGuard(specTokens: int, s: Settings, a: Arguments) {
    a.support.Rank() <= if Guard(specTokens, s) then UNIFORM_BATCH.Rank() else UNIFORM_SINGLE_TOKEN_DECODE.Rank()
  }

  /** Resolution rewrites the sizes to multiples of more than the query length, for sequence parallelism. */
  predicate RoundsToLarger(s: Settings, u: Setup, a: Arguments)
    requires a.queryLen >= 1
  {
    && s.mode.Some? && s.mode.value != NONE && Downgraded(s.mode.value, u, a).Ok?
    && !a.useV2Runner && Downgraded(s.mode.value, u, a).value.DecodeMode() == FULL && a.queryLen > 1
    && Adjust(s, a.queryLen, a.tensorParallelSize, u.enableSp).Ok?
    && MultipleOf(a.queryLen, a.tensorParallelSize, u.enableSp).value > a.queryLen
  }

  lemma MultipleAboveQuery(m: int, x: int, q: int)
    requires m > q > 0 && Divides(m, x)
    ensures !(0 < x <= q)
  {
    var k: int :| x == k * m;
    if k > 0 {
      MulAtMost(1, k, m);
    } else {
      MulAtMost(k, 0, m);
    }
  }

  lemma NoRowOfLargerMultiples(specTokens: int, sizes: seq<int>, m: int, maxSize: int)
    requires 1 <= specTokens <= 7 && m > specTokens + 1 && NewSizes(sizes, m, maxSize).Ok?
    ensures var r := NewSizes(sizes, m, maxSize).value;
            !CapturesOneRequest(CapturedQueryRows(specTokens, Some(r), Some(Last(r))))
  {
    var r := NewSizes(sizes, m, maxSize).value;
    NewSizesCover(sizes, m, maxSize);
    CapturesOneRequestIff(specTokens, r, Last(r));
    forall size | size in r
      ensures !(0 < size <= specTokens + 1)
    {
      var i :| 0 <= i < |r| && r[i] == size;
      MultipleAboveQuery(m, size, specTokens + 1);
    }
  }

  lemma GuardNeedsSizes(specTokens: int, s: Settings)
    requires Guard(specTokens, s)
    ensures 1 <= specTokens <= 7 && s.sizes.Some? && s.sizes.value != [] && s.maxSize.Some?
    ensures exists size :: size in s.sizes.value && RoundUp(size, specTokens + 1) <= s.maxSize.value
  {
    var q := specTokens + 1;
    var rows := CapturedQueryRows(specTokens, s.sizes, s.maxSize).1;
    assert q in {q};
    assert q in rows;
    var size :| size in s.sizes.value && size > 0 && CeilDiv(size, q) * q <= s.maxSize.value
                && CeilDiv(size, q) <= 8 && CeilDiv(size, q) * q == q;
    RoundUpAsRows(size, q);
  }

  lemma GuardAfterAdjust(specTokens: int, s: Settings, m: int)
    requires Guard(specTokens, s) && m > specTokens && AdjustTo(s, m).Ok?
    ensures Guard(specTokens, AdjustTo(s, m).value) <==> m == specTokens + 1
  {
    GuardNeedsSizes(specTokens, s);
    if m == specTokens + 1 {
      RowsSurviveAdjustIff(specTokens, s, 1);
    } else {
      NoRowOfLargerMultiples(specTokens, s.sizes.value, m, s.maxSize.value);
    }
  }

  // The fallback never tells the support check, made on the configured sizes, from the check of `build`, made
  // on the resolved ones: a refusal lowers the support, and then resolution leaves the sizes alone. The two
  // agree if and only if resolution does not round accepted sizes to a larger multiple.
  lemma GuardSurvivesResolutionIff(specTokens: int, s: Settings, u: Setup, a: Arguments)
    requires specTokens >= 0 && a.queryLen == specTokens + 1 && SupportFollowsGuard(specTokens, s, a)
    ensures var resolved := Resolve(s, u, a).0;
            (Guard(specTokens, resolved) <==> Guard(specTokens, s))
            <==> !(Guard(specTokens, s) && RoundsToLarger(s, u, a))
  {
    if s.mode.Some? && s.mode.value != NONE && Downgraded(s.mode.value, u, a).Ok? {
      var mode := Downgraded(s.mode.value, u, a).value;
      DowngradedIsSupported(s.mode.value, u, a);
      SafetyCheckNeverFires(s.mode.value, u, a);
      if !a.useV2Runner && mode.DecodeMode() == FULL && a.queryLen > 1 && Resized(s, mode, u, a).Ok? {
        assert Guard(specTokens, s);
        GuardAfterAdjust(specTokens, s, MultipleOf(a.queryLen, a.tensorParallelSize, u.enableSp).value);
      }
    }
  }

  // The runner that installs the adapter has the sizes left alone, so there the two checks always agree.
  lemma GuardSurvivesV2(specTokens: int, s: Settings, u: Setup, a: Arguments)
    requires a.useV2Runner
    ensures Guard(specTokens, Resolve(s, u, a).0) <==> Guard(specTokens, s)
  {
  }

  // ------------------------------------------------------------------
  // The configuration object
  // ------------------------------------------------------------------

  class CompilationConfig {
    const setup: Setup
    var cudagraphMode: Option<CUDAGraphMode>
    var captureSizes: Option<seq<int>>
    var maxCaptureSize: Option<int>

    constructor (setup: Setup, settings: Settings)
      ensures this.setup == setup && Value() == settings
    {
      this.setup := setup;
      cudagraphMode, captureSizes, maxCaptureSize := settings.mode, settings.sizes, settings.maxSize;
    }

    ghost function Value(): Settings
      reads this
    {
      Settings(cudagraphMode, captureSizes, maxCaptureSize)
    }

    method RoundedSizes(sizes: seq<int>, m: int, maxSize: int) returns (rounded: set<int>)
      requires m > 0
      ensures rounded == Rounded(sizes, m, maxSize)
    {
      rounded := {};
      for i := 0 to |sizes|
        invariant rounded == Rounded(sizes[..i], m, maxSize)
      {
        assert sizes[..i + 1] == sizes[..i] + [sizes[i]];
        var size := RoundUp(sizes[i], m);
        if size <= maxSize {
          rounded := rounded + {size};
        }
      }
      assert sizes[..|sizes|] == sizes;
    }

    method AdjustCudagraphSizesForSpecDecode(queryLen: int, tensorParallelSize: int) returns (r: Result<Unit>)
      requires queryLen >= 1
      modifies this`captureSizes, this`maxCaptureSize
      ensures var adjusted := Adjust(old(Value()), queryLen, tensorParallelSize, setup.enableSp);
              if adjusted.Ok? then r == Ok(Unit) && Value() == adjusted.value
              else r == Raised(adjusted.error) && Value() == old(Value())
    {
      var multipleOf := queryLen;
      if tensorParallelSize > 1 && setup.enableSp {
        multipleOf := Max(queryLen, tensorParallelSize);
        if multipleOf % queryLen != 0 || multipleOf % tensorParallelSize != 0 {
          return Raised(ValueError);
        }
      }
      if captureSizes.None? || captureSizes.value == [] || multipleOf <= 1 {
        return Ok(Unit);
      }
      if maxCaptureSize.None? {
        return Raised(AssertionFailed);
      }
      var rounded := RoundedSizes(captureSizes.value, multipleOf, maxCaptureSize.value);
      var roundedSizes := Sorted(rounded);
      if |roundedSizes| == 0 && multipleOf <= maxCaptureSize.value {
        roundedSizes := [multipleOf];
      }
      if |roundedSizes| == 0 {
        return Raised(ValueError);
      }
      maxCaptureSize := Some(roundedSizes[|roundedSizes| - 1]);
      captureSizes := Some(roundedSizes);
      return Ok(Unit);
    }

    method DowngradeMode(requested: CUDAGraphMode, a: Arguments) returns (r: Result<CUDAGraphMode>)
      ensures r == Downgraded(requested, setup, a)
    {
      var mode := requested;
      if mode.MixedMode() == FULL && a.support != ALWAYS {
        if a.support == NEVER {
          return Raised(ValueError);
        }
        mode := if setup.SplittingOpsContainAttention() then FULL_AND_PIECEWISE else FULL_DECODE_ONLY;
      }
      if mode.DecodeMode() == FULL && a.support == NEVER {
        mode := if setup.compilation == VLLM_COMPILE
                   && (setup.SplittingOpsContainAttention() || setup.inductorGraphPartition) then PIECEWISE else NONE;
      }
      if mode.DecodeMode() == FULL && a.queryLen > 1 && a.support.Rank() < UNIFORM_BATCH.Rank() {
        mode := if setup.SplittingOpsContainAttention() then PIECEWISE else NONE;
      }
      if !a.piecewiseAvailable && mode.RequiresPiecewise() {
        mode := mode.WithoutPiecewise();
      }
      return Ok(mode);
    }

    method ResolveCudagraphModeAndSizes(a: Arguments) returns (r: Result<CUDAGraphMode>)
      modifies this
      ensures (Value(), r) == Resolve(old(Value()), setup, a)
    {
      if cudagraphMode.None? || cudagraphMode.value == NONE {
        cudagraphMode := Some(NONE);
        return Ok(NONE);
      }
      r := DowngradeMode(cudagraphMode.value, a);
      if r.Raised? {
        return;
      }
      var mode := r.value;
      if mode.HasFull() && a.support == NEVER {
        return Raised(ValueError);
      }
      if !a.useV2Runner && mode.DecodeMode() == FULL && a.queryLen > 1 {
        var adjusted := AdjustCudagraphSizesForSpecDecode(a.queryLen, a.tensorParallelSize);
        if adjusted.Raised? {
          return Raised(adjusted.error);
        }
      }
      if a.kvCache.Some? && a.maxNumReqs.Some? && mode.HasFull() && !a.isProfiling && a.kvCache.value.hasMambaLayers
         && a.maxNumReqs.value > a.kvCache.value.numBlocks {
        return Raised(ValueError);
      }
      cudagraphMode := Some(mode);
    }
  }
}
