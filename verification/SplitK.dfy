/** The two-stage split-K route: split counts, limits, planning and scratch regions. */
module SplitK {
  import opened Prelude
  import opened Arith

  type u32 = x: nat | x < 0x1_0000_0000

  const REDUCE_WG_SIZE: nat := 256
  const AUTO_SCRATCH_CAP_BYTES: nat := 0x1000_0000

  datatype Shape = Shape(batch: u32, m: u32, n: u32, k: u32)
  datatype Limits = Limits(x: u32, y: u32, z: u32)

  // Products are formed in u64 with saturation or overflow checks.
  function SaturatingMul(a: nat, b: nat): nat {
    if a * b < U64_SIZE then a * b else U64_SIZE - 1
  }

  predicate UseM128(m: u32, n: u32) { m >= 128 && n >= 128 }

  function TileM(m: u32, n: u32): nat { if UseM128(m, n) then 128 else 64 }
  function TileN(m: u32, n: u32): nat { if UseM128(m, n) then 128 else 64 }

  function Tiles(s: Shape): nat {
    var tile := TileM(s.m, s.n);
    SaturatingMul(SaturatingMul(s.batch, DivCeil(s.m, tile)), DivCeil(s.n, tile))
  }

  /** Smallest K for which a 128-tile shape with this many tiles splits. */
  function MinKFor(tiles: nat): Option<nat> {
    if tiles == 1 then Some(1024)
    else if 2 <= tiles <= 4 then Some(2048)
    else if 5 <= tiles <= 16 then Some(4096)
    else None
  }

  /** The bounds `(wanted, maxSplits)` on a heuristic split count, or None when
      the shape must not split. */
  function SplitBounds(s: Shape): Option<(nat, nat)> {
    if s.batch == 0 || s.m <= 1 || s.n <= 1 || s.k < 1024 then None
    else
      var tiles := Tiles(s);
      if UseM128(s.m, s.n) then
        match MinKFor(tiles)
        case None => None
        case Some(minK) =>
          if s.k < minK || tiles == 0 then None
          else
            var target := if tiles >= 9 && s.k >= 8192 then 128 else 64;
            var cap := if tiles == 1 && s.k / 128 < 16 then 16 else s.k / 128;
            Some((DivCeil(target, tiles), cap))
      else if tiles > 4 || tiles == 0 then None
      else Some((DivCeil(128, tiles), s.k / 64))
  }

  const SPLIT_LADDER: seq<nat> := [64, 32, 16, 8, 4]

  method HeuristicSplits(s: Shape) returns (r: Option<nat>)
    ensures r == LargestSplit(s)
  {
    var bounds := SplitBounds(s);
    if bounds.None? { return None; }
    for i := 0 to |SPLIT_LADDER|
      invariant LargestSplit(s) == FirstFit(SPLIT_LADDER[i..], bounds.value)
    {
      if SPLIT_LADDER[i] <= bounds.value.0 && SPLIT_LADDER[i] <= bounds.value.1 {
        return Some(SPLIT_LADDER[i]);
      }
    }
    return None;
  }

  function FirstFit(ladder: seq<nat>, bounds: (nat, nat)): Option<nat> {
    if ladder == [] then None
    else if ladder[0] <= bounds.0 && ladder[0] <= bounds.1 then Some(ladder[0])
    else FirstFit(ladder[1..], bounds)
  }

  function LargestSplit(s: Shape): Option<nat> {
    match SplitBounds(s)
    case None => None
    case Some(b) => FirstFit(SPLIT_LADDER, b)
  }

  function Total(s: Shape): nat { s.batch * s.m * s.n }

  /** The device and addressing limits of an automatically chosen split. */
  predicate AutoRouteFits(max: Limits, s: Shape, splits: u32) {
    && s.batch > 0 && s.m > 0 && s.n > 0 && 2 <= splits <= 0xFFFF && splits <= s.k
    && var total := Total(s);
       var elements := total * splits;
       && total < U64_SIZE && elements < U64_SIZE && elements * 4 < U64_SIZE
       && s.batch * splits < U32_SIZE
       && DivCeil(s.n, TileN(s.m, s.n)) <= max.x
       && DivCeil(s.m, TileM(s.m, s.n)) <= max.y
       && s.batch * splits <= max.z
       && DivCeil(total, 4 * REDUCE_WG_SIZE) <= max.x
       && elements <= U32_SIZE
       && elements * 4 <= AUTO_SCRATCH_CAP_BYTES
  }

  datatype DispatchPlan = DispatchPlan(
    splits: nat, gx: nat, gy: nat, gz: nat, mn: nat, total: nat,
    reduceGroups: nat, scratchBytes: nat, useM128: bool)

  /** Whether the scratch planes of the shape are addressable in u32. */
  predicate ScratchAddressable(s: Shape, splits: u32) {
    splits <= s.k && Total(s) < U64_SIZE && Total(s) * splits <= U32_SIZE
  }

  /** The planner's own checks; `total` is formed as `mn * batch`. */
  predicate PlanAccepts(max: Limits, s: Shape, splits: u32, total: nat) {
    && 2 <= splits <= 0xFFFF && ScratchAddressable(s, splits)
    && s.batch * splits < U32_SIZE
    && DivCeil(s.n, TileN(s.m, s.n)) <= max.x
    && DivCeil(s.m, TileM(s.m, s.n)) <= max.y
    && s.batch * splits <= max.z
    && total < U32_SIZE
    && total * splits * 4 < U64_SIZE
    && DivCeil(total, 4 * REDUCE_WG_SIZE) <= max.x
  }

  function PlanDispatch(max: Limits, s: Shape, splits: u32): Option<DispatchPlan> {
    var mn: nat := s.m * s.n;
    var total: nat := mn * s.batch;
    if !PlanAccepts(max, s, splits, total) then None
    else
      // mn and total are stored as u32.
      Some(DispatchPlan(splits, DivCeil(s.n, TileN(s.m, s.n)), DivCeil(s.m, TileM(s.m, s.n)),
                        s.batch * splits, mn % U32_SIZE, total, DivCeil(total, 4 * REDUCE_WG_SIZE),
                        total * splits * 4, UseM128(s.m, s.n)))
  }

  // ---- The heuristic -----------------------------------------------------

  lemma {:induction false} FirstFitIsLargest(ladder: seq<nat>, b: (nat, nat))
    requires forall i, j :: 0 <= i < j < |ladder| ==> ladder[i] > ladder[j]
    ensures match FirstFit(ladder, b)
            case Some(v) => v in ladder && v <= b.0 && v <= b.1
                            && forall w :: w in ladder && w <= b.0 && w <= b.1 ==> w <= v
            case None => forall w :: w in ladder ==> w > b.0 || w > b.1
  {
    if ladder != [] {
      FirstFitIsLargest(ladder[1..], b);
      assert forall w :: w in ladder ==> w == ladder[0] || w in ladder[1..];
      assert forall w :: w in ladder[1..] ==> w < ladder[0];
    }
  }

  lemma CeilCovers(x: nat, t: nat)
    requires t > 0
    ensures x <= t * DivCeil(x, t)
    ensures x > 0 ==> DivCeil(x, t) >= 1
  {
    var q := DivCeil(x, t);
    assert x + t - 1 == t * q + (x + t - 1) % t;
    assert q == 0 ==> t * q == 0;
  }

  /** A split shape has few tiles, none of them saturated away. */
  lemma SmallTiles(s: Shape)
    requires SplitBounds(s).Some?
    ensures 1 <= Tiles(s) <= 16
    ensures Tiles(s) == s.batch * DivCeil(s.m, TileM(s.m, s.n)) * DivCeil(s.n, TileN(s.m, s.n))
    ensures s.batch <= Tiles(s)
    ensures DivCeil(s.m, TileM(s.m, s.n)) <= Tiles(s) && DivCeil(s.n, TileN(s.m, s.n)) <= Tiles(s)
  {
    var tile := TileM(s.m, s.n);
    var cm, cn := DivCeil(s.m, tile), DivCeil(s.n, tile);
    CeilCovers(s.m, tile);
    CeilCovers(s.n, tile);
    var p := SaturatingMul(s.batch, cm);
    assert Tiles(s) == SaturatingMul(p, cn);
    assert 1 <= Tiles(s) <= 16;
    MulMono(1, cn, p);
    assert p <= p * cn;
    assert p == s.batch * cm;
    MulMono(1, cm, s.batch);
    MulMono(1, s.batch, cm);
    MulMono(1, p, cn);
  }

  lemma CoveredArea(b: nat, m: nat, n: nat, x: nat, y: nat)
    requires m <= x && n <= y
    ensures b * m * n <= b * x * y
  {
    MulMono(m, x, b);
    MulMono(b * m, b * x, n);
    MulMono(n, y, b * x);
  }

  lemma TilesArea(tile: nat, tiles: nat)
    requires tile <= 128 && tiles <= 16
    ensures tile * tile * tiles <= 128 * 128 * 16
  {
    MulMono(tile, 128, tile);
    MulMono(tile * tile, 128 * 128, tiles);
  }

  /** The output of a split shape is at most 16 tiles of 128x128. */
  lemma SmallOutput(s: Shape)
    requires SplitBounds(s).Some?
    ensures Total(s) <= 16 * 128 * 128
  {
    SmallTiles(s);
    var tile := TileM(s.m, s.n);
    var cm, cn := DivCeil(s.m, tile), DivCeil(s.n, tile);
    CeilCovers(s.m, tile);
    CeilCovers(s.n, tile);
    CoveredArea(s.batch, s.m, s.n, Times(tile, cm), Times(tile, cn));
    TileProduct(s.batch, tile, cm, cn);
    TilesArea(tile, Tiles(s));
  }

  lemma TileProduct(b: nat, t: nat, x: nat, y: nat)
    ensures b * (t * x) * (t * y) == t * t * (b * x * y)
  {
    assert b * (t * x) == t * (b * x);
    assert (t * (b * x)) * (t * y) == t * t * ((b * x) * y);
  }

  ghost function TargetWorkgroups(s: Shape): nat {
    if !UseM128(s.m, s.n) || (Tiles(s) >= 9 && s.k >= 8192) then 128 else 64
  }

  /** The largest K window count the reduction overhead allows. */
  ghost function MaxUsefulSplits(s: Shape): nat {
    if !UseM128(s.m, s.n) then s.k / 64
    else if Tiles(s) == 1 && s.k / 128 < 16 then 16
    else s.k / 128
  }

  lemma LadderIs(w: nat)
    ensures w in SPLIT_LADDER <==> w == 4 || w == 8 || w == 16 || w == 32 || w == 64
  {
    assert SPLIT_LADDER[0] == 64 && SPLIT_LADDER[1] == 32 && SPLIT_LADDER[2] == 16 && SPLIT_LADDER[3] == 8;
    assert SPLIT_LADDER[4] == 4;
  }

  /** A heuristic split leaves at least 64 K values per split, does not
      overshoot the occupancy target by a whole split per tile, and no larger
      ladder value would do. */
  lemma HeuristicSplitIsRight(s: Shape, splits: nat)
    requires LargestSplit(s) == Some(splits)
    ensures splits in SPLIT_LADDER
    ensures s.k >= 64 * splits
    ensures Tiles(s) * (splits - 1) < TargetWorkgroups(s)
    ensures splits <= MaxUsefulSplits(s)
    ensures forall w :: w in SPLIT_LADDER && w > splits ==>
              w > MaxUsefulSplits(s) || Tiles(s) * (w - 1) >= TargetWorkgroups(s)
  {
    var b := SplitBounds(s).value;
    FirstFitIsLargest(SPLIT_LADDER, b);
    SmallTiles(s);
    assert b == (DivCeil(TargetWorkgroups(s), Tiles(s)), MaxUsefulSplits(s));
    forall w | w in SPLIT_LADDER
      ensures w <= b.0 <==> Tiles(s) * (w - 1) < TargetWorkgroups(s)
    {
      CeilBound(w, TargetWorkgroups(s), Tiles(s));
    }
    assert 64 in SPLIT_LADDER && 32 in SPLIT_LADDER;
  }

  /** w <= ceil(t / d) exactly when d full shares below w stay under t. */
  lemma CeilBound(w: nat, t: nat, d: nat)
    requires w > 0 && d > 0
    ensures w <= DivCeil(t, d) <==> d * (w - 1) < t
  {
    var q := DivCeil(t, d);
    assert t + d - 1 == d * q + (t + d - 1) % d;
    if w <= q {
      MulMono(w - 1, q - 1, d);
      assert d * (q - 1) == d * q - d;
    } else {
      MulMono(q, w - 1, d);
    }
  }

  /** Within the bounds of a shape the smallest ladder value always fits. */
  lemma FourFits(s: Shape)
    requires SplitBounds(s).Some?
    ensures LargestSplit(s).Some?
  {
    var b := SplitBounds(s).value;
    CeilBound(4, TargetWorkgroups(s), Tiles(s));
    assert 4 <= b.0 && 4 <= b.1;
    assert 4 in SPLIT_LADDER by { assert SPLIT_LADDER[4] == 4; }
    FirstFitIsLargest(SPLIT_LADDER, b);
  }

  /** The shapes that do not split, on the shape alone: degenerate or shallow ones, and those
      with too many output tiles, or too little K for their tiles. Every other one splits. */
  lemma NoSplitIff(s: Shape)
    ensures LargestSplit(s).None? <==>
            || s.batch == 0 || s.m <= 1 || s.n <= 1 || s.k < 1024
            || (if s.m >= 128 && s.n >= 128 then
                  var tiles := s.batch * DivCeil(s.m, 128) * DivCeil(s.n, 128);
                  tiles > 16 || (tiles >= 5 && s.k < 4096) || (tiles >= 2 && s.k < 2048)
                else s.batch * DivCeil(s.m, 64) * DivCeil(s.n, 64) > 4)
  {
    if s.batch > 0 && s.m > 1 && s.n > 1 && s.k >= 1024 {
      TilesUnsaturated(s);
      if SplitBounds(s).Some? { FourFits(s); }
    }
  }

  /** A tile count is exact, or saturated beyond any bound. */
  lemma TilesUnsaturated(s: Shape)
    requires s.batch > 0 && s.m > 0 && s.n > 0
    ensures var tile := if s.m >= 128 && s.n >= 128 then 128 else 64;
            var tiles := s.batch * DivCeil(s.m, tile) * DivCeil(s.n, tile);
            Tiles(s) > 0 && tiles > 0 && (Tiles(s) == tiles || (Tiles(s) > 16 && tiles > 16))
  {
    var tile := TileM(s.m, s.n);
    var cm, cn := DivCeil(s.m, tile), DivCeil(s.n, tile);
    CeilCovers(s.m, tile);
    CeilCovers(s.n, tile);
    MulMono(1, cm, s.batch);
    MulMono(1, cn, s.batch * cm);
    MulMono(1, cn, SaturatingMul(s.batch, cm));
  }

  /** A heuristic split fits any device with the minimum group counts that
      Vulkan requires. */
  lemma HeuristicSplitFits(max: Limits, s: Shape, splits: u32)
    requires LargestSplit(s) == Some(splits)
    requires max.x >= 65535 && max.y >= 65535 && max.z >= 65535
    ensures AutoRouteFits(max, s, splits)
  {
    assert 4 <= splits <= 64 && splits <= s.k by { HeuristicSplitIsRight(s, splits); }
    SmallTiles(s);
    assert Total(s) <= 16 * 128 * 128 by { SmallOutput(s); }
    assert s.batch * splits <= 16 * 64 by {
      MulMono(s.batch, 16, splits);
      MulMono(splits, 64, 16);
    }
    assert Total(s) * splits <= 16 * 128 * 128 * 64 by {
      MulMono(Total(s), 16 * 128 * 128, splits);
      MulMono(splits, 64, 16 * 128 * 128);
    }
  }

  // ---- The default split count -------------------------------------------

  /** The experimental default: enough splits for 64 workgroups, at most one per 32 K. */
  function DefaultNumKSplits(batch: u32, m: u32, n: u32, k: u32, tileM: u32, tileN: u32): nat {
    if tileM == 0 || tileN == 0 then 1
    else
      var tiles := SaturatingMul(SaturatingMul(DivCeil(m, tileM), DivCeil(n, tileN)), if batch == 0 then 1 else batch);
      if tiles == 0 then 1
      else
        var raw := DivCeil(64, tiles);
        var most := if k / 32 == 0 then 1 else k / 32;
        if raw < most then raw else most
  }

  /** It is at least 1 and never overshoots the target by a whole split per tile, and
      it falls short of the target only when K runs out. */
  lemma DefaultSplitsAreRight(batch: u32, m: u32, n: u32, k: u32, tileM: u32, tileN: u32, tiles: nat)
    requires tileM > 0 && tileN > 0 && tiles > 0
    requires tiles == SaturatingMul(SaturatingMul(DivCeil(m, tileM), DivCeil(n, tileN)), if batch == 0 then 1
                                    else batch)
    ensures var s := DefaultNumKSplits(batch, m, n, k, tileM, tileN);
            && s >= 1 && tiles * (s - 1) < 64
            && (k >= 32 ==> 32 * s <= k)
            && (tiles * s < 64 ==> s == if k / 32 == 0 then 1 else k / 32)
  {
    var raw := DivCeil(64, tiles);
    CeilCovers(64, tiles);
    CeilBound(raw, 64, tiles);
    var s := DefaultNumKSplits(batch, m, n, k, tileM, tileN);
    MulMono(s - 1, raw - 1, tiles);
  }

  /** Without tiles to fill, it does not split. */
  lemma DefaultDegenerate(batch: u32, m: u32, n: u32, k: u32, tileM: u32, tileN: u32)
    requires tileM == 0 || tileN == 0 || m == 0 || n == 0
    ensures DefaultNumKSplits(batch, m, n, k, tileM, tileN) == 1
  {
    if tileM > 0 && tileN > 0 {
      var cm, cn := DivCeil(m, tileM), DivCeil(n, tileN);
      NothingToCover(tileM);
      NothingToCover(tileN);
      assert m == 0 ==> cm == 0;
      assert n == 0 ==> cn == 0;
      assert SaturatingMul(cm, cn) == 0;
    }
  }

  lemma NothingToCover(t: nat)
    requires t > 0
    ensures DivCeil(0, t) == 0
  {
    DivModOf(0, t - 1, t);
  }

  /** Saturation stops at the largest u64 and nowhere before. */
  lemma Saturates(a: nat, b: nat)
    ensures a * b <= 0xFFFF_FFFF_FFFF_FFFF ==> SaturatingMul(a, b) == a * b
    ensures a * b > 0xFFFF_FFFF_FFFF_FFFF ==> SaturatingMul(a, b) == 0xFFFF_FFFF_FFFF_FFFF
  {}

  /** Its comment promises a divisor of K. Exactly when it keeps that: the wanted count
      divides K, or where K is too short for it, the remainder of K over 32 is a multiple
      of the count K allows. */
  lemma DefaultSplitsDivideIff(batch: u32, m: u32, n: u32, k: u32, tileM: u32, tileN: u32, tiles: nat)
    requires tileM > 0 && tileN > 0 && tiles > 0
    requires tiles == SaturatingMul(SaturatingMul(DivCeil(m, tileM), DivCeil(n, tileN)), if batch == 0 then 1
                                    else batch)
    ensures var s, wanted, most := DefaultNumKSplits(batch, m, n, k, tileM, tileN), DivCeil(64, tiles),
            if k < 32 then 1 else k / 32;
            s > 0 && (k % s == 0 <==> if wanted <= most then k % wanted == 0 else (k % 32) % most == 0)
  {
    CeilCovers(64, tiles);
    if k >= 32 { RemainderModGroups(k); }
  }

  lemma RemainderModGroups(k: nat)
    requires k >= 32
    ensures k % (k / 32) == (k % 32) % (k / 32)
  {
    var q, r := k / 32, k % 32;
    var d, e := r / q, r % q;
    assert (32 + d) * q + e == k by { Distrib(32, d, q); }
    DivModOf(32 + d, e, q);
  }

  /** Its worked cases: tile counts that divide 64 and K a multiple of 64. */
  lemma DefaultSplitsDivide(batch: u32, m: u32, n: u32, k: u32, tileM: u32, tileN: u32, tiles: nat)
    requires tileM > 0 && tileN > 0 && tiles > 0 && k % 64 == 0 && 64 % tiles == 0
    requires tiles == SaturatingMul(SaturatingMul(DivCeil(m, tileM), DivCeil(n, tileN)), if batch == 0 then 1
                                    else batch)
    ensures k % DefaultNumKSplits(batch, m, n, k, tileM, tileN) == 0
  {
    DefaultSplitsDivideIff(batch, m, n, k, tileM, tileN, tiles);
    var wanted := Quot(64, tiles);
    DivModBounds(64, tiles, 65);
    CeilOfMultiple(wanted, tiles);
    MultipleDivides(k, wanted, tiles);
    NoRemainder(k, if k < 32 then 1 else k / 32);
  }

  lemma NoRemainder(k: nat, most: nat)
    requires k % 64 == 0 && most > 0
    ensures (k % 32) % most == 0
  {
    assert k == 64 * (k / 64);
    assert k % 32 == 0;
    DivModOf(0, 0, most);
  }

  lemma CeilOfMultiple(q: nat, d: nat)
    requires d > 0
    ensures DivCeil(q * d, d) == q
  {
    DivModOf(q, d - 1, d);
  }

  lemma MultipleDivides(k: nat, d: nat, e: nat)
    requires d * e == 64 && k % 64 == 0
    ensures d > 0 && k % d == 0
  {
    var q := k / 64;
    assert k == (q * e) * d + 0 by { Assoc(q, e, d); assert e * d == 64; }
    DivModOf(q * e, 0, d);
  }

  /** Elsewhere it need not divide: 3 splits of K = 100. */
  lemma DefaultSplitsNeedNotDivide()
    ensures DefaultNumKSplits(1, 1, 1, 100, 128, 128) == 3 && 100 % 3 != 0
  {}

  // ---- Acceptance implies a plan -----------------------------------------

  lemma ProductOrders(b: nat, m: nat, n: nat)
    ensures m * n * b == b * m * n
  {
    assert m * n * b == b * (m * n) == b * m * n;
  }

  /** Whatever the automatic route accepts, the planner accepts, inside the
      automatic scratch budget. */
  lemma AcceptedRoutePlans(max: Limits, s: Shape, splits: u32)
    requires AutoRouteFits(max, s, splits)
    ensures PlanDispatch(max, s, splits).Some?
    ensures PlanDispatch(max, s, splits).value.scratchBytes <= AUTO_SCRATCH_CAP_BYTES
  {
    ProductOrders(s.batch, s.m, s.n);
    MulMono(2, splits, Total(s));
  }

  lemma PlanSizes(max: Limits, s: Shape, splits: u32)
    requires PlanDispatch(max, s, splits).Some? && s.batch > 0
    ensures var p := PlanDispatch(max, s, splits).value;
            && p.mn == s.m * s.n
            && p.scratchBytes == 4 * (p.mn * s.batch * splits)
            && p.mn * s.batch * splits <= U32_SIZE
  {
    ProductOrders(s.batch, s.m, s.n);
    MulMono(1, s.batch, s.m * s.n);
  }

  /** Exactly what the planner accepts: a split count in range, scratch that u32 can index
      and three grids within the device's limits. Its other checks follow from these. */
  lemma PlanIff(max: Limits, s: Shape, splits: u32)
    ensures var tile, total := if s.m >= 128 && s.n >= 128 then 128 else 64, Times(Times(s.batch, s.m), s.n);
            PlanDispatch(max, s, splits).Some? <==>
            && 2 <= splits <= 65535 && splits <= s.k && Times(total, splits) <= 0x1_0000_0000
            && DivCeil(s.n, tile) <= max.x && DivCeil(s.m, tile) <= max.y && Times(s.batch, splits) <= max.z
            && DivCeil(total, 1024) <= max.x
  {
    ProductOrders(s.batch, s.m, s.n);
    if 2 <= splits { MulMono(2, splits, Total(s)); }
  }

  /** The automatic route takes what the planner accepts within 256 MiB of scratch. */
  lemma AutoRouteIff(max: Limits, s: Shape, splits: u32)
    ensures AutoRouteFits(max, s, splits) <==>
            && s.batch > 0 && s.m > 0 && s.n > 0 && PlanDispatch(max, s, splits).Some?
            && PlanDispatch(max, s, splits).value.scratchBytes <= 256 * 1024 * 1024
  {
    ProductOrders(s.batch, s.m, s.n);
    PlanIff(max, s, splits);
    if PlanDispatch(max, s, splits).Some? { MulMono(2, splits, Total(s)); }
  }

  /** The grids of a plan cover the output without a spare group: stage 1 by tiles, once per
      split and batch, and the reducer by 1024 elements. */
  lemma PlanCovers(max: Limits, s: Shape, splits: u32, p: DispatchPlan)
    requires PlanDispatch(max, s, splits) == Some(p) && s.batch > 0 && s.m > 0 && s.n > 0
    ensures var tile := if p.useM128 then 128 else 64;
            && (p.useM128 <==> s.m >= 128 && s.n >= 128)
            && tile * (p.gx - 1) < s.n <= tile * p.gx && tile * (p.gy - 1) < s.m <= tile * p.gy
    ensures p.splits == splits && p.gz == s.batch * splits && p.total == s.batch * s.m * s.n
    ensures 1024 * (p.reduceGroups - 1) < p.total <= 1024 * p.reduceGroups
  {
    ProductOrders(s.batch, s.m, s.n);
    MulMono(1, s.batch, s.m);
    MulMono(1, s.batch * s.m, s.n);
  }

  lemma PlaneIndex(b: nat, splits: nat, mn: nat, bi: nat, sp: nat, e: nat)
    requires bi < b && sp < splits && e < mn
    ensures (bi * splits + sp) * mn + e < mn * b * splits
  {
    GroupFits(bi, b, splits);
    GroupFits(bi * splits + sp, b * splits, mn);
    ProductOrders(mn, b, splits);
  }

  /** In any plan, every scratch element stage 1 writes and the reducer reads
      has a u32 index inside the reserved bytes. */
  lemma ScratchIndexing(max: Limits, s: Shape, splits: u32, bi: nat, sp: nat, e: nat, p: DispatchPlan)
    requires PlanDispatch(max, s, splits) == Some(p)
    requires bi < s.batch && sp < splits && e < p.mn
    ensures var index := (bi * splits + sp) * p.mn + e;
            index < U32_SIZE && 4 * (index + 1) <= p.scratchBytes
  {
    PlanSizes(max, s, splits);
    PlaneIndex(s.batch, splits, p.mn, bi, sp, e);
  }

  /** No two partial results share a scratch cell. */
  lemma ScratchInjective(splits: nat, mn: nat, bi: nat, sp: nat, e: nat, bi': nat, sp': nat, e': nat)
    requires sp < splits && sp' < splits && e < mn && e' < mn
    requires (bi * splits + sp) * mn + e == (bi' * splits + sp') * mn + e'
    ensures bi == bi' && sp == sp' && e == e'
  {
    DigitsUnique(bi * splits + sp, e, bi' * splits + sp', e', mn);
    DigitsUnique(bi, sp, bi', sp', splits);
  }

  // ---- Scratch regions of one graph submission ---------------------------

  function RoundUp16(x: nat): nat { (x + 15) / 16 * 16 }

  /** Reserves an aligned region; None past u64 or past the budget. */
  function CheckedScratchEnd(offset: nat, bytes: nat): Option<nat> {
    if RoundUp16(bytes) >= U64_SIZE || offset + RoundUp16(bytes) >= U64_SIZE then None
    else if offset + RoundUp16(bytes) <= AUTO_SCRATCH_CAP_BYTES then Some(offset + RoundUp16(bytes))
    else None
  }

  datatype Region = Region(offset: nat, bytes: nat)

  ghost predicate Disjoint(r: Region, q: Region) {
    r.offset + r.bytes <= q.offset || q.offset + q.bytes <= r.offset
  }

  /** The part of the scratch buffer given away before op `i` is reached. */
  ghost function Reserved(wants: seq<Option<nat>>, i: nat): nat
    requires i <= |wants|
    decreases i, 0
  {
    if i == 0 then 0
    else
      match ArenaRegion(wants, i - 1)
      case None => Reserved(wants, i - 1)
      case Some(r) => r.offset + RoundUp16(r.bytes)
  }

  /** `wants[i]` is the scratch need of op i, None when it has no split-K plan.
      An op that does not fit in what is left keeps its direct dispatch. */
  ghost function ArenaRegion(wants: seq<Option<nat>>, i: nat): Option<Region>
    requires i < |wants|
    decreases i, 1
  {
    if wants[i].Some? && Reserved(wants, i) + RoundUp16(wants[i].value) <= AUTO_SCRATCH_CAP_BYTES
    then Some(Region(Reserved(wants, i), wants[i].value)) else None
  }

  lemma {:induction false} ReservedBounds(wants: seq<Option<nat>>, i: nat, j: nat)
    requires i <= j <= |wants|
    ensures Reserved(wants, i) <= Reserved(wants, j) <= AUTO_SCRATCH_CAP_BYTES
    ensures Reserved(wants, j) % 16 == 0
    ensures i < j && ArenaRegion(wants, i).Some? ==>
              Reserved(wants, i) + wants[i].value <= Reserved(wants, j)
    decreases j
  {
    if 0 < j {
      ReservedBounds(wants, if i < j then i else j - 1, j - 1);
    }
  }

  /** A region takes up the least multiple of 16 bytes that holds it. */
  lemma RoundsUp(x: nat)
    ensures x <= RoundUp16(x) < x + 16 && RoundUp16(x) % 16 == 0
  {}

  /** An op is given a region exactly when it wants one and what earlier ops left of the
      256 MiB holds it, and the region starts where the last one given ended. */
  lemma {:induction false} ArenaPacked(wants: seq<Option<nat>>, i: nat)
    requires i < |wants|
    ensures ArenaRegion(wants, i).Some?
            <==> wants[i].Some? && Taken(wants, i) + RoundUp16(wants[i].value) <= 256 * 1024 * 1024
    ensures ArenaRegion(wants, i).Some? ==> ArenaRegion(wants, i).value == Region(Taken(wants, i), wants[i].value)
  {
    TakenIsReserved(wants, i);
  }

  /** The bytes of the regions given to the first `i` ops. */
  ghost function Taken(wants: seq<Option<nat>>, i: nat): nat
    requires i <= |wants|
  {
    if i == 0 then 0
    else Taken(wants, i - 1) + if ArenaRegion(wants, i - 1).Some? then RoundUp16(wants[i - 1].value) else 0
  }

  lemma {:induction false} TakenIsReserved(wants: seq<Option<nat>>, i: nat)
    requires i <= |wants|
    ensures Taken(wants, i) == Reserved(wants, i)
  {
    if i > 0 { TakenIsReserved(wants, i - 1); }
  }

  /** The regions of one submission are pairwise disjoint, 16-byte aligned,
      as large as asked, and inside the submission's scratch allocation. */
  lemma ArenaLayout(wants: seq<Option<nat>>, i: nat, j: nat)
    requires i < j < |wants| && ArenaRegion(wants, i).Some? && ArenaRegion(wants, j).Some?
    ensures Disjoint(ArenaRegion(wants, i).value, ArenaRegion(wants, j).value)
    ensures ArenaRegion(wants, i).value.offset % 16 == 0 && ArenaRegion(wants, j).value.offset % 16 == 0
    ensures forall k :: k == i || k == j ==>
              ArenaRegion(wants, k).value.offset + wants[k].value
                <= Reserved(wants, |wants|) <= AUTO_SCRATCH_CAP_BYTES
  {
    ReservedBounds(wants, i, j);
    ReservedBounds(wants, i, i);
    ReservedBounds(wants, i, |wants|);
    ReservedBounds(wants, j, |wants|);
  }

  method ReserveScratch(wants: seq<Option<nat>>) returns (regions: seq<Option<Region>>, end: nat)
    ensures |regions| == |wants| && end == Reserved(wants, |wants|)
    ensures forall i :: 0 <= i < |wants| ==> regions[i] == ArenaRegion(wants, i)
  {
    end, regions := 0, [];
    for i := 0 to |wants|
      invariant |regions| == i && end == Reserved(wants, i)
      invariant forall j :: 0 <= j < i ==> regions[j] == ArenaRegion(wants, j)
    {
      var region: Option<Region> := None;
      if wants[i].Some? {
        var next := CheckedScratchEnd(end, wants[i].value);
        if next.Some? {
          region := Some(Region(end, wants[i].value));
          end := next.value;
        }
      }
      regions := regions + [region];
    }
  }
}
