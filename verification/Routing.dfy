/** Kernel routing: the static heuristic, the shared-memory demotion chain, tuned
    winners, and rerouting for fused ops, against the checks made at record time
    (the dispatch grid included). */
module Routing {
  import opened Arith
  import opened Catalog
  import opened Prelude
  import SplitK

  type u32 = SplitK.u32

  datatype Device = Device(
    bda: bool, f16Storage: bool, coopmat: bool, coopmat2: bool,
    discrete: bool, minLargeTiles: nat,
    sharedBudget: nat, sharedBytes: map<Kernel, nat>,
    maxGroups: SplitK.Limits)

  /** Facts every context and registry satisfies: cooperative matrices need f16
      storage, coopmat2 needs coopmat, and the pinned tile sizes in bytes. */
  predicate RealDevice(d: Device) {
    && (d.coopmat ==> d.f16Storage) && (d.coopmat2 ==> d.coopmat)
    && (forall k: Kernel :: k in d.sharedBytes)
    && d.sharedBytes[F16wCoopmat] == 18944
    && d.sharedBytes[F16wCoopmatM64] == 9728
    && d.sharedBytes[F16wCoopmatM64N128] == 13824
    && d.sharedBytes[F16wCoopmatM128N64] == 14848
  }

  /** The registry slot of `k` is filled on this device. */
  predicate Present(d: Device, k: Kernel) {
    && (WeightsF16(k) ==> d.f16Storage)
    && (Coopmat(k) ==> d.coopmat)
    && (Cm2(k) ==> d.coopmat2)
    && k in d.sharedBytes && d.sharedBytes[k] <= d.sharedBudget
  }

  datatype Dims = Dims(shape: SplitK.Shape, bF16: bool, aF16: bool, packedB: bool)
  datatype Fusions = Fusions(accumulate: bool, epilogue: bool, normedA: bool, store: bool)

  /** What resolution guarantees of an op before it is routed. */
  predicate Resolved(d: Device, dims: Dims, f: Fusions) {
    var s := dims.shape;
    && s.batch > 0 && s.m > 0 && s.n > 0 && s.k > 0
    && (dims.bF16 ==> d.f16Storage)
    && (dims.aF16 ==> dims.bF16 && s.m % 64 == 0 && s.n % 64 == 0 && s.k % 32 == 0
                      && !f.epilogue && !f.normedA && !f.store)
    && (dims.packedB ==> s.m == 1 && s.batch == 1 && dims.bF16 && !dims.aF16 && s.n % 32 == 0)
    && (f.store ==> s.m == 1 && s.batch == 1 && dims.bF16 && !f.accumulate && !f.epilogue)
  }

  // ---- The static heuristic ----------------------------------------------

  function Min(a: nat, b: nat): nat { if a < b then a else b }
  function Max(a: nat, b: nat): nat { if a < b then b else a }
  function SatMul32(a: nat, b: nat): nat { Min(a * b, U32_SIZE - 1) }

  predicate AutoSelectsSmall(d: Device, s: SplitK.Shape) {
    var lm, ln, sm, sn := DivCeil(s.m, 128), DivCeil(s.n, 128), DivCeil(s.m, 64), DivCeil(s.n, 64);
    var largePadded := SplitK.SaturatingMul(SplitK.SaturatingMul(lm * 128, ln), 128);
    var smallPadded := SplitK.SaturatingMul(SplitK.SaturatingMul(sm * 64, sn), 64);
    || largePadded > DivCeil(SplitK.SaturatingMul(smallPadded, 5), 4)
    || s.k < 128
    || SplitK.SaturatingMul(SplitK.SaturatingMul(s.batch, lm), ln)
       < (if d.minLargeTiles == 256 && s.batch > 1 && s.k >= 256 then d.minLargeTiles / 2 else d.minLargeTiles)
  }

  /** What the tile heuristic can return. */
  predicate AutoTile(k: Kernel) {
    k.M64N32? || k.K64? || k.M128N64K64? || k.M128N64? || k.Small? || k.Large?
  }

  function AutoSelectKernel(d: Device, s: SplitK.Shape): (k: Kernel)
    ensures AutoTile(k)
  {
    var m, n, k, batch := s.m, s.n, s.k, s.batch;
    var minMn, maxMn := Min(m, n), Max(m, n);
    var nearSquare := maxMn <= SatMul32(minMn, 5) / 4;
    if k >= 128 && minMn >= 128 && maxMn <= 320 && nearSquare && (batch == 1 || (maxMn <= 256 && batch < 8)) then M64N32
    else if batch == 1 && 192 <= minMn <= 480 && nearSquare && k >= 256 then K64
    else if batch == 1 && 512 <= minMn < 2048 && maxMn <= SatMul32(minMn, 5) && k >= 256 then M128N64K64
    else if batch == 1 && m == n && (m == 512 || m == 1024) && k >= 512 then M128N64K64
    else if batch == 1 && minMn >= 2048 && 128 <= k <= 1024 then M128N64K64
    else if batch == 1 && 1024 <= minMn < 2048 && maxMn >= 4096 && k >= 512 then M128N64K64
    else if batch == 1 && k <= 128 && m >= 2048 && n >= 2048 then M128N64
    else if batch == 1 && minMn <= 128 && maxMn >= 512 && k >= 256 then K64
    else if batch == 1 && minMn <= 256 && maxMn == SatMul32(minMn, 2) && k >= 256 then K64
    else if AutoSelectsSmall(d, s) then Small else Large
  }

  predicate RowUsesK16(k: nat, n: nat) { k >= 4096 || n <= 512 || (k >= 2048 && n <= 2048) }

  function RowTileN(k: nat, n: nat): nat { if RowUsesK16(k, n) || n % 64 != 0 then 32 else 64 }

  function RowSelection(k: nat, n: nat): Kernel {
    if RowUsesK16(k, n) then F16wRowBdaK16 else F16wRowBdaK16V2
  }

  function PackedRowSelection(k: nat, n: nat): Kernel {
    if RowUsesK16(k, n) || n % 64 != 0 then F16wRowBdaK16Packed else F16wRowBdaK16V2Packed
  }

  datatype CoopmatTile = T128 | T64 | T64x128 | T128x64

  function PickCoopmatTile(batch: nat, m: nat, n: nat): Option<CoopmatTile> {
    if m % 64 != 0 || n % 64 != 0 then None
    else if m <= 512 then
      if m == 512 && m % 128 == 0 && n > 4 * m then Some(T128x64)
      else if m == 512 && n % 128 == 0 && m > 4 * n then Some(T64x128)
      else Some(T64)
    else if m % 128 != 0 || n % 128 != 0 then
      Some(if m % 128 == 0 then T128x64 else if n % 128 == 0 then T64x128 else T64)
    else
      var tiles := SplitK.SaturatingMul(SplitK.SaturatingMul(batch, m / 128), n / 128);
      Some(if tiles < 96 then T64 else T128)
  }

  function CoopmatKernel(tile: CoopmatTile, a16: bool): Kernel {
    match tile
    case T128 => if a16 then F16wA16Coopmat else F16wCoopmat
    case T64 => if a16 then F16wA16CoopmatM64 else F16wCoopmatM64
    case T64x128 => if a16 then F16wA16CoopmatM64N128 else F16wCoopmatM64N128
    case T128x64 => if a16 then F16wA16CoopmatM128N64 else F16wCoopmatM128N64
  }

  function CoopmatSelection(batch: nat, m: nat, n: nat, a16: bool): Option<Kernel> {
    match PickCoopmatTile(batch, m, n)
    case None => None
    case Some(tile) => Some(CoopmatKernel(tile, a16))
  }

  function ToF16w(tile: Kernel): Kernel {
    match tile
    case Large | M64N128 => F16wLargeBdaV4
    case M128N64 | M128N64K64 => F16wM128N64K64BdaV4
    case K64 => F16wK64BdaV4
    case _ => F16wSmallBdaV4
  }

  function MaybeToBda(tile: Kernel): Kernel {
    match tile
    case Large => LargeBdaV4
    case Small => SmallBdaV4
    case M128N64K64 => M128N64K64BdaV4
    case K64 => K64BdaV4Tm8Tn4
    case M128N64 => M128N64BdaV4
    case M64N128 => M64N128BdaV4
    case M64N32 => M64N32Bda
    case other => other
  }

  /** The next sibling to try when a slot is empty; None is the panic. */
  function Fallback(k: Kernel): Option<Kernel> {
    match k
    case M128N64K64 => Some(M128N64)
    case M128N64K64BdaV4 => Some(M128N64BdaV4)
    case F16wM128N64K64BdaV4 => Some(F16wSmallBdaV4)
    case Large | K64 | M128N64 | M64N128 => Some(Small)
    case LargeBdaV4 | K64BdaV4Tm8Tn4 | M128N64BdaV4 | M64N128BdaV4 => Some(SmallBdaV4)
    case F16wLargeBdaV4 | F16wK64BdaV4 => Some(F16wSmallBdaV4)
    case F16wCoopmatM64 | F16wCoopmatM64N128 | F16wCoopmatM128N64 => Some(F16wCoopmat)
    case F16wA16CoopmatM64 | F16wA16CoopmatM64N128 | F16wA16CoopmatM128N64 => Some(F16wA16Coopmat)
    case _ => None
  }

  /** Demotions left: every chain of siblings is finite. */
  function Rank(k: Kernel): nat {
    match Fallback(k)
    case None => 0
    case Some(f) => if Fallback(f).Some? then 2 else 1
  }

  function InBudget(d: Device, k: Kernel): Option<Kernel>
    decreases Rank(k)
  {
    if Present(d, k) then Some(k)
    else
      match Fallback(k)
      case None => None
      case Some(f) => RankDrops(k, f); InBudget(d, f)
  }

  /** The demotion loop; None when it panics on a kernel without a sibling. */
  method InBudgetIndex(d: Device, selection: Kernel) returns (r: Option<Kernel>)
    ensures r == InBudget(d, selection)
    ensures r.Some? ==> Present(d, r.value)
  {
    var current := selection;
    while !Present(d, current)
      invariant InBudget(d, current) == InBudget(d, selection)
      decreases Rank(current)
    {
      var next := Fallback(current);
      if next.None? { return None; }
      RankDrops(current, next.value);
      current := next.value;
    }
    return Some(current);
  }

  lemma RankDrops(k: Kernel, f: Kernel)
    requires Fallback(k) == Some(f)
    ensures Rank(f) < Rank(k)
  {}

  predicate GridFits(d: Device, k: Kernel, s: SplitK.Shape) {
    && DivCeil(s.n, TileOf(k).n) <= d.maxGroups.x
    && DivCeil(s.m, TileOf(k).m) <= d.maxGroups.y
    && s.batch <= d.maxGroups.z
  }

  function GemvSelection(s: SplitK.Shape, bF16: bool): Option<Kernel> {
    if s.m == 1 then Some(if bF16 then RowSelection(s.k, s.n) else RowBda)
    else if s.n == 1 && !bF16 then Some(ColBda)
    else if s.k == 1 && !bF16 then Some(OuterBda)
    else None
  }

  predicate CoopmatShape(d: Device, s: SplitK.Shape) {
    d.coopmat && s.k % 32 == 0 && s.m >= 128 && s.n >= 128 && s.m % 64 == 0 && s.n % 64 == 0
  }

  function TileSelection(d: Device, s: SplitK.Shape, bF16: bool): Kernel {
    var tile := AutoSelectKernel(d, s);
    if bF16 then
      if CoopmatShape(d, s) then
        match CoopmatSelection(s.batch, s.m, s.n, false)
        case Some(k) => k
        case None => assert false; tile
      else ToF16w(tile)
    else if d.bda then MaybeToBda(tile)
    else tile
  }

  /** The heuristic's kernel; a GEMV pick is not checked for presence. */
  function Heuristic(d: Device, s: SplitK.Shape, bF16: bool): Option<Kernel> {
    match GemvSelection(s, bF16)
    case Some(k) => if d.bda && GridFits(d, k, s) then Some(k) else InBudget(d, TileSelection(d, s, bF16))
    case None => InBudget(d, TileSelection(d, s, bF16))
  }

  function KernelAt(d: Device, k: Option<Kernel>): Option<Kernel> {
    if k.Some? && Present(d, k.value) then k else None
  }

  function EpilogueFallback(d: Device, s: SplitK.Shape, bF16: bool): Option<Kernel> {
    var index := KernelAt(d, Heuristic(d, s, bF16));
    if index.None? || SupportsEpilogue(index.value) then index
    else if bF16 && s.m % 128 == 0 && s.n % 128 == 0 && s.k % 32 == 0 && s.m >= 256 && s.n >= 256
            && Present(d, F16wCm2) then Some(F16wCm2)
    else
      var tile := AutoSelectKernel(d, s);
      InBudget(d, if bF16 then ToF16w(tile) else MaybeToBda(tile))
  }

  /** Kernels the tuner may measure, hence record as winners, for a shape. */
  predicate TuneCandidate(d: Device, s: SplitK.Shape, bF16: bool, k: Kernel) {
    && d.bda && Present(d, k)
    && !(Coopmat(k) && !AlignedSuffix(k)) && !Packed(k)
    && !UsesDescriptors(k)
    && var tensorCore := Coopmat(k) || Cm2(k);
       var fits := tensorCore && s.m % 128 == 0 && s.n % 128 == 0 && s.k % 32 == 0;
       && (AlignedSuffix(k) ==> fits) && (tensorCore ==> fits)
       && WeightsF16(k) == bF16 && !A16(k)
       && (s.m == 1 || !RowKernel(k)) && (s.n == 1 || !k.ColBda?) && (s.k == 1 || !k.OuterBda?)
  }

  datatype TuneEntry = TuneEntry(kernel: Kernel, splitk2: Option<nat>)
  datatype Key = Key(shape: SplitK.Shape, bF16: bool)
  type Tuned = map<Key, TuneEntry>

  /** Every recorded winner was a candidate for its own shape. */
  ghost predicate WinnersMeasured(d: Device, tuned: Tuned) {
    forall key :: key in tuned ==> TuneCandidate(d, key.shape, key.bF16, tuned[key].kernel)
  }

  /** What the pipeline keeps of a loaded store: entries whose slot is filled. */
  function Retained(d: Device, tuned: Tuned): Tuned {
    map key | key in tuned && Present(d, tuned[key].kernel) :: tuned[key]
  }

  /** A store measured under other gates stays trustworthy: what is retained of it are
      candidates on this device, each for its own shape. */
  lemma RetainedWinnersMeasured(before: Device, d: Device, tuned: Tuned)
    requires WinnersMeasured(before, tuned) && d.bda
    ensures WinnersMeasured(d, Retained(d, tuned))
  {
    forall key | key in Retained(d, tuned)
      ensures TuneCandidate(d, key.shape, key.bF16, Retained(d, tuned)[key].kernel)
    {
      assert TuneCandidate(before, key.shape, key.bF16, tuned[key].kernel);
    }
  }

  datatype OpPlan = OpPlan(kernel: Kernel, splitk2: Option<nat>)

  /** Split counts: a measured verdict wins over the heuristic. */
  function AutoSplits(d: Device, tuned: Tuned, key: Key): Option<nat> {
    var wanted :=
      if key in tuned then tuned[key].splitk2
      else if d.discrete then SplitK.LargestSplit(key.shape)
      else None;
    match wanted
    case None => None
    case Some(n) =>
      if n < U32_SIZE && SplitK.AutoRouteFits(d.maxGroups, key.shape, n) then Some(n) else None
  }

  /** plan_shape under the automatic selection. */
  function PlanShape(d: Device, tuned: Tuned, s: SplitK.Shape, bF16: bool, splitEligible: bool): Option<OpPlan> {
    var key := Key(s, bF16);
    var kernel := if key in tuned then Some(tuned[key].kernel) else Heuristic(d, s, bF16);
    match kernel
    case None => None
    case Some(k) =>
      Some(OpPlan(k, if splitEligible && !bF16 && d.bda then AutoSplits(d, tuned, key) else None))
  }

  function PlanMatmul(d: Device, tuned: Tuned, dims: Dims, splitEligible: bool): Option<OpPlan> {
    var s := dims.shape;
    if dims.packedB then
      match InBudget(d, PackedRowSelection(s.k, s.n))
      case None => None
      case Some(k) => Some(OpPlan(k, None))
    else if dims.aF16 then
      if !(d.coopmat && d.f16Storage) then None
      else
        match CoopmatSelection(s.batch, s.m, s.n, true)
        case None => None
        case Some(k) => Some(OpPlan(k, None))
    else PlanShape(d, tuned, s, dims.bF16, splitEligible)
  }

  predicate FusionsFit(k: Kernel, f: Fusions) {
    (f.normedA ==> SupportsNormedA(k)) && (f.store ==> SupportsStore(k))
  }

  /** Rerouting of fused ops; None when an emptied slot is asked for. */
  function DemoteForOp(d: Device, dims: Dims, f: Fusions, plan: OpPlan): Option<OpPlan> {
    if dims.packedB then Some(plan)
    else if !Present(d, plan.kernel) then None
    else
      var s := dims.shape;
      var first :=
        if f.epilogue && !SupportsEpilogue(plan.kernel) then
          match KernelAt(d, EpilogueFallback(d, s, dims.bF16))
          case None => None
          case Some(k) => Some(OpPlan(k, None))
        else Some(plan);
      if first.None? || FusionsFit(first.value.kernel, f) then first
      else
        match KernelAt(d, Heuristic(d, s, dims.bF16))
        case None => None
        case Some(k) => if FusionsFit(k, f) then Some(OpPlan(k, None)) else first
  }

  function Route(d: Device, tuned: Tuned, dims: Dims, f: Fusions, splitEligible: bool): Option<OpPlan> {
    match PlanMatmul(d, tuned, dims, splitEligible)
    case None => None
    case Some(plan) => DemoteForOp(d, dims, f, plan)
  }

  // ---- What recording checks ---------------------------------------------

  /** The storage, layout and alignment checks of `record_one_matmul`. */
  predicate StorageAgrees(k: Kernel, dims: Dims) {
    && AlignmentOk(k, dims.shape.m, dims.shape.n, dims.shape.k)
    && WeightsF16(k) == dims.bF16
    && A16(k) == dims.aF16
    && Packed(k) == dims.packedB
  }

  // ---- Route properties --------------------------------------------------

  /** The class of tiles an ordinary (non-GEMV, non-coopmat) route may land on. */
  predicate PlainTile(k: Kernel, bF16: bool) {
    && !UsesDescriptors(k) && !AlignedSuffix(k) && !Coopmat(k) && !Cm2(k) && !Packed(k)
    && WeightsF16(k) == bF16
  }

  lemma SiblingsArePlain(k: Kernel, f: Kernel, bF16: bool)
    requires PlainTile(k, bF16) && Fallback(k) == Some(f)
    ensures PlainTile(f, bF16)
  {}

  /** Demotion stays within the storage class and the edge-checked bodies, and
      ends in a filled slot. */
  lemma {:induction false} DemotionKeepsPlainTiles(d: Device, k: Kernel, bF16: bool)
    requires PlainTile(k, bF16)
    ensures InBudget(d, k).Some? ==> PlainTile(InBudget(d, k).value, bF16) && Present(d, InBudget(d, k).value)
    decreases Rank(k)
  {
    if !Present(d, k) && Fallback(k).Some? {
      var f := Fallback(k).value;
      RankDrops(k, f);
      SiblingsArePlain(k, f, bF16);
      DemotionKeepsPlainTiles(d, f, bF16);
    }
  }

  lemma AutoTilesArePlain(tile: Kernel)
    requires AutoTile(tile)
    ensures PlainTile(MaybeToBda(tile), false) && PlainTile(ToF16w(tile), true)
  {}

  lemma PlainTileAgrees(k: Kernel, s: SplitK.Shape, bF16: bool)
    requires PlainTile(k, bF16)
    ensures StorageAgrees(k, Dims(s, bF16, false, false)) && SupportsEpilogue(k)
  {}

  /** The tile route without tensor cores. */
  lemma SimtRouteAgrees(d: Device, s: SplitK.Shape, bF16: bool)
    ensures var tile := AutoSelectKernel(d, s);
            var r := InBudget(d, if bF16 then ToF16w(tile) else MaybeToBda(tile));
            r.Some? ==> Present(d, r.value) && SupportsEpilogue(r.value)
                        && StorageAgrees(r.value, Dims(s, bF16, false, false))
  {
    var tile := AutoSelectKernel(d, s);
    var first := if bF16 then ToF16w(tile) else MaybeToBda(tile);
    AutoTilesArePlain(tile);
    DemotionKeepsPlainTiles(d, first, bF16);
    if InBudget(d, first).Some? { PlainTileAgrees(InBudget(d, first).value, s, bF16); }
  }

  lemma DemotionStops(d: Device, k: Kernel)
    requires !Present(d, k) && Fallback(k).None?
    ensures InBudget(d, k).None?
  {}

  lemma DemotionStopsNext(d: Device, k: Kernel, f: Kernel)
    requires !Present(d, k) && Fallback(k) == Some(f) && !Present(d, f) && Fallback(f).None?
    ensures InBudget(d, k).None?
  {
    DemotionStops(d, f);
  }

  /** The 128-tile needs the most shared memory of the coopmat tiles. */
  lemma CoopmatBudget(d: Device, k: Kernel)
    requires RealDevice(d)
    requires k.F16wCoopmat? || k.F16wCoopmatM64? || k.F16wCoopmatM64N128? || k.F16wCoopmatM128N64?
    requires !Present(d, k)
    ensures !Present(d, F16wCoopmat)
  {
    assert d.sharedBytes[k] <= d.sharedBytes[F16wCoopmat];
  }

  /** The byte budget that empties a wave-fill coopmat tile empties the 128-tile
      too, so the demotion to it never fires. */
  lemma CoopmatFallbackNeverTaken(d: Device, k: Kernel)
    requires RealDevice(d)
    requires k.F16wCoopmat? || k.F16wCoopmatM64? || k.F16wCoopmatM64N128? || k.F16wCoopmatM128N64?
    ensures InBudget(d, k).Some? ==> InBudget(d, k) == Some(k) && Present(d, k)
  {
    if !Present(d, k) {
      CoopmatBudget(d, k);
      if k.F16wCoopmat? { DemotionStops(d, k); } else { DemotionStopsNext(d, k, F16wCoopmat); }
    }
  }

  /** The extent of a tile divides the shape it is picked for. */
  lemma CoopmatTileDivides(batch: nat, m: nat, n: nat)
    requires m % 64 == 0 && n % 64 == 0
    ensures PickCoopmatTile(batch, m, n).Some?
    ensures var tile := PickCoopmatTile(batch, m, n).value;
            (tile.T128? || tile.T128x64? ==> m % 128 == 0) && (tile.T128? || tile.T64x128? ==> n % 128 == 0)
  {}

  lemma CoopmatKernelAligned(tile: CoopmatTile, a16: bool, m: nat, n: nat, k: nat)
    requires m % 64 == 0 && n % 64 == 0 && k % 32 == 0
    requires tile.T128? || tile.T128x64? ==> m % 128 == 0
    requires tile.T128? || tile.T64x128? ==> n % 128 == 0
    ensures AlignmentOk(CoopmatKernel(tile, a16), m, n, k)
  {}

  lemma CoopmatKernelKind(tile: CoopmatTile, a16: bool)
    ensures var k := CoopmatKernel(tile, a16); Coopmat(k) && WeightsF16(k) && A16(k) == a16 && !Packed(k)
  {}

  lemma CoopmatTileAligned(batch: nat, m: nat, n: nat, k: nat, a16: bool)
    requires m % 64 == 0 && n % 64 == 0 && k % 32 == 0
    ensures CoopmatSelection(batch, m, n, a16).Some?
    ensures var kernel := CoopmatSelection(batch, m, n, a16).value;
            AlignmentOk(kernel, m, n, k) && Coopmat(kernel) && WeightsF16(kernel) && A16(kernel) == a16
                && !Packed(kernel)
  {
    CoopmatTileDivides(batch, m, n);
    var tile := PickCoopmatTile(batch, m, n).value;
    CoopmatKernelAligned(tile, a16, m, n, k);
    CoopmatKernelKind(tile, a16);
  }

  lemma CoopmatIsKnown(batch: nat, m: nat, n: nat)
    requires CoopmatSelection(batch, m, n, false).Some?
    ensures var k := CoopmatSelection(batch, m, n, false).value;
            k.F16wCoopmat? || k.F16wCoopmatM64? || k.F16wCoopmatM64N128? || k.F16wCoopmatM128N64?
  {}

  lemma GemvAgrees(s: SplitK.Shape, bF16: bool)
    requires GemvSelection(s, bF16).Some?
    ensures var k := GemvSelection(s, bF16).value;
            SupportsEpilogue(k) && StorageAgrees(k, Dims(s, bF16, false, false)) && LastResort(k)
  {}

  lemma CoopmatRouteAgrees(d: Device, s: SplitK.Shape)
    requires RealDevice(d) && CoopmatShape(d, s)
    ensures var r := InBudget(d, TileSelection(d, s, true));
            r.Some? ==> Present(d, r.value) && Coopmat(r.value)
                        && StorageAgrees(r.value, Dims(s, true, false, false))
  {
    CoopmatTileAligned(s.batch, s.m, s.n, s.k, false);
    CoopmatIsKnown(s.batch, s.m, s.n);
    CoopmatFallbackNeverTaken(d, CoopmatSelection(s.batch, s.m, s.n, false).value);
  }

  /** What every heuristic pick that does not stop satisfies. */
  lemma HeuristicAgrees(d: Device, s: SplitK.Shape, bF16: bool)
    requires RealDevice(d) && d.bda
    requires Heuristic(d, s, bF16).Some?
    ensures var k := Heuristic(d, s, bF16).value;
            && StorageAgrees(k, Dims(s, bF16, false, false))
            && (SupportsEpilogue(k) || (bF16 && Coopmat(k)))
  {
    if GemvSelection(s, bF16).Some? { GemvAgrees(s, bF16); }
    if bF16 && CoopmatShape(d, s) { CoopmatRouteAgrees(d, s); } else { SimtRouteAgrees(d, s, bF16); }
  }

  lemma Cm2Agrees(s: SplitK.Shape)
    ensures SupportsEpilogue(F16wCm2) && StorageAgrees(F16wCm2, Dims(s, true, false, false))
  {}

  lemma EpilogueFallbackAgrees(d: Device, s: SplitK.Shape, bF16: bool)
    requires RealDevice(d) && d.bda
    requires EpilogueFallback(d, s, bF16).Some?
    ensures var k := EpilogueFallback(d, s, bF16).value;
            SupportsEpilogue(k) && StorageAgrees(k, Dims(s, bF16, false, false))
  {
    if Heuristic(d, s, bF16).Some? { HeuristicAgrees(d, s, bF16); }
    Cm2Agrees(s);
    SimtRouteAgrees(d, s, bF16);
  }

  lemma CandidateAgrees(d: Device, s: SplitK.Shape, bF16: bool, k: Kernel)
    requires TuneCandidate(d, s, bF16, k)
    ensures StorageAgrees(k, Dims(s, bF16, false, false))
  {}

  lemma PlanAgrees(d: Device, tuned: Tuned, dims: Dims, f: Fusions, splitEligible: bool)
    requires RealDevice(d) && d.bda && WinnersMeasured(d, tuned) && Resolved(d, dims, f)
    requires PlanMatmul(d, tuned, dims, splitEligible).Some?
    ensures StorageAgrees(PlanMatmul(d, tuned, dims, splitEligible).value.kernel, dims)
  {
    var s := dims.shape;
    if dims.packedB {
    } else if dims.aF16 {
      CoopmatTileAligned(s.batch, s.m, s.n, s.k, true);
    } else if Key(s, dims.bF16) in tuned {
      CandidateAgrees(d, s, dims.bF16, tuned[Key(s, dims.bF16)].kernel);
    } else {
      HeuristicAgrees(d, s, dims.bF16);
    }
  }

  /** What recording needs of the kernel an op finally runs. */
  predicate MeetsRecording(d: Device, dims: Dims, f: Fusions, k: Kernel) {
    Present(d, k) && StorageAgrees(k, dims) && (f.epilogue ==> SupportsEpilogue(k))
  }

  /** Rerouting a plan that agrees with the storage of the op yields a kernel
      that also fuses what the op asks for. */
  lemma DemotionMeetsRecording(d: Device, dims: Dims, f: Fusions, plan: OpPlan)
    requires RealDevice(d) && d.bda && Resolved(d, dims, f) && !dims.packedB
    requires StorageAgrees(plan.kernel, dims)
    requires DemoteForOp(d, dims, f, plan).Some?
    ensures MeetsRecording(d, dims, f, DemoteForOp(d, dims, f, plan).value.kernel)
  {
    var s := dims.shape;
    if EpilogueFallback(d, s, dims.bF16).Some? { EpilogueFallbackAgrees(d, s, dims.bF16); }
    if Heuristic(d, s, dims.bF16).Some? { HeuristicAgrees(d, s, dims.bF16); }
    forall k: Kernel | FusionsFit(k, f) && (f.normedA || f.store) ensures SupportsEpilogue(k) {
      RowKernelsFuse(k, f);
    }
  }

  /** Automatic routing, from the heuristic or any measured winner, either stops
      on an emptied slot or lands on a filled slot whose storage, layout and
      alignment agree with the op and which can fuse its epilogue. */
  lemma RouteMeetsRecording(d: Device, tuned: Tuned, dims: Dims, f: Fusions, splitEligible: bool)
    requires RealDevice(d) && d.bda && WinnersMeasured(d, tuned) && Resolved(d, dims, f)
    requires Route(d, tuned, dims, f, splitEligible).Some?
    ensures MeetsRecording(d, dims, f, Route(d, tuned, dims, f, splitEligible).value.kernel)
  {
    PlanAgrees(d, tuned, dims, f, splitEligible);
    if dims.packedB {
      PackedPlan(d, dims.shape);
    } else {
      DemotionMeetsRecording(d, dims, f, PlanMatmul(d, tuned, dims, splitEligible).value);
    }
  }

  /** Packed kernels have no sibling to fall back to. */
  lemma PackedStays(d: Device, k: Kernel)
    requires Packed(k)
    ensures InBudget(d, k).Some? ==> InBudget(d, k) == Some(k) && Present(d, k)
  {
    if !Present(d, k) { DemotionStops(d, k); }
  }

  lemma PackedFuses(k: Kernel)
    requires Packed(k)
    ensures SupportsEpilogue(k) && SupportsStore(k) && SupportsNormedA(k)
  {}

  lemma PackedPlan(d: Device, s: SplitK.Shape)
    requires InBudget(d, PackedRowSelection(s.k, s.n)).Some?
    ensures var k := InBudget(d, PackedRowSelection(s.k, s.n)).value;
            k == PackedRowSelection(s.k, s.n) && Present(d, k) && SupportsEpilogue(k) && SupportsStore(k)
  {
    PackedStays(d, PackedRowSelection(s.k, s.n));
    PackedFuses(PackedRowSelection(s.k, s.n));
  }

  lemma RowKernelsFuse(k: Kernel, f: Fusions)
    requires FusionsFit(k, f) && (f.normedA || f.store)
    ensures SupportsEpilogue(k)
  {}

  /** M = 1 ops whose row grid fits the device also get their fused norm and
      store, whatever the tuner recorded. */
  lemma RowFusionsHonoured(d: Device, tuned: Tuned, dims: Dims, f: Fusions, splitEligible: bool)
    requires RealDevice(d) && d.bda && WinnersMeasured(d, tuned) && Resolved(d, dims, f)
    requires dims.shape.m == 1
    requires GridFits(d, GemvSelection(dims.shape, dims.bF16).value, dims.shape)
    requires Route(d, tuned, dims, f, splitEligible).Some?
    ensures FusionsFit(Route(d, tuned, dims, f, splitEligible).value.kernel, f)
  {
    var s := dims.shape;
    if dims.packedB {
      PackedPlan(d, s);
    } else {
      assert Heuristic(d, s, dims.bF16) == GemvSelection(s, dims.bF16);
    }
  }

  /** The split count in a plan is dispatchable as it stands. */
  lemma PlannedSplitDispatches(d: Device, tuned: Tuned, dims: Dims, f: Fusions, splitEligible: bool)
    requires Route(d, tuned, dims, f, splitEligible).Some?
    requires Route(d, tuned, dims, f, splitEligible).value.splitk2.Some?
    ensures var n := Route(d, tuned, dims, f, splitEligible).value.splitk2.value;
            n < U32_SIZE && SplitK.PlanDispatch(d.maxGroups, dims.shape, n).Some?
  {
    var n := Route(d, tuned, dims, f, splitEligible).value.splitk2.value;
    SplitK.AcceptedRoutePlans(d.maxGroups, dims.shape, n);
  }

  /** The last kernels of the demotion chains and those that have none. */
  predicate LastResort(k: Kernel) {
    || k.SmallBdaV4? || k.M64N32Bda? || k.F16wSmallBdaV4? || k.RowBda? || k.ColBda? || k.OuterBda?
    || k.F16wRowBdaK16? || k.F16wRowBdaK16V2? || Packed(k) || Coopmat(k)
  }

  /** On a device whose budget admits those kernels, routing never stops except
      for f16 activations without cooperative matrices. */
  lemma RouteNeverStops(d: Device, tuned: Tuned, dims: Dims, f: Fusions, splitEligible: bool)
    requires RealDevice(d) && d.bda && WinnersMeasured(d, tuned) && Resolved(d, dims, f)
    requires forall k: Kernel :: LastResort(k) ==> d.sharedBytes[k] <= d.sharedBudget
    requires dims.aF16 ==> d.coopmat
    ensures Route(d, tuned, dims, f, splitEligible).Some?
  {
    var s := dims.shape;
    if dims.packedB {
      LastResortsPresent(d, PackedRowSelection(s.k, s.n));
    } else if dims.aF16 {
      CoopmatTileAligned(s.batch, s.m, s.n, s.k, true);
      LastResortsPresent(d, CoopmatSelection(s.batch, s.m, s.n, true).value);
      HeuristicFound(d, s, dims.bF16);
    } else {
      HeuristicFound(d, s, dims.bF16);
    }
  }

  lemma LastResortsPresent(d: Device, k: Kernel)
    requires RealDevice(d) && LastResort(k) && d.sharedBytes[k] <= d.sharedBudget
    requires (WeightsF16(k) ==> d.f16Storage) && (Coopmat(k) ==> d.coopmat)
    ensures Present(d, k) && InBudget(d, k) == Some(k)
  {}

  /** Every plain chain ends in a last resort of the same storage class. */
  lemma {:induction false} PlainChainEnds(d: Device, k: Kernel, last: Kernel)
    requires RealDevice(d) && Present(d, last)
    requires k == last || Fallback(k) == Some(last)
             || (Fallback(k).Some? && Fallback(Fallback(k).value) == Some(last))
    ensures InBudget(d, k).Some?
    decreases Rank(k)
  {
    if !Present(d, k) {
      RankDrops(k, Fallback(k).value);
      PlainChainEnds(d, Fallback(k).value, last);
    }
  }

  lemma F16TilesFound(d: Device, tile: Kernel)
    requires RealDevice(d) && d.f16Storage && AutoTile(tile) && Present(d, F16wSmallBdaV4)
    ensures InBudget(d, ToF16w(tile)).Some?
  {
    PlainChainEnds(d, ToF16w(tile), F16wSmallBdaV4);
  }

  lemma F32TilesFound(d: Device, tile: Kernel)
    requires RealDevice(d) && AutoTile(tile) && !tile.M64N32? && Present(d, SmallBdaV4)
    ensures InBudget(d, MaybeToBda(tile)).Some?
  {
    PlainChainEnds(d, MaybeToBda(tile), SmallBdaV4);
  }

  lemma TilesFound(d: Device, tile: Kernel, bF16: bool)
    requires RealDevice(d) && (bF16 ==> d.f16Storage) && AutoTile(tile)
    requires forall k: Kernel :: LastResort(k) ==> d.sharedBytes[k] <= d.sharedBudget
    ensures InBudget(d, if bF16 then ToF16w(tile) else MaybeToBda(tile)).Some?
  {
    if bF16 {
      LastResortsPresent(d, F16wSmallBdaV4);
      F16TilesFound(d, tile);
    } else if tile.M64N32? {
      LastResortsPresent(d, M64N32Bda);
    } else {
      LastResortsPresent(d, SmallBdaV4);
      F32TilesFound(d, tile);
    }
  }

  lemma SimtFound(d: Device, s: SplitK.Shape, bF16: bool)
    requires RealDevice(d) && (bF16 ==> d.f16Storage)
    requires forall k: Kernel :: LastResort(k) ==> d.sharedBytes[k] <= d.sharedBudget
    ensures var tile := AutoSelectKernel(d, s);
            InBudget(d, if bF16 then ToF16w(tile) else MaybeToBda(tile)).Some?
  {
    TilesFound(d, AutoSelectKernel(d, s), bF16);
  }

  lemma HeuristicFound(d: Device, s: SplitK.Shape, bF16: bool)
    requires RealDevice(d) && d.bda && (bF16 ==> d.f16Storage)
    requires forall k: Kernel :: LastResort(k) ==> d.sharedBytes[k] <= d.sharedBudget
    ensures KernelAt(d, Heuristic(d, s, bF16)).Some?
    ensures KernelAt(d, EpilogueFallback(d, s, bF16)).Some?
  {
    SimtFound(d, s, bF16);
    SimtRouteAgrees(d, s, bF16);
    if GemvSelection(s, bF16).Some? {
      GemvAgrees(s, bF16);
      LastResortsPresent(d, GemvSelection(s, bF16).value);
    }
    if bF16 && CoopmatShape(d, s) {
      CoopmatTileAligned(s.batch, s.m, s.n, s.k, false);
      LastResortsPresent(d, CoopmatSelection(s.batch, s.m, s.n, false).value);
    }
  }

  /** The packing tile always matches the packed kernel and divides N, for every
      shape resolution accepts. */
  lemma PackedTileMatches(k: nat, n: nat)
    requires n % 32 == 0
    ensures TileOf(PackedRowSelection(k, n)).n == RowTileN(k, n)
    ensures n % RowTileN(k, n) == 0 && RowTileN(k, n) > 0
  {}

  // ---- The dispatch grid -------------------------------------------------

  /** One-row and one-column kernels only ever run shapes of one row or column. */
  predicate Shaped(k: Kernel, s: SplitK.Shape) { (RowKernel(k) ==> s.m == 1) && (k.ColBda? ==> s.n == 1) }

  predicate Blocked(k: Kernel) { !RowKernel(k) && !k.ColBda? }

  lemma {:induction false} DemotionStaysBlocked(d: Device, k: Kernel)
    requires Blocked(k)
    ensures InBudget(d, k).Some? ==> Blocked(InBudget(d, k).value)
    decreases Rank(k)
  {
    if !Present(d, k) && Fallback(k).Some? {
      RankDrops(k, Fallback(k).value);
      DemotionStaysBlocked(d, Fallback(k).value);
    }
  }

  lemma TilesAreBlocked(tile: Kernel)
    requires AutoTile(tile)
    ensures Blocked(ToF16w(tile)) && Blocked(MaybeToBda(tile)) && Blocked(tile)
  {}

  lemma HeuristicShaped(d: Device, s: SplitK.Shape, bF16: bool)
    ensures Heuristic(d, s, bF16).Some? ==> Shaped(Heuristic(d, s, bF16).value, s)
    ensures EpilogueFallback(d, s, bF16).Some? ==> Shaped(EpilogueFallback(d, s, bF16).value, s)
  {
    var tile := AutoSelectKernel(d, s);
    TilesAreBlocked(tile);
    DemotionStaysBlocked(d, TileSelection(d, s, bF16));
    DemotionStaysBlocked(d, if bF16 then ToF16w(tile) else MaybeToBda(tile));
  }

  lemma PlanShaped(d: Device, tuned: Tuned, dims: Dims, f: Fusions, splitEligible: bool)
    requires WinnersMeasured(d, tuned) && Resolved(d, dims, f)
    requires PlanMatmul(d, tuned, dims, splitEligible).Some?
    ensures Shaped(PlanMatmul(d, tuned, dims, splitEligible).value.kernel, dims.shape)
  {
    var s := dims.shape;
    HeuristicShaped(d, s, dims.bF16);
    if dims.packedB {
      PackedStays(d, PackedRowSelection(s.k, s.n));
    } else if !dims.aF16 && Key(s, dims.bF16) in tuned {
      assert TuneCandidate(d, s, dims.bF16, tuned[Key(s, dims.bF16)].kernel);
    }
  }

  lemma RouteShaped(d: Device, tuned: Tuned, dims: Dims, f: Fusions, splitEligible: bool)
    requires WinnersMeasured(d, tuned) && Resolved(d, dims, f) && Route(d, tuned, dims, f, splitEligible).Some?
    ensures Shaped(Route(d, tuned, dims, f, splitEligible).value.kernel, dims.shape)
  {
    PlanShaped(d, tuned, dims, f, splitEligible);
    HeuristicShaped(d, dims.shape, dims.bF16);
  }

  /** The grid check of recording, on the shape. */
  lemma GridFitsIff(d: Device, k: Kernel, s: SplitK.Shape)
    ensures GridFits(d, k, s)
            <==> s.n <= d.maxGroups.x * TileOf(k).n && s.m <= d.maxGroups.y * TileOf(k).m && s.batch <= d.maxGroups.z
  {
    CeilFits(s.n, TileOf(k).n, d.maxGroups.x);
    CeilFits(s.m, TileOf(k).m, d.maxGroups.y);
  }

  lemma CeilFits(a: nat, t: nat, limit: nat)
    requires t > 0
    ensures DivCeil(a, t) <= limit <==> a <= limit * t
  {
    var q := DivCeil(a, t);
    assert q * t <= a + t - 1 < q * t + t;
    if q <= limit { MulMono(q, limit, t); }
    else { MulMono(limit + 1, q, t); assert (limit + 1) * t == limit * t + t by { Distrib(limit, 1, t); } }
  }

  /** Every check recording makes, exactly: what is routed passes all but the grid check,
      and that one just when the shape is within the device's groups times the tile. */
  lemma RouteRecordsIff(d: Device, tuned: Tuned, dims: Dims, f: Fusions, splitEligible: bool)
    requires RealDevice(d) && d.bda && WinnersMeasured(d, tuned) && Resolved(d, dims, f)
    requires Route(d, tuned, dims, f, splitEligible).Some?
    ensures var k, s := Route(d, tuned, dims, f, splitEligible).value.kernel, dims.shape;
            MeetsRecording(d, dims, f, k) && GridFits(d, k, s)
            <==> s.n <= d.maxGroups.x * TileOf(k).n && s.m <= d.maxGroups.y * TileOf(k).m && s.batch <= d.maxGroups.z
  {
    RouteMeetsRecording(d, tuned, dims, f, splitEligible);
    GridFitsIff(d, Route(d, tuned, dims, f, splitEligible).value.kernel, dims.shape);
  }

  /** Shapes for which routing always lands on a grid the device takes, whichever kernel
      it picks: no kernel is narrower than 32 columns or lower than 2 rows unless the shape
      itself is one column or one row. */
  lemma RouteGridFits(d: Device, tuned: Tuned, dims: Dims, f: Fusions, splitEligible: bool)
    requires WinnersMeasured(d, tuned) && Resolved(d, dims, f) && Route(d, tuned, dims, f, splitEligible).Some?
    requires d.maxGroups.x > 0 && d.maxGroups.y > 0 && dims.shape.batch <= d.maxGroups.z
    requires dims.shape.n <= 32 * d.maxGroups.x && dims.shape.m <= 2 * d.maxGroups.y
    ensures GridFits(d, Route(d, tuned, dims, f, splitEligible).value.kernel, dims.shape)
  {
    var k := Route(d, tuned, dims, f, splitEligible).value.kernel;
    RouteShaped(d, tuned, dims, f, splitEligible);
    GridFitsIff(d, k, dims.shape);
    TileExtents(k);
    MulMono(if k.ColBda? then 1 else 32, TileOf(k).n, d.maxGroups.x);
    MulMono(if RowKernel(k) then 1 else 2, TileOf(k).m, d.maxGroups.y);
  }

  lemma TileExtents(k: Kernel)
    ensures TileOf(k).n >= (if k.ColBda? then 1 else 32) && TileOf(k).m >= if RowKernel(k) then 1 else 2
  {}
}
