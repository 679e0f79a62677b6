/** Which source decides a route: the tuner, the heuristic, or a fallback. */
module RoutingChoice {
  import opened Arith
  import opened Catalog
  import opened Prelude
  import opened Routing
  import SplitK

  predicate Fuses(k: Kernel, f: Fusions) {
    (f.epilogue ==> SupportsEpilogue(k)) && (f.normedA ==> SupportsNormedA(k)) && (f.store ==> SupportsStore(k))
  }

  /** A split count is used where the op may split and the device admits it. */
  function Admitted(d: Device, dims: Dims, splitEligible: bool, wanted: Option<nat>): Option<nat> {
    if !splitEligible || dims.bF16 || !d.bda || wanted.None? then None
    else if wanted.value < U32_SIZE && SplitK.AutoRouteFits(d.maxGroups, dims.shape, wanted.value) then wanted
    else None
  }

  // ---- The tuner ---------------------------------------------------------

  /** A measured winner whose slot is filled and which fuses what the op asks for is the
      route, with its own verdict on splitting. */
  lemma WinnerIsTaken(d: Device, tuned: Tuned, dims: Dims, f: Fusions, splitEligible: bool)
    requires !dims.packedB && !dims.aF16 && Key(dims.shape, dims.bF16) in tuned
    requires var k := tuned[Key(dims.shape, dims.bF16)].kernel; Present(d, k) && Fuses(k, f)
    ensures var winner := tuned[Key(dims.shape, dims.bF16)];
            Route(d, tuned, dims, f, splitEligible)
            == Some(OpPlan(winner.kernel, Admitted(d, dims, splitEligible, winner.splitk2)))
  {}

  /** Without one the store does not matter, nor does it for packed or f16 activations. */
  lemma NoWinnerNoStore(d: Device, tuned: Tuned, dims: Dims, f: Fusions, splitEligible: bool)
    requires dims.packedB || dims.aF16 || Key(dims.shape, dims.bF16) !in tuned
    ensures Route(d, tuned, dims, f, splitEligible) == Route(d, map[], dims, f, splitEligible)
  {}

  /** Then a heuristic pick that fuses what the op asks for is the route, and on a discrete
      device the heuristic split count goes with it. */
  lemma HeuristicIsTaken(d: Device, dims: Dims, f: Fusions, splitEligible: bool)
    requires !dims.packedB && !dims.aF16 && KernelAt(d, Heuristic(d, dims.shape, dims.bF16)).Some?
    requires Fuses(Heuristic(d, dims.shape, dims.bF16).value, f)
    ensures var wanted := if d.discrete then SplitK.LargestSplit(dims.shape) else None;
            Route(d, map[], dims, f, splitEligible)
            == Some(OpPlan(Heuristic(d, dims.shape, dims.bF16).value, Admitted(d, dims, splitEligible, wanted)))
  {
    UntunedSplits(d, dims, splitEligible);
  }

  lemma UntunedSplits(d: Device, dims: Dims, splitEligible: bool)
    ensures (if splitEligible && !dims.bF16 && d.bda then AutoSplits(d, map[], Key(dims.shape, dims.bF16)) else None)
            == Admitted(d, dims, splitEligible, if d.discrete then SplitK.LargestSplit(dims.shape) else None)
  {}

  // ---- Fallbacks ---------------------------------------------------------

  /** The kernel planned for an unpacked f32-A op. */
  function Planned(d: Device, tuned: Tuned, dims: Dims): Option<Kernel> {
    var key := Key(dims.shape, dims.bF16);
    if key in tuned then Some(tuned[key].kernel) else Heuristic(d, dims.shape, dims.bF16)
  }

  predicate TensorCoreEpilogue(d: Device, dims: Dims) {
    && dims.bF16 && Present(d, F16wCm2)
    && dims.shape.m % 128 == 0 && dims.shape.n % 128 == 0 && dims.shape.k % 32 == 0
    && dims.shape.m >= 256 && dims.shape.n >= 256
  }

  /** An op with an epilogue whose planned kernel does not fuse it goes to the heuristic pick
      if that fuses it, else to the second-generation tensor-core kernel where device and
      shape allow, else to the edge-checked kernel of the tile class; always unsplit. */
  lemma EpilogueMoves(d: Device, tuned: Tuned, dims: Dims, f: Fusions, splitEligible: bool)
    requires !dims.packedB && !dims.aF16 && f.epilogue && !f.normedA && !f.store
    requires KernelAt(d, Planned(d, tuned, dims)).Some?
    requires !SupportsEpilogue(Planned(d, tuned, dims).value)
    requires KernelAt(d, Heuristic(d, dims.shape, dims.bF16)).Some?
    ensures var heuristic, r := Heuristic(d, dims.shape, dims.bF16).value, Route(d, tuned, dims, f, splitEligible);
            && (SupportsEpilogue(heuristic) ==> r == Some(OpPlan(heuristic, None)))
            && (!SupportsEpilogue(heuristic) && TensorCoreEpilogue(d, dims) ==> r == Some(OpPlan(F16wCm2, None)))
            && (!SupportsEpilogue(heuristic) && !TensorCoreEpilogue(d, dims) ==>
                  var tile := AutoSelectKernel(d, dims.shape);
                  var simt := KernelAt(d, InBudget(d, if dims.bF16 then ToF16w(tile) else MaybeToBda(tile)));
                  r == if simt.Some? then Some(OpPlan(simt.value, None)) else None)
  {}

  /** A row with a fused norm or store goes from a winner that lacks them to the heuristic
      row kernel, unsplit. */
  lemma RowMoves(d: Device, tuned: Tuned, dims: Dims, f: Fusions, splitEligible: bool)
    requires !dims.packedB && !dims.aF16 && !f.epilogue && KernelAt(d, Planned(d, tuned, dims)).Some?
    requires !Fuses(Planned(d, tuned, dims).value, f)
    requires KernelAt(d, Heuristic(d, dims.shape, dims.bF16)).Some?
    requires Fuses(Heuristic(d, dims.shape, dims.bF16).value, f)
    ensures Route(d, tuned, dims, f, splitEligible) == Some(OpPlan(Heuristic(d, dims.shape, dims.bF16).value, None))
  {}

  // ---- What the heuristic picks ------------------------------------------

  predicate GemvPick(k: Kernel) { RowKernel(k) || k.ColBda? || k.OuterBda? }

  lemma {:induction false} DemotionKeepsKind(d: Device, k: Kernel)
    requires !GemvPick(k)
    ensures var r := InBudget(d, k);
            r.Some? ==> !GemvPick(r.value) && Coopmat(r.value) == Coopmat(k) && WeightsF16(r.value) == WeightsF16(k)
                        && UsesDescriptors(r.value) == UsesDescriptors(k) && Present(d, r.value)
    decreases Rank(k)
  {
    if !Present(d, k) && Fallback(k).Some? {
      RankDrops(k, Fallback(k).value);
      SiblingsAlike(k, Fallback(k).value);
      DemotionKeepsKind(d, Fallback(k).value);
    }
  }

  /** The siblings of a kernel, by what they end up as. */
  lemma SiblingOf(k: Kernel, f: Kernel)
    requires Fallback(k) == Some(f)
    ensures f.M128N64? || f.M128N64BdaV4? || f.Small? || f.SmallBdaV4? || f.F16wSmallBdaV4? || f.F16wCoopmat?
            || f.F16wA16Coopmat?
    ensures (f.M128N64? || f.Small?) == UsesDescriptors(k) && (f.F16wCoopmat? || f.F16wA16Coopmat?) == Coopmat(k)
    ensures !(f.M128N64? || f.Small? || f.M128N64BdaV4? || f.SmallBdaV4?) == WeightsF16(k)
  {
    if Coopmat(k) {
      assert f.F16wCoopmat? || f.F16wA16Coopmat?;
    } else if WeightsF16(k) {
      assert f.F16wSmallBdaV4?;
    }
  }

  /** They differ in their tiles only. */
  lemma SiblingsAlike(k: Kernel, f: Kernel)
    requires Fallback(k) == Some(f)
    ensures !GemvPick(f) && UsesDescriptors(f) == UsesDescriptors(k)
    ensures Coopmat(f) == Coopmat(k) && WeightsF16(f) == WeightsF16(k)
  {
    SiblingOf(k, f);
  }

  lemma TileKinds(tile: Kernel)
    requires AutoTile(tile)
    ensures UsesDescriptors(tile) && !GemvPick(tile) && !Coopmat(tile) && !WeightsF16(tile)
    ensures var k := MaybeToBda(tile); !UsesDescriptors(k) && !GemvPick(k) && !Coopmat(k) && !WeightsF16(k)
  {}

  lemma F16TileKinds(tile: Kernel)
    ensures var k := ToF16w(tile); !UsesDescriptors(k) && !GemvPick(k) && !Coopmat(k) && WeightsF16(k)
  {}

  lemma CoopmatKinds(tile: CoopmatTile)
    ensures var k := CoopmatKernel(tile, false); !UsesDescriptors(k) && !GemvPick(k) && Coopmat(k) && WeightsF16(k)
  {}

  predicate TensorCoreShape(d: Device, s: SplitK.Shape) {
    d.coopmat && s.m >= 128 && s.n >= 128 && s.m % 64 == 0 && s.n % 64 == 0 && s.k % 32 == 0
  }

  lemma TileSelectionKind(d: Device, s: SplitK.Shape, bF16: bool)
    ensures var k := TileSelection(d, s, bF16);
            && !GemvPick(k) && WeightsF16(k) == bF16 && (Coopmat(k) <==> bF16 && TensorCoreShape(d, s))
            && (UsesDescriptors(k) <==> !bF16 && !d.bda)
  {
    TileKinds(AutoSelectKernel(d, s));
    F16TileKinds(AutoSelectKernel(d, s));
    if bF16 && CoopmatShape(d, s) {
      CoopmatTileAligned(s.batch, s.m, s.n, s.k, false);
      CoopmatKinds(PickCoopmatTile(s.batch, s.m, s.n).value);
    }
  }

  /** Whether a one-row, one-column or K = 1 kernel runs, its grid being admitted. */
  predicate Groups(d: Device, s: SplitK.Shape, tileM: nat, tileN: nat)
    requires tileM > 0 && tileN > 0
  {
    DivCeil(s.n, tileN) <= d.maxGroups.x && DivCeil(s.m, tileM) <= d.maxGroups.y && s.batch <= d.maxGroups.z
  }

  /** Output columns per group of the row kernel for a shape. */
  function RowWidth(s: SplitK.Shape, bF16: bool): nat {
    if bF16 && !(s.k >= 4096 || s.n <= 512 || (s.k >= 2048 && s.n <= 2048)) then 64 else 32
  }

  predicate RowRuns(d: Device, s: SplitK.Shape, bF16: bool) { d.bda && s.m == 1 && Groups(d, s, 1, RowWidth(s, bF16)) }

  predicate ColRuns(d: Device, s: SplitK.Shape, bF16: bool) {
    d.bda && s.m != 1 && s.n == 1 && !bF16 && Groups(d, s, 2, 1)
  }

  predicate OuterRuns(d: Device, s: SplitK.Shape, bF16: bool) {
    d.bda && s.m != 1 && s.n != 1 && s.k == 1 && !bF16 && Groups(d, s, 16, 128)
  }

  lemma GemvKinds(s: SplitK.Shape, bF16: bool)
    requires GemvSelection(s, bF16).Some?
    ensures var k := GemvSelection(s, bF16).value;
            && WeightsF16(k) == bF16 && !Coopmat(k) && !UsesDescriptors(k)
            && (RowKernel(k) <==> s.m == 1) && (RowKernel(k) ==> TileOf(k) == Tile(1, RowWidth(s, bF16), 1))
            && (k.ColBda? <==> s.m != 1 && s.n == 1) && (k.OuterBda? <==> s.m != 1 && s.n != 1)
  {}

  lemma GemvTaken(d: Device, s: SplitK.Shape, bF16: bool)
    ensures var g := GemvSelection(s, bF16);
            d.bda && g.Some? && GridFits(d, g.value, s)
            <==> RowRuns(d, s, bF16) || ColRuns(d, s, bF16) || OuterRuns(d, s, bF16)
  {
    if GemvSelection(s, bF16).Some? { GemvKinds(s, bF16); }
  }

  /** The class of the heuristic pick, by the shape and the device alone. */
  lemma HeuristicKind(d: Device, s: SplitK.Shape, bF16: bool)
    requires Heuristic(d, s, bF16).Some?
    ensures var k := Heuristic(d, s, bF16).value;
            && WeightsF16(k) == bF16
            && (RowKernel(k) <==> RowRuns(d, s, bF16))
            && (RowKernel(k) ==> TileOf(k) == Tile(1, RowWidth(s, bF16), 1))
            && (k.ColBda? <==> ColRuns(d, s, bF16)) && (k.OuterBda? <==> OuterRuns(d, s, bF16))
            && (Coopmat(k) <==> bF16 && TensorCoreShape(d, s)) && (UsesDescriptors(k) <==> !bF16 && !d.bda)
  {
    GemvTaken(d, s, bF16);
    if GemvSelection(s, bF16).Some? { GemvKinds(s, bF16); }
    TileSelectionKind(d, s, bF16);
    DemotionKeepsKind(d, TileSelection(d, s, bF16));
  }

  /** Moving a tile to another storage class keeps its output tile where that class has one,
      and the demotion of a deep-K tile always does. */
  lemma TilesKept(tile: Kernel)
    requires AutoTile(tile)
    ensures TileOf(MaybeToBda(tile)) == TileOf(tile)
    ensures !tile.M64N32? && !tile.M128N64? ==> TileOf(ToF16w(tile)) == TileOf(tile)
    ensures tile.M128N64? ==> TileOf(ToF16w(tile)) == Tile(128, 64, 64)
    ensures tile.M64N32? ==> TileOf(ToF16w(tile)) == Tile(64, 64, 32)
    ensures tile.M128N64K64? ==>
              TileOf(Fallback(tile).value) == Tile(128, 64, 32)
              && TileOf(Fallback(MaybeToBda(tile)).value) == Tile(128, 64, 32)
  {}

  /** What a filled slot says of the device. */
  lemma RoutedIsSupported(d: Device, tuned: Tuned, dims: Dims, f: Fusions, splitEligible: bool)
    requires RealDevice(d) && d.bda && WinnersMeasured(d, tuned) && Resolved(d, dims, f)
    requires Route(d, tuned, dims, f, splitEligible).Some?
    ensures var k := Route(d, tuned, dims, f, splitEligible).value.kernel;
            && (WeightsF16(k) ==> d.f16Storage) && (Coopmat(k) ==> d.coopmat) && (k.F16wCm2? ==> d.coopmat2)
            && d.sharedBytes[k] <= d.sharedBudget && WeightsF16(k) == dims.bF16 && A16(k) == dims.aF16
            && Packed(k) == dims.packedB && !UsesDescriptors(k)
            && (Coopmat(k) || AlignedSuffix(k) ==>
                  dims.shape.m % TileOf(k).m == 0 && dims.shape.n % TileOf(k).n == 0 && dims.shape.k % TileOf(k).k == 0)
            && (dims.packedB ==> dims.shape.m == 1 && dims.shape.n % TileOf(k).n == 0)
  {
    var k := Route(d, tuned, dims, f, splitEligible).value.kernel;
    RouteMeetsRecording(d, tuned, dims, f, splitEligible);
    DescriptorsNever(d, tuned, dims, f, splitEligible);
    if dims.packedB { PackedPlan(d, dims.shape); }
  }

  lemma DescriptorsNever(d: Device, tuned: Tuned, dims: Dims, f: Fusions, splitEligible: bool)
    requires RealDevice(d) && d.bda && WinnersMeasured(d, tuned) && Resolved(d, dims, f)
    requires Route(d, tuned, dims, f, splitEligible).Some?
    ensures !UsesDescriptors(Route(d, tuned, dims, f, splitEligible).value.kernel)
  {
    var s, tile := dims.shape, AutoSelectKernel(d, dims.shape);
    if dims.packedB {
      PackedPlan(d, s);
    } else {
      if Heuristic(d, s, dims.bF16).Some? { HeuristicKind(d, s, dims.bF16); }
      TileKinds(tile);
      F16TileKinds(tile);
      DemotionKeepsKind(d, if dims.bF16 then ToF16w(tile) else MaybeToBda(tile));
      if dims.aF16 { NotDescribed(s); }
    }
  }

  lemma NotDescribed(s: SplitK.Shape)
    requires CoopmatSelection(s.batch, s.m, s.n, true).Some?
    ensures !UsesDescriptors(CoopmatSelection(s.batch, s.m, s.n, true).value)
  {}
}
