/** For which shapes the heuristic picks which tile, its overlapping rules resolved. */
module TileRegions {
  import opened Arith
  import opened Catalog
  import opened Prelude
  import opened Routing
  import opened RoutingChoice
  import SplitK

  // Shapes as resolution accepts them: no empty extent and at most 2^32 output elements.
  predicate Accepted(s: SplitK.Shape) {
    s.batch > 0 && s.m > 0 && s.n > 0 && s.k > 0 && Times(s.batch, Times(s.m, s.n)) <= 0x1_0000_0000
  }

  function Lo(s: SplitK.Shape): nat { if s.m <= s.n then s.m else s.n }
  function Hi(s: SplitK.Shape): nat { if s.m <= s.n then s.n else s.m }

  /** Sides within a factor of 5/4. */
  predicate NearSquare(s: SplitK.Shape) { 4 * Hi(s) <= 5 * Lo(s) }

  predicate Narrow(s: SplitK.Shape) {
    s.k >= 128 && 128 <= Lo(s) && Hi(s) <= 320 && NearSquare(s) && (s.batch == 1 || (Hi(s) <= 256 && s.batch < 8))
  }

  predicate DeepSquare(s: SplitK.Shape) {
    && s.batch == 1 && s.k >= 256
    && (|| (192 <= Lo(s) <= 480 && NearSquare(s))
        || (Lo(s) <= 128 && Hi(s) >= 512)
        || (Lo(s) <= 256 && Hi(s) == 2 * Lo(s)))
  }

  predicate DeepWide(s: SplitK.Shape) {
    && s.batch == 1
    && (|| (512 <= Lo(s) < 2048 && Hi(s) <= 5 * Lo(s) && s.k >= 256)
        || (1024 <= Lo(s) < 2048 && Hi(s) >= 4096 && s.k >= 512)
        || (Lo(s) >= 2048 && 128 <= s.k <= 1024))
  }

  predicate Shallow(s: SplitK.Shape) { s.batch == 1 && Lo(s) >= 2048 && s.k < 128 }

  /** Saturation never shows: no side comes near a fifth of u32 where it could matter. */
  lemma SaturationHidden(s: SplitK.Shape)
    ensures Hi(s) <= 480 || Lo(s) <= 480 ==> (Hi(s) <= SatMul32(Lo(s), 5) / 4 <==> NearSquare(s))
    ensures Hi(s) <= SatMul32(Lo(s), 5) <==> Hi(s) <= 5 * Lo(s)
    ensures Lo(s) <= 256 ==> SatMul32(Lo(s), 2) == 2 * Lo(s)
  {}

  lemma SidesAre(s: SplitK.Shape)
    ensures Min(s.m, s.n) == Lo(s) && Max(s.m, s.n) == Hi(s) && Lo(s) <= Hi(s)
    ensures s.m >= 2048 && s.n >= 2048 <==> Lo(s) >= 2048
    ensures s.m == s.n <==> Lo(s) == Hi(s)
  {}

  /** The tile of every shape. The regions do not overlap but for the first, the rule for
      exact squares of 512 and 1024 adds nothing, and at K = 128 the wide rule leaves nothing
      to the shallow one. */
  lemma TileOfRegion(d: Device, s: SplitK.Shape)
    ensures AutoSelectKernel(d, s)
            == if Narrow(s) then M64N32
               else if DeepSquare(s) then K64
               else if DeepWide(s) then M128N64K64
               else if Shallow(s) then M128N64
               else if AutoSelectsSmall(d, s) then Small
               else Large
    ensures !(DeepSquare(s) && DeepWide(s)) && !(DeepSquare(s) && Shallow(s)) && !(DeepWide(s) && Shallow(s))
  {
    SaturationHidden(s);
    SidesAre(s);
  }

  lemma TileSize(d: Device, s: SplitK.Shape)
    ensures TileOf(AutoSelectKernel(d, s))
            == if Narrow(s) then Tile(64, 32, 32)
               else if DeepSquare(s) then Tile(64, 64, 64)
               else if DeepWide(s) then Tile(128, 64, 64)
               else if Shallow(s) then Tile(128, 64, 32)
               else if AutoSelectsSmall(d, s) then Tile(64, 64, 32)
               else Tile(128, 128, 32)
  {
    TileOfRegion(d, s);
  }

  // ---- Large or small ----------------------------------------------------

  lemma PaddedBound(x: nat, y: nat, t: nat)
    requires x > 0 && y > 0 && Times(x, y) <= 0x1_0000_0000 && 0 < t <= 128
    ensures Times(DivCeil(x, t), DivCeil(y, t)) <= Times(x, y)
  {
    CeilBelow(x, t);
    CeilBelow(y, t);
    MulMono(DivCeil(x, t), x, DivCeil(y, t));
    MulMono(DivCeil(y, t), y, x);
  }

  lemma CeilBelow(x: nat, t: nat)
    requires x > 0 && t > 0
    ensures DivCeil(x, t) <= x
  {
    var q := DivCeil(x, t);
    assert q * t <= x + t - 1;
    if q > x {
      MulMono(x + 1, q, t);
      assert (x + 1) * t == x * t + t;
      MulMono(1, t, x);
    }
  }

  /** What a tile grid of a shape costs, free of saturation. */
  function Grid(s: SplitK.Shape, t: nat): nat
    requires t > 0
  {
    Times(DivCeil(s.m, t), DivCeil(s.n, t))
  }

  lemma SaturatedProduct(x: nat, t: nat, y: nat, u: nat)
    requires Times(x, y) <= 0x1_0000_0000 && t <= 128 && u <= 128
    ensures SplitK.SaturatingMul(SplitK.SaturatingMul(x * t, y), u) == Times(x, y) * t * u <= 0x1_0000_0000 * 16384
  {
    assert x * t * y == Times(x, y) * t by { assert x * t * y == x * y * t; }
    MulMono(Times(x, y), 0x1_0000_0000, t);
    MulMono(t, 128, 0x1_0000_0000);
    MulMono(Times(x, y) * t, 0x1_0000_0000 * 128, u);
    MulMono(u, 128, 0x1_0000_0000 * 128);
  }

  lemma PaddingIff(s: SplitK.Shape)
    requires s.m > 0 && s.n > 0 && Times(s.m, s.n) <= 0x1_0000_0000
    ensures var lm, ln, sm, sn := DivCeil(s.m, 128), DivCeil(s.n, 128), DivCeil(s.m, 64), DivCeil(s.n, 64);
            var large := SplitK.SaturatingMul(SplitK.SaturatingMul(lm * 128, ln), 128);
            var small := SplitK.SaturatingMul(SplitK.SaturatingMul(sm * 64, sn), 64);
            large > DivCeil(SplitK.SaturatingMul(small, 5), 4) <==> 16 * Grid(s, 128) > 5 * Grid(s, 64)
  {
    var lm, ln, sm, sn := DivCeil(s.m, 128), DivCeil(s.n, 128), DivCeil(s.m, 64), DivCeil(s.n, 64);
    PaddedBound(s.m, s.n, 128);
    PaddedBound(s.m, s.n, 64);
    SaturatedProduct(lm, 128, ln, 128);
    SaturatedProduct(sm, 64, sn, 64);
    FiveQuarters(Grid(s, 128), Grid(s, 64));
  }

  lemma FiveQuarters(large: nat, small: nat)
    requires small <= 0x1_0000_0000
    ensures large * 128 * 128 > DivCeil(SplitK.SaturatingMul(small * 64 * 64, 5), 4) <==> 16 * large > 5 * small
  {
    assert small * 64 * 64 * 5 == 4 * (5120 * small);
    DivModOf(5120 * small, 3, 4);
  }

  lemma BatchTiles(s: SplitK.Shape)
    requires Accepted(s)
    ensures SplitK.SaturatingMul(SplitK.SaturatingMul(s.batch, DivCeil(s.m, 128)), DivCeil(s.n, 128))
            == Times(s.batch, Grid(s, 128))
  {
    var lm, ln := DivCeil(s.m, 128), DivCeil(s.n, 128);
    MulMono(1, s.batch, Times(s.m, s.n));
    PaddedBound(s.m, s.n, 128);
    MulMono(Grid(s, 128), Times(s.m, s.n), s.batch);
    BatchFirst(s.batch, lm, ln);
    SplitK.CeilCovers(s.n, 128);
    MulMono(1, ln, s.batch * lm);
  }

  /** The 64-tile is preferred exactly when K is short, when 128-tiles pad a quarter more, or
      when they are too few to fill the device; a batch counts half on the largest devices. */
  lemma SmallIff(d: Device, s: SplitK.Shape)
    requires Accepted(s)
    ensures AutoSelectsSmall(d, s) <==>
            || s.k < 128
            || 16 * Grid(s, 128) > 5 * Grid(s, 64)
            || Times(s.batch, Grid(s, 128))
               < if d.minLargeTiles == 256 && s.batch > 1 && s.k >= 256 then 128 else d.minLargeTiles
  {
    MulMono(1, s.batch, Times(s.m, s.n));
    PaddingIff(s);
    BatchTiles(s);
  }

  lemma BatchFirst(b: nat, x: nat, y: nat)
    ensures b * x * y == Times(b, Times(x, y))
  {}

  // ---- Tensor-core tiles -------------------------------------------------

  /** The tensor-core tile of every 64-aligned shape. The rule that would pick the 64x128
      tile for a tall product at M = 512 never fires, because no N that it asks for is a
      positive multiple of 128. */
  lemma CoopmatTileOf(batch: nat, m: nat, n: nat)
    requires m > 0 && n > 0 && m % 64 == 0 && n % 64 == 0 && Times(batch, Times(m / 128, n / 128)) < U64_SIZE
    ensures PickCoopmatTile(batch, m, n)
            == Some(if m < 512 then T64
                    else if m == 512 then (if n > 2048 then T128x64 else T64)
                    else if m % 128 == 0 && n % 128 == 0 then
                      (if Times(batch, Times(m / 128, n / 128)) >= 96 then T128 else T64)
                    else if m % 128 == 0 then T128x64
                    else if n % 128 == 0 then T64x128
                    else T64)
  {
    BatchFirst(batch, m / 128, n / 128);
    if m > 512 && m % 128 == 0 && n % 128 == 0 { MulMono(1, n / 128, batch * (m / 128)); }
  }

  /** Wave-fill tiles demote to the 128-tile of their family, which demotes no further. */
  lemma CoopmatFamily(tile: CoopmatTile, a16: bool)
    ensures Fallback(CoopmatKernel(tile, a16)) == if tile.T128? then None else Some(CoopmatKernel(T128, a16))
    ensures A16(CoopmatKernel(tile, a16)) == a16
    ensures TileOf(CoopmatKernel(tile, a16)) == match tile
                                                case T128 => Tile(128, 128, 32)
                                                case T64 => Tile(64, 64, 32)
                                                case T64x128 => Tile(64, 128, 32)
                                                case T128x64 => Tile(128, 64, 32)
  {}

  // ---- What the tuner may measure ----------------------------------------

  /** Shapes whose sides the 128x128 tensor-core kernels divide. */
  predicate TensorAligned(s: SplitK.Shape) { s.m % 128 == 0 && s.n % 128 == 0 && s.k % 32 == 0 }

  /** The candidates for a shape, kernel by kernel: with device addresses and a filled slot,
      the two 128-aligned tensor-core kernels on aligned shapes with f16 weights, the row,
      column and outer kernels on their shapes, and every edge-checked tile of the storage
      class. Wave-fill, packed, f16-activation, strictly aligned and descriptor kernels are
      never measured. */
  lemma CandidatesAre(d: Device, s: SplitK.Shape, bF16: bool, k: Kernel)
    ensures TuneCandidate(d, s, bF16, k) <==>
            && d.bda && Present(d, k) && WeightsF16(k) == bF16
            && !UsesDescriptors(k) && !Packed(k) && !A16(k)
            && !k.LargeBdaV4Aligned? && !k.M128N64K64BdaV4Aligned?
            && !k.F16wCoopmatM64? && !k.F16wCoopmatM64N128? && !k.F16wCoopmatM128N64?
            && (k.F16wCoopmat? || k.F16wCm2? ==> TensorAligned(s))
            && (RowKernel(k) ==> s.m == 1) && (k.ColBda? ==> s.n == 1) && (k.OuterBda? ==> s.k == 1)
  {}

  /** So the heuristic pick of an op without f16 activations is one, unless it is a wave-fill
      tile: the tuner always measures what it might replace. */
  lemma HeuristicIsCandidate(d: Device, s: SplitK.Shape, bF16: bool, k: Kernel)
    requires RealDevice(d) && d.bda && KernelAt(d, Heuristic(d, s, bF16)) == Some(k)
    requires !k.F16wCoopmatM64? && !k.F16wCoopmatM64N128? && !k.F16wCoopmatM128N64?
    ensures TuneCandidate(d, s, bF16, k)
  {
    HeuristicAgrees(d, s, bF16);
    HeuristicKind(d, s, bF16);
  }
}
