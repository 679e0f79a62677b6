/** The kernel registry as data: tile sizes and the properties the host reads off
    a kernel's name. */
module Catalog {

  datatype Kernel =
    | Large | Small | M64N128 | M128N64 | M128N64K64 | M64N32 | K64 | Bk16 | V2
    | M64N128K64 | M128N128T4 | M256N64 | V3
    | LargeBda | M128N64K64Bda | K64Bda | SmallBda | M64N32Bda | M128N64Bda | M64N128Bda
    | LargeBdaV4 | M128N64K64BdaV4 | SmallBdaV4 | K64BdaV4 | M128N64BdaV4 | M64N128BdaV4 | Bk16BdaV4
    | M128N64K64BdaV4Tm8Tn8 | M128N64K64BdaV4Tm16Tn4 | K64BdaV4Tm8Tn4 | K64BdaV4Tm4Tn8 | K64BdaV4Tm8Tn8
    | LargeBdaV4Aligned | M128N64K64BdaV4Aligned
    | RowBda | ColBda | OuterBda
    | F16wLargeBdaV4 | F16wSmallBdaV4 | F16wK64BdaV4 | F16wM128N64K64BdaV4
    | F16wRowBda | F16wRowBdaK16 | F16wRowBdaK16V2 | F16wRowBdaK16Packed | F16wRowBdaK16V2Packed
    | F16wCoopmat | F16wA16Coopmat | F16wCoopmatM64 | F16wA16CoopmatM64
    | F16wCoopmatM64N128 | F16wA16CoopmatM64N128 | F16wCoopmatM128N64 | F16wA16CoopmatM128N64
    | F16wCm2

  datatype Tile = Tile(m: nat, n: nat, k: nat)

  function TileOf(k: Kernel): (t: Tile)
    ensures t.m > 0 && t.n > 0 && t.k > 0
  {
    match k
    case Large | M128N128T4 | LargeBda | LargeBdaV4 | LargeBdaV4Aligned | F16wLargeBdaV4
      | F16wCoopmat | F16wA16Coopmat => Tile(128, 128, 32)
    case Small | SmallBda | SmallBdaV4 | F16wSmallBdaV4 | F16wCoopmatM64 | F16wA16CoopmatM64 => Tile(64, 64, 32)
    case M64N128 | M64N128Bda | M64N128BdaV4 | F16wCoopmatM64N128 | F16wA16CoopmatM64N128 => Tile(64, 128, 32)
    case M128N64 | M128N64Bda | M128N64BdaV4 | F16wCoopmatM128N64 | F16wA16CoopmatM128N64 => Tile(128, 64, 32)
    case M128N64K64 | M128N64K64Bda | M128N64K64BdaV4 | M128N64K64BdaV4Tm8Tn8 | M128N64K64BdaV4Tm16Tn4
      | M128N64K64BdaV4Aligned | F16wM128N64K64BdaV4 | F16wCm2 => Tile(128, 64, 64)
    case M64N32 | M64N32Bda => Tile(64, 32, 32)
    case K64 | K64Bda | K64BdaV4 | K64BdaV4Tm8Tn4 | K64BdaV4Tm4Tn8 | K64BdaV4Tm8Tn8 | F16wK64BdaV4 => Tile(64, 64, 64)
    case Bk16 | Bk16BdaV4 => Tile(128, 128, 16)
    case V2 | V3 => Tile(128, 128, 8)
    case M64N128K64 => Tile(64, 128, 64)
    case M256N64 => Tile(256, 64, 32)
    case RowBda | F16wRowBda | F16wRowBdaK16 | F16wRowBdaK16Packed => Tile(1, 32, 1)
    case F16wRowBdaK16V2 | F16wRowBdaK16V2Packed => Tile(1, 64, 1)
    case ColBda => Tile(2, 1, 1)
    case OuterBda => Tile(16, 128, 1)
  }

  /** Binds A/B/C to descriptor sets; every other kernel uses addresses. */
  predicate UsesDescriptors(k: Kernel) {
    || k.Large? || k.Small? || k.M64N128? || k.M128N64? || k.M128N64K64? || k.M64N32? || k.K64? || k.Bk16?
    || k.V2? || k.M64N128K64? || k.M128N128T4? || k.M256N64? || k.V3?
  }

  /** The name ends with "_aligned". */
  predicate AlignedSuffix(k: Kernel) {
    k.LargeBdaV4Aligned? || k.M128N64K64BdaV4Aligned? || k.F16wCoopmat? || k.F16wA16Coopmat?
  }

  /** The name contains "_a16_". */
  predicate A16(k: Kernel) {
    k.F16wA16Coopmat? || k.F16wA16CoopmatM64? || k.F16wA16CoopmatM64N128? || k.F16wA16CoopmatM128N64?
  }

  /** The name contains "coopmat". */
  predicate Coopmat(k: Kernel) {
    A16(k) || k.F16wCoopmat? || k.F16wCoopmatM64? || k.F16wCoopmatM64N128? || k.F16wCoopmatM128N64?
  }

  predicate Cm2(k: Kernel) { k.F16wCm2? }

  predicate Packed(k: Kernel) { k.F16wRowBdaK16Packed? || k.F16wRowBdaK16V2Packed? }

  /** The name contains "row_bda". */
  predicate RowKernel(k: Kernel) {
    k.RowBda? || k.F16wRowBda? || k.F16wRowBdaK16? || k.F16wRowBdaK16V2? || Packed(k)
  }

  /** The name starts with "f16w_". */
  predicate WeightsF16(k: Kernel) {
    || Coopmat(k) || Cm2(k) || (RowKernel(k) && !k.RowBda?)
    || k.F16wLargeBdaV4? || k.F16wSmallBdaV4? || k.F16wK64BdaV4? || k.F16wM128N64K64BdaV4?
  }

  predicate SupportsEpilogue(k: Kernel) { !UsesDescriptors(k) && !AlignedSuffix(k) && !Coopmat(k) }
  predicate SupportsNormedA(k: Kernel) { RowKernel(k) }
  predicate SupportsStore(k: Kernel) { WeightsF16(k) && RowKernel(k) }

  /** The M/N/K multiples a kernel without an edge path demands. */
  predicate AlignmentOk(kernel: Kernel, m: nat, n: nat, k: nat) {
    AlignedSuffix(kernel) || Coopmat(kernel) || kernel.V3? ==>
      var t := TileOf(kernel);
      m % t.m == 0 && n % t.n == 0 && k % (if kernel.V3? then 2 * t.k else t.k) == 0
  }
}
