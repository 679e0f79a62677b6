/** Strided copies: the descriptor, the elements it addresses, and the bounds check
    done before one is recorded. */
module Strided {
  import opened Prelude
  import opened Arith

  datatype Vec3 = Vec3(x: nat, y: nat, z: nat)

  datatype CopyDesc = CopyDesc(extent: Vec3, srcOffset: nat, srcStrides: Vec3, dstOffset: nat, dstStrides: Vec3)

  predicate InU32(v: Vec3) { v.x < U32_SIZE && v.y < U32_SIZE && v.z < U32_SIZE }

  /** The fields of a descriptor are u32 in the host code. */
  predicate IsU32(d: CopyDesc) {
    && InU32(d.extent) && InU32(d.srcStrides) && InU32(d.dstStrides)
    && d.srcOffset < U32_SIZE && d.dstOffset < U32_SIZE
  }

  datatype CopyPlan =
    | Planned(total: nat)
    | SameTensor
    | ZeroAxis
    | SourceOut
    | DestinationOut
    | TooManyElements

  predicate NoZeroAxis(e: Vec3) { e.x > 0 && e.y > 0 && e.z > 0 }

  predicate InExtent(e: Vec3, x: nat, y: nat, z: nat) { x < e.x && y < e.y && z < e.z }

  function Count(e: Vec3): nat { e.x * e.y * e.z }

  function Address(offset: nat, s: Vec3, x: nat, y: nat, z: nat): nat {
    Sum(offset, Times(x, s.x), Times(y, s.y), Times(z, s.z))
  }

  /** The copy of columns [first, first + width) out of a [t, n] matrix. */
  function SplitCopy(first: nat, width: nat, t: nat, n: nat): CopyDesc {
    CopyDesc(Vec3(width, t, 1), first, Vec3(1, n, 0), 0, Vec3(1, width, 0))
  }

  /** The u64 results of a release build, which wrap. */
  function Wrap64(x: int): nat { x % U64_SIZE }

  function WrappedSum(o: nat, p: nat, q: nat, r: nat): nat {
    Wrap64(o + Wrap64(Wrap64(p + q) + r))
  }

  function Sum(o: nat, p: nat, q: nat, r: nat): nat { o + (p + q + r) }

  function MaxIndex(e: Vec3, offset: nat, s: Vec3): nat
    requires NoZeroAxis(e)
  {
    WrappedSum(offset, Times(e.x - 1, s.x), Times(e.y - 1, s.y), Times(e.z - 1, s.z))
  }

  function PlanCopy(desc: CopyDesc, sameTensor: bool, srcLen: nat, dstLen: nat): CopyPlan {
    var product := Wrap64(Wrap64(desc.extent.x * desc.extent.y) * desc.extent.z);
    if sameTensor then SameTensor
    else if !NoZeroAxis(desc.extent) then ZeroAxis
    else if MaxIndex(desc.extent, desc.srcOffset, desc.srcStrides) >= srcLen then SourceOut
    else if MaxIndex(desc.extent, desc.dstOffset, desc.dstStrides) >= dstLen then DestinationOut
    else if product >= U32_SIZE then TooManyElements
    else Planned(product)
  }

  /** Every access of one side of the copy is inside a tensor of `len` elements. */
  ghost predicate SideInBounds(e: Vec3, offset: nat, s: Vec3, len: nat) {
    forall x: nat, y: nat, z: nat :: InExtent(e, x, y, z) ==> Address(offset, s, x, y, z) < len
  }

  /** A box of positive sides has more cells than its sides have steps. */
  lemma StepsBelowCells(a: nat, b: nat, c: nat)
    requires a > 0 && b > 0 && c > 0
    ensures (a - 1) + (b - 1) + (c - 1) < a * b * c
  {
    TwoSteps(a, b);
    TwoSteps(a * b, c);
  }

  lemma TwoSteps(a: nat, b: nat)
    requires a > 0 && b > 0
    ensures a + b - 1 <= a * b
    ensures a * b > 0
  {
    MulMono(1, b, a - 1);
    assert a * b == (a - 1) * b + b by { Distrib(a - 1, 1, b); }
  }

  /** (2^32 - 2) * (2^32 - 1). */
  const TOP_STEPS: nat := 0xFFFF_FFFD_0000_0002

  lemma StepsBound(e: Vec3, s: Vec3)
    requires InU32(s) && NoZeroAxis(e) && Count(e) < U32_SIZE
    ensures Times(e.x - 1, s.x) + Times(e.y - 1, s.y) + Times(e.z - 1, s.z) <= TOP_STEPS
  {
    var top := U32_SIZE - 1;
    var a, b, c := e.x - 1, e.y - 1, e.z - 1;
    StepsBelowCells(e.x, e.y, e.z);
    MulMono(s.x, top, a);
    MulMono(s.y, top, b);
    MulMono(s.z, top, c);
    Distrib(a, b, top);
    Distrib(a + b, c, top);
    MulMono(a + b + c, U32_SIZE - 2, top);
  }

  lemma WrapsNowhere(o: nat, p: nat, q: nat, r: nat)
    requires o + p + q + r < U64_SIZE
    ensures WrappedSum(o, p, q, r) == Sum(o, p, q, r)
  {}

  /** When the extents multiply to less than 2^32 no u64 operation of the bound
      computation wraps. */
  lemma MaxIndexExact(e: Vec3, offset: nat, s: Vec3)
    requires offset < U32_SIZE && InU32(s) && NoZeroAxis(e) && Count(e) < U32_SIZE
    ensures MaxIndex(e, offset, s) == Address(offset, s, e.x - 1, e.y - 1, e.z - 1)
  {
    StepsBound(e, s);
    var p, q, r := Times(e.x - 1, s.x), Times(e.y - 1, s.y), Times(e.z - 1, s.z);
    WrapsNowhere(offset, p, q, r);
  }

  lemma CornerIsLargest(e: Vec3, offset: nat, s: Vec3, x: nat, y: nat, z: nat)
    requires InExtent(e, x, y, z)
    ensures Address(offset, s, x, y, z) <= Address(offset, s, e.x - 1, e.y - 1, e.z - 1)
  {
    MulMono(x, e.x - 1, s.x);
    MulMono(y, e.y - 1, s.y);
    MulMono(z, e.z - 1, s.z);
  }

  lemma SideIff(e: Vec3, offset: nat, s: Vec3, len: nat)
    requires offset < U32_SIZE && InU32(s) && NoZeroAxis(e) && Count(e) < U32_SIZE
    ensures MaxIndex(e, offset, s) < len <==> SideInBounds(e, offset, s, len)
  {
    MaxIndexExact(e, offset, s);
    if MaxIndex(e, offset, s) < len {
      forall x: nat, y: nat, z: nat | InExtent(e, x, y, z) ensures Address(offset, s, x, y, z) < len {
        CornerIsLargest(e, offset, s, x, y, z);
      }
    } else {
      assert InExtent(e, e.x - 1, e.y - 1, e.z - 1);
    }
  }

  lemma CountUnwrapped(e: Vec3)
    requires NoZeroAxis(e)
    ensures Count(e) < U64_SIZE ==> Wrap64(Wrap64(e.x * e.y) * e.z) == Count(e)
  {
    MulMono(1, e.z, e.x * e.y);
  }

  /** The furthest element one side of a copy addresses. */
  function Corner(e: Vec3, offset: nat, s: Vec3): nat
    requires NoZeroAxis(e)
  {
    Address(offset, s, e.x - 1, e.y - 1, e.z - 1)
  }

  lemma SumWraps(o: nat, p: nat, q: nat, r: nat)
    ensures WrappedSum(o, p, q, r) == Wrap64(Sum(o, p, q, r))
  {}

  lemma MaxIndexWraps(e: Vec3, offset: nat, s: Vec3)
    requires NoZeroAxis(e)
    ensures MaxIndex(e, offset, s) == Wrap64(Corner(e, offset, s))
  {
    SumWraps(offset, Times(e.x - 1, s.x), Times(e.y - 1, s.y), Times(e.z - 1, s.z));
  }

  /** A copy of any size is planned exactly when no axis is empty, the tensors differ, and
      the element count and the furthest element of each side pass their checks modulo 2^64.
      Below 2^64 elements that means exactly: fewer than 2^32 elements and every access of
      both sides in bounds. */
  lemma CopyAcceptedIff(desc: CopyDesc, sameTensor: bool, srcLen: nat, dstLen: nat)
    requires IsU32(desc)
    ensures PlanCopy(desc, sameTensor, srcLen, dstLen).Planned?
            <==> && !sameTensor && NoZeroAxis(desc.extent) && Wrap64(Count(desc.extent)) < U32_SIZE
                 && Wrap64(Corner(desc.extent, desc.srcOffset, desc.srcStrides)) < srcLen
                 && Wrap64(Corner(desc.extent, desc.dstOffset, desc.dstStrides)) < dstLen
    ensures PlanCopy(desc, sameTensor, srcLen, dstLen).Planned?
            ==> PlanCopy(desc, sameTensor, srcLen, dstLen).total == Wrap64(Count(desc.extent))
    ensures Count(desc.extent) < U64_SIZE ==>
              (PlanCopy(desc, sameTensor, srcLen, dstLen).Planned?
               <==> && !sameTensor && NoZeroAxis(desc.extent) && Count(desc.extent) < U32_SIZE
                    && SideInBounds(desc.extent, desc.srcOffset, desc.srcStrides, srcLen)
                    && SideInBounds(desc.extent, desc.dstOffset, desc.dstStrides, dstLen))
  {
    var e := desc.extent;
    PlannedIff(desc, sameTensor, srcLen, dstLen);
    if NoZeroAxis(e) && Count(e) < U64_SIZE {
      WrapsNot(Count(e));
      if Count(e) < U32_SIZE {
        MaxIndexWraps(e, desc.srcOffset, desc.srcStrides);
        MaxIndexWraps(e, desc.dstOffset, desc.dstStrides);
        SideIff(e, desc.srcOffset, desc.srcStrides, srcLen);
        SideIff(e, desc.dstOffset, desc.dstStrides, dstLen);
      }
    }
  }

  lemma WrapsNot(x: nat)
    requires x < U64_SIZE
    ensures Wrap64(x) == x
  {}

  lemma PlannedIff(desc: CopyDesc, sameTensor: bool, srcLen: nat, dstLen: nat)
    requires IsU32(desc)
    ensures PlanCopy(desc, sameTensor, srcLen, dstLen).Planned?
            <==> && !sameTensor && NoZeroAxis(desc.extent) && Wrap64(Count(desc.extent)) < U32_SIZE
                 && Wrap64(Corner(desc.extent, desc.srcOffset, desc.srcStrides)) < srcLen
                 && Wrap64(Corner(desc.extent, desc.dstOffset, desc.dstStrides)) < dstLen
    ensures PlanCopy(desc, sameTensor, srcLen, dstLen).Planned?
            ==> PlanCopy(desc, sameTensor, srcLen, dstLen).total == Wrap64(Count(desc.extent))
  {
    var e := desc.extent;
    ProductWraps(e);
    if NoZeroAxis(e) {
      MaxIndexWraps(e, desc.srcOffset, desc.srcStrides);
      MaxIndexWraps(e, desc.dstOffset, desc.dstStrides);
    }
  }

  lemma ProductWraps(e: Vec3)
    requires InU32(e)
    ensures Wrap64(Wrap64(e.x * e.y) * e.z) == Wrap64(Count(e))
  {
    assert e.x * e.y < U64_SIZE by {
      MulMono(e.x, U32_SIZE - 1, e.y);
      MulMono(e.y, U32_SIZE - 1, U32_SIZE - 1);
    }
    WrapSmall(e.x * e.y, e.z);
  }

  lemma WrapSmall(a: nat, c: nat)
    requires a < U64_SIZE
    ensures Wrap64(Wrap64(a) * c) == Wrap64(a * c)
  {
    assert Wrap64(a) == a;
  }

  /** One side of any accepted copy, whatever its size, stays in bounds exactly when its
      furthest element does not wrap. */
  lemma SideStaysIff(e: Vec3, offset: nat, s: Vec3, len: nat)
    requires NoZeroAxis(e) && Wrap64(Corner(e, offset, s)) < len <= U64_SIZE
    ensures SideInBounds(e, offset, s, len) <==> Corner(e, offset, s) < U64_SIZE
  {
    if Corner(e, offset, s) < U64_SIZE {
      forall x: nat, y: nat, z: nat | InExtent(e, x, y, z) ensures Address(offset, s, x, y, z) < len {
        CornerIsLargest(e, offset, s, x, y, z);
      }
    } else {
      assert InExtent(e, e.x - 1, e.y - 1, e.z - 1);
    }
  }

  /** Which accepted copies address only elements of their tensors: those whose bound
      computation does not wrap on either side. */
  lemma CopyInBoundsIff(desc: CopyDesc, sameTensor: bool, srcLen: nat, dstLen: nat)
    requires IsU32(desc) && srcLen < U64_SIZE && dstLen < U64_SIZE
    requires PlanCopy(desc, sameTensor, srcLen, dstLen).Planned?
    ensures SideInBounds(desc.extent, desc.srcOffset, desc.srcStrides, srcLen)
            && SideInBounds(desc.extent, desc.dstOffset, desc.dstStrides, dstLen)
            <==> Corner(desc.extent, desc.srcOffset, desc.srcStrides) < U64_SIZE
                 && Corner(desc.extent, desc.dstOffset, desc.dstStrides) < U64_SIZE
  {
    CopyAcceptedIff(desc, sameTensor, srcLen, dstLen);
    SideStaysIff(desc.extent, desc.srcOffset, desc.srcStrides, srcLen);
    SideStaysIff(desc.extent, desc.dstOffset, desc.dstStrides, dstLen);
  }

  /** The dispatch covers every element exactly when the extent product does not
      wrap in u64. */
  lemma CopyTotalIff(desc: CopyDesc, sameTensor: bool, srcLen: nat, dstLen: nat)
    requires PlanCopy(desc, sameTensor, srcLen, dstLen).Planned?
    ensures PlanCopy(desc, sameTensor, srcLen, dstLen).total == Count(desc.extent) <==> Count(desc.extent) < U64_SIZE
  {
    CountUnwrapped(desc.extent);
  }

  /** In a release build an extent of 2^31 x 2^31 x 4 elements with zero strides is
      accepted as an empty dispatch. */
  lemma WrappedCountAccepted()
    ensures var desc := CopyDesc(Vec3(0x8000_0000, 0x8000_0000, 4), 0, Vec3(0, 0, 0), 0, Vec3(0, 0, 0));
            PlanCopy(desc, false, 1, 1) == Planned(0)
  {}

  /** With strides of 2^32 - 1 and offset 1 its furthest source element is 2^64, which the
      bound computation takes for element 0. */
  lemma WrappedBoundAccepted()
    ensures var m := U32_SIZE - 1;
            var desc := CopyDesc(Vec3(0x8000_0000, 0x8000_0000, 4), 1, Vec3(m, m, m), 0, Vec3(0, 0, 0));
            PlanCopy(desc, false, 1, 1) == Planned(0)
            && !SideInBounds(desc.extent, desc.srcOffset, desc.srcStrides, 1)
  {
    var m := U32_SIZE - 1;
    var e := Vec3(0x8000_0000, 0x8000_0000, 4);
    assert Corner(e, 1, Vec3(m, m, m)) == U64_SIZE;
    assert InExtent(e, e.x - 1, e.y - 1, e.z - 1);
  }
}
