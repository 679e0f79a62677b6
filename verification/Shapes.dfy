/** Matmul shape resolution: broadcasting, the u32 address bounds that the shaders rely
    on, and the FLOP count. */
module Shapes {
  import opened Prelude
  import opened Arith
  import SplitK

  type u32 = SplitK.u32

  datatype MatrixShape = MatrixShape(batch: u32, rows: u32, cols: u32)

  function FromTensorShape(shape: seq<u32>): Option<MatrixShape> {
    if |shape| != 2 && |shape| != 3 then None
    else
      var s := if |shape| == 2 then MatrixShape(1, shape[0], shape[1]) else MatrixShape(shape[0], shape[1], shape[2]);
      if s.batch == 0 || s.rows == 0 || s.cols == 0 then None else Some(s)
  }

  /** Every shape that FromTensorShape yields. */
  predicate NonZero(s: MatrixShape) { s.batch > 0 && s.rows > 0 && s.cols > 0 }

  function Plane(s: MatrixShape): nat { s.rows * s.cols }
  function Elements(s: MatrixShape): nat { s.batch * Plane(s) }

  /** Only nonzero rank-2 and rank-3 shapes resolve, to as many elements as the tensor has. */
  lemma TensorShapeElements(shape: seq<u32>)
    ensures FromTensorShape(shape).Some?
            <==> (|shape| == 2 || |shape| == 3) && forall i :: 0 <= i < |shape| ==> shape[i] > 0
    ensures FromTensorShape(shape).Some? ==>
              NonZero(FromTensorShape(shape).value) && Elements(FromTensorShape(shape).value) == Product(shape, |shape|)
  {
    if FromTensorShape(shape).Some? {
      var s := FromTensorShape(shape).value;
      assert Product(shape, 0) == 1;
      assert Product(shape, 1) == shape[0];
      assert Product(shape, 2) == Times(shape[0], shape[1]);
      Assoc(s.batch, s.rows, s.cols);
    }
  }

  /** Rows and columns are the last two axes and the batch the first of three, so offsets into
      the resolved shape are the row-major ones of the tensor. */
  lemma TensorShapeAxes(shape: seq<u32>)
    requires FromTensorShape(shape).Some?
    ensures var s := FromTensorShape(shape).value;
            && s.cols == shape[|shape| - 1] && s.rows == shape[|shape| - 2]
            && s.batch == if |shape| == 3 then shape[0] else 1
  {}

  // ---- Checked u64 products ----------------------------------------------

  function CheckedMul(a: nat, b: nat): Option<nat> {
    if a * b < U64_SIZE then Some(a * b) else None
  }

  /** The left fold of checked_mul over the first `n` values. */
  function CheckedProduct(values: seq<nat>, n: nat): Option<nat>
    requires n <= |values|
  {
    if n == 0 then Some(1)
    else
      match CheckedProduct(values, n - 1)
      case None => None
      case Some(acc) => CheckedMul(acc, values[n - 1])
  }

  function Product(values: seq<nat>, n: nat): nat
    requires n <= |values|
  {
    if n == 0 then 1 else Product(values, n - 1) * values[n - 1]
  }

  /** Without a zero factor no prefix exceeds the whole product, so the fold
      fails exactly when the product does not fit. */
  lemma {:induction false} CheckedProductIff(values: seq<nat>, n: nat)
    requires n <= |values| && forall i :: 0 <= i < n ==> values[i] > 0
    ensures CheckedProduct(values, n) == if Product(values, n) < U64_SIZE then Some(Product(values, n)) else None
    ensures Product(values, n) > 0
  {
    if n > 0 {
      CheckedProductIff(values, n - 1);
      MulMono(1, values[n - 1], Product(values, n - 1));
    }
  }

  // ---- Shape resolution --------------------------------------------------

  function BatchStride(s: MatrixShape): Option<u32> {
    match CheckedMul(s.rows, s.cols)
    case None => None
    case Some(plane) =>
      if s.batch != 1 && plane >= U32_SIZE then None
      else
        match CheckedMul(s.batch, plane)
        case None => None
        case Some(elements) =>
          if elements <= U32_SIZE then Some(if s.batch == 1 then 0 else plane) else None
  }

  datatype Resolved = Resolved(
    m: u32, n: u32, k: u32, batch: u32,
    strideA: u32, strideB: u32, strideC: u32, flops: nat)

  function FromMatrixShapes(a: MatrixShape, b: MatrixShape, c: MatrixShape): Option<Resolved> {
    if a.cols != b.rows || a.rows != c.rows || b.cols != c.cols then None
    else if (a.batch != 1 && a.batch != c.batch) || (b.batch != 1 && b.batch != c.batch) then None
    else
      var sa, sb, sc := BatchStride(a), BatchStride(b), BatchStride(c);
      var flops := CheckedProduct([2, c.batch, a.rows, b.cols, a.cols], 5);
      if sa.None? || sb.None? || sc.None? || flops.None? then None
      else Some(Resolved(a.rows, b.cols, a.cols, c.batch, sa.value, sb.value, sc.value, flops.value))
  }

  /** Where the shaders find element (row, col) of plane `b`. */
  function Offset(stride: nat, cols: nat, b: nat, row: nat, col: nat): nat {
    Idx(b, stride, Idx(row, cols, col))
  }

  lemma PlaneFitsU64(s: MatrixShape)
    ensures Plane(s) < U64_SIZE
  {
    MulMono(s.rows, U32_SIZE - 1, s.cols);
    MulMono(s.cols, U32_SIZE - 1, U32_SIZE - 1);
  }

  /** A layout is accepted exactly when it has at most 2^32 elements: neither the
      stride check nor the u64 arithmetic ever rejects more. */
  lemma BatchStrideIff(s: MatrixShape)
    requires NonZero(s)
    ensures BatchStride(s).Some? <==> Elements(s) <= U32_SIZE
    ensures BatchStride(s).Some? ==> BatchStride(s).value == if s.batch == 1 then 0 else Plane(s)
  {
    PlaneFitsU64(s);
    if s.batch > 1 { MulMono(2, s.batch, Plane(s)); }
  }

  lemma PlaneIndex(s: MatrixShape, row: nat, col: nat)
    requires row < s.rows && col < s.cols
    ensures Idx(row, s.cols, col) < Plane(s)
  {
    GroupFits(row, s.rows, s.cols);
  }

  /** Each operand access of an accepted shape stays inside its tensor and in u32. */
  lemma OperandInBounds(s: MatrixShape, outBatch: u32, b: nat, row: nat, col: nat)
    requires NonZero(s) && BatchStride(s).Some?
    requires s.batch == 1 || s.batch == outBatch
    requires b < outBatch && row < s.rows && col < s.cols
    ensures Offset(BatchStride(s).value, s.cols, b, row, col) < Elements(s) <= U32_SIZE
  {
    BatchStrideIff(s);
    PlaneIndex(s, row, col);
    if s.batch > 1 { GroupFits(b, s.batch, Plane(s)); }
  }

  lemma StridedUnique(stride: nat, plane: nat, b: nat, x: nat, b': nat, x': nat)
    requires x < plane && x' < plane && (stride == plane || stride == 0)
    ensures Idx(b, stride, x) == Idx(b', stride, x') <==> x == x' && (b == b' || stride == 0)
  {
    if stride == plane { IdxUnique(b, plane, x, b', x'); }
  }

  lemma OffsetAliases(s: MatrixShape, stride: nat, b: nat, row: nat, col: nat, b': nat, row': nat, col': nat)
    requires row < s.rows && col < s.cols && row' < s.rows && col' < s.cols
    requires stride == Plane(s) || stride == 0
    ensures Offset(stride, s.cols, b, row, col) == Offset(stride, s.cols, b', row', col')
            <==> row == row' && col == col' && (b == b' || stride == 0)
  {
    PlaneIndex(s, row, col);
    PlaneIndex(s, row', col');
    IdxUnique(row, s.cols, col, row', col');
    StridedUnique(stride, Plane(s), b, Idx(row, s.cols, col), b', Idx(row', s.cols, col'));
  }

  /** Two accesses meet only when they name the same element, or the same element
      of a broadcast plane. */
  lemma OperandAliases(s: MatrixShape, outBatch: u32, b: nat, row: nat, col: nat, b': nat, row': nat, col': nat)
    requires NonZero(s) && BatchStride(s).Some?
    requires s.batch == 1 || s.batch == outBatch
    requires b < outBatch && row < s.rows && col < s.cols
    requires b' < outBatch && row' < s.rows && col' < s.cols
    ensures var stride := BatchStride(s).value;
            Offset(stride, s.cols, b, row, col) == Offset(stride, s.cols, b', row', col')
            <==> row == row' && col == col' && (b == b' || s.batch == 1)
  {
    BatchStrideIff(s);
    PlanePositive(s);
    OffsetAliases(s, BatchStride(s).value, b, row, col, b', row', col');
  }

  /** The batch, row and column of the C element at `x`. */
  function BatchOf(c: MatrixShape, x: nat): nat
    requires NonZero(c) && Plane(c) > 0
  { Quot(x, Plane(c)) }

  function RowOf(c: MatrixShape, x: nat): nat
    requires NonZero(c) && Plane(c) > 0
  { Quot(Rem(x, Plane(c)), c.cols) }

  function ColOf(c: MatrixShape, x: nat): nat
    requires NonZero(c) && Plane(c) > 0
  { Rem(Rem(x, Plane(c)), c.cols) }

  lemma PlanePositive(s: MatrixShape)
    requires NonZero(s)
    ensures Plane(s) > 0
  {
    MulMono(1, s.rows, s.cols);
  }

  lemma SplitIndex(batches: nat, rows: nat, cols: nat, plane: nat, x: nat)
    requires cols > 0 && plane == rows * cols && plane > 0 && x < batches * plane
    ensures Quot(x, plane) < batches && Quot(Rem(x, plane), cols) < rows && Rem(Rem(x, plane), cols) < cols
    ensures x == Idx(Quot(x, plane), plane, Idx(Quot(Rem(x, plane), cols), cols, Rem(Rem(x, plane), cols)))
  {
    DigitsIdx(x, batches, plane);
    DigitsIdx(Rem(x, plane), rows, cols);
  }

  /** Every element of C is the target of some (batch, row, col). */
  lemma OutputCovered(c: MatrixShape, x: nat)
    requires NonZero(c) && Plane(c) > 0 && BatchStride(c).Some? && x < Elements(c)
    ensures BatchOf(c, x) < c.batch && RowOf(c, x) < c.rows && ColOf(c, x) < c.cols
    ensures x == Offset(BatchStride(c).value, c.cols, BatchOf(c, x), RowOf(c, x), ColOf(c, x))
  {
    BatchStrideIff(c);
    SplitIndex(c.batch, c.rows, c.cols, Plane(c), x);
  }

  /** The main addressing result for a resolved call: A, B and C are all addressed
      inside their tensors with u32 offsets, and distinct outputs never collide. */
  lemma ResolvedAddresses(a: MatrixShape, b: MatrixShape, c: MatrixShape,
                          bi: nat, i: nat, j: nat, kk: nat, bi': nat, i': nat, j': nat)
    requires NonZero(a) && NonZero(b) && NonZero(c)
    requires FromMatrixShapes(a, b, c).Some?
    requires bi < c.batch && i < c.rows && j < c.cols && kk < a.cols
    requires bi' < c.batch && i' < c.rows && j' < c.cols
    ensures var r := FromMatrixShapes(a, b, c).value;
            && Offset(r.strideA, r.k, bi, i, kk) < Elements(a) <= U32_SIZE
            && Offset(r.strideB, r.n, bi, kk, j) < Elements(b) <= U32_SIZE
            && Offset(r.strideC, r.n, bi, i, j) < Elements(c) <= U32_SIZE
            && (Offset(r.strideC, r.n, bi, i, j) == Offset(r.strideC, r.n, bi', i', j')
                <==> bi == bi' && i == i' && j == j')
  {
    OperandInBounds(a, c.batch, bi, i, kk);
    OperandInBounds(b, c.batch, bi, kk, j);
    OperandInBounds(c, c.batch, bi, i, j);
    OperandAliases(c, c.batch, bi, i, j, bi', i', j');
  }

  /** The offsets of `batches` planes of rows x cols are exactly the positions below `n`. */
  ghost predicate Covers(n: nat, stride: nat, batches: nat, rows: nat, cols: nat) {
    forall x: nat :: x < n <==> Hit(x, stride, batches, rows, cols)
  }

  ghost predicate Hit(x: nat, stride: nat, batches: nat, rows: nat, cols: nat) {
    exists b: nat, i: nat, j: nat :: HitAt(x, stride, batches, rows, cols, b, i, j)
  }

  ghost predicate HitAt(x: nat, stride: nat, batches: nat, rows: nat, cols: nat, b: nat, i: nat, j: nat) {
    b < batches && i < rows && j < cols && x == Offset(stride, cols, b, i, j)
  }

  /** No two (batch, row, column) triples share an offset. */
  ghost predicate HitsOnce(stride: nat, batches: nat, rows: nat, cols: nat) {
    forall x: nat, b: nat, i: nat, j: nat, b': nat, i': nat, j': nat ::
      HitAt(x, stride, batches, rows, cols, b, i, j) && HitAt(x, stride, batches, rows, cols, b', i', j') ==>
        b == b' && i == i' && j == j'
  }

  /** An operand of an accepted call, over all batches of the output. */
  lemma OperandCovered(s: MatrixShape, outBatch: u32)
    requires NonZero(s) && BatchStride(s).Some? && outBatch > 0 && (s.batch == 1 || s.batch == outBatch)
    ensures Covers(Elements(s), BatchStride(s).value, outBatch, s.rows, s.cols)
  {
    var stride := BatchStride(s).value;
    PlanePositive(s);
    forall x: nat ensures x < Elements(s) <==> Hit(x, stride, outBatch, s.rows, s.cols) {
      if x < Elements(s) {
        OutputCovered(s, x);
        assert HitAt(x, stride, outBatch, s.rows, s.cols, BatchOf(s, x), RowOf(s, x), ColOf(s, x));
      }
      if b: nat, i: nat, j: nat :| HitAt(x, stride, outBatch, s.rows, s.cols, b, i, j) {
        OperandInBounds(s, outBatch, b, i, j);
      }
    }
  }

  lemma OutputHitOnce(c: MatrixShape)
    requires NonZero(c) && BatchStride(c).Some?
    ensures HitsOnce(BatchStride(c).value, c.batch, c.rows, c.cols)
  {
    var stride := BatchStride(c).value;
    forall x: nat, b: nat, i: nat, j: nat, b': nat, i': nat, j': nat |
      HitAt(x, stride, c.batch, c.rows, c.cols, b, i, j) && HitAt(x, stride, c.batch, c.rows, c.cols, b', i', j')
      ensures b == b' && i == i' && j == j'
    {
      OperandAliases(c, c.batch, b, i, j, b', i', j');
    }
  }

  /** What the resolved record dispatches: its bounds and strides reach every element of A,
      of B and of C and nothing else, each element of C once, and the FLOP count is that of
      the products it makes. */
  lemma ResolvedCovers(a: MatrixShape, b: MatrixShape, c: MatrixShape)
    requires NonZero(a) && NonZero(b) && NonZero(c) && FromMatrixShapes(a, b, c).Some?
    ensures var r := FromMatrixShapes(a, b, c).value;
            && Covers(Elements(a), r.strideA, r.batch, r.m, r.k)
            && Covers(Elements(b), r.strideB, r.batch, r.k, r.n)
            && Covers(Elements(c), r.strideC, r.batch, r.m, r.n)
            && HitsOnce(r.strideC, r.batch, r.m, r.n)
            && r.flops == 2 * r.batch * r.m * r.n * r.k
  {
    OperandCovered(a, c.batch);
    OperandCovered(b, c.batch);
    OperandCovered(c, c.batch);
    OutputHitOnce(c);
    FlopsChecked(c.batch, a.rows, b.cols, a.cols, [2, c.batch, a.rows, b.cols, a.cols]);
  }

  /** Batch `bi` of the output reads plane `bi` of A and B, or their only plane. */
  lemma ResolvedPlanes(a: MatrixShape, b: MatrixShape, c: MatrixShape, bi: nat, i: nat, j: nat, kk: nat)
    requires NonZero(a) && NonZero(b) && NonZero(c) && FromMatrixShapes(a, b, c).Some?
    requires var r := FromMatrixShapes(a, b, c).value; bi < r.batch && i < r.m && j < r.n && kk < r.k
    ensures var r := FromMatrixShapes(a, b, c).value;
            && Offset(r.strideA, r.k, bi, i, kk) == (if a.batch == 1 then 0 else bi * Plane(a)) + i * a.cols + kk
            && Offset(r.strideB, r.n, bi, kk, j) == (if b.batch == 1 then 0 else bi * Plane(b)) + kk * b.cols + j
            && Offset(r.strideC, r.n, bi, i, j) == bi * Plane(c) + i * c.cols + j
  {
    BatchStrideIff(a);
    BatchStrideIff(b);
    BatchStrideIff(c);
  }

  // ---- FLOP counts -------------------------------------------------------

  /** Three pairwise products of at most 2^32 bound the triple product by 2^48. */
  lemma PairwiseBound(u: nat, n: nat, k: nat)
    requires u * n <= 0x1_0000_0000 && u * k <= 0x1_0000_0000 && k * n <= 0x1_0000_0000
    ensures u * n * k <= 0x1_0000_0000_0000
  {
    if n <= k {
      MulMono(n, k, n);
      SmallRoot(n);
      MulMono(u * k, 0x1_0000_0000, n);
      assert u * n * k == u * k * n by { Assoc(u, n, k); Assoc(u, k, n); }
    } else {
      MulMono(k, n, k);
      SmallRoot(k);
      MulMono(u * n, 0x1_0000_0000, k);
    }
  }

  lemma SmallRoot(n: nat)
    requires n * n <= 0x1_0000_0000
    ensures n <= 0x1_0000
  {
    if n > 0x1_0000 { MulMono(0x1_0001, n, n); }
  }

  lemma BroadcastBBound(batch: nat, m: nat, n: nat, k: nat)
    requires batch * (m * n) <= U32_SIZE && batch * (m * k) <= U32_SIZE && k * n <= U32_SIZE
    ensures batch * m * n * k <= 0x1_0000_0000_0000
  {
    Assoc(batch, m, n);
    Assoc(batch, m, k);
    PairwiseBound(batch * m, n, k);
  }

  lemma BroadcastABound(batch: nat, m: nat, n: nat, k: nat)
    requires batch * (m * n) <= U32_SIZE && batch * (k * n) <= U32_SIZE && m * k <= U32_SIZE
    ensures batch * m * n * k <= 0x1_0000_0000_0000
  {
    var u := batch * n;
    assert u * m == batch * (m * n) by { Assoc(batch, n, m); assert n * m == m * n; }
    assert u * k == batch * (k * n) by { Assoc(batch, n, k); assert n * k == k * n; }
    assert k * m == m * k;
    PairwiseBound(u, m, k);
    assert batch * m * n == u * m by { Assoc(batch, m, n); }
  }

  predicate Conforms(a: MatrixShape, b: MatrixShape, c: MatrixShape) {
    && a.cols == b.rows && a.rows == c.rows && b.cols == c.cols
    && (a.batch == 1 || a.batch == c.batch) && (b.batch == 1 || b.batch == c.batch)
  }

  function Flops(a: MatrixShape, b: MatrixShape, c: MatrixShape): nat {
    Times(Times(Times(Times(2, c.batch), a.rows), b.cols), a.cols)
  }

  lemma UnderBroadcast(batch: nat, plane: nat)
    requires batch > 0 && batch * plane <= U32_SIZE
    ensures plane <= U32_SIZE
  {
    MulMono(1, batch, plane);
  }

  /** The u64 FLOP count can only overflow when A and B are both broadcast over
      several batches; otherwise it is at most 2^49. */
  lemma FlopsFit(a: MatrixShape, b: MatrixShape, c: MatrixShape)
    requires NonZero(a) && NonZero(b) && NonZero(c) && Conforms(a, b, c)
    requires Elements(a) <= U32_SIZE && Elements(b) <= U32_SIZE && Elements(c) <= U32_SIZE
    requires a.batch == c.batch || b.batch == c.batch
    ensures Flops(a, b, c) <= 0x2_0000_0000_0000
  {
    if a.batch == c.batch {
      UnderBroadcast(b.batch, Plane(b));
      BroadcastBBound(c.batch, a.rows, b.cols, a.cols);
    } else {
      UnderBroadcast(a.batch, Plane(a));
      BroadcastABound(c.batch, a.rows, b.cols, a.cols);
    }
    TwiceProduct(c.batch, a.rows, b.cols, a.cols);
  }

  lemma TwiceProduct(batch: nat, m: nat, n: nat, k: nat)
    ensures 2 * batch * m * n * k == 2 * (batch * m * n * k)
  {
    Assoc(2, batch, m);
    Assoc(2, batch * m, n);
    Assoc(2, batch * m * n, k);
  }

  /** Both inputs broadcast: 2^32 - 1 batches of a 1x1 result with K = 2^32 - 1. */
  lemma FlopsCanOverflow()
    ensures var a, b := MatrixShape(1, 1, 0xFFFF_FFFF), MatrixShape(1, 0xFFFF_FFFF, 1);
            var c := MatrixShape(0xFFFF_FFFF, 1, 1);
            && NonZero(a) && NonZero(b) && NonZero(c) && Conforms(a, b, c)
            && Elements(a) <= U32_SIZE && Elements(b) <= U32_SIZE && Elements(c) <= U32_SIZE
            && Flops(a, b, c) >= U64_SIZE
  {}

  lemma FlopsChecked(batch: nat, m: nat, n: nat, k: nat, values: seq<nat>)
    requires values == [2, batch, m, n, k] && batch > 0 && m > 0 && n > 0 && k > 0
    ensures CheckedProduct(values, |values|).Some? <==> 2 * batch * m * n * k < U64_SIZE
    ensures CheckedProduct(values, |values|).Some? ==> CheckedProduct(values, |values|).value == 2 * batch * m * n * k
  {
    CheckedProductIff(values, |values|);
    var p0, p1, p2 := Product(values, 0), Product(values, 1), Product(values, 2);
    assert p2 == 2 * batch;
    assert Product(values, 3) == p2 * m;
    assert Product(values, 4) == p2 * m * n;
  }

  /** Shape acceptance in full: dimensions agree, batches broadcast, each tensor
      has at most 2^32 elements, and, when both inputs are broadcast, the FLOP
      count fits. An accepted call reports its true FLOP count. */
  lemma AcceptedIff(a: MatrixShape, b: MatrixShape, c: MatrixShape)
    requires NonZero(a) && NonZero(b) && NonZero(c)
    ensures FromMatrixShapes(a, b, c).Some?
            <==> && Conforms(a, b, c)
                 && Elements(a) <= U32_SIZE && Elements(b) <= U32_SIZE && Elements(c) <= U32_SIZE
                 && (a.batch == c.batch || b.batch == c.batch || Flops(a, b, c) < U64_SIZE)
    ensures FromMatrixShapes(a, b, c).Some? ==> FromMatrixShapes(a, b, c).value.flops == Flops(a, b, c)
  {
    BatchStrideIff(a);
    BatchStrideIff(b);
    BatchStrideIff(c);
    FlopsChecked(c.batch, a.rows, b.cols, a.cols, [2, c.batch, a.rows, b.cols, a.cols]);
    if Conforms(a, b, c) && Elements(a) <= U32_SIZE && Elements(b) <= U32_SIZE && Elements(c) <= U32_SIZE {
      if a.batch == c.batch || b.batch == c.batch { FlopsFit(a, b, c); }
    }
  }
}
