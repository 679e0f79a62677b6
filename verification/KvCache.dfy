/** The KV caches: where each path stores a token's key and value elements, and what
    an executed op list leaves in them. */
module KvCache {
  import opened Arith
  import opened KvOps
  import opened KvReference
  import opened Strided

  // ---- Cells -------------------------------------------------------------

  predicate InCache(cfg: Config, h: nat, d: nat, p: nat) { h < cfg.kv && d < cfg.dh && p < cfg.tMax }

  /** Element of the [kv, dh, tMax] key cache. */
  function KtCell(cfg: Config, h: nat, d: nat, p: nat): nat { Idx(Idx(h, cfg.dh, d), cfg.tMax, p) }

  /** Element of the [kv, tMax, dh] value cache. */
  function VCell(cfg: Config, h: nat, d: nat, p: nat): nat { Idx(Idx(h, cfg.tMax, p), cfg.dh, d) }

  /** Column of a key or value row that holds lane `d` of head `h`. */
  function Column(cfg: Config, h: nat, d: nat): nat { Idx(h, cfg.dh, d) }

  function Size(cfg: Config): nat { Times(Times(cfg.kv, cfg.dh), cfg.tMax) }

  lemma KtCellBound(cfg: Config, h: nat, d: nat, p: nat)
    requires InCache(cfg, h, d, p)
    ensures KtCell(cfg, h, d, p) < Size(cfg)
  {
    IdxBound(h, cfg.kv, cfg.dh, d);
    IdxBound(Idx(h, cfg.dh, d), cfg.kv * cfg.dh, cfg.tMax, p);
  }

  lemma VCellBound(cfg: Config, h: nat, d: nat, p: nat)
    requires InCache(cfg, h, d, p)
    ensures VCell(cfg, h, d, p) < Size(cfg)
  {
    IdxBound(h, cfg.kv, cfg.tMax, p);
    IdxBound(Idx(h, cfg.tMax, p), cfg.kv * cfg.tMax, cfg.dh, d);
    SwapFactors(cfg.kv, cfg.tMax, cfg.dh);
  }

  lemma SwapFactors(a: nat, b: nat, c: nat)
    ensures a * b * c == a * c * b
  {
    Assoc(a, b, c);
    Assoc(a, c, b);
  }

  /** Distinct (head, lane, position) triples never share a cell. */
  lemma KtCellUnique(cfg: Config, h: nat, d: nat, p: nat, h': nat, d': nat, p': nat)
    requires InCache(cfg, h, d, p) && InCache(cfg, h', d', p')
    ensures KtCell(cfg, h, d, p) == KtCell(cfg, h', d', p') <==> h == h' && d == d' && p == p'
  {
    IdxUnique(Idx(h, cfg.dh, d), cfg.tMax, p, Idx(h', cfg.dh, d'), p');
    IdxUnique(h, cfg.dh, d, h', d');
  }

  lemma VCellUnique(cfg: Config, h: nat, d: nat, p: nat, h': nat, d': nat, p': nat)
    requires InCache(cfg, h, d, p) && InCache(cfg, h', d', p')
    ensures VCell(cfg, h, d, p) == VCell(cfg, h', d', p') <==> h == h' && d == d' && p == p'
  {
    IdxUnique(Idx(h, cfg.tMax, p), cfg.dh, d, Idx(h', cfg.tMax, p'), d');
    IdxUnique(h, cfg.tMax, p, h', p');
  }

  // ---- Addresses of the two append paths ---------------------------------

  /** The fused store epilogue's destination of output column `c`. */
  function StoreAddress(desc: StoreDesc, c: nat): nat
    requires desc.headDim > 0
  {
    Times(desc.posBase, desc.posScale) + Times(Quot(c, desc.headDim), desc.strideHead)
    + Times(Rem(c, desc.headDim), desc.strideDim)
  }

  /** The descriptors of the decode key and value stores at position `p`. */
  function KtStore(cfg: Config, p: nat): StoreDesc { StoreDesc(cfg.dh, p, 1, cfg.dh * cfg.tMax, cfg.tMax, 0) }
  function VStore(cfg: Config, p: nat): StoreDesc { StoreDesc(cfg.dh, p, cfg.dh, cfg.tMax * cfg.dh, 1, 0) }

  lemma KtCellAlgebra(h: nat, dh: nat, d: nat, tMax: nat, p: nat)
    ensures Idx(Idx(h, dh, d), tMax, p) == p + (Times(h, Times(dh, tMax)) + Times(d, tMax))
  {
    Distrib(h * dh, d, tMax);
    Assoc(h, dh, tMax);
  }

  lemma VCellAlgebra(h: nat, tMax: nat, p: nat, dh: nat, d: nat)
    ensures Idx(Idx(h, tMax, p), dh, d) == Times(p, dh) + (Times(h, Times(tMax, dh)) + d)
  {
    Distrib(h * tMax, p, dh);
    Assoc(h, tMax, dh);
  }

  /** Decode stores lane (h, d) of position `p` in its cell ... */
  lemma KtStoreCell(cfg: Config, p: nat, h: nat, d: nat)
    requires d < cfg.dh
    ensures StoreAddress(KtStore(cfg, p), Column(cfg, h, d)) == KtCell(cfg, h, d, p)
  {
    IdxDigits(h, cfg.dh, d);
    KtCellAlgebra(h, cfg.dh, d, cfg.tMax, p);
  }

  lemma VStoreCell(cfg: Config, p: nat, h: nat, d: nat)
    requires d < cfg.dh
    ensures StoreAddress(VStore(cfg, p), Column(cfg, h, d)) == VCell(cfg, h, d, p)
  {
    IdxDigits(h, cfg.dh, d);
    VCellAlgebra(h, cfg.tMax, p, cfg.dh, d);
  }

  /** ... and the prefill append stores lane (h, d) of its token `tk` in the cell
      decode would use at position base + tk. */
  lemma KtAppendCell(cfg: Config, t: nat, base: nat, h: nat, d: nat, tk: nat)
    ensures Address(KtAppend(cfg, t, base).dstOffset, KtAppend(cfg, t, base).dstStrides, d, h, tk)
            == KtCell(cfg, h, d, base + tk)
  {
    KtCellAlgebra(h, cfg.dh, d, cfg.tMax, base + tk);
  }

  lemma VAppendCell(cfg: Config, t: nat, base: nat, h: nat, d: nat, tk: nat)
    ensures Address(VAppend(cfg, t, base).dstOffset, VAppend(cfg, t, base).dstStrides, d, h, tk)
            == VCell(cfg, h, d, base + tk)
  {
    VCellAlgebra(h, cfg.tMax, base + tk, cfg.dh, d);
    Distrib(base, tk, cfg.dh);
  }

  /** Both appends read the rows in order. */
  lemma AppendSource(cfg: Config, t: nat, base: nat, h: nat, d: nat, tk: nat)
    ensures Address(0, KtAppend(cfg, t, base).srcStrides, d, h, tk) == Idx(tk, cfg.KvDim(), Column(cfg, h, d))
    ensures Address(0, VAppend(cfg, t, base).srcStrides, d, h, tk) == Idx(tk, cfg.KvDim(), Column(cfg, h, d))
  {}

  // ---- What an executed op does to the caches ----------------------------

  /** One cache element: the residual stream it was projected from, its layer and
      column, and for keys the rope row it was rotated by. */
  datatype Elem =
    | Zero
    | Key(x: Term, layer: nat, column: nat, rope: nat)
    | Value(x: Term, layer: nat, column: nat)
    | Other

  type Cache = seq<Elem>

  /** The elements written by `n` invocations; invocation `i` writes val(i) to addr(i). */
  function WriteAll(cache: Cache, addr: nat -> nat, val: nat -> Elem, n: nat): (r: Cache)
    ensures |r| == |cache|
  {
    if n == 0 then cache
    else
      var w := WriteAll(cache, addr, val, n - 1);
      if addr(n - 1) < |w| then w[addr(n - 1) := val(n - 1)] else w
  }

  lemma {:induction false} WriteMisses(cache: Cache, addr: nat -> nat, val: nat -> Elem, n: nat, x: nat)
    requires x < |cache| && forall i: nat :: i < n ==> addr(i) != x
    ensures WriteAll(cache, addr, val, n)[x] == cache[x]
  {
    if n > 0 { WriteMisses(cache, addr, val, n - 1, x); }
  }

  /** A cell written by one invocation only holds what that invocation wrote, in
      whatever order the others run. */
  lemma {:induction false} WriteHits(cache: Cache, addr: nat -> nat, val: nat -> Elem, n: nat, i: nat)
    requires i < n && addr(i) < |cache| && forall j: nat :: j < n && addr(j) == addr(i) ==> j == i
    ensures WriteAll(cache, addr, val, n)[addr(i)] == val(i)
  {
    if i < n - 1 { WriteHits(cache, addr, val, n - 1, i); }
  }

  /** The fused store writes every column of the row. */
  function StoreRow(cfg: Config, cache: Cache, desc: StoreDesc, val: nat -> Elem): Cache
    requires desc.headDim > 0
  {
    WriteAll(cache, (c: nat) => StoreAddress(desc, c), val, cfg.KvDim())
  }

  /** The (x, y, z) of invocation `i` of a copy. */
  function AxisX(e: Vec3, i: nat): nat
    requires e.x > 0
  { Rem(i, e.x) }

  function AxisY(e: Vec3, i: nat): nat
    requires e.x > 0 && e.y > 0
  { Rem(Quot(i, e.x), e.y) }

  function AxisZ(e: Vec3, i: nat): nat
    requires e.x > 0 && e.y > 0
  { Quot(Quot(i, e.x), e.y) }

  /** A strided copy writes, for every element of its extent, val of the source index. */
  function CopyRows(cache: Cache, copy: CopyDesc, val: nat -> Elem): Cache
    requires copy.extent.x > 0 && copy.extent.y > 0
  {
    var e := copy.extent;
    WriteAll(cache,
             (i: nat) => Address(copy.dstOffset, copy.dstStrides, AxisX(e, i), AxisY(e, i), AxisZ(e, i)),
             (i: nat) => val(Address(copy.srcOffset, copy.srcStrides, AxisX(e, i), AxisY(e, i), AxisZ(e, i))),
             Times(Times(e.x, e.y), e.z))
  }

  // ---- What a step leaves in one cache -----------------------------------

  /** Positions base .. base + |xs| of a key cache hold the keys of the streams xs, each
      rotated by its own position; every other position is as before. */
  ghost predicate KtWritten(cfg: Config, before: Cache, after: Cache, base: nat, xs: seq<Term>, layer: nat) {
    && |before| == Size(cfg) && |after| == Size(cfg)
    && forall h: nat, d: nat, p: nat :: InCache(cfg, h, d, p) ==>
         KtCell(cfg, h, d, p) < |after|
         && after[KtCell(cfg, h, d, p)] ==
              if base <= p < base + |xs| then Key(xs[p - base], layer, Column(cfg, h, d), p)
              else before[KtCell(cfg, h, d, p)]
  }

  ghost predicate VWritten(cfg: Config, before: Cache, after: Cache, base: nat, xs: seq<Term>, layer: nat) {
    && |before| == Size(cfg) && |after| == Size(cfg)
    && forall h: nat, d: nat, p: nat :: InCache(cfg, h, d, p) ==>
         VCell(cfg, h, d, p) < |after|
         && after[VCell(cfg, h, d, p)] ==
              if base <= p < base + |xs| then Value(xs[p - base], layer, Column(cfg, h, d))
              else before[VCell(cfg, h, d, p)]
  }

  lemma ColumnSplit(cfg: Config, c: nat)
    requires cfg.dh > 0 && c < cfg.KvDim()
    ensures Quot(c, cfg.dh) < cfg.kv && Rem(c, cfg.dh) < cfg.dh
    ensures Column(cfg, Quot(c, cfg.dh), Rem(c, cfg.dh)) == c
  {
    DigitsIdx(c, cfg.kv, cfg.dh);
  }

  /** Where the key store of column `c` goes. */
  lemma KtStoreAt(cfg: Config, p: nat, c: nat)
    requires cfg.dh > 0 && c < cfg.KvDim()
    ensures StoreAddress(KtStore(cfg, p), c) == KtCell(cfg, Quot(c, cfg.dh), Rem(c, cfg.dh), p)
  {
    ColumnSplit(cfg, c);
    KtStoreCell(cfg, p, Quot(c, cfg.dh), Rem(c, cfg.dh));
  }

  lemma VStoreAt(cfg: Config, p: nat, c: nat)
    requires cfg.dh > 0 && c < cfg.KvDim()
    ensures StoreAddress(VStore(cfg, p), c) == VCell(cfg, Quot(c, cfg.dh), Rem(c, cfg.dh), p)
  {
    ColumnSplit(cfg, c);
    VStoreCell(cfg, p, Quot(c, cfg.dh), Rem(c, cfg.dh));
  }

  /** The decode key store writes its own position in full and nothing else. */
  lemma KtStoreEffect(cfg: Config, cache: Cache, pos: nat, x: Term, layer: nat, val: nat -> Elem,
                      h: nat, d: nat, p: nat)
    requires cfg.dh > 0 && pos < cfg.tMax && |cache| == Size(cfg) && InCache(cfg, h, d, p)
    requires forall c: nat :: val(c) == Key(x, layer, c, pos)
    ensures KtCell(cfg, h, d, p) < |cache|
    ensures StoreRow(cfg, cache, KtStore(cfg, pos), val)[KtCell(cfg, h, d, p)]
            == if p == pos then Key(x, layer, Column(cfg, h, d), p) else cache[KtCell(cfg, h, d, p)]
  {
    KtCellBound(cfg, h, d, p);
    var desc := KtStore(cfg, pos);
    var addr := (c: nat) => StoreAddress(desc, c);
    var col := Column(cfg, h, d);
    IdxBound(h, cfg.kv, cfg.dh, d);
    KtStoreCell(cfg, p, h, d);
    if p == pos {
      forall c: nat | c < cfg.KvDim() && addr(c) == addr(col) ensures c == col {
        ColumnSplit(cfg, c);
        KtStoreAt(cfg, pos, c);
        KtCellUnique(cfg, h, d, p, Quot(c, cfg.dh), Rem(c, cfg.dh), pos);
      }
      WriteHits(cache, addr, val, cfg.KvDim(), col);
    } else {
      forall c: nat | c < cfg.KvDim() ensures addr(c) != KtCell(cfg, h, d, p) {
        ColumnSplit(cfg, c);
        KtStoreAt(cfg, pos, c);
        KtCellUnique(cfg, h, d, p, Quot(c, cfg.dh), Rem(c, cfg.dh), pos);
      }
      WriteMisses(cache, addr, val, cfg.KvDim(), KtCell(cfg, h, d, p));
    }
  }

  lemma VStoreEffect(cfg: Config, cache: Cache, pos: nat, x: Term, layer: nat, val: nat -> Elem,
                     h: nat, d: nat, p: nat)
    requires cfg.dh > 0 && pos < cfg.tMax && |cache| == Size(cfg) && InCache(cfg, h, d, p)
    requires forall c: nat :: val(c) == Value(x, layer, c)
    ensures VCell(cfg, h, d, p) < |cache|
    ensures StoreRow(cfg, cache, VStore(cfg, pos), val)[VCell(cfg, h, d, p)]
            == if p == pos then Value(x, layer, Column(cfg, h, d)) else cache[VCell(cfg, h, d, p)]
  {
    VCellBound(cfg, h, d, p);
    var desc := VStore(cfg, pos);
    var addr := (c: nat) => StoreAddress(desc, c);
    var col := Column(cfg, h, d);
    IdxBound(h, cfg.kv, cfg.dh, d);
    VStoreCell(cfg, p, h, d);
    if p == pos {
      forall c: nat | c < cfg.KvDim() && addr(c) == addr(col) ensures c == col {
        ColumnSplit(cfg, c);
        VStoreAt(cfg, pos, c);
        VCellUnique(cfg, h, d, p, Quot(c, cfg.dh), Rem(c, cfg.dh), pos);
      }
      WriteHits(cache, addr, val, cfg.KvDim(), col);
    } else {
      forall c: nat | c < cfg.KvDim() ensures addr(c) != VCell(cfg, h, d, p) {
        ColumnSplit(cfg, c);
        VStoreAt(cfg, pos, c);
        VCellUnique(cfg, h, d, p, Quot(c, cfg.dh), Rem(c, cfg.dh), pos);
      }
      WriteMisses(cache, addr, val, cfg.KvDim(), VCell(cfg, h, d, p));
    }
  }

  // ---- The prefill appends -----------------------------------------------

  /** The invocation of an append copy that moves lane (h, d) of token tk. */
  function Invocation(cfg: Config, h: nat, d: nat, tk: nat): nat { Idx(Idx(tk, cfg.kv, h), cfg.dh, d) }

  lemma InvocationAxes(cfg: Config, t: nat, h: nat, d: nat, tk: nat)
    requires h < cfg.kv && d < cfg.dh && tk < t
    ensures var e, i := Vec3(cfg.dh, cfg.kv, t), Invocation(cfg, h, d, tk);
            AxisX(e, i) == d && AxisY(e, i) == h && AxisZ(e, i) == tk && i < Times(Times(cfg.dh, cfg.kv), t)
  {
    IdxDigits(Idx(tk, cfg.kv, h), cfg.dh, d);
    IdxDigits(tk, cfg.kv, h);
    IdxBound(tk, t, cfg.kv, h);
    IdxBound(Idx(tk, cfg.kv, h), t * cfg.kv, cfg.dh, d);
    RotateFactors(t, cfg.kv, cfg.dh);
  }

  lemma RotateFactors(a: nat, b: nat, c: nat)
    ensures a * b * c == c * b * a
  {
    Assoc(c, b, a);
    Assoc(a, b, c);
  }

  lemma AxesInvocation(cfg: Config, t: nat, i: nat)
    requires cfg.dh > 0 && cfg.kv > 0 && i < Times(Times(cfg.dh, cfg.kv), t)
    ensures var e := Vec3(cfg.dh, cfg.kv, t);
            AxisX(e, i) < cfg.dh && AxisY(e, i) < cfg.kv && AxisZ(e, i) < t
            && i == Invocation(cfg, AxisY(e, i), AxisX(e, i), AxisZ(e, i))
  {
    RotateFactors(t, cfg.kv, cfg.dh);
    DigitsIdx(i, t * cfg.kv, cfg.dh);
    DigitsIdx(Quot(i, cfg.dh), t, cfg.kv);
  }

  /** The rows a prefill appends, by source index: row tk is projected from xs[tk] and
      rotated by position base + tk. */
  ghost predicate KeyRows(cfg: Config, val: nat -> Elem, base: nat, xs: seq<Term>, layer: nat) {
    forall tk: nat, c: nat :: tk < |xs| && c < cfg.KvDim() ==>
      val(Idx(tk, cfg.KvDim(), c)) == Key(xs[tk], layer, c, base + tk)
  }

  ghost predicate ValueRows(cfg: Config, val: nat -> Elem, xs: seq<Term>, layer: nat) {
    forall tk: nat, c: nat :: tk < |xs| && c < cfg.KvDim() ==> val(Idx(tk, cfg.KvDim(), c)) == Value(xs[tk], layer, c)
  }

  /** The prefill key append writes positions base .. base + t in full, and nothing else. */
  lemma KtAppendEffect(cfg: Config, cache: Cache, base: nat, t: nat, xs: seq<Term>, layer: nat, val: nat -> Elem,
                       h: nat, d: nat, p: nat)
    requires cfg.dh > 0 && t == |xs| && base + t <= cfg.tMax && |cache| == Size(cfg) && InCache(cfg, h, d, p)
    requires KeyRows(cfg, val, base, xs, layer)
    ensures KtCell(cfg, h, d, p) < |cache|
    ensures CopyRows(cache, KtAppend(cfg, t, base), val)[KtCell(cfg, h, d, p)]
            == if base <= p < base + t then Key(xs[p - base], layer, Column(cfg, h, d), p)
               else cache[KtCell(cfg, h, d, p)]
  {
    KtCellBound(cfg, h, d, p);
    var copy := KtAppend(cfg, t, base);
    var e := copy.extent;
    var addr := (i: nat) => Address(copy.dstOffset, copy.dstStrides, AxisX(e, i), AxisY(e, i), AxisZ(e, i));
    var value := (i: nat) => val(Address(copy.srcOffset, copy.srcStrides, AxisX(e, i), AxisY(e, i), AxisZ(e, i)));
    var n := Times(Times(e.x, e.y), e.z);
    if base <= p < base + t {
      var i := Invocation(cfg, h, d, p - base);
      InvocationAxes(cfg, t, h, d, p - base);
      KtAppendCell(cfg, t, base, h, d, p - base);
      AppendSource(cfg, t, base, h, d, p - base);
      IdxBound(h, cfg.kv, cfg.dh, d);
      forall j: nat | j < n && addr(j) == addr(i) ensures j == i {
        AxesInvocation(cfg, t, j);
        KtAppendCell(cfg, t, base, AxisY(e, j), AxisX(e, j), AxisZ(e, j));
        KtCellUnique(cfg, h, d, p, AxisY(e, j), AxisX(e, j), base + AxisZ(e, j));
      }
      WriteHits(cache, addr, value, n, i);
    } else {
      forall j: nat | j < n ensures addr(j) != KtCell(cfg, h, d, p) {
        AxesInvocation(cfg, t, j);
        KtAppendCell(cfg, t, base, AxisY(e, j), AxisX(e, j), AxisZ(e, j));
        KtCellUnique(cfg, h, d, p, AxisY(e, j), AxisX(e, j), base + AxisZ(e, j));
      }
      WriteMisses(cache, addr, value, n, KtCell(cfg, h, d, p));
    }
  }

  lemma VAppendEffect(cfg: Config, cache: Cache, base: nat, t: nat, xs: seq<Term>, layer: nat, val: nat -> Elem,
                      h: nat, d: nat, p: nat)
    requires cfg.dh > 0 && t == |xs| && base + t <= cfg.tMax && |cache| == Size(cfg) && InCache(cfg, h, d, p)
    requires ValueRows(cfg, val, xs, layer)
    ensures VCell(cfg, h, d, p) < |cache|
    ensures CopyRows(cache, VAppend(cfg, t, base), val)[VCell(cfg, h, d, p)]
            == if base <= p < base + t then Value(xs[p - base], layer, Column(cfg, h, d))
               else cache[VCell(cfg, h, d, p)]
  {
    VCellBound(cfg, h, d, p);
    var copy := VAppend(cfg, t, base);
    var e := copy.extent;
    var addr := (i: nat) => Address(copy.dstOffset, copy.dstStrides, AxisX(e, i), AxisY(e, i), AxisZ(e, i));
    var value := (i: nat) => val(Address(copy.srcOffset, copy.srcStrides, AxisX(e, i), AxisY(e, i), AxisZ(e, i)));
    var n := Times(Times(e.x, e.y), e.z);
    if base <= p < base + t {
      var i := Invocation(cfg, h, d, p - base);
      InvocationAxes(cfg, t, h, d, p - base);
      VAppendCell(cfg, t, base, h, d, p - base);
      AppendSource(cfg, t, base, h, d, p - base);
      IdxBound(h, cfg.kv, cfg.dh, d);
      forall j: nat | j < n && addr(j) == addr(i) ensures j == i {
        AxesInvocation(cfg, t, j);
        VAppendCell(cfg, t, base, AxisY(e, j), AxisX(e, j), AxisZ(e, j));
        VCellUnique(cfg, h, d, p, AxisY(e, j), AxisX(e, j), base + AxisZ(e, j));
      }
      WriteHits(cache, addr, value, n, i);
    } else {
      forall j: nat | j < n ensures addr(j) != VCell(cfg, h, d, p) {
        AxesInvocation(cfg, t, j);
        VAppendCell(cfg, t, base, AxisY(e, j), AxisX(e, j), AxisZ(e, j));
        VCellUnique(cfg, h, d, p, AxisY(e, j), AxisX(e, j), base + AxisZ(e, j));
      }
      WriteMisses(cache, addr, value, n, VCell(cfg, h, d, p));
    }
  }

  // ---- What a cache holds ------------------------------------------------

  /** Position p < |xs| of a key cache holds the key of stream xs[p], in all heads and
      lanes, rotated by p. */
  ghost predicate KtHolds(cfg: Config, cache: Cache, xs: seq<Term>, layer: nat) {
    && |cache| == Size(cfg)
    && forall h: nat, d: nat, p: nat :: InCache(cfg, h, d, p) && p < |xs| ==>
         KtCell(cfg, h, d, p) < |cache| && cache[KtCell(cfg, h, d, p)] == Key(xs[p], layer, Column(cfg, h, d), p)
  }

  ghost predicate VHolds(cfg: Config, cache: Cache, xs: seq<Term>, layer: nat) {
    && |cache| == Size(cfg)
    && forall h: nat, d: nat, p: nat :: InCache(cfg, h, d, p) && p < |xs| ==>
         VCell(cfg, h, d, p) < |cache| && cache[VCell(cfg, h, d, p)] == Value(xs[p], layer, Column(cfg, h, d))
  }

  lemma KtGains(cfg: Config, before: Cache, after: Cache, xs: seq<Term>, more: seq<Term>, layer: nat)
    requires KtHolds(cfg, before, xs, layer) && KtWritten(cfg, before, after, |xs|, more, layer)
    ensures KtHolds(cfg, after, xs + more, layer)
  {}

  lemma VGains(cfg: Config, before: Cache, after: Cache, xs: seq<Term>, more: seq<Term>, layer: nat)
    requires VHolds(cfg, before, xs, layer) && VWritten(cfg, before, after, |xs|, more, layer)
    ensures VHolds(cfg, after, xs + more, layer)
  {}

  // ---- What attention reads ----------------------------------------------

  /** The stream whose key position `p` holds, going by its first cell. */
  function TermAt(cfg: Config, kt: Cache, p: nat): Term {
    var cell := KtCell(cfg, 0, 0, p);
    if cell < |kt| && kt[cell].Key? then kt[cell].x else Embed(Unset)
  }

  predicate CellAgrees(cfg: Config, kt: Cache, v: Cache, layer: nat, h: nat, d: nat, p: nat) {
    && KtCell(cfg, h, d, p) < |kt| && VCell(cfg, h, d, p) < |v|
    && kt[KtCell(cfg, h, d, p)] == Key(TermAt(cfg, kt, p), layer, Column(cfg, h, d), p)
    && v[VCell(cfg, h, d, p)] == Value(TermAt(cfg, kt, p), layer, Column(cfg, h, d))
  }

  /** Every head and lane of positions 0 .. n holds the key and the value of one stream
      per position, for this layer, the key rotated by its position. */
  predicate Coherent(cfg: Config, kt: Cache, v: Cache, layer: nat, n: nat) {
    n <= cfg.tMax
    && forall h: nat, d: nat, p: nat :: h < cfg.kv && d < cfg.dh && p < n ==> CellAgrees(cfg, kt, v, layer, h, d, p)
  }

  function Context(cfg: Config, kt: Cache, n: nat): (xs: seq<Term>)
    ensures |xs| == n && forall p :: 0 <= p < n ==> xs[p] == TermAt(cfg, kt, p)
  {
    seq(n, p requires 0 <= p < n => TermAt(cfg, kt, p))
  }

  /** Caches that hold the streams xs are read back as exactly those streams. */
  lemma HeldIsCoherent(cfg: Config, kt: Cache, v: Cache, xs: seq<Term>, layer: nat)
    requires cfg.Valid() && |xs| <= cfg.tMax && KtHolds(cfg, kt, xs, layer) && VHolds(cfg, v, xs, layer)
    ensures Coherent(cfg, kt, v, layer, |xs|) && Context(cfg, kt, |xs|) == xs
  {
    forall p: nat | p < |xs| ensures TermAt(cfg, kt, p) == xs[p] {
      assert InCache(cfg, 0, 0, p);
    }
    forall h: nat, d: nat, p: nat | h < cfg.kv && d < cfg.dh && p < |xs|
      ensures CellAgrees(cfg, kt, v, layer, h, d, p)
    {
      assert InCache(cfg, h, d, p);
    }
  }

  /** Two pairs of caches with the same elements at every position below n. */
  ghost predicate SameCells(cfg: Config, kt: Cache, v: Cache, kt': Cache, v': Cache, n: nat) {
    && |kt| == |kt'| == Size(cfg) && |v| == |v'| == Size(cfg)
    && forall h: nat, d: nat, p: nat :: InCache(cfg, h, d, p) && p < n ==>
         && KtCell(cfg, h, d, p) < Size(cfg) && VCell(cfg, h, d, p) < Size(cfg)
         && kt[KtCell(cfg, h, d, p)] == kt'[KtCell(cfg, h, d, p)] && v[VCell(cfg, h, d, p)] == v'[VCell(cfg, h, d, p)]
  }

  lemma HeldAgree(cfg: Config, kt: Cache, v: Cache, kt': Cache, v': Cache, xs: seq<Term>, layer: nat)
    requires KtHolds(cfg, kt, xs, layer) && VHolds(cfg, v, xs, layer)
    requires KtHolds(cfg, kt', xs, layer) && VHolds(cfg, v', xs, layer)
    ensures SameCells(cfg, kt, v, kt', v', |xs|)
  {}
}
