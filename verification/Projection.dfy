/** The Q, K and V projections of a transformer layer, over the reals. */
module Projection {
  import opened Arith
  import opened Prelude
  import opened Layout
  import Routing
  import Strided

  // Prefill multiplies by one transposed and concatenated matrix and splits the
  // result; decode walks three row-tiled copies. Both are the products with the
  // file's own weight rows.

  // ---- The reference product ---------------------------------------------

  /** Sum over the first `kk` terms of row (at `aBase`) times column `col` of the
      [.., n] matrix at `bBase`. */
  function Dot(a: seq<real>, aBase: nat, b: seq<real>, bBase: nat, n: nat, col: nat, kk: nat): real
    requires aBase + kk <= |a| && col < n && bBase + kk * n <= |b|
  {
    if kk == 0 then 0.0
    else
      GroupFits(kk - 1, kk, n);
      Dot(a, aBase, b, bBase, n, col, kk - 1) + a[aBase + (kk - 1)] * b[bBase + Idx(kk - 1, n, col)]
  }

  /** The arguments of the CPU reference. */
  datatype Bmm = Bmm(
    a: seq<real>, b: seq<real>, init: Option<seq<real>>,
    batch: nat, m: nat, n: nat, k: nat, alpha: real, accumulate: bool)
  {
    /** The length assertions of the reference. */
    predicate Shaped() {
      && (|a| == batch * (m * k) || |a| == m * k)
      && (|b| == batch * (k * n) || |b| == k * n)
      && (init.Some? ==> |init.value| == batch * (m * n))
    }

    function ABase(bi: nat): nat { if |a| == batch * (m * k) then bi * (m * k) else 0 }
    function BBase(bi: nat): nat { if |b| == batch * (k * n) then bi * (k * n) else 0 }

    predicate InRange(bi: nat, i: nat, j: nat) { bi < batch && i < m && j < n }

    lemma SlicesFit(bi: nat, i: nat)
      requires Shaped() && bi < batch && i < m
      ensures ABase(bi) + i * k + k <= |a| && BBase(bi) + k * n <= |b|
    {
      GroupFits(i, m, k);
      GroupFits(bi, batch, m * k);
      GroupFits(bi, batch, k * n);
    }

    /** Element (i, j) of batch `bi` of the product. */
    function Product(bi: nat, i: nat, j: nat): real
      requires Shaped() && InRange(bi, i, j)
    {
      SlicesFit(bi, i);
      Dot(a, ABase(bi) + i * k, b, BBase(bi), n, j, k)
    }

    /** The reference value of output (bi, i, j) given what the buffer held. */
    function Value(bi: nat, i: nat, j: nat, before: real): real
      requires Shaped() && InRange(bi, i, j)
    {
      if accumulate then before + alpha * Product(bi, i, j) else alpha * Product(bi, i, j)
    }

    function At(bi: nat, i: nat, j: nat): nat { Idx(bi, m * n, Idx(i, n, j)) }

    function Before(x: nat): real {
      if init.Some? && x < |init.value| then init.value[x] else 0.0
    }
  }

  method DotProduct(a: array<real>, aBase: nat, b: array<real>, bBase: nat, n: nat, col: nat, k: nat)
    returns (acc: real)
    requires aBase + k <= a.Length && col < n && bBase + k * n <= b.Length
    ensures acc == Dot(a[..], aBase, b[..], bBase, n, col, k)
  {
    acc := 0.0;
    for kk := 0 to k
      invariant bBase + kk * n <= b.Length
      invariant acc == Dot(a[..], aBase, b[..], bBase, n, col, kk)
    {
      GroupFits(kk, k, n);
      assert (kk + 1) * n == kk * n + n by { Distrib(kk, 1, n); }
      acc := acc + a[aBase + kk] * b[bBase + (kk * n + col)];
    }
  }

  /** Everything before flat position `p` holds its product; the rest is as the
      buffer started. */
  ghost predicate FilledBelow(s: Bmm, out: seq<real>, p: nat) {
    && s.Shaped() && |out| == s.batch * (s.m * s.n)
    && (forall bi: nat, i: nat, j: nat :: s.InRange(bi, i, j) && s.At(bi, i, j) < p ==>
          s.At(bi, i, j) < |out| && out[s.At(bi, i, j)] == s.Value(bi, i, j, s.Before(s.At(bi, i, j))))
    && (forall x: nat :: p <= x < |out| ==> out[x] == s.Before(x))
  }

  lemma AtUnique(s: Bmm, bi: nat, i: nat, j: nat, bi': nat, i': nat, j': nat)
    requires s.InRange(bi, i, j) && s.InRange(bi', i', j') && s.At(bi, i, j) == s.At(bi', i', j')
    ensures bi == bi' && i == i' && j == j'
  {
    IdxBound(i, s.m, s.n, j);
    IdxBound(i', s.m, s.n, j');
    DigitsUnique(bi, Idx(i, s.n, j), bi', Idx(i', s.n, j'), s.m * s.n);
    DigitsUnique(i, j, i', j', s.n);
  }

  lemma AtInBounds(s: Bmm, bi: nat, i: nat, j: nat)
    requires s.InRange(bi, i, j)
    ensures s.At(bi, i, j) < s.batch * (s.m * s.n)
  {
    IdxBound(i, s.m, s.n, j);
    IdxBound(bi, s.batch, s.m * s.n, Idx(i, s.n, j));
  }

  /** Writing the next element in row-major order extends the filled prefix. */
  lemma FillStep(s: Bmm, out: seq<real>, bi: nat, i: nat, j: nat, v: real)
    requires s.InRange(bi, i, j) && FilledBelow(s, out, s.At(bi, i, j))
    requires v == s.Value(bi, i, j, s.Before(s.At(bi, i, j)))
    ensures s.At(bi, i, j) < |out|
    ensures FilledBelow(s, out[s.At(bi, i, j) := v], s.At(bi, i, j) + 1)
  {
    AtInBounds(s, bi, i, j);
    var p := s.At(bi, i, j);
    forall bi': nat, i': nat, j': nat | s.InRange(bi', i', j') && s.At(bi', i', j') < p + 1
      ensures s.At(bi', i', j') < |out| && out[p := v][s.At(bi', i', j')]
              == s.Value(bi', i', j', s.Before(s.At(bi', i', j')))
    {
      if s.At(bi', i', j') == p { AtUnique(s, bi, i, j, bi', i', j'); }
    }
  }

  /** One element of the row: what the loop body computes is the next product. */
  lemma CellStep(s: Bmm, out: seq<real>, bi: nat, i: nat, j: nat, acc: real, alpha: real, accumulate: bool)
    requires s.InRange(bi, i, j) && FilledBelow(s, out, s.At(bi, i, j))
    requires acc == s.Product(bi, i, j) && s.alpha == alpha && s.accumulate == accumulate
    ensures s.At(bi, i, j) < |out| && s.At(bi, i, j) + 1 == s.At(bi, i, j + 1)
    ensures var p := s.At(bi, i, j);
            FilledBelow(s, out[p := if accumulate then out[p] + alpha * acc else alpha * acc], s.At(bi, i, j + 1))
  {
    AtInBounds(s, bi, i, j);
    var p := s.At(bi, i, j);
    FillStep(s, out, bi, i, j, if accumulate then out[p] + alpha * acc else alpha * acc);
  }

  lemma NextRow(s: Bmm, bi: nat, i: nat)
    ensures s.At(bi, i, s.n) == s.At(bi, i + 1, 0)
  {
    Distrib(i, 1, s.n);
  }

  lemma NextBatch(s: Bmm, bi: nat)
    ensures s.At(bi, s.m, 0) == s.At(bi + 1, 0, 0)
  {
    Distrib(bi, 1, s.m * s.n);
  }

  ghost predicate Reads(s: Bmm, a: array<real>, b: array<real>, out: array<real>)
    reads a, b
  {
    s.Shaped() && s.a == a[..] && s.b == b[..] && out != a && out != b
  }

  method ProductAt(ghost s: Bmm, a: array<real>, b: array<real>, n: nat, k: nat,
                   bi: nat, i: nat, j: nat, aBase: nat, bBase: nat)
    returns (acc: real)
    requires s.Shaped() && s.a == a[..] && s.b == b[..] && s.n == n && s.k == k
    requires s.InRange(bi, i, j) && aBase == s.ABase(bi) && bBase == s.BBase(bi)
    ensures acc == s.Product(bi, i, j)
  {
    s.SlicesFit(bi, i);
    acc := DotProduct(a, aBase + Times(i, k), b, bBase, n, j, k);
  }

  method Store(out: array<real>, p: nat, v: real)
    requires p < out.Length
    modifies out
    ensures out[..] == old(out[..])[p := v]
  {
    out[p] := v;
  }

  /** The loop over the columns of one output row. */
  method BmmRow(ghost s: Bmm, a: array<real>, b: array<real>, out: array<real>,
                mn: nat, n: nat, k: nat, alpha: real, accumulate: bool,
                bi: nat, i: nat, aBase: nat, bBase: nat)
    requires Reads(s, a, b, out)
    requires s.m * s.n == mn && s.n == n && s.k == k && s.alpha == alpha && s.accumulate == accumulate
    requires bi < s.batch && i < s.m && aBase == s.ABase(bi) && bBase == s.BBase(bi)
    requires FilledBelow(s, out[..], s.At(bi, i, 0))
    modifies out
    ensures FilledBelow(s, out[..], s.At(bi, i + 1, 0))
  {
    for j := 0 to n
      invariant FilledBelow(s, out[..], s.At(bi, i, j))
    {
      var acc := ProductAt(s, a, b, n, k, bi, i, j, aBase, bBase);
      CellStep(s, out[..], bi, i, j, acc, alpha, accumulate);
      var p := Idx(bi, mn, Idx(i, n, j));
      Store(out, p, if accumulate then out[p] + alpha * acc else alpha * acc);
    }
    NextRow(s, bi, i);
  }

  /** The batched reference matmul; a shorter input is broadcast over the batch. */
  method CpuBmm(a: array<real>, b: array<real>, init: array?<real>,
                batch: nat, m: nat, n: nat, k: nat, alpha: real, accumulate: bool)
    returns (out: array<real>)
    requires Bmm(a[..], b[..], if init == null then None else Some(init[..]), batch, m, n, k, alpha,
                 accumulate).Shaped()
    ensures fresh(out)
    ensures var s := Bmm(a[..], b[..], if init == null then None else Some(init[..]), batch, m, n, k, alpha,
                         accumulate);
            FilledBelow(s, out[..], |out[..]|)
  {
    ghost var s := Bmm(a[..], b[..], if init == null then None else Some(init[..]), batch, m, n, k, alpha, accumulate);
    var mk, kn, mn := Times(m, k), Times(k, n), Times(m, n);
    out := new real[Times(batch, mn)](_ => 0.0);
    if init != null {
      CopySlice(out, 0, init, 0, init.Length);
    }
    NothingFilled(s, out[..]);
    for bi := 0 to batch
      invariant FilledBelow(s, out[..], s.At(bi, 0, 0))
    {
      var aBase := if a.Length == Times(batch, mk) then Times(bi, mk) else 0;
      var bBase := if b.Length == Times(batch, kn) then Times(bi, kn) else 0;
      for i := 0 to m
        invariant FilledBelow(s, out[..], s.At(bi, i, 0))
      {
        BmmRow(s, a, b, out, mn, n, k, alpha, accumulate, bi, i, aBase, bBase);
      }
      NextBatch(s, bi);
    }
  }

  lemma NothingFilled(s: Bmm, out: seq<real>)
    requires s.Shaped() && |out| == s.batch * (s.m * s.n)
    requires forall x: nat :: x < |out| ==> out[x] == s.Before(x)
    ensures FilledBelow(s, out, 0)
  {}

  // ---- Transposed weights ------------------------------------------------

  /** `dst` is the [nIn][nOut] transpose of the file's [nOut][nIn] matrix, for the
      elements visited before (row, col). */
  ghost predicate TransposedBefore(src: seq<real>, nOut: nat, nIn: nat, dst: seq<real>, row: nat, col: nat) {
    && |src| == nOut * nIn && |dst| == nOut * nIn
    && forall r: nat, c: nat :: r < nOut && c < nIn && (r < row || (r == row && c < col)) ==>
         Idx(c, nOut, r) < |dst| && Idx(r, nIn, c) < |src| && dst[Idx(c, nOut, r)] == src[Idx(r, nIn, c)]
  }

  ghost predicate IsTransposed(src: seq<real>, nOut: nat, nIn: nat, dst: seq<real>) {
    TransposedBefore(src, nOut, nIn, dst, nOut, 0)
  }

  lemma TransposeInBounds(nOut: nat, nIn: nat, r: nat, c: nat)
    requires r < nOut && c < nIn
    ensures Idx(c, nOut, r) < nOut * nIn && Idx(r, nIn, c) < nOut * nIn
  {
    IdxBound(r, nOut, nIn, c);
    IdxBound(c, nIn, nOut, r);
  }

  lemma TransposeStep(src: seq<real>, nOut: nat, nIn: nat, dst: seq<real>, row: nat, col: nat)
    requires TransposedBefore(src, nOut, nIn, dst, row, col) && row < nOut && col < nIn
    ensures Idx(col, nOut, row) < |dst| && Idx(row, nIn, col) < |src|
    ensures TransposedBefore(src, nOut, nIn, dst[Idx(col, nOut, row) := src[Idx(row, nIn, col)]], row, col + 1)
  {
    TransposeInBounds(nOut, nIn, row, col);
    var dst' := dst[Idx(col, nOut, row) := src[Idx(row, nIn, col)]];
    forall r: nat, c: nat | r < nOut && c < nIn && (r < row || (r == row && c < col + 1))
      ensures Idx(c, nOut, r) < |dst'| && Idx(r, nIn, c) < |src| && dst'[Idx(c, nOut, r)] == src[Idx(r, nIn, c)]
    {
      TransposeInBounds(nOut, nIn, r, c);
      if Idx(c, nOut, r) == Idx(col, nOut, row) { DigitsUnique(c, r, col, row, nOut); }
    }
  }

  method Transpose(src: array<real>, nOut: nat, nIn: nat) returns (dst: array<real>)
    requires src.Length == nOut * nIn
    ensures fresh(dst) && IsTransposed(src[..], nOut, nIn, dst[..])
  {
    dst := new real[src.Length](_ => 0.0);
    for r := 0 to nOut
      invariant TransposedBefore(src[..], nOut, nIn, dst[..], r, 0)
    {
      for c := 0 to nIn
        invariant TransposedBefore(src[..], nOut, nIn, dst[..], r, c)
      {
        TransposeStep(src[..], nOut, nIn, dst[..], r, c);
        Store(dst, Idx(c, nOut, r), src[Idx(r, nIn, c)]);
      }
    }
  }

  // ---- Concatenated Q | K | V columns ------------------------------------

  /** The part of the concatenation that column `j` comes from. */
  datatype Part = Part(w: seq<real>, width: nat, first: nat)

  function PartOf(wq: seq<real>, wk: seq<real>, wv: seq<real>, embd: nat, kv: nat, j: nat): Part {
    if j < embd then Part(wq, embd, 0)
    else if j < embd + kv then Part(wk, kv, embd)
    else Part(wv, kv, embd + kv)
  }

  lemma PartBounds(wq: seq<real>, wk: seq<real>, wv: seq<real>, embd: nat, kv: nat, row: nat, j: nat)
    requires |wq| == embd * embd && |wk| == embd * kv && |wv| == embd * kv && row < embd && j < embd + 2 * kv
    ensures var p := PartOf(wq, wk, wv, embd, kv, j);
            p.first <= j < p.first + p.width && |p.w| == embd * p.width && Idx(row, p.width, j - p.first) < |p.w|
  {
    if j < embd { IdxBound(row, embd, embd, j); }
    else if j < embd + kv { IdxBound(row, embd, kv, j - embd); }
    else { IdxBound(row, embd, kv, j - (embd + kv)); }
  }

  /** Element (row, j) of the concatenated matrix. */
  function ConcatEntry(wq: seq<real>, wk: seq<real>, wv: seq<real>, embd: nat, kv: nat, row: nat, j: nat): real
    requires |wq| == embd * embd && |wk| == embd * kv && |wv| == embd * kv && row < embd && j < embd + 2 * kv
  {
    PartBounds(wq, wk, wv, embd, kv, row, j);
    var p := PartOf(wq, wk, wv, embd, kv, j);
    p.w[Idx(row, p.width, j - p.first)]
  }

  ghost predicate ConcatBelow(wq: seq<real>, wk: seq<real>, wv: seq<real>, embd: nat, kv: nat,
                              w: seq<real>, rows: nat)
  {
    && |wq| == embd * embd && |wk| == embd * kv && |wv| == embd * kv && |w| == embd * (embd + 2 * kv)
    && forall row: nat, j: nat :: row < rows && row < embd && j < embd + 2 * kv ==>
         Idx(row, embd + 2 * kv, j) < |w|
         && w[Idx(row, embd + 2 * kv, j)] == ConcatEntry(wq, wk, wv, embd, kv, row, j)
  }

  /** One row of the three copies. */
  function WithRow(w: seq<real>, wq: seq<real>, wk: seq<real>, wv: seq<real>, embd: nat, kv: nat, row: nat): seq<real>
    requires |wq| == embd * embd && |wk| == embd * kv && |wv| == embd * kv && row < embd
    requires |w| == embd * (embd + 2 * kv)
  {
    GroupFits(row, embd, embd);
    GroupFits(row, embd, kv);
    GroupFits(row, embd, embd + 2 * kv);
    var dst := Times(row, embd + 2 * kv);
    var q := Splice(w, dst, wq, Times(row, embd), embd);
    var k := Splice(q, dst + embd, wk, Times(row, kv), kv);
    Splice(k, dst + embd + kv, wv, Times(row, kv), kv)
  }

  lemma WithRowEntry(w: seq<real>, wq: seq<real>, wk: seq<real>, wv: seq<real>, embd: nat, kv: nat, row: nat, j: nat)
    requires |wq| == embd * embd && |wk| == embd * kv && |wv| == embd * kv && row < embd
    requires |w| == embd * (embd + 2 * kv) && j < embd + 2 * kv
    ensures Idx(row, embd + 2 * kv, j) < |w| == |WithRow(w, wq, wk, wv, embd, kv, row)|
    ensures WithRow(w, wq, wk, wv, embd, kv, row)[Idx(row, embd + 2 * kv, j)]
            == ConcatEntry(wq, wk, wv, embd, kv, row, j)
  {
    IdxBound(row, embd, embd + 2 * kv, j);
  }

  lemma WithRowKeeps(w: seq<real>, wq: seq<real>, wk: seq<real>, wv: seq<real>, embd: nat, kv: nat, row: nat, x: nat)
    requires |wq| == embd * embd && |wk| == embd * kv && |wv| == embd * kv && row < embd
    requires |w| == embd * (embd + 2 * kv) && x < Times(row, embd + 2 * kv) && x < |w|
    ensures |WithRow(w, wq, wk, wv, embd, kv, row)| == |w|
    ensures WithRow(w, wq, wk, wv, embd, kv, row)[x] == w[x]
  {}

  lemma ConcatStep(wq: seq<real>, wk: seq<real>, wv: seq<real>, embd: nat, kv: nat, w: seq<real>, row: nat)
    requires ConcatBelow(wq, wk, wv, embd, kv, w, row) && row < embd
    ensures ConcatBelow(wq, wk, wv, embd, kv, WithRow(w, wq, wk, wv, embd, kv, row), row + 1)
  {
    var w' := WithRow(w, wq, wk, wv, embd, kv, row);
    var n := embd + 2 * kv;
    forall r: nat, j: nat | r < row + 1 && r < embd && j < n
      ensures Idx(r, n, j) < |w'| && w'[Idx(r, n, j)] == ConcatEntry(wq, wk, wv, embd, kv, r, j)
    {
      WithRowEntry(w, wq, wk, wv, embd, kv, row, j);
      if r < row {
        GroupFits(r, row, n);
        WithRowKeeps(w, wq, wk, wv, embd, kv, row, Idx(r, n, j));
      }
    }
  }

  /** The weight loader's row loop over the three projections. */
  method ConcatQkv(wq: array<real>, wk: array<real>, wv: array<real>, embd: nat, kv: nat) returns (w: array<real>)
    requires wq.Length == embd * embd && wk.Length == embd * kv && wv.Length == embd * kv
    ensures fresh(w) && ConcatBelow(wq[..], wk[..], wv[..], embd, kv, w[..], embd)
  {
    var n := embd + 2 * kv;
    w := new real[Times(embd, n)](_ => 0.0);
    for row := 0 to embd
      invariant ConcatBelow(wq[..], wk[..], wv[..], embd, kv, w[..], row)
    {
      ConcatStep(wq[..], wk[..], wv[..], embd, kv, w[..], row);
      CopyRow(w, wq, wk, wv, embd, kv, row);
    }
  }

  method CopyRow(w: array<real>, wq: array<real>, wk: array<real>, wv: array<real>, embd: nat, kv: nat, row: nat)
    requires wq.Length == embd * embd && wk.Length == embd * kv && wv.Length == embd * kv && row < embd
    requires w.Length == embd * (embd + 2 * kv) && w != wq && w != wk && w != wv
    modifies w
    ensures w[..] == WithRow(old(w[..]), wq[..], wk[..], wv[..], embd, kv, row)
  {
    GroupFits(row, embd, embd);
    GroupFits(row, embd, kv);
    GroupFits(row, embd, embd + 2 * kv);
    var dst := Times(row, embd + 2 * kv);
    CopySlice(w, dst, wq, Times(row, embd), embd);
    CopySlice(w, dst + embd, wk, Times(row, kv), kv);
    CopySlice(w, dst + embd + kv, wv, Times(row, kv), kv);
  }

  // ---- The three forms of one projection ---------------------------------

  /** A row of activations times a row of the weight file. */
  function RowDot(x: seq<real>, xBase: nat, g: seq<real>, gBase: nat, kk: nat): real
    requires xBase + kk <= |x| && gBase + kk <= |g|
  {
    if kk == 0 then 0.0
    else RowDot(x, xBase, g, gBase, kk - 1) + x[xBase + (kk - 1)] * g[gBase + (kk - 1)]
  }

  /** Column `j` of the row-tiled [K, tiles*tile] matrix against a single row. */
  function PackedDot(x: seq<real>, p: seq<real>, k: nat, tile: nat, tiles: nat, j: nat, kk: nat): real
    requires tile > 0 && |p| == k * (tiles * tile) && j < tiles * tile && kk <= k && kk <= |x|
  {
    if kk == 0 then 0.0
    else
      PackThenSource(k, tiles * tile, tile, tiles, kk - 1, j);
      PackedDot(x, p, k, tile, tiles, j, kk - 1) + x[kk - 1] * p[PackIndex(k, tile, kk - 1, j)]
  }

  /** Equal columns give equal products. */
  lemma {:induction false} DotSame(x: seq<real>, xBase: nat, w: seq<real>, n: nat, j: nat,
                                   w': seq<real>, n': nat, j': nat, k: nat, kk: nat)
    requires kk <= k && xBase + k <= |x| && j < n && j' < n' && |w| == k * n && |w'| == k * n'
    requires forall i: nat :: i < k ==>
               Idx(i, n, j) < |w| && Idx(i, n', j') < |w'| && w[Idx(i, n, j)] == w'[Idx(i, n', j')]
    ensures kk * n <= |w| && kk * n' <= |w'|
    ensures Dot(x, xBase, w, 0, n, j, kk) == Dot(x, xBase, w', 0, n', j', kk)
  {
    MulMono(kk, k, n);
    MulMono(kk, k, n');
    if kk > 0 { DotSame(x, xBase, w, n, j, w', n', j', k, kk - 1); }
  }

  lemma {:induction false} DotTransposed(x: seq<real>, xBase: nat, g: seq<real>, nOut: nat, nIn: nat, w: seq<real>,
                                         j: nat, kk: nat)
    requires IsTransposed(g, nOut, nIn, w) && j < nOut && kk <= nIn && xBase + nIn <= |x|
    ensures kk * nOut <= |w| && j * nIn + kk <= |g|
    ensures Dot(x, xBase, w, 0, nOut, j, kk) == RowDot(x, xBase, g, j * nIn, kk)
  {
    MulMono(kk, nIn, nOut);
    GroupFits(j, nOut, nIn);
    if kk > 0 {
      DotTransposed(x, xBase, g, nOut, nIn, w, j, kk - 1);
      assert w[Idx(kk - 1, nOut, j)] == g[Idx(j, nIn, kk - 1)];
    }
  }

  /** Packing does not change the product of a single row. */
  lemma {:induction false} DotPacked(x: seq<real>, xBase: nat, row: seq<real>, w: seq<real>, k: nat, tile: nat,
                                     tiles: nat, p: seq<real>, j: nat, kk: nat)
    requires IsPacked(w, k, tiles * tile, tile, p) && j < tiles * tile && kk <= k && xBase + k <= |x| && |row| == k
    requires forall c: nat :: c < k ==> row[c] == x[xBase + c]
    ensures kk * (tiles * tile) <= |w|
    ensures PackedDot(row, p, k, tile, tiles, j, kk) == Dot(x, xBase, w, 0, tiles * tile, j, kk)
  {
    MulMono(kk, k, tiles * tile);
    if kk > 0 {
      DotPacked(x, xBase, row, w, k, tile, tiles, p, j, kk - 1);
      PackedEntry(w, k, tiles * tile, tile, p, kk - 1, j);
      PackedStep(row, p, k, tile, tiles, j, kk);
      DotStep(x, xBase, w, tiles * tile, j, kk);
      SameSum(PackedDot(row, p, k, tile, tiles, j, kk - 1), row[kk - 1], p[PackIndex(k, tile, kk - 1, j)],
              Dot(x, xBase, w, 0, tiles * tile, j, kk - 1), x[xBase + (kk - 1)], w[Idx(kk - 1, tiles * tile, j)]);
    }
  }

  lemma SameSum(s: real, a: real, b: real, s': real, a': real, b': real)
    requires s == s' && a == a' && b == b'
    ensures s + a * b == s' + a' * b'
  {}

  lemma PackedEntry(w: seq<real>, k: nat, n: nat, tile: nat, p: seq<real>, i: nat, j: nat)
    requires IsPacked(w, k, n, tile, p) && i < k && j < n
    ensures PackIndex(k, tile, i, j) < |p| && Idx(i, n, j) < |w| && p[PackIndex(k, tile, i, j)] == w[Idx(i, n, j)]
  {}

  lemma PackedStep(row: seq<real>, p: seq<real>, k: nat, tile: nat, tiles: nat, j: nat, kk: nat)
    requires tile > 0 && |p| == k * (tiles * tile) && j < tiles * tile && 0 < kk <= k && kk <= |row|
    ensures PackIndex(k, tile, kk - 1, j) < |p|
    ensures PackedDot(row, p, k, tile, tiles, j, kk)
            == PackedDot(row, p, k, tile, tiles, j, kk - 1) + row[kk - 1] * p[PackIndex(k, tile, kk - 1, j)]
  {
    PackThenSource(k, tiles * tile, tile, tiles, kk - 1, j);
  }

  lemma DotStep(x: seq<real>, xBase: nat, w: seq<real>, n: nat, j: nat, kk: nat)
    requires 0 < kk && xBase + kk <= |x| && j < n && kk * n <= |w|
    ensures (kk - 1) * n <= |w| && Idx(kk - 1, n, j) < |w|
    ensures Dot(x, xBase, w, 0, n, j, kk)
            == Dot(x, xBase, w, 0, n, j, kk - 1) + x[xBase + (kk - 1)] * w[Idx(kk - 1, n, j)]
  {
    GroupFits(kk - 1, kk, n);
  }

  /** A column of the concatenation is the column of the part it came from. */
  lemma DotConcat(x: seq<real>, xBase: nat, wq: seq<real>, wk: seq<real>, wv: seq<real>, embd: nat, kv: nat,
                  w: seq<real>, n: nat, j: nat)
    requires ConcatBelow(wq, wk, wv, embd, kv, w, embd) && xBase + embd <= |x| && n == embd + 2 * kv && j < n
    ensures var p := PartOf(wq, wk, wv, embd, kv, j);
            && p.first <= j < p.first + p.width && |p.w| == embd * p.width
            && Dot(x, xBase, w, 0, n, j, embd) == Dot(x, xBase, p.w, 0, p.width, j - p.first, embd)
  {
    if embd == 0 { PartBoundsEmpty(wq, wk, wv, embd, kv, j); } else { PartBounds(wq, wk, wv, embd, kv, 0, j); }
    var p := PartOf(wq, wk, wv, embd, kv, j);
    var j' := j - p.first;
    forall i: nat | i < embd
      ensures Idx(i, n, j) < |w| && Idx(i, p.width, j') < |p.w| && w[Idx(i, n, j)] == p.w[Idx(i, p.width, j')]
    {
      PartBounds(wq, wk, wv, embd, kv, i, j);
      IdxBound(i, embd, n, j);
      assert w[Idx(i, n, j)] == ConcatEntry(wq, wk, wv, embd, kv, i, j);
    }
    DotSame(x, xBase, w, n, j, p.w, p.width, j', embd, embd);
  }

  lemma PartBoundsEmpty(wq: seq<real>, wk: seq<real>, wv: seq<real>, embd: nat, kv: nat, j: nat)
    requires |wq| == embd * embd && |wk| == embd * kv && |wv| == embd * kv && embd == 0 && j < embd + 2 * kv
    ensures var p := PartOf(wq, wk, wv, embd, kv, j); p.first <= j < p.first + p.width && |p.w| == embd * p.width
  {}

  // ---- Prefill against decode --------------------------------------------

  /** What a strided copy leaves in its destination. */
  ghost predicate Copied(desc: Strided.CopyDesc, src: seq<real>, dst: seq<real>) {
    forall x: nat, y: nat, z: nat :: Strided.InExtent(desc.extent, x, y, z) ==>
      var s := Strided.Address(desc.srcOffset, desc.srcStrides, x, y, z);
      var d := Strided.Address(desc.dstOffset, desc.dstStrides, x, y, z);
      s < |src| && d < |dst| && dst[d] == src[s]
  }

  lemma SplitElement(offset: nat, width: nat, t: nat, n: nat,
                     y: seq<real>, part: seq<real>, r: nat, j: nat)
    requires Copied(Strided.SplitCopy(offset, width, t, n), y, part) && r < t && j < width
    ensures Idx(r, width, j) < |part| && Idx(r, n, offset + j) < |y|
    ensures part[Idx(r, width, j)] == y[Idx(r, n, offset + j)]
  {
    var desc := Strided.SplitCopy(offset, width, t, n);
    assert Strided.InExtent(desc.extent, j, r, 0);
    assert Strided.Address(desc.srcOffset, desc.srcStrides, j, r, 0) == Idx(r, n, offset + j);
    assert Strided.Address(desc.dstOffset, desc.dstStrides, j, r, 0) == Idx(r, width, j);
  }

  /** One projection's weights in every form the loader keeps. */
  datatype Weights = Weights(g: seq<real>, w: seq<real>, packed: seq<real>, nOut: nat, nIn: nat)
  {
    function Tile(): (tile: nat)
      ensures tile > 0
    { Routing.RowTileN(nIn, nOut) }

    function Tiles(): nat { Quot(nOut, Tile()) }

    /** Transposed from the file, then packed for the row kernels, which take
        only multiples of 32 columns. */
    ghost predicate Loaded() {
      nOut % 32 == 0 && IsTransposed(g, nOut, nIn, w) && IsPacked(w, nIn, nOut, Tile(), packed)
    }

    lemma TilesCover()
      requires nOut % 32 == 0
      ensures nOut == Tiles() * Tile()
    {
      Routing.PackedTileMatches(nIn, nOut);
      TilesExact(nOut, Tile());
    }

    /** What the decode GEMV computes for output `j`. */
    ghost function Decode(row: seq<real>, j: nat): real
      requires Loaded() && |row| == nIn && j < nOut
    {
      TilesCover();
      PackedDot(row, packed, nIn, Tile(), Tiles(), j, nIn)
    }

    /** The projection as the weight file states it. */
    ghost function Reference(row: seq<real>, j: nat): real
      requires Loaded() && |row| == nIn && j < nOut
    {
      GroupFits(j, nOut, nIn);
      RowDot(row, 0, g, j * nIn, nIn)
    }
  }

  /** The decode GEMV over packed weights is the product with the file's row. */
  lemma DecodeIsReference(p: Weights, row: seq<real>, j: nat)
    requires p.Loaded() && |row| == p.nIn && j < p.nOut
    ensures p.Decode(row, j) == p.Reference(row, j)
  {
    p.TilesCover();
    DotPacked(row, 0, row, p.w, p.nIn, p.Tile(), p.Tiles(), p.packed, j, p.nIn);
    DotTransposed(row, 0, p.g, p.nOut, p.nIn, p.w, j, p.nIn);
  }

  /** `row` is the activation row that starts at `xBase`. */
  ghost predicate RowAt(x: seq<real>, xBase: nat, row: seq<real>) {
    xBase + |row| <= |x| && forall c: nat :: c < |row| ==> row[c] == x[xBase + c]
  }

  lemma {:induction false} RowDotShift(x: seq<real>, xBase: nat, row: seq<real>, g: seq<real>, gBase: nat, kk: nat)
    requires RowAt(x, xBase, row) && kk <= |row| && gBase + kk <= |g|
    ensures RowDot(x, xBase, g, gBase, kk) == RowDot(row, 0, g, gBase, kk)
  {
    if kk > 0 { RowDotShift(x, xBase, row, g, gBase, kk - 1); }
  }

  /** The attention weights of one layer. */
  datatype Layer = Layer(q: Weights, k: Weights, v: Weights, qkv: seq<real>, embd: nat, kv: nat)
  {
    ghost predicate Loaded() {
      && q.Loaded() && k.Loaded() && v.Loaded()
      && q.nIn == embd && k.nIn == embd && v.nIn == embd && q.nOut == embd && k.nOut == kv && v.nOut == kv
      && ConcatBelow(q.w, k.w, v.w, embd, kv, qkv, embd)
    }

    function Width(): nat { embd + 2 * kv }

    /** `p` is one of the projections; its columns start at `first`. */
    ghost predicate IsPart(p: Weights, first: nat) {
      (p == q && first == 0) || (p == k && first == embd) || (p == v && first == embd + kv)
    }

    /** The prefill GEMM of `t` activation rows by the concatenated matrix. */
    function Gemm(x: seq<real>, t: nat): Bmm {
      Bmm(x, qkv, None, 1, t, Width(), embd, 1.0, false)
    }
  }

  /** `y` is the result of the prefill GEMM. */
  ghost predicate IsGemm(l: Layer, x: seq<real>, t: nat, y: seq<real>) {
    |x| == t * l.embd && FilledBelow(l.Gemm(x, t), y, |y|)
  }

  lemma GemmElement(l: Layer, x: seq<real>, t: nat, y: seq<real>, r: nat, n: nat, j: nat, xBase: nat)
    requires l.Loaded() && IsGemm(l, x, t, y) && r < t && n == l.Width() && j < n && xBase == Times(r, l.embd)
    ensures Idx(r, n, j) < |y| && xBase + l.embd <= |x| && |l.qkv| == l.embd * n
    ensures y[Idx(r, n, j)] == Dot(x, xBase, l.qkv, 0, n, j, l.embd)
  {
    var s := l.Gemm(x, t);
    AtInBounds(s, 0, r, j);
    GroupFits(r, t, l.embd);
    assert s.InRange(0, r, j);
    assert y[s.At(0, r, j)] == s.Value(0, r, j, s.Before(s.At(0, r, j)));
  }

  /** The unpacked product with a loaded projection is the product with the file's row. */
  lemma PartIsReference(p: Weights, x: seq<real>, xBase: nat, row: seq<real>, j: nat, nIn: nat)
    requires p.Loaded() && nIn == p.nIn == |row| && j < p.nOut && RowAt(x, xBase, row)
    ensures |p.w| == nIn * p.nOut
    ensures Dot(x, xBase, p.w, 0, p.nOut, j, nIn) == p.Reference(row, j)
  {
    DotTransposed(x, xBase, p.g, p.nOut, p.nIn, p.w, j, p.nIn);
    RowDotShift(x, xBase, row, p.g, Times(j, p.nIn), p.nIn);
  }

  lemma PartColumn(l: Layer, p: Weights, first: nat, x: seq<real>, xBase: nat, n: nat, j: nat)
    requires ConcatBelow(l.q.w, l.k.w, l.v.w, l.embd, l.kv, l.qkv, l.embd) && n == l.Width()
    requires l.q.nOut == l.embd && l.k.nOut == l.kv && l.v.nOut == l.kv
    requires l.IsPart(p, first) && j < p.nOut && xBase + l.embd <= |x|
    ensures first + j < n && |l.qkv| == l.embd * n && |p.w| == l.embd * p.nOut
    ensures Dot(x, xBase, l.qkv, 0, n, first + j, l.embd) == Dot(x, xBase, p.w, 0, p.nOut, j, l.embd)
  {
    DotConcat(x, xBase, l.q.w, l.k.w, l.v.w, l.embd, l.kv, l.qkv, n, first + j);
    var part := PartOf(l.q.w, l.k.w, l.v.w, l.embd, l.kv, first + j);
    assert part == Part(p.w, p.nOut, first);
    assert first + j - part.first == j;
  }

  /** A column of the concatenated product is the product with the file's row. */
  lemma ColumnIsReference(l: Layer, p: Weights, first: nat, x: seq<real>, row: seq<real>, n: nat, j: nat, xBase: nat)
    requires l.Loaded() && n == l.Width() && l.IsPart(p, first) && j < p.nOut
    requires |row| == l.embd && RowAt(x, xBase, row)
    ensures first + j < n && |l.qkv| == l.embd * n
    ensures Dot(x, xBase, l.qkv, 0, n, first + j, l.embd) == p.Reference(row, j)
  {
    PartColumn(l, p, first, x, xBase, n, j);
    PartIsReference(p, x, xBase, row, j, l.embd);
  }

  /** The strided copy of Q, K or V out of the prefill product holds the products
      with the file's rows. */
  lemma SplitIsReference(l: Layer, p: Weights, first: nat, width: nat,
                         x: seq<real>, t: nat, y: seq<real>, r: nat, row: seq<real>,
                         n: nat, part: seq<real>, j: nat)
    requires l.Loaded() && IsGemm(l, x, t, y) && r < t && n == l.Width()
    requires l.IsPart(p, first) && width == p.nOut && j < width
    requires |row| == l.embd && RowAt(x, Times(r, l.embd), row)
    requires Copied(Strided.SplitCopy(first, width, t, n), y, part)
    ensures Idx(r, width, j) < |part|
    ensures part[Idx(r, width, j)] == p.Reference(row, j)
  {
    SplitElement(first, width, t, n, y, part, r, j);
    ColumnIsReference(l, p, first, x, row, n, j, Times(r, l.embd));
    GemmElement(l, x, t, y, r, n, first + j, Times(r, l.embd));
  }

  /** The main result: splitting the prefill product by the strided copy of Q, K or
      V gives, for every token row, what decode's packed GEMV computes from that
      row, and both are the file's weights times the row. */
  lemma PrefillMatchesDecode(l: Layer, p: Weights, first: nat, width: nat,
                             x: seq<real>, t: nat, y: seq<real>, r: nat, row: seq<real>,
                             n: nat, part: seq<real>, j: nat)
    requires l.Loaded() && IsGemm(l, x, t, y) && r < t && n == l.Width()
    requires l.IsPart(p, first) && width == p.nOut && j < width
    requires |row| == l.embd && RowAt(x, Times(r, l.embd), row)
    requires Copied(Strided.SplitCopy(first, width, t, n), y, part)
    ensures Idx(r, width, j) < |part|
    ensures part[Idx(r, width, j)] == p.Reference(row, j)
    ensures p.Decode(row, j) == p.Reference(row, j)
  {
    SplitIsReference(l, p, first, width, x, t, y, r, row, n, part, j);
    DecodeIsReference(p, row, j);
  }
}
