/** Row-tiled weight layout: the packing loops, and the index map that undoes them. */
module Layout {
  import opened Arith

  /** `dst` with `len` elements of `src` written at `to`. */
  function Splice(dst: seq<real>, to: nat, src: seq<real>, from: nat, len: nat): (r: seq<real>)
    requires to + len <= |dst| && from + len <= |src|
    ensures |r| == |dst|
    ensures forall x :: to <= x < to + len ==> r[x] == src[from + (x - to)]
    ensures forall x :: (0 <= x < to || to + len <= x < |dst|) ==> r[x] == dst[x]
  {
    dst[..to] + src[from..from + len] + dst[to + len..]
  }

  /** copy_from_slice between two buffers. */
  method CopySlice(dst: array<real>, to: nat, src: array<real>, from: nat, len: nat)
    requires dst != src && to + len <= dst.Length && from + len <= src.Length
    modifies dst
    ensures dst[..] == Splice(old(dst[..]), to, src[..], from, len)
  {
    for i := 0 to len
      invariant forall x :: to <= x < to + i ==> dst[x] == src[from + (x - to)]
      invariant forall x :: 0 <= x < dst.Length && !(to <= x < to + i) ==> dst[x] == old(dst[x])
    {
      dst[to + i] := src[from + i];
    }
  }

  // ---- Row-tiled packing -------------------------------------------------

  /** Where element (ki, j) of a [K, N] matrix goes in [N/tile][K][tile]. */
  function PackIndex(k: nat, tile: nat, ki: nat, j: nat): nat
    requires tile > 0
  {
    Idx(Idx(Quot(j, tile), k, ki), tile, Rem(j, tile))
  }

  /** Which element of the [K, N] matrix position `x` of the packed form holds. */
  function PackSource(k: nat, n: nat, tile: nat, x: nat): nat
    requires tile > 0 && k > 0
  {
    var group := Quot(x, tile);
    Idx(Rem(group, k), n, Idx(Quot(group, k), tile, Rem(x, tile)))
  }

  lemma PackSourceOf(k: nat, n: nat, tile: nat, t: nat, ki: nat, c: nat)
    requires tile > 0 && ki < k && c < tile
    ensures PackSource(k, n, tile, Idx(Idx(t, k, ki), tile, c)) == Idx(ki, n, Idx(t, tile, c))
  {
    IdxDigits(Idx(t, k, ki), tile, c);
    IdxDigits(t, k, ki);
  }

  lemma PackIndexOf(k: nat, tile: nat, t: nat, ki: nat, c: nat)
    requires tile > 0 && c < tile
    ensures PackIndex(k, tile, ki, Idx(t, tile, c)) == Idx(Idx(t, k, ki), tile, c)
  {
    IdxDigits(t, tile, c);
  }

  /** Packing is a bijection of [0, K*N): PackSource undoes PackIndex ... */
  lemma PackThenSource(k: nat, n: nat, tile: nat, tiles: nat, ki: nat, j: nat)
    requires tile > 0 && n == tiles * tile && ki < k && j < n
    ensures PackIndex(k, tile, ki, j) < k * n
    ensures PackSource(k, n, tile, PackIndex(k, tile, ki, j)) == Idx(ki, n, j)
  {
    DigitsIdx(j, tiles, tile);
    var t, c := Quot(j, tile), Rem(j, tile);
    PackSourceOf(k, n, tile, t, ki, c);
    IdxBound(t, tiles, k, ki);
    IdxBound(Idx(t, k, ki), tiles * k, tile, c);
    assert tiles * k * tile == k * n by { Assoc(k, tiles, tile); }
  }

  /** ... and PackIndex undoes PackSource. */
  lemma SourceThenPack(k: nat, n: nat, tile: nat, tiles: nat, x: nat)
    requires tile > 0 && k > 0 && n == tiles * tile && x < k * n
    ensures n > 0 && PackSource(k, n, tile, x) < k * n
    ensures PackIndex(k, tile, Quot(PackSource(k, n, tile, x), n), Rem(PackSource(k, n, tile, x), n)) == x
  {
    assert k * n == tiles * k * tile by { Assoc(k, tiles, tile); }
    DigitsIdx(x, tiles * k, tile);
    var group, c := Quot(x, tile), Rem(x, tile);
    DigitsIdx(group, tiles, k);
    var t, ki := Quot(group, k), Rem(group, k);
    IdxBound(t, tiles, tile, c);
    IdxBound(ki, k, n, Idx(t, tile, c));
    IdxDigits(ki, n, Idx(t, tile, c));
    PackIndexOf(k, tile, t, ki, c);
  }

  /** `packed` is the row-tiled form of the [K, N] matrix `src`. */
  ghost predicate IsPacked(src: seq<real>, k: nat, n: nat, tile: nat, packed: seq<real>) {
    && tile > 0 && |src| == k * n && |packed| == k * n
    && forall ki: nat, j: nat :: ki < k && j < n ==>
         PackIndex(k, tile, ki, j) < |packed| && Idx(ki, n, j) < |src|
         && packed[PackIndex(k, tile, ki, j)] == src[Idx(ki, n, j)]
  }

  /** The first `p` positions of `out` hold their packed elements. */
  ghost predicate PackedBelow(src: seq<real>, k: nat, n: nat, tile: nat, out: seq<real>, p: nat) {
    && tile > 0 && |src| == k * n && |out| == k * n
    && forall x: nat :: x < p && x < |out| && k > 0 ==>
         PackSource(k, n, tile, x) < |src| && out[x] == src[PackSource(k, n, tile, x)]
  }

  /** The slice copied for (t, ki) puts each of its elements where packing wants it. */
  lemma PackSlice(src: seq<real>, k: nat, n: nat, tile: nat, tiles: nat, t: nat, ki: nat, out: seq<real>, x: nat)
    requires tile > 0 && n == tiles * tile && t < tiles && ki < k && |src| == k * n && |out| == k * n
    requires Times(Idx(t, k, ki), tile) <= x < Times(Idx(t, k, ki), tile) + tile
    ensures Times(Idx(t, k, ki), tile) + tile <= |out| && Idx(ki, n, Times(t, tile)) + tile <= |src|
    ensures PackSource(k, n, tile, x) < |src|
    ensures Splice(out, Times(Idx(t, k, ki), tile), src, Idx(ki, n, Times(t, tile)), tile)[x]
            == src[PackSource(k, n, tile, x)]
  {
    SliceFits(k, n, tile, tiles, t, ki);
    PackSourceOf(k, n, tile, t, ki, x - Times(Idx(t, k, ki), tile));
  }

  lemma PackStep(src: seq<real>, k: nat, n: nat, tile: nat, tiles: nat, t: nat, ki: nat, out: seq<real>)
    requires PackedBelow(src, k, n, tile, out, Times(Idx(t, k, ki), tile))
    requires n == tiles * tile && t < tiles && ki < k
    ensures Times(Idx(t, k, ki), tile) + tile <= |out| && Idx(ki, n, Times(t, tile)) + tile <= |src|
    ensures PackedBelow(src, k, n, tile, Splice(out, Times(Idx(t, k, ki), tile), src, Idx(ki, n, Times(t, tile)), tile),
                        Times(Idx(t, k, ki + 1), tile))
  {
    SliceFits(k, n, tile, tiles, t, ki);
    var p := Times(Idx(t, k, ki), tile);
    assert Times(Idx(t, k, ki + 1), tile) == p + tile by { Distrib(t * k + ki, 1, tile); }
    var out' := Splice(out, p, src, Idx(ki, n, Times(t, tile)), tile);
    forall x: nat | x < p + tile && x < |out'| && k > 0
      ensures PackSource(k, n, tile, x) < |src| && out'[x] == src[PackSource(k, n, tile, x)]
    {
      if x >= p { PackSlice(src, k, n, tile, tiles, t, ki, out, x); }
    }
  }

  method PackRowTiles(src: array<real>, k: nat, n: nat, tile: nat) returns (out: array<real>)
    requires tile > 0 && n % tile == 0 && src.Length == k * n
    ensures fresh(out) && IsPacked(src[..], k, n, tile, out[..])
  {
    var tiles := n / tile;
    TilesExact(n, tile);
    out := new real[src.Length](_ => 0.0);
    for t := 0 to tiles
      invariant PackedBelow(src[..], k, n, tile, out[..], Times(Idx(t, k, 0), tile))
    {
      for ki := 0 to k
        invariant PackedBelow(src[..], k, n, tile, out[..], Times(Idx(t, k, ki), tile))
      {
        PackStep(src[..], k, n, tile, tiles, t, ki, out[..]);
        CopySlice(out, Times(Idx(t, k, ki), tile), src, Idx(ki, n, Times(t, tile)), tile);
      }
      assert Idx(t, k, k) == Idx(t + 1, k, 0) by { Distrib(t, 1, k); }
    }
    assert tiles * k * tile == k * n by { Assoc(k, tiles, tile); }
    PackedFromPrefix(src[..], k, n, tile, tiles, out[..]);
  }

  lemma TilesExact(n: nat, tile: nat)
    requires tile > 0 && n % tile == 0
    ensures n / tile >= 0 && n == n / tile * tile
  {}

  lemma SliceFits(k: nat, n: nat, tile: nat, tiles: nat, t: nat, ki: nat)
    requires tile > 0 && n == tiles * tile && t < tiles && ki < k
    ensures Times(Idx(t, k, ki), tile) + tile <= k * n
    ensures Idx(ki, n, Times(t, tile)) + tile <= k * n
  {
    IdxBound(t, tiles, k, ki);
    GroupFits(t * k + ki, tiles * k, tile);
    assert tiles * k * tile == k * n by { Assoc(k, tiles, tile); }
    GroupFits(t, tiles, tile);
    GroupFits(ki, k, n);
  }

  lemma PackedFromPrefix(src: seq<real>, k: nat, n: nat, tile: nat, tiles: nat, out: seq<real>)
    requires n == tiles * tile && PackedBelow(src, k, n, tile, out, k * n)
    ensures IsPacked(src, k, n, tile, out)
  {
    forall ki: nat, j: nat | ki < k && j < n
      ensures PackIndex(k, tile, ki, j) < |out| && Idx(ki, n, j) < |src|
              && out[PackIndex(k, tile, ki, j)] == src[Idx(ki, n, j)]
    {
      PackThenSource(k, n, tile, tiles, ki, j);
      IdxBound(ki, k, n, j);
    }
  }
}
