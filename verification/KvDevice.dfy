/** What executing a resolved op list does to the device, symbolically. */
module KvDevice {
  import opened Arith
  import opened KvCache
  import opened KvOps
  import opened KvReference
  import opened Prelude
  import opened Strided

  // Activations, caches and the token cell hold symbolic values. An op whose operands
  // are not what it needs leaves Junk behind, so a list only computes something when
  // it is wired for it.

  /** How far through its MLP block a buffer of rows is. */
  datatype Stage = OutProjection | Middle | NormedMiddle | UpProjection | GateProjection | GatedProduct | DownProjection

  /** What an activation buffer holds, one row per stream of `xs`. */
  datatype Held =
    | Junk
    | Stream(xs: seq<Term>)
    | NormedStream(xs: seq<Term>, layer: nat)
    | Projections(xs: seq<Term>, layer: nat)
    | Queries(xs: seq<Term>, layer: nat, rope: Option<nat>, headMajor: bool)
    | KeyBuffer(xs: seq<Term>, layer: nat, rope: Option<nat>)
    | ValueBuffer(xs: seq<Term>, layer: nat)
    | ScoreRow(x: Term, layer: nat, pos: nat, keys: Cache)
    | WeightRow(x: Term, layer: nat, pos: nat, keys: Cache, valid: nat)
    | Attended(xs: seq<Term>, layer: nat, contexts: seq<seq<Term>>, headMajor: bool)
    | Inside(stage: Stage, xs: seq<Term>, layer: nat, contexts: seq<seq<Term>>)
    | LastRow(x: Term)
    | NormedLast(x: Term)
    | LogitRow(x: Term)
    | Merging(x: Term, layer: nat, context: seq<Term>)

  /** Activations by tensor, the caches by layer, the token cell and the prompt ids. */
  datatype Mem = Mem(kt: seq<Cache>, v: seq<Cache>, acts: map<Tensor, Held>, token: Tok, ids: seq<Tok>)

  function At(m: Mem, t: Tensor): Held { if t in m.acts then m.acts[t] else Junk }

  function Put(m: Mem, t: Tensor, held: Held): Mem { m.(acts := m.acts[t := held]) }

  function SetKt(m: Mem, l: nat, cache: Cache): Mem
    requires l < |m.kt|
  { m.(kt := m.kt[l := cache]) }

  function SetV(m: Mem, l: nat, cache: Cache): Mem
    requires l < |m.v|
  { m.(v := m.v[l := cache]) }

  // ---- Matrix products ---------------------------------------------------

  /** A decode projection reads one residual row through the layer's packed weights,
      with the attention norm folded in. */
  predicate RowGemv(a: Held, l: nat, packed: bool, norm: Option<Tensor>, epilogue: Epilogue) {
    a.Stream? && |a.xs| == 1 && packed && norm == Some(LayerWeight(l, AttnNorm)) && epilogue.Plain?
  }

  /** The rows of one MLP stage of layer `l`. */
  predicate AtStage(a: Held, stage: Stage, l: nat) {
    a.Inside? && a.stage == stage && a.layer == l && |a.contexts| == |a.xs|
  }

  function Staged(a: Held, stage: Stage): Held
    requires a.Inside?
  { Inside(stage, a.xs, a.layer, a.contexts) }

  /** The residual stream that leaves a layer. */
  function Leaving(a: Held): Held
    requires a.Inside? && |a.contexts| == |a.xs|
  { Stream(Blocks(a.layer, a.xs, a.contexts)) }

  function OutProduct(l: nat, a: Held, epilogue: Epilogue, d: Held): Held {
    if !(a.Attended? && a.layer == l && (!a.headMajor || |a.xs| == 1) && |a.contexts| == |a.xs|) then Junk
    else
      match epilogue
      case Plain => Inside(OutProjection, a.xs, l, a.contexts)
      case AddTo(_) => if d == Stream(a.xs) then Inside(Middle, a.xs, l, a.contexts) else Junk
      case SiluTimes(_) => Junk
  }

  /** The up and gate products; a packed one folds the FFN norm in. */
  function FfnProduct(l: nat, a: Held, folded: bool, up: bool, epilogue: Epilogue, d: Held): Held {
    if !AtStage(a, if folded then Middle else NormedMiddle, l) then Junk
    else if up then (if epilogue.Plain? then Staged(a, UpProjection) else Junk)
    else
      match epilogue
      case Plain => Staged(a, GateProjection)
      case SiluTimes(_) => if d == Staged(a, UpProjection) then Staged(a, GatedProduct) else Junk
      case AddTo(_) => Junk
  }

  function DownProduct(l: nat, a: Held, epilogue: Epilogue, d: Held): Held {
    if !AtStage(a, GatedProduct, l) then Junk
    else
      match epilogue
      case Plain => Staged(a, DownProjection)
      case AddTo(_) => if d == Staged(a, Middle) then Leaving(a) else Junk
      case SiluTimes(_) => Junk
  }

  function LayerProduct(w: Weight, l: nat, a: Held, packed: bool, norm: Option<Tensor>, epilogue: Epilogue,
                        d: Held): Held
  {
    var plain := !packed && norm.None?;
    var folded := packed && norm == Some(LayerWeight(l, FfnNorm));
    match w
    case WQkv =>
      if plain && epilogue.Plain? && a.NormedStream? && a.layer == l then Projections(a.xs, l) else Junk
    case Wo => if plain then OutProduct(l, a, epilogue, d) else Junk
    case WUp => if plain then FfnProduct(l, a, false, true, epilogue, d) else Junk
    case WUpP => if folded then FfnProduct(l, a, true, true, epilogue, d) else Junk
    case WGate => if plain then FfnProduct(l, a, false, false, epilogue, d) else Junk
    case WGateP => if folded then FfnProduct(l, a, true, false, epilogue, d) else Junk
    case WDown => if plain then DownProduct(l, a, epilogue, d) else Junk
    case _ => Junk
  }

  /** Attention of rows base, base + 1, .. over the positions up to their own. */
  function Attend(cfg: Config, kt: Cache, v: Cache, layer: nat, xs: seq<Term>, base: nat, headMajor: bool): Held {
    var n := base + |xs|;
    if Coherent(cfg, kt, v, layer, n)
    then Attended(xs, layer, Causal(Context(cfg, kt, n), base, |xs|), headMajor) else Junk
  }

  /** Composed attention: scores against the whole key cache, then values by weight. */
  function ScoreProduct(a: Held, l: nat, kt: Cache): Held {
    if a.Queries? && a.layer == l && |a.xs| == 1 && a.rope.Some? then ScoreRow(a.xs[0], l, a.rope.value, kt) else Junk
  }

  function WeightProduct(cfg: Config, a: Held, l: nat, v: Cache): Held {
    if a.WeightRow? && a.layer == l && a.valid == a.pos + 1
    then Attend(cfg, a.keys, v, l, [a.x], a.pos, false) else Junk
  }

  function HeadProduct(a: Held, packedHead: bool, packed: bool, norm: Option<Tensor>, epilogue: Epilogue): Held {
    if packedHead then
      if packed && norm == Some(OutputNorm) && epilogue.Plain? && a.Stream? && |a.xs| == 1
      then LogitRow(a.xs[0]) else Junk
    else
      if !packed && norm.None? && epilogue.Plain? && a.NormedLast? then LogitRow(a.x) else Junk
  }

  /** What a product without a fused store leaves in its output. */
  function Product(cfg: Config, m: Mem, a: Held, b: Tensor, packed: bool, norm: Option<Tensor>,
                   epilogue: Epilogue): Held
  {
    var d := if epilogue.Plain? then Junk else At(m, epilogue.d);
    match b
    case LayerWeight(l, w) => LayerProduct(w, l, a, packed, norm, epilogue, d)
    case LmHead => HeadProduct(a, false, packed, norm, epilogue)
    case LmHeadP => HeadProduct(a, true, packed, norm, epilogue)
    case KtCache(l) =>
      if l < |m.kt| && !packed && norm.None? && epilogue.Plain? then ScoreProduct(a, l, m.kt[l]) else Junk
    case VCache(l) =>
      if l < |m.v| && !packed && norm.None? && epilogue.Plain? then WeightProduct(cfg, a, l, m.v[l]) else Junk
    case _ => Junk
  }

  /** The elements a decode key projection stores, by output column. */
  function KeyColumn(a: Held, b: Tensor, gemv: bool, pos: nat): nat -> Elem {
    (c: nat) =>
      if gemv && b.LayerWeight? && b.weight.WkP? && a.Stream? && |a.xs| == 1
      then Key(a.xs[0], b.layer, c, pos) else Other
  }

  function ValueColumn(a: Held, b: Tensor, gemv: bool): nat -> Elem {
    (c: nat) =>
      if gemv && b.LayerWeight? && b.weight.WvP? && a.Stream? && |a.xs| == 1
      then Value(a.xs[0], b.layer, c) else Other
  }

  function ApplyMatmul(cfg: Config, a: Tensor, b: Tensor, c: Tensor, packed: bool, norm: Option<Tensor>,
                       epilogue: Epilogue, store: Store, m: Mem): Mem
  {
    var held := At(m, a);
    var gemv := b.LayerWeight? && RowGemv(held, b.layer, packed, norm, epilogue);
    match store
    case NoStore => Put(m, c, Product(cfg, m, held, b, packed, norm, epilogue))
    case RopeStore(desc) =>
      Put(m, c, if gemv && b.weight.WqP? && desc.headDim == cfg.dh && desc.posAddr == 0
                then Queries(held.xs, b.layer, Some(desc.posBase), false) else Junk)
    case RopeScatterStore(KtCache(l), desc) =>
      if l < |m.kt| && desc.headDim > 0
      then
        var rotated := gemv && desc.headDim == cfg.dh && desc.posAddr == 0;
        SetKt(m, l, StoreRow(cfg, m.kt[l], desc, KeyColumn(held, b, rotated, desc.posBase)))
      else m
    case ScatterStore(VCache(l), desc) =>
      if l < |m.v| && desc.headDim > 0
      then SetV(m, l, StoreRow(cfg, m.v[l], desc, ValueColumn(held, b, gemv && desc.posAddr == 0))) else m
    case ScatterStore(dst, _) => Put(m, dst, Junk)
    case RopeScatterStore(dst, _) => Put(m, dst, Junk)
  }

  // ---- Copies, rotations and attention -----------------------------------

  /** Source element `i` of a buffer of key rows. */
  function KeySource(cfg: Config, held: Held): nat -> Elem {
    var width := cfg.KvDim();
    (i: nat) =>
      if held.KeyBuffer? && held.rope.Some? && width > 0 && Quot(i, width) < |held.xs|
      then Key(held.xs[Quot(i, width)], held.layer, Rem(i, width), held.rope.value + Quot(i, width)) else Other
  }

  function ValueSource(cfg: Config, held: Held): nat -> Elem {
    var width := cfg.KvDim();
    (i: nat) =>
      if held.ValueBuffer? && width > 0 && Quot(i, width) < |held.xs|
      then Value(held.xs[Quot(i, width)], held.layer, Rem(i, width)) else Other
  }

  // A copy means what it addresses: which source element goes to which destination.

  predicate MovesTo(copy: CopyDesc, x: nat, y: nat, z: nat, src: nat, dst: nat) {
    Address(copy.srcOffset, copy.srcStrides, x, y, z) == src && Address(copy.dstOffset, copy.dstStrides, x, y, z) == dst
  }

  /** Row `row` of a matrix, alone. */
  predicate MovesRow(copy: CopyDesc, width: nat, row: nat) {
    copy.extent == Vec3(width, 1, 1) && forall x: nat :: x < width ==> MovesTo(copy, x, 0, 0, Idx(row, width, x), x)
  }

  /** Columns first .. first + width of a [rows, n] matrix. */
  predicate MovesColumns(copy: CopyDesc, first: nat, width: nat, rows: nat, n: nat) {
    && copy.extent == Vec3(width, rows, 1)
    && forall x: nat, y: nat :: x < width && y < rows ==> MovesTo(copy, x, y, 0, Idx(y, n, first + x), Idx(y, width, x))
  }

  /** Element (token, head, lane) of `t` rows in the two orders. */
  function TokenMajor(cfg: Config, tk: nat, h: nat, d: nat): nat {
    Idx(tk, Times(cfg.heads, cfg.dh), Idx(h, cfg.dh, d))
  }
  function HeadMajor(cfg: Config, t: nat, tk: nat, h: nat, d: nat): nat { Idx(Idx(h, t, tk), cfg.dh, d) }

  predicate MovesToHeads(cfg: Config, copy: CopyDesc, t: nat) {
    && copy.extent == Vec3(cfg.dh, t, cfg.heads)
    && forall d: nat, tk: nat, h: nat :: d < cfg.dh && tk < t && h < cfg.heads ==>
         MovesTo(copy, d, tk, h, TokenMajor(cfg, tk, h, d), HeadMajor(cfg, t, tk, h, d))
  }

  predicate MovesFromHeads(cfg: Config, copy: CopyDesc, t: nat) {
    && copy.extent == Vec3(cfg.dh, t, cfg.heads)
    && forall d: nat, tk: nat, h: nat :: d < cfg.dh && tk < t && h < cfg.heads ==>
         MovesTo(copy, d, tk, h, HeadMajor(cfg, t, tk, h, d), TokenMajor(cfg, tk, h, d))
  }

  /** Rows keep their contents under the copies between token-major and head-major
      order; a single row is the same in both. */
  function MovedHeadMajor(cfg: Config, copy: CopyDesc, rows: nat, headMajor: bool): Option<bool> {
    if rows == 1 then
      if MovesRow(copy, cfg.embd, 0) || MovesToHeads(cfg, copy, 1) || MovesFromHeads(cfg, copy, 1)
      then Some(false) else None
    else if !headMajor && MovesToHeads(cfg, copy, rows) then Some(true)
    else if headMajor && MovesFromHeads(cfg, copy, rows) then Some(false)
    else None
  }

  function Moved(cfg: Config, held: Held, copy: CopyDesc): Held {
    match held
    case Queries(xs, l, rope, headMajor) =>
      var moved := MovedHeadMajor(cfg, copy, |xs|, headMajor);
      if moved.Some? then Queries(xs, l, rope, moved.value) else Junk
    case Attended(xs, l, contexts, headMajor) =>
      var moved := MovedHeadMajor(cfg, copy, |xs|, headMajor);
      if moved.Some? then Attended(xs, l, contexts, moved.value) else Junk
    case Stream(xs) => if |xs| > 0 && MovesRow(copy, cfg.embd, |xs| - 1) then LastRow(xs[|xs| - 1]) else Junk
    case _ => Junk
  }

  /** The columns of the concatenated projections that go to each of Q, K and V. */
  function SplitOff(cfg: Config, held: Held, buf: Buf, copy: CopyDesc): Held
    requires held.Projections?
  {
    var xs, l, n, kvDim := held.xs, held.layer, cfg.embd + 2 * cfg.KvDim(), cfg.KvDim();
    match buf
    case Q => if MovesColumns(copy, 0, cfg.embd, |xs|, n) then Queries(xs, l, None, false) else Junk
    case K => if MovesColumns(copy, cfg.embd, kvDim, |xs|, n) then KeyBuffer(xs, l, None) else Junk
    case V => if MovesColumns(copy, cfg.embd + kvDim, kvDim, |xs|, n) then ValueBuffer(xs, l) else Junk
    case _ => Junk
  }

  lemma StraightMoves(len: nat)
    ensures MovesRow(Straight(len), len, 0)
  {}

  lemma LastCopyMoves(embd: nat, t: nat)
    requires t > 0
    ensures MovesRow(LastCopy(embd, t), embd, t - 1)
  {}

  lemma SplitCopyMoves(first: nat, width: nat, t: nat, n: nat)
    ensures MovesColumns(SplitCopy(first, width, t, n), first, width, t, n)
  {}

  lemma HeadMajorAddress(cfg: Config, t: nat, tk: nat, h: nat, d: nat)
    ensures HeadMajor(cfg, t, tk, h, d) == Times(d, 1) + Times(tk, cfg.dh) + Times(h, Times(t, cfg.dh))
  {
    Distrib(h * t, tk, cfg.dh);
    Assoc(h, t, cfg.dh);
  }

  lemma ToHeadsMoves(cfg: Config, t: nat)
    ensures MovesToHeads(cfg, ToHeads(cfg, t), t)
  {
    forall d: nat, tk: nat, h: nat | d < cfg.dh && tk < t && h < cfg.heads
      ensures MovesTo(ToHeads(cfg, t), d, tk, h, TokenMajor(cfg, tk, h, d), HeadMajor(cfg, t, tk, h, d))
    {
      HeadMajorAddress(cfg, t, tk, h, d);
    }
  }

  lemma FromHeadsMoves(cfg: Config, t: nat)
    ensures MovesFromHeads(cfg, FromHeads(cfg, t), t)
  {
    forall d: nat, tk: nat, h: nat | d < cfg.dh && tk < t && h < cfg.heads
      ensures MovesTo(FromHeads(cfg, t), d, tk, h, HeadMajor(cfg, t, tk, h, d), TokenMajor(cfg, tk, h, d))
    {
      HeadMajorAddress(cfg, t, tk, h, d);
    }
  }

  function ApplyCopy(cfg: Config, src: Tensor, dst: Tensor, copy: CopyDesc, m: Mem): Mem {
    var held := At(m, src);
    match dst
    case KtCache(l) =>
      if l < |m.kt| && copy.extent.x > 0 && copy.extent.y > 0
      then SetKt(m, l, CopyRows(m.kt[l], copy, KeySource(cfg, held))) else m
    case VCache(l) =>
      if l < |m.v| && copy.extent.x > 0 && copy.extent.y > 0
      then SetV(m, l, CopyRows(m.v[l], copy, ValueSource(cfg, held))) else m
    case Of(_, buf) => Put(m, dst, if held.Projections? then SplitOff(cfg, held, buf, copy) else Moved(cfg, held, copy))
    case _ => Put(m, dst, Junk)
  }

  function Rotated(cfg: Config, held: Held, heads: nat, base: nat): Held {
    match held
    case Queries(xs, l, None, headMajor) => if heads == cfg.heads then Queries(xs, l, Some(base), headMajor) else Junk
    case KeyBuffer(xs, l, None) => if heads == cfg.kv then KeyBuffer(xs, l, Some(base)) else Junk
    case _ => Junk
  }

  function NormedBy(held: Held, weight: Tensor): Held {
    match weight
    case LayerWeight(l, AttnNorm) => if held.Stream? then NormedStream(held.xs, l) else Junk
    case LayerWeight(l, FfnNorm) => if AtStage(held, Middle, l) then Staged(held, NormedMiddle) else Junk
    case OutputNorm => if held.LastRow? then NormedLast(held.x) else Junk
    case _ => Junk
  }

  function Added(x: Held, y: Held): Held {
    if x.Inside? && x.stage == OutProjection && y == Stream(x.xs) then Staged(x, Middle)
    else if x.Inside? && x.stage == DownProjection && y == Staged(x, Middle) && |x.contexts| == |x.xs| then Leaving(x)
    else Junk
  }

  function Gated(x: Held, y: Held): Held {
    if x.Inside? && x.stage == GateProjection && y == Staged(x, UpProjection) then Staged(x, GatedProduct) else Junk
  }

  /** The fused pack, as documented: rotated queries head by head, rotated keys and
      plain values into the layouts of the separate appends. */
  function ApplyPack(cfg: Config, qkv: Tensor, q: Tensor, kt: Tensor, v: Tensor, base: nat, m: Mem): Mem {
    var held := At(m, qkv);
    if held.Projections? && cfg.dh > 0 && cfg.kv > 0
       && kt.KtCache? && v.VCache? && kt.layer < |m.kt| && v.layer < |m.v|
    then
      var t, l := |held.xs|, held.layer;
      SetV(SetKt(Put(m, q, Queries(held.xs, l, Some(base), true)),
                 kt.layer, CopyRows(m.kt[kt.layer], KtAppend(cfg, t, base),
                                    KeySource(cfg, KeyBuffer(held.xs, l, Some(base))))),
           v.layer, CopyRows(m.v[v.layer], VAppend(cfg, t, base), ValueSource(cfg, ValueBuffer(held.xs, l))))
    else Put(m, q, Junk)
  }

  // Decode attention takes two dispatches: one workgroup per chunk of the positions leaves a
  // partial softmax, then the partials are merged. Merging is exact, so partials stand for
  // the positions they were made from.

  function ChunkSize(kvLen: nat, chunks: nat): nat
    requires chunks > 0
  { DivCeil(kvLen, chunks) }

  /** The first position of chunk `c`, and the position after its last. */
  function ChunkStart(kvLen: nat, chunks: nat, c: nat): nat
    requires chunks > 0
  { Times(c, ChunkSize(kvLen, chunks)) }

  function ChunkEnd(kvLen: nat, chunks: nat, c: nat): (end: nat)
    requires chunks > 0
    ensures end <= kvLen
  {
    var end := ChunkStart(kvLen, chunks, c) + ChunkSize(kvLen, chunks);
    if end < kvLen then end else kvLen
  }

  function Slice(xs: seq<Term>, from: nat, end: nat): seq<Term>
    requires end <= |xs|
  { if from < end then xs[from..end] else [] }

  /** What the first `n` chunks read of the positions xs, in order. */
  function Covered(xs: seq<Term>, chunks: nat, n: nat): seq<Term>
    requires chunks > 0
  {
    if n == 0 then []
    else Covered(xs, chunks, n - 1) + Slice(xs, ChunkStart(|xs|, chunks, n - 1), ChunkEnd(|xs|, chunks, n - 1))
  }

  lemma {:induction false} CoveredPrefix(xs: seq<Term>, chunks: nat, n: nat)
    requires chunks > 0
    ensures var end := ChunkStart(|xs|, chunks, n);
            Covered(xs, chunks, n) == if end < |xs| then xs[..end] else xs
  {
    if n > 0 {
      CoveredPrefix(xs, chunks, n - 1);
      NextStart(|xs|, chunks, n - 1);
      SlicesJoin(xs, ChunkStart(|xs|, chunks, n - 1), ChunkEnd(|xs|, chunks, n - 1));
    }
  }

  lemma NextStart(kvLen: nat, chunks: nat, c: nat)
    requires chunks > 0
    ensures ChunkStart(kvLen, chunks, c + 1) == ChunkStart(kvLen, chunks, c) + ChunkSize(kvLen, chunks)
  {
    Distrib(c, 1, ChunkSize(kvLen, chunks));
  }

  lemma SlicesJoin(xs: seq<Term>, from: nat, end: nat)
    requires end <= |xs|
    ensures from <= end ==> xs[..from] + Slice(xs, from, end) == xs[..end]
    ensures from >= |xs| ==> Slice(xs, from, end) == []
  {}

  lemma SizesSuffice(kvLen: nat, chunks: nat)
    requires chunks > 0
    ensures ChunkStart(kvLen, chunks, chunks) >= kvLen
  {
    DivModBounds(kvLen + chunks - 1, chunks, kvLen + chunks);
  }

  /** Any number of chunks covers every position exactly once, in order; chunks past the
      end are empty. */
  lemma ChunksCover(xs: seq<Term>, chunks: nat)
    requires chunks > 0
    ensures Covered(xs, chunks, chunks) == xs
  {
    CoveredPrefix(xs, chunks, chunks);
    SizesSuffice(|xs|, chunks);
  }

  predicate InChunk(kvLen: nat, chunks: nat, c: nat, p: nat)
    requires chunks > 0
  { c < chunks && ChunkStart(kvLen, chunks, c) <= p < ChunkEnd(kvLen, chunks, c) }

  /** Every cell that some chunk reads holds what it should. */
  predicate ChunksCoherent(cfg: Config, kt: Cache, v: Cache, layer: nat, kvLen: nat, chunks: nat)
    requires chunks > 0
  {
    kvLen <= cfg.tMax
    && forall c: nat, p: nat :: c < chunks && p < kvLen && InChunk(kvLen, chunks, c, p) ==>
         forall h: nat, d: nat :: h < cfg.kv && d < cfg.dh ==> CellAgrees(cfg, kt, v, layer, h, d, p)
  }

  lemma ChunkOf(kvLen: nat, chunks: nat, p: nat) returns (c: nat)
    requires chunks > 0 && p < kvLen
    ensures InChunk(kvLen, chunks, c, p)
  {
    var size := ChunkSize(kvLen, chunks);
    SizesSuffice(kvLen, chunks);
    assert size > 0;
    c := Quot(p, size);
    DivModBounds(p, size, chunks);
  }

  lemma ChunksCoherentIff(cfg: Config, kt: Cache, v: Cache, layer: nat, kvLen: nat, chunks: nat)
    requires chunks > 0
    ensures ChunksCoherent(cfg, kt, v, layer, kvLen, chunks) <==> Coherent(cfg, kt, v, layer, kvLen)
  {
    if ChunksCoherent(cfg, kt, v, layer, kvLen, chunks) {
      forall h: nat, d: nat, p: nat | h < cfg.kv && d < cfg.dh && p < kvLen
        ensures CellAgrees(cfg, kt, v, layer, h, d, p)
      {
        var c := ChunkOf(kvLen, chunks, p);
      }
    }
  }

  /** One row over the caches of its layer, rotated by the last of the positions it reads. */
  predicate AttendsRow(q: Held, kt: Tensor, v: Tensor, kvLen: nat, m: Mem) {
    && kt.KtCache? && v.VCache? && kt.layer < |m.kt| && v.layer < |m.v| && q.Queries? && |q.xs| == 1
    && q.layer == kt.layer == v.layer && q.rope.Some? && q.rope.value + 1 == kvLen
  }

  /** Stage 1: the partials of every chunk. */
  function ChunkedAttention(cfg: Config, q: Held, kt: Tensor, v: Tensor, kvLen: nat, chunks: nat, m: Mem): Held {
    if AttendsRow(q, kt, v, kvLen, m) && chunks > 0
       && ChunksCoherent(cfg, m.kt[kt.layer], m.v[v.layer], q.layer, kvLen, chunks)
    then Merging(q.xs[0], q.layer, Covered(Context(cfg, m.kt[kt.layer], kvLen), chunks, chunks)) else Junk
  }

  /** Stage 2. */
  function MergedChunks(partials: Held): Held {
    if partials.Merging? then Attended([partials.x], partials.layer, [partials.context], false) else Junk
  }

  /** Whatever the chunk count, the merged chunks are attention over the whole prefix. */
  lemma ChunkedIsWhole(cfg: Config, q: Held, kt: Tensor, v: Tensor, kvLen: nat, chunks: nat, m: Mem)
    requires chunks > 0
    ensures ChunkedAttention(cfg, q, kt, v, kvLen, chunks, m)
            == if AttendsRow(q, kt, v, kvLen, m) && Coherent(cfg, m.kt[kt.layer], m.v[v.layer], q.layer, kvLen)
               then Merging(q.xs[0], q.layer, Context(cfg, m.kt[kt.layer], kvLen)) else Junk
  {
    if AttendsRow(q, kt, v, kvLen, m) {
      ChunksCoherentIff(cfg, m.kt[kt.layer], m.v[v.layer], q.layer, kvLen, chunks);
      ChunksCover(Context(cfg, m.kt[kt.layer], kvLen), chunks);
    }
  }

  /** Flash attention: causal rows from posBase on, in the row order it is told. */
  function FlashAttention(cfg: Config, q: Held, kt: Tensor, v: Tensor, kvLen: nat, base: nat,
                          tokenMajorQ: bool, tokenMajorOut: bool, m: Mem): Held
  {
    if kt.KtCache? && v.VCache? && kt.layer < |m.kt| && v.layer < |m.v| && q.Queries?
       && q.layer == kt.layer == v.layer && q.rope == Some(base) && kvLen == base + |q.xs|
       && (|q.xs| == 1 || q.headMajor == !tokenMajorQ)
    then Attend(cfg, m.kt[kt.layer], m.v[v.layer], q.layer, q.xs, base, !tokenMajorQ && !tokenMajorOut) else Junk
  }

  // ---- Ops and lists -----------------------------------------------------

  function Apply(cfg: Config, op: Op, m: Mem): Mem {
    match op
    case Matmul(a, b, c, packed, norm, epilogue, store) => ApplyMatmul(cfg, a, b, c, packed, norm, epilogue, store, m)
    case AttnDecode(q, kt, v, partials, out, kvLen, _, chunks) =>
      var merging := ChunkedAttention(cfg, At(m, q), kt, v, kvLen, chunks, m);
      Put(Put(m, partials, merging), out, MergedChunks(merging))
    case SoftmaxPrefix(scores, valid) =>
      var held := At(m, scores);
      Put(m, scores, if held.ScoreRow? then WeightRow(held.x, held.layer, held.pos, held.keys, valid) else Junk)
    case RmsNorm(input, weight, output) => Put(m, output, NormedBy(At(m, input), weight))
    case AddScaled(x, y, out) => Put(m, out, Added(At(m, x), At(m, y)))
    case SiluMul(x, y, out) => Put(m, out, Gated(At(m, x), At(m, y)))
    case CopyStrided(src, dst, copy) => ApplyCopy(cfg, src, dst, copy, m)
    case Rope(input, output, heads, base) => Put(m, output, Rotated(cfg, At(m, input), heads, base))
    case PrefillQkvPack(qkv, q, kt, v, base) => ApplyPack(cfg, qkv, q, kt, v, base, m)
    case FlashAttn(q, kt, v, out, kvLen, base, tokenMajorQ, tokenMajorOut) =>
      Put(m, out, FlashAttention(cfg, At(m, q), kt, v, kvLen, base, tokenMajorQ, tokenMajorOut, m))
    case EmbedGatherRows(tokens, out) => Put(m, out, if tokens.TokenIds? then Stream(EmbedAll(m.ids)) else Junk)
    case EmbedGather(token, out) => Put(m, out, if token.TokenBuf? then Stream([Embed(m.token)]) else Junk)
    case Argmax(input, result) =>
      if result.TokenBuf? then m.(token := if At(m, input).LogitRow? then Greedy(At(m, input).x) else Unset) else m
  }

  function Exec(cfg: Config, ops: seq<Op>, n: nat, m: Mem): Mem
    requires n <= |ops|
  {
    if n == 0 then m else Apply(cfg, ops[n - 1], Exec(cfg, ops, n - 1, m))
  }

  function Run(cfg: Config, ops: seq<Op>, m: Mem): Mem { Exec(cfg, ops, |ops|, m) }

  /** The same op on the same memory. */
  lemma ExecAgree(cfg: Config, a: seq<Op>, i: nat, m: Mem, b: seq<Op>, j: nat, m': Mem)
    requires 0 < i <= |a| && 0 < j <= |b| && a[i - 1] == b[j - 1] && Exec(cfg, a, i - 1, m) == Exec(cfg, b, j - 1, m')
    ensures Exec(cfg, a, i, m) == Exec(cfg, b, j, m')
  {}

  lemma {:induction false} ExecPrefix(cfg: Config, a: seq<Op>, b: seq<Op>, n: nat, m: Mem)
    requires n <= |a|
    ensures Exec(cfg, a + b, n, m) == Exec(cfg, a, n, m)
  {
    if n > 0 {
      ExecPrefix(cfg, a, b, n - 1, m);
      assert (a + b)[n - 1] == a[n - 1];
      ExecAgree(cfg, a + b, n, m, a, n, m);
    }
  }

  lemma {:induction false} ExecSuffix(cfg: Config, a: seq<Op>, b: seq<Op>, n: nat, m: Mem)
    requires n <= |b|
    ensures Exec(cfg, a + b, |a| + n, m) == Exec(cfg, b, n, Run(cfg, a, m))
  {
    if n == 0 {
      ExecPrefix(cfg, a, b, |a|, m);
    } else {
      ExecSuffix(cfg, a, b, n - 1, m);
      assert (a + b)[|a| + n - 1] == b[n - 1];
      ExecAgree(cfg, a + b, |a| + n, m, b, n, Run(cfg, a, m));
    }
  }

  lemma RunAppend(cfg: Config, a: seq<Op>, b: seq<Op>, m: Mem)
    ensures Run(cfg, a + b, m) == Run(cfg, b, Run(cfg, a, m))
  {
    ExecSuffix(cfg, a, b, |b|, m);
  }

  lemma RunOne(cfg: Config, op: Op, m: Mem)
    ensures Run(cfg, [op], m) == Apply(cfg, op, m)
  {
    assert Exec(cfg, [op], 0, m) == m;
  }

  lemma RunTwo(cfg: Config, first: Op, second: Op, m: Mem)
    ensures Run(cfg, [first, second], m) == Apply(cfg, second, Apply(cfg, first, m))
  {
    RunOne(cfg, first, m);
    RunOne(cfg, second, Run(cfg, [first], m));
    RunAppend(cfg, [first], [second], m);
    assert [first, second] == [first] + [second];
  }

  lemma RunThree(cfg: Config, first: Op, second: Op, third: Op, m: Mem)
    ensures Run(cfg, [first, second, third], m) == Apply(cfg, third, Apply(cfg, second, Apply(cfg, first, m)))
  {
    RunTwo(cfg, first, second, m);
    RunOne(cfg, third, Run(cfg, [first, second], m));
    RunAppend(cfg, [first, second], [third], m);
    assert [first, second, third] == [first, second] + [third];
  }

  lemma RunFour(cfg: Config, first: Op, second: Op, third: Op, fourth: Op, m: Mem)
    ensures Run(cfg, [first, second, third, fourth], m)
            == Apply(cfg, fourth, Apply(cfg, third, Apply(cfg, second, Apply(cfg, first, m))))
  {
    RunTwo(cfg, first, second, m);
    RunTwo(cfg, third, fourth, Run(cfg, [first, second], m));
    RunAppend(cfg, [first, second], [third, fourth], m);
    assert [first, second, third, fourth] == [first, second] + [third, fourth];
  }

  lemma OneGridDoesNotMatter(cfg: Config, a: Op, b: Op, m: Mem)
    requires a.AttnDecode? && b.AttnDecode? && a.(chunks := b.chunks) == b && a.chunks > 0 && b.chunks > 0
    ensures Apply(cfg, a, m) == Apply(cfg, b, m)
  {
    ChunkedIsWhole(cfg, At(m, a.q), a.kt, a.v, a.kvLen, a.chunks, m);
    ChunkedIsWhole(cfg, At(m, a.q), a.kt, a.v, a.kvLen, b.chunks, m);
  }

  /** The chunk counts of decode attention do not matter. */
  lemma {:induction false} GridDoesNotMatter(cfg: Config, a: seq<Op>, b: seq<Op>, n: nat, m: Mem)
    requires SameButGrid(a, b) && n <= |a|
    ensures Exec(cfg, a, n, m) == Exec(cfg, b, n, m)
  {
    if n > 0 {
      GridDoesNotMatter(cfg, a, b, n - 1, m);
      var before := Exec(cfg, a, n - 1, m);
      if a[n - 1] != b[n - 1] { OneGridDoesNotMatter(cfg, a[n - 1], b[n - 1], before); }
    }
  }
}
