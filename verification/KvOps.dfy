/** The op lists a decode step and a prefill record, and how a recording resolves
    the position cell when it is replayed. */
module KvOps {
  import opened Prelude
  import opened Arith
  import opened Strided

  /** Model geometry; `addr` is the device address of the position cell. */
  datatype Config = Config(layers: nat, embd: nat, heads: nat, kv: nat, dh: nat, tMax: nat, kvF16: bool, addr: nat)
  {
    /** heads, kv heads and head length are positive and the cell has an address. */
    predicate Valid() { kv > 0 && dh > 0 && heads > 0 && addr != 0 }

    function KvDim(): nat { kv * dh }
  }

  /** One width of scratch activations. Decode's is permanent; a prefill scratch is
      reallocated when the width changes, which gives it a new generation. */
  datatype Scratch = DecodeScratch | PrefillScratch(t: nat, actF16: bool, generation: nat)
  {
    function Width(): nat { if DecodeScratch? then 1 else t }
  }

  datatype Buf = XA | XB | Xn | Q | K | V | Qkv | QHeads | AttnHeads | Scores | Partials | QFlash | AttnFlash
    | AttnFlat | O | On | Up | Gate | Last | LastN | Logits

  datatype Weight = WQkv | WqP | WkP | WvP | Wo | WGate | WUp | WDown | WGateP | WUpP | AttnNorm | FfnNorm

  /** Tensors by identity. The GQA views of q and of the attention output share the
      memory of Q and AttnFlat and are named by them. */
  datatype Tensor =
    | Of(scratch: Scratch, buf: Buf)
    | LayerWeight(layer: nat, weight: Weight)
    | KtCache(layer: nat)
    | VCache(layer: nat)
    | EmbdGpu | OutputNorm | LmHead | LmHeadP | RopeTable | TokenBuf | TokenIds

  datatype StoreDesc = StoreDesc(headDim: nat, posBase: nat, posScale: nat, strideHead: nat, strideDim: nat,
                                 posAddr: nat)

  datatype Store =
    | NoStore
    | RopeStore(desc: StoreDesc)
    | ScatterStore(dst: Tensor, desc: StoreDesc)
    | RopeScatterStore(dst: Tensor, desc: StoreDesc)

  datatype Epilogue = Plain | AddTo(d: Tensor) | SiluTimes(d: Tensor)

  datatype Op =
    | Matmul(a: Tensor, b: Tensor, c: Tensor, packed: bool, norm: Option<Tensor>, epilogue: Epilogue, store: Store)
    | AttnDecode(q: Tensor, kt: Tensor, v: Tensor, partials: Tensor, out: Tensor, kvLen: nat, posAddr: nat, chunks: nat)
    | SoftmaxPrefix(scores: Tensor, valid: nat)
    | RmsNorm(input: Tensor, weight: Tensor, output: Tensor)
    | AddScaled(x: Tensor, y: Tensor, out: Tensor)
    | SiluMul(x: Tensor, y: Tensor, out: Tensor)
    | CopyStrided(src: Tensor, dst: Tensor, copy: CopyDesc)
    | Rope(input: Tensor, output: Tensor, ropeHeads: nat, posBase: nat)
    | PrefillQkvPack(qkv: Tensor, q: Tensor, kt: Tensor, v: Tensor, posBase: nat)
    | FlashAttn(q: Tensor, kt: Tensor, v: Tensor, out: Tensor, kvLen: nat, posBase: nat, tokenMajorQ: bool,
                tokenMajorOut: bool)
    | EmbedGatherRows(tokens: Tensor, out: Tensor)
    | EmbedGather(token: Tensor, out: Tensor)
    | Argmax(input: Tensor, result: Tensor)

  /** The first `n` lists one after the other. */
  function Flat(parts: seq<seq<Op>>, n: nat): seq<Op>
    requires n <= |parts|
  {
    if n == 0 then [] else Flat(parts, n - 1) + parts[n - 1]
  }

  // ---- Decode ------------------------------------------------------------

  function MatmulOf(a: Tensor, b: Tensor, c: Tensor): Op { Matmul(a, b, c, false, None, Plain, NoStore) }

  /** The position baked into a descriptor: zero when the cell supplies it. */
  function Base(pos: nat, posAddr: nat): nat { if posAddr == 0 then pos else 0 }

  function QkvDecodeOps(cfg: Config, layer: nat, xIn: Tensor, pos: nat, posAddr: nat): seq<Op> {
    var s := DecodeScratch;
    var base := Base(pos, posAddr);
    var norm := Some(LayerWeight(layer, AttnNorm));
    [ Matmul(xIn, LayerWeight(layer, WqP), Of(s, Q), true, norm, Plain,
             RopeStore(StoreDesc(cfg.dh, base, 0, 0, 0, posAddr))),
      Matmul(xIn, LayerWeight(layer, WkP), Of(s, K), true, norm, Plain,
             RopeScatterStore(KtCache(layer), StoreDesc(cfg.dh, base, 1, cfg.dh * cfg.tMax, cfg.tMax, posAddr))),
      Matmul(xIn, LayerWeight(layer, WvP), Of(s, V), true, norm, Plain,
             ScatterStore(VCache(layer), StoreDesc(cfg.dh, base, cfg.dh, cfg.tMax * cfg.dh, 1, posAddr))) ]
  }

  const MAX_CHUNKS: nat := 32

  /** Chunks a decode-attention dispatch splits `kvLen` positions into. */
  function NumChunks(kvLen: nat): (n: nat)
    ensures 8 <= n <= MAX_CHUNKS
  {
    var wanted := DivCeil(kvLen, 32);
    if wanted < 8 then 8 else if wanted > MAX_CHUNKS then MAX_CHUNKS else wanted
  }

  /** A dispatch that reads the position cell cannot size its grid and takes them all. */
  function AttnChunks(kvLen: nat, fixedGrid: bool): nat { if fixedGrid then MAX_CHUNKS else NumChunks(kvLen) }

  /** Scores against the whole key cache, a softmax over the valid prefix, values. */
  function ComposedAttention(layer: nat, q: Tensor, out: Tensor, pos: nat): seq<Op> {
    var scores := Of(DecodeScratch, Scores);
    [MatmulOf(q, KtCache(layer), scores), SoftmaxPrefix(scores, pos + 1), MatmulOf(scores, VCache(layer), out)]
  }

  function AttentionOps(layer: nat, fused: bool, pos: nat, posAddr: nat, fixedGrid: bool): seq<Op>
    requires posAddr == 0 || fused
  {
    var s := DecodeScratch;
    if fused then
      [AttnDecode(Of(s, Q), KtCache(layer), VCache(layer), Of(s, Partials), Of(s, AttnFlat),
                  Base(pos, posAddr) + 1, posAddr, AttnChunks(Base(pos, posAddr) + 1, fixedGrid))]
    else ComposedAttention(layer, Of(s, Q), Of(s, AttnFlat), pos)
  }

  /** The out projection and its residual, plain or fused. */
  function MlpHead(s: Scratch, layer: nat, xIn: Tensor): seq<Op> {
    var o := Of(s, O);
    if s.Width() >= 128 then [MatmulOf(Of(s, AttnFlat), LayerWeight(layer, Wo), o), AddScaled(o, xIn, o)]
    else [Matmul(Of(s, AttnFlat), LayerWeight(layer, Wo), o, false, None, AddTo(xIn), NoStore)]
  }

  /** The FFN norm and the gated product. */
  function MlpFfn(s: Scratch, layer: nat): seq<Op> {
    var gate, up, o, on := Of(s, Gate), Of(s, Up), Of(s, O), Of(s, On);
    var norm := LayerWeight(layer, FfnNorm);
    if s.Width() >= 128 then
      [ RmsNorm(o, norm, on),
        MatmulOf(on, LayerWeight(layer, WUp), up),
        MatmulOf(on, LayerWeight(layer, WGate), gate),
        SiluMul(gate, up, gate) ]
    else if s.Width() == 1 then
      [ Matmul(o, LayerWeight(layer, WUpP), up, true, Some(norm), Plain, NoStore),
        Matmul(o, LayerWeight(layer, WGateP), gate, true, Some(norm), SiluTimes(up), NoStore) ]
    else
      [ RmsNorm(o, norm, on),
        MatmulOf(on, LayerWeight(layer, WUp), up),
        Matmul(on, LayerWeight(layer, WGate), gate, false, None, SiluTimes(up), NoStore) ]
  }

  /** The down projection and its residual. */
  function MlpDown(s: Scratch, layer: nat, xOut: Tensor): seq<Op> {
    var gate, o := Of(s, Gate), Of(s, O);
    if s.Width() >= 128 then [MatmulOf(gate, LayerWeight(layer, WDown), xOut), AddScaled(xOut, o, xOut)]
    else [Matmul(gate, LayerWeight(layer, WDown), xOut, false, None, AddTo(o), NoStore)]
  }

  /** The MLP block of one layer for any scratch width. */
  function MlpOps(s: Scratch, layer: nat, xIn: Tensor, xOut: Tensor): seq<Op> {
    MlpHead(s, layer, xIn) + MlpFfn(s, layer) + MlpDown(s, layer, xOut)
  }

  function Before(t: nat): nat { if t == 0 then 0 else t - 1 }

  /** Copies the last of `t` rows. */
  function LastCopy(embd: nat, t: nat): CopyDesc {
    CopyDesc(Vec3(embd, 1, 1), Times(Before(t), embd), Vec3(1, 0, 0), 0, Vec3(1, 0, 0))
  }

  function LmHeadOps(s: Scratch, embd: nat, x: Tensor): seq<Op> {
    if s.Width() == 1 then
      [Matmul(x, LmHeadP, Of(s, Logits), true, Some(OutputNorm), Plain, NoStore)]
    else
      [ CopyStrided(x, Of(s, Last), LastCopy(embd, s.Width())),
        RmsNorm(Of(s, Last), OutputNorm, Of(s, LastN)),
        MatmulOf(Of(s, LastN), LmHead, Of(s, Logits)) ]
  }

  /** The activations ping-pong between two buffers, layer by layer. */
  function XIn(s: Scratch, layer: nat): Tensor { if layer % 2 == 0 then Of(s, XA) else Of(s, XB) }

  function DecodeLayer(cfg: Config, fused: bool, layer: nat, pos: nat, posAddr: nat, fixedGrid: bool): seq<Op>
    requires posAddr == 0 || fused
  {
    QkvDecodeOps(cfg, layer, XIn(DecodeScratch, layer), pos, posAddr)
    + AttentionOps(layer, fused, pos, posAddr, fixedGrid)
    + MlpOps(DecodeScratch, layer, XIn(DecodeScratch, layer), XIn(DecodeScratch, layer + 1))
  }

  function DecodeLayers(cfg: Config, fused: bool, pos: nat, posAddr: nat, fixedGrid: bool): (parts: seq<seq<Op>>)
    requires posAddr == 0 || fused
    ensures |parts| == cfg.layers
    ensures forall i :: 0 <= i < cfg.layers ==> parts[i] == DecodeLayer(cfg, fused, i, pos, posAddr, fixedGrid)
  {
    seq(cfg.layers, i requires 0 <= i < cfg.layers => DecodeLayer(cfg, fused, i, pos, posAddr, fixedGrid))
  }

  /** One decode step, with its position baked (posAddr 0) or left to the cell. The
      builder fixes the attention grid exactly when it leaves the position to the cell. */
  function DecodeOps(cfg: Config, fused: bool, pos: nat, posAddr: nat, fixedGrid: bool): seq<Op>
    requires posAddr == 0 || fused
  {
    Flat(DecodeLayers(cfg, fused, pos, posAddr, fixedGrid), cfg.layers)
    + LmHeadOps(DecodeScratch, cfg.embd, XIn(DecodeScratch, cfg.layers))
  }

  // ---- Decode, one submission per op -------------------------------------

  datatype Attention = FlashRow | Fused | Composed

  function Straight(len: nat): CopyDesc { CopyDesc(Vec3(len, 1, 1), 0, Vec3(1, 0, 0), 0, Vec3(1, 0, 0)) }

  function PerOpAttention(cfg: Config, attention: Attention, layer: nat, pos: nat): seq<Op> {
    var s := DecodeScratch;
    match attention
    case FlashRow =>
      [ CopyStrided(Of(s, Q), Of(s, QFlash), Straight(cfg.embd)),
        FlashAttn(Of(s, QFlash), KtCache(layer), VCache(layer), Of(s, AttnFlash), pos + 1, pos, false, false),
        CopyStrided(Of(s, AttnFlash), Of(s, AttnFlat), Straight(cfg.embd)) ]
    case Fused =>
      [AttnDecode(Of(s, Q), KtCache(layer), VCache(layer), Of(s, Partials), Of(s, AttnFlat), pos + 1, 0,
                  NumChunks(pos + 1))]
    case Composed =>
      [CopyStrided(Of(s, Q), Of(s, QHeads), Straight(cfg.embd))]
      + ComposedAttention(layer, Of(s, QHeads), Of(s, AttnHeads), pos)
      + [CopyStrided(Of(s, AttnHeads), Of(s, AttnFlat), Straight(cfg.embd))]
  }

  function PerOpLayer(cfg: Config, attention: Attention, layer: nat, pos: nat): seq<Op> {
    QkvDecodeOps(cfg, layer, XIn(DecodeScratch, layer), pos, 0)
    + PerOpAttention(cfg, attention, layer, pos)
    + MlpOps(DecodeScratch, layer, XIn(DecodeScratch, layer), XIn(DecodeScratch, layer + 1))
  }

  function PerOpLayers(cfg: Config, attention: Attention, pos: nat): (parts: seq<seq<Op>>)
    ensures |parts| == cfg.layers
    ensures forall i :: 0 <= i < cfg.layers ==> parts[i] == PerOpLayer(cfg, attention, i, pos)
  {
    seq(cfg.layers, i requires 0 <= i < cfg.layers => PerOpLayer(cfg, attention, i, pos))
  }

  /** The ops a per-op step submits one by one. */
  function PerOpOps(cfg: Config, attention: Attention, pos: nat): seq<Op> {
    Flat(PerOpLayers(cfg, attention, pos), cfg.layers)
    + LmHeadOps(DecodeScratch, cfg.embd, XIn(DecodeScratch, cfg.layers))
  }

  /** One submission per op. */
  function Singles(ops: seq<Op>): (lists: seq<seq<Op>>)
    ensures |lists| == |ops| && forall i :: 0 <= i < |ops| ==> lists[i] == [ops[i]]
  {
    seq(|ops|, i requires 0 <= i < |ops| => [ops[i]])
  }

  /** The submissions of one layer: the three projections together, the rest one by one. */
  function LayerSubmissions(cfg: Config, attention: Attention, layer: nat, pos: nat): seq<seq<Op>> {
    [QkvDecodeOps(cfg, layer, XIn(DecodeScratch, layer), pos, 0)]
    + Singles(PerOpAttention(cfg, attention, layer, pos))
    + Singles(MlpOps(DecodeScratch, layer, XIn(DecodeScratch, layer), XIn(DecodeScratch, layer + 1)))
  }

  function LayersSubmissions(cfg: Config, attention: Attention, pos: nat): (groups: seq<seq<seq<Op>>>)
    ensures |groups| == cfg.layers
    ensures forall i :: 0 <= i < cfg.layers ==> groups[i] == LayerSubmissions(cfg, attention, i, pos)
  {
    seq(cfg.layers, i requires 0 <= i < cfg.layers => LayerSubmissions(cfg, attention, i, pos))
  }

  /** The first `n` groups of lists one after the other. */
  function Concat(groups: seq<seq<seq<Op>>>, n: nat): seq<seq<Op>>
    requires n <= |groups|
  {
    if n == 0 then [] else Concat(groups, n - 1) + groups[n - 1]
  }

  /** All submissions of a per-op step. */
  function PerOpSubmissions(cfg: Config, attention: Attention, pos: nat): seq<seq<Op>> {
    Concat(LayersSubmissions(cfg, attention, pos), cfg.layers)
    + [LmHeadOps(DecodeScratch, cfg.embd, XIn(DecodeScratch, cfg.layers))]
  }

  lemma {:induction false} FlatAppend(a: seq<seq<Op>>, b: seq<seq<Op>>, n: nat)
    requires n <= |b|
    ensures Flat(a + b, |a| + n) == Flat(a, |a|) + Flat(b, n)
  {
    if n == 0 { FlatPrefix(a, b, |a|); } else { FlatAppend(a, b, n - 1); }
  }

  lemma {:induction false} FlatPrefix(a: seq<seq<Op>>, b: seq<seq<Op>>, n: nat)
    requires n <= |a|
    ensures Flat(a + b, n) == Flat(a, n)
  {
    if n > 0 { FlatPrefix(a, b, n - 1); }
  }

  lemma {:induction false} FlatSingles(ops: seq<Op>, n: nat)
    requires n <= |ops|
    ensures Flat(Singles(ops), n) == ops[..n]
  {
    if n > 0 { FlatSingles(ops, n - 1); }
  }

  /** One list, then two lists op by op. */
  lemma SubmittedFlat(first: seq<Op>, second: seq<Op>, third: seq<Op>)
    ensures var lists := [first] + Singles(second) + Singles(third); Flat(lists, |lists|) == first + second + third
  {
    FlatAppend([first] + Singles(second), Singles(third), |third|);
    FlatAppend([first], Singles(second), |second|);
    FlatSingles(second, |second|);
    FlatSingles(third, |third|);
    assert Flat([first], 0) == [] && Flat([first], 1) == first;
  }

  lemma LayerSubmissionsFlat(cfg: Config, attention: Attention, layer: nat, pos: nat)
    ensures var lists := LayerSubmissions(cfg, attention, layer, pos);
            Flat(lists, |lists|) == PerOpLayer(cfg, attention, layer, pos)
  {
    SubmittedFlat(QkvDecodeOps(cfg, layer, XIn(DecodeScratch, layer), pos, 0),
                  PerOpAttention(cfg, attention, layer, pos),
                  MlpOps(DecodeScratch, layer, XIn(DecodeScratch, layer), XIn(DecodeScratch, layer + 1)));
  }

  lemma {:induction false} ConcatFlat(groups: seq<seq<seq<Op>>>, parts: seq<seq<Op>>, n: nat)
    requires n <= |groups| == |parts| && forall i :: 0 <= i < |groups| ==> Flat(groups[i], |groups[i]|) == parts[i]
    ensures Flat(Concat(groups, n), |Concat(groups, n)|) == Flat(parts, n)
  {
    if n > 0 {
      ConcatFlat(groups, parts, n - 1);
      FlatAppend(Concat(groups, n - 1), groups[n - 1], |groups[n - 1]|);
    }
  }

  /** The submissions are the step's ops in order. */
  lemma SubmissionsFlat(cfg: Config, attention: Attention, pos: nat)
    ensures var lists := PerOpSubmissions(cfg, attention, pos);
            Flat(lists, |lists|) == PerOpOps(cfg, attention, pos)
  {
    var groups, parts := LayersSubmissions(cfg, attention, pos), PerOpLayers(cfg, attention, pos);
    var head := LmHeadOps(DecodeScratch, cfg.embd, XIn(DecodeScratch, cfg.layers));
    forall i | 0 <= i < |groups| ensures Flat(groups[i], |groups[i]|) == parts[i] {
      LayerSubmissionsFlat(cfg, attention, i, pos);
    }
    ConcatFlat(groups, parts, cfg.layers);
    FlatAppend(Concat(groups, cfg.layers), [head], 1);
    assert Flat([head], 0) == [] && Flat([head], 1) == head;
  }

  // ---- Closed steps ------------------------------------------------------

  /** Closes the token loop on the device. */
  function DecodeCloseOps(): seq<Op> {
    [Argmax(Of(DecodeScratch, Logits), TokenBuf), EmbedGather(TokenBuf, Of(DecodeScratch, XA))]
  }

  function ClosedStep(cfg: Config, fused: bool, pos: nat, posAddr: nat, fixedGrid: bool): seq<Op>
    requires posAddr == 0 || fused
  {
    DecodeOps(cfg, fused, pos, posAddr, fixedGrid) + DecodeCloseOps()
  }

  /** `n` closed steps from `start` with their positions baked in. */
  function ClosedSteps(cfg: Config, start: nat, n: nat, fixedGrid: bool): (parts: seq<seq<Op>>)
    ensures |parts| == n && forall i :: 0 <= i < n ==> parts[i] == ClosedStep(cfg, true, start + i, 0, fixedGrid)
  {
    seq(n, i requires 0 <= i < n => ClosedStep(cfg, true, start + i, 0, fixedGrid))
  }

  /** The one list an unrolled recording makes of them. */
  function UnrolledOps(cfg: Config, start: nat, n: nat): seq<Op> { Flat(ClosedSteps(cfg, start, n, false), n) }

  /** What a position-relative step is recorded as. */
  function RelativeStep(cfg: Config): seq<Op> { ClosedStep(cfg, true, 0, cfg.addr, cfg.addr != 0) }

  // ---- Prefill -----------------------------------------------------------

  /** Appends `t` rows of keys to the [kv, dh, tMax] cache. */
  function KtAppend(cfg: Config, t: nat, posBase: nat): CopyDesc {
    CopyDesc(Vec3(cfg.dh, cfg.kv, t), 0, Vec3(1, cfg.dh, Times(cfg.kv, cfg.dh)),
             posBase, Vec3(cfg.tMax, Times(cfg.dh, cfg.tMax), 1))
  }

  /** Appends `t` rows of values to the [kv, tMax, dh] cache. */
  function VAppend(cfg: Config, t: nat, posBase: nat): CopyDesc {
    CopyDesc(Vec3(cfg.dh, cfg.kv, t), 0, Vec3(1, cfg.dh, Times(cfg.kv, cfg.dh)),
             Times(posBase, cfg.dh), Vec3(1, Times(cfg.tMax, cfg.dh), cfg.dh))
  }

  /** Queries between token-major [t, heads, dh] and head-major [heads, t, dh]. */
  function ToHeads(cfg: Config, t: nat): CopyDesc {
    CopyDesc(Vec3(cfg.dh, t, cfg.heads), 0, Vec3(1, Times(cfg.heads, cfg.dh), cfg.dh),
             0, Vec3(1, cfg.dh, Times(t, cfg.dh)))
  }

  function FromHeads(cfg: Config, t: nat): CopyDesc {
    CopyDesc(Vec3(cfg.dh, t, cfg.heads), 0, Vec3(1, cfg.dh, Times(t, cfg.dh)),
             0, Vec3(1, Times(cfg.heads, cfg.dh), cfg.dh))
  }

  /** The columns of the QKV product, each to its own buffer. */
  function SplitOps(cfg: Config, s: Scratch): seq<Op> {
    var t, kvDim := s.Width(), cfg.KvDim();
    var n := cfg.embd + 2 * kvDim;
    [ CopyStrided(Of(s, Qkv), Of(s, Q), SplitCopy(0, cfg.embd, t, n)),
      CopyStrided(Of(s, Qkv), Of(s, K), SplitCopy(cfg.embd, kvDim, t, n)),
      CopyStrided(Of(s, Qkv), Of(s, V), SplitCopy(cfg.embd + kvDim, kvDim, t, n)) ]
  }

  function RopeOps(cfg: Config, s: Scratch, posBase: nat): seq<Op> {
    [Rope(Of(s, Q), Of(s, Q), cfg.heads, posBase), Rope(Of(s, K), Of(s, K), cfg.kv, posBase)]
  }

  function CacheAppendOps(cfg: Config, s: Scratch, layer: nat, posBase: nat): seq<Op> {
    [ CopyStrided(Of(s, K), KtCache(layer), KtAppend(cfg, s.Width(), posBase)),
      CopyStrided(Of(s, V), VCache(layer), VAppend(cfg, s.Width(), posBase)) ]
  }

  /** Splitting, rotating, and appending to the caches. */
  function SplitAppendOps(cfg: Config, s: Scratch, layer: nat, posBase: nat): seq<Op> {
    SplitOps(cfg, s) + RopeOps(cfg, s, posBase) + CacheAppendOps(cfg, s, layer, posBase)
  }

  /** Writes the layer's keys and values of all `t` tokens into the caches. */
  function AppendOps(cfg: Config, s: Scratch, layer: nat, posBase: nat): seq<Op> {
    if s.Width() >= 128 && s.PrefillScratch? && s.actF16 && cfg.kvF16 then
      [PrefillQkvPack(Of(s, Qkv), Of(s, QHeads), KtCache(layer), VCache(layer), posBase)]
    else
      SplitAppendOps(cfg, s, layer, posBase)
  }

  function FlashOps(cfg: Config, s: Scratch, layer: nat, posBase: nat): seq<Op> {
    var t := s.Width();
    var kt, v := KtCache(layer), VCache(layer);
    if t >= 128 && s.PrefillScratch? && s.actF16 && cfg.kvF16 then
      [FlashAttn(Of(s, QHeads), kt, v, Of(s, AttnFlat), posBase + t, posBase, false, true)]
    else if t >= 128 then
      [FlashAttn(Of(s, Q), kt, v, Of(s, AttnFlat), posBase + t, posBase, true, false)]
    else
      [ CopyStrided(Of(s, Q), Of(s, QHeads), ToHeads(cfg, t)),
        FlashAttn(Of(s, QHeads), kt, v, Of(s, AttnHeads), posBase + t, posBase, false, false),
        CopyStrided(Of(s, AttnHeads), Of(s, AttnFlat), FromHeads(cfg, t)) ]
  }

  function ProjectOps(s: Scratch, layer: nat): seq<Op> {
    [ RmsNorm(XIn(s, layer), LayerWeight(layer, AttnNorm), Of(s, Xn)),
      MatmulOf(Of(s, Xn), LayerWeight(layer, WQkv), Of(s, Qkv)) ]
  }

  function PrefillLayer(cfg: Config, s: Scratch, layer: nat, posBase: nat): seq<Op> {
    ProjectOps(s, layer) + AppendOps(cfg, s, layer, posBase)
    + (FlashOps(cfg, s, layer, posBase) + MlpOps(s, layer, XIn(s, layer), XIn(s, layer + 1)))
  }

  function PrefillLayers(cfg: Config, s: Scratch, posBase: nat): (parts: seq<seq<Op>>)
    ensures |parts| == cfg.layers
    ensures forall i :: 0 <= i < cfg.layers ==> parts[i] == PrefillLayer(cfg, s, i, posBase)
  {
    seq(cfg.layers, i requires 0 <= i < cfg.layers => PrefillLayer(cfg, s, i, posBase))
  }

  function PrefillOps(cfg: Config, s: Scratch, posBase: nat): seq<Op> {
    [EmbedGatherRows(TokenIds, Of(s, XA))] + Flat(PrefillLayers(cfg, s, posBase), cfg.layers)
    + (LmHeadOps(s, cfg.embd, XIn(s, cfg.layers)) + [Argmax(Of(s, Logits), TokenBuf)])
  }

  // ---- Replay ------------------------------------------------------------

  /** A descriptor as the device sees it when the position cell holds `cell`. */
  function ResolveDesc(d: StoreDesc, cell: nat): StoreDesc {
    if d.posAddr == 0 then d else d.(posBase := d.posBase + cell, posAddr := 0)
  }

  function ResolveStore(s: Store, cell: nat): Store {
    match s
    case NoStore => s
    case RopeStore(d) => RopeStore(ResolveDesc(d, cell))
    case ScatterStore(dst, d) => ScatterStore(dst, ResolveDesc(d, cell))
    case RopeScatterStore(dst, d) => RopeScatterStore(dst, ResolveDesc(d, cell))
  }

  function ResolveOp(op: Op, cell: nat): Op {
    match op
    case Matmul(_, _, _, _, _, _, store) => op.(store := ResolveStore(store, cell))
    case AttnDecode(_, _, _, _, _, kvLen, posAddr, _) =>
      if posAddr == 0 then op else op.(kvLen := kvLen + cell, posAddr := 0)
    case _ => op
  }

  /** A recorded list as it executes. */
  function Resolve(ops: seq<Op>, cell: nat): (r: seq<Op>)
    ensures |r| == |ops| && forall i :: 0 <= i < |ops| ==> r[i] == ResolveOp(ops[i], cell)
  {
    seq(|ops|, i requires 0 <= i < |ops| => ResolveOp(ops[i], cell))
  }

  lemma ResolveAppend(a: seq<Op>, b: seq<Op>, cell: nat)
    ensures Resolve(a + b, cell) == Resolve(a, cell) + Resolve(b, cell)
  {}

  lemma ResolveQkv(cfg: Config, layer: nat, xIn: Tensor, pos: nat, posAddr: nat, cell: nat)
    requires posAddr != 0
    ensures Resolve(QkvDecodeOps(cfg, layer, xIn, pos, posAddr), cell) == QkvDecodeOps(cfg, layer, xIn, cell, 0)
  {}

  lemma ResolveAttention(layer: nat, pos: nat, posAddr: nat, cell: nat)
    requires posAddr != 0
    ensures Resolve(AttentionOps(layer, true, pos, posAddr, true), cell) == AttentionOps(layer, true, cell, 0, true)
  {}

  lemma ResolveMlp(s: Scratch, layer: nat, xIn: Tensor, xOut: Tensor, cell: nat)
    ensures Resolve(MlpOps(s, layer, xIn, xOut), cell) == MlpOps(s, layer, xIn, xOut)
  {}

  lemma ResolveLmHead(s: Scratch, embd: nat, x: Tensor, cell: nat)
    ensures Resolve(LmHeadOps(s, embd, x), cell) == LmHeadOps(s, embd, x)
  {}

  lemma ResolveClose(cell: nat)
    ensures Resolve(DecodeCloseOps(), cell) == DecodeCloseOps()
  {}

  lemma ResolveLayer(cfg: Config, layer: nat, pos: nat, posAddr: nat, cell: nat)
    requires posAddr != 0
    ensures Resolve(DecodeLayer(cfg, true, layer, pos, posAddr, true), cell)
            == DecodeLayer(cfg, true, layer, cell, 0, true)
  {
    var xIn, xOut := XIn(DecodeScratch, layer), XIn(DecodeScratch, layer + 1);
    var qkv, attn, mlp := QkvDecodeOps(cfg, layer, xIn, pos, posAddr), AttentionOps(layer, true, pos, posAddr, true),
                          MlpOps(DecodeScratch, layer, xIn, xOut);
    ResolveAppend(qkv + attn, mlp, cell);
    ResolveAppend(qkv, attn, cell);
    ResolveQkv(cfg, layer, xIn, pos, posAddr, cell);
    ResolveAttention(layer, pos, posAddr, cell);
    ResolveMlp(DecodeScratch, layer, xIn, xOut, cell);
  }

  lemma {:induction false} ResolveFlat(parts: seq<seq<Op>>, resolved: seq<seq<Op>>, cell: nat, n: nat)
    requires n <= |parts| == |resolved| && forall i :: 0 <= i < |parts| ==> resolved[i] == Resolve(parts[i], cell)
    ensures Resolve(Flat(parts, n), cell) == Flat(resolved, n)
  {
    if n > 0 {
      ResolveFlat(parts, resolved, cell, n - 1);
      ResolveAppend(Flat(parts, n - 1), parts[n - 1], cell);
    }
  }

  lemma ResolveLayers(cfg: Config, pos: nat, posAddr: nat, cell: nat)
    requires posAddr != 0
    ensures Resolve(Flat(DecodeLayers(cfg, true, pos, posAddr, true), cfg.layers), cell)
            == Flat(DecodeLayers(cfg, true, cell, 0, true), cfg.layers)
  {
    var parts, resolved := DecodeLayers(cfg, true, pos, posAddr, true), DecodeLayers(cfg, true, cell, 0, true);
    forall i | 0 <= i < |parts| ensures resolved[i] == Resolve(parts[i], cell) {
      ResolveLayer(cfg, i, pos, posAddr, cell);
    }
    ResolveFlat(parts, resolved, cell, cfg.layers);
  }

  lemma ResolveDecode(cfg: Config, pos: nat, posAddr: nat, cell: nat)
    requires posAddr != 0
    ensures Resolve(DecodeOps(cfg, true, pos, posAddr, true), cell) == DecodeOps(cfg, true, cell, 0, true)
  {
    var x := XIn(DecodeScratch, cfg.layers);
    ResolveLayers(cfg, pos, posAddr, cell);
    ResolveLmHead(DecodeScratch, cfg.embd, x, cell);
    ResolveAppend(Flat(DecodeLayers(cfg, true, pos, posAddr, true), cfg.layers),
                  LmHeadOps(DecodeScratch, cfg.embd, x), cell);
  }

  /** A step recorded against the position cell executes, with position `p` in the
      cell, the op list for `p` on the fixed attention grid: the same rope rows, store
      addresses and KV lengths, op by op. */
  lemma ReplayIsRerecording(cfg: Config, pos: nat, posAddr: nat, p: nat)
    requires posAddr != 0
    ensures Resolve(ClosedStep(cfg, true, pos, posAddr, true), p) == ClosedStep(cfg, true, p, 0, true)
  {
    ResolveAppend(DecodeOps(cfg, true, pos, posAddr, true), DecodeCloseOps(), p);
    ResolveDecode(cfg, pos, posAddr, p);
    ResolveClose(p);
  }

  // ---- The attention grid ------------------------------------------------

  /** The same list but for the chunk counts of its decode attentions. */
  ghost predicate SameButGrid(a: seq<Op>, b: seq<Op>) {
    |a| == |b| && forall i :: 0 <= i < |a| ==> OpSameButGrid(a[i], b[i])
  }

  predicate OpSameButGrid(a: Op, b: Op) {
    || a == b
    || (a.AttnDecode? && b.AttnDecode? && a.(chunks := b.chunks) == b && a.chunks > 0 && b.chunks > 0)
  }

  lemma AppendSameButGrid(a: seq<Op>, b: seq<Op>, c: seq<Op>, d: seq<Op>)
    requires SameButGrid(a, b) && SameButGrid(c, d)
    ensures SameButGrid(a + c, b + d)
  {}

  lemma LayerSameButGrid(cfg: Config, layer: nat, p: nat)
    ensures SameButGrid(DecodeLayer(cfg, true, layer, p, 0, true), DecodeLayer(cfg, true, layer, p, 0, false))
  {
    var xIn, xOut := XIn(DecodeScratch, layer), XIn(DecodeScratch, layer + 1);
    var qkv, mlp := QkvDecodeOps(cfg, layer, xIn, p, 0), MlpOps(DecodeScratch, layer, xIn, xOut);
    var fixed, sized := AttentionOps(layer, true, p, 0, true), AttentionOps(layer, true, p, 0, false);
    AppendSameButGrid(qkv, qkv, fixed, sized);
    AppendSameButGrid(qkv + fixed, qkv + sized, mlp, mlp);
  }

  lemma {:induction false} FlatSameButGrid(a: seq<seq<Op>>, b: seq<seq<Op>>, n: nat)
    requires n <= |a| == |b| && forall i :: 0 <= i < |a| ==> SameButGrid(a[i], b[i])
    ensures SameButGrid(Flat(a, n), Flat(b, n))
  {
    if n > 0 {
      FlatSameButGrid(a, b, n - 1);
      AppendSameButGrid(Flat(a, n - 1), Flat(b, n - 1), a[n - 1], b[n - 1]);
    }
  }

  /** The main replay result: what a replay at `p` executes is what would be recorded
      for `p` now, apart from the number of attention chunks, which is then fixed. */
  lemma ReplayMatchesBuilder(cfg: Config, p: nat)
    requires cfg.addr != 0
    ensures SameButGrid(Resolve(RelativeStep(cfg), p), ClosedStep(cfg, true, p, 0, false))
  {
    ReplayIsRerecording(cfg, 0, cfg.addr, p);
    var fixed, sized := DecodeLayers(cfg, true, p, 0, true), DecodeLayers(cfg, true, p, 0, false);
    forall i | 0 <= i < |fixed| ensures SameButGrid(fixed[i], sized[i]) { LayerSameButGrid(cfg, i, p); }
    FlatSameButGrid(fixed, sized, cfg.layers);
    var head := LmHeadOps(DecodeScratch, cfg.embd, XIn(DecodeScratch, cfg.layers));
    AppendSameButGrid(Flat(fixed, cfg.layers), Flat(sized, cfg.layers), head, head);
    AppendSameButGrid(DecodeOps(cfg, true, p, 0, true), DecodeOps(cfg, true, p, 0, false),
                      DecodeCloseOps(), DecodeCloseOps());
  }

  // ---- Position cells a list may use --------------------------------------

  /** The position cell an op reads; 0 for none. */
  function PosAddr(op: Op): nat {
    match op
    case Matmul(_, _, _, _, _, _, store) => if store.NoStore? then 0 else store.desc.posAddr
    case AttnDecode(_, _, _, _, _, _, posAddr, _) => posAddr
    case _ => 0
  }

  /** Every op of the list reads the cell at `posAddr` or none. */
  ghost predicate AllWithin(ops: seq<Op>, posAddr: nat) {
    forall i :: 0 <= i < |ops| ==> PosAddr(ops[i]) == 0 || PosAddr(ops[i]) == posAddr
  }

  /** The checks made before a list is recorded for replay, on a device with or without
      buffer addresses; `plans` is the verdict of each op's own planner. */
  method PrepareExecOps(ops: seq<Op>, posAddr: nat, addresses: bool, plans: Op -> bool) returns (ok: bool)
    ensures ok <==> |ops| > 0 && addresses && AllWithin(ops, posAddr) && forall i :: 0 <= i < |ops| ==> plans(ops[i])
  {
    if |ops| == 0 || !addresses { return false; }
    for i := 0 to |ops|
      invariant forall j :: 0 <= j < i ==> PosAddr(ops[j]) == 0 || PosAddr(ops[j]) == posAddr
    {
      var used := PosAddr(ops[i]);
      if used != 0 && used != posAddr { return false; }
    }
    for i := 0 to |ops|
      invariant forall j :: 0 <= j < i ==> plans(ops[j])
    {
      if !plans(ops[i]) { return false; }
    }
    return true;
  }

  /** Lists recorded with their positions baked in run the same whatever the cell holds. */
  ghost predicate AllIgnore(ops: seq<Op>) { AllWithin(ops, 0) }

  lemma IgnoredCell(ops: seq<Op>, cell: nat)
    requires AllIgnore(ops)
    ensures Resolve(ops, cell) == ops
  {}

  lemma AppendWithin(a: seq<Op>, b: seq<Op>, posAddr: nat)
    requires AllWithin(a, posAddr) && AllWithin(b, posAddr)
    ensures AllWithin(a + b, posAddr)
  {}

  lemma {:induction false} FlatWithin(parts: seq<seq<Op>>, posAddr: nat, n: nat)
    requires n <= |parts| && forall i :: 0 <= i < |parts| ==> AllWithin(parts[i], posAddr)
    ensures AllWithin(Flat(parts, n), posAddr)
  {
    if n > 0 {
      FlatWithin(parts, posAddr, n - 1);
      AppendWithin(Flat(parts, n - 1), parts[n - 1], posAddr);
    }
  }

  lemma DecodeLayerWithin(cfg: Config, fused: bool, layer: nat, pos: nat, posAddr: nat, fixedGrid: bool)
    requires posAddr == 0 || fused
    ensures AllWithin(DecodeLayer(cfg, fused, layer, pos, posAddr, fixedGrid), posAddr)
  {
    var xIn, xOut := XIn(DecodeScratch, layer), XIn(DecodeScratch, layer + 1);
    assert AllWithin(QkvDecodeOps(cfg, layer, xIn, pos, posAddr), posAddr);
    assert AllWithin(AttentionOps(layer, fused, pos, posAddr, fixedGrid), posAddr);
    assert AllWithin(MlpOps(DecodeScratch, layer, xIn, xOut), posAddr);
  }

  lemma DecodeWithin(cfg: Config, fused: bool, pos: nat, posAddr: nat, fixedGrid: bool)
    requires posAddr == 0 || fused
    ensures AllWithin(DecodeOps(cfg, fused, pos, posAddr, fixedGrid), posAddr)
    ensures AllWithin(ClosedStep(cfg, fused, pos, posAddr, fixedGrid), posAddr)
  {
    var parts := DecodeLayers(cfg, fused, pos, posAddr, fixedGrid);
    forall i | 0 <= i < |parts| ensures AllWithin(parts[i], posAddr) {
      DecodeLayerWithin(cfg, fused, i, pos, posAddr, fixedGrid);
    }
    FlatWithin(parts, posAddr, cfg.layers);
    assert AllWithin(LmHeadOps(DecodeScratch, cfg.embd, XIn(DecodeScratch, cfg.layers)), posAddr);
    assert AllWithin(DecodeCloseOps(), posAddr);
  }

  lemma PerOpLayerIgnores(cfg: Config, attention: Attention, layer: nat, pos: nat)
    ensures AllIgnore(PerOpLayer(cfg, attention, layer, pos))
  {
    var xIn, xOut := XIn(DecodeScratch, layer), XIn(DecodeScratch, layer + 1);
    assert AllIgnore(QkvDecodeOps(cfg, layer, xIn, pos, 0));
    assert AllIgnore(PerOpAttention(cfg, attention, layer, pos));
    assert AllIgnore(MlpOps(DecodeScratch, layer, xIn, xOut));
  }

  lemma PerOpIgnores(cfg: Config, attention: Attention, pos: nat)
    ensures AllIgnore(PerOpOps(cfg, attention, pos))
  {
    var parts := PerOpLayers(cfg, attention, pos);
    forall i | 0 <= i < |parts| ensures AllIgnore(parts[i]) { PerOpLayerIgnores(cfg, attention, i, pos); }
    FlatWithin(parts, 0, cfg.layers);
    assert AllIgnore(LmHeadOps(DecodeScratch, cfg.embd, XIn(DecodeScratch, cfg.layers)));
  }

  /** The parts of a list that ignores the cell ignore it. */
  lemma {:induction false} PartsIgnore(parts: seq<seq<Op>>, n: nat)
    requires n <= |parts| && AllIgnore(Flat(parts, n))
    ensures forall i :: 0 <= i < n ==> AllIgnore(parts[i])
  {
    if n > 0 {
      var before, last := Flat(parts, n - 1), parts[n - 1];
      assert forall i :: 0 <= i < |before| ==> (before + last)[i] == before[i];
      assert forall i :: 0 <= i < |last| ==> (before + last)[|before| + i] == last[i];
      PartsIgnore(parts, n - 1);
    }
  }

  lemma UnrolledIgnores(cfg: Config, start: nat, n: nat)
    ensures AllIgnore(UnrolledOps(cfg, start, n))
  {
    var parts := ClosedSteps(cfg, start, n, false);
    forall i | 0 <= i < |parts| ensures AllIgnore(parts[i]) { DecodeWithin(cfg, true, start + i, 0, false); }
    FlatWithin(parts, 0, n);
  }

  lemma PrefillLayerIgnores(cfg: Config, s: Scratch, layer: nat, posBase: nat)
    ensures AllIgnore(PrefillLayer(cfg, s, layer, posBase))
  {
    assert AllIgnore(ProjectOps(s, layer));
    assert AllIgnore(AppendOps(cfg, s, layer, posBase));
    assert AllIgnore(FlashOps(cfg, s, layer, posBase));
    assert AllIgnore(MlpOps(s, layer, XIn(s, layer), XIn(s, layer + 1)));
  }

  lemma PrefillLayersIgnore(cfg: Config, s: Scratch, posBase: nat)
    ensures AllIgnore(Flat(PrefillLayers(cfg, s, posBase), cfg.layers))
  {
    var parts := PrefillLayers(cfg, s, posBase);
    forall i | 0 <= i < |parts| ensures AllIgnore(parts[i]) { PrefillLayerIgnores(cfg, s, i, posBase); }
    FlatWithin(parts, 0, cfg.layers);
  }

  lemma PrefillIgnores(cfg: Config, s: Scratch, posBase: nat)
    ensures AllIgnore(PrefillOps(cfg, s, posBase))
  {
    var gather, layers := [EmbedGatherRows(TokenIds, Of(s, XA))], Flat(PrefillLayers(cfg, s, posBase), cfg.layers);
    var head := LmHeadOps(s, cfg.embd, XIn(s, cfg.layers));
    PrefillLayersIgnore(cfg, s, posBase);
    assert AllIgnore(gather) && AllIgnore(head) && AllIgnore([Argmax(Of(s, Logits), TokenBuf)]);
    AppendWithin(gather, layers, 0);
    AppendWithin(head, [Argmax(Of(s, Logits), TokenBuf)], 0);
    AppendWithin(gather + layers, head + [Argmax(Of(s, Logits), TokenBuf)], 0);
  }

  /** Every list the session prepares passes the checks for the cell it is prepared with. */
  lemma SessionListsPrepare(cfg: Config, s: Scratch, start: nat, n: nat)
    requires cfg.Valid()
    ensures |RelativeStep(cfg)| > 0 && AllWithin(RelativeStep(cfg), cfg.addr)
    ensures |PrefillOps(cfg, s, start)| > 0 && AllWithin(PrefillOps(cfg, s, start), 0)
    ensures n > 0 ==> |UnrolledOps(cfg, start, n)| > 0 && AllWithin(UnrolledOps(cfg, start, n), 0)
  {
    DecodeWithin(cfg, true, 0, cfg.addr, true);
    PrefillIgnores(cfg, s, start);
    UnrolledIgnores(cfg, start, n);
    if n > 0 { UnrolledNonEmpty(cfg, start, n); }
  }

  lemma UnrolledNonEmpty(cfg: Config, start: nat, n: nat)
    requires n > 0
    ensures |UnrolledOps(cfg, start, n)| > 0
  {
    var parts := ClosedSteps(cfg, start, n, false);
    assert UnrolledOps(cfg, start, n) == Flat(parts, n - 1) + parts[n - 1];
  }
}
