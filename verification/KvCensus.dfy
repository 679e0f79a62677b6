/** How many dispatches each list of the session records. */
module KvCensus {
  import opened Arith
  import opened KvBarriers
  import opened KvDevice
  import opened KvOps
  import opened Prelude
  import H = HazardGraph

  /** Dispatches of the first `n` ops. */
  function Count(ops: seq<Op>, n: nat): nat
    requires n <= |ops|
  {
    if n == 0 then 0 else Count(ops, n - 1) + if ops[n - 1].AttnDecode? then 2 else 1
  }

  /** It is what planning makes of them. */
  lemma {:induction false} CountIsPlanned(ops: seq<Op>, name: Naming, n: nat)
    requires n <= |ops|
    ensures |H.PlanTouches(Images(ops, name), n)| == Count(ops, n)
  {
    if n > 0 {
      CountIsPlanned(ops, name, n - 1);
      OnePlanned(ops[n - 1], name);
    }
  }

  lemma OnePlanned(op: Op, name: Naming)
    ensures |H.OpTouches(Image(op, name))| == if op.AttnDecode? then 2 else 1
  {}

  lemma {:induction false} CountAppend(a: seq<Op>, b: seq<Op>, n: nat)
    requires n <= |b|
    ensures Count(a + b, |a| + n) == Count(a, |a|) + Count(b, n)
  {
    if n == 0 { CountPrefix(a, b, |a|); } else { CountAppend(a, b, n - 1); }
  }

  lemma {:induction false} CountPrefix(a: seq<Op>, b: seq<Op>, n: nat)
    requires n <= |a|
    ensures Count(a + b, n) == Count(a, n)
  {
    if n > 0 { CountPrefix(a, b, n - 1); }
  }

  function Whole(ops: seq<Op>): nat { Count(ops, |ops|) }

  lemma WholeAppend(a: seq<Op>, b: seq<Op>)
    ensures Whole(a + b) == Whole(a) + Whole(b)
  {
    CountAppend(a, b, |b|);
  }

  /** Without decode attention a list records one dispatch per op. */
  lemma {:induction false} OnePerOp(ops: seq<Op>, n: nat)
    requires n <= |ops| && forall op :: op in ops ==> !op.AttnDecode?
    ensures Count(ops, n) == n
  {
    if n > 0 { OnePerOp(ops, n - 1); }
  }

  lemma {:induction false} FlatCount(parts: seq<seq<Op>>, n: nat, each: nat)
    requires n <= |parts| && forall i :: 0 <= i < n ==> Whole(parts[i]) == each
    ensures Whole(Flat(parts, n)) == Times(n, each)
  {
    if n > 0 {
      FlatCount(parts, n - 1, each);
      WholeAppend(Flat(parts, n - 1), parts[n - 1]);
      Distrib(n - 1, 1, each);
    }
  }

  // ---- The blocks of a layer ---------------------------------------------

  /** An MLP block: fused into four dispatches for one row, into five for narrow widths, and
      eight plain ones from 128 rows on. */
  lemma MlpCensus(s: Scratch, layer: nat, xIn: Tensor, xOut: Tensor)
    ensures Whole(MlpOps(s, layer, xIn, xOut)) == if s.Width() >= 128 then 8 else if s.Width() == 1 then 4 else 5
  {
    var ops := MlpOps(s, layer, xIn, xOut);
    assert |ops| == if s.Width() >= 128 then 8 else if s.Width() == 1 then 4 else 5;
    OnePerOp(ops, |ops|);
  }

  lemma LmHeadCensus(s: Scratch, embd: nat, x: Tensor)
    ensures Whole(LmHeadOps(s, embd, x)) == if s.Width() == 1 then 1 else 3
  {
    OnePerOp(LmHeadOps(s, embd, x), |LmHeadOps(s, embd, x)|);
  }

  lemma AttentionCensus(layer: nat, fused: bool, pos: nat, posAddr: nat, fixedGrid: bool)
    requires posAddr == 0 || fused
    ensures var ops := AttentionOps(layer, fused, pos, posAddr, fixedGrid);
            && Whole(ops) == (if fused then 2 else 3) && |ops| == (if fused then 1 else 3)
            && (fused ==> ops[0].AttnDecode?) && (!fused ==> ops[1].SoftmaxPrefix?)
  {
    var ops := AttentionOps(layer, fused, pos, posAddr, fixedGrid);
    if fused { assert Count(ops, 1) == Count(ops, 0) + 2; } else { OnePerOp(ops, 3); }
  }

  lemma QkvCensus(cfg: Config, layer: nat, xIn: Tensor, pos: nat, posAddr: nat)
    ensures Whole(QkvDecodeOps(cfg, layer, xIn, pos, posAddr)) == 3
  {
    OnePerOp(QkvDecodeOps(cfg, layer, xIn, pos, posAddr), 3);
  }

  lemma DecodeLayerCensus(cfg: Config, fused: bool, layer: nat, pos: nat, posAddr: nat, fixedGrid: bool)
    requires posAddr == 0 || fused
    ensures Whole(DecodeLayer(cfg, fused, layer, pos, posAddr, fixedGrid)) == if fused then 9 else 10
  {
    var x, y := XIn(DecodeScratch, layer), XIn(DecodeScratch, layer + 1);
    var qkv, attn := QkvDecodeOps(cfg, layer, x, pos, posAddr), AttentionOps(layer, fused, pos, posAddr, fixedGrid);
    QkvCensus(cfg, layer, x, pos, posAddr);
    AttentionCensus(layer, fused, pos, posAddr, fixedGrid);
    MlpCensus(DecodeScratch, layer, x, y);
    WholeAppend(qkv, attn);
    WholeAppend(qkv + attn, MlpOps(DecodeScratch, layer, x, y));
  }

  lemma StepCount(cfg: Config, fused: bool, pos: nat, posAddr: nat, fixedGrid: bool)
    requires posAddr == 0 || fused
    ensures Whole(DecodeOps(cfg, fused, pos, posAddr, fixedGrid)) == Times(cfg.layers, if fused then 9 else 10) + 1
  {
    var parts := DecodeLayers(cfg, fused, pos, posAddr, fixedGrid);
    forall i | 0 <= i < |parts| ensures Whole(parts[i]) == if fused then 9 else 10 {
      DecodeLayerCensus(cfg, fused, i, pos, posAddr, fixedGrid);
    }
    FlatCount(parts, cfg.layers, if fused then 9 else 10);
    LmHeadCensus(DecodeScratch, cfg.embd, XIn(DecodeScratch, cfg.layers));
    WholeAppend(Flat(parts, cfg.layers), LmHeadOps(DecodeScratch, cfg.embd, XIn(DecodeScratch, cfg.layers)));
  }

  /** A decode step records nine dispatches a layer with fused attention, ten without, and
      one for the logits; closing the token loop adds two. */
  lemma DecodeCensus(cfg: Config, fused: bool, pos: nat, posAddr: nat, fixedGrid: bool, name: Naming)
    requires posAddr == 0 || fused
    ensures |Planned(DecodeOps(cfg, fused, pos, posAddr, fixedGrid), name)|
            == cfg.layers * (if fused then 9 else 10) + 1
    ensures |Planned(ClosedStep(cfg, fused, pos, posAddr, fixedGrid), name)|
            == cfg.layers * (if fused then 9 else 10) + 3
  {
    var ops := DecodeOps(cfg, fused, pos, posAddr, fixedGrid);
    StepCount(cfg, fused, pos, posAddr, fixedGrid);
    OnePerOp(DecodeCloseOps(), 2);
    WholeAppend(ops, DecodeCloseOps());
    CountIsPlanned(ops, name, |ops|);
    CountIsPlanned(ops + DecodeCloseOps(), name, |ops| + 2);
  }

  // ---- Prefill -----------------------------------------------------------

  /** Whether a prefill packs Q, K and V in one dispatch: wide, with f16 activations and
      f16 caches. */
  predicate Packs(cfg: Config, s: Scratch) { s.PrefillScratch? && s.t >= 128 && s.actF16 && cfg.kvF16 }

  lemma AppendCensus(cfg: Config, s: Scratch, layer: nat, posBase: nat)
    requires s.PrefillScratch?
    ensures var ops := AppendOps(cfg, s, layer, posBase);
            Whole(ops) == (if Packs(cfg, s) then 1 else 7)
            && (Packs(cfg, s) <==> exists i :: 0 <= i < |ops| && ops[i].PrefillQkvPack?)
  {
    var ops := AppendOps(cfg, s, layer, posBase);
    OnePerOp(ops, |ops|);
    if Packs(cfg, s) { assert ops[0].PrefillQkvPack?; }
  }

  lemma FlashCensus(cfg: Config, s: Scratch, layer: nat, posBase: nat)
    requires s.PrefillScratch?
    ensures Whole(FlashOps(cfg, s, layer, posBase)) == if s.t >= 128 then 1 else 3
  {
    OnePerOp(FlashOps(cfg, s, layer, posBase), |FlashOps(cfg, s, layer, posBase)|);
  }

  /** Dispatches of one prefill layer. */
  function LayerDispatches(cfg: Config, s: Scratch): nat
    requires s.PrefillScratch?
  {
    if s.t >= 128 then (if s.actF16 && cfg.kvF16 then 12 else 18) else if s.t == 1 then 16 else 17
  }

  lemma PrefillLayerCensus(cfg: Config, s: Scratch, layer: nat, posBase: nat)
    requires s.PrefillScratch?
    ensures Whole(PrefillLayer(cfg, s, layer, posBase)) == LayerDispatches(cfg, s)
  {
    var append, flash := AppendOps(cfg, s, layer, posBase), FlashOps(cfg, s, layer, posBase);
    var mlp := MlpOps(s, layer, XIn(s, layer), XIn(s, layer + 1));
    OnePerOp(ProjectOps(s, layer), 2);
    AppendCensus(cfg, s, layer, posBase);
    FlashCensus(cfg, s, layer, posBase);
    MlpCensus(s, layer, XIn(s, layer), XIn(s, layer + 1));
    WholeAppend(ProjectOps(s, layer), append);
    WholeAppend(flash, mlp);
    WholeAppend(ProjectOps(s, layer) + append, flash + mlp);
  }

  /** A prefill records twelve dispatches a layer where it packs Q, K and V, eighteen on other
      wide prompts, sixteen or seventeen on narrow ones, and the gather, logits and argmax. */
  lemma PrefillCensus(cfg: Config, s: Scratch, posBase: nat, name: Naming)
    requires s.PrefillScratch?
    ensures |Planned(PrefillOps(cfg, s, posBase), name)|
            == cfg.layers * LayerDispatches(cfg, s) + if s.t == 1 then 3 else 5
  {
    var parts, ops := PrefillLayers(cfg, s, posBase), PrefillOps(cfg, s, posBase);
    var gather, head, last := [EmbedGatherRows(TokenIds, Of(s, XA))], LmHeadOps(s, cfg.embd, XIn(s, cfg.layers)),
        [Argmax(Of(s, Logits), TokenBuf)];
    forall i | 0 <= i < |parts| ensures Whole(parts[i]) == LayerDispatches(cfg, s) {
      PrefillLayerCensus(cfg, s, i, posBase);
    }
    FlatCount(parts, cfg.layers, LayerDispatches(cfg, s));
    LmHeadCensus(s, cfg.embd, XIn(s, cfg.layers));
    OnePerOp(gather, 1);
    OnePerOp(last, 1);
    WholeAppend(gather, Flat(parts, cfg.layers));
    WholeAppend(head, last);
    WholeAppend(gather + Flat(parts, cfg.layers), head + last);
    CountIsPlanned(ops, name, |ops|);
  }

  // ---- Op by op, and the attention grid ----------------------------------

  lemma {:induction false} ConcatLength(groups: seq<seq<seq<Op>>>, n: nat, each: nat)
    requires n <= |groups| && forall i :: 0 <= i < n ==> |groups[i]| == each
    ensures |Concat(groups, n)| == Times(n, each)
  {
    if n > 0 {
      ConcatLength(groups, n - 1, each);
      Distrib(n - 1, 1, each);
    }
  }

  function LayerSubmits(attention: Attention): nat {
    match attention
    case FlashRow => 8
    case Fused => 6
    case Composed => 10
  }

  lemma LayerSubmitCensus(cfg: Config, attention: Attention, layer: nat, pos: nat)
    ensures var lists := LayerSubmissions(cfg, attention, layer, pos);
            && |lists| == LayerSubmits(attention)
            && forall j :: 0 <= j < |lists| ==> |lists[j]| == if j == 0 then 3 else 1
  {
    var mlp := MlpOps(DecodeScratch, layer, XIn(DecodeScratch, layer), XIn(DecodeScratch, layer + 1));
    assert |mlp| == 4;
    assert |PerOpAttention(cfg, attention, layer, pos)| == LayerSubmits(attention) - 5;
  }

  /** A per-op step makes eight submissions a layer with flash attention, six with fused and
      ten with composed attention, and one for the logits; in a layer only the three
      projections share one. */
  lemma PerOpCensus(cfg: Config, attention: Attention, pos: nat)
    ensures |PerOpSubmissions(cfg, attention, pos)| == cfg.layers * LayerSubmits(attention) + 1
  {
    var groups := LayersSubmissions(cfg, attention, pos);
    forall i | 0 <= i < |groups| ensures |groups[i]| == LayerSubmits(attention) {
      LayerSubmitCensus(cfg, attention, i, pos);
    }
    ConcatLength(groups, cfg.layers, LayerSubmits(attention));
  }

  /** Decode attention takes a chunk per 32 positions, but at least 8 and at most 32; a
      replayed dispatch takes all 32. */
  lemma ChunksRight(kvLen: nat)
    ensures AttnChunks(kvLen, true) == 32
    ensures var n := AttnChunks(kvLen, false);
            && 8 <= n <= 32 && (n < 32 ==> kvLen <= 32 * n) && (n > 8 ==> kvLen > 32 * (n - 1))
  {}
}
