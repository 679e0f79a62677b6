/** Running the session's op lists: each computes what the reference transformer does. */
module KvExec {
  import opened Arith
  import opened KvCache
  import opened KvDevice
  import opened KvLayer
  import opened KvOps
  import opened KvReference
  import opened Prelude

  // Every list computes the reference streams of its tokens in every layer, stores
  // them, and produces the greedy token.

  // ---- Every layer -------------------------------------------------------

  /** Layer `l` holds the streams of h up to position n, keys and values. */
  ghost predicate Holds(cfg: Config, kt: seq<Cache>, v: seq<Cache>, l: nat, h: seq<Tok>, n: nat)
    requires l < |kt| && l < |v| && n <= |h|
  {
    KtHolds(cfg, kt[l], Prefix(h, l, n), l) && VHolds(cfg, v[l], Prefix(h, l, n), l)
  }

  /** Every layer's caches hold the reference streams of the tokens `h`. */
  ghost predicate Stored(cfg: Config, kt: seq<Cache>, v: seq<Cache>, h: seq<Tok>) {
    && cfg.Valid() && |kt| == cfg.layers && |v| == cfg.layers && |h| <= cfg.tMax
    && forall l: nat :: l < cfg.layers ==> Holds(cfg, kt, v, l, h, |h|)
  }

  /** The caches hold `h` up to `base` and the first buffer the embeddings of the rest. */
  ghost predicate Begun(cfg: Config, m: Mem, s: Scratch, h: seq<Tok>, base: nat) {
    && WellSized(cfg, m) && base <= |h| <= cfg.tMax
    && (forall l: nat :: l < cfg.layers ==> Holds(cfg, m.kt, m.v, l, h, base))
    && At(m, Of(s, XA)) == Stream(Rows(h, 0, base, |h| - base))
  }

  /** Layer `l` gained exactly the positions from `base` on. */
  ghost predicate Gained(cfg: Config, m: Mem, after: Mem, l: nat, h: seq<Tok>, base: nat)
    requires l < |m.kt| && l < |m.v| && l < |after.kt| && l < |after.v| && base <= |h|
  {
    && KtWritten(cfg, m.kt[l], after.kt[l], base, Rows(h, l, base, |h| - base), l)
    && VWritten(cfg, m.v[l], after.v[l], base, Rows(h, l, base, |h| - base), l)
  }

  /** The first `n` layers gained them; the rest of the caches is untouched. */
  ghost predicate LayersGained(cfg: Config, m: Mem, after: Mem, n: nat, h: seq<Tok>, base: nat)
    requires base <= |h|
  {
    && |after.kt| == |m.kt| && |after.v| == |m.v|
    && forall l: nat :: l < |m.kt| && l < |m.v| ==>
         if l < n then Gained(cfg, m, after, l, h, base) else after.kt[l] == m.kt[l] && after.v[l] == m.v[l]
  }

  /** ... and the input of layer `n` is the reference's. */
  ghost predicate Reached(cfg: Config, m: Mem, after: Mem, s: Scratch, n: nat, h: seq<Tok>, base: nat)
    requires base <= |h|
  {
    && LayersGained(cfg, m, after, n, h, base) && after.token == m.token && after.ids == m.ids
    && At(after, XIn(s, n)) == Stream(Rows(h, n, base, |h| - base))
  }

  lemma ReadyForNext(cfg: Config, m: Mem, mid: Mem, s: Scratch, n: nat, h: seq<Tok>, base: nat)
    requires Begun(cfg, m, s, h, base) && Reached(cfg, m, mid, s, n, h, base) && n < cfg.layers
    ensures Ready(cfg, mid, s, n, h, base)
  {
    forall l: nat | l < cfg.layers ensures |mid.kt[l]| == Size(cfg) && |mid.v[l]| == Size(cfg) {
      if l < n { assert Gained(cfg, m, mid, l, h, base); }
    }
    assert Holds(cfg, m.kt, m.v, n, h, base);
    assert mid.kt[n] == m.kt[n] && mid.v[n] == m.v[n];
  }

  lemma ReachedNext(cfg: Config, m: Mem, mid: Mem, after: Mem, s: Scratch, n: nat, h: seq<Tok>, base: nat)
    requires base <= |h| && n < |m.kt| == |m.v|
    requires Reached(cfg, m, mid, s, n, h, base) && LayerDone(cfg, mid, after, s, n, h, base)
    ensures Reached(cfg, m, after, s, n + 1, h, base)
  {
    forall l: nat | l < |m.kt| && l < |m.v|
      ensures if l < n + 1 then Gained(cfg, m, after, l, h, base) else after.kt[l] == m.kt[l] && after.v[l] == m.v[l]
    {
      if l == n { assert mid.kt[n] == m.kt[n] && mid.v[n] == m.v[n]; }
      else if l < n { assert Gained(cfg, m, mid, l, h, base); }
    }
  }

  /** Between any two states in turn, layer by layer, one layer is done. */
  ghost predicate LayersWork(cfg: Config, s: Scratch, h: seq<Tok>, base: nat, states: seq<Mem>) {
    && base <= |h| && |states| == cfg.layers + 1
    && forall l: nat :: l < cfg.layers && Ready(cfg, states[l], s, l, h, base) ==>
         LayerDone(cfg, states[l], states[l + 1], s, l, h, base)
  }

  lemma {:induction false} LayersReach(cfg: Config, s: Scratch, h: seq<Tok>, base: nat, states: seq<Mem>, n: nat)
    requires n <= cfg.layers && LayersWork(cfg, s, h, base, states) && Begun(cfg, states[0], s, h, base)
    ensures Reached(cfg, states[0], states[n], s, n, h, base)
  {
    if n > 0 {
      LayersReach(cfg, s, h, base, states, n - 1);
      ReadyForNext(cfg, states[0], states[n - 1], s, n - 1, h, base);
      ReachedNext(cfg, states[0], states[n - 1], states[n], s, n - 1, h, base);
    }
  }

  /** The memories between the lists of `parts`, first and last included. */
  function States(cfg: Config, parts: seq<seq<Op>>, n: nat, m: Mem): (states: seq<Mem>)
    requires n <= |parts|
    ensures |states| == n + 1 && states[0] == m
    ensures forall i :: 0 <= i < n ==> states[i + 1] == Run(cfg, parts[i], states[i])
  {
    if n == 0 then [m]
    else
      var before := States(cfg, parts, n - 1, m);
      before + [Run(cfg, parts[n - 1], before[n - 1])]
  }

  lemma {:induction false} FlatRuns(cfg: Config, parts: seq<seq<Op>>, n: nat, m: Mem)
    requires n <= |parts|
    ensures Run(cfg, Flat(parts, n), m) == States(cfg, parts, n, m)[n]
  {
    if n > 0 {
      FlatRuns(cfg, parts, n - 1, m);
      RunAppend(cfg, Flat(parts, n - 1), parts[n - 1], m);
    }
  }

  // ---- The head ----------------------------------------------------------

  lemma RowHeadRuns(cfg: Config, s: Scratch, x: Tensor, last: Term, m: Mem)
    requires At(m, x) == Stream([last]) && s.Width() == 1
    ensures Run(cfg, LmHeadOps(s, cfg.embd, x), m) == Put(m, Of(s, Logits), LogitRow(last))
  {
    RunOne(cfg, LmHeadOps(s, cfg.embd, x)[0], m);
  }

  lemma RowsHeadRuns(cfg: Config, s: Scratch, x: Tensor, xs: seq<Term>, m: Mem)
    requires At(m, x) == Stream(xs) && |xs| == s.Width() > 1
    ensures var after := Run(cfg, LmHeadOps(s, cfg.embd, x), m);
            SameDevice(m, after) && At(after, Of(s, Logits)) == LogitRow(xs[|xs| - 1])
  {
    var ops, x' := LmHeadOps(s, cfg.embd, x), xs[|xs| - 1];
    LastCopyMoves(cfg.embd, |xs|);
    var m1 := Put(m, Of(s, Last), LastRow(x'));
    var m2 := Put(m1, Of(s, LastN), NormedLast(x'));
    var m3 := Put(m2, Of(s, Logits), LogitRow(x'));
    assert Apply(cfg, ops[0], m) == m1;
    assert Apply(cfg, ops[1], m1) == m2;
    assert Apply(cfg, ops[2], m2) == m3;
    RunThree(cfg, ops[0], ops[1], ops[2], m);
  }

  /** The head reads the last row, whatever the width. */
  lemma HeadRuns(cfg: Config, s: Scratch, x: Tensor, xs: seq<Term>, m: Mem)
    requires At(m, x) == Stream(xs) && |xs| == s.Width() > 0
    ensures var after := Run(cfg, LmHeadOps(s, cfg.embd, x), m);
            SameDevice(m, after) && At(after, Of(s, Logits)) == LogitRow(xs[|xs| - 1])
  {
    if s.Width() == 1 {
      assert xs == [xs[0]];
      RowHeadRuns(cfg, s, x, xs[0], m);
    } else {
      RowsHeadRuns(cfg, s, x, xs, m);
    }
  }

  // ---- Whole steps -------------------------------------------------------

  /** Every layer gained the streams of h from `base` on, and the logits are those of
      the last one. */
  ghost predicate Computed(cfg: Config, m: Mem, after: Mem, s: Scratch, h: seq<Tok>, base: nat) {
    && base < |h| && LayersGained(cfg, m, after, cfg.layers, h, base)
    && after.token == m.token && after.ids == m.ids
    && At(after, Of(s, Logits)) == LogitRow(StateAt(h, cfg.layers, |h| - 1))
  }

  /** The head after all layers. */
  lemma HeadComputes(cfg: Config, s: Scratch, h: seq<Tok>, base: nat, m: Mem, mid: Mem)
    requires base <= |h| && Reached(cfg, m, mid, s, cfg.layers, h, base) && |h| == base + s.Width() && s.Width() > 0
    ensures Computed(cfg, m, Run(cfg, LmHeadOps(s, cfg.embd, XIn(s, cfg.layers)), mid), s, h, base)
  {
    var after := Run(cfg, LmHeadOps(s, cfg.embd, XIn(s, cfg.layers)), mid);
    HeadRuns(cfg, s, XIn(s, cfg.layers), Rows(h, cfg.layers, base, |h| - base), mid);
    GainedThenSame(cfg, m, mid, after, cfg.layers, h, base);
  }

  /** All layers, then the head. */
  lemma StepRuns(cfg: Config, parts: seq<seq<Op>>, s: Scratch, h: seq<Tok>, base: nat, m: Mem)
    requires |parts| == cfg.layers && LayersWork(cfg, s, h, base, States(cfg, parts, cfg.layers, m))
    requires Begun(cfg, m, s, h, base) && |h| == base + s.Width() && s.Width() > 0
    ensures var ops := Flat(parts, cfg.layers) + LmHeadOps(s, cfg.embd, XIn(s, cfg.layers));
            Computed(cfg, m, Run(cfg, ops, m), s, h, base)
  {
    var states := States(cfg, parts, cfg.layers, m);
    LayersReach(cfg, s, h, base, states, cfg.layers);
    FlatRuns(cfg, parts, cfg.layers, m);
    RunAppend(cfg, Flat(parts, cfg.layers), LmHeadOps(s, cfg.embd, XIn(s, cfg.layers)), m);
    HeadComputes(cfg, s, h, base, m, states[cfg.layers]);
  }

  lemma SameThenGained(cfg: Config, m: Mem, mid: Mem, after: Mem, n: nat, h: seq<Tok>, base: nat)
    requires base <= |h| && mid.kt == m.kt && mid.v == m.v && LayersGained(cfg, mid, after, n, h, base)
    ensures LayersGained(cfg, m, after, n, h, base)
  {
    forall l: nat | l < |m.kt| && l < |m.v|
      ensures if l < n then Gained(cfg, m, after, l, h, base) else after.kt[l] == m.kt[l] && after.v[l] == m.v[l]
    {
      if l < n { assert Gained(cfg, mid, after, l, h, base); }
    }
  }

  lemma GainedThenSame(cfg: Config, m: Mem, mid: Mem, after: Mem, n: nat, h: seq<Tok>, base: nat)
    requires base <= |h| && LayersGained(cfg, m, mid, n, h, base) && SameDevice(mid, after)
    ensures LayersGained(cfg, m, after, n, h, base)
  {
    forall l: nat | l < |m.kt| && l < |m.v|
      ensures if l < n then Gained(cfg, m, after, l, h, base) else after.kt[l] == m.kt[l] && after.v[l] == m.v[l]
    {
      if l < n { assert Gained(cfg, m, mid, l, h, base); }
    }
  }

  /** One decode step, on whatever attention and grid, computes the reference streams of
      its token and stores them at the next position of every layer. */
  lemma DecodeRuns(cfg: Config, fused: bool, fixedGrid: bool, h: seq<Tok>, base: nat, m: Mem)
    requires Begun(cfg, m, DecodeScratch, h, base) && |h| == base + 1
    ensures Computed(cfg, m, Run(cfg, DecodeOps(cfg, fused, base, 0, fixedGrid), m), DecodeScratch, h, base)
  {
    var parts := DecodeLayers(cfg, fused, base, 0, fixedGrid);
    var states := States(cfg, parts, cfg.layers, m);
    forall l: nat | l < cfg.layers && Ready(cfg, states[l], DecodeScratch, l, h, base)
      ensures LayerDone(cfg, states[l], states[l + 1], DecodeScratch, l, h, base)
    {
      DecodeLayerRuns(cfg, fused, fixedGrid, l, h, base, states[l]);
    }
    StepRuns(cfg, parts, DecodeScratch, h, base, m);
  }

  /** So does a step submitted op by op. */
  lemma PerOpRuns(cfg: Config, attention: Attention, h: seq<Tok>, base: nat, m: Mem)
    requires Begun(cfg, m, DecodeScratch, h, base) && |h| == base + 1
    ensures Computed(cfg, m, Run(cfg, PerOpOps(cfg, attention, base), m), DecodeScratch, h, base)
  {
    var parts := PerOpLayers(cfg, attention, base);
    var states := States(cfg, parts, cfg.layers, m);
    forall l: nat | l < cfg.layers && Ready(cfg, states[l], DecodeScratch, l, h, base)
      ensures LayerDone(cfg, states[l], states[l + 1], DecodeScratch, l, h, base)
    {
      PerOpLayerRuns(cfg, attention, l, h, base, states[l]);
    }
    StepRuns(cfg, parts, DecodeScratch, h, base, m);
  }

  /** And a prefill, for all of its tokens at once, once they are gathered. */
  lemma PrefillLayersRun(cfg: Config, s: Scratch, h: seq<Tok>, base: nat, m: Mem)
    requires Begun(cfg, m, s, h, base) && |h| == base + s.Width() && s.Width() > 0
    ensures var ops := Flat(PrefillLayers(cfg, s, base), cfg.layers) + LmHeadOps(s, cfg.embd, XIn(s, cfg.layers));
            Computed(cfg, m, Run(cfg, ops, m), s, h, base)
  {
    var parts := PrefillLayers(cfg, s, base);
    var states := States(cfg, parts, cfg.layers, m);
    forall l: nat | l < cfg.layers && Ready(cfg, states[l], s, l, h, base)
      ensures LayerDone(cfg, states[l], states[l + 1], s, l, h, base)
    {
      PrefillLayerRuns(cfg, s, l, h, base, states[l]);
    }
    StepRuns(cfg, parts, s, h, base, m);
  }

  // ---- Histories ---------------------------------------------------------

  lemma StoredSized(cfg: Config, m: Mem, h: seq<Tok>)
    requires Stored(cfg, m.kt, m.v, h)
    ensures WellSized(cfg, m)
  {
    forall l: nat | l < cfg.layers ensures |m.kt[l]| == Size(cfg) && |m.v[l]| == Size(cfg) {
      assert Holds(cfg, m.kt, m.v, l, h, |h|);
    }
  }

  /** Caches that hold `h` are ready for more tokens, once those are embedded. */
  lemma Begins(cfg: Config, m: Mem, s: Scratch, h: seq<Tok>, toks: seq<Tok>)
    requires Stored(cfg, m.kt, m.v, h) && |h| + |toks| <= cfg.tMax && At(m, Of(s, XA)) == Stream(EmbedAll(toks))
    ensures Begun(cfg, m, s, h + toks, |h|)
  {
    StoredSized(cfg, m, h);
    EmbeddedRows(h, toks);
    forall l: nat | l < cfg.layers ensures Holds(cfg, m.kt, m.v, l, h + toks, |h|) {
      assert Holds(cfg, m.kt, m.v, l, h, |h|);
      PrefixKept(h, toks, l, |h|);
    }
  }

  lemma HistorySplits(h: seq<Tok>, toks: seq<Tok>, l: nat)
    ensures Prefix(h + toks, l, |h + toks|) == Prefix(h, l, |h|) + Rows(h + toks, l, |h|, |h + toks| - |h|)
  {
    PrefixKept(h, toks, l, |h|);
    PrefixSplits(h + toks, l, |h|, |toks|);
  }

  lemma LayerHistoryGains(cfg: Config, m: Mem, after: Mem, l: nat, h: seq<Tok>, toks: seq<Tok>)
    requires l < |m.kt| && l < |m.v| && l < |after.kt| && l < |after.v|
    requires Holds(cfg, m.kt, m.v, l, h, |h|) && Gained(cfg, m, after, l, h + toks, |h|)
    ensures Holds(cfg, after.kt, after.v, l, h + toks, |h + toks|)
  {
    var before, rows := Prefix(h, l, |h|), Rows(h + toks, l, |h|, |h + toks| - |h|);
    HistorySplits(h, toks, l);
    KtGains(cfg, m.kt[l], after.kt[l], before, rows, l);
    VGains(cfg, m.v[l], after.v[l], before, rows, l);
  }

  /** Gained positions extend the stored history, and every earlier one is kept. */
  lemma HistoryGains(cfg: Config, m: Mem, after: Mem, h: seq<Tok>, toks: seq<Tok>)
    requires Stored(cfg, m.kt, m.v, h) && |h| + |toks| <= cfg.tMax
    requires LayersGained(cfg, m, after, cfg.layers, h + toks, |h|)
    ensures Stored(cfg, after.kt, after.v, h + toks)
  {
    forall l: nat | l < cfg.layers ensures Holds(cfg, after.kt, after.v, l, h + toks, |h + toks|) {
      assert Holds(cfg, m.kt, m.v, l, h, |h|);
      assert Gained(cfg, m, after, l, h + toks, |h|);
      LayerHistoryGains(cfg, m, after, l, h, toks);
    }
  }

  /** The stored history grew by `toks`, by writing their positions and nothing else. */
  ghost predicate Extended(cfg: Config, m: Mem, after: Mem, h: seq<Tok>, toks: seq<Tok>) {
    Stored(cfg, after.kt, after.v, h + toks) && LayersGained(cfg, m, after, cfg.layers, h + toks, |h|)
  }

  /** ... and the logits of its last token are there for the host to sample. */
  ghost predicate Sampleable(cfg: Config, m: Mem, after: Mem, h: seq<Tok>, tok: Tok) {
    && Extended(cfg, m, after, h, [tok])
    && At(after, Of(DecodeScratch, Logits)) == LogitRow(StateAt(h + [tok], cfg.layers, |h|))
  }

  /** A decode step run alone, from caches like m's with the token's embedding uploaded. */
  lemma DecodeStores(cfg: Config, fused: bool, fixedGrid: bool, m: Mem, primed: Mem, h: seq<Tok>, tok: Tok, pos: nat)
    requires Primed(cfg, primed, h, tok) && pos == |h| < cfg.tMax && primed.kt == m.kt && primed.v == m.v
    ensures Sampleable(cfg, m, Run(cfg, DecodeOps(cfg, fused, pos, 0, fixedGrid), primed), h, tok)
  {
    var after := Run(cfg, DecodeOps(cfg, fused, pos, 0, fixedGrid), primed);
    assert EmbedAll([tok]) == [Embed(tok)];
    Begins(cfg, primed, DecodeScratch, h, [tok]);
    DecodeRuns(cfg, fused, fixedGrid, h + [tok], pos, primed);
    StepStores(cfg, m, primed, after, h, tok);
  }

  lemma StepStores(cfg: Config, m: Mem, primed: Mem, after: Mem, h: seq<Tok>, tok: Tok)
    requires Primed(cfg, primed, h, tok) && |h| < cfg.tMax && primed.kt == m.kt && primed.v == m.v
    requires Computed(cfg, primed, after, DecodeScratch, h + [tok], |h|)
    ensures Sampleable(cfg, m, after, h, tok)
  {
    HistoryGains(cfg, primed, after, h, [tok]);
    SameThenGained(cfg, m, primed, after, cfg.layers, h + [tok], |h|);
  }

  lemma PerOpStores(cfg: Config, attention: Attention, m: Mem, primed: Mem, h: seq<Tok>, tok: Tok)
    requires Primed(cfg, primed, h, tok) && |h| < cfg.tMax && primed.kt == m.kt && primed.v == m.v
    ensures Sampleable(cfg, m, Run(cfg, PerOpOps(cfg, attention, |h|), primed), h, tok)
  {
    var after := Run(cfg, PerOpOps(cfg, attention, |h|), primed);
    assert EmbedAll([tok]) == [Embed(tok)];
    Begins(cfg, primed, DecodeScratch, h, [tok]);
    PerOpRuns(cfg, attention, h + [tok], |h|, primed);
    StepStores(cfg, m, primed, after, h, tok);
  }

  // ---- Prefill -----------------------------------------------------------

  lemma GatherRuns(cfg: Config, s: Scratch, m: Mem)
    ensures Run(cfg, [EmbedGatherRows(TokenIds, Of(s, XA))], m) == Put(m, Of(s, XA), Stream(EmbedAll(m.ids)))
  {
    RunOne(cfg, EmbedGatherRows(TokenIds, Of(s, XA)), m);
  }

  lemma RunLast(cfg: Config, a: seq<Op>, b: seq<Op>, c: seq<Op>, m: Mem)
    ensures Run(cfg, a + (b + c), m) == Run(cfg, c, Run(cfg, a + b, m))
  {
    assert a + (b + c) == a + b + c;
    RunAppend(cfg, a + b, c, m);
  }

  /** Layers, head and argmax over gathered tokens. */
  lemma GatheredRuns(cfg: Config, s: Scratch, m: Mem, h: seq<Tok>, toks: seq<Tok>)
    requires Stored(cfg, m.kt, m.v, h) && |toks| == s.Width() > 0 && |h| + |toks| <= cfg.tMax
    requires At(m, Of(s, XA)) == Stream(EmbedAll(toks))
    ensures var layers := Flat(PrefillLayers(cfg, s, |h|), cfg.layers);
            var head := LmHeadOps(s, cfg.embd, XIn(s, cfg.layers));
            var after := Run(cfg, layers + (head + [Argmax(Of(s, Logits), TokenBuf)]), m);
            Extended(cfg, m, after, h, toks) && after.token == Next(cfg.layers, h + toks) && after.ids == m.ids
  {
    var layers, head := Flat(PrefillLayers(cfg, s, |h|), cfg.layers), LmHeadOps(s, cfg.embd, XIn(s, cfg.layers));
    var mid := Run(cfg, layers + head, m);
    RunLast(cfg, layers, head, [Argmax(Of(s, Logits), TokenBuf)], m);
    Begins(cfg, m, s, h, toks);
    PrefillLayersRun(cfg, s, h + toks, |h|, m);
    HistoryGains(cfg, m, mid, h, toks);
    ArgmaxRuns(cfg, s, mid, StateAt(h + toks, cfg.layers, |h + toks| - 1));
  }

  lemma PrefillSplits(cfg: Config, s: Scratch, base: nat, m: Mem)
    ensures var layers := Flat(PrefillLayers(cfg, s, base), cfg.layers);
            var head := LmHeadOps(s, cfg.embd, XIn(s, cfg.layers));
            Run(cfg, PrefillOps(cfg, s, base), m)
            == Run(cfg, layers + (head + [Argmax(Of(s, Logits), TokenBuf)]), Put(m, Of(s, XA), Stream(EmbedAll(m.ids))))
  {
    var gather, layers := [EmbedGatherRows(TokenIds, Of(s, XA))], Flat(PrefillLayers(cfg, s, base), cfg.layers);
    var tail := LmHeadOps(s, cfg.embd, XIn(s, cfg.layers)) + [Argmax(Of(s, Logits), TokenBuf)];
    assert PrefillOps(cfg, s, base) == gather + (layers + tail);
    RunAppend(cfg, gather, layers + tail, m);
    GatherRuns(cfg, s, m);
  }

  /** Prefilling the prompt in the id buffer extends the history by it and leaves the
      greedy token after it. */
  lemma PrefillRuns(cfg: Config, s: Scratch, m: Mem, h: seq<Tok>, toks: seq<Tok>)
    requires Stored(cfg, m.kt, m.v, h) && m.ids == toks && |toks| == s.Width() > 0 && |h| + |toks| <= cfg.tMax
    ensures var after := Run(cfg, PrefillOps(cfg, s, |h|), m);
            Extended(cfg, m, after, h, toks) && after.token == Next(cfg.layers, h + toks) && after.ids == toks
  {
    var gathered := Put(m, Of(s, XA), Stream(EmbedAll(toks)));
    PrefillSplits(cfg, s, |h|, m);
    GatheredRuns(cfg, s, gathered, h, toks);
  }

  /** The same from memory `m`, once the prompt is written. */
  lemma PrefillStores(cfg: Config, s: Scratch, m: Mem, h: seq<Tok>, toks: seq<Tok>)
    requires Stored(cfg, m.kt, m.v, h) && |toks| == s.Width() > 0 && |h| + |toks| <= cfg.tMax
    ensures var after := Run(cfg, PrefillOps(cfg, s, |h|), m.(ids := toks));
            Extended(cfg, m, after, h, toks) && after.token == Next(cfg.layers, h + toks)
  {
    var written := m.(ids := toks);
    PrefillRuns(cfg, s, written, h, toks);
    SameThenGained(cfg, m, written, Run(cfg, PrefillOps(cfg, s, |h|), written), cfg.layers, h + toks, |h|);
  }

  lemma ArgmaxRuns(cfg: Config, s: Scratch, m: Mem, last: Term)
    requires At(m, Of(s, Logits)) == LogitRow(last)
    ensures Run(cfg, [Argmax(Of(s, Logits), TokenBuf)], m) == m.(token := Greedy(last))
  {
    RunOne(cfg, Argmax(Of(s, Logits), TokenBuf), m);
  }

  // ---- Closed steps ------------------------------------------------------

  /** The device is about to run `tok` after `h`. */
  ghost predicate Primed(cfg: Config, m: Mem, h: seq<Tok>, tok: Tok) {
    Stored(cfg, m.kt, m.v, h) && At(m, Of(DecodeScratch, XA)) == Stream([Embed(tok)])
  }

  lemma CloseRuns(cfg: Config, m: Mem, last: Term)
    requires At(m, Of(DecodeScratch, Logits)) == LogitRow(last)
    ensures Run(cfg, DecodeCloseOps(), m)
            == Put(m.(token := Greedy(last)), Of(DecodeScratch, XA), Stream([Embed(Greedy(last))]))
  {
    var ops, m1 := DecodeCloseOps(), m.(token := Greedy(last));
    assert Apply(cfg, ops[0], m) == m1;
    RunTwo(cfg, ops[0], ops[1], m);
  }

  /** A closed step stores its token and feeds itself the greedy one after it. */
  lemma ClosedStepStores(cfg: Config, fused: bool, fixedGrid: bool, m: Mem, h: seq<Tok>, tok: Tok, pos: nat)
    requires Primed(cfg, m, h, tok) && pos == |h| < cfg.tMax
    ensures var after, next := Run(cfg, ClosedStep(cfg, fused, pos, 0, fixedGrid), m), Next(cfg.layers, h + [tok]);
            Primed(cfg, after, h + [tok], next) && after.token == next && Extended(cfg, m, after, h, [tok])
  {
    var step, last := DecodeOps(cfg, fused, pos, 0, fixedGrid), StateAt(h + [tok], cfg.layers, |h|);
    var mid := Run(cfg, step, m);
    RunAppend(cfg, step, DecodeCloseOps(), m);
    DecodeStores(cfg, fused, fixedGrid, m, m, h, tok, pos);
    CloseRuns(cfg, mid, last);
  }

  /** What a replay at `p` computes is what the list recorded for `p` now would. */
  lemma ReplayComputes(cfg: Config, p: nat, m: Mem)
    requires cfg.addr != 0
    ensures Run(cfg, Resolve(RelativeStep(cfg), p), m) == Run(cfg, ClosedStep(cfg, true, p, 0, false), m)
  {
    var replayed, rebuilt := Resolve(RelativeStep(cfg), p), ClosedStep(cfg, true, p, 0, false);
    ReplayMatchesBuilder(cfg, p);
    GridDoesNotMatter(cfg, replayed, rebuilt, |replayed|, m);
  }

  // ---- Runs of closed steps ----------------------------------------------

  /** `n` greedy tokens later, starting with `tok` after `h`. */
  ghost predicate Decoded(cfg: Config, m: Mem, h: seq<Tok>, tok: Tok, n: nat) {
    && Primed(cfg, m, h + Fed(cfg.layers, h, tok, n), Feed(cfg.layers, h, tok, n))
    && (n > 0 ==> m.token == Feed(cfg.layers, h, tok, n))
  }

  lemma DecodedPrimed(cfg: Config, m: Mem, h: seq<Tok>, tok: Tok, n: nat, fed: seq<Tok>, next: Tok)
    requires Decoded(cfg, m, h, tok, n) && fed == h + Fed(cfg.layers, h, tok, n) && next == Feed(cfg.layers, h, tok, n)
    ensures |fed| == |h| + n && Primed(cfg, m, fed, next)
  {}

  /** The history and the next token of a run, one greedy token later. */
  lemma DecodedNext(cfg: Config, m: Mem, h: seq<Tok>, tok: Tok, n: nat, fed: seq<Tok>)
    requires fed == h + Fed(cfg.layers, h, tok, n) + [Feed(cfg.layers, h, tok, n)]
    requires Primed(cfg, m, fed, Next(cfg.layers, fed)) && m.token == Next(cfg.layers, fed)
    ensures Decoded(cfg, m, h, tok, n + 1)
  {
    FedGrows(cfg.layers, h, tok, n);
  }

  /** One more closed step, on either grid, is one more greedy token. */
  lemma OneMore(cfg: Config, fixedGrid: bool, m: Mem, step: seq<Op>, after: Mem, h: seq<Tok>, tok: Tok, n: nat,
                pos: nat)
    requires Decoded(cfg, m, h, tok, n) && pos == |h| + n < cfg.tMax
    requires step == ClosedStep(cfg, true, pos, 0, fixedGrid) && after == Run(cfg, step, m)
    ensures Decoded(cfg, after, h, tok, n + 1)
  {
    var before, last := h + Fed(cfg.layers, h, tok, n), Feed(cfg.layers, h, tok, n);
    DecodedPrimed(cfg, m, h, tok, n, before, last);
    assert Primed(cfg, after, before + [last], Next(cfg.layers, before + [last]))
           && after.token == Next(cfg.layers, before + [last]) by {
      ClosedStepStores(cfg, true, fixedGrid, m, before, last, pos);
    }
    DecodedNext(cfg, after, h, tok, n, before + [last]);
  }

  ghost predicate StepsWork(cfg: Config, h: seq<Tok>, tok: Tok, states: seq<Mem>) {
    forall i :: 0 <= i < |states| - 1 && Decoded(cfg, states[i], h, tok, i) ==>
      Decoded(cfg, states[i + 1], h, tok, i + 1)
  }

  lemma {:induction false} StepsReach(cfg: Config, h: seq<Tok>, tok: Tok, states: seq<Mem>, n: nat)
    requires n < |states| && StepsWork(cfg, h, tok, states) && Primed(cfg, states[0], h, tok)
    ensures Decoded(cfg, states[n], h, tok, n)
  {
    if n == 0 {
      assert h + Fed(cfg.layers, h, tok, 0) == h;
    } else {
      StepsReach(cfg, h, tok, states, n - 1);
    }
  }

  lemma StepsAllWork(cfg: Config, h: seq<Tok>, tok: Tok, n: nat, parts: seq<seq<Op>>, states: seq<Mem>)
    requires |h| + n <= cfg.tMax && |parts| == n && |states| == n + 1
    requires forall i :: 0 <= i < n ==> parts[i] == ClosedStep(cfg, true, |h| + i, 0, false)
    requires forall i :: 0 <= i < n ==> states[i + 1] == Run(cfg, parts[i], states[i])
    ensures StepsWork(cfg, h, tok, states)
  {
    forall i | 0 <= i < n && Decoded(cfg, states[i], h, tok, i) ensures Decoded(cfg, states[i + 1], h, tok, i + 1) {
      OneMore(cfg, false, states[i], parts[i], states[i + 1], h, tok, i, |h| + i);
    }
  }

  /** One submission of n unrolled steps is n greedy tokens. */
  lemma UnrolledDecodes(cfg: Config, m: Mem, h: seq<Tok>, tok: Tok, n: nat)
    requires Primed(cfg, m, h, tok) && |h| + n <= cfg.tMax
    ensures Decoded(cfg, Run(cfg, UnrolledOps(cfg, |h|, n), m), h, tok, n)
  {
    var parts := ClosedSteps(cfg, |h|, n, false);
    StepsAllWork(cfg, h, tok, n, parts, States(cfg, parts, n, m));
    StepsReach(cfg, h, tok, States(cfg, parts, n, m), n);
    FlatRuns(cfg, parts, n, m);
  }

  // ---- The paths agree ---------------------------------------------------

  /** Every layer's caches hold the same elements at every position below n. */
  ghost predicate SameBelow(cfg: Config, a: Mem, b: Mem, n: nat) {
    && |a.kt| == |a.v| == |b.kt| == |b.v|
    && forall l: nat :: l < |a.kt| ==> SameCells(cfg, a.kt[l], a.v[l], b.kt[l], b.v[l], n)
  }

  /** The history determines every element below its length, however it got there. */
  lemma StoredAgree(cfg: Config, a: Mem, b: Mem, h: seq<Tok>)
    requires Stored(cfg, a.kt, a.v, h) && Stored(cfg, b.kt, b.v, h)
    ensures SameBelow(cfg, a, b, |h|)
  {
    forall l: nat | l < cfg.layers ensures SameCells(cfg, a.kt[l], a.v[l], b.kt[l], b.v[l], |h|) {
      assert Holds(cfg, a.kt, a.v, l, h, |h|) && Holds(cfg, b.kt, b.v, l, h, |h|);
      HeldAgree(cfg, a.kt[l], a.v[l], b.kt[l], b.v[l], Prefix(h, l, |h|), l);
    }
  }
}
