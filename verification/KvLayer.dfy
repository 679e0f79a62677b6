/** Running the ops of one layer on the device: its projections reach the caches, its
    attention reads the whole prefix, and its MLP leaves the stream of the next layer. */
module KvLayer {
  import opened Arith
  import opened KvCache
  import opened KvDevice
  import opened KvOps
  import opened KvReference
  import opened Prelude
  import opened Strided

  // ---- One layer: what goes in and what comes out ------------------------

  /** Every layer has both caches. */
  ghost predicate WellSized(cfg: Config, m: Mem) {
    && cfg.Valid() && |m.kt| == cfg.layers && |m.v| == cfg.layers
    && forall l :: 0 <= l < cfg.layers ==> |m.kt[l]| == Size(cfg) && |m.v[l]| == Size(cfg)
  }

  /** Only activations differ. */
  predicate SameDevice(m: Mem, after: Mem) {
    after.kt == m.kt && after.v == m.v && after.token == m.token && after.ids == m.ids
  }

  /** Both caches of layer `l` gained the streams xs from position `base` on; the
      other layers, the token cell and the prompt are as before. */
  ghost predicate LayerStored(cfg: Config, m: Mem, after: Mem, l: nat, base: nat, xs: seq<Term>) {
    && |after.kt| == |m.kt| && |after.v| == |m.v| && l < |m.kt| && l < |m.v|
    && after.token == m.token && after.ids == m.ids
    && KtWritten(cfg, m.kt[l], after.kt[l], base, xs, l)
    && VWritten(cfg, m.v[l], after.v[l], base, xs, l)
    && (forall i :: 0 <= i < |m.kt| && i != l ==> after.kt[i] == m.kt[i])
    && (forall i :: 0 <= i < |m.v| && i != l ==> after.v[i] == m.v[i])
  }

  lemma KtStoreWritten(cfg: Config, cache: Cache, pos: nat, x: Term, layer: nat, val: nat -> Elem)
    requires cfg.dh > 0 && pos < cfg.tMax && |cache| == Size(cfg) && forall c: nat :: val(c) == Key(x, layer, c, pos)
    ensures KtWritten(cfg, cache, StoreRow(cfg, cache, KtStore(cfg, pos), val), pos, [x], layer)
  {
    var after := StoreRow(cfg, cache, KtStore(cfg, pos), val);
    forall h: nat, d: nat, p: nat | InCache(cfg, h, d, p)
      ensures KtCell(cfg, h, d, p) < |after|
              && after[KtCell(cfg, h, d, p)] ==
                   if pos <= p < pos + 1 then Key([x][p - pos], layer, Column(cfg, h, d), p)
                   else cache[KtCell(cfg, h, d, p)]
    {
      KtStoreEffect(cfg, cache, pos, x, layer, val, h, d, p);
    }
  }

  lemma VStoreWritten(cfg: Config, cache: Cache, pos: nat, x: Term, layer: nat, val: nat -> Elem)
    requires cfg.dh > 0 && pos < cfg.tMax && |cache| == Size(cfg) && forall c: nat :: val(c) == Value(x, layer, c)
    ensures VWritten(cfg, cache, StoreRow(cfg, cache, VStore(cfg, pos), val), pos, [x], layer)
  {
    var after := StoreRow(cfg, cache, VStore(cfg, pos), val);
    forall h: nat, d: nat, p: nat | InCache(cfg, h, d, p)
      ensures VCell(cfg, h, d, p) < |after|
              && after[VCell(cfg, h, d, p)] ==
                   if pos <= p < pos + 1 then Value([x][p - pos], layer, Column(cfg, h, d))
                   else cache[VCell(cfg, h, d, p)]
    {
      VStoreEffect(cfg, cache, pos, x, layer, val, h, d, p);
    }
  }

  // ---- Decode: the three GEMVs -------------------------------------------

  /** The memory after the decode projections of layer `l`. */
  function Projected(cfg: Config, m: Mem, l: nat, x: Term, pos: nat): Mem
    requires l < |m.kt| && l < |m.v| && cfg.dh > 0
  {
    var row := Stream([x]);
    SetV(SetKt(Put(m, Of(DecodeScratch, Q), Queries([x], l, Some(pos), false)),
               l, StoreRow(cfg, m.kt[l], KtStore(cfg, pos), KeyColumn(row, LayerWeight(l, WkP), true, pos))),
         l, StoreRow(cfg, m.v[l], VStore(cfg, pos), ValueColumn(row, LayerWeight(l, WvP), true)))
  }

  lemma QkvRuns(cfg: Config, l: nat, xIn: Tensor, pos: nat, x: Term, m: Mem)
    requires At(m, xIn) == Stream([x]) && xIn != Of(DecodeScratch, Q) && l < |m.kt| && l < |m.v| && cfg.dh > 0
    ensures Run(cfg, QkvDecodeOps(cfg, l, xIn, pos, 0), m) == Projected(cfg, m, l, x, pos)
  {
    var ops := QkvDecodeOps(cfg, l, xIn, pos, 0);
    var m1 := Put(m, Of(DecodeScratch, Q), Queries([x], l, Some(pos), false));
    var m2 := SetKt(m1, l, StoreRow(cfg, m.kt[l], KtStore(cfg, pos),
                                    KeyColumn(Stream([x]), LayerWeight(l, WkP), true, pos)));
    var m3 := Projected(cfg, m, l, x, pos);
    assert Apply(cfg, ops[0], m) == m1;
    assert Apply(cfg, ops[1], m1) == m2;
    assert Apply(cfg, ops[2], m2) == m3;
    RunThree(cfg, ops[0], ops[1], ops[2], m);
  }

  lemma ProjectedStored(cfg: Config, m: Mem, l: nat, x: Term, pos: nat)
    requires WellSized(cfg, m) && l < cfg.layers && pos < cfg.tMax
    ensures LayerStored(cfg, m, Projected(cfg, m, l, x, pos), l, pos, [x])
  {
    KtStoreWritten(cfg, m.kt[l], pos, x, l, KeyColumn(Stream([x]), LayerWeight(l, WkP), true, pos));
    VStoreWritten(cfg, m.v[l], pos, x, l, ValueColumn(Stream([x]), LayerWeight(l, WvP), true));
  }

  // ---- Decode: attention -------------------------------------------------

  /** The row of queries of stream x at position pos, over caches that hold `all` up to
      and including x. */
  ghost predicate ReadyToAttend(cfg: Config, m: Mem, l: nat, x: Term, pos: nat, all: seq<Term>) {
    && cfg.Valid() && l < |m.kt| && l < |m.v| && |all| == pos + 1 <= cfg.tMax
    && KtHolds(cfg, m.kt[l], all, l) && VHolds(cfg, m.v[l], all, l)
    && At(m, Of(DecodeScratch, Q)) == Queries([x], l, Some(pos), false)
  }

  /** What attention must leave for the MLP block. */
  ghost predicate AttendedIn(m: Mem, after: Mem, s: Scratch, l: nat, xs: seq<Term>, contexts: seq<seq<Term>>) {
    && SameDevice(m, after)
    && At(after, Of(s, AttnFlat)) == Attended(xs, l, contexts, false)
    && At(after, Of(s, XA)) == At(m, Of(s, XA)) && At(after, Of(s, XB)) == At(m, Of(s, XB))
  }

  /** One row over the whole prefix. */
  lemma OneRowAttends(cfg: Config, kt: Cache, v: Cache, l: nat, x: Term, pos: nat, all: seq<Term>, headMajor: bool)
    requires cfg.Valid() && |all| == pos + 1 <= cfg.tMax && KtHolds(cfg, kt, all, l) && VHolds(cfg, v, all, l)
    ensures Attend(cfg, kt, v, l, [x], pos, headMajor) == Attended([x], l, [all], headMajor)
  {
    HeldIsCoherent(cfg, kt, v, all, l);
    OneCausalRow(all, pos);
  }

  lemma FusedAttends(cfg: Config, l: nat, pos: nat, x: Term, all: seq<Term>, chunks: nat, m: Mem)
    requires ReadyToAttend(cfg, m, l, x, pos, all) && chunks > 0
    ensures var s := DecodeScratch;
            var op := AttnDecode(Of(s, Q), KtCache(l), VCache(l), Of(s, Partials), Of(s, AttnFlat), pos + 1, 0, chunks);
            AttendedIn(m, Run(cfg, [op], m), s, l, [x], [all])
  {
    var s := DecodeScratch;
    var op := AttnDecode(Of(s, Q), KtCache(l), VCache(l), Of(s, Partials), Of(s, AttnFlat), pos + 1, 0, chunks);
    HeldIsCoherent(cfg, m.kt[l], m.v[l], all, l);
    ChunkedIsWhole(cfg, At(m, Of(s, Q)), KtCache(l), VCache(l), pos + 1, chunks, m);
    RunOne(cfg, op, m);
  }

  lemma ScoresApply(cfg: Config, l: nat, pos: nat, q: Tensor, scores: Tensor, x: Term, m: Mem)
    requires l < |m.kt| && At(m, q) == Queries([x], l, Some(pos), false)
    ensures Apply(cfg, MatmulOf(q, KtCache(l), scores), m) == Put(m, scores, ScoreRow(x, l, pos, m.kt[l]))
  {}

  lemma WeightsApply(cfg: Config, l: nat, pos: nat, scores: Tensor, out: Tensor, x: Term, all: seq<Term>, keys: Cache,
                     m: Mem)
    requires cfg.Valid() && l < |m.v| && |all| == pos + 1 <= cfg.tMax
    requires KtHolds(cfg, keys, all, l) && VHolds(cfg, m.v[l], all, l)
    requires At(m, scores) == WeightRow(x, l, pos, keys, pos + 1)
    ensures Apply(cfg, MatmulOf(scores, VCache(l), out), m) == Put(m, out, Attended([x], l, [all], false))
  {
    OneRowAttends(cfg, keys, m.v[l], l, x, pos, all, false);
  }

  /** Composed attention: scores against the key cache, masked softmax, values. */
  lemma ComposedRuns(cfg: Config, l: nat, pos: nat, q: Tensor, buf: Buf, x: Term, all: seq<Term>, m: Mem)
    requires cfg.Valid() && l < |m.kt| && l < |m.v| && |all| == pos + 1 <= cfg.tMax
    requires KtHolds(cfg, m.kt[l], all, l) && VHolds(cfg, m.v[l], all, l)
             && At(m, q) == Queries([x], l, Some(pos), false)
    requires buf == AttnFlat || buf == AttnHeads
    ensures var s, out := DecodeScratch, Of(DecodeScratch, buf);
            var after := Run(cfg, ComposedAttention(l, q, out, pos), m);
            SameDevice(m, after) && At(after, out) == Attended([x], l, [all], false)
            && At(after, Of(s, XA)) == At(m, Of(s, XA)) && At(after, Of(s, XB)) == At(m, Of(s, XB))
  {
    var scores, out := Of(DecodeScratch, Scores), Of(DecodeScratch, buf);
    var m1 := Put(m, scores, ScoreRow(x, l, pos, m.kt[l]));
    var m2 := Put(m1, scores, WeightRow(x, l, pos, m.kt[l], pos + 1));
    var m3 := Put(m2, out, Attended([x], l, [all], false));
    ScoresApply(cfg, l, pos, q, scores, x, m);
    assert Apply(cfg, SoftmaxPrefix(scores, pos + 1), m1) == m2;
    WeightsApply(cfg, l, pos, scores, out, x, all, m.kt[l], m2);
    RunThree(cfg, MatmulOf(q, KtCache(l), scores), SoftmaxPrefix(scores, pos + 1), MatmulOf(scores, VCache(l), out), m);
    assert Run(cfg, ComposedAttention(l, q, out, pos), m) == m3;
  }

  /** A straight copy keeps what one row holds. */
  lemma QueryReshaped(cfg: Config, l: nat, pos: nat, x: Term, m: Mem)
    requires At(m, Of(DecodeScratch, Q)) == Queries([x], l, Some(pos), false)
    ensures Run(cfg, [CopyStrided(Of(DecodeScratch, Q), Of(DecodeScratch, QHeads), Straight(cfg.embd))], m)
            == Put(m, Of(DecodeScratch, QHeads), Queries([x], l, Some(pos), false))
  {
    StraightMoves(cfg.embd);
    RunOne(cfg, CopyStrided(Of(DecodeScratch, Q), Of(DecodeScratch, QHeads), Straight(cfg.embd)), m);
  }

  lemma OutputReshaped(cfg: Config, l: nat, x: Term, all: seq<Term>, m: Mem)
    requires At(m, Of(DecodeScratch, AttnHeads)) == Attended([x], l, [all], false)
    ensures Run(cfg, [CopyStrided(Of(DecodeScratch, AttnHeads), Of(DecodeScratch, AttnFlat), Straight(cfg.embd))], m)
            == Put(m, Of(DecodeScratch, AttnFlat), Attended([x], l, [all], false))
  {
    StraightMoves(cfg.embd);
    RunOne(cfg, CopyStrided(Of(DecodeScratch, AttnHeads), Of(DecodeScratch, AttnFlat), Straight(cfg.embd)), m);
  }

  /** The same between explicit reshapes. */
  lemma ReshapedAttends(cfg: Config, l: nat, pos: nat, x: Term, all: seq<Term>, m: Mem)
    requires ReadyToAttend(cfg, m, l, x, pos, all)
    ensures AttendedIn(m, Run(cfg, PerOpAttention(cfg, Composed, l, pos), m), DecodeScratch, l, [x], [all])
  {
    var q, heads := Of(DecodeScratch, QHeads), Of(DecodeScratch, AttnHeads);
    var before := [CopyStrided(Of(DecodeScratch, Q), q, Straight(cfg.embd))];
    var after := [CopyStrided(heads, Of(DecodeScratch, AttnFlat), Straight(cfg.embd))];
    var attend := ComposedAttention(l, q, heads, pos);
    var m1 := Run(cfg, before, m);
    RunAppend(cfg, before + attend, after, m);
    RunAppend(cfg, before, attend, m);
    QueryReshaped(cfg, l, pos, x, m);
    ComposedRuns(cfg, l, pos, q, AttnHeads, x, all, m1);
    OutputReshaped(cfg, l, x, all, Run(cfg, attend, m1));
  }

  /** Single-row flash attention between two straight copies. */
  lemma FlashRowAttends(cfg: Config, l: nat, pos: nat, x: Term, all: seq<Term>, m: Mem)
    requires ReadyToAttend(cfg, m, l, x, pos, all)
    ensures AttendedIn(m, Run(cfg, PerOpAttention(cfg, FlashRow, l, pos), m), DecodeScratch, l, [x], [all])
  {
    var s := DecodeScratch;
    var ops := PerOpAttention(cfg, FlashRow, l, pos);
    var m1 := Put(m, Of(s, QFlash), Queries([x], l, Some(pos), false));
    var m2 := Put(m1, Of(s, AttnFlash), Attended([x], l, [all], true));
    var m3 := Put(m2, Of(s, AttnFlat), Attended([x], l, [all], false));
    StraightMoves(cfg.embd);
    OneRowAttends(cfg, m.kt[l], m.v[l], l, x, pos, all, true);
    assert Apply(cfg, ops[0], m) == m1;
    assert Apply(cfg, ops[1], m1) == m2;
    assert Apply(cfg, ops[2], m2) == m3;
    RunThree(cfg, ops[0], ops[1], ops[2], m);
  }

  lemma FusedReads(cfg: Config, l: nat, pos: nat, fixedGrid: bool, x: Term, all: seq<Term>, m: Mem)
    requires ReadyToAttend(cfg, m, l, x, pos, all)
    ensures AttendedIn(m, Run(cfg, AttentionOps(l, true, pos, 0, fixedGrid), m), DecodeScratch, l, [x], [all])
  {
    var s, chunks := DecodeScratch, AttnChunks(pos + 1, fixedGrid);
    FusedAttends(cfg, l, pos, x, all, chunks, m);
    assert AttentionOps(l, true, pos, 0, fixedGrid)
           == [AttnDecode(Of(s, Q), KtCache(l), VCache(l), Of(s, Partials), Of(s, AttnFlat), pos + 1, 0, chunks)];
  }

  lemma ComposedReads(cfg: Config, l: nat, pos: nat, fixedGrid: bool, x: Term, all: seq<Term>, m: Mem)
    requires ReadyToAttend(cfg, m, l, x, pos, all)
    ensures AttendedIn(m, Run(cfg, AttentionOps(l, false, pos, 0, fixedGrid), m), DecodeScratch, l, [x], [all])
  {
    ComposedRuns(cfg, l, pos, Of(DecodeScratch, Q), AttnFlat, x, all, m);
  }

  /** Whichever way a step attends, on whichever grid, it reads exactly the prefix. */
  lemma AttentionReads(cfg: Config, l: nat, fused: bool, pos: nat, fixedGrid: bool, x: Term, all: seq<Term>, m: Mem)
    requires ReadyToAttend(cfg, m, l, x, pos, all)
    ensures AttendedIn(m, Run(cfg, AttentionOps(l, fused, pos, 0, fixedGrid), m), DecodeScratch, l, [x], [all])
  {
    if fused {
      FusedReads(cfg, l, pos, fixedGrid, x, all, m);
    } else {
      ComposedReads(cfg, l, pos, fixedGrid, x, all, m);
    }
  }

  lemma PerOpAttentionReads(cfg: Config, l: nat, attention: Attention, pos: nat, x: Term, all: seq<Term>, m: Mem)
    requires ReadyToAttend(cfg, m, l, x, pos, all)
    ensures AttendedIn(m, Run(cfg, PerOpAttention(cfg, attention, l, pos), m), DecodeScratch, l, [x], [all])
  {
    match attention
    case FlashRow => FlashRowAttends(cfg, l, pos, x, all, m);
    case Fused => FusedAttends(cfg, l, pos, x, all, NumChunks(pos + 1), m);
    case Composed => ReshapedAttends(cfg, l, pos, x, all, m);
  }

  // ---- The MLP block -----------------------------------------------------

  /** Attention done: its output is in AttnFlat, the layer's input still in xIn. */
  ghost predicate ReadyForMlp(m: Mem, s: Scratch, xIn: Tensor, xOut: Tensor, l: nat, xs: seq<Term>,
                              contexts: seq<seq<Term>>)
  {
    && At(m, Of(s, AttnFlat)) == Attended(xs, l, contexts, false)
    && At(m, xIn) == Stream(xs) && |contexts| == |xs|
    && (xIn == Of(s, XA) || xIn == Of(s, XB)) && (xOut == Of(s, XA) || xOut == Of(s, XB))
  }

  /** The output is this layer's block of the streams and their contexts. */
  ghost predicate LayerOut(m: Mem, after: Mem, xOut: Tensor, l: nat, xs: seq<Term>, contexts: seq<seq<Term>>)
    requires |contexts| == |xs|
  {
    SameDevice(m, after) && At(after, xOut) == Stream(Blocks(l, xs, contexts))
  }

  // The three parts of the block: into the middle of the layer, through the gated
  // product, out of the layer.

  lemma MlpHeadRuns(cfg: Config, s: Scratch, xIn: Tensor, xOut: Tensor, l: nat, xs: seq<Term>,
                    contexts: seq<seq<Term>>, m: Mem)
    requires ReadyForMlp(m, s, xIn, xOut, l, xs, contexts)
    ensures var after := Run(cfg, MlpHead(s, l, xIn), m);
            SameDevice(m, after) && At(after, Of(s, O)) == Inside(Middle, xs, l, contexts)
  {
    var ops, o := MlpHead(s, l, xIn), Of(s, O);
    if s.Width() >= 128 {
      var m1 := Put(m, o, Inside(OutProjection, xs, l, contexts));
      var m2 := Put(m1, o, Inside(Middle, xs, l, contexts));
      assert Apply(cfg, ops[0], m) == m1 && Apply(cfg, ops[1], m1) == m2;
      RunTwo(cfg, ops[0], ops[1], m);
    } else {
      RunOne(cfg, ops[0], m);
    }
  }

  ghost predicate FfnDone(m: Mem, after: Mem, s: Scratch, l: nat, xs: seq<Term>, contexts: seq<seq<Term>>) {
    SameDevice(m, after) && At(after, Of(s, Gate)) == Inside(GatedProduct, xs, l, contexts)
    && At(after, Of(s, O)) == At(m, Of(s, O))
  }

  lemma FfnNormApplies(cfg: Config, o: Tensor, on: Tensor, xs: seq<Term>, l: nat, contexts: seq<seq<Term>>, m: Mem)
    requires At(m, o) == Inside(Middle, xs, l, contexts) && |contexts| == |xs|
    ensures Apply(cfg, RmsNorm(o, LayerWeight(l, FfnNorm), on), m) == Put(m, on, Inside(NormedMiddle, xs, l, contexts))
  {}

  lemma UpApplies(cfg: Config, on: Tensor, up: Tensor, xs: seq<Term>, l: nat, contexts: seq<seq<Term>>, m: Mem)
    requires At(m, on) == Inside(NormedMiddle, xs, l, contexts) && |contexts| == |xs|
    ensures Apply(cfg, MatmulOf(on, LayerWeight(l, WUp), up), m) == Put(m, up, Inside(UpProjection, xs, l, contexts))
  {}

  lemma GateApplies(cfg: Config, on: Tensor, gate: Tensor, xs: seq<Term>, l: nat, contexts: seq<seq<Term>>, m: Mem)
    requires At(m, on) == Inside(NormedMiddle, xs, l, contexts) && |contexts| == |xs|
    ensures Apply(cfg, MatmulOf(on, LayerWeight(l, WGate), gate), m)
            == Put(m, gate, Inside(GateProjection, xs, l, contexts))
  {}

  lemma SiluApplies(cfg: Config, gate: Tensor, up: Tensor, xs: seq<Term>, l: nat, contexts: seq<seq<Term>>, m: Mem)
    requires At(m, gate) == Inside(GateProjection, xs, l, contexts)
    requires At(m, up) == Inside(UpProjection, xs, l, contexts)
    ensures Apply(cfg, SiluMul(gate, up, gate), m) == Put(m, gate, Inside(GatedProduct, xs, l, contexts))
  {}

  /** The plain products, for matrices that take the tensor-core route. */
  lemma WideFfnRuns(cfg: Config, s: Scratch, l: nat, xs: seq<Term>, contexts: seq<seq<Term>>, m: Mem)
    requires At(m, Of(s, O)) == Inside(Middle, xs, l, contexts) && |contexts| == |xs| && s.Width() >= 128
    ensures FfnDone(m, Run(cfg, MlpFfn(s, l), m), s, l, xs, contexts)
  {
    var ops := MlpFfn(s, l);
    var gate, up, o, on := Of(s, Gate), Of(s, Up), Of(s, O), Of(s, On);
    var m1 := Put(m, on, Inside(NormedMiddle, xs, l, contexts));
    var m2 := Put(m1, up, Inside(UpProjection, xs, l, contexts));
    var m3 := Put(m2, gate, Inside(GateProjection, xs, l, contexts));
    var m4 := Put(m3, gate, Inside(GatedProduct, xs, l, contexts));
    FfnNormApplies(cfg, o, on, xs, l, contexts, m);
    UpApplies(cfg, on, up, xs, l, contexts, m1);
    GateApplies(cfg, on, gate, xs, l, contexts, m2);
    SiluApplies(cfg, gate, up, xs, l, contexts, m3);
    RunFour(cfg, ops[0], ops[1], ops[2], ops[3], m);
    assert ops == [ops[0], ops[1], ops[2], ops[3]];
  }

  /** One row: the norm is folded into the packed GEMVs. */
  lemma RowFfnRuns(cfg: Config, s: Scratch, l: nat, xs: seq<Term>, contexts: seq<seq<Term>>, m: Mem)
    requires At(m, Of(s, O)) == Inside(Middle, xs, l, contexts) && |contexts| == |xs| && s.Width() == 1
    ensures FfnDone(m, Run(cfg, MlpFfn(s, l), m), s, l, xs, contexts)
  {
    var ops := MlpFfn(s, l);
    var gate, up, o := Of(s, Gate), Of(s, Up), Of(s, O);
    var m1 := Put(m, up, Inside(UpProjection, xs, l, contexts));
    var m2 := Put(m1, gate, Inside(GatedProduct, xs, l, contexts));
    assert Apply(cfg, ops[0], m) == m1 && Apply(cfg, ops[1], m1) == m2;
    RunTwo(cfg, ops[0], ops[1], m);
  }

  /** A few rows: the norm is its own op. */
  lemma NarrowFfnRuns(cfg: Config, s: Scratch, l: nat, xs: seq<Term>, contexts: seq<seq<Term>>, m: Mem)
    requires At(m, Of(s, O)) == Inside(Middle, xs, l, contexts) && |contexts| == |xs|
    requires s.Width() < 128 && s.Width() != 1
    ensures FfnDone(m, Run(cfg, MlpFfn(s, l), m), s, l, xs, contexts)
  {
    var ops := MlpFfn(s, l);
    var gate, up, o, on := Of(s, Gate), Of(s, Up), Of(s, O), Of(s, On);
    var m1 := Put(m, on, Inside(NormedMiddle, xs, l, contexts));
    var m2 := Put(m1, up, Inside(UpProjection, xs, l, contexts));
    var m3 := Put(m2, gate, Inside(GatedProduct, xs, l, contexts));
    FfnNormApplies(cfg, o, on, xs, l, contexts, m);
    UpApplies(cfg, on, up, xs, l, contexts, m1);
    assert Apply(cfg, ops[0], m) == m1;
    assert Apply(cfg, ops[1], m1) == m2;
    assert Apply(cfg, ops[2], m2) == m3;
    RunThree(cfg, ops[0], ops[1], ops[2], m);
  }

  lemma FfnRuns(cfg: Config, s: Scratch, l: nat, xs: seq<Term>, contexts: seq<seq<Term>>, m: Mem)
    requires At(m, Of(s, O)) == Inside(Middle, xs, l, contexts) && |contexts| == |xs|
    ensures FfnDone(m, Run(cfg, MlpFfn(s, l), m), s, l, xs, contexts)
  {
    if s.Width() >= 128 { WideFfnRuns(cfg, s, l, xs, contexts, m); }
    else if s.Width() == 1 { RowFfnRuns(cfg, s, l, xs, contexts, m); }
    else { NarrowFfnRuns(cfg, s, l, xs, contexts, m); }
  }

  lemma WideDownRuns(cfg: Config, s: Scratch, xOut: Tensor, l: nat, xs: seq<Term>, contexts: seq<seq<Term>>, m: Mem)
    requires At(m, Of(s, Gate)) == Inside(GatedProduct, xs, l, contexts)
             && At(m, Of(s, O)) == Inside(Middle, xs, l, contexts)
    requires |contexts| == |xs| && (xOut == Of(s, XA) || xOut == Of(s, XB)) && s.Width() >= 128
    ensures Run(cfg, MlpDown(s, l, xOut), m)
            == Put(Put(m, xOut, Inside(DownProjection, xs, l, contexts)), xOut, Stream(Blocks(l, xs, contexts)))
  {
    var ops := MlpDown(s, l, xOut);
    var m1 := Put(m, xOut, Inside(DownProjection, xs, l, contexts));
    assert Apply(cfg, ops[0], m) == m1;
    RunTwo(cfg, ops[0], ops[1], m);
  }

  lemma MlpDownRuns(cfg: Config, s: Scratch, xOut: Tensor, l: nat, xs: seq<Term>, contexts: seq<seq<Term>>, m: Mem)
    requires At(m, Of(s, Gate)) == Inside(GatedProduct, xs, l, contexts)
             && At(m, Of(s, O)) == Inside(Middle, xs, l, contexts)
    requires |contexts| == |xs| && (xOut == Of(s, XA) || xOut == Of(s, XB))
    ensures LayerOut(m, Run(cfg, MlpDown(s, l, xOut), m), xOut, l, xs, contexts)
  {
    if s.Width() >= 128 {
      WideDownRuns(cfg, s, xOut, l, xs, contexts, m);
    } else {
      RunOne(cfg, MlpDown(s, l, xOut)[0], m);
    }
  }

  /** Every width runs the same block, xIn to xOut. */
  lemma MlpRuns(cfg: Config, s: Scratch, xIn: Tensor, xOut: Tensor, l: nat, xs: seq<Term>, contexts: seq<seq<Term>>,
                m: Mem)
    requires ReadyForMlp(m, s, xIn, xOut, l, xs, contexts)
    ensures LayerOut(m, Run(cfg, MlpOps(s, l, xIn, xOut), m), xOut, l, xs, contexts)
  {
    var head, ffn, down := MlpHead(s, l, xIn), MlpFfn(s, l), MlpDown(s, l, xOut);
    var m1 := Run(cfg, head, m);
    var m2 := Run(cfg, ffn, m1);
    RunAppend(cfg, head + ffn, down, m);
    RunAppend(cfg, head, ffn, m);
    MlpHeadRuns(cfg, s, xIn, xOut, l, xs, contexts, m);
    FfnRuns(cfg, s, l, xs, contexts, m1);
    MlpDownRuns(cfg, s, xOut, l, xs, contexts, m2);
  }

  // ---- Prefill: projections and appends ----------------------------------

  /** Rows of one width, room for them, and both caches of the layer. */
  ghost predicate RowsFit(cfg: Config, m: Mem, s: Scratch, l: nat, base: nat, xs: seq<Term>) {
    WellSized(cfg, m) && l < cfg.layers && |xs| == s.Width() && base + |xs| <= cfg.tMax
  }

  lemma ProjectRuns(cfg: Config, s: Scratch, l: nat, xs: seq<Term>, m: Mem)
    requires At(m, XIn(s, l)) == Stream(xs)
    ensures Run(cfg, ProjectOps(s, l), m) == Put(Put(m, Of(s, Xn), NormedStream(xs, l)), Of(s, Qkv), Projections(xs, l))
  {
    var ops := ProjectOps(s, l);
    var m1 := Put(m, Of(s, Xn), NormedStream(xs, l));
    assert Apply(cfg, ops[0], m) == m1 && Apply(cfg, ops[1], m1) == Put(m1, Of(s, Qkv), Projections(xs, l));
    RunTwo(cfg, ops[0], ops[1], m);
  }

  lemma SourceRows(cfg: Config, l: nat, base: nat, xs: seq<Term>)
    requires cfg.Valid()
    ensures KeyRows(cfg, KeySource(cfg, KeyBuffer(xs, l, Some(base))), base, xs, l)
    ensures ValueRows(cfg, ValueSource(cfg, ValueBuffer(xs, l)), xs, l)
  {
    forall tk: nat, c: nat | tk < |xs| && c < cfg.KvDim()
      ensures Quot(Idx(tk, cfg.KvDim(), c), cfg.KvDim()) == tk && Rem(Idx(tk, cfg.KvDim(), c), cfg.KvDim()) == c
    {
      IdxDigits(tk, cfg.KvDim(), c);
    }
  }

  lemma KtAppendWritten(cfg: Config, cache: Cache, base: nat, xs: seq<Term>, l: nat)
    requires cfg.Valid() && base + |xs| <= cfg.tMax && |cache| == Size(cfg)
    ensures KtWritten(cfg, cache, CopyRows(cache, KtAppend(cfg, |xs|, base),
                                           KeySource(cfg, KeyBuffer(xs, l, Some(base)))), base, xs, l)
  {
    var val := KeySource(cfg, KeyBuffer(xs, l, Some(base)));
    var after := CopyRows(cache, KtAppend(cfg, |xs|, base), val);
    SourceRows(cfg, l, base, xs);
    forall h: nat, d: nat, p: nat | InCache(cfg, h, d, p)
      ensures KtCell(cfg, h, d, p) < |after|
              && after[KtCell(cfg, h, d, p)] ==
                   if base <= p < base + |xs| then Key(xs[p - base], l, Column(cfg, h, d), p)
                   else cache[KtCell(cfg, h, d, p)]
    {
      KtAppendEffect(cfg, cache, base, |xs|, xs, l, val, h, d, p);
    }
  }

  lemma VAppendWritten(cfg: Config, cache: Cache, base: nat, xs: seq<Term>, l: nat)
    requires cfg.Valid() && base + |xs| <= cfg.tMax && |cache| == Size(cfg)
    ensures VWritten(cfg, cache, CopyRows(cache, VAppend(cfg, |xs|, base), ValueSource(cfg, ValueBuffer(xs, l))),
                     base, xs, l)
  {
    var val := ValueSource(cfg, ValueBuffer(xs, l));
    var after := CopyRows(cache, VAppend(cfg, |xs|, base), val);
    SourceRows(cfg, l, base, xs);
    forall h: nat, d: nat, p: nat | InCache(cfg, h, d, p)
      ensures VCell(cfg, h, d, p) < |after|
              && after[VCell(cfg, h, d, p)] ==
                   if base <= p < base + |xs| then Value(xs[p - base], l, Column(cfg, h, d))
                   else cache[VCell(cfg, h, d, p)]
    {
      VAppendEffect(cfg, cache, base, |xs|, xs, l, val, h, d, p);
    }
  }

  /** Both appended caches of layer `l`. */
  function Appended(cfg: Config, m: Mem, l: nat, base: nat, xs: seq<Term>): Mem
    requires l < |m.kt| && l < |m.v| && cfg.Valid()
  {
    SetV(SetKt(m, l, CopyRows(m.kt[l], KtAppend(cfg, |xs|, base), KeySource(cfg, KeyBuffer(xs, l, Some(base))))),
         l, CopyRows(m.v[l], VAppend(cfg, |xs|, base), ValueSource(cfg, ValueBuffer(xs, l))))
  }

  lemma AppendedStored(cfg: Config, m: Mem, l: nat, base: nat, xs: seq<Term>)
    requires WellSized(cfg, m) && l < cfg.layers && base + |xs| <= cfg.tMax
    ensures LayerStored(cfg, m, Appended(cfg, m, l, base, xs), l, base, xs)
  {
    KtAppendWritten(cfg, m.kt[l], base, xs, l);
    VAppendWritten(cfg, m.v[l], base, xs, l);
  }

  /** The rows of the product, in their own buffers; the layer's input stays. */
  ghost predicate SplitDone(m: Mem, after: Mem, s: Scratch, l: nat, rope: Option<nat>, xs: seq<Term>) {
    && SameDevice(m, after)
    && At(after, Of(s, Q)) == Queries(xs, l, rope, false)
    && At(after, Of(s, K)) == KeyBuffer(xs, l, rope) && At(after, Of(s, V)) == ValueBuffer(xs, l)
    && At(after, Of(s, XA)) == At(m, Of(s, XA)) && At(after, Of(s, XB)) == At(m, Of(s, XB))
  }

  lemma QuerySplitApplies(cfg: Config, s: Scratch, xs: seq<Term>, l: nat, m: Mem)
    requires At(m, Of(s, Qkv)) == Projections(xs, l) && |xs| == s.Width()
    ensures Apply(cfg, SplitOps(cfg, s)[0], m) == Put(m, Of(s, Q), Queries(xs, l, None, false))
  {
    SplitCopyMoves(0, cfg.embd, s.Width(), cfg.embd + 2 * cfg.KvDim());
  }

  lemma KeySplitApplies(cfg: Config, s: Scratch, xs: seq<Term>, l: nat, m: Mem)
    requires At(m, Of(s, Qkv)) == Projections(xs, l) && |xs| == s.Width()
    ensures Apply(cfg, SplitOps(cfg, s)[1], m) == Put(m, Of(s, K), KeyBuffer(xs, l, None))
  {
    SplitCopyMoves(cfg.embd, cfg.KvDim(), s.Width(), cfg.embd + 2 * cfg.KvDim());
  }

  lemma ValueSplitApplies(cfg: Config, s: Scratch, xs: seq<Term>, l: nat, m: Mem)
    requires At(m, Of(s, Qkv)) == Projections(xs, l) && |xs| == s.Width()
    ensures Apply(cfg, SplitOps(cfg, s)[2], m) == Put(m, Of(s, V), ValueBuffer(xs, l))
  {
    SplitCopyMoves(cfg.embd + cfg.KvDim(), cfg.KvDim(), s.Width(), cfg.embd + 2 * cfg.KvDim());
  }

  lemma SplitRuns(cfg: Config, s: Scratch, l: nat, xs: seq<Term>, m: Mem)
    requires At(m, Of(s, Qkv)) == Projections(xs, l) && |xs| == s.Width()
    ensures SplitDone(m, Run(cfg, SplitOps(cfg, s), m), s, l, None, xs)
  {
    var ops := SplitOps(cfg, s);
    var m1 := Put(m, Of(s, Q), Queries(xs, l, None, false));
    var m2 := Put(m1, Of(s, K), KeyBuffer(xs, l, None));
    var m3 := Put(m2, Of(s, V), ValueBuffer(xs, l));
    QuerySplitApplies(cfg, s, xs, l, m);
    KeySplitApplies(cfg, s, xs, l, m1);
    ValueSplitApplies(cfg, s, xs, l, m2);
    assert Apply(cfg, ops[0], m) == m1;
    assert Apply(cfg, ops[1], m1) == m2;
    assert Apply(cfg, ops[2], m2) == m3;
    RunThree(cfg, ops[0], ops[1], ops[2], m);
  }

  lemma RopesRun(cfg: Config, s: Scratch, l: nat, base: nat, xs: seq<Term>, m: Mem, mid: Mem)
    requires SplitDone(m, mid, s, l, None, xs)
    ensures SplitDone(m, Run(cfg, RopeOps(cfg, s, base), mid), s, l, Some(base), xs)
  {
    var q, k := Rope(Of(s, Q), Of(s, Q), cfg.heads, base), Rope(Of(s, K), Of(s, K), cfg.kv, base);
    var m1 := Put(mid, Of(s, Q), Queries(xs, l, Some(base), false));
    var m2 := Put(m1, Of(s, K), KeyBuffer(xs, l, Some(base)));
    assert Apply(cfg, q, mid) == m1 && Apply(cfg, k, m1) == m2;
    RunTwo(cfg, q, k, mid);
  }

  /** The queries are ready and the caches appended; the layer's input stays. */
  ghost predicate AppendDone(cfg: Config, m: Mem, after: Mem, s: Scratch, q: Tensor, headMajor: bool, l: nat, base: nat,
                             xs: seq<Term>)
  {
    && LayerStored(cfg, m, after, l, base, xs)
    && At(after, q) == Queries(xs, l, Some(base), headMajor)
    && At(after, Of(s, XA)) == At(m, Of(s, XA)) && At(after, Of(s, XB)) == At(m, Of(s, XB))
  }

  lemma CacheAppendsRun(cfg: Config, s: Scratch, l: nat, base: nat, xs: seq<Term>, m: Mem)
    requires cfg.Valid() && l < |m.kt| && l < |m.v| && |xs| == s.Width()
    requires At(m, Of(s, K)) == KeyBuffer(xs, l, Some(base)) && At(m, Of(s, V)) == ValueBuffer(xs, l)
    ensures Run(cfg, CacheAppendOps(cfg, s, l, base), m) == Appended(cfg, m, l, base, xs)
  {
    var ops := CacheAppendOps(cfg, s, l, base);
    var m1 := SetKt(m, l, CopyRows(m.kt[l], KtAppend(cfg, |xs|, base), KeySource(cfg, KeyBuffer(xs, l, Some(base)))));
    assert Apply(cfg, ops[0], m) == m1 && Apply(cfg, ops[1], m1) == Appended(cfg, m, l, base, xs);
    RunTwo(cfg, ops[0], ops[1], m);
  }

  /** Split, rotate, append: the key rows reach the cache rotated. */
  lemma SplitAppendRuns(cfg: Config, s: Scratch, l: nat, base: nat, xs: seq<Term>, m: Mem)
    requires RowsFit(cfg, m, s, l, base, xs) && At(m, Of(s, Qkv)) == Projections(xs, l)
    ensures AppendDone(cfg, m, Run(cfg, SplitAppendOps(cfg, s, l, base), m), s, Of(s, Q), false, l, base, xs)
  {
    var split, rope, append := SplitOps(cfg, s), RopeOps(cfg, s, base), CacheAppendOps(cfg, s, l, base);
    var mid := Run(cfg, rope, Run(cfg, split, m));
    RunAppend(cfg, split + rope, append, m);
    RunAppend(cfg, split, rope, m);
    SplitRuns(cfg, s, l, xs, m);
    RopesRun(cfg, s, l, base, xs, m, Run(cfg, split, m));
    CacheAppendsRun(cfg, s, l, base, xs, mid);
    AppendedStored(cfg, mid, l, base, xs);
  }

  lemma PackRuns(cfg: Config, s: Scratch, l: nat, base: nat, xs: seq<Term>, m: Mem)
    requires RowsFit(cfg, m, s, l, base, xs) && At(m, Of(s, Qkv)) == Projections(xs, l)
    ensures var op := PrefillQkvPack(Of(s, Qkv), Of(s, QHeads), KtCache(l), VCache(l), base);
            AppendDone(cfg, m, Run(cfg, [op], m), s, Of(s, QHeads), true, l, base, xs)
  {
    var op := PrefillQkvPack(Of(s, Qkv), Of(s, QHeads), KtCache(l), VCache(l), base);
    var mid := Put(m, Of(s, QHeads), Queries(xs, l, Some(base), true));
    AppendedStored(cfg, mid, l, base, xs);
    RunOne(cfg, op, m);
  }

  // ---- Prefill: attention ------------------------------------------------

  /** Rows of queries over caches that hold `all` up to and including them. */
  ghost predicate RowsReady(cfg: Config, m: Mem, s: Scratch, q: Tensor, headMajor: bool, l: nat, base: nat,
                            xs: seq<Term>, all: seq<Term>)
  {
    && cfg.Valid() && l < |m.kt| && l < |m.v| && |xs| == s.Width() && |all| == base + |xs| <= cfg.tMax
    && KtHolds(cfg, m.kt[l], all, l) && VHolds(cfg, m.v[l], all, l)
    && At(m, q) == Queries(xs, l, Some(base), headMajor)
  }

  lemma FlashApplies(cfg: Config, s: Scratch, q: Tensor, headMajor: bool, out: Tensor, l: nat, base: nat, xs: seq<Term>,
                     all: seq<Term>, tokenMajorQ: bool, tokenMajorOut: bool, m: Mem)
    requires RowsReady(cfg, m, s, q, headMajor, l, base, xs, all) && (|xs| == 1 || headMajor == !tokenMajorQ)
    ensures Apply(cfg, FlashAttn(q, KtCache(l), VCache(l), out, base + s.Width(), base, tokenMajorQ, tokenMajorOut), m)
            == Put(m, out, Attended(xs, l, Causal(all, base, |xs|), !tokenMajorQ && !tokenMajorOut))
  {
    HeldIsCoherent(cfg, m.kt[l], m.v[l], all, l);
  }

  lemma ToHeadsApplies(cfg: Config, q: Tensor, s: Scratch, l: nat, base: nat, xs: seq<Term>, m: Mem)
    requires At(m, q) == Queries(xs, l, Some(base), false) && |xs| == s.Width()
    ensures Apply(cfg, CopyStrided(q, Of(s, QHeads), ToHeads(cfg, s.Width())), m)
            == Put(m, Of(s, QHeads), Queries(xs, l, Some(base), |xs| != 1))
  {
    ToHeadsMoves(cfg, s.Width());
  }

  lemma FromHeadsApplies(cfg: Config, heads: Tensor, s: Scratch, l: nat, xs: seq<Term>, contexts: seq<seq<Term>>,
                         m: Mem)
    requires At(m, heads) == Attended(xs, l, contexts, true) && |xs| == s.Width()
    ensures Apply(cfg, CopyStrided(heads, Of(s, AttnFlat), FromHeads(cfg, s.Width())), m)
            == Put(m, Of(s, AttnFlat), Attended(xs, l, contexts, false))
  {
    FromHeadsMoves(cfg, s.Width());
  }

  /** Queries permuted to head-major order and the output back. */
  lemma PermutedFlashRuns(cfg: Config, s: Scratch, l: nat, base: nat, xs: seq<Term>, all: seq<Term>, m: Mem)
    requires RowsReady(cfg, m, s, Of(s, Q), false, l, base, xs, all)
    ensures var ops := [ CopyStrided(Of(s, Q), Of(s, QHeads), ToHeads(cfg, s.Width())),
                         FlashAttn(Of(s, QHeads), KtCache(l), VCache(l), Of(s, AttnHeads), base + s.Width(), base,
                                   false, false),
                         CopyStrided(Of(s, AttnHeads), Of(s, AttnFlat), FromHeads(cfg, s.Width())) ];
            AttendedIn(m, Run(cfg, ops, m), s, l, xs, Causal(all, base, |xs|))
  {
    var q, heads, flat := Of(s, QHeads), Of(s, AttnHeads), Of(s, AttnFlat);
    var ops := [ CopyStrided(Of(s, Q), q, ToHeads(cfg, s.Width())),
                 FlashAttn(q, KtCache(l), VCache(l), heads, base + s.Width(), base, false, false),
                 CopyStrided(heads, flat, FromHeads(cfg, s.Width())) ];
    var contexts := Causal(all, base, |xs|);
    var m1 := Put(m, q, Queries(xs, l, Some(base), |xs| != 1));
    var m2 := Put(m1, heads, Attended(xs, l, contexts, true));
    var m3 := Put(m2, flat, Attended(xs, l, contexts, false));
    ToHeadsApplies(cfg, Of(s, Q), s, l, base, xs, m);
    FlashApplies(cfg, s, q, |xs| != 1, heads, l, base, xs, all, false, false, m1);
    FromHeadsApplies(cfg, heads, s, l, xs, contexts, m2);
    assert Apply(cfg, ops[0], m) == m1;
    assert Apply(cfg, ops[1], m1) == m2;
    assert Apply(cfg, ops[2], m2) == m3;
    RunThree(cfg, ops[0], ops[1], ops[2], m);
  }

  /** Whether a scratch takes the fused pack. */
  predicate Packs(cfg: Config, s: Scratch) { s.Width() >= 128 && s.PrefillScratch? && s.actF16 && cfg.kvF16 }

  /** Where and in what order the append path leaves the queries. */
  function QueryTensor(cfg: Config, s: Scratch): Tensor { if Packs(cfg, s) then Of(s, QHeads) else Of(s, Q) }

  lemma AppendRuns(cfg: Config, s: Scratch, l: nat, base: nat, xs: seq<Term>, m: Mem)
    requires RowsFit(cfg, m, s, l, base, xs) && At(m, Of(s, Qkv)) == Projections(xs, l)
    ensures AppendDone(cfg, m, Run(cfg, AppendOps(cfg, s, l, base), m), s, QueryTensor(cfg, s), Packs(cfg, s), l,
                       base, xs)
  {
    if Packs(cfg, s) { PackRuns(cfg, s, l, base, xs, m); } else { SplitAppendRuns(cfg, s, l, base, xs, m); }
  }

  /** Head-major queries of the pack, token-major queries read in place, or permuted ones:
      every row reads exactly its causal prefix. */
  lemma FlashRuns(cfg: Config, s: Scratch, l: nat, base: nat, xs: seq<Term>, all: seq<Term>, m: Mem)
    requires RowsReady(cfg, m, s, QueryTensor(cfg, s), Packs(cfg, s), l, base, xs, all)
    ensures AttendedIn(m, Run(cfg, FlashOps(cfg, s, l, base), m), s, l, xs, Causal(all, base, |xs|))
  {
    if s.Width() >= 128 {
      HeldIsCoherent(cfg, m.kt[l], m.v[l], all, l);
      RunOne(cfg, FlashOps(cfg, s, l, base)[0], m);
    } else {
      PermutedFlashRuns(cfg, s, l, base, xs, all, m);
    }
  }

  // ---- One layer of the reference ----------------------------------------

  /** Layer `l` is about to process the tokens of `h` from position `base` on: its caches
      hold the earlier positions and its input the streams of the new ones. */
  ghost predicate Ready(cfg: Config, m: Mem, s: Scratch, l: nat, h: seq<Tok>, base: nat) {
    && WellSized(cfg, m) && l < cfg.layers && base <= |h| <= cfg.tMax
    && KtHolds(cfg, m.kt[l], Prefix(h, l, base), l) && VHolds(cfg, m.v[l], Prefix(h, l, base), l)
    && At(m, XIn(s, l)) == Stream(Rows(h, l, base, |h| - base))
  }

  /** It did: its caches hold the new positions too, and the next layer's input is the
      reference's next layer. */
  ghost predicate LayerDone(cfg: Config, m: Mem, after: Mem, s: Scratch, l: nat, h: seq<Tok>, base: nat)
    requires base <= |h|
  {
    && LayerStored(cfg, m, after, l, base, Rows(h, l, base, |h| - base))
    && At(after, XIn(s, l + 1)) == Stream(Rows(h, l + 1, base, |h| - base))
  }

  /** The caches that attention then reads. */
  lemma StoredPrefix(cfg: Config, m: Mem, mid: Mem, s: Scratch, l: nat, h: seq<Tok>, base: nat)
    requires Ready(cfg, m, s, l, h, base) && LayerStored(cfg, m, mid, l, base, Rows(h, l, base, |h| - base))
    ensures KtHolds(cfg, mid.kt[l], Prefix(h, l, |h|), l) && VHolds(cfg, mid.v[l], Prefix(h, l, |h|), l)
  {
    PrefixSplits(h, l, base, |h| - base);
    KtGains(cfg, m.kt[l], mid.kt[l], Prefix(h, l, base), Rows(h, l, base, |h| - base), l);
    VGains(cfg, m.v[l], mid.v[l], Prefix(h, l, base), Rows(h, l, base, |h| - base), l);
  }

  lemma StoredThenSame(cfg: Config, m: Mem, mid: Mem, after: Mem, l: nat, base: nat, xs: seq<Term>)
    requires LayerStored(cfg, m, mid, l, base, xs) && SameDevice(mid, after)
    ensures LayerStored(cfg, m, after, l, base, xs)
  {}

  /** Stored, attended, through the MLP. */
  lemma LayerFinishes(cfg: Config, s: Scratch, l: nat, h: seq<Tok>, base: nat, m: Mem, mid: Mem, attended: Mem)
    requires Ready(cfg, m, s, l, h, base) && LayerStored(cfg, m, mid, l, base, Rows(h, l, base, |h| - base))
    requires At(mid, XIn(s, l)) == At(m, XIn(s, l))
    requires AttendedIn(mid, attended, s, l, Rows(h, l, base, |h| - base), Causal(Prefix(h, l, |h|), base, |h| - base))
    ensures LayerDone(cfg, m, Run(cfg, MlpOps(s, l, XIn(s, l), XIn(s, l + 1)), attended), s, l, h, base)
  {
    var xs, contexts := Rows(h, l, base, |h| - base), Causal(Prefix(h, l, |h|), base, |h| - base);
    var after := Run(cfg, MlpOps(s, l, XIn(s, l), XIn(s, l + 1)), attended);
    MlpRuns(cfg, s, XIn(s, l), XIn(s, l + 1), l, xs, contexts, attended);
    LayerOfRows(h, l, base, |h| - base);
    StoredThenSame(cfg, m, mid, after, l, base, xs);
  }

  // ---- Decode and prefill layers -----------------------------------------

  /** After the three GEMVs of one row the layer is ready to attend. */
  lemma ProjectedReady(cfg: Config, l: nat, h: seq<Tok>, base: nat, m: Mem)
    requires Ready(cfg, m, DecodeScratch, l, h, base) && |h| == base + 1
    ensures var s, x, mid := DecodeScratch, StateAt(h, l, base), Projected(cfg, m, l, StateAt(h, l, base), base);
            && Rows(h, l, base, 1) == [x] && LayerStored(cfg, m, mid, l, base, [x])
            && Run(cfg, QkvDecodeOps(cfg, l, XIn(s, l), base, 0), m) == mid
            && ReadyToAttend(cfg, mid, l, x, base, Prefix(h, l, base + 1))
  {
    var s, x := DecodeScratch, StateAt(h, l, base);
    assert Rows(h, l, base, 1) == [x];
    QkvRuns(cfg, l, XIn(s, l), base, x, m);
    ProjectedStored(cfg, m, l, x, base);
    StoredPrefix(cfg, m, Projected(cfg, m, l, x, base), s, l, h, base);
  }

  /** The GEMVs, then `attend`, then the MLP. */
  lemma StepLayerRuns(cfg: Config, l: nat, h: seq<Tok>, base: nat, attend: seq<Op>, m: Mem)
    requires Ready(cfg, m, DecodeScratch, l, h, base) && |h| == base + 1
    requires var x, mid := StateAt(h, l, base), Projected(cfg, m, l, StateAt(h, l, base), base);
             AttendedIn(mid, Run(cfg, attend, mid), DecodeScratch, l, [x], [Prefix(h, l, base + 1)])
    ensures var xIn, xOut := XIn(DecodeScratch, l), XIn(DecodeScratch, l + 1);
            var ops := QkvDecodeOps(cfg, l, xIn, base, 0) + attend + MlpOps(DecodeScratch, l, xIn, xOut);
            LayerDone(cfg, m, Run(cfg, ops, m), DecodeScratch, l, h, base)
  {
    var s, all := DecodeScratch, Prefix(h, l, base + 1);
    var qkv, mlp := QkvDecodeOps(cfg, l, XIn(s, l), base, 0), MlpOps(s, l, XIn(s, l), XIn(s, l + 1));
    var mid := Projected(cfg, m, l, StateAt(h, l, base), base);
    RunAppend(cfg, qkv + attend, mlp, m);
    RunAppend(cfg, qkv, attend, m);
    ProjectedReady(cfg, l, h, base, m);
    OneCausalRow(all, base);
    LayerFinishes(cfg, s, l, h, base, m, mid, Run(cfg, attend, mid));
  }

  lemma DecodeLayerRuns(cfg: Config, fused: bool, fixedGrid: bool, l: nat, h: seq<Tok>, base: nat, m: Mem)
    requires Ready(cfg, m, DecodeScratch, l, h, base) && |h| == base + 1
    ensures LayerDone(cfg, m, Run(cfg, DecodeLayer(cfg, fused, l, base, 0, fixedGrid), m), DecodeScratch, l, h, base)
  {
    var x := StateAt(h, l, base);
    ProjectedReady(cfg, l, h, base, m);
    AttentionReads(cfg, l, fused, base, fixedGrid, x, Prefix(h, l, base + 1), Projected(cfg, m, l, x, base));
    StepLayerRuns(cfg, l, h, base, AttentionOps(l, fused, base, 0, fixedGrid), m);
  }

  lemma PerOpLayerRuns(cfg: Config, attention: Attention, l: nat, h: seq<Tok>, base: nat, m: Mem)
    requires Ready(cfg, m, DecodeScratch, l, h, base) && |h| == base + 1
    ensures LayerDone(cfg, m, Run(cfg, PerOpLayer(cfg, attention, l, base), m), DecodeScratch, l, h, base)
  {
    var x := StateAt(h, l, base);
    ProjectedReady(cfg, l, h, base, m);
    PerOpAttentionReads(cfg, l, attention, base, x, Prefix(h, l, base + 1), Projected(cfg, m, l, x, base));
    StepLayerRuns(cfg, l, h, base, PerOpAttention(cfg, attention, l, base), m);
  }

  /** Norm, one product, append. */
  lemma ProjectAppendRuns(cfg: Config, s: Scratch, l: nat, base: nat, xs: seq<Term>, m: Mem)
    requires RowsFit(cfg, m, s, l, base, xs) && At(m, XIn(s, l)) == Stream(xs)
    ensures AppendDone(cfg, m, Run(cfg, ProjectOps(s, l) + AppendOps(cfg, s, l, base), m), s, QueryTensor(cfg, s),
                       Packs(cfg, s),
                       l, base, xs)
  {
    var mid := Put(Put(m, Of(s, Xn), NormedStream(xs, l)), Of(s, Qkv), Projections(xs, l));
    RunAppend(cfg, ProjectOps(s, l), AppendOps(cfg, s, l, base), m);
    ProjectRuns(cfg, s, l, xs, m);
    AppendRuns(cfg, s, l, base, xs, mid);
  }

  /** Then attend and the MLP. */
  lemma PrefillLayerRuns(cfg: Config, s: Scratch, l: nat, h: seq<Tok>, base: nat, m: Mem)
    requires Ready(cfg, m, s, l, h, base) && |h| == base + s.Width()
    ensures LayerDone(cfg, m, Run(cfg, PrefillLayer(cfg, s, l, base), m), s, l, h, base)
  {
    var stored, flash := ProjectOps(s, l) + AppendOps(cfg, s, l, base), FlashOps(cfg, s, l, base);
    var mlp, xs := MlpOps(s, l, XIn(s, l), XIn(s, l + 1)), Rows(h, l, base, |h| - base);
    var mid := Run(cfg, stored, m);
    RunAppend(cfg, stored, flash + mlp, m);
    RunAppend(cfg, flash, mlp, mid);
    ProjectAppendRuns(cfg, s, l, base, xs, m);
    StoredPrefix(cfg, m, mid, s, l, h, base);
    FlashRuns(cfg, s, l, base, xs, Prefix(h, l, |h|), mid);
    LayerFinishes(cfg, s, l, h, base, m, mid, Run(cfg, flash, mid));
  }
}
