/** What each dispatch of the session's ops writes, and what that depends on: the outputs
    of an op are all it changes, and its operands and the tensor itself are all that its
    result in a tensor depends on. */
module KvFrames {
  import opened KvCache
  import opened KvDevice
  import opened KvOps
  import opened KvReference
  import opened Prelude
  import opened Strided

  /** Decode attention plans as two dispatches. */
  function Stages(op: Op): nat { if op.AttnDecode? then 2 else 1 }

  /** What one dispatch does. */
  function ApplyStage(cfg: Config, op: Op, stage: nat, m: Mem): Mem
    requires stage < Stages(op)
  {
    if !op.AttnDecode? then Apply(cfg, op, m)
    else if stage == 0 then
      Put(m, op.partials, ChunkedAttention(cfg, At(m, op.q), op.kt, op.v, op.kvLen, op.chunks, m))
    else Put(m, op.out, MergedChunks(At(m, op.partials)))
  }

  /** The dispatches of an op make the op. */
  lemma StagesCompose(cfg: Config, op: Op, m: Mem)
    ensures var first := ApplyStage(cfg, op, 0, m);
            Apply(cfg, op, m) == if op.AttnDecode? then ApplyStage(cfg, op, 1, first) else first
  {}

  // ---- What is written ---------------------------------------------------

  /** What tensor `t` contains. */
  datatype Contents = Contents(held: Held, cache: Option<Cache>, toks: seq<Tok>)

  function Get(m: Mem, t: Tensor): Contents {
    Contents(At(m, t),
             match t
             case KtCache(l) => if l < |m.kt| then Some(m.kt[l]) else None
             case VCache(l) => if l < |m.v| then Some(m.v[l]) else None
             case _ => None,
             match t
             case TokenBuf => [m.token]
             case TokenIds => m.ids
             case _ => [])
  }

  lemma GetPut(m: Mem, u: Tensor, held: Held, t: Tensor)
    ensures Get(Put(m, u, held), t) == if t == u then Get(m, t).(held := held) else Get(m, t)
  {}

  lemma GetSetKt(m: Mem, l: nat, cache: Cache, t: Tensor)
    requires l < |m.kt|
    ensures Get(SetKt(m, l, cache), t) == if t == KtCache(l) then Get(m, t).(cache := Some(cache)) else Get(m, t)
  {}

  lemma GetSetV(m: Mem, l: nat, cache: Cache, t: Tensor)
    requires l < |m.v|
    ensures Get(SetV(m, l, cache), t) == if t == VCache(l) then Get(m, t).(cache := Some(cache)) else Get(m, t)
  {}

  /** Where a product's output goes. */
  function Target(c: Tensor, store: Store): Tensor {
    match store
    case ScatterStore(dst, _) => dst
    case RopeScatterStore(dst, _) => dst
    case _ => c
  }

  lemma MatmulStores(cfg: Config, a: Tensor, b: Tensor, c: Tensor, packed: bool, norm: Option<Tensor>,
                     epilogue: Epilogue, store: Store, m: Mem, t: Tensor)
    requires t != Target(c, store)
    ensures Get(ApplyMatmul(cfg, a, b, c, packed, norm, epilogue, store, m), t) == Get(m, t)
  {
    var after := ApplyMatmul(cfg, a, b, c, packed, norm, epilogue, store, m);
    match store
    case NoStore => GetPut(m, c, At(after, c), t);
    case RopeStore(_) => GetPut(m, c, At(after, c), t);
    case RopeScatterStore(KtCache(l), _) => if l < |m.kt| { GetSetKt(m, l, after.kt[l], t); }
    case ScatterStore(VCache(l), _) => if l < |m.v| { GetSetV(m, l, after.v[l], t); }
    case ScatterStore(dst, _) => GetPut(m, dst, Junk, t);
    case RopeScatterStore(dst, _) => GetPut(m, dst, Junk, t);
  }

  lemma CopyStores(cfg: Config, src: Tensor, dst: Tensor, copy: CopyDesc, m: Mem, t: Tensor)
    requires t != dst
    ensures Get(ApplyCopy(cfg, src, dst, copy, m), t) == Get(m, t)
  {}

  lemma PackStores(cfg: Config, qkv: Tensor, q: Tensor, kt: Tensor, v: Tensor, base: nat, m: Mem, t: Tensor)
    requires t != q && t != kt && t != v
    ensures Get(ApplyPack(cfg, qkv, q, kt, v, base, m), t) == Get(m, t)
  {}

  /** The tensors a dispatch writes. */
  function Outputs(op: Op, stage: nat): seq<Tensor>
    requires stage < Stages(op)
  {
    match op
    case Matmul(_, _, c, _, _, _, store) => [Target(c, store)]
    case AttnDecode(_, _, _, partials, out, _, _, _) => if stage == 0 then [partials] else [out]
    case SoftmaxPrefix(scores, _) => [scores]
    case RmsNorm(_, _, output) => [output]
    case AddScaled(_, _, out) => [out]
    case SiluMul(_, _, out) => [out]
    case CopyStrided(_, dst, _) => [dst]
    case Rope(_, output, _, _) => [output]
    case PrefillQkvPack(_, q, kt, v, _) => [q, kt, v]
    case FlashAttn(_, _, _, out, _, _, _, _) => [out]
    case EmbedGatherRows(_, out) => [out]
    case EmbedGather(_, out) => [out]
    case Argmax(_, result) => [result]
  }

  /** A dispatch with one output puts something there. */
  lemma RowOpStores(cfg: Config, op: Op, stage: nat, m: Mem, t: Tensor)
    requires stage < Stages(op) && !op.Matmul? && !op.CopyStrided? && !op.PrefillQkvPack?
    requires t !in Outputs(op, stage)
    ensures Get(ApplyStage(cfg, op, stage, m), t) == Get(m, t)
  {
    var out := Outputs(op, stage)[0];
    if !op.Argmax? { GetPut(m, out, At(ApplyStage(cfg, op, stage, m), out), t); }
  }

  lemma StageStores(cfg: Config, op: Op, stage: nat, m: Mem, t: Tensor)
    requires stage < Stages(op) && t !in Outputs(op, stage)
    ensures Get(ApplyStage(cfg, op, stage, m), t) == Get(m, t)
  {
    match op
    case Matmul(a, b, c, packed, norm, epilogue, store) =>
      MatmulStores(cfg, a, b, c, packed, norm, epilogue, store, m, t);
    case CopyStrided(src, dst, copy) => CopyStores(cfg, src, dst, copy, m, t);
    case PrefillQkvPack(qkv, q, kt, v, base) => PackStores(cfg, qkv, q, kt, v, base, m, t);
    case _ => RowOpStores(cfg, op, stage, m, t);
  }

  // ---- What it depends on ------------------------------------------------

  predicate Same(m: Mem, m': Mem, t: Tensor) { Get(m, t) == Get(m', t) }

  lemma PutSame(m: Mem, m': Mem, u: Tensor, held: Held, t: Tensor)
    requires Same(m, m', t)
    ensures Same(Put(m, u, held), Put(m', u, held), t)
  {}

  lemma ProductSame(cfg: Config, m: Mem, m': Mem, a: Held, b: Tensor, packed: bool, norm: Option<Tensor>,
                    epilogue: Epilogue)
    requires Same(m, m', b) && (!epilogue.Plain? ==> Same(m, m', epilogue.d))
    ensures Product(cfg, m, a, b, packed, norm, epilogue) == Product(cfg, m', a, b, packed, norm, epilogue)
  {}

  lemma SetKtSame(m: Mem, m': Mem, l: nat, cache: Cache, t: Tensor)
    requires Same(m, m', t) && l < |m.kt| && l < |m'.kt|
    ensures Same(SetKt(m, l, cache), SetKt(m', l, cache), t)
  {}

  lemma SetVSame(m: Mem, m': Mem, l: nat, cache: Cache, t: Tensor)
    requires Same(m, m', t) && l < |m.v| && l < |m'.v|
    ensures Same(SetV(m, l, cache), SetV(m', l, cache), t)
  {}

  lemma KeyScatterSame(cfg: Config, a: Tensor, b: Tensor, c: Tensor, packed: bool, norm: Option<Tensor>,
                       epilogue: Epilogue, l: nat, desc: StoreDesc, m: Mem, m': Mem, t: Tensor)
    requires Same(m, m', a) && Same(m, m', KtCache(l)) && Same(m, m', t)
    ensures var store := RopeScatterStore(KtCache(l), desc);
            Same(ApplyMatmul(cfg, a, b, c, packed, norm, epilogue, store, m),
                 ApplyMatmul(cfg, a, b, c, packed, norm, epilogue, store, m'), t)
  {
    var held := At(m, a);
    var gemv := b.LayerWeight? && RowGemv(held, b.layer, packed, norm, epilogue);
    if l < |m.kt| && desc.headDim > 0 {
      var rotated := gemv && desc.headDim == cfg.dh && desc.posAddr == 0;
      SetKtSame(m, m', l, StoreRow(cfg, m.kt[l], desc, KeyColumn(held, b, rotated, desc.posBase)), t);
    }
  }

  lemma ValueScatterSame(cfg: Config, a: Tensor, b: Tensor, c: Tensor, packed: bool, norm: Option<Tensor>,
                         epilogue: Epilogue, l: nat, desc: StoreDesc, m: Mem, m': Mem, t: Tensor)
    requires Same(m, m', a) && Same(m, m', VCache(l)) && Same(m, m', t)
    ensures var store := ScatterStore(VCache(l), desc);
            Same(ApplyMatmul(cfg, a, b, c, packed, norm, epilogue, store, m),
                 ApplyMatmul(cfg, a, b, c, packed, norm, epilogue, store, m'), t)
  {
    var held := At(m, a);
    var gemv := b.LayerWeight? && RowGemv(held, b.layer, packed, norm, epilogue);
    if l < |m.v| && desc.headDim > 0 {
      SetVSame(m, m', l, StoreRow(cfg, m.v[l], desc, ValueColumn(held, b, gemv && desc.posAddr == 0)), t);
    }
  }

  lemma RowStoreSame(cfg: Config, a: Tensor, b: Tensor, c: Tensor, packed: bool, norm: Option<Tensor>,
                     epilogue: Epilogue, store: Store, m: Mem, m': Mem, t: Tensor)
    requires store.NoStore? || store.RopeStore?
    requires Same(m, m', a) && Same(m, m', b) && Same(m, m', t) && (!epilogue.Plain? ==> Same(m, m', epilogue.d))
    ensures Same(ApplyMatmul(cfg, a, b, c, packed, norm, epilogue, store, m),
                 ApplyMatmul(cfg, a, b, c, packed, norm, epilogue, store, m'), t)
  {
    var after := ApplyMatmul(cfg, a, b, c, packed, norm, epilogue, store, m);
    ProductSame(cfg, m, m', At(m, a), b, packed, norm, epilogue);
    PutSame(m, m', c, At(after, c), t);
  }

  lemma OtherScatterSame(cfg: Config, a: Tensor, b: Tensor, c: Tensor, packed: bool, norm: Option<Tensor>,
                         epilogue: Epilogue, store: Store, m: Mem, m': Mem, t: Tensor)
    requires (store.ScatterStore? && !store.dst.VCache?) || (store.RopeScatterStore? && !store.dst.KtCache?)
    requires Same(m, m', t)
    ensures Same(ApplyMatmul(cfg, a, b, c, packed, norm, epilogue, store, m),
                 ApplyMatmul(cfg, a, b, c, packed, norm, epilogue, store, m'), t)
  {
    PutSame(m, m', store.dst, Junk, t);
  }

  lemma MatmulSame(cfg: Config, a: Tensor, b: Tensor, c: Tensor, packed: bool, norm: Option<Tensor>,
                   epilogue: Epilogue, store: Store, m: Mem, m': Mem, t: Tensor)
    requires Same(m, m', a) && Same(m, m', b) && Same(m, m', Target(c, store)) && Same(m, m', t)
    requires !epilogue.Plain? ==> Same(m, m', epilogue.d)
    ensures Same(ApplyMatmul(cfg, a, b, c, packed, norm, epilogue, store, m),
                 ApplyMatmul(cfg, a, b, c, packed, norm, epilogue, store, m'), t)
  {
    match store
    case RopeScatterStore(KtCache(l), desc) => KeyScatterSame(cfg, a, b, c, packed, norm, epilogue, l, desc, m, m', t);
    case ScatterStore(VCache(l), desc) => ValueScatterSame(cfg, a, b, c, packed, norm, epilogue, l, desc, m, m', t);
    case NoStore => RowStoreSame(cfg, a, b, c, packed, norm, epilogue, store, m, m', t);
    case RopeStore(_) => RowStoreSame(cfg, a, b, c, packed, norm, epilogue, store, m, m', t);
    case _ => OtherScatterSame(cfg, a, b, c, packed, norm, epilogue, store, m, m', t);
  }

  lemma CopySame(cfg: Config, src: Tensor, dst: Tensor, copy: CopyDesc, m: Mem, m': Mem, t: Tensor)
    requires Same(m, m', src) && Same(m, m', dst) && Same(m, m', t)
    ensures Same(ApplyCopy(cfg, src, dst, copy, m), ApplyCopy(cfg, src, dst, copy, m'), t)
  {
    var after := ApplyCopy(cfg, src, dst, copy, m);
    match dst
    case KtCache(l) => if l < |m.kt| { SetKtSame(m, m', l, after.kt[l], t); }
    case VCache(l) => if l < |m.v| { SetVSame(m, m', l, after.v[l], t); }
    case _ => PutSame(m, m', dst, At(after, dst), t);
  }

  lemma PackSame(cfg: Config, qkv: Tensor, q: Tensor, kt: Tensor, v: Tensor, base: nat, m: Mem, m': Mem, t: Tensor)
    requires Same(m, m', qkv) && Same(m, m', kt) && Same(m, m', v) && Same(m, m', t)
    ensures Same(ApplyPack(cfg, qkv, q, kt, v, base, m), ApplyPack(cfg, qkv, q, kt, v, base, m'), t)
  {
    var after := ApplyPack(cfg, qkv, q, kt, v, base, m);
    PutSame(m, m', q, At(after, q), t);
    if kt.KtCache? && v.VCache? && kt.layer < |m.kt| && v.layer < |m.v| {
      var m1, m1' := Put(m, q, At(after, q)), Put(m', q, At(after, q));
      SetKtSame(m1, m1', kt.layer, after.kt[kt.layer], t);
      SetVSame(SetKt(m1, kt.layer, after.kt[kt.layer]), SetKt(m1', kt.layer, after.kt[kt.layer]), v.layer,
               after.v[v.layer], t);
    }
  }

  lemma ChunkedSame(cfg: Config, q: Held, kt: Tensor, v: Tensor, kvLen: nat, chunks: nat, m: Mem, m': Mem)
    requires Same(m, m', kt) && Same(m, m', v)
    ensures ChunkedAttention(cfg, q, kt, v, kvLen, chunks, m) == ChunkedAttention(cfg, q, kt, v, kvLen, chunks, m')
  {
    assert AttendsRow(q, kt, v, kvLen, m) == AttendsRow(q, kt, v, kvLen, m');
    if AttendsRow(q, kt, v, kvLen, m) {
      assert m.kt[kt.layer] == m'.kt[kt.layer] && m.v[v.layer] == m'.v[v.layer];
    }
  }

  lemma FlashAttentionSame(cfg: Config, q: Held, kt: Tensor, v: Tensor, kvLen: nat, base: nat, tokenMajorQ: bool,
                           tokenMajorOut: bool, m: Mem, m': Mem)
    requires Same(m, m', kt) && Same(m, m', v)
    ensures FlashAttention(cfg, q, kt, v, kvLen, base, tokenMajorQ, tokenMajorOut, m)
            == FlashAttention(cfg, q, kt, v, kvLen, base, tokenMajorQ, tokenMajorOut, m')
  {}

  /** The tensors of a dispatch that hold activations, caches or tokens. */
  function Operands(op: Op, stage: nat): seq<Tensor>
    requires stage < Stages(op)
  {
    match op
    case Matmul(a, b, c, _, _, epilogue, store) =>
      [a, b, Target(c, store)] + if epilogue.Plain? then [] else [epilogue.d]
    case AttnDecode(q, kt, v, partials, out, _, _, _) => if stage == 0 then [q, kt, v, partials] else [partials, out]
    case SoftmaxPrefix(scores, _) => [scores]
    case RmsNorm(input, _, output) => [input, output]
    case AddScaled(x, y, out) => [x, y, out]
    case SiluMul(x, y, out) => [x, y, out]
    case CopyStrided(src, dst, _) => [src, dst]
    case Rope(input, output, _, _) => [input, output]
    case PrefillQkvPack(qkv, q, kt, v, _) => [qkv, q, kt, v]
    case FlashAttn(q, kt, v, out, _, _, _, _) => [q, kt, v, out]
    case EmbedGatherRows(tokens, out) => [tokens, out]
    case EmbedGather(token, out) => [token, out]
    case Argmax(input, result) => [input, result]
  }

  ghost predicate AllSame(m: Mem, m': Mem, ts: seq<Tensor>) {
    forall i :: 0 <= i < |ts| ==> Same(m, m', ts[i])
  }

  lemma FlashSame(cfg: Config, op: Op, m: Mem, m': Mem, t: Tensor)
    requires op.FlashAttn? && AllSame(m, m', Operands(op, 0)) && Same(m, m', t)
    ensures Same(Apply(cfg, op, m), Apply(cfg, op, m'), t)
  {
    var ts := Operands(op, 0);
    assert Same(m, m', ts[0]) && Same(m, m', ts[1]) && Same(m, m', ts[2]);
    FlashAttentionSame(cfg, At(m, op.q), op.kt, op.v, op.kvLen, op.posBase, op.tokenMajorQ, op.tokenMajorOut, m, m');
    PutSame(m, m', op.out, At(Apply(cfg, op, m), op.out), t);
  }

  lemma AttnDecodeSame(cfg: Config, op: Op, stage: nat, m: Mem, m': Mem, t: Tensor)
    requires op.AttnDecode? && stage < 2 && AllSame(m, m', Operands(op, stage)) && Same(m, m', t)
    ensures Same(ApplyStage(cfg, op, stage, m), ApplyStage(cfg, op, stage, m'), t)
  {
    var ts := Operands(op, stage);
    assert Same(m, m', ts[0]) && Same(m, m', ts[1]);
    if stage == 0 {
      assert Same(m, m', ts[2]);
      ChunkedSame(cfg, At(m, op.q), op.kt, op.v, op.kvLen, op.chunks, m, m');
      PutSame(m, m', op.partials, ChunkedAttention(cfg, At(m, op.q), op.kt, op.v, op.kvLen, op.chunks, m), t);
    } else {
      PutSame(m, m', op.out, MergedChunks(At(m, op.partials)), t);
    }
  }

  lemma RowOpSame(cfg: Config, op: Op, m: Mem, m': Mem, t: Tensor)
    requires !op.Matmul? && !op.AttnDecode? && !op.FlashAttn? && !op.CopyStrided? && !op.PrefillQkvPack?
    requires AllSame(m, m', Operands(op, 0)) && Same(m, m', t)
    ensures Same(Apply(cfg, op, m), Apply(cfg, op, m'), t)
  {
    var ts := Operands(op, 0);
    assert Same(m, m', ts[0]);
    if |ts| > 1 { assert Same(m, m', ts[1]); }
    if !op.Argmax? { PutSame(m, m', Outputs(op, 0)[0], At(Apply(cfg, op, m), Outputs(op, 0)[0]), t); }
  }

  /** The same operands give the same results. */
  lemma StageSame(cfg: Config, op: Op, stage: nat, m: Mem, m': Mem, t: Tensor)
    requires stage < Stages(op) && AllSame(m, m', Operands(op, stage)) && Same(m, m', t)
    ensures Same(ApplyStage(cfg, op, stage, m), ApplyStage(cfg, op, stage, m'), t)
  {
    var ts := Operands(op, stage);
    assert Same(m, m', ts[0]);
    match op
    case Matmul(a, b, c, packed, norm, epilogue, store) =>
      assert ts[1] == b && ts[2] == Target(c, store) && (!epilogue.Plain? ==> ts[3] == epilogue.d);
      MatmulSame(cfg, a, b, c, packed, norm, epilogue, store, m, m', t);
    case CopyStrided(src, dst, copy) =>
      assert ts[1] == dst;
      CopySame(cfg, src, dst, copy, m, m', t);
    case PrefillQkvPack(qkv, q, kt, v, base) =>
      assert ts[2] == kt && ts[3] == v;
      PackSame(cfg, qkv, q, kt, v, base, m, m', t);
    case AttnDecode(_, _, _, _, _, _, _, _) => AttnDecodeSame(cfg, op, stage, m, m', t);
    case FlashAttn(_, _, _, _, _, _, _, _) => FlashSame(cfg, op, m, m', t);
    case _ => RowOpSame(cfg, op, m, m', t);
  }
}
