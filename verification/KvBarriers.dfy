/** The session's op lists under the barriers that are recorded for them. */
module KvBarriers {
  import opened Kernels
  import opened KvDevice
  import opened KvEncoding
  import opened KvFrames
  import opened KvOps
  import opened Prelude
  import G = GpuExecution
  import H = HazardGraph
  import M = MatmulOps

  // ---- Ops as the recorder sees them -------------------------------------

  /** Buffer handles of tensors. */
  type Naming = Tensor -> nat

  function StoreImage(s: Store, name: Naming): M.Store {
    match s
    case NoStore => M.NoStore
    case RopeStore(_) => M.RopeStore(name(RopeTable))
    case ScatterStore(dst, _) => M.ScatterStore(name(dst))
    case RopeScatterStore(dst, _) => M.RopeScatterStore(name(RopeTable), name(dst))
  }

  function Image(op: Op, name: Naming): H.ExecOp {
    match op
    case Matmul(a, b, c, _, norm, epilogue, store) =>
      H.Matmul(M.MatmulOp(name(a), name(b), name(c), false, None,
                          if epilogue.Plain? then None else Some(name(epilogue.d)),
                          if norm.Some? then Some(name(norm.value)) else None, StoreImage(store, name)))
    case AttnDecode(q, kt, v, partials, out, _, _, _) =>
      H.AttnDecode(name(q), name(kt), name(v), name(partials), name(out))
    case SoftmaxPrefix(scores, _) => H.SoftmaxRows(name(scores), name(scores))
    case RmsNorm(input, weight, output) => H.RmsNorm(name(input), name(weight), name(output))
    case AddScaled(x, y, out) => H.Binary(name(x), name(y), name(out))
    case SiluMul(x, y, out) => H.Binary(name(x), name(y), name(out))
    case CopyStrided(src, dst, _) => H.CopyStrided(name(src), name(dst))
    case Rope(input, output, _, _) => H.Rope(name(input), name(RopeTable), name(output))
    case PrefillQkvPack(qkv, q, kt, v, _) =>
      H.PrefillQkvPack(name(qkv), name(RopeTable), name(q), name(kt), name(v))
    case FlashAttn(q, kt, v, out, _, _, _, _) => H.FlashAttn(name(q), name(kt), name(v), name(out))
    case EmbedGatherRows(tokens, out) => H.EmbedGatherRows(name(tokens), name(EmbdGpu), name(out))
    case EmbedGather(token, out) => H.EmbedGather(name(token), name(EmbdGpu), name(out))
    case Argmax(input, result) => H.Argmax(name(input), name(result))
  }

  function Touches(op: Op, stage: nat, name: Naming): H.Touched
    requires stage < Stages(op)
  { H.OpTouches(Image(op, name))[stage] }

  ghost function Declared(op: Op, stage: nat, name: Naming): G.Access
    requires stage < Stages(op)
  { Touches(op, stage, name).Access() }

  // ---- Frames ------------------------------------------------------------

  /** The written tensors are exactly what the recorder tracks as stored. */
  lemma OutputsDeclared(op: Op, stage: nat, name: Naming)
    requires stage < Stages(op)
    ensures |Touches(op, stage, name).stores| == |Outputs(op, stage)|
    ensures forall i :: 0 <= i < |Outputs(op, stage)| ==>
              name(Outputs(op, stage)[i]) == Touches(op, stage, name).stores[i]
  {}

  /** A dispatch changes only the buffers it declares as stored. */
  lemma StoresOnly(cfg: Config, op: Op, stage: nat, name: Naming, m: Mem, t: Tensor)
    requires stage < Stages(op) && name(t) !in Touches(op, stage, name).stores
    ensures Get(ApplyStage(cfg, op, stage, m), t) == Get(m, t)
  {
    OutputsDeclared(op, stage, name);
    StageStores(cfg, op, stage, m, t);
  }

  /** The tensors an op's dispatches touch, and those of a list. */
  function OpTensors(op: Op): set<Tensor> {
    (set t | t in Operands(op, 0)) + if op.AttnDecode? then set t | t in Operands(op, 1) else {}
  }

  function Tensors(ops: seq<Op>): (ts: set<Tensor>)
    ensures forall op :: op in ops ==> OpTensors(op) <= ts
  {
    if ops == [] then {} else OpTensors(ops[0]) + Tensors(ops[1..])
  }

  lemma OperandsDeclared(op: Op, stage: nat, name: Naming)
    requires stage < Stages(op)
    ensures var declared := Touches(op, stage, name).loads + Touches(op, stage, name).stores;
            forall i :: 0 <= i < |Operands(op, stage)| ==> name(Operands(op, stage)[i]) in declared
  {}

  /** What a dispatch leaves in a buffer it stores depends only on what it declares. */
  lemma ReadsOnly(cfg: Config, op: Op, stage: nat, ts: set<Tensor>, name: Naming, m: Mem, m': Mem, t: Tensor)
    requires stage < Stages(op) && OpTensors(op) <= ts && t in ts && name(t) in Touches(op, stage, name).stores
    requires var a := Declared(op, stage, name); AgreeOn(ts, InBuffers(name), Same, a.loads + a.stores, m, m')
    ensures Same(ApplyStage(cfg, op, stage, m), ApplyStage(cfg, op, stage, m'), t)
  {
    OperandsDeclared(op, stage, name);
    forall i | 0 <= i < |Operands(op, stage)| ensures Same(m, m', Operands(op, stage)[i]) {
      assert Operands(op, stage)[i] in OpTensors(op);
      assert InBuffers(name)(Operands(op, stage)[i]) == G.Buffer(name(Operands(op, stage)[i]));
    }
    StageSame(cfg, op, stage, m, m', t);
  }

  // ---- Lists under their barriers ----------------------------------------

  function Images(ops: seq<Op>, name: Naming): (images: seq<H.ExecOp>)
    ensures |images| == |ops| && forall i :: 0 <= i < |ops| ==> images[i] == Image(ops[i], name)
  {
    seq(|ops|, i requires 0 <= i < |ops| => Image(ops[i], name))
  }

  /** What is planned for a list. */
  function Planned(ops: seq<Op>, name: Naming): seq<H.Touched> { H.PlanTouches(Images(ops, name), |ops|) }

  /** One dispatch as a function of memory. */
  function Action(cfg: Config, op: Op, stage: nat): Mem -> Mem
    requires stage < Stages(op)
  {
    (m: Mem) => ApplyStage(cfg, op, stage, m)
  }

  function OpActions(cfg: Config, op: Op): seq<Mem -> Mem> {
    if op.AttnDecode? then [Action(cfg, op, 0), Action(cfg, op, 1)] else [Action(cfg, op, 0)]
  }

  /** The dispatches of the first `n` ops. */
  function Actions(cfg: Config, ops: seq<Op>, n: nat): seq<Mem -> Mem>
    requires n <= |ops|
  {
    if n == 0 then [] else Actions(cfg, ops, n - 1) + OpActions(cfg, ops[n - 1])
  }

  lemma OpPerformed(cfg: Config, op: Op, fs: seq<Mem -> Mem>, m: Mem)
    ensures var all := fs + OpActions(cfg, op); Perform(all, |all|, m) == Apply(cfg, op, Perform(fs, |fs|, m))
  {
    PerformOne(fs, Action(cfg, op, 0), m);
    StagesCompose(cfg, op, Perform(fs, |fs|, m));
    if op.AttnDecode? {
      PerformOne(fs + [Action(cfg, op, 0)], Action(cfg, op, 1), m);
      assert fs + OpActions(cfg, op) == fs + [Action(cfg, op, 0)] + [Action(cfg, op, 1)];
    }
  }

  /** The dispatches of a list, one after the other, do what its ops do. */
  lemma {:induction false} DispatchesRun(cfg: Config, ops: seq<Op>, n: nat, m: Mem)
    requires n <= |ops|
    ensures Perform(Actions(cfg, ops, n), |Actions(cfg, ops, n)|, m) == Exec(cfg, ops, n, m)
  {
    if n > 0 {
      DispatchesRun(cfg, ops, n - 1, m);
      OpPerformed(cfg, ops[n - 1], Actions(cfg, ops, n - 1), m);
    }
  }

  /** Every dispatch stays within its planned accesses. */
  lemma ActionFramed(cfg: Config, op: Op, stage: nat, ts: set<Tensor>, name: Naming)
    requires stage < Stages(op) && OpTensors(op) <= ts
    ensures Framed(Action(cfg, op, stage), Declared(op, stage, name), ts, InBuffers(name), Same)
  {
    var f, a, u := Action(cfg, op, stage), Declared(op, stage, name), Touches(op, stage, name);
    forall t: Tensor ensures InBuffers(name)(t) in a.stores <==> name(t) in u.stores {
      assert InBuffers(name)(t) == G.Buffer(name(t));
    }
    forall m: Mem, t: Tensor | t in ts && InBuffers(name)(t) !in a.stores ensures Same(m, f(m), t) {
      StoresOnly(cfg, op, stage, name, m, t);
    }
    forall m: Mem, m': Mem, t: Tensor |
      t in ts && InBuffers(name)(t) in a.stores && AgreeOn(ts, InBuffers(name), Same, a.loads + a.stores, m, m')
      ensures Same(f(m), f(m'), t)
    {
      ReadsOnly(cfg, op, stage, ts, name, m, m', t);
    }
  }

  lemma OpFramed(cfg: Config, op: Op, ts: set<Tensor>, name: Naming)
    requires OpTensors(op) <= ts
    ensures AllFramed(OpActions(cfg, op), H.Accesses(H.OpTouches(Image(op, name))), ts, InBuffers(name), Same)
  {
    ActionFramed(cfg, op, 0, ts, name);
    if op.AttnDecode? { ActionFramed(cfg, op, 1, ts, name); }
  }

  /** The accesses planned for the first `n` ops. */
  ghost function PlannedAccesses(ops: seq<Op>, name: Naming, n: nat): seq<G.Access>
    requires n <= |ops|
  {
    H.Accesses(H.PlanTouches(Images(ops, name), n))
  }

  lemma OneMorePlanned(ops: seq<Op>, name: Naming, n: nat)
    requires 0 < n <= |ops|
    ensures PlannedAccesses(ops, name, n)
            == PlannedAccesses(ops, name, n - 1) + H.Accesses(H.OpTouches(Image(ops[n - 1], name)))
  {}

  /** So every list stays, dispatch by dispatch, within the accesses planned for it. */
  lemma {:induction false} ListFramed(cfg: Config, ops: seq<Op>, n: nat, ts: set<Tensor>, name: Naming)
    requires n <= |ops| && Tensors(ops) <= ts
    ensures AllFramed(Actions(cfg, ops, n), PlannedAccesses(ops, name, n), ts, InBuffers(name), Same)
  {
    if n > 0 {
      ListFramed(cfg, ops, n - 1, ts, name);
      OpFramed(cfg, ops[n - 1], ts, name);
      AppendFramed(Actions(cfg, ops, n - 1), PlannedAccesses(ops, name, n - 1), OpActions(cfg, ops[n - 1]),
                   H.Accesses(H.OpTouches(Image(ops[n - 1], name))), ts, InBuffers(name), Same);
      OneMorePlanned(ops, name, n);
    }
  }

  /** A list may be read op by op: whatever kernels implement its dispatches within the
      planned accesses, every interleaving that the recorded barriers allow ends in the
      memory of the ops applied in list order. */
  lemma ListIsSerial(cfg: Config, ops: seq<Op>, name: Naming, layout: Mem -> G.Mem, ks: seq<G.Kernel>, m: Mem,
                     sched: seq<nat>, end: G.Mem)
    requires AllImplement(Actions(cfg, ops, |ops|), ks, layout) && G.Uses(ks, H.Accesses(Planned(ops, name)))
    requires G.RunsTo(ks, H.Placement(H.Accesses(Planned(ops, name))), G.Initial(ks, layout(m)), sched, end)
    ensures end == layout(Run(cfg, ops, m))
  {
    var acc := H.Accesses(Planned(ops, name));
    H.ExecGraphIsSerial(Images(ops, name));
    RunPerforms(Actions(cfg, ops, |ops|), acc, H.Placement(acc), layout, ks, m, sched, end);
    DispatchesRun(cfg, ops, |ops|, m);
  }

  /** And they can always be run to that end. */
  lemma ListCompletes(cfg: Config, ops: seq<Op>, name: Naming, layout: Mem -> G.Mem, ks: seq<G.Kernel>, m: Mem)
    returns (sched: seq<nat>)
    requires AllImplement(Actions(cfg, ops, |ops|), ks, layout) && G.Uses(ks, H.Accesses(Planned(ops, name)))
    ensures G.RunsTo(ks, H.Placement(H.Accesses(Planned(ops, name))), G.Initial(ks, layout(m)), sched,
                     layout(Run(cfg, ops, m)))
  {
    var end;
    sched, end := G.RunsComplete(ks, H.Placement(H.Accesses(Planned(ops, name))), G.Initial(ks, layout(m)));
    ListIsSerial(cfg, ops, name, layout, ks, m, sched, end);
  }

  /** What is planned for the three projections of a decode layer. */
  function QkvTouches(l: nat, xIn: Tensor, name: Naming): (us: seq<H.Touched>)
    ensures |us| == 3
  {
    H.Projections(name(xIn), name(LayerWeight(l, WqP)), name(LayerWeight(l, WkP)), name(LayerWeight(l, WvP)),
                  name(Of(DecodeScratch, Q)), name(Of(DecodeScratch, K)), name(Of(DecodeScratch, V)),
                  name(KtCache(l)), name(VCache(l)), name(LayerWeight(l, AttnNorm)), name(RopeTable))
  }

  function QkvTensors(l: nat, xIn: Tensor): set<Tensor> {
    { xIn, LayerWeight(l, WqP), LayerWeight(l, WkP), LayerWeight(l, WvP), Of(DecodeScratch, Q), KtCache(l), VCache(l),
      LayerWeight(l, AttnNorm), RopeTable }
  }

  lemma QkvPlanned(cfg: Config, l: nat, xIn: Tensor, pos: nat, name: Naming)
    ensures Planned(QkvDecodeOps(cfg, l, xIn, pos, 0), name) == QkvTouches(l, xIn, name)
  {
    var ops := QkvDecodeOps(cfg, l, xIn, pos, 0);
    assert Images(ops, name) == [Image(ops[0], name), Image(ops[1], name), Image(ops[2], name)];
    H.ThreePlanned(Image(ops[0], name), Image(ops[1], name), Image(ops[2], name));
  }

  lemma QkvSafe(l: nat, xIn: Tensor, name: Naming)
    requires Distinct(QkvTensors(l, xIn), InBuffers(name))
    requires xIn != Of(DecodeScratch, Q) && !xIn.KtCache? && !xIn.VCache?
    ensures G.Safe(H.Accesses(QkvTouches(l, xIn, name)), [false, false, false])
  {
    H.ProjectionsNeedNoBarrier(name(xIn), name(LayerWeight(l, WqP)), name(LayerWeight(l, WkP)),
                               name(LayerWeight(l, WvP)), name(Of(DecodeScratch, Q)), name(Of(DecodeScratch, K)),
                               name(Of(DecodeScratch, V)), name(KtCache(l)), name(VCache(l)),
                               name(LayerWeight(l, AttnNorm)), name(RopeTable));
  }

  /** The one submission of several ops that the per-op path makes without any barrier may
      be read op by op too, when tensors are distinct buffers. */
  lemma ProjectionsAreSerial(cfg: Config, l: nat, pos: nat, name: Naming, layout: Mem -> G.Mem, ks: seq<G.Kernel>,
                             m: Mem, sched: seq<nat>, end: G.Mem)
    requires Distinct(QkvTensors(l, XIn(DecodeScratch, l)), InBuffers(name))
    requires var ops := QkvDecodeOps(cfg, l, XIn(DecodeScratch, l), pos, 0);
             && AllImplement(Actions(cfg, ops, |ops|), ks, layout) && G.Uses(ks, H.Accesses(Planned(ops, name)))
             && |ks| == 3 && G.RunsTo(ks, [false, false, false], G.Initial(ks, layout(m)), sched, end)
    ensures end == layout(Run(cfg, QkvDecodeOps(cfg, l, XIn(DecodeScratch, l), pos, 0), m))
  {
    var xIn := XIn(DecodeScratch, l);
    var ops := QkvDecodeOps(cfg, l, xIn, pos, 0);
    QkvPlanned(cfg, l, xIn, pos, name);
    QkvSafe(l, xIn, name);
    RunPerforms(Actions(cfg, ops, 3), H.Accesses(Planned(ops, name)), [false, false, false], layout, ks, m, sched, end);
    DispatchesRun(cfg, ops, 3, m);
  }

  lemma ResolvedImage(op: Op, cell: nat, name: Naming)
    ensures Image(ResolveOp(op, cell), name) == Image(op, name)
  {}

  /** A replay plans as its recording did, whatever the position cell holds, so the barriers
      recorded once serve every position. */
  lemma ReplayPlansTheSame(ops: seq<Op>, cell: nat, name: Naming)
    ensures Planned(Resolve(ops, cell), name) == Planned(ops, name)
  {
    var resolved := Resolve(ops, cell);
    forall i | 0 <= i < |ops| ensures Images(resolved, name)[i] == Images(ops, name)[i] {
      ResolvedImage(ops[i], cell, name);
    }
    assert Images(resolved, name) == Images(ops, name);
  }

  // ---- The theorem applies to every list ---------------------------------

  /** There are such kernels on every faithful representation of the list's tensors. */
  lemma ListHasKernels(cfg: Config, ops: seq<Op>, ts: set<Tensor>, name: Naming, layout: Mem -> G.Mem)
    returns (ks: seq<G.Kernel>)
    requires Tensors(ops) <= ts && Faithful(layout, ts, InBuffers(name), Same)
    ensures AllImplement(Actions(cfg, ops, |ops|), ks, layout) && G.Uses(ks, H.Accesses(Planned(ops, name)))
  {
    ListFramed(cfg, ops, |ops|, ts, name);
    ks := KernelsExist(Actions(cfg, ops, |ops|), H.Accesses(Planned(ops, name)), layout, ts, InBuffers(name), Same);
  }

  /** Tensors in distinct buffers have a faithful representation. */
  lemma TensorsHaveLayout(ts: set<Tensor>, name: Naming) returns (layout: Mem -> G.Mem)
    requires Distinct(ts, InBuffers(name))
    ensures Faithful(layout, ts, InBuffers(name), Same)
  {
    var code := (m: Mem, t: Tensor) => Code(Get(m, t));
    forall m: Mem, m': Mem, t: Tensor ensures code(m, t) == code(m', t) <==> Same(m, m', t) {
      CodeIsFaithful(Get(m, t), Get(m', t));
    }
    layout := Encoded(ts, InBuffers(name), code);
    EncodedIsFaithful(ts, InBuffers(name), Same, code);
  }

  /** So every list has buffers, a representation and kernels that it runs with. */
  lemma EveryListRuns(cfg: Config, ops: seq<Op>)
    returns (name: Naming, layout: Mem -> G.Mem, ks: seq<G.Kernel>)
    ensures Distinct(Tensors(ops), InBuffers(name)) && Faithful(layout, Tensors(ops), InBuffers(name), Same)
    ensures AllImplement(Actions(cfg, ops, |ops|), ks, layout) && G.Uses(ks, H.Accesses(Planned(ops, name)))
  {
    name := NamesExist(Tensors(ops));
    layout := TensorsHaveLayout(Tensors(ops), name);
    ks := ListHasKernels(cfg, ops, Tensors(ops), name, layout);
  }
}
