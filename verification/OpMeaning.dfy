/** What every op of a mixed graph means, and that its planned accesses say exactly that. */
module OpMeaning {
  import opened GpuExecution
  import opened HazardGraph
  import opened Kernels
  import opened MatmulOps
  import opened Meaning
  import opened Prelude

  ghost function Locs(hs: seq<Handle>): (xs: seq<Loc>)
    ensures |xs| == |hs| && forall i :: 0 <= i < |hs| ==> xs[i] == Buffer(hs[i])
  {
    seq(|hs|, i requires 0 <= i < |hs| => Buffer(hs[i]))
  }

  ghost function LocSet(hs: seq<Handle>): set<Loc> { set h | h in hs :: Buffer(h) }

  /** A dispatch that computes `outputs` from `inputs` and what the outputs held. */
  ghost function Run(inputs: seq<Handle>, outputs: seq<Handle>, f: Compute, m: Mem): Mem {
    Update(Locs(inputs + outputs), LocSet(outputs), f, m)
  }

  /** A product reads A, B and its fused operands, and what it accumulates on; its row goes
      to C, is rotated into C, or is scattered into a cache while C stays as it is. */
  ghost function RunMatmul(op: MatmulOp, f: Compute, m: Mem): Mem {
    var product := [op.a, op.b] + OptSeq(op.bias) + OptSeq(op.d) + OptSeq(op.normWeight);
    var inputs := if op.accumulate then product + [op.c] else product;
    match op.store
    case NoStore => Run(inputs, [op.c], f, m)
    case RopeStore(table) => Run(inputs + [table], [op.c], f, m)
    case ScatterStore(dst) => Run(inputs, [dst], f, m)
    case RopeScatterStore(table, dst) => Run(inputs + [table], [dst], f, m)
  }

  /** One job of a GEMV chain. */
  ghost function RunJob(op: MatmulOp, f: Compute, m: Mem): Mem {
    Run([op.a, op.b] + OptSeq(op.d) + OptSeq(op.normWeight), [op.c], f, m)
  }

  /** The first `n` jobs of a chain, later ones reading what earlier ones left. */
  ghost function RunChain(jobs: seq<MatmulOp>, n: nat, f: Compute, m: Mem): Mem
    requires n <= |jobs|
  {
    if n == 0 then m else RunJob(jobs[n - 1], f, RunChain(jobs, n - 1, f, m))
  }

  /** The dispatches of an op: one, or for decode attention the chunks and their merging. */
  function Stages(op: ExecOp): nat { if op.AttnDecode? then 2 else 1 }

  ghost function RunOp(op: ExecOp, stage: nat, f: Compute, m: Mem): Mem
    requires stage < Stages(op)
  {
    match op
    case Matmul(x) => RunMatmul(x, f, m)
    case RmsNorm(input, weight, output) => Run([input, weight], [output], f, m)
    case LayerNorm(input, weight, bias, output) => Run([input, weight, bias], [output], f, m)
    case SoftmaxRows(input, output) => Run([input], [output], f, m)
    case Rope(input, table, output) => Run([input, table], [output], f, m)
    case RopeScatter(input, table, dst) => Run([input, table], [dst], f, m)
    case CopyStrided(src, dst) => Run([src], [dst], f, m)
    case Binary(lhs, rhs, out) => Run([lhs, rhs], [out], f, m)
    case AttnDecode(q, kt, v, scratch, out) =>
      if stage == 0 then Run([q, kt, v], [scratch], f, m) else Run([scratch], [out], f, m)
    case FlashAttn(q, kt, v, out) => Run([q, kt, v], [out], f, m)
    case PrefillQkvPack(qkv, table, q, kt, v) => Run([qkv, table], [q, kt, v], f, m)
    case Argmax(input, result) => Run([input], [result], f, m)
    case EmbedGather(token, table, out) => Run([token, table], [out], f, m)
    case EmbedGatherRows(tokens, table, out) => Run([tokens, table], [out], f, m)
    case GemvChain(jobs) => RunChain(jobs, |jobs|, f, m)
  }

  ghost function Act(op: ExecOp, stage: nat): Action
    requires stage < Stages(op)
  {
    (f: Compute, m: Mem) => RunOp(op, stage, f, m)
  }

  // ---- Dispatches that store once ----------------------------------------

  lemma RunDescribed(t: Touched, act: Action, inputs: seq<Handle>, outputs: seq<Handle>)
    requires forall f: Compute, m: Mem :: act(f, m) == Run(inputs, outputs, f, m)
    requires outputs != [] && forall h :: h in t.stores <==> h in outputs
    requires forall h :: h in inputs + outputs <==> h in t.loads + t.stores
    ensures Describes(t.Access(), act)
  {
    var a, operands := t.Access(), Locs(inputs + outputs);
    assert Buffer(outputs[0]) in a.stores;
    assert LocSet(outputs) == a.stores;
    forall x ensures x in operands <==> x in a.loads + a.stores {
      if x in operands {
        var i :| 0 <= i < |operands| && operands[i] == x;
        assert (inputs + outputs)[i] in t.loads + t.stores;
      }
      if x in a.loads + a.stores {
        assert x.handle in t.loads + t.stores;
        var i :| 0 <= i < |inputs + outputs| && (inputs + outputs)[i] == x.handle;
        assert operands[i] == x;
      }
    }
    UpdateDescribed(a, act, operands);
  }

  lemma MatmulDescribed(op: MatmulOp, act: Action)
    requires forall f: Compute, m: Mem :: act(f, m) == RunMatmul(op, f, m)
    ensures Describes(MatmulTouches(op).Access(), act)
  {
    var product := [op.a, op.b] + OptSeq(op.bias) + OptSeq(op.d) + OptSeq(op.normWeight);
    var plain := if op.accumulate then product + [op.c] else product;
    var inputs, outputs := plain + OptSeq(op.store.Table()), match op.store.Dst() case Some(dst) => [dst]
                                                                                  case None => [op.c];
    assert op.store.Table().None? ==> inputs == plain;
    RunDescribed(MatmulTouches(op), act, inputs, outputs);
  }

  /** Ops that map rows or elements. */
  predicate RowOp(op: ExecOp) {
    op.RmsNorm? || op.LayerNorm? || op.SoftmaxRows? || op.Rope? || op.RopeScatter? || op.CopyStrided? || op.Binary?
  }

  lemma RowOpDescribed(op: ExecOp)
    requires RowOp(op) && Stages(op) == |OpTouches(op)| == 1
    ensures Describes(OpTouches(op)[0].Access(), Act(op, 0))
  {
    var t, act := OpTouches(op)[0], Act(op, 0);
    match op
    case RmsNorm(input, weight, output) => RunDescribed(t, act, [input, weight], [output]);
    case LayerNorm(input, weight, bias, output) => RunDescribed(t, act, [input, weight, bias], [output]);
    case SoftmaxRows(input, output) => RunDescribed(t, act, [input], [output]);
    case Rope(input, table, output) => RunDescribed(t, act, [input, table], [output]);
    case RopeScatter(input, table, dst) => RunDescribed(t, act, [input, table], [dst]);
    case CopyStrided(src, dst) => RunDescribed(t, act, [src], [dst]);
    case Binary(lhs, rhs, out) => RunDescribed(t, act, [lhs, rhs], [out]);
  }

  lemma AttentionDescribed(op: ExecOp, stage: nat)
    requires op.AttnDecode? && stage < Stages(op) == |OpTouches(op)| == 2
    ensures Describes(OpTouches(op)[stage].Access(), Act(op, stage))
  {
    var t, act := OpTouches(op)[stage], Act(op, stage);
    match op
    case AttnDecode(q, kt, v, scratch, out) =>
      if stage == 0 { RunDescribed(t, act, [q, kt, v], [scratch]); } else { RunDescribed(t, act, [scratch], [out]); }
  }

  /** So is every op but a chain, dispatch by dispatch. */
  lemma PlainDescribed(op: ExecOp, stage: nat)
    requires stage < Stages(op) == |OpTouches(op)| && !op.GemvChain? && !op.Matmul?
    ensures Describes(OpTouches(op)[stage].Access(), Act(op, stage))
  {
    if RowOp(op) {
      RowOpDescribed(op);
    } else if op.AttnDecode? {
      AttentionDescribed(op, stage);
    } else {
      var t, act := OpTouches(op)[stage], Act(op, stage);
      match op
      case FlashAttn(q, kt, v, out) => RunDescribed(t, act, [q, kt, v], [out]);
      case PrefillQkvPack(qkv, table, q, kt, v) => RunDescribed(t, act, [qkv, table], [q, kt, v]);
      case Argmax(input, result) => RunDescribed(t, act, [input], [result]);
      case EmbedGather(token, table, out) => RunDescribed(t, act, [token, table], [out]);
      case EmbedGatherRows(tokens, table, out) => RunDescribed(t, act, [tokens, table], [out]);
    }
  }

  // ---- Chains ------------------------------------------------------------

  ghost function JobAct(op: MatmulOp): Action { (f: Compute, m: Mem) => RunJob(op, f, m) }

  ghost function ChainAct(jobs: seq<MatmulOp>, n: nat): Action
    requires n <= |jobs|
  {
    (f: Compute, m: Mem) => RunChain(jobs, n, f, m)
  }

  function JobTouches(op: MatmulOp): Touched {
    Touched([op.a, op.b] + OptSeq(op.d) + OptSeq(op.normWeight), [op.c])
  }

  lemma JobDescribed(op: MatmulOp)
    ensures Describes(JobTouches(op).Access(), JobAct(op))
  {
    RunDescribed(JobTouches(op), JobAct(op), JobTouches(op).loads, [op.c]);
  }

  lemma {:induction false} ChainFramed(jobs: seq<MatmulOp>, n: nat)
    requires n <= |jobs|
    ensures Frames(ChainTouches(jobs, n).Access(), ChainAct(jobs, n))
  {
    if n == 0 {
      NoJobsFramed(jobs);
    } else {
      ChainFramed(jobs, n - 1);
      OneMoreFramed(jobs, n - 1, n, ChainTouches(jobs, n - 1).Access());
    }
  }

  lemma OneMoreFramed(jobs: seq<MatmulOp>, k: nat, n: nat, before: Access)
    requires n == k + 1 <= |jobs| && before == ChainTouches(jobs, k).Access() && Frames(before, ChainAct(jobs, k))
    ensures Frames(ChainTouches(jobs, n).Access(), ChainAct(jobs, n))
  {
    JobDescribed(jobs[k]);
    ChainActMore(jobs, k, n);
    ComposedFrames(before, ChainAct(jobs, k), JobTouches(jobs[k]).Access(), JobAct(jobs[k]), ChainAct(jobs, n));
    ChainTouchesMore(jobs, n);
  }

  lemma ChainActMore(jobs: seq<MatmulOp>, k: nat, n: nat)
    requires n == k + 1 <= |jobs|
    ensures forall f: Compute, m: Mem :: ChainAct(jobs, n)(f, m) == JobAct(jobs[k])(f, ChainAct(jobs, k)(f, m))
  {}

  lemma NoJobsFramed(jobs: seq<MatmulOp>)
    ensures Frames(ChainTouches(jobs, 0).Access(), ChainAct(jobs, 0))
  {
    var a := ChainTouches(jobs, 0).Access();
    forall f: Compute, ts: set<Loc> ensures FramesOn(a, ChainAct(jobs, 0), f, ts) {
      assert forall m: Mem :: Acting(ChainAct(jobs, 0), f)(m) == m;
    }
  }

  lemma ChainTouchesMore(jobs: seq<MatmulOp>, n: nat)
    requires 0 < n <= |jobs|
    ensures var before, job := ChainTouches(jobs, n - 1).Access(), JobTouches(jobs[n - 1]).Access();
            ChainTouches(jobs, n).Access() == Access(before.loads + job.loads, before.stores + job.stores)
  {
    var before, job, all := ChainTouches(jobs, n - 1), JobTouches(jobs[n - 1]), ChainTouches(jobs, n);
    assert forall h :: h in all.loads <==> h in before.loads || h in job.loads;
    assert forall h :: h in all.stores <==> h in before.stores || h in job.stores;
  }

  /** Memory after each job. */
  ghost function States(jobs: seq<MatmulOp>, f: Compute, m: Mem): (ms: seq<Mem>)
    ensures |ms| == |jobs| + 1 && forall i :: 0 <= i <= |jobs| ==> ms[i] == RunChain(jobs, i, f, m)
  {
    seq(|jobs| + 1, i requires 0 <= i <= |jobs| => RunChain(jobs, i, f, m))
  }

  lemma StatesStep(jobs: seq<MatmulOp>, f: Compute, m: Mem, i: nat)
    requires i < |jobs|
    ensures States(jobs, f, m)[i + 1] == RunJob(jobs[i], f, States(jobs, f, m)[i])
  {
    ChainStep(jobs, i + 1, f, m);
  }

  lemma ChainStep(jobs: seq<MatmulOp>, n: nat, f: Compute, m: Mem)
    requires 0 < n <= |jobs|
    ensures RunChain(jobs, n, f, m) == RunJob(jobs[n - 1], f, RunChain(jobs, n - 1, f, m))
  {}

  /** Marks stay, and the output gets one when the job reads one. */
  ghost predicate Marking(op: MatmulOp, everywhere: bool, m: Mem, after: Mem) {
    && (forall x :: At(m, x) == [1] ==> At(after, x) == [1])
    && (everywhere || (exists h :: h in JobTouches(op).loads && At(m, Buffer(h)) == [1])
        ==> At(after, Buffer(op.c)) == [1])
  }

  ghost predicate AllMarking(jobs: seq<MatmulOp>, everywhere: bool, ms: seq<Mem>) {
    |ms| == |jobs| + 1 && forall i :: 0 <= i < |jobs| ==> Marking(jobs[i], everywhere, ms[i], ms[i + 1])
  }

  lemma InLocs(hs: seq<Handle>, h: Handle)
    requires h in hs
    ensures Buffer(h) in Locs(hs)
  {
    var k :| 0 <= k < |hs| && hs[k] == h;
    assert Locs(hs)[k] == Buffer(h);
  }

  /** A job marks its output when it sees a mark. */
  lemma JobMarks(op: MatmulOp, everywhere: bool, m: Mem, h: Handle)
    requires everywhere || (At(m, Buffer(h)) == [1] && h in JobTouches(op).loads + [op.c])
    ensures At(RunJob(op, Marks(everywhere), m), Buffer(op.c)) == [1]
  {
    var operands := Locs(JobTouches(op).loads + [op.c]);
    MarksOut(everywhere, Buffer(op.c), ReadAll(m, operands));
    if !everywhere {
      InLocs(JobTouches(op).loads + [op.c], h);
      var i :| 0 <= i < |operands| && operands[i] == Buffer(h);
      assert ReadAll(m, operands)[i] == [1];
    }
  }

  /** And keeps all marks, because it reads what it overwrites. */
  lemma JobMarking(op: MatmulOp, everywhere: bool, m: Mem)
    ensures Marking(op, everywhere, m, RunJob(op, Marks(everywhere), m))
  {
    if everywhere || At(m, Buffer(op.c)) == [1] { JobMarks(op, everywhere, m, op.c); }
    if h :| h in JobTouches(op).loads && At(m, Buffer(h)) == [1] { JobMarks(op, everywhere, m, h); }
  }

  lemma StatesMarking(jobs: seq<MatmulOp>, everywhere: bool, m: Mem)
    ensures AllMarking(jobs, everywhere, States(jobs, Marks(everywhere), m))
  {
    var ms := States(jobs, Marks(everywhere), m);
    forall i | 0 <= i < |jobs| ensures Marking(jobs[i], everywhere, ms[i], ms[i + 1]) {
      StatesStep(jobs, Marks(everywhere), m, i);
      JobMarking(jobs[i], everywhere, ms[i]);
    }
  }

  lemma {:induction false} MarkStays(jobs: seq<MatmulOp>, everywhere: bool, ms: seq<Mem>, k: nat, n: nat, x: Loc)
    requires k <= n <= |jobs| && AllMarking(jobs, everywhere, ms) && At(ms[k], x) == [1]
    ensures At(ms[n], x) == [1]
  {
    if k < n {
      MarkStays(jobs, everywhere, ms, k, n - 1, x);
      assert Marking(jobs[n - 1], everywhere, ms[n - 1], ms[n - 1 + 1]);
    }
  }

  /** A mark that a job sees shows up in its output and stays there. */
  lemma MarkArrives(jobs: seq<MatmulOp>, everywhere: bool, ms: seq<Mem>, i: nat, h: Handle)
    requires i < |jobs| && AllMarking(jobs, everywhere, ms)
    requires everywhere || (h in JobTouches(jobs[i]).loads && At(ms[0], Buffer(h)) == [1])
    ensures At(ms[|jobs|], Buffer(jobs[i].c)) == [1]
  {
    if !everywhere { MarkStays(jobs, everywhere, ms, 0, i, Buffer(h)); }
    assert Marking(jobs[i], everywhere, ms[i], ms[i + 1]);
    MarkStays(jobs, everywhere, ms, i + 1, |jobs|, Buffer(jobs[i].c));
  }

  ghost predicate Clean(m: Mem) { forall x :: At(m, x) == [] }

  lemma JobClean(op: MatmulOp, m: Mem)
    requires Clean(m)
    ensures Clean(RunJob(op, Marks(false), m))
  {
    MarksOut(false, Buffer(op.c), ReadAll(m, Locs(JobTouches(op).loads + [op.c])));
  }

  ghost predicate StaysClean(ms: seq<Mem>) {
    forall i :: 0 <= i < |ms| - 1 && Clean(ms[i]) ==> Clean(ms[i + 1])
  }

  lemma {:induction false} CleanThrough(ms: seq<Mem>, n: nat)
    requires n < |ms| && Clean(ms[0]) && StaysClean(ms)
    ensures Clean(ms[n])
  {
    if n > 0 {
      CleanThrough(ms, n - 1);
      assert Clean(ms[n - 1 + 1]);
    }
  }

  lemma StatesClean(jobs: seq<MatmulOp>, m: Mem)
    ensures StaysClean(States(jobs, Marks(false), m))
  {
    var ms := States(jobs, Marks(false), m);
    forall i | 0 <= i < |jobs| && Clean(ms[i]) ensures Clean(ms[i + 1]) {
      StatesStep(jobs, Marks(false), m, i);
      JobClean(jobs[i], ms[i]);
    }
  }

  /** A job that names, or stores, what the chain declares. */
  lemma {:induction false} JobOf(jobs: seq<MatmulOp>, n: nat, h: Handle) returns (i: nat)
    requires n <= |jobs| && h in ChainTouches(jobs, n).loads
    ensures i < n && h in JobTouches(jobs[i]).loads
  {
    if h in JobTouches(jobs[n - 1]).loads { i := n - 1; } else { i := JobOf(jobs, n - 1, h); }
  }

  lemma {:induction false} StoringJob(jobs: seq<MatmulOp>, n: nat, h: Handle) returns (i: nat)
    requires n <= |jobs| && h in ChainTouches(jobs, n).stores
    ensures i < n && jobs[i].c == h
  {
    if jobs[n - 1].c == h { i := n - 1; } else { i := StoringJob(jobs, n - 1, h); }
  }

  lemma {:induction false} JobStores(jobs: seq<MatmulOp>, n: nat, i: nat)
    requires i < n <= |jobs|
    ensures jobs[i].c in ChainTouches(jobs, n).stores
  {
    if i < n - 1 { JobStores(jobs, n - 1, i); }
  }

  ghost predicate IsChain(act: Action, jobs: seq<MatmulOp>) {
    forall f: Compute, m: Mem :: act(f, m) == RunChain(jobs, |jobs|, f, m)
  }

  lemma ChainChanges(act: Action, jobs: seq<MatmulOp>, i: nat)
    requires i < |jobs| && IsChain(act, jobs)
    ensures Changes(act, Buffer(jobs[i].c))
  {
    var f, m: Mem := Marks(true), map[];
    StatesMarking(jobs, true, m);
    MarkArrives(jobs, true, States(jobs, f, m), i, 0);
    assert At(act(f, m), Buffer(jobs[i].c)) != At(m, Buffer(jobs[i].c));
  }

  lemma ChainNotices(act: Action, jobs: seq<MatmulOp>, i: nat, h: Handle)
    requires i < |jobs| && h in JobTouches(jobs[i]).loads && h != jobs[i].c && IsChain(act, jobs)
    ensures Notices(act, Buffer(h))
  {
    var f, m: Mem := Marks(false), map[];
    var m' := m[Buffer(h) := [1]];
    StatesClean(jobs, m);
    CleanThrough(States(jobs, f, m), |jobs|);
    StatesMarking(jobs, false, m');
    MarkArrives(jobs, false, States(jobs, f, m'), i, h);
    assert NoticesIn(act, Buffer(h), f, m, [1], Buffer(jobs[i].c));
  }

  lemma ChainDescribed(act: Action, jobs: seq<MatmulOp>)
    requires IsChain(act, jobs)
    ensures Describes(ChainTouches(jobs, |jobs|).Access(), act)
  {
    var t := ChainTouches(jobs, |jobs|);
    ChainFramed(jobs, |jobs|);
    SameFrames(t.Access(), ChainAct(jobs, |jobs|), act);
    forall x | x in t.Access().stores ensures Changes(act, x) {
      var i := StoringJob(jobs, |jobs|, x.handle);
      ChainChanges(act, jobs, i);
    }
    forall x | x in t.Access().loads ensures Changes(act, x) || Notices(act, x) {
      var i := JobOf(jobs, |jobs|, x.handle);
      if x.handle == jobs[i].c { ChainChanges(act, jobs, i); } else { ChainNotices(act, jobs, i, x.handle); }
    }
  }

  // ---- Every op, and every list ------------------------------------------

  /** For every op, with any operands equal or distinct: the planned stores are exactly the
      buffers a dispatch can change, the planned loads and stores exactly those it can
      change or notice, whatever it computes. */
  lemma OpDescribed(op: ExecOp, stage: nat)
    requires stage < Stages(op)
    ensures Stages(op) == |OpTouches(op)| && Describes(OpTouches(op)[stage].Access(), Act(op, stage))
  {
    match op
    case Matmul(x) => MatmulDescribed(x, Act(op, 0));
    case GemvChain(jobs) => ChainDescribed(Act(op, 0), jobs);
    case _ => PlainDescribed(op, stage);
  }

  ghost function OpActs(op: ExecOp): seq<Action> {
    if op.AttnDecode? then [Act(op, 0), Act(op, 1)] else [Act(op, 0)]
  }

  /** The dispatches of the first `n` ops. */
  ghost function Acts(ops: seq<ExecOp>, n: nat): seq<Action>
    requires n <= |ops|
  {
    if n == 0 then [] else Acts(ops, n - 1) + OpActs(ops[n - 1])
  }

  lemma OpActsDescribed(op: ExecOp)
    ensures AllDescribed(Accesses(OpTouches(op)), OpActs(op))
  {
    forall stage | 0 <= stage < Stages(op) ensures Describes(OpTouches(op)[stage].Access(), OpActs(op)[stage]) {
      OpDescribed(op, stage);
    }
    OpDescribed(op, 0);
  }

  /** What is planned for a list describes its dispatches one by one. */
  lemma {:induction false} PlanDescribed(ops: seq<ExecOp>, n: nat)
    requires n <= |ops|
    ensures AllDescribed(Accesses(PlanTouches(ops, n)), Acts(ops, n))
  {
    if n > 0 {
      PlanDescribed(ops, n - 1);
      OpActsDescribed(ops[n - 1]);
      AppendDescribed(Accesses(PlanTouches(ops, n - 1)), Acts(ops, n - 1), Accesses(OpTouches(ops[n - 1])),
                      OpActs(ops[n - 1]));
      AccessesMore(ops, n);
    }
  }

  lemma AccessesMore(ops: seq<ExecOp>, n: nat)
    requires 0 < n <= |ops|
    ensures Accesses(PlanTouches(ops, n)) == Accesses(PlanTouches(ops, n - 1)) + Accesses(OpTouches(ops[n - 1]))
  {}

  /** An op that can change or notice what an earlier op can change, or change what it can
      notice, always has a barrier after it: the recorded graph has no other order to lose. */
  lemma DependentOpsAreFenced(ops: seq<ExecOp>, p: nat, q: nat)
    requires p < q < |Acts(ops, |ops|)| && Interfere(Acts(ops, |ops|)[p], Acts(ops, |ops|)[q])
    ensures |PlanTouches(ops, |ops|)| == |Acts(ops, |ops|)|
    ensures Fenced(Placement(Accesses(PlanTouches(ops, |ops|))), p, q)
  {
    PlanDescribed(ops, |ops|);
    InterferingAreFenced(Accesses(PlanTouches(ops, |ops|)), Acts(ops, |ops|), p, q);
  }

  /** Whatever the ops of a graph compute, kernels can do it within the planned accesses, and
      every interleaving that the recorded barriers allow ends as the ops in order. */
  lemma GraphDoesWhatItMeans(ops: seq<ExecOp>, fs: seq<Compute>)
    returns (layout: Mem -> Mem, ks: seq<Kernel>)
    requires |fs| == |Acts(ops, |ops|)|
    ensures var acc := Accesses(PlanTouches(ops, |ops|));
            && Faithful(layout, Named(acc), Here, SameAt) && |ks| == |acc| && Uses(ks, acc)
            && forall m: Mem, sched: seq<nat>, end: Mem ::
                 RunsTo(ks, Placement(acc), Initial(ks, layout(m)), sched, end) ==>
                   end == layout(Perform(Acted(Acts(ops, |ops|), fs), |fs|, m))
  {
    var acc, acts := Accesses(PlanTouches(ops, |ops|)), Acts(ops, |ops|);
    PlanDescribed(ops, |ops|);
    layout, ks := MeantHasKernels(acc, acts, fs);
    ExecGraphIsSerial(ops);
    forall m: Mem, sched: seq<nat>, end: Mem | RunsTo(ks, Placement(acc), Initial(ks, layout(m)), sched, end)
      ensures end == layout(Perform(Acted(acts, fs), |fs|, m))
    {
      RunPerforms(Acted(acts, fs), acc, Placement(acc), layout, ks, m, sched, end);
    }
  }
}
