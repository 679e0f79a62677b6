/** Mixed-op graphs: planning op lists into dispatch accesses, the hazard cursor
    that places barriers, and recording. */
module HazardGraph {
  import opened Prelude
  import opened MatmulOps
  import opened GpuExecution

  const GEMV_CHAIN_MAX_JOBS: nat := 8

  datatype ExecOp =
    | Matmul(op: MatmulOp)
    | RmsNorm(input: Handle, weight: Handle, output: Handle)
    | LayerNorm(input: Handle, weight: Handle, normBias: Handle, output: Handle)
    | SoftmaxRows(input: Handle, output: Handle)
    | Rope(input: Handle, table: Handle, output: Handle)
    | RopeScatter(input: Handle, table: Handle, dst: Handle)
    | CopyStrided(src: Handle, dst: Handle)
    | Binary(lhs: Handle, rhs: Handle, out: Handle)
    | AttnDecode(q: Handle, kt: Handle, v: Handle, scratch: Handle, out: Handle)
    | FlashAttn(q: Handle, kt: Handle, v: Handle, out: Handle)
    | PrefillQkvPack(qkv: Handle, table: Handle, q: Handle, kt: Handle, v: Handle)
    | Argmax(input: Handle, result: Handle)
    | EmbedGather(token: Handle, table: Handle, out: Handle)
    | EmbedGatherRows(tokens: Handle, table: Handle, out: Handle)
    | GemvChain(jobs: seq<MatmulOp>)

  /** The buffer handles one dispatch reads and writes, in push order. */
  datatype Touched = Touched(loads: seq<Handle>, stores: seq<Handle>) {
    ghost function Access(): GpuExecution.Access {
      GpuExecution.Access(set h | h in loads :: Buffer(h), set h | h in stores :: Buffer(h))
    }
  }

  function MatmulTouches(op: MatmulOp): Touched {
    Touched(
      [op.a, op.b] + OptSeq(op.store.Table()) + (if op.accumulate then [op.c] else [])
      + OptSeq(op.bias) + OptSeq(op.d) + OptSeq(op.normWeight),
      match op.store.Dst() case Some(dst) => [dst] case None => [op.c])
  }

  /** A chain is one dispatch over its jobs (here the first `n`). */
  function ChainTouches(jobs: seq<MatmulOp>, n: nat): Touched
    requires n <= |jobs|
  {
    if n == 0 then Touched([], [])
    else
      var rest, op := ChainTouches(jobs, n - 1), jobs[n - 1];
      Touched(rest.loads + [op.a, op.b] + OptSeq(op.d) + OptSeq(op.normWeight), rest.stores + [op.c])
  }

  /** The dispatches of one op; decode attention is two, chained by `scratch`. */
  function OpTouches(op: ExecOp): seq<Touched> {
    match op
    case Matmul(m) => [MatmulTouches(m)]
    case RmsNorm(i, w, o) => [Touched([i, w], [o])]
    case LayerNorm(i, w, b, o) => [Touched([i, w, b], [o])]
    case SoftmaxRows(i, o) => [Touched([i], [o])]
    case Rope(i, t, o) => [Touched([i, t], [o])]
    case RopeScatter(i, t, dst) => [Touched([i, t], [dst])]
    case CopyStrided(src, dst) => [Touched([src], [dst])]
    case Binary(a, b, o) => [Touched([a, b], [o])]
    case AttnDecode(q, kt, v, s, o) => [Touched([q, kt, v], [s]), Touched([s], [o])]
    case FlashAttn(q, kt, v, o) => [Touched([q, kt, v], [o])]
    case PrefillQkvPack(qkv, t, q, kt, v) => [Touched([qkv, t], [q, kt, v])]
    case Argmax(i, r) => [Touched([i], [r])]
    case EmbedGather(token, t, o) => [Touched([token, t], [o])]
    case EmbedGatherRows(tokens, t, o) => [Touched([tokens, t], [o])]
    case GemvChain(jobs) => [ChainTouches(jobs, |jobs|)]
  }

  predicate Plannable(op: ExecOp) {
    op.GemvChain? ==> 0 < |op.jobs| <= GEMV_CHAIN_MAX_JOBS
  }

  /** The dispatches of the first `n` ops. */
  function PlanTouches(ops: seq<ExecOp>, n: nat): seq<Touched>
    requires n <= |ops|
  {
    if n == 0 then [] else PlanTouches(ops, n - 1) + OpTouches(ops[n - 1])
  }

  /** Plans a list op by op; `plans` is the verdict of an op's own planner on its shapes,
      context and kernel. */
  method PlanExecOps(ops: seq<ExecOp>, plans: ExecOp -> bool) returns (r: Option<seq<Touched>>)
    ensures r.Some? <==>
            forall i :: 0 <= i < |ops| ==> (ops[i].GemvChain? ==> 1 <= |ops[i].jobs| <= 8) && plans(ops[i])
    ensures r.Some? ==> r.value == PlanTouches(ops, |ops|)
  {
    var accesses: seq<Touched> := [];
    for i := 0 to |ops|
      invariant forall j :: 0 <= j < i ==> Plannable(ops[j]) && plans(ops[j])
      invariant accesses == PlanTouches(ops, i)
    {
      if !Plannable(ops[i]) || !plans(ops[i]) { return None; }
      accesses := accesses + OpTouches(ops[i]);
    }
    return Some(accesses);
  }

  ghost function Accesses(ts: seq<Touched>): (acc: seq<Access>)
    ensures |acc| == |ts|
    ensures forall i :: 0 <= i < |ts| ==> acc[i] == ts[i].Access()
  {
    seq(|ts|, i requires 0 <= i < |ts| => ts[i].Access())
  }

  // ---- The greedy placement as a specification ---------------------------

  /** First dispatch after the last barrier before dispatch `k`. */
  ghost function LastFence(acc: seq<Access>, k: nat): (m: nat)
    requires k <= |acc|
    ensures m <= k
    decreases k, 0
  {
    if k == 0 then 0
    else if FenceAt(acc, k - 1) then k - 1 else LastFence(acc, k - 1)
  }

  /** Dispatch `k` conflicts with a dispatch recorded since the last barrier. */
  ghost predicate FenceAt(acc: seq<Access>, k: nat)
    requires k < |acc|
    decreases k, 1
  {
    exists i :: LastFence(acc, k) <= i < k && Conflicts(acc[i], acc[k])
  }

  ghost function Placement(acc: seq<Access>): (fence: seq<bool>)
    ensures |fence| == |acc|
    ensures forall k :: 0 <= k < |acc| ==> fence[k] == FenceAt(acc, k)
  {
    seq(|acc|, k requires 0 <= k < |acc| => FenceAt(acc, k))
  }

  /** Barriers among the first `n` dispatches. */
  function CountTrue(fence: seq<bool>, n: nat): nat
    requires n <= |fence|
  {
    if n == 0 then 0 else CountTrue(fence, n - 1) + if fence[n - 1] then 1 else 0
  }

  // ---- Soundness and optimality ------------------------------------------

  lemma {:induction false} LastFenceIsFence(acc: seq<Access>, k: nat)
    requires k <= |acc|
    ensures LastFence(acc, k) > 0 ==> LastFence(acc, k) < k && FenceAt(acc, LastFence(acc, k))
  {
    if k > 0 && !FenceAt(acc, k - 1) { LastFenceIsFence(acc, k - 1); }
  }

  lemma GreedySeparates(acc: seq<Access>)
    ensures Separates(acc, Placement(acc))
  {
    var fence := Placement(acc);
    forall i, j | 0 <= i < j < |acc| && Conflicts(acc[i], acc[j])
      ensures Fenced(fence, i, j)
    {
      LastFenceIsFence(acc, j);
      if LastFence(acc, j) <= i {
        assert FenceAt(acc, j) && fence[j];
      } else {
        assert fence[LastFence(acc, j)];
      }
    }
  }

  /** Every interleaving of a mixed graph's dispatches, ordered only by the
      barriers the cursor emits, ends as running the ops one after another. */
  lemma ExecGraphIsSerial(ops: seq<ExecOp>)
    ensures var acc := Accesses(PlanTouches(ops, |ops|)); Safe(acc, Placement(acc))
  {
    var acc := Accesses(PlanTouches(ops, |ops|));
    GreedySeparates(acc);
    SeparatedIsSafe(acc, Placement(acc));
  }

  lemma {:induction false} CountGrows(fence: seq<bool>, lo: nat, hi: nat)
    requires lo <= hi <= |fence|
    ensures CountTrue(fence, lo) <= CountTrue(fence, hi)
    ensures (exists k :: lo <= k < hi && fence[k]) ==> CountTrue(fence, lo) < CountTrue(fence, hi)
  {
    if lo < hi { CountGrows(fence, lo, hi - 1); }
  }

  /** Greedy places no barrier after the last one. */
  lemma {:induction false} CountAtLastFence(acc: seq<Access>, k: nat)
    requires 0 < k <= |acc|
    ensures LastFence(acc, k) < k
    ensures CountTrue(Placement(acc), k) == CountTrue(Placement(acc), LastFence(acc, k) + 1)
  {
    if !FenceAt(acc, k - 1) && k > 1 { CountAtLastFence(acc, k - 1); }
  }

  /** Where greedy needs a barrier, so does every separating placement. */
  lemma FenceForced(acc: seq<Access>, fence: seq<bool>, k: nat)
    requires |fence| == |acc| && Separates(acc, fence) && k < |acc| && FenceAt(acc, k)
    ensures 0 < k && exists j :: LastFence(acc, k) + 1 <= j <= k && fence[j]
  {
    var i :| LastFence(acc, k) <= i < k && Conflicts(acc[i], acc[k]);
    assert Fenced(fence, i, k);
  }

  lemma GreedyCatchesUp(acc: seq<Access>, fence: seq<bool>, k: nat)
    requires |fence| == |acc| && Separates(acc, fence) && k < |acc| && FenceAt(acc, k)
    requires CountTrue(Placement(acc), LastFence(acc, k) + 1) <= CountTrue(fence, LastFence(acc, k) + 1)
    ensures CountTrue(Placement(acc), k + 1) <= CountTrue(fence, k + 1)
  {
    FenceForced(acc, fence, k);
    CountAtLastFence(acc, k);
    CountGrows(fence, LastFence(acc, k) + 1, k + 1);
  }

  /** Greedy stays ahead of any separating placement on every prefix. */
  lemma {:induction false} GreedyStaysAhead(acc: seq<Access>, fence: seq<bool>, k: nat)
    requires |fence| == |acc| && Separates(acc, fence) && k <= |acc|
    ensures CountTrue(Placement(acc), k) <= CountTrue(fence, k)
  {
    if k > 0 {
      if FenceAt(acc, k - 1) {
        GreedyStaysAhead(acc, fence, LastFence(acc, k - 1) + 1);
        GreedyCatchesUp(acc, fence, k - 1);
      } else {
        GreedyStaysAhead(acc, fence, k - 1);
      }
    }
  }

  /** The cursor's placement is safe and uses the fewest barriers of any
      placement under which every program runs as in order. */
  lemma GreedyIsOptimal(acc: seq<Access>, fence: seq<bool>)
    requires |fence| == |acc| && Safe(acc, fence)
    requires forall i :: 0 <= i < |acc| ==> acc[i].stores != {}
    ensures Safe(acc, Placement(acc))
    ensures CountTrue(Placement(acc), |acc|) <= CountTrue(fence, |acc|)
  {
    GreedySeparates(acc);
    SeparatedIsSafe(acc, Placement(acc));
    SafeIffSeparated(acc, fence);
    GreedyStaysAhead(acc, fence, |acc|);
  }

  lemma OpWrites(op: ExecOp)
    requires Plannable(op)
    ensures forall t :: t in OpTouches(op) ==> t.stores != []
  {
    if op.GemvChain? {
      var n := |op.jobs|;
      assert op.jobs[n - 1].c in ChainTouches(op.jobs, n).stores;
    }
  }

  /** Every dispatch of an accepted graph writes something, so the optimality
      statement applies to every accepted graph. */
  lemma {:induction false} PlannedDispatchesWrite(ops: seq<ExecOp>, n: nat)
    requires n <= |ops| && forall i :: 0 <= i < |ops| ==> Plannable(ops[i])
    ensures forall t :: t in PlanTouches(ops, n) ==> t.stores != [] && t.Access().stores != {}
  {
    if n > 0 {
      PlannedDispatchesWrite(ops, n - 1);
      OpWrites(ops[n - 1]);
      forall t | t in PlanTouches(ops, n) ensures t.stores != [] && t.Access().stores != {} {
        assert t in PlanTouches(ops, n - 1) || t in OpTouches(ops[n - 1]);
        assert Buffer(t.stores[0]) in t.Access().stores;
      }
    }
  }

  /** The two dispatches of decode attention always get a barrier between them. */
  lemma AttnDecodeIsFenced(ts: seq<Touched>, k: nat, op: ExecOp)
    requires op.AttnDecode? && k + 2 <= |ts| && ts[k..k + 2] == OpTouches(op)
    ensures FenceAt(Accesses(ts), k + 1)
  {
    var acc := Accesses(ts);
    assert ts[k] == ts[k..k + 2][0] && ts[k + 1] == ts[k..k + 2][1];
    assert Buffer(op.scratch) in acc[k].stores * (acc[k + 1].loads + acc[k + 1].stores);
    assert LastFence(acc, k + 1) <= k;
  }

  // ---- The cursor and its two clients ------------------------------------

  predicate HazardWith(t: Touched, pendingStores: seq<Handle>, pendingLoads: seq<Handle>) {
    || (exists h | h in t.loads + t.stores :: h in pendingStores)
    || (exists h | h in t.stores :: h in pendingLoads)
  }

  /** Some dispatch shown since `mark` stores (loads) handle `h`. */
  ghost predicate StoredSince(h: Handle, seen: seq<Touched>, mark: nat) {
    exists k :: mark <= k < |seen| && h in seen[k].stores
  }

  ghost predicate LoadedSince(h: Handle, seen: seq<Touched>, mark: nat) {
    exists k :: mark <= k < |seen| && h in seen[k].loads
  }

  lemma SinceExtends(h: Handle, seen: seq<Touched>, t: Touched, mark: nat)
    requires mark <= |seen|
    ensures StoredSince(h, seen + [t], mark) <==> StoredSince(h, seen, mark) || h in t.stores
    ensures LoadedSince(h, seen + [t], mark) <==> LoadedSince(h, seen, mark) || h in t.loads
  {
    var s := seen + [t];
    assert s[|seen|] == t;
    assert forall k :: mark <= k < |seen| ==> s[k] == seen[k];
    if StoredSince(h, seen, mark) {
      var k :| mark <= k < |seen| && h in seen[k].stores;
      assert h in s[k].stores;
    }
    if LoadedSince(h, seen, mark) {
      var k :| mark <= k < |seen| && h in seen[k].loads;
      assert h in s[k].loads;
    }
  }

  /** The placement of a dispatch depends only on the dispatches before it. */
  lemma {:induction false} PlacementLocal(acc: seq<Access>, acc': seq<Access>, k: nat)
    requires k <= |acc| && k <= |acc'| && forall i :: 0 <= i < k ==> acc[i] == acc'[i]
    ensures LastFence(acc, k) == LastFence(acc', k)
    ensures k < |acc| && k < |acc'| && acc[k] == acc'[k] ==> FenceAt(acc, k) == FenceAt(acc', k)
  {
    if k > 0 { PlacementLocal(acc, acc', k - 1); }
  }

  class HazardCursor {
    var pendingStores: seq<Handle>
    var pendingLoads: seq<Handle>
    /** Everything shown to the cursor so far. */
    ghost var seen: seq<Touched>

    /** The pending lists hold what was touched since the last barrier. */
    ghost predicate Valid()
      reads this
    {
      var mark := LastFence(Accesses(seen), |seen|);
      && (forall h :: h in pendingStores <==> StoredSince(h, seen, mark))
      && (forall h :: h in pendingLoads <==> LoadedSince(h, seen, mark))
    }

    constructor ()
      ensures Valid() && seen == []
    {
      pendingStores, pendingLoads := [], [];
      seen := [];
    }

    method BarrierBefore(index: nat, t: Touched) returns (needed: bool)
      requires Valid() && index == |seen|
      modifies this
      ensures Valid() && seen == old(seen) + [t]
      ensures needed == FenceAt(Accesses(seen), index)
    {
      needed := index > 0 && HazardWith(t, pendingStores, pendingLoads);
      ghost var mark := LastFence(Accesses(seen), index);
      HazardMeansConflict(seen, mark, t, pendingStores, pendingLoads);
      ghost var next := seen + [t];
      PlacementLocal(Accesses(seen), Accesses(next), index);
      assert forall i :: 0 <= i < index ==> Accesses(next)[i] == seen[i].Access();
      assert Accesses(next)[index] == t.Access();
      if needed {
        pendingStores, pendingLoads := [], [];
        mark := index;
      }
      forall h ensures StoredSince(h, next, mark) == (StoredSince(h, seen, mark) || h in t.stores)
                       && LoadedSince(h, next, mark) == (LoadedSince(h, seen, mark) || h in t.loads)
      {
        SinceExtends(h, seen, t, mark);
      }
      pendingLoads := pendingLoads + t.loads;
      pendingStores := pendingStores + t.stores;
      seen := next;
      assert mark == LastFence(Accesses(seen), |seen|);
    }
  }

  lemma ConflictsByHandle(t: Touched, u: Touched)
    ensures Conflicts(t.Access(), u.Access()) <==>
            || (exists h :: h in t.stores && h in u.loads + u.stores)
            || (exists h :: h in t.loads && h in u.stores)
  {
    var a, b := t.Access(), u.Access();
    if h :| h in t.stores && h in u.loads + u.stores {
      assert Buffer(h) in a.stores * (b.loads + b.stores);
    }
    if h :| h in t.loads && h in u.stores {
      assert Buffer(h) in a.loads * b.stores;
    }
    if x :| x in a.stores * (b.loads + b.stores) {
      assert x.handle in t.stores && x.handle in u.loads + u.stores;
    }
    if x :| x in a.loads * b.stores {
      assert x.handle in t.loads && x.handle in u.stores;
    }
  }

  /** The three decode projections of one layer: the query rotated into q, the key rotated
      into its cache, the value copied into its cache. */
  function Projections(x: Handle, wq: Handle, wk: Handle, wv: Handle, q: Handle, k: Handle, v: Handle, kt: Handle,
                       vc: Handle, norm: Handle, table: Handle): seq<Touched>
  {
    [ MatmulTouches(MatmulOp(x, wq, q, false, None, None, Some(norm), RopeStore(table))),
      MatmulTouches(MatmulOp(x, wk, k, false, None, None, Some(norm), RopeScatterStore(table, kt))),
      MatmulTouches(MatmulOp(x, wv, v, false, None, None, Some(norm), ScatterStore(vc))) ]
  }

  lemma ThreePlanned(a: ExecOp, b: ExecOp, c: ExecOp)
    ensures PlanTouches([a, b, c], 3) == OpTouches(a) + OpTouches(b) + OpTouches(c)
  {
    var ops := [a, b, c];
    assert PlanTouches(ops, 0) == [];
    assert PlanTouches(ops, 1) == OpTouches(a);
    assert PlanTouches(ops, 2) == PlanTouches(ops, 1) + OpTouches(b);
  }

  /** What a projection reads: never its own output, nor another's. */
  lemma ProjectionReads(op: MatmulOp, h: Handle)
    requires !op.accumulate && op.bias.None? && op.d.None? && h in MatmulTouches(op).loads
    ensures h == op.a || h == op.b || op.store.Table() == Some(h) || op.normWeight == Some(h)
  {
    assert h in [op.a, op.b] || h in OptSeq(op.store.Table()) || h in OptSeq(op.normWeight);
  }

  lemma DisjointOutputs(t: Touched, u: Touched, a: Handle, b: Handle)
    requires t.stores == [a] && u.stores == [b] && a != b && a !in u.loads && b !in t.loads
    ensures !Conflicts(t.Access(), u.Access())
  {
    ConflictsByHandle(t, u);
  }

  /** They may run in any interleaving: the path that submits them together without any
      barrier is safe. */
  lemma ProjectionsNeedNoBarrier(x: Handle, wq: Handle, wk: Handle, wv: Handle, q: Handle, k: Handle, v: Handle,
                                 kt: Handle, vc: Handle, norm: Handle, table: Handle)
    requires q != kt && q != vc && kt != vc
    requires var inputs := [x, wq, wk, wv, norm, table]; q !in inputs && kt !in inputs && vc !in inputs
    ensures Safe(Accesses(Projections(x, wq, wk, wv, q, k, v, kt, vc, norm, table)), [false, false, false])
  {
    var ts := Projections(x, wq, wk, wv, q, k, v, kt, vc, norm, table);
    var inputs := [x, wq, wk, wv, norm, table];
    forall i, h | 0 <= i < 3 && h in ts[i].loads ensures h in inputs {
      ProjectionReads(if i == 0 then MatmulOp(x, wq, q, false, None, None, Some(norm), RopeStore(table))
                      else if i == 1 then MatmulOp(x, wk, k, false, None, None, Some(norm), RopeScatterStore(table, kt))
                      else MatmulOp(x, wv, v, false, None, None, Some(norm), ScatterStore(vc)), h);
      assert inputs[0] == x && inputs[1] == wq && inputs[2] == wk && inputs[3] == wv;
      assert inputs[4] == norm && inputs[5] == table;
    }
    DisjointOutputs(ts[0], ts[1], q, kt);
    DisjointOutputs(ts[0], ts[2], q, vc);
    DisjointOutputs(ts[1], ts[2], kt, vc);
    SeparatedIsSafe(Accesses(ts), [false, false, false]);
  }

  lemma HazardMeansConflict(seen: seq<Touched>, mark: nat, t: Touched, ps: seq<Handle>, pl: seq<Handle>)
    requires mark <= |seen|
    requires forall h :: h in ps <==> StoredSince(h, seen, mark)
    requires forall h :: h in pl <==> LoadedSince(h, seen, mark)
    ensures HazardWith(t, ps, pl) <==> exists k :: mark <= k < |seen| && Conflicts(seen[k].Access(), t.Access())
  {
    if HazardWith(t, ps, pl) {
      var h, k :| mark <= k < |seen|
                  && (|| (h in t.loads + t.stores && h in seen[k].stores)
                      || (h in t.stores && h in seen[k].loads));
      ConflictsByHandle(seen[k], t);
    }
    if k :| mark <= k < |seen| && Conflicts(seen[k].Access(), t.Access()) {
      ConflictsByHandle(seen[k], t);
      if h :| h in seen[k].stores && h in t.loads + t.stores {
        assert h in ps;
      } else {
        var h :| h in seen[k].loads && h in t.stores;
        assert h in pl;
      }
    }
  }

  datatype Cmd = Barrier | Dispatch(index: nat)

  function WithBarrier(cmds: seq<Cmd>, needed: bool): seq<Cmd> {
    if needed then cmds + [Barrier] else cmds
  }

  /** The command stream of the first `n` dispatches of a placement. */
  ghost function Stream(fence: seq<bool>, n: nat): seq<Cmd>
    requires n <= |fence|
  {
    if n == 0 then [] else WithBarrier(Stream(fence, n - 1), fence[n - 1]) + [Dispatch(n - 1)]
  }

  ghost function CountBarriers(cmds: seq<Cmd>): nat {
    multiset(cmds)[Barrier]
  }

  lemma {:induction false} StreamBarriers(fence: seq<bool>, n: nat)
    requires n <= |fence|
    ensures CountBarriers(Stream(fence, n)) == CountTrue(fence, n)
  {
    if n > 0 { StreamBarriers(fence, n - 1); }
  }

  /** What the cursor decides about dispatch `k` is final. */
  lemma PrefixPlacement(ts: seq<Touched>, seen: seq<Touched>, k: nat)
    requires k < |ts| && |seen| == k + 1 && forall i :: 0 <= i <= k ==> seen[i] == ts[i]
    ensures FenceAt(Accesses(seen), k) == Placement(Accesses(ts))[k]
  {
    PlacementLocal(Accesses(seen), Accesses(ts), k);
  }

  method RecordExecOps(ts: seq<Touched>) returns (cmds: seq<Cmd>)
    ensures cmds == Stream(Placement(Accesses(ts)), |ts|)
  {
    var cursor := new HazardCursor();
    ghost var fence := Placement(Accesses(ts));
    cmds := [];
    for k := 0 to |ts|
      invariant cursor.Valid() && fresh(cursor)
      invariant |cursor.seen| == k && forall i :: 0 <= i < k ==> cursor.seen[i] == ts[i]
      invariant cmds == Stream(fence, k)
    {
      var needed := cursor.BarrierBefore(k, ts[k]);
      PrefixPlacement(ts, cursor.seen, k);
      cmds := WithBarrier(cmds, needed) + [Dispatch(k)];
    }
  }

  /** The plan-only census counts exactly the barriers recording emits. */
  method ExecOpsBarrierCount(ts: seq<Touched>) returns (dispatches: nat, barriers: nat)
    ensures dispatches == |ts|
    ensures barriers == CountBarriers(Stream(Placement(Accesses(ts)), |ts|))
  {
    var cursor := new HazardCursor();
    ghost var fence := Placement(Accesses(ts));
    barriers := 0;
    for k := 0 to |ts|
      invariant cursor.Valid() && fresh(cursor)
      invariant |cursor.seen| == k && forall i :: 0 <= i < k ==> cursor.seen[i] == ts[i]
      invariant barriers == CountTrue(fence, k)
    {
      var needed := cursor.BarrierBefore(k, ts[k]);
      PrefixPlacement(ts, cursor.seen, k);
      if needed { barriers := barriers + 1; }
    }
    StreamBarriers(fence, |ts|);
    dispatches := |ts|;
  }
}
