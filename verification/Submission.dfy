/** From the ops of a matmul graph to its barriers: which ops may split, what scratch they
    ask for, and that the recorder gets what its theorems assume. */
module Submission {
  import opened Arith
  import opened GpuExecution
  import opened HazardGraph
  import opened MatmulGraph
  import opened MatmulOps
  import opened Prelude
  import opened Routing
  import SplitK

  /** An op, whether it has an activation, and what resolution found of it. */
  datatype Call = Call(op: MatmulOp, activated: bool, dims: Dims)

  function FusionsOf(c: Call): Fusions {
    Fusions(c.op.accumulate, c.op.bias.Some? || c.op.d.Some? || c.activated, c.op.normWeight.Some?,
            !c.op.store.NoStore?)
  }

  /** An op may split if it fuses nothing and is alone in its submission or part of a graph. */
  predicate MaySplit(c: Call, graph: bool, count: nat) {
    var f := FusionsOf(c);
    !f.accumulate && !f.epilogue && !f.normedA && !f.store && (graph || count == 1)
  }

  function PlanOf(d: Device, tuned: Tuned, c: Call, graph: bool, count: nat): Option<OpPlan> {
    Route(d, tuned, c.dims, FusionsOf(c), MaySplit(c, graph, count))
  }

  /** The scratch a graph op asks for. */
  function WantOf(d: Device, tuned: Tuned, c: Call, count: nat): Option<nat> {
    match PlanOf(d, tuned, c, true, count)
    case None => None
    case Some(plan) =>
      match plan.splitk2
      case None => None
      case Some(n) =>
        if n >= U32_SIZE then None
        else
          match SplitK.PlanDispatch(d.maxGroups, c.dims.shape, n)
          case None => None
          case Some(p) => Some(p.scratchBytes)
  }

  function Ops(calls: seq<Call>): (ops: seq<MatmulOp>) {
    seq(|calls|, i requires 0 <= i < |calls| => calls[i].op)
  }

  function WantsOf(d: Device, tuned: Tuned, calls: seq<Call>): Wants {
    seq(|calls|, i requires 0 <= i < |calls| => WantOf(d, tuned, calls[i], |calls|))
  }

  predicate AllResolved(d: Device, calls: seq<Call>) {
    forall i :: 0 <= i < |calls| ==> Resolved(d, calls[i].dims, FusionsOf(calls[i]))
  }

  // ---- Which ops split ---------------------------------------------------

  /** A plain op is one whose dispatch has A and B as its only inputs and C as its only
      output, which is all that the two stages touch beside the scratch. */
  lemma PlainIff(op: MatmulOp)
    ensures op.IsPlain() <==> op.store.NoStore? && MatmulTouches(op) == Touched([op.a, op.b], [op.c])
  {
    var loads := MatmulTouches(op).loads;
    assert |loads| == 2 <==> op.store.Table().None? && !op.accumulate && op.bias.None? && op.d.None?
                             && op.normWeight.None?;
  }

  /** Exactly when a routed op splits: it is plain, has no activation, f32 weights and
      activations, and is alone or in a graph on a device with addresses, and the tuner or
      the heuristic has a count that the device admits. */
  lemma SplitsIff(d: Device, tuned: Tuned, c: Call, graph: bool, count: nat)
    requires Resolved(d, c.dims, FusionsOf(c)) && PlanOf(d, tuned, c, graph, count).Some?
    ensures PlanOf(d, tuned, c, graph, count).value.splitk2.Some? <==>
            && c.op.IsPlain() && !c.activated && !c.dims.bF16 && !c.dims.aF16 && !c.dims.packedB
            && (graph || count == 1) && d.bda && AutoSplits(d, tuned, Key(c.dims.shape, false)).Some?
  {}

  // ---- What is recorded --------------------------------------------------

  lemma SplitAdmitted(d: Device, tuned: Tuned, c: Call, graph: bool, count: nat)
    requires Resolved(d, c.dims, FusionsOf(c)) && PlanOf(d, tuned, c, graph, count).Some?
    requires PlanOf(d, tuned, c, graph, count).value.splitk2.Some?
    ensures var n := PlanOf(d, tuned, c, graph, count).value.splitk2.value;
            n < U32_SIZE && SplitK.AutoRouteFits(d.maxGroups, c.dims.shape, n)
  {}

  lemma AdmittedBytes(max: SplitK.Limits, s: SplitK.Shape, n: u32)
    requires SplitK.AutoRouteFits(max, s, n)
    ensures SplitK.PlanDispatch(max, s, n).Some?
    ensures var bytes := SplitK.PlanDispatch(max, s, n).value.scratchBytes;
            0 < bytes == 4 * (s.m * s.n * s.batch * n) <= 256 * 1024 * 1024
  {
    SplitK.AutoRouteIff(max, s, n);
    SplitK.PlanIff(max, s, n);
    SplitK.PlanSizes(max, s, n);
    MulMono(1, s.m, s.n);
    MulMono(1, s.batch, s.m * s.n);
    MulMono(1, n, s.m * s.n * s.batch);
  }

  lemma WantIsPlanned(d: Device, tuned: Tuned, c: Call, count: nat)
    requires Resolved(d, c.dims, FusionsOf(c)) && PlanOf(d, tuned, c, true, count).Some?
    ensures WantOf(d, tuned, c, count).Some? <==> PlanOf(d, tuned, c, true, count).value.splitk2.Some?
    ensures WantOf(d, tuned, c, count).Some? ==>
              var s, n := c.dims.shape, PlanOf(d, tuned, c, true, count).value.splitk2.value;
              && c.op.IsPlain() && WantOf(d, tuned, c, count).value == 4 * (s.m * s.n * s.batch * n)
              && 0 < WantOf(d, tuned, c, count).value <= 256 * 1024 * 1024
  {
    var plan := PlanOf(d, tuned, c, true, count).value;
    if plan.splitk2.Some? {
      SplitAdmitted(d, tuned, c, true, count);
      SplitsIff(d, tuned, c, true, count);
      AdmittedBytes(d.maxGroups, c.dims.shape, plan.splitk2.value);
    }
  }

  /** Every graph of resolved ops is recorded as the recorder's theorems assume: only plain
      ops ask for scratch, and for some. */
  lemma RoutedIsWell(d: Device, tuned: Tuned, calls: seq<Call>)
    requires AllResolved(d, calls)
    ensures WellRouted(Ops(calls), WantsOf(d, tuned, calls))
  {
    var ops, wants := Ops(calls), WantsOf(d, tuned, calls);
    forall i | 0 <= i < |ops| && wants[i].Some? ensures ops[i].IsPlain() && wants[i].value > 0 {
      WantIsPlanned(d, tuned, calls[i], |calls|);
    }
  }

  /** So whatever the device and the tuning store, a graph without fused stores is equivalent
      to its ops in order under every interleaving. */
  lemma SubmissionIsSerial(d: Device, tuned: Tuned, calls: seq<Call>)
    requires AllResolved(d, calls) && forall i :: 0 <= i < |calls| ==> calls[i].op.store.NoStore?
    ensures var ops, wants := Ops(calls), WantsOf(d, tuned, calls);
            && |TrackerPlacement(ops, wants)| == |GraphAccesses(ops, wants)|
            && Safe(GraphAccesses(ops, wants), TrackerPlacement(ops, wants))
  {
    RoutedIsWell(d, tuned, calls);
    MatmulGraphIsSerial(Ops(calls), WantsOf(d, tuned, calls));
  }
}
