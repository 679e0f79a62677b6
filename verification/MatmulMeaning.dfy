/** The same for matmul graphs: what direct and split-K ops mean on buffers and scratch. */
module MatmulMeaning {
  import opened GpuExecution
  import opened HazardGraph
  import opened Kernels
  import opened MatmulGraph
  import opened MatmulOps
  import opened Meaning
  import opened OpMeaning
  import opened Prelude
  import SplitK

  /** The bytes of a scratch region, in order. */
  ghost function Scratch(r: SplitK.Region): (xs: seq<Loc>)
    ensures |xs| == r.bytes && forall i :: 0 <= i < r.bytes ==> xs[i] == ScratchByte(r.offset + i)
  {
    seq(r.bytes, i requires 0 <= i < r.bytes => ScratchByte(r.offset + i))
  }

  ghost function Direct(op: MatmulOp): Action { (f: Compute, m: Mem) => RunMatmul(op, f, m) }

  /** Stage 1 leaves partial products of A and B in the scratch. */
  ghost function Partials(op: MatmulOp, r: SplitK.Region): Action {
    (f: Compute, m: Mem) => Update([Buffer(op.a), Buffer(op.b)] + Scratch(r), (set x | x in Scratch(r)), f, m)
  }

  /** Stage 2 sums them into C. */
  ghost function Summed(op: MatmulOp, r: SplitK.Region): Action {
    (f: Compute, m: Mem) => Update(Scratch(r) + [Buffer(op.c)], {Buffer(op.c)}, f, m)
  }

  /** The dispatches of op `i`: two when its scratch was reserved, else one. */
  ghost function ActsOf(ops: seq<MatmulOp>, wants: Wants, i: nat): seq<Action>
    requires i < |ops| == |wants|
  {
    match SplitK.ArenaRegion(wants, i)
    case None => [Direct(ops[i])]
    case Some(r) => [Partials(ops[i], r), Summed(ops[i], r)]
  }

  ghost function AllActs(ops: seq<MatmulOp>, wants: Wants, n: nat): seq<Action>
    requires n <= |ops| == |wants|
  {
    if n == 0 then [] else AllActs(ops, wants, n - 1) + ActsOf(ops, wants, n - 1)
  }

  lemma ScratchIsRegion(r: SplitK.Region, x: Loc)
    ensures x in Scratch(r) <==> x in RegionBytes(r)
  {
    if x in RegionBytes(r) { assert Scratch(r)[x.addr - r.offset] == x; }
  }

  lemma PartialsDescribed(op: MatmulOp, r: SplitK.Region)
    requires r.bytes > 0
    ensures Describes(Access({Buffer(op.a), Buffer(op.b)}, RegionBytes(r)), Partials(op, r))
  {
    var a := Access({Buffer(op.a), Buffer(op.b)}, RegionBytes(r));
    forall x ensures x in Scratch(r) <==> x in RegionBytes(r) { ScratchIsRegion(r, x); }
    assert (set x | x in Scratch(r)) == a.stores;
    assert ScratchByte(r.offset) in a.stores;
    UpdateDescribed(a, Partials(op, r), [Buffer(op.a), Buffer(op.b)] + Scratch(r));
  }

  lemma SummedDescribed(op: MatmulOp, r: SplitK.Region)
    ensures Describes(Access(RegionBytes(r), {Buffer(op.c)}), Summed(op, r))
  {
    forall x ensures x in Scratch(r) <==> x in RegionBytes(r) { ScratchIsRegion(r, x); }
    UpdateDescribed(Access(RegionBytes(r), {Buffer(op.c)}), Summed(op, r), Scratch(r) + [Buffer(op.c)]);
  }

  lemma DirectDescribed(op: MatmulOp)
    ensures Describes(MatmulTouches(op).Access(), Direct(op))
  {
    MatmulDescribed(op, Direct(op));
  }

  lemma ActsOfDescribed(ops: seq<MatmulOp>, wants: Wants, i: nat)
    requires i < |ops| && WellRouted(ops, wants)
    ensures AllDescribed(OpDispatches(ops, wants, i, false), ActsOf(ops, wants, i))
  {
    match SplitK.ArenaRegion(wants, i)
    case None => DirectDescribed(ops[i]);
    case Some(r) =>
      PartialsDescribed(ops[i], r);
      SummedDescribed(ops[i], r);
  }

  /** The accesses of a matmul graph are exactly what its dispatches can change and notice,
      scratch included. */
  lemma {:induction false} GraphDescribed(ops: seq<MatmulOp>, wants: Wants, n: nat)
    requires n <= |ops| && WellRouted(ops, wants)
    ensures AllDescribed(Dispatches(ops, wants, n, false), AllActs(ops, wants, n))
  {
    if n > 0 {
      GraphDescribed(ops, wants, n - 1);
      ActsOfDescribed(ops, wants, n - 1);
      AppendDescribed(Dispatches(ops, wants, n - 1, false), AllActs(ops, wants, n - 1),
                      OpDispatches(ops, wants, n - 1, false), ActsOf(ops, wants, n - 1));
    }
  }

  /** Whatever the ops compute, a safely recorded submission ends as the ops in order. */
  lemma SafeDoesWhatItMeans(ops: seq<MatmulOp>, wants: Wants, fs: seq<Compute>)
    returns (layout: Mem -> Mem, ks: seq<Kernel>)
    requires WellRouted(ops, wants) && |fs| == |AllActs(ops, wants, |ops|)|
    requires |TrackerPlacement(ops, wants)| == |GraphAccesses(ops, wants)|
    requires Safe(GraphAccesses(ops, wants), TrackerPlacement(ops, wants))
    ensures var acc, fence := GraphAccesses(ops, wants), TrackerPlacement(ops, wants);
            && Faithful(layout, Named(acc), Here, SameAt) && |ks| == |acc| && Uses(ks, acc)
            && forall m: Mem, sched: seq<nat>, end: Mem ::
                 RunsTo(ks, fence, Initial(ks, layout(m)), sched, end) ==>
                   end == layout(Perform(Acted(AllActs(ops, wants, |ops|), fs), |fs|, m))
  {
    var acc, fence, acts := GraphAccesses(ops, wants), TrackerPlacement(ops, wants), AllActs(ops, wants, |ops|);
    GraphDescribed(ops, wants, |ops|);
    layout, ks := MeantHasKernels(acc, acts, fs);
    forall m: Mem, sched: seq<nat>, end: Mem | RunsTo(ks, fence, Initial(ks, layout(m)), sched, end)
      ensures end == layout(Perform(Acted(acts, fs), |fs|, m))
    {
      RunPerforms(Acted(acts, fs), acc, fence, layout, ks, m, sched, end);
    }
  }
}
