/** Dependent matmul graphs, and the second hazard tracker that fences them. */
module MatmulGraph {
  import opened Prelude
  import opened MatmulOps
  import opened GpuExecution
  import opened HazardGraph
  import SplitK

  // Two-stage split-K ops are inlined. The tracker keeps its own written/read lists
  // and never looks at an op's fused store.

  /** Scratch needs per op; an op routes two-stage when its region was reserved. */
  type Wants = seq<Option<nat>>

  ghost predicate WellRouted(ops: seq<MatmulOp>, wants: Wants) {
    && |wants| == |ops|
    && forall i :: 0 <= i < |ops| && wants[i].Some? ==> ops[i].IsPlain() && wants[i].value > 0
  }

  ghost function RegionBytes(r: SplitK.Region): set<Loc> {
    set x | r.offset <= x < r.offset + r.bytes :: ScratchByte(x)
  }

  /** What the tracker believes a direct dispatch touches: no store operands. */
  function TrackedTouches(op: MatmulOp): Touched {
    MatmulTouches(op.(store := NoStore))
  }

  /** The dispatches of op `i`; `tracked` selects the tracker's belief. */
  ghost function OpDispatches(ops: seq<MatmulOp>, wants: Wants, i: nat, tracked: bool): seq<Access>
    requires i < |ops| == |wants|
  {
    match SplitK.ArenaRegion(wants, i)
    case None => [(if tracked then TrackedTouches(ops[i]) else MatmulTouches(ops[i])).Access()]
    case Some(r) =>
      [Access({Buffer(ops[i].a), Buffer(ops[i].b)}, RegionBytes(r)),
       Access(RegionBytes(r), {Buffer(ops[i].c)})]
  }

  ghost function Dispatches(ops: seq<MatmulOp>, wants: Wants, n: nat, tracked: bool): seq<Access>
    requires n <= |ops| == |wants|
  {
    if n == 0 then [] else Dispatches(ops, wants, n - 1, tracked) + OpDispatches(ops, wants, n - 1, tracked)
  }

  datatype Tracker = Tracker(written: seq<Handle>, read: seq<Handle>, fence: seq<bool>)

  predicate Wrote(t: Tracker, h: Option<Handle>) {
    h.Some? && h.value in t.written
  }

  predicate DirectHazard(t: Tracker, op: MatmulOp) {
    || op.a in t.written || op.b in t.written
    || (op.accumulate && op.c in t.written)
    || Wrote(t, op.bias) || Wrote(t, op.d) || Wrote(t, op.normWeight)
    || op.c in t.written || op.c in t.read
  }

  function Track(t: Tracker, op: MatmulOp, twoStage: bool): Tracker {
    if twoStage then
      Tracker([op.c], [op.a, op.b], t.fence + [op.a in t.written || op.b in t.written, true])
    else
      var hazard := DirectHazard(t, op);
      Tracker((if hazard then [] else t.written) + [op.c],
              (if hazard then [] else t.read)
              + [op.a, op.b] + OptSeq(op.bias) + OptSeq(op.d) + OptSeq(op.normWeight),
              t.fence + [hazard])
  }

  /** Which ops route two-stage: those whose scratch region was reserved. */
  ghost function Routes(wants: Wants): (two: seq<bool>)
    ensures |two| == |wants|
    ensures forall i :: 0 <= i < |wants| ==> two[i] == SplitK.ArenaRegion(wants, i).Some?
  {
    seq(|wants|, i requires 0 <= i < |wants| => SplitK.ArenaRegion(wants, i).Some?)
  }

  ghost function TrackAll(ops: seq<MatmulOp>, two: seq<bool>, n: nat): Tracker
    requires n <= |ops| == |two|
  {
    if n == 0 then Tracker([], [], [])
    else Track(TrackAll(ops, two, n - 1), ops[n - 1], two[n - 1])
  }

  /** The barriers the tracker records, one flag per dispatch. */
  ghost function TrackerPlacement(ops: seq<MatmulOp>, wants: Wants): seq<bool>
    requires |ops| == |wants|
  {
    TrackAll(ops, Routes(wants), |ops|).fence
  }

  /** The recorder's lists and commands are those of tracker state `t`. */
  ghost predicate Recorded(t: Tracker, written: seq<Handle>, read: seq<Handle>, cmds: seq<Cmd>, next: nat) {
    written == t.written && read == t.read && cmds == Stream(t.fence, |t.fence|) && next == |t.fence|
  }

  /** Records one op after the commands `cmds` of earlier ops. */
  method RecordOp(ghost t: Tracker, w: seq<Handle>, r: seq<Handle>, done: seq<Cmd>, first: nat, op: MatmulOp,
                  twoStage: bool)
    returns (written: seq<Handle>, read: seq<Handle>, cmds: seq<Cmd>, next: nat)
    requires Recorded(t, w, r, done, first)
    ensures Recorded(Track(t, op, twoStage), written, read, cmds, next)
  {
    StreamTrack(t, op, twoStage);
    if twoStage {
      // Stage 1, internal barrier, reduce.
      cmds := WithBarrier(done, op.a in w || op.b in w) + [Dispatch(first)] + [Barrier] + [Dispatch(first + 1)];
      return [op.c], [op.a, op.b], cmds, first + 2;
    }
    var hazard := DirectHazard(Tracker(w, r, []), op);
    assert hazard == DirectHazard(t, op);
    cmds := WithBarrier(done, hazard) + [Dispatch(first)];
    written, read := w, r;
    if hazard {
      written, read := [], [];
    }
    read := read + [op.a, op.b] + OptSeq(op.bias) + OptSeq(op.d) + OptSeq(op.normWeight);
    written := written + [op.c];
    next := first + 1;
  }

  method RecordMatmulGraph(ops: seq<MatmulOp>, two: seq<bool>) returns (cmds: seq<Cmd>)
    requires |ops| == |two|
    ensures var fence := TrackAll(ops, two, |ops|).fence; cmds == Stream(fence, |fence|)
  {
    var written: seq<Handle>, read: seq<Handle> := [], [];
    var next := 0;
    cmds := [];
    for i := 0 to |ops|
      invariant Recorded(TrackAll(ops, two, i), written, read, cmds, next)
    {
      written, read, cmds, next := RecordOp(TrackAll(ops, two, i), written, read, cmds, next, ops[i], two[i]);
    }
  }

  /** Reserving scratch and recording one graph submission. */
  method RecordSubmission(ops: seq<MatmulOp>, wants: Wants) returns (cmds: seq<Cmd>)
    requires |ops| == |wants|
    ensures var fence := TrackerPlacement(ops, wants); cmds == Stream(fence, |fence|)
  {
    var regions, end := SplitK.ReserveScratch(wants);
    var two := seq(|regions|, i requires 0 <= i < |regions| => regions[i].Some?);
    assert two == Routes(wants);
    cmds := RecordMatmulGraph(ops, two);
  }

  lemma StreamTrack(t: Tracker, op: MatmulOp, twoStage: bool)
    ensures var n, s, fence := |t.fence|, Stream(t.fence, |t.fence|), Track(t, op, twoStage).fence;
            Stream(fence, |fence|) ==
            if twoStage then
              WithBarrier(s, op.a in t.written || op.b in t.written) + [Dispatch(n)] + [Barrier] + [Dispatch(n + 1)]
            else WithBarrier(s, DirectHazard(t, op)) + [Dispatch(n)]
  {
    var fence := Track(t, op, twoStage).fence;
    StreamLocal(t.fence, fence, |t.fence|);
    if twoStage {
      assert Stream(fence, |t.fence| + 2)
             == WithBarrier(Stream(fence, |t.fence| + 1), true) + [Dispatch(|t.fence| + 1)];
    }
  }

  lemma {:induction false} StreamLocal(fence: seq<bool>, fence': seq<bool>, n: nat)
    requires n <= |fence| && n <= |fence'| && forall i :: 0 <= i < n ==> fence[i] == fence'[i]
    ensures Stream(fence, n) == Stream(fence', n)
  {
    if n > 0 { StreamLocal(fence, fence', n - 1); }
  }

  // ---- The tracker separates everything it can see -----------------------

  /** No barrier follows dispatch `p`. */
  ghost predicate Pending(fence: seq<bool>, p: nat) {
    forall k :: p < k < |fence| ==> !fence[k]
  }

  lemma AppendDispatch(acc: seq<Access>, fence: seq<bool>, a: Access, f: bool)
    requires |acc| == |fence| && Separates(acc, fence)
    requires !f ==> forall p :: 0 <= p < |acc| && Pending(fence, p) ==> !Conflicts(acc[p], a)
    ensures Separates(acc + [a], fence + [f])
  {
    var acc', fence' := acc + [a], fence + [f];
    forall i, j | 0 <= i < j < |acc'| && Conflicts(acc'[i], acc'[j])
      ensures Fenced(fence', i, j)
    {
      if j < |acc| {
        assert Fenced(fence, i, j);
        var k :| i < k <= j && fence[k];
        assert fence'[k];
      } else if f {
        assert fence'[j];
      } else {
        var k :| i < k < |fence| && fence[k];
        assert fence'[k];
      }
    }
  }

  /** The tracker's lists cover every dispatch since the last barrier, and its
      barriers separate every conflict it can see. */
  ghost predicate Covers(t: Tracker, acc: seq<Access>, scratchEnd: nat) {
    && |t.fence| == |acc|
    && Separates(acc, t.fence)
    && forall p :: 0 <= p < |acc| && Pending(t.fence, p) ==> Listed(t, acc[p], scratchEnd)
  }

  ghost predicate Listed(t: Tracker, a: Access, scratchEnd: nat) {
    && (forall x :: x in a.stores ==> match x case Buffer(h) => h in t.written case ScratchByte(b) => b < scratchEnd)
    && (forall x :: x in a.loads ==>
          match x case Buffer(h) => h in t.read || h in t.written case ScratchByte(b) => b < scratchEnd)
  }

  lemma DirectNoConflict(t: Tracker, op: MatmulOp, a: Access, scratchEnd: nat)
    requires !DirectHazard(t, op) && Listed(t, a, scratchEnd)
    ensures !Conflicts(a, TrackedTouches(op).Access())
  {
    var b := TrackedTouches(op).Access();
    assert TrackedTouches(op).stores == [op.c];
    forall x | x in b.loads ensures x !in a.stores {
      assert x.handle !in t.written;
    }
    forall x | x in b.stores ensures x !in a.stores && x !in a.loads {
      assert x == Buffer(op.c);
    }
    if x :| x in a.stores * (b.loads + b.stores) { assert false; }
    if x :| x in a.loads * b.stores { assert false; }
  }

  lemma DirectListed(t: Tracker, op: MatmulOp, scratchEnd: nat)
    ensures Listed(Track(t, op, false), TrackedTouches(op).Access(), scratchEnd)
    ensures !DirectHazard(t, op) ==>
              forall a: Access :: Listed(t, a, scratchEnd) ==> Listed(Track(t, op, false), a, scratchEnd)
  {
    var t', b := Track(t, op, false), TrackedTouches(op);
    assert op.c in t'.written && b.stores == [op.c];
    forall h | h in b.loads ensures h in t'.read || h in t'.written {}
  }

  lemma TrackDirect(t: Tracker, acc: seq<Access>, op: MatmulOp, scratchEnd: nat)
    requires Covers(t, acc, scratchEnd)
    ensures Covers(Track(t, op, false), acc + [TrackedTouches(op).Access()], scratchEnd)
  {
    var hazard := DirectHazard(t, op);
    var a := TrackedTouches(op).Access();
    var t', acc' := Track(t, op, false), acc + [a];
    if !hazard {
      forall p | 0 <= p < |acc| && Pending(t.fence, p) ensures !Conflicts(acc[p], a) {
        DirectNoConflict(t, op, acc[p], scratchEnd);
      }
    }
    AppendDispatch(acc, t.fence, a, hazard);
    DirectListed(t, op, scratchEnd);
    forall p | 0 <= p < |acc'| && Pending(t'.fence, p) ensures Listed(t', acc'[p], scratchEnd) {
      if p < |acc| {
        assert !t'.fence[|acc|];
        assert forall k :: p < k < |t.fence| ==> t'.fence[k] == t.fence[k];
        assert Pending(t.fence, p);
      }
    }
  }

  lemma TrackTwoStage(t: Tracker, acc: seq<Access>, op: MatmulOp, r: SplitK.Region)
    requires Covers(t, acc, r.offset)
    ensures Covers(Track(t, op, true),
                   acc + [Access({Buffer(op.a), Buffer(op.b)}, RegionBytes(r)),
                          Access(RegionBytes(r), {Buffer(op.c)})],
                   r.offset + r.bytes)
  {
    var pre := op.a in t.written || op.b in t.written;
    var s1 := Access({Buffer(op.a), Buffer(op.b)}, RegionBytes(r));
    var s2 := Access(RegionBytes(r), {Buffer(op.c)});
    if !pre {
      forall p | 0 <= p < |acc| && Pending(t.fence, p) ensures !Conflicts(acc[p], s1) {
        assert Listed(t, acc[p], r.offset);
        if x :| x in acc[p].stores * (s1.loads + s1.stores) { assert false; }
        if x :| x in acc[p].loads * s1.stores { assert false; }
      }
    }
    AppendDispatch(acc, t.fence, s1, pre);
    AppendDispatch(acc + [s1], t.fence + [pre], s2, true);
    var t' := Track(t, op, true);
    assert t'.fence == t.fence + [pre] + [true];
    assert acc + [s1, s2] == acc + [s1] + [s2];
    forall p | 0 <= p < |acc| + 2 && Pending(t'.fence, p)
      ensures Listed(t', (acc + [s1, s2])[p], r.offset + r.bytes)
    {
      assert t'.fence[|acc| + 1];
      assert p == |acc| + 1;
    }
  }

  lemma ListedFurther(t: Tracker, acc: seq<Access>, lo: nat, hi: nat)
    requires lo <= hi && Covers(t, acc, lo)
    ensures Covers(t, acc, hi)
  {
    forall p | 0 <= p < |acc| && Pending(t.fence, p) ensures Listed(t, acc[p], hi) {
      assert Listed(t, acc[p], lo);
    }
  }

  /** Whatever the ops, the tracker separates every conflict between the
      accesses it tracks, split-K stages and their scratch included. */
  lemma {:induction false} TrackerSeparates(ops: seq<MatmulOp>, wants: Wants, n: nat)
    requires n <= |ops| == |wants|
    ensures Covers(TrackAll(ops, Routes(wants), n), Dispatches(ops, wants, n, true), SplitK.Reserved(wants, n))
  {
    if n > 0 {
      TrackerSeparates(ops, wants, n - 1);
      var t, acc := TrackAll(ops, Routes(wants), n - 1), Dispatches(ops, wants, n - 1, true);
      match SplitK.ArenaRegion(wants, n - 1)
      case None =>
        TrackDirect(t, acc, ops[n - 1], SplitK.Reserved(wants, n - 1));
      case Some(r) =>
        TrackTwoStage(t, acc, ops[n - 1], r);
        ListedFurther(TrackAll(ops, Routes(wants), n), Dispatches(ops, wants, n, true), r.offset + r.bytes,
                      SplitK.Reserved(wants, n));
    }
  }

  // ---- Serial equivalence, and exactly when stores break it --------------

  ghost function GraphAccesses(ops: seq<MatmulOp>, wants: Wants): seq<Access>
    requires |ops| == |wants|
  {
    Dispatches(ops, wants, |ops|, false)
  }

  lemma {:induction false} NoStoresNothingHidden(ops: seq<MatmulOp>, wants: Wants, n: nat)
    requires n <= |ops| == |wants|
    requires forall i :: 0 <= i < |ops| ==> ops[i].store.NoStore?
    ensures Dispatches(ops, wants, n, false) == Dispatches(ops, wants, n, true)
  {
    if n > 0 {
      NoStoresNothingHidden(ops, wants, n - 1);
      assert ops[n - 1].(store := NoStore) == ops[n - 1];
    }
  }

  /** Any mix of direct and inlined split-K ops without fused stores is recorded
      safely: every interleaving ends as in-order execution. */
  lemma MatmulGraphIsSerial(ops: seq<MatmulOp>, wants: Wants)
    requires WellRouted(ops, wants)
    requires forall i :: 0 <= i < |ops| ==> ops[i].store.NoStore?
    ensures |TrackerPlacement(ops, wants)| == |GraphAccesses(ops, wants)|
    ensures Safe(GraphAccesses(ops, wants), TrackerPlacement(ops, wants))
  {
    TrackerSeparates(ops, wants, |ops|);
    NoStoresNothingHidden(ops, wants, |ops|);
    SeparatedIsSafe(GraphAccesses(ops, wants), TrackerPlacement(ops, wants));
  }

  lemma {:induction false} SameDispatchCount(ops: seq<MatmulOp>, wants: Wants, n: nat)
    requires n <= |ops| == |wants|
    ensures |Dispatches(ops, wants, n, false)| == |TrackAll(ops, Routes(wants), n).fence|
    ensures |Dispatches(ops, wants, n, true)| == |TrackAll(ops, Routes(wants), n).fence|
  {
    if n > 0 { SameDispatchCount(ops, wants, n - 1); }
  }

  lemma {:induction false} DispatchesStore(ops: seq<MatmulOp>, wants: Wants, n: nat)
    requires n <= |ops| && WellRouted(ops, wants)
    ensures forall p :: 0 <= p < |Dispatches(ops, wants, n, false)| ==>
              Dispatches(ops, wants, n, false)[p].stores != {}
  {
    if n > 0 {
      DispatchesStore(ops, wants, n - 1);
      var op := ops[n - 1];
      match SplitK.ArenaRegion(wants, n - 1)
      case None =>
        assert Buffer(MatmulTouches(op).stores[0]) in MatmulTouches(op).Access().stores;
      case Some(r) =>
        assert ScratchByte(r.offset) in RegionBytes(r);
    }
  }

  /** Two dispatches that really conflict, though the tracker sees no conflict:
      they meet only at a store destination or rope table. */
  ghost predicate StoreClash(ops: seq<MatmulOp>, wants: Wants, p: nat, q: nat)
    requires |ops| == |wants|
    requires p < q < |Dispatches(ops, wants, |ops|, false)| == |Dispatches(ops, wants, |ops|, true)|
  {
    && Conflicts(Dispatches(ops, wants, |ops|, false)[p], Dispatches(ops, wants, |ops|, false)[q])
    && !Conflicts(Dispatches(ops, wants, |ops|, true)[p], Dispatches(ops, wants, |ops|, true)[q])
  }

  /** The exact condition with stores: the recording is safe for every program
      if and only if each clash at a store operand happens to be separated by a
      barrier the tracker emitted for some other reason. */
  lemma SafeIffStoreClashesFenced(ops: seq<MatmulOp>, wants: Wants)
    requires WellRouted(ops, wants)
    ensures |TrackerPlacement(ops, wants)| == |GraphAccesses(ops, wants)| == |Dispatches(ops, wants, |ops|, true)|
    ensures Safe(GraphAccesses(ops, wants), TrackerPlacement(ops, wants)) <==>
            forall p, q :: 0 <= p < q < |GraphAccesses(ops, wants)| && StoreClash(ops, wants, p, q) ==>
              Fenced(TrackerPlacement(ops, wants), p, q)
  {
    SameDispatchCount(ops, wants, |ops|);
    TrackerSeparates(ops, wants, |ops|);
    DispatchesStore(ops, wants, |ops|);
    SafeIffSeparated(GraphAccesses(ops, wants), TrackerPlacement(ops, wants));
  }

  /** The same at the level of two ops, in terms a caller can check: the
      two-op graph is recorded safely exactly when a real footprint conflict
      implies a conflict among the operands the tracker looks at. */
  lemma TwoOpGraphSafeIff(x: MatmulOp, y: MatmulOp)
    ensures var ops, wants := [x, y], [None, None];
            && |TrackerPlacement(ops, wants)| == |GraphAccesses(ops, wants)|
            && (Safe(GraphAccesses(ops, wants), TrackerPlacement(ops, wants)) <==>
                (FootprintsMeet(MatmulTouches(x), MatmulTouches(y)) ==>
                   FootprintsMeet(TrackedTouches(x), TrackedTouches(y))))
  {
    var ops, wants: Wants := [x, y], [None, None];
    SafeIffStoreClashesFenced(ops, wants);
    TwoOpLists(x, y, false);
    TwoOpLists(x, y, true);
    ConflictsByHandle(MatmulTouches(x), MatmulTouches(y));
    ConflictsByHandle(TrackedTouches(x), TrackedTouches(y));
    TwoOpFence(x, y);
    var fence := TrackerPlacement(ops, wants);
    assert Fenced(fence, 0, 1) <==> fence[1];
  }

  predicate FootprintsMeet(t: Touched, u: Touched) {
    || (exists h | h in t.stores :: h in u.loads + u.stores)
    || (exists h | h in t.loads :: h in u.stores)
  }

  lemma TwoOpLists(x: MatmulOp, y: MatmulOp, tracked: bool)
    ensures Dispatches([x, y], [None, None], 2, tracked) ==
            [(if tracked then TrackedTouches(x) else MatmulTouches(x)).Access(),
             (if tracked then TrackedTouches(y) else MatmulTouches(y)).Access()]
  {
    var ops, wants: Wants := [x, y], [None, None];
    assert Dispatches(ops, wants, 0, tracked) == [];
    assert Dispatches(ops, wants, 1, tracked) == OpDispatches(ops, wants, 0, tracked);
    assert Dispatches(ops, wants, 2, tracked)
           == Dispatches(ops, wants, 1, tracked) + OpDispatches(ops, wants, 1, tracked);
  }

  lemma TwoOpFence(x: MatmulOp, y: MatmulOp)
    ensures |TrackerPlacement([x, y], [None, None])| == 2
    ensures TrackerPlacement([x, y], [None, None])[1] <==> FootprintsMeet(TrackedTouches(x), TrackedTouches(y))
  {
    var ops, wants: Wants := [x, y], [None, None];
    var t0 := TrackAll(ops, Routes(wants), 0);
    var t1 := TrackAll(ops, Routes(wants), 1);
    assert t1 == Track(t0, x, false);
    assert t1.written == [x.c];
    assert TrackAll(ops, Routes(wants), 2) == Track(t1, y, false);
    var tx, ty := TrackedTouches(x), TrackedTouches(y);
    assert tx.stores == [x.c] && ty.stores == [y.c];
    assert x.c in ty.loads + ty.stores || y.c in tx.loads <==> FootprintsMeet(tx, ty);
    assert y.c in tx.loads <==> y.c in t1.read || (x.accumulate && y.c == x.c);
    assert x.c in ty.loads <==>
           x.c == y.a || x.c == y.b || (y.accumulate && y.c == x.c)
           || Wrote(t1, y.bias) || Wrote(t1, y.d) || Wrote(t1, y.normWeight);
  }

  /** A concrete failure: a value row scattered into a cache, then read from the
      cache by the next op, is recorded with no barrier between them. */
  lemma ScatterThenReadIsUnsafe()
    ensures var append := MatmulOp(0, 1, 2, false, None, None, None, ScatterStore(9));
            var attend := MatmulOp(3, 9, 4, false, None, None, None, NoStore);
            var ops, wants := [append, attend], [None, None];
            && TrackerPlacement(ops, wants) == [false, false]
            && |GraphAccesses(ops, wants)| == 2
            && !Safe(GraphAccesses(ops, wants), TrackerPlacement(ops, wants))
  {
    var append := MatmulOp(0, 1, 2, false, None, None, None, ScatterStore(9));
    var attend := MatmulOp(3, 9, 4, false, None, None, None, NoStore);
    var ops, wants: Wants := [append, attend], [None, None];
    assert 9 in MatmulTouches(append).stores && 9 in MatmulTouches(attend).loads;
    assert TrackedTouches(append) == Touched([0, 1], [2]);
    assert TrackedTouches(attend) == Touched([3, 9], [4]);
    TwoOpGraphSafeIff(append, attend);
    TwoOpFence(append, attend);
    FirstUnfenced(append, attend);
  }

  lemma FirstUnfenced(x: MatmulOp, y: MatmulOp)
    ensures |TrackerPlacement([x, y], [None, None])| == 2 && !TrackerPlacement([x, y], [None, None])[0]
  {
    var ops, wants: Wants := [x, y], [None, None];
    var t0 := TrackAll(ops, Routes(wants), 0);
    var t1 := TrackAll(ops, Routes(wants), 1);
    assert t1 == Track(t0, x, false);
    assert t1.fence == [false];
    assert TrackAll(ops, Routes(wants), 2) == Track(t1, y, false);
  }
}
