/** When the matmul tracker's barriers are enough, and when they are as few as can be. */
module MatmulBarriers {
  import opened GpuExecution
  import opened HazardGraph
  import opened MatmulGraph
  import opened MatmulOps
  import opened Prelude
  import SplitK

  // ---- The tracker is greedy about what it believes ----------------------

  /** The tracker goes by the operands without the store, and by an inlined split-K op as
      if its reduction read A and B again. */
  ghost function Believed(ops: seq<MatmulOp>, wants: Wants, i: nat): (acc: seq<Access>)
    requires i < |ops| == |wants|
    ensures |acc| == if SplitK.ArenaRegion(wants, i).Some? then 2 else 1
  {
    match SplitK.ArenaRegion(wants, i)
    case None => [TrackedTouches(ops[i]).Access()]
    case Some(r) => [StageOne(ops[i], r), BelievedReduce(ops[i], r)]
  }

  ghost function StageOne(op: MatmulOp, r: SplitK.Region): Access {
    Access({Buffer(op.a), Buffer(op.b)}, RegionBytes(r))
  }

  ghost function BelievedReduce(op: MatmulOp, r: SplitK.Region): Access {
    Access(RegionBytes(r) + {Buffer(op.a), Buffer(op.b)}, {Buffer(op.c)})
  }

  ghost function BelievedAll(ops: seq<MatmulOp>, wants: Wants, n: nat): seq<Access>
    requires n <= |ops| == |wants|
  {
    if n == 0 then [] else BelievedAll(ops, wants, n - 1) + Believed(ops, wants, n - 1)
  }

  ghost predicate Stored(acc: seq<Access>, mark: nat, h: Handle) {
    exists p :: mark <= p < |acc| && Buffer(h) in acc[p].stores
  }

  ghost predicate Loaded(acc: seq<Access>, mark: nat, h: Handle) {
    exists p :: mark <= p < |acc| && Buffer(h) in acc[p].loads
  }

  ghost predicate ScratchBelow(a: Access, end: nat) {
    forall b: nat :: ScratchByte(b) in a.loads + a.stores ==> b < end
  }

  /** The tracker's lists are what was touched since the last barrier; an accumulated C is
      only in the written one. */
  ghost predicate Lists(t: Tracker, acc: seq<Access>, end: nat) {
    var mark := LastFence(acc, |acc|);
    && (forall h :: h in t.written <==> Stored(acc, mark, h))
    && (forall h :: h in t.read ==> Loaded(acc, mark, h))
    && (forall h :: Loaded(acc, mark, h) ==> h in t.read || h in t.written)
    && (forall p :: 0 <= p < |acc| ==> ScratchBelow(acc[p], end))
  }

  ghost predicate ConflictsSince(acc: seq<Access>, a: Access) {
    exists i :: LastFence(acc, |acc|) <= i < |acc| && Conflicts(acc[i], a)
  }

  lemma FenceAtEnd(acc: seq<Access>, a: Access)
    ensures FenceAt(acc + [a], |acc|) <==> ConflictsSince(acc, a)
    ensures LastFence(acc + [a], |acc|) == LastFence(acc, |acc|)
  {
    var acc' := acc + [a];
    PlacementLocal(acc, acc', |acc|);
    assert acc'[|acc|] == a && forall i :: 0 <= i < |acc| ==> acc'[i] == acc[i];
  }

  lemma EarlierFencesKept(acc: seq<Access>, acc': seq<Access>, k: nat)
    requires k < |acc| <= |acc'| && acc == acc'[..|acc|]
    ensures Placement(acc')[k] == Placement(acc)[k]
  {
    PlacementLocal(acc, acc', k);
  }

  lemma LastFenceStep(acc: seq<Access>, k: nat)
    requires k < |acc|
    ensures LastFence(acc, k + 1) == if FenceAt(acc, k) then k else LastFence(acc, k)
  {}

  lemma AppendGreedy(acc: seq<Access>, a: Access)
    ensures Placement(acc + [a]) == Placement(acc) + [ConflictsSince(acc, a)]
    ensures LastFence(acc + [a], |acc| + 1) == if ConflictsSince(acc, a) then |acc| else LastFence(acc, |acc|)
  {
    AppendPlacement(acc, a);
    FenceAtEnd(acc, a);
    LastFenceStep(acc + [a], |acc|);
  }

  lemma AppendPlacement(acc: seq<Access>, a: Access)
    ensures Placement(acc + [a]) == Placement(acc) + [ConflictsSince(acc, a)]
  {
    var before, after := Placement(acc), Placement(acc + [a]);
    FenceAtEnd(acc, a);
    forall k | 0 <= k < |before| ensures after[k] == before[k] { EarlierFencesKept(acc, acc + [a], k); }
    OneLonger(before, after, ConflictsSince(acc, a));
  }

  lemma OneLonger(before: seq<bool>, after: seq<bool>, last: bool)
    requires |after| == |before| + 1 && after[|before|] == last
    requires forall k :: 0 <= k < |before| ==> after[k] == before[k]
    ensures after == before + [last]
  {}

  /** The hazard test of a direct op is exactly a conflict since the last barrier. */
  lemma DirectHazardIsConflict(t: Tracker, acc: seq<Access>, end: nat, op: MatmulOp)
    requires Lists(t, acc, end)
    ensures DirectHazard(t, op) <==> ConflictsSince(acc, TrackedTouches(op).Access())
  {
    var u, a, mark := TrackedTouches(op), TrackedTouches(op).Access(), LastFence(acc, |acc|);
    assert u.stores == [op.c];
    assert DirectHazard(t, op) <==> (exists h :: h in u.loads && h in t.written) || op.c in t.written || op.c in t.read;
    if h :| h in u.loads + u.stores && h in t.written {
      var p :| mark <= p < |acc| && Buffer(h) in acc[p].stores;
      assert Buffer(h) in acc[p].stores * (a.loads + a.stores);
    } else if op.c in t.read {
      var p :| mark <= p < |acc| && Buffer(op.c) in acc[p].loads;
      assert Buffer(op.c) in acc[p].loads * a.stores;
    }
    if i :| mark <= i < |acc| && Conflicts(acc[i], a) {
      if x :| x in acc[i].stores * (a.loads + a.stores) {
        assert Stored(acc, mark, x.handle);
      } else {
        assert Loaded(acc, mark, op.c);
      }
    }
  }

  /** So is the test of a split-K op, whose scratch nobody has touched. */
  lemma StageHazardIsConflict(t: Tracker, acc: seq<Access>, op: MatmulOp, r: SplitK.Region)
    requires Lists(t, acc, r.offset)
    ensures op.a in t.written || op.b in t.written <==> ConflictsSince(acc, StageOne(op, r))
  {
    var a, mark := StageOne(op, r), LastFence(acc, |acc|);
    if h :| (h == op.a || h == op.b) && h in t.written {
      var p :| mark <= p < |acc| && Buffer(h) in acc[p].stores;
      assert Buffer(h) in acc[p].stores * (a.loads + a.stores);
    }
    if i :| mark <= i < |acc| && Conflicts(acc[i], a) {
      assert ScratchBelow(acc[i], r.offset);
      if x :| x in acc[i].stores * (a.loads + a.stores) {
        assert Stored(acc, mark, x.handle);
      }
    }
  }

  lemma SinceGrows(acc: seq<Access>, a: Access, mark: nat, h: Handle)
    requires mark <= |acc|
    ensures Stored(acc + [a], mark, h) <==> Stored(acc, mark, h) || Buffer(h) in a.stores
    ensures Loaded(acc + [a], mark, h) <==> Loaded(acc, mark, h) || Buffer(h) in a.loads
  {
    var acc' := acc + [a];
    assert acc'[|acc|] == a;
    if Stored(acc, mark, h) {
      var p :| mark <= p < |acc| && Buffer(h) in acc[p].stores;
      assert Buffer(h) in acc'[p].stores;
    }
    if Loaded(acc, mark, h) {
      var p :| mark <= p < |acc| && Buffer(h) in acc[p].loads;
      assert Buffer(h) in acc'[p].loads;
    }
  }

  lemma DirectLists(t: Tracker, acc: seq<Access>, end: nat, op: MatmulOp)
    requires Lists(t, acc, end)
    ensures Lists(Track(t, op, false), acc + [TrackedTouches(op).Access()], end)
  {
    var u, a := TrackedTouches(op), TrackedTouches(op).Access();
    var t', hazard := Track(t, op, false), DirectHazard(t, op);
    var mark := if hazard then |acc| else LastFence(acc, |acc|);
    DirectHazardIsConflict(t, acc, end, op);
    AppendGreedy(acc, a);
    assert u.stores == [op.c];
    forall h ensures (h in t'.written <==> Stored(acc + [a], mark, h))
                     && (h in t'.read ==> Loaded(acc + [a], mark, h))
                     && (Loaded(acc + [a], mark, h) ==> h in t'.read || h in t'.written)
    {
      SinceGrows(acc, a, mark, h);
      var listed := [op.a, op.b] + OptSeq(op.bias) + OptSeq(op.d) + OptSeq(op.normWeight);
      assert h in u.loads <==> h in listed || (op.accumulate && h == op.c);
    }
  }

  lemma StagesLists(t: Tracker, acc: seq<Access>, op: MatmulOp, r: SplitK.Region)
    requires Lists(t, acc, r.offset) && r.bytes > 0
    ensures var acc' := acc + [StageOne(op, r), BelievedReduce(op, r)];
            Lists(Track(t, op, true), acc', r.offset + r.bytes)
            && Placement(acc') == Placement(acc) + [op.a in t.written || op.b in t.written, true]
  {
    var one, two, acc1 := StageOne(op, r), BelievedReduce(op, r), acc + [StageOne(op, r)];
    StageHazardIsConflict(t, acc, op, r);
    AppendGreedy(acc, one);
    AppendGreedy(acc1, two);
    assert ScratchByte(r.offset) in one.stores * two.loads;
    assert Conflicts(acc1[|acc|], two);
    assert acc + [one, two] == acc1 + [two];
    forall h ensures (Stored(acc1 + [two], |acc1|, h) <==> h == op.c)
                     && (Loaded(acc1 + [two], |acc1|, h) <==> h == op.a || h == op.b)
    {
      SinceGrows(acc1, two, |acc1|, h);
    }
    forall p | 0 <= p < |acc| ensures ScratchBelow(acc[p], r.offset + r.bytes) {
      assert ScratchBelow(acc[p], r.offset);
    }
  }

  /** The tracker's barriers so far are the greedy ones. */
  ghost predicate Greedy(t: Tracker, acc: seq<Access>, end: nat) { t.fence == Placement(acc) && Lists(t, acc, end) }

  lemma DirectStaysGreedy(t: Tracker, acc: seq<Access>, end: nat, op: MatmulOp)
    requires Greedy(t, acc, end)
    ensures Greedy(Track(t, op, false), acc + [TrackedTouches(op).Access()], end)
  {
    DirectHazardIsConflict(t, acc, end, op);
    AppendGreedy(acc, TrackedTouches(op).Access());
    DirectLists(t, acc, end, op);
  }

  lemma StagesStayGreedy(t: Tracker, acc: seq<Access>, op: MatmulOp, r: SplitK.Region, end: nat)
    requires Greedy(t, acc, r.offset) && r.bytes > 0 && r.offset + r.bytes <= end
    ensures Greedy(Track(t, op, true), acc + [StageOne(op, r), BelievedReduce(op, r)], end)
  {
    var acc' := acc + [StageOne(op, r), BelievedReduce(op, r)];
    StagesLists(t, acc, op, r);
    forall p | 0 <= p < |acc'| ensures ScratchBelow(acc'[p], end) { assert ScratchBelow(acc'[p], r.offset + r.bytes); }
  }

  /** For every mix of direct and split-K ops the tracker's barriers are exactly the
      greedy ones for the accesses it believes in. */
  lemma {:induction false} TrackerIsGreedy(ops: seq<MatmulOp>, wants: Wants, n: nat)
    requires n <= |ops| && WellRouted(ops, wants)
    ensures Greedy(TrackAll(ops, Routes(wants), n), BelievedAll(ops, wants, n), SplitK.Reserved(wants, n))
  {
    if n > 0 {
      TrackerIsGreedy(ops, wants, n - 1);
      var t, acc := TrackAll(ops, Routes(wants), n - 1), BelievedAll(ops, wants, n - 1);
      match SplitK.ArenaRegion(wants, n - 1)
      case None => DirectStaysGreedy(t, acc, SplitK.Reserved(wants, n), ops[n - 1]);
      case Some(r) => StagesStayGreedy(t, acc, ops[n - 1], r, SplitK.Reserved(wants, n));
    }
  }

  // ---- Fewest barriers ---------------------------------------------------

  lemma {:induction false} DirectBelief(ops: seq<MatmulOp>, wants: Wants, n: nat)
    requires n <= |ops| == |wants| && forall i :: 0 <= i < |wants| ==> SplitK.ArenaRegion(wants, i).None?
    ensures BelievedAll(ops, wants, n) == Dispatches(ops, wants, n, true)
  {
    if n > 0 { DirectBelief(ops, wants, n - 1); }
  }

  /** Without a split-K op the tracker is greedy over the operands it looks at, so no
      placement that separates those has fewer barriers. */
  lemma DirectTrackerIsMinimal(ops: seq<MatmulOp>, wants: Wants, fence: seq<bool>)
    requires WellRouted(ops, wants) && forall i :: 0 <= i < |wants| ==> SplitK.ArenaRegion(wants, i).None?
    requires |fence| == |Dispatches(ops, wants, |ops|, true)| && Separates(Dispatches(ops, wants, |ops|, true), fence)
    ensures TrackerPlacement(ops, wants) == Placement(Dispatches(ops, wants, |ops|, true))
    ensures CountTrue(TrackerPlacement(ops, wants), |fence|) <= CountTrue(fence, |fence|)
  {
    TrackerIsGreedy(ops, wants, |ops|);
    DirectBelief(ops, wants, |ops|);
    GreedyStaysAhead(Dispatches(ops, wants, |ops|, true), fence, |fence|);
  }

  /** Without stores either, it has the fewest barriers of any safe placement. */
  lemma DirectGraphIsOptimal(ops: seq<MatmulOp>, wants: Wants, fence: seq<bool>)
    requires WellRouted(ops, wants) && forall i :: 0 <= i < |wants| ==> SplitK.ArenaRegion(wants, i).None?
    requires forall i :: 0 <= i < |ops| ==> ops[i].store.NoStore?
    requires |fence| == |GraphAccesses(ops, wants)| && Safe(GraphAccesses(ops, wants), fence)
    ensures |TrackerPlacement(ops, wants)| == |fence| && Safe(GraphAccesses(ops, wants), TrackerPlacement(ops, wants))
    ensures CountTrue(TrackerPlacement(ops, wants), |fence|) <= CountTrue(fence, |fence|)
  {
    NoStoresNothingHidden(ops, wants, |ops|);
    DispatchesStore(ops, wants, |ops|);
    TrackerIsGreedy(ops, wants, |ops|);
    DirectBelief(ops, wants, |ops|);
    GreedyIsOptimal(GraphAccesses(ops, wants), fence);
  }

  // Split-K ops: the belief is only wrong about what the reduction reads, and that only
  // matters to a later op that writes it.

  /** No op after a split-K op writes its A or B. */
  ghost predicate OperandsStay(ops: seq<MatmulOp>, wants: Wants)
    requires |ops| == |wants|
  {
    forall i, j :: 0 <= i < j < |ops| && SplitK.ArenaRegion(wants, i).Some? ==>
      ops[j].c != ops[i].a && ops[j].c != ops[i].b
  }

  /** Some split-K op before `n` reads this buffer. */
  ghost predicate SplitReads(ops: seq<MatmulOp>, wants: Wants, n: nat, x: Loc)
    requires n <= |ops| == |wants|
  {
    exists i :: 0 <= i < n && SplitK.ArenaRegion(wants, i).Some? && x in {Buffer(ops[i].a), Buffer(ops[i].b)}
  }

  /** `b` is `a` but for believed reads of split-K operands. */
  ghost predicate Alike(ops: seq<MatmulOp>, wants: Wants, n: nat, a: Access, b: Access)
    requires n <= |ops| == |wants|
  {
    a.stores == b.stores && b.loads <= a.loads && forall x :: x in a.loads - b.loads ==> SplitReads(ops, wants, n, x)
  }

  lemma AlikeConflicts(ops: seq<MatmulOp>, wants: Wants, n: nat, a: Access, b: Access, t: Access)
    requires n <= |ops| == |wants| && Alike(ops, wants, n, a, b)
    requires forall x :: x in t.stores ==> !SplitReads(ops, wants, n, x)
    ensures Conflicts(a, t) <==> Conflicts(b, t)
  {
    if x :| x in a.loads * t.stores { assert x in b.loads * t.stores; }
    if x :| x in b.loads * t.stores { assert x in a.loads * t.stores; }
  }

  /** Dispatch `k` needs a barrier in both lists for the same reasons, or in both because
      of the dispatch right before it. */
  ghost predicate SameNeed(acc: seq<Access>, acc': seq<Access>, k: nat)
    requires k < |acc| == |acc'|
  {
    || (forall i :: 0 <= i < k ==> (Conflicts(acc[i], acc[k]) <==> Conflicts(acc'[i], acc'[k])))
    || (k > 0 && Conflicts(acc[k - 1], acc[k]) && Conflicts(acc'[k - 1], acc'[k]))
  }

  lemma {:induction false} SameNeeds(acc: seq<Access>, acc': seq<Access>, k: nat)
    requires k <= |acc| == |acc'| && forall j :: 0 <= j < |acc| ==> SameNeed(acc, acc', j)
    ensures LastFence(acc, k) == LastFence(acc', k)
    ensures k < |acc| ==> FenceAt(acc, k) == FenceAt(acc', k)
  {
    if k > 0 { SameNeeds(acc, acc', k - 1); }
    if k < |acc| { assert SameNeed(acc, acc', k); }
  }

  /** What the tracker believes of a prefix against what it does. */
  ghost predicate AllAlike(ops: seq<MatmulOp>, wants: Wants, n: nat, acc: seq<Access>, acc': seq<Access>)
    requires n <= |ops| == |wants|
  {
    && |acc| == |acc'|
    && (forall p :: 0 <= p < |acc| ==> Alike(ops, wants, n, acc[p], acc'[p]))
    && (forall p :: 0 <= p < |acc| ==> SameNeed(acc, acc', p))
  }

  lemma SameNeedKept(acc: seq<Access>, acc': seq<Access>, a: Access, a': Access, k: nat)
    requires k < |acc| == |acc'| && SameNeed(acc, acc', k)
    ensures SameNeed(acc + [a], acc' + [a'], k)
  {}

  /** One dispatch more, the same in both lists. */
  lemma AlikeThenSame(ops: seq<MatmulOp>, wants: Wants, n: nat, acc: seq<Access>, acc': seq<Access>, t: Access)
    requires n < |ops| == |wants| && AllAlike(ops, wants, n, acc, acc')
    requires forall x :: x in t.stores ==> !SplitReads(ops, wants, n, x)
    ensures AllAlike(ops, wants, n + 1, acc + [t], acc' + [t])
  {
    forall p | 0 <= p < |acc| ensures SameNeed(acc + [t], acc' + [t], p) { SameNeedKept(acc, acc', t, t, p); }
    forall p | 0 <= p < |acc| ensures Conflicts(acc[p], t) <==> Conflicts(acc'[p], t) {
      AlikeConflicts(ops, wants, n, acc[p], acc'[p], t);
    }
    AlikeLater(ops, wants, n, acc, acc');
  }

  lemma AlikeLater(ops: seq<MatmulOp>, wants: Wants, n: nat, acc: seq<Access>, acc': seq<Access>)
    requires n < |ops| == |wants| && AllAlike(ops, wants, n, acc, acc')
    ensures AllAlike(ops, wants, n + 1, acc, acc')
  {
    forall p, x | 0 <= p < |acc| && x in acc[p].loads - acc'[p].loads ensures SplitReads(ops, wants, n + 1, x) {
      assert Alike(ops, wants, n, acc[p], acc'[p]);
    }
  }

  /** A reduction, which always follows its first stage with a barrier. */
  lemma AlikeThenReduce(ops: seq<MatmulOp>, wants: Wants, n: nat, acc: seq<Access>, acc': seq<Access>,
                        r: SplitK.Region)
    requires n < |ops| == |wants| && SplitK.ArenaRegion(wants, n) == Some(r) && r.bytes > 0
    requires AllAlike(ops, wants, n + 1, acc, acc') && |acc| > 0
    requires acc[|acc| - 1] == acc'[|acc| - 1] == StageOne(ops[n], r)
    ensures AllAlike(ops, wants, n + 1, acc + [BelievedReduce(ops[n], r)],
                     acc' + [Access(RegionBytes(r), {Buffer(ops[n].c)})])
  {
    var a, a' := BelievedReduce(ops[n], r), Access(RegionBytes(r), {Buffer(ops[n].c)});
    var one := StageOne(ops[n], r);
    assert ScratchByte(r.offset) in one.stores * a.loads && ScratchByte(r.offset) in one.stores * a'.loads;
    forall p | 0 <= p < |acc| ensures SameNeed(acc + [a], acc' + [a'], p) { SameNeedKept(acc, acc', a, a', p); }
    forall x | x in a.loads - a'.loads ensures SplitReads(ops, wants, n + 1, x) {
      assert x in {Buffer(ops[n].a), Buffer(ops[n].b)};
    }
  }

  lemma {:induction false} BeliefIsAlike(ops: seq<MatmulOp>, wants: Wants, n: nat)
    requires n <= |ops| && WellRouted(ops, wants) && OperandsStay(ops, wants)
    requires forall i :: 0 <= i < |ops| ==> ops[i].store.NoStore?
    ensures AllAlike(ops, wants, n, BelievedAll(ops, wants, n), Dispatches(ops, wants, n, false))
  {
    if n > 0 {
      BeliefIsAlike(ops, wants, n - 1);
      var acc, acc', op := BelievedAll(ops, wants, n - 1), Dispatches(ops, wants, n - 1, false), ops[n - 1];
      match SplitK.ArenaRegion(wants, n - 1)
      case None =>
        assert op.(store := NoStore) == op;
        AlikeThenSame(ops, wants, n - 1, acc, acc', MatmulTouches(op).Access());
      case Some(r) =>
        var one, a, a' := StageOne(op, r), BelievedReduce(op, r), Access(RegionBytes(r), {Buffer(op.c)});
        AlikeThenSame(ops, wants, n - 1, acc, acc', one);
        AlikeThenReduce(ops, wants, n - 1, acc + [one], acc' + [one], r);
        assert acc + [one, a] == acc + [one] + [a] && acc' + [one, a'] == acc' + [one] + [a'];
    }
  }

  /** A submission of direct and split-K ops without stores gets the fewest barriers of any
      safe placement, provided no op after a split-K op writes its A or B. */
  lemma StayingOperandsAreOptimal(ops: seq<MatmulOp>, wants: Wants, fence: seq<bool>)
    requires WellRouted(ops, wants) && OperandsStay(ops, wants)
    requires forall i :: 0 <= i < |ops| ==> ops[i].store.NoStore?
    requires |fence| == |GraphAccesses(ops, wants)| && Safe(GraphAccesses(ops, wants), fence)
    ensures TrackerPlacement(ops, wants) == Placement(GraphAccesses(ops, wants))
    ensures Safe(GraphAccesses(ops, wants), TrackerPlacement(ops, wants))
    ensures CountTrue(TrackerPlacement(ops, wants), |fence|) <= CountTrue(fence, |fence|)
  {
    var acc, acc' := BelievedAll(ops, wants, |ops|), GraphAccesses(ops, wants);
    TrackerIsGreedy(ops, wants, |ops|);
    BeliefIsAlike(ops, wants, |ops|);
    forall k | 0 <= k < |acc| ensures Placement(acc)[k] == Placement(acc')[k] { SameNeeds(acc, acc', k); }
    assert Placement(acc) == Placement(acc');
    DispatchesStore(ops, wants, |ops|);
    GreedyIsOptimal(acc', fence);
  }

  /** A region of this size is reserved when the arena is empty. */
  predicate FitsArena(bytes: nat) { 0 < bytes && SplitK.RoundUp16(bytes) <= SplitK.AUTO_SCRATCH_CAP_BYTES }

  /** A split-K op and a direct one: the tracker asks for the second barrier exactly when
      the direct op meets what it believes the first one left pending. */
  lemma SplitThenDirect(x: MatmulOp, y: MatmulOp, bytes: nat)
    requires x.IsPlain() && FitsArena(bytes)
    ensures var ops, wants := [x, y], [Some(bytes), None];
            var r := SplitK.Region(0, bytes);
            && SplitK.ArenaRegion(wants, 0) == Some(r)
            && GraphAccesses(ops, wants) ==
               [StageOne(x, r), Access(RegionBytes(r), {Buffer(x.c)}), MatmulTouches(y).Access()]
            && TrackerPlacement(ops, wants) == [false, true, DirectHazard(Tracker([x.c], [x.a, x.b], []), y)]
  {
    var ops, wants: Wants := [x, y], [Some(bytes), None];
    var two := Routes(wants);
    assert SplitK.Reserved(wants, 0) == 0;
    assert two == [true, false];
    assert Dispatches(ops, wants, 0, false) == [];
    assert Dispatches(ops, wants, 1, false) == OpDispatches(ops, wants, 0, false);
    assert Dispatches(ops, wants, 2, false) == Dispatches(ops, wants, 1, false) + OpDispatches(ops, wants, 1, false);
    var t0, t1 := TrackAll(ops, two, 0), TrackAll(ops, two, 1);
    assert t1 == Track(t0, x, true);
    assert TrackAll(ops, two, 2) == Track(t1, y, false);
  }

  /** What a direct op without a store touches. */
  function Touches(y: MatmulOp): seq<Handle> { MatmulTouches(y).loads + MatmulTouches(y).stores }

  /** When one barrier is enough after a split-K op: exactly when C is not touched. */
  lemma OneBarrierSeparates(x: MatmulOp, y: MatmulOp, r: SplitK.Region)
    requires r.bytes > 0
    ensures var acc := [StageOne(x, r), Access(RegionBytes(r), {Buffer(x.c)}), MatmulTouches(y).Access()];
            Separates(acc, [false, true, false]) <==> x.c !in Touches(y)
  {
    var u := MatmulTouches(y);
    var acc, fence := [StageOne(x, r), Access(RegionBytes(r), {Buffer(x.c)}), u.Access()], [false, true, false];
    assert Fenced(fence, 0, 1) && Fenced(fence, 0, 2) by { assert fence[1]; }
    assert !Fenced(fence, 1, 2);
    assert Conflicts(acc[1], acc[2]) <==> x.c in Touches(y) by {
      if x.c in Touches(y) { assert Buffer(x.c) in acc[1].stores * (acc[2].loads + acc[2].stores); }
    }
  }

  /** The wasted barrier, for all operands: after a split-K op the tracker still lists A
      and B, so a direct op gets one barrier more than its conflicts need exactly when it
      writes A or B and touches C not at all. */
  lemma WastedBarrierIff(x: MatmulOp, y: MatmulOp, bytes: nat)
    requires x.IsPlain() && y.store.NoStore? && FitsArena(bytes)
    ensures var ops, wants := [x, y], [Some(bytes), None];
            && |GraphAccesses(ops, wants)| == 3
            && (TrackerPlacement(ops, wants) == [false, true, true]
                && Separates(GraphAccesses(ops, wants), [false, true, false])
                <==> (y.c == x.a || y.c == x.b) && x.c !in Touches(y))
  {
    SplitThenDirect(x, y, bytes);
    OneBarrierSeparates(x, y, SplitK.Region(0, bytes));
    var t := Tracker([x.c], [x.a, x.b], []);
    assert x.c !in Touches(y) ==> (DirectHazard(t, y) <==> y.c == x.a || y.c == x.b) by {
      if x.c !in Touches(y) {
        var u := MatmulTouches(y);
        assert u.loads + u.stores == Touches(y);
        assert y.c in u.stores;
        assert y.a in u.loads && y.b in u.loads;
        assert forall h :: h in OptSeq(y.bias) + OptSeq(y.d) + OptSeq(y.normWeight) ==> h in u.loads;
        assert !Wrote(t, y.bias) && !Wrote(t, y.d) && !Wrote(t, y.normWeight) by {
          OptIn(y.bias);
          OptIn(y.d);
          OptIn(y.normWeight);
        }
      }
    }
  }

  lemma OptIn(x: Option<Handle>)
    ensures x.Some? ==> x.value in OptSeq(x)
  {}

  // ---- Safety in terms of operands ---------------------------------------

  /** The buffers of an op's last dispatch and of its first one; the reduction of a split-K
      op comes after its internal barrier, its first stage before it. */
  function Last(op: MatmulOp, twoStage: bool): Touched { if twoStage then Touched([], [op.c]) else MatmulTouches(op) }

  function First(op: MatmulOp, twoStage: bool): Touched {
    if twoStage then Touched([op.a, op.b], []) else MatmulTouches(op)
  }

  /** The same as the tracker sees them. */
  function LastTracked(op: MatmulOp, twoStage: bool): Touched {
    if twoStage then Touched([op.a, op.b], [op.c]) else TrackedTouches(op)
  }

  function FirstTracked(op: MatmulOp, twoStage: bool): Touched {
    if twoStage then Touched([op.a, op.b], []) else TrackedTouches(op)
  }

  /** What a caller can check of two ops: if they meet at all, they meet where the tracker looks. */
  predicate ClashSeen(x: MatmulOp, xTwo: bool, y: MatmulOp, yTwo: bool) {
    FootprintsMeet(Last(x, xTwo), First(y, yTwo)) ==> FootprintsMeet(LastTracked(x, xTwo), FirstTracked(y, yTwo))
  }

  ghost predicate AllClashesSeen(ops: seq<MatmulOp>, two: seq<bool>) {
    |two| == |ops| && forall i, j :: 0 <= i < j < |ops| ==> ClashSeen(ops[i], two[i], ops[j], two[j])
  }

  /** The buffers of an access. */
  ghost predicate Shows(a: Access, t: Touched) {
    forall h :: (Buffer(h) in a.loads <==> h in t.loads) && (Buffer(h) in a.stores <==> h in t.stores)
  }

  lemma ShownMeet(a: Access, t: Touched, b: Access, u: Touched)
    requires Shows(a, t) && Shows(b, u)
    ensures FootprintsMeet(t, u) ==> Conflicts(a, b)
  {
    if h :| h in t.stores && h in u.loads + u.stores {
      assert Buffer(h) in a.stores * (b.loads + b.stores);
    }
    if h :| h in t.loads && h in u.stores {
      assert Buffer(h) in a.loads * b.stores;
    }
  }

  /** Apart from scratch, conflicts are meetings. */
  lemma ShownConflict(a: Access, t: Touched, b: Access, u: Touched, end: nat)
    requires Shows(a, t) && Shows(b, u) && ScratchBelow(a, end)
    requires forall s: nat :: ScratchByte(s) in b.loads + b.stores ==> s >= end
    ensures Conflicts(a, b) <==> FootprintsMeet(t, u)
  {
    ShownMeet(a, t, b, u);
    if x :| x in a.stores * (b.loads + b.stores) {
      assert x in a.loads + a.stores && x in b.loads + b.stores;
      assert x.handle in t.stores && x.handle in u.loads + u.stores;
    }
    if x :| x in a.loads * b.stores {
      assert x in a.loads + a.stores && x in b.loads + b.stores;
      assert x.handle in t.loads && x.handle in u.stores;
    }
  }

  /** A dispatch is the last one of some op before `n`, really and as believed. */
  ghost predicate EndsOp(ops: seq<MatmulOp>, two: seq<bool>, n: nat, a: Access, believed: Access)
    requires n <= |ops| == |two|
  {
    exists i :: 0 <= i < n && Shows(a, Last(ops[i], two[i])) && Shows(believed, LastTracked(ops[i], two[i]))
  }

  /** Every conflict so far is fenced, and only last dispatches of ops are still pending. */
  ghost predicate AllFenced(ops: seq<MatmulOp>, two: seq<bool>, n: nat, acc: seq<Access>, believed: seq<Access>,
                            fence: seq<bool>, end: nat)
    requires n <= |ops| == |two|
  {
    && |acc| == |believed| == |fence| && Separates(acc, fence)
    && (forall p :: 0 <= p < |acc| ==> ScratchBelow(acc[p], end))
    && forall p :: 0 <= p < |acc| && Pending(fence, p) ==> EndsOp(ops, two, n, acc[p], believed[p])
  }

  /** The first dispatch of the next op conflicts with nothing that is pending unless it
      gets a barrier. */
  lemma NextIsFenced(ops: seq<MatmulOp>, two: seq<bool>, n: nat, acc: seq<Access>, believed: seq<Access>,
                     fence: seq<bool>, end: nat, a: Access, b: Access, p: nat)
    requires n < |ops| && AllClashesSeen(ops, two) && AllFenced(ops, two, n, acc, believed, fence, end)
    requires Shows(a, First(ops[n], two[n])) && Shows(b, FirstTracked(ops[n], two[n]))
    requires forall s: nat :: ScratchByte(s) in a.loads + a.stores ==> s >= end
    requires p < |acc| && Pending(fence, p) && Conflicts(acc[p], a)
    ensures Conflicts(believed[p], b)
  {
    var i :| 0 <= i < n && Shows(acc[p], Last(ops[i], two[i])) && Shows(believed[p], LastTracked(ops[i], two[i]));
    ShownConflict(acc[p], Last(ops[i], two[i]), a, First(ops[n], two[n]), end);
    assert ClashSeen(ops[i], two[i], ops[n], two[n]);
    ShownMeet(believed[p], LastTracked(ops[i], two[i]), b, FirstTracked(ops[n], two[n]));
  }

  /** Only its own barrier can separate a new dispatch from a pending one. */
  lemma LastFlagForced(acc: seq<Access>, fence: seq<bool>, b: Access, f: bool, p: nat)
    requires |acc| == |fence| && Separates(acc + [b], fence + [f])
    requires p < |acc| && Pending(fence, p) && Conflicts(acc[p], b)
    ensures f
  {
    var all, flags := acc + [b], fence + [f];
    assert Conflicts(all[p], all[|acc|]);
    var k :| p < k <= |acc| && flags[k];
  }

  /** One dispatch more: fenced where the tracker sees the clash. */
  lemma FirstIsFenced(ops: seq<MatmulOp>, two: seq<bool>, n: nat, acc: seq<Access>, believed: seq<Access>,
                      fence: seq<bool>, end: nat, a: Access, b: Access, f: bool)
    requires n < |ops| && AllClashesSeen(ops, two) && AllFenced(ops, two, n, acc, believed, fence, end)
    requires Shows(a, First(ops[n], two[n])) && Shows(b, FirstTracked(ops[n], two[n]))
    requires forall s: nat :: ScratchByte(s) in a.loads + a.stores ==> s >= end
    requires Separates(believed + [b], fence + [f])
    ensures Separates(acc + [a], fence + [f])
  {
    forall p | 0 <= p < |acc| && Pending(fence, p) && Conflicts(acc[p], a) ensures f {
      NextIsFenced(ops, two, n, acc, believed, fence, end, a, b, p);
      LastFlagForced(believed, fence, b, f, p);
    }
    AppendDispatch(acc, fence, a, f);
  }

  lemma StillEnds(ops: seq<MatmulOp>, two: seq<bool>, n: nat, a: Access, believed: Access)
    requires n < |ops| == |two|
    ensures EndsOp(ops, two, n, a, believed) ==> EndsOp(ops, two, n + 1, a, believed)
    ensures Shows(a, Last(ops[n], two[n])) && Shows(believed, LastTracked(ops[n], two[n]))
            ==> EndsOp(ops, two, n + 1, a, believed)
  {}

  lemma DirectFenced(ops: seq<MatmulOp>, two: seq<bool>, n: nat, acc: seq<Access>, believed: seq<Access>,
                     fence: seq<bool>, end: nat, f: bool)
    requires n < |ops| && AllClashesSeen(ops, two) && AllFenced(ops, two, n, acc, believed, fence, end) && !two[n]
    requires Separates(believed + [TrackedTouches(ops[n]).Access()], fence + [f])
    ensures AllFenced(ops, two, n + 1, acc + [MatmulTouches(ops[n]).Access()],
                      believed + [TrackedTouches(ops[n]).Access()],
                      fence + [f], end)
  {
    var a, b := MatmulTouches(ops[n]).Access(), TrackedTouches(ops[n]).Access();
    var acc', believed', fence' := acc + [a], believed + [b], fence + [f];
    FirstIsFenced(ops, two, n, acc, believed, fence, end, a, b, f);
    forall p | 0 <= p < |acc'| && Pending(fence', p) ensures EndsOp(ops, two, n + 1, acc'[p], believed'[p]) {
      StillEnds(ops, two, n, acc'[p], believed'[p]);
      if p < |acc| {
        assert forall k :: p < k < |fence| ==> fence'[k] == fence[k];
        assert Pending(fence, p);
      }
    }
  }

  lemma StagesFenced(ops: seq<MatmulOp>, two: seq<bool>, n: nat, acc: seq<Access>, believed: seq<Access>,
                     fence: seq<bool>, r: SplitK.Region, f: bool, end: nat)
    requires n < |ops| && AllClashesSeen(ops, two) && AllFenced(ops, two, n, acc, believed, fence, r.offset) && two[n]
    requires r.offset + r.bytes <= end && Separates(believed + [StageOne(ops[n], r)], fence + [f])
    ensures AllFenced(ops, two, n + 1, acc + [StageOne(ops[n], r), Access(RegionBytes(r), {Buffer(ops[n].c)})],
                      believed + [StageOne(ops[n], r), BelievedReduce(ops[n], r)], fence + [f, true], end)
  {
    var one, reduce := StageOne(ops[n], r), Access(RegionBytes(r), {Buffer(ops[n].c)});
    var acc1, acc' := acc + [one], acc + [one, reduce];
    var believed' := believed + [one, BelievedReduce(ops[n], r)];
    var fence' := fence + [f, true];
    FirstIsFenced(ops, two, n, acc, believed, fence, r.offset, one, one, f);
    AppendDispatch(acc1, fence + [f], reduce, true);
    assert acc' == acc1 + [reduce] && fence' == fence + [f] + [true];
    forall p | 0 <= p < |acc'| ensures ScratchBelow(acc'[p], end) {
      if p < |acc| { assert ScratchBelow(acc[p], r.offset); }
    }
    forall p | 0 <= p < |acc'| && Pending(fence', p) ensures EndsOp(ops, two, n + 1, acc'[p], believed'[p]) {
      assert fence'[|acc| + 1];
      assert p == |acc| + 1;
      StillEnds(ops, two, n, acc'[p], believed'[p]);
    }
  }

  /** Any prefix of a separated placement separates. */
  lemma PrefixSeparates(acc: seq<Access>, fence: seq<bool>, n: nat)
    requires n <= |acc| == |fence| && Separates(acc, fence)
    ensures Separates(acc[..n], fence[..n])
  {
    forall i, j | 0 <= i < j < n && Conflicts(acc[..n][i], acc[..n][j]) ensures Fenced(fence[..n], i, j) {
      assert Fenced(fence, i, j);
      var k :| i < k <= j && fence[k];
      assert fence[..n][k];
    }
  }

  lemma BelievedSeparate(ops: seq<MatmulOp>, wants: Wants, n: nat)
    requires n <= |ops| && WellRouted(ops, wants)
    ensures var b, f := BelievedAll(ops, wants, n), TrackAll(ops, Routes(wants), n).fence; |b| == |f| && Separates(b, f)
  {
    TrackerIsGreedy(ops, wants, n);
    GreedySeparates(BelievedAll(ops, wants, n));
  }

  lemma StagesStep(ops: seq<MatmulOp>, two: seq<bool>, n: nat, next: nat, acc: seq<Access>, believed: seq<Access>,
                   t: Tracker, r: SplitK.Region, end: nat)
    requires n < |ops| && next == n + 1 && AllClashesSeen(ops, two)
             && AllFenced(ops, two, n, acc, believed, t.fence, r.offset) && two[n]
    requires var all, fence := believed + [StageOne(ops[n], r), BelievedReduce(ops[n], r)],
             Track(t, ops[n], true).fence;
             r.offset + r.bytes <= end && |all| == |fence| && Separates(all, fence)
    ensures AllFenced(ops, two, next, acc + [StageOne(ops[n], r), Access(RegionBytes(r), {Buffer(ops[n].c)})],
                      believed + [StageOne(ops[n], r), BelievedReduce(ops[n], r)], Track(t, ops[n], true).fence, end)
  {
    var all, fence, m := believed + [StageOne(ops[n], r), BelievedReduce(ops[n], r)], Track(t, ops[n], true).fence,
        |acc| + 1;
    var f := ops[n].a in t.written || ops[n].b in t.written;
    PrefixSeparates(all, fence, m);
    assert all[..m] == believed + [StageOne(ops[n], r)] && fence[..m] == t.fence + [f];
    StagesFenced(ops, two, n, acc, believed, t.fence, r, f, end);
  }

  lemma DirectStep(ops: seq<MatmulOp>, two: seq<bool>, n: nat, next: nat, acc: seq<Access>, believed: seq<Access>,
                   t: Tracker, end: nat)
    requires n < |ops| && next == n + 1 && AllClashesSeen(ops, two)
             && AllFenced(ops, two, n, acc, believed, t.fence, end) && !two[n]
    requires Separates(believed + [TrackedTouches(ops[n]).Access()], Track(t, ops[n], false).fence)
    ensures AllFenced(ops, two, next, acc + [MatmulTouches(ops[n]).Access()],
                      believed + [TrackedTouches(ops[n]).Access()],
                      Track(t, ops[n], false).fence, end)
  {
    DirectFenced(ops, two, n, acc, believed, t.fence, end, DirectHazard(t, ops[n]));
  }

  /** The invariant over the first `n` ops of a submission. */
  ghost predicate Fencing(ops: seq<MatmulOp>, wants: Wants, n: nat)
    requires n <= |ops| == |wants|
  {
    AllFenced(ops, Routes(wants), n, Dispatches(ops, wants, n, false), BelievedAll(ops, wants, n),
              TrackAll(ops, Routes(wants), n).fence, SplitK.Reserved(wants, n))
  }

  lemma FencingDirect(ops: seq<MatmulOp>, wants: Wants, n: nat)
    requires 0 < n <= |ops| && WellRouted(ops, wants) && AllClashesSeen(ops, Routes(wants))
             && Fencing(ops, wants, n - 1)
    requires SplitK.ArenaRegion(wants, n - 1).None?
    ensures Fencing(ops, wants, n)
  {
    var two := Routes(wants);
    var t, op := TrackAll(ops, two, n - 1), ops[n - 1];
    var acc, believed := Dispatches(ops, wants, n - 1, false), BelievedAll(ops, wants, n - 1);
    BelievedSeparate(ops, wants, n);
    assert TrackAll(ops, two, n) == Track(t, op, false);
    assert Dispatches(ops, wants, n, false) == acc + [MatmulTouches(op).Access()];
    assert BelievedAll(ops, wants, n) == believed + [TrackedTouches(op).Access()];
    DirectStep(ops, two, n - 1, n, acc, believed, t, SplitK.Reserved(wants, n - 1));
  }

  lemma FencingStages(ops: seq<MatmulOp>, wants: Wants, n: nat)
    requires 0 < n <= |ops| && WellRouted(ops, wants) && AllClashesSeen(ops, Routes(wants))
             && Fencing(ops, wants, n - 1)
    requires SplitK.ArenaRegion(wants, n - 1).Some?
    ensures Fencing(ops, wants, n)
  {
    var two, r := Routes(wants), SplitK.ArenaRegion(wants, n - 1).value;
    var t, op := TrackAll(ops, two, n - 1), ops[n - 1];
    var acc, believed := Dispatches(ops, wants, n - 1, false), BelievedAll(ops, wants, n - 1);
    BelievedSeparate(ops, wants, n);
    assert TrackAll(ops, two, n) == Track(t, op, true);
    assert Dispatches(ops, wants, n, false) == acc + [StageOne(op, r), Access(RegionBytes(r), {Buffer(op.c)})];
    assert BelievedAll(ops, wants, n) == believed + [StageOne(op, r), BelievedReduce(op, r)];
    StagesStep(ops, two, n - 1, n, acc, believed, t, r, SplitK.Reserved(wants, n));
  }

  lemma {:induction false} ClashesFenced(ops: seq<MatmulOp>, wants: Wants, n: nat)
    requires n <= |ops| && WellRouted(ops, wants) && AllClashesSeen(ops, Routes(wants))
    ensures Fencing(ops, wants, n)
  {
    if n > 0 {
      ClashesFenced(ops, wants, n - 1);
      if SplitK.ArenaRegion(wants, n - 1).None? { FencingDirect(ops, wants, n); } else { FencingStages(ops, wants, n); }
    }
  }

  /** Operands a caller can check: a submission of any mix of direct and split-K ops is
      recorded safely when any two of its ops that meet, last dispatch to first, meet where
      the tracker looks. */
  lemma SeenClashesAreSafe(ops: seq<MatmulOp>, wants: Wants)
    requires WellRouted(ops, wants) && AllClashesSeen(ops, Routes(wants))
    ensures |TrackerPlacement(ops, wants)| == |GraphAccesses(ops, wants)|
    ensures Safe(GraphAccesses(ops, wants), TrackerPlacement(ops, wants))
  {
    ClashesFenced(ops, wants, |ops|);
    SeparatedIsSafe(GraphAccesses(ops, wants), TrackerPlacement(ops, wants));
  }

  // ---- Two ops, exactly --------------------------------------------------

  /** The barrier before the second op's first dispatch. */
  function SecondFence(x: MatmulOp, xTwo: bool, y: MatmulOp, yTwo: bool): bool {
    var t := Track(Tracker([], [], []), x, xTwo);
    if yTwo then y.a in t.written || y.b in t.written else DirectHazard(t, y)
  }

  lemma SecondFenceIff(x: MatmulOp, xTwo: bool, y: MatmulOp, yTwo: bool)
    ensures SecondFence(x, xTwo, y, yTwo) <==> FootprintsMeet(LastTracked(x, xTwo), FirstTracked(y, yTwo))
  {
    var t := Track(Tracker([], [], []), x, xTwo);
    var tx, ty := LastTracked(x, xTwo), FirstTracked(y, yTwo);
    assert t.written == [x.c] == tx.stores;
    if yTwo {
      assert ty.stores == [] && ty.loads == [y.a, y.b];
    } else {
      assert ty.stores == [y.c];
      assert x.c in ty.loads + ty.stores || y.c in tx.loads <==> FootprintsMeet(tx, ty);
      assert y.c in tx.loads <==> y.c in t.read || (!xTwo && x.accumulate && y.c == x.c);
      assert x.c in ty.loads <==>
             x.c == y.a || x.c == y.b || (y.accumulate && y.c == x.c)
             || Wrote(t, y.bias) || Wrote(t, y.d) || Wrote(t, y.normWeight);
    }
  }

  lemma TwoOpDispatches(x: MatmulOp, y: MatmulOp, wants: Wants)
    requires |wants| == 2 && WellRouted([x, y], wants)
    ensures var acc, fence := GraphAccesses([x, y], wants), TrackerPlacement([x, y], wants);
            var two := Routes(wants);
            var q := if two[0] then 2 else 1;
            && |fence| == |acc| > q && fence[q] == SecondFence(x, two[0], y, two[1])
            && Shows(acc[q - 1], Last(x, two[0])) && Shows(acc[q], First(y, two[1]))
  {
    var ops, two := [x, y], Routes(wants);
    assert Dispatches(ops, wants, 0, false) == [];
    assert Dispatches(ops, wants, 1, false) == OpDispatches(ops, wants, 0, false);
    assert Dispatches(ops, wants, 2, false) == Dispatches(ops, wants, 1, false) + OpDispatches(ops, wants, 1, false);
    var t0, t1 := TrackAll(ops, two, 0), TrackAll(ops, two, 1);
    assert t1 == Track(t0, x, two[0]);
    assert TrackAll(ops, two, 2) == Track(t1, y, two[1]);
    SameDispatchCount(ops, wants, 2);
  }

  /** Two ops under any routing are recorded safely exactly when they meet, if they meet,
      where the tracker looks. */
  lemma TwoOpSafeIff(x: MatmulOp, y: MatmulOp, wants: Wants)
    requires |wants| == 2 && WellRouted([x, y], wants)
    ensures |TrackerPlacement([x, y], wants)| == |GraphAccesses([x, y], wants)|
    ensures Safe(GraphAccesses([x, y], wants), TrackerPlacement([x, y], wants))
            <==> ClashSeen(x, Routes(wants)[0], y, Routes(wants)[1])
  {
    var ops, two := [x, y], Routes(wants);
    var acc, fence, q := GraphAccesses(ops, wants), TrackerPlacement(ops, wants), if two[0] then 2 else 1;
    TwoOpDispatches(x, y, wants);
    if ClashSeen(x, two[0], y, two[1]) {
      SeenClashesAreSafe(ops, wants);
    } else {
      ShownMeet(acc[q - 1], Last(x, two[0]), acc[q], First(y, two[1]));
      SecondFenceIff(x, two[0], y, two[1]);
      DispatchesStore(ops, wants, 2);
      SafeIffSeparated(acc, fence);
      assert !Fenced(fence, q - 1, q);
    }
  }

  /** It is not enough that whole ops meet where the tracker looks: a scatter into what a
      split-K op reads passes unseen whatever else the two share, because a meeting at the
      split-K op's C is only fenced after its first stage. */
  lemma ScatterBeforeSplitIsUnsafe(x: MatmulOp, y: MatmulOp, bytes: nat)
    requires y.IsPlain() && FitsArena(bytes) && x.store.Dst().Some?
    requires (x.store.Dst().value == y.a || x.store.Dst().value == y.b) && x.c != y.a && x.c != y.b
    ensures var wants := [None, Some(bytes)];
            && |TrackerPlacement([x, y], wants)| == |GraphAccesses([x, y], wants)|
            && !Safe(GraphAccesses([x, y], wants), TrackerPlacement([x, y], wants))
  {
    var wants: Wants := [None, Some(bytes)];
    LoneSplitRoutes(bytes);
    assert x.store.Dst().value in Last(x, false).stores && x.store.Dst().value in First(y, true).loads;
    assert LastTracked(x, false).stores == [x.c];
    TwoOpSafeIff(x, y, wants);
  }

  lemma LoneSplitRoutes(bytes: nat)
    requires FitsArena(bytes)
    ensures Routes([None, Some(bytes)]) == [false, true]
  {
    var wants: Wants := [None, Some(bytes)];
    assert SplitK.Reserved(wants, 0) == 0;
    assert SplitK.Reserved(wants, 1) == 0;
  }
}
