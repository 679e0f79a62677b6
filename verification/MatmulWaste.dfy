/** Exactly how many barriers the matmul tracker spends beyond the fewest. */
module MatmulWaste {
  import opened BarrierWaste
  import opened GpuExecution
  import opened HazardGraph
  import opened MatmulBarriers
  import opened MatmulGraph
  import opened MatmulOps
  import opened Prelude
  import SplitK

  ghost predicate StoreFree(ops: seq<MatmulOp>) {
    forall i :: 0 <= i < |ops| ==> ops[i].store.NoStore?
  }

  ghost function Reduce(op: MatmulOp, r: SplitK.Region): Access {
    Access(RegionBytes(r), {Buffer(op.c)})
  }

  ghost function Inputs(op: MatmulOp): set<Loc> { {Buffer(op.a), Buffer(op.b)} }

  /** The dispatches of op `n` and of all ops after it. */
  ghost function Rest(ops: seq<MatmulOp>, wants: Wants, n: nat): seq<Access>
    requires n <= |ops| == |wants|
    decreases |ops| - n
  {
    if n == |ops| then [] else OpDispatches(ops, wants, n, false) + Rest(ops, wants, n + 1)
  }

  /** What is left of the submission from the reduction of split-K op `i` on. */
  ghost function FromReduce(ops: seq<MatmulOp>, wants: Wants, i: nat): seq<Access>
    requires i < |ops| == |wants| && SplitK.ArenaRegion(wants, i).Some?
  {
    [Reduce(ops[i], SplitK.ArenaRegion(wants, i).value)] + Rest(ops, wants, i + 1)
  }

  /** What op `t` leaves running meets op `u`; of split-K op `i` that is its reduction. */
  ghost predicate Meets(ops: seq<MatmulOp>, i: nat, t: nat, u: nat)
    requires t < |ops| && u < |ops|
  {
    FootprintsMeet(Last(ops[t], t == i), MatmulTouches(ops[u]))
  }

  /** Ops i + 1 .. j are direct and need no barrier among them or after op `i`. */
  ghost predicate QuietAfter(ops: seq<MatmulOp>, wants: Wants, i: nat, j: nat)
    requires i <= j < |ops| == |wants|
  {
    AllDirect(ops, wants, i, j) && forall t, u :: i <= t < u <= j ==> !Meets(ops, i, t, u)
  }

  ghost predicate AllDirect(ops: seq<MatmulOp>, wants: Wants, i: nat, j: nat)
    requires j < |ops| == |wants|
  {
    forall t :: i < t <= j ==> SplitK.ArenaRegion(wants, t).None?
  }

  /** Split-K op `i` costs a barrier: op `j` writes its A or B, nothing from its reduction to
      there needs a barrier, and what is left at `j` needs as many as what is left at the
      reduction. */
  ghost predicate WastesBefore(ops: seq<MatmulOp>, wants: Wants, i: nat, j: nat)
    requires |ops| == |wants|
  {
    && i < j < |ops| && SplitK.ArenaRegion(wants, i).Some? && QuietAfter(ops, wants, i, j)
    && (ops[j].c == ops[i].a || ops[j].c == ops[i].b)
    && Least(Rest(ops, wants, j)) == Least(FromReduce(ops, wants, i))
  }

  ghost predicate Wastes(ops: seq<MatmulOp>, wants: Wants, i: nat)
    requires |ops| == |wants|
  {
    exists j: nat :: WastesBefore(ops, wants, i, j)
  }

  ghost function Wasted(ops: seq<MatmulOp>, wants: Wants, n: nat): nat
    requires |ops| == |wants|
  {
    if n == 0 then 0 else Wasted(ops, wants, n - 1) + if Wastes(ops, wants, n - 1) then 1 else 0
  }

  // ---- Direct ops after a reduction --------------------------------------

  lemma RestDirect(ops: seq<MatmulOp>, wants: Wants, n: nat)
    requires n < |ops| == |wants| && SplitK.ArenaRegion(wants, n).None?
    ensures Rest(ops, wants, n) == [MatmulTouches(ops[n]).Access()] + Rest(ops, wants, n + 1)
  {}

  lemma DropOneMore<T>(x: T, s: seq<T>, k: nat)
    requires k <= |s|
    ensures ([x] + s)[k + 1..] == s[k..]
  {}

  lemma {:induction false} RestDrop(ops: seq<MatmulOp>, wants: Wants, n: nat, j: nat)
    requires n <= j <= |ops| == |wants| && forall t :: n <= t < j ==> SplitK.ArenaRegion(wants, t).None?
    ensures j - n <= |Rest(ops, wants, n)| && Rest(ops, wants, n)[j - n..] == Rest(ops, wants, j)
    decreases j - n
  {
    if n < j {
      RestDirect(ops, wants, n);
      RestDrop(ops, wants, n + 1, j);
      DropOneMore(MatmulTouches(ops[n]).Access(), Rest(ops, wants, n + 1), j - n - 1);
    }
  }

  lemma RestFrom(ops: seq<MatmulOp>, wants: Wants, i: nat, n: nat)
    requires i < n <= |ops| == |wants| && SplitK.ArenaRegion(wants, i).Some? && AllDirect(ops, wants, i, n - 1)
    ensures n - i <= |FromReduce(ops, wants, i)| && FromReduce(ops, wants, i)[n - i..] == Rest(ops, wants, n)
  {
    RestDrop(ops, wants, i + 1, n);
    DropOneMore(FromReduce(ops, wants, i)[0], Rest(ops, wants, i + 1), n - i - 1);
  }

  lemma FromReduceAt(ops: seq<MatmulOp>, wants: Wants, i: nat, j: nat)
    requires i < j < |ops| == |wants| && SplitK.ArenaRegion(wants, i).Some? && AllDirect(ops, wants, i, j)
    ensures var acc := FromReduce(ops, wants, i);
            j - i < |acc| && acc[j - i] == MatmulTouches(ops[j]).Access() && acc[j - i..] == Rest(ops, wants, j)
  {
    RestFrom(ops, wants, i, j);
    RestDirect(ops, wants, j);
    assert FromReduce(ops, wants, i)[j - i..][0] == MatmulTouches(ops[j]).Access();
  }

  lemma ReduceConflicts(x: MatmulOp, r: SplitK.Region, y: MatmulOp)
    ensures Conflicts(Reduce(x, r), MatmulTouches(y).Access()) <==> FootprintsMeet(Last(x, true), MatmulTouches(y))
  {
    var a, u := Reduce(x, r), MatmulTouches(y);
    assert FootprintsMeet(Last(x, true), u) <==> x.c in u.loads + u.stores;
    if x.c in u.loads + u.stores { assert Buffer(x.c) in a.stores * (u.Access().loads + u.Access().stores); }
  }

  lemma ConflictAt(ops: seq<MatmulOp>, wants: Wants, i: nat, t: nat, u: nat)
    requires i <= t < u < |ops| == |wants| && SplitK.ArenaRegion(wants, i).Some? && AllDirect(ops, wants, i, u)
    ensures u - i < |FromReduce(ops, wants, i)|
    ensures Conflicts(FromReduce(ops, wants, i)[t - i], FromReduce(ops, wants, i)[u - i]) <==> Meets(ops, i, t, u)
  {
    FromReduceAt(ops, wants, i, u);
    if t == i {
      ReduceConflicts(ops[i], SplitK.ArenaRegion(wants, i).value, ops[u]);
    } else {
      FromReduceAt(ops, wants, i, t);
      ConflictsByHandle(MatmulTouches(ops[t]), MatmulTouches(ops[u]));
    }
  }

  lemma QuietIff(ops: seq<MatmulOp>, wants: Wants, i: nat, j: nat)
    requires i < j < |ops| == |wants| && SplitK.ArenaRegion(wants, i).Some? && AllDirect(ops, wants, i, j)
    ensures j - i < |FromReduce(ops, wants, i)|
    ensures Quiet(FromReduce(ops, wants, i), j - i + 1) <==> QuietAfter(ops, wants, i, j)
  {
    var acc := FromReduce(ops, wants, i);
    FromReduceAt(ops, wants, i, j);
    forall t, u | i <= t < u <= j ensures Conflicts(acc[t - i], acc[u - i]) <==> Meets(ops, i, t, u) {
      ConflictAt(ops, wants, i, t, u);
    }
    forall p, q | 0 <= p < q < j - i + 1 && QuietAfter(ops, wants, i, j) ensures !Conflicts(acc[p], acc[q]) {
      assert !Meets(ops, i, i + p, i + q);
    }
  }

  lemma WritesInput(x: MatmulOp, y: MatmulOp)
    requires y.store.NoStore?
    ensures MatmulTouches(y).Access().stores * Inputs(x) != {} <==> y.c == x.a || y.c == x.b
  {
    var a := MatmulTouches(y).Access();
    assert a.stores == {Buffer(y.c)};
    if y.c == x.a || y.c == x.b { assert Buffer(y.c) in a.stores * Inputs(x); }
  }

  /** Up to a dispatch that wastes a barrier, all ops are direct. */
  lemma {:induction false} DirectUpTo(ops: seq<MatmulOp>, wants: Wants, i: nat, w: nat, k: nat)
    requires i < |ops| && WellRouted(ops, wants) && SplitK.ArenaRegion(wants, i).Some?
    requires WastesAt(FromReduce(ops, wants, i), Inputs(ops[i]), w) && k <= w
    ensures i + k < |ops| && AllDirect(ops, wants, i, i + k)
  {
    if k > 0 {
      DirectUpTo(ops, wants, i, w, k - 1);
      NextIsDirect(ops, wants, i, w, k);
    }
  }

  lemma NextIsDirect(ops: seq<MatmulOp>, wants: Wants, i: nat, w: nat, k: nat)
    requires i < |ops| && WellRouted(ops, wants) && SplitK.ArenaRegion(wants, i).Some?
    requires WastesAt(FromReduce(ops, wants, i), Inputs(ops[i]), w) && 0 < k <= w
    requires i + k - 1 < |ops| && AllDirect(ops, wants, i, i + k - 1)
    ensures i + k < |ops| && SplitK.ArenaRegion(wants, i + k).None?
  {
    RestFrom(ops, wants, i, i + k);
    if i + k < |ops| && SplitK.ArenaRegion(wants, i + k).Some? { SplitNext(ops, wants, i, i + k); }
  }

  /** A later split-K op writes no buffer at first and has a barrier inside. */
  lemma SplitNext(ops: seq<MatmulOp>, wants: Wants, i: nat, n: nat)
    requires i < n < |ops| && WellRouted(ops, wants)
    requires SplitK.ArenaRegion(wants, i).Some? && SplitK.ArenaRegion(wants, n).Some?
    requires n - i <= |FromReduce(ops, wants, i)| && FromReduce(ops, wants, i)[n - i..] == Rest(ops, wants, n)
    ensures var acc, k := FromReduce(ops, wants, i), n - i;
            k + 1 < |acc| && Conflicts(acc[k], acc[k + 1]) && acc[k].stores * Inputs(ops[i]) == {}
  {
    var acc, k, r := FromReduce(ops, wants, i), n - i, SplitK.ArenaRegion(wants, n).value;
    assert acc[k..] == [StageOne(ops[n], r), Reduce(ops[n], r)] + Rest(ops, wants, n + 1);
    assert acc[k] == acc[k..][0] && acc[k + 1] == acc[k..][1];
    assert ScratchByte(r.offset) in acc[k].stores * acc[k + 1].loads;
  }

  /** The condition on dispatches is the one on ops. */
  lemma WastesIff(ops: seq<MatmulOp>, wants: Wants, i: nat)
    requires i < |ops| && WellRouted(ops, wants) && StoreFree(ops) && SplitK.ArenaRegion(wants, i).Some?
    ensures Wastes(ops, wants, i) <==> exists w: nat :: WastesAt(FromReduce(ops, wants, i), Inputs(ops[i]), w)
  {
    if j: nat :| WastesBefore(ops, wants, i, j) {
      SameWaste(ops, wants, i, j);
    }
    if w: nat :| WastesAt(FromReduce(ops, wants, i), Inputs(ops[i]), w) {
      DispatchIsOp(ops, wants, i, w);
    }
  }

  lemma DispatchIsOp(ops: seq<MatmulOp>, wants: Wants, i: nat, w: nat)
    requires i < |ops| && WellRouted(ops, wants) && StoreFree(ops) && SplitK.ArenaRegion(wants, i).Some?
    requires WastesAt(FromReduce(ops, wants, i), Inputs(ops[i]), w)
    ensures WastesBefore(ops, wants, i, i + w)
  {
    DirectUpTo(ops, wants, i, w, w);
    SameWaste(ops, wants, i, i + w);
  }

  lemma SameWaste(ops: seq<MatmulOp>, wants: Wants, i: nat, j: nat)
    requires i < j < |ops| && WellRouted(ops, wants) && StoreFree(ops) && SplitK.ArenaRegion(wants, i).Some?
    requires AllDirect(ops, wants, i, j)
    ensures WastesBefore(ops, wants, i, j) <==> WastesAt(FromReduce(ops, wants, i), Inputs(ops[i]), j - i)
  {
    FromReduceAt(ops, wants, i, j);
    QuietIff(ops, wants, i, j);
    WritesInput(ops[i], ops[j]);
  }

  // ---- The count ---------------------------------------------------------

  lemma {:induction false} GraphSplits(ops: seq<MatmulOp>, wants: Wants, n: nat)
    requires n <= |ops| == |wants|
    ensures GraphAccesses(ops, wants) == Dispatches(ops, wants, n, false) + Rest(ops, wants, n)
    decreases |ops| - n
  {
    if n < |ops| { GraphSplits(ops, wants, n + 1); }
  }

  /** The fewest barriers when the first `n` ops are as believed. */
  ghost function Cost(ops: seq<MatmulOp>, wants: Wants, n: nat): nat
    requires n <= |ops| == |wants|
  {
    Least(BelievedAll(ops, wants, n) + Rest(ops, wants, n))
  }

  lemma BelieveDirect(ops: seq<MatmulOp>, wants: Wants, n: nat)
    requires n < |ops| == |wants| && StoreFree(ops) && SplitK.ArenaRegion(wants, n).None?
    ensures Cost(ops, wants, n + 1) == Cost(ops, wants, n) && !Wastes(ops, wants, n)
  {
    assert ops[n].(store := NoStore) == ops[n];
    assert BelievedAll(ops, wants, n + 1) + Rest(ops, wants, n + 1)
           == BelievedAll(ops, wants, n) + Rest(ops, wants, n);
  }

  lemma BelieveSplit(ops: seq<MatmulOp>, wants: Wants, n: nat)
    requires n < |ops| && WellRouted(ops, wants) && StoreFree(ops) && SplitK.ArenaRegion(wants, n).Some?
    ensures Cost(ops, wants, n + 1) == Cost(ops, wants, n) + if Wastes(ops, wants, n) then 1 else 0
  {
    var r, acc := SplitK.ArenaRegion(wants, n).value, FromReduce(ops, wants, n);
    var one, pre := StageOne(ops[n], r), BelievedAll(ops, wants, n) + [StageOne(ops[n], r)];
    assert ScratchByte(r.offset) in one.stores * acc[0].loads;
    WastesIff(ops, wants, n);
    Surplus(pre, acc, Inputs(ops[n]));
    BelievedParts(ops, wants, n, r);
    RestParts(ops, wants, n, r);
  }

  lemma RestParts(ops: seq<MatmulOp>, wants: Wants, n: nat, r: SplitK.Region)
    requires n < |ops| == |wants| && SplitK.ArenaRegion(wants, n) == Some(r)
    ensures BelievedAll(ops, wants, n) + Rest(ops, wants, n)
            == BelievedAll(ops, wants, n) + [StageOne(ops[n], r)] + FromReduce(ops, wants, n)
  {
    assert Rest(ops, wants, n) == [StageOne(ops[n], r)] + FromReduce(ops, wants, n);
  }

  lemma BelievedParts(ops: seq<MatmulOp>, wants: Wants, n: nat, r: SplitK.Region)
    requires n < |ops| == |wants| && SplitK.ArenaRegion(wants, n) == Some(r)
    ensures BelievedAll(ops, wants, n + 1) + Rest(ops, wants, n + 1)
            == BelievedAll(ops, wants, n) + [StageOne(ops[n], r)]
               + Believing(FromReduce(ops, wants, n), Inputs(ops[n]))
  {
    var op, rest := ops[n], Rest(ops, wants, n + 1);
    assert FromReduce(ops, wants, n)[1..] == rest;
    assert Believing(FromReduce(ops, wants, n), Inputs(op)) == [BelievedReduce(op, r)] + rest;
    assert BelievedAll(ops, wants, n + 1) == BelievedAll(ops, wants, n) + [StageOne(op, r), BelievedReduce(op, r)];
  }

  lemma BelieveStep(ops: seq<MatmulOp>, wants: Wants, n: nat)
    requires n < |ops| && WellRouted(ops, wants) && StoreFree(ops)
    ensures Cost(ops, wants, n + 1) == Cost(ops, wants, n) + if Wastes(ops, wants, n) then 1 else 0
  {
    if SplitK.ArenaRegion(wants, n).None? { BelieveDirect(ops, wants, n); } else { BelieveSplit(ops, wants, n); }
  }

  lemma {:induction false} CostGrows(ops: seq<MatmulOp>, wants: Wants, costs: seq<nat>, n: nat)
    requires n < |costs| && |ops| == |wants|
    requires forall k :: 0 <= k < n ==> costs[k + 1] == costs[k] + if Wastes(ops, wants, k) then 1 else 0
    ensures costs[n] == costs[0] + Wasted(ops, wants, n)
  {
    if n > 0 { CostGrows(ops, wants, costs, n - 1); }
  }

  ghost function Costs(ops: seq<MatmulOp>, wants: Wants): (costs: seq<nat>)
    requires |ops| == |wants|
    ensures |costs| == |ops| + 1 && forall n :: 0 <= n <= |ops| ==> costs[n] == Cost(ops, wants, n)
  {
    seq(|ops| + 1, n requires 0 <= n <= |ops| => Cost(ops, wants, n))
  }

  lemma AllCosts(ops: seq<MatmulOp>, wants: Wants)
    requires WellRouted(ops, wants) && StoreFree(ops)
    ensures Costs(ops, wants)[|ops|] == Costs(ops, wants)[0] + Wasted(ops, wants, |ops|)
  {
    var costs := Costs(ops, wants);
    forall k | 0 <= k < |ops| ensures costs[k + 1] == costs[k] + if Wastes(ops, wants, k) then 1 else 0 {
      BelieveStep(ops, wants, k);
    }
    CostGrows(ops, wants, costs, |ops|);
  }

  /** The tracker spends, beyond what any safe placement must, exactly one barrier for each
      split-K op that wastes one. */
  lemma TrackerSurplus(ops: seq<MatmulOp>, wants: Wants)
    requires WellRouted(ops, wants) && StoreFree(ops)
    ensures var acc, fence := GraphAccesses(ops, wants), TrackerPlacement(ops, wants);
            |fence| == |acc| && CountTrue(fence, |fence|) == Least(acc) + Wasted(ops, wants, |ops|)
  {
    TrackerIsGreedy(ops, wants, |ops|);
    AllCosts(ops, wants);
    GraphSplits(ops, wants, 0);
    SameDispatchCount(ops, wants, |ops|);
    assert BelievedAll(ops, wants, |ops|) + Rest(ops, wants, |ops|) == BelievedAll(ops, wants, |ops|);
  }

  /** Some safe placement needs no more than `Least`, and none needs fewer. */
  lemma LeastIsSafe(ops: seq<MatmulOp>, wants: Wants, fence: seq<bool>)
    requires WellRouted(ops, wants)
    requires |fence| == |GraphAccesses(ops, wants)| && Safe(GraphAccesses(ops, wants), fence)
    ensures Safe(GraphAccesses(ops, wants), Placement(GraphAccesses(ops, wants)))
    ensures Least(GraphAccesses(ops, wants)) <= CountTrue(fence, |fence|)
  {
    DispatchesStore(ops, wants, |ops|);
    GreedyIsOptimal(GraphAccesses(ops, wants), fence);
  }

  lemma {:induction false} WastedIff(ops: seq<MatmulOp>, wants: Wants, n: nat)
    requires n <= |ops| == |wants|
    ensures Wasted(ops, wants, n) == 0 <==> forall i :: 0 <= i < n ==> !Wastes(ops, wants, i)
  {
    if n > 0 { WastedIff(ops, wants, n - 1); }
  }

  /** The tracker has the fewest barriers of any safe placement exactly when no split-K op
      wastes one. */
  lemma OptimalIff(ops: seq<MatmulOp>, wants: Wants)
    requires WellRouted(ops, wants) && StoreFree(ops)
    ensures var acc, tracker := GraphAccesses(ops, wants), TrackerPlacement(ops, wants);
            && |tracker| == |acc| && Safe(acc, tracker)
            && ((forall fence: seq<bool> :: |fence| == |acc| && Safe(acc, fence) ==>
                   CountTrue(tracker, |acc|) <= CountTrue(fence, |acc|))
                <==> forall i :: 0 <= i < |ops| ==> !Wastes(ops, wants, i))
  {
    var acc, tracker := GraphAccesses(ops, wants), TrackerPlacement(ops, wants);
    MatmulGraphIsSerial(ops, wants);
    TrackerSurplus(ops, wants);
    WastedIff(ops, wants, |ops|);
    forall fence: seq<bool> | |fence| == |acc| && Safe(acc, fence)
      ensures Safe(acc, Placement(acc)) && Least(acc) <= CountTrue(fence, |acc|)
    {
      LeastIsSafe(ops, wants, fence);
    }
    assert |Placement(acc)| == |acc| && Safe(acc, Placement(acc));
  }

  /** A wasted barrier may save a later one. When the second of three ops wastes a barrier
      after a split-K op, the third makes up for it exactly when it has to wait for the
      split-K op and not for the second. */
  lemma ThreeOpWasteIff(x: MatmulOp, y: MatmulOp, z: MatmulOp, bytes: nat)
    requires x.IsPlain() && y.store.NoStore? && z.store.NoStore? && FitsArena(bytes)
    requires (y.c == x.a || y.c == x.b) && !FootprintsMeet(Last(x, true), MatmulTouches(y))
    ensures var u := MatmulTouches(z);
            Wastes([x, y, z], [Some(bytes), None, None], 0)
            <==> (FootprintsMeet(Last(x, true), u) ==> FootprintsMeet(MatmulTouches(y), u))
  {
    var ops, wants: Wants := [x, y, z], [Some(bytes), None, None];
    ThreeOpCosts(x, y, z, bytes);
    ConflictAt(ops, wants, 0, 0, 1);
    ConflictAt(ops, wants, 0, 0, 2);
    if Wastes(ops, wants, 0) {
      var j: nat :| WastesBefore(ops, wants, 0, j);
      assert j == 2 ==> !Meets(ops, 0, 0, 2);
    } else {
      assert !WastesBefore(ops, wants, 0, 1);
    }
  }

  lemma ThreeOpCosts(x: MatmulOp, y: MatmulOp, z: MatmulOp, bytes: nat)
    requires FitsArena(bytes) && !FootprintsMeet(Last(x, true), MatmulTouches(y))
    ensures var ops, wants := [x, y, z], [Some(bytes), None, None];
            && SplitK.ArenaRegion(wants, 0).Some? && AllDirect(ops, wants, 0, 2) && QuietAfter(ops, wants, 0, 1)
            && Least(Rest(ops, wants, 1)) == (if Meets(ops, 0, 1, 2) then 1 else 0)
            && Least(FromReduce(ops, wants, 0)) == (if Meets(ops, 0, 0, 2) || Meets(ops, 0, 1, 2) then 1 else 0)
  {
    var ops, wants: Wants := [x, y, z], [Some(bytes), None, None];
    ThreeOpLists(x, y, z, bytes);
    ConflictAt(ops, wants, 0, 0, 1);
    ConflictAt(ops, wants, 0, 0, 2);
    ConflictAt(ops, wants, 0, 1, 2);
    OnlyLast(FromReduce(ops, wants, 0));
    OnlyLast(Rest(ops, wants, 1));
  }

  lemma ThreeOpLists(x: MatmulOp, y: MatmulOp, z: MatmulOp, bytes: nat)
    requires FitsArena(bytes)
    ensures var ops, wants := [x, y, z], [Some(bytes), None, None];
            && SplitK.ArenaRegion(wants, 0).Some? && AllDirect(ops, wants, 0, 2)
            && Rest(ops, wants, 1) == [MatmulTouches(y).Access(), MatmulTouches(z).Access()]
            && |FromReduce(ops, wants, 0)| == 3 && FromReduce(ops, wants, 0)[1..] == Rest(ops, wants, 1)
  {
    var ops, wants: Wants := [x, y, z], [Some(bytes), None, None];
    assert SplitK.Reserved(wants, 0) == 0;
    assert Rest(ops, wants, 3) == [];
    assert Rest(ops, wants, 2) == OpDispatches(ops, wants, 2, false) + Rest(ops, wants, 3);
    assert Rest(ops, wants, 1) == OpDispatches(ops, wants, 1, false) + Rest(ops, wants, 2);
  }
}
