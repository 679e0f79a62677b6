/** What a GPU may do with a recorded command buffer. */
module GpuExecution {

  // A recording is a list of dispatches, each possibly preceded by a global
  // compute-to-compute barrier.  A dispatch is a list of micro-steps; each one
  // sees the buffers the dispatch declared (old contents of its written buffers
  // included, so partial and in-place writes are covered) and updates buffers it
  // declared as written.  Between two barriers the micro-steps of different
  // dispatches interleave freely.
  //
  // The main theorem (`SafeIffSeparated`) characterises the fence placements
  // under which every interleaving of every program ends as the in-order run.

  /** A buffer handle, or one byte of the slot's split-K scratch buffer. */
  datatype Loc = Buffer(handle: nat) | ScratchByte(addr: nat)

  type Contents = seq<int>
  type Mem = map<Loc, Contents>
  type Locals = seq<int>

  datatype Access = Access(loads: set<Loc>, stores: set<Loc>)

  /** RAW, WAW or WAR between an earlier access `a` and a later access `b`. */
  ghost predicate Conflicts(a: Access, b: Access) {
    a.stores * (b.loads + b.stores) != {} || a.loads * b.stores != {}
  }

  datatype View = View(locals: Locals, mem: Mem)
  datatype Effect = Effect(locals: Locals, out: Mem)

  /** One micro-step as the graph of its function; a missing view has no effect. */
  type Micro = imap<View, Effect>

  datatype Kernel = Kernel(access: Access, micro: seq<Micro>)

  ghost function Restrict(m: Mem, s: set<Loc>): Mem {
    map x | x in m && x in s :: m[x]
  }

  /** A micro-step sees only declared buffers and changes only written ones. */
  ghost function Step(k: Kernel, p: nat, l: Locals, m: Mem): View
    requires p < |k.micro|
  {
    var v := View(l, Restrict(m, k.access.loads + k.access.stores));
    if v in k.micro[p] then
      View(k.micro[p][v].locals, m + Restrict(k.micro[p][v].out, k.access.stores))
    else View(l, m)
  }

  /** The first `p` micro-steps of `k` on memory `m`. */
  ghost function RunSteps(k: Kernel, p: nat, m: Mem): View
    requires p <= |k.micro|
  {
    if p == 0 then View([], m)
    else var v := RunSteps(k, p - 1, m); Step(k, p - 1, v.locals, v.mem)
  }

  /** The reference meaning of a recording: its dispatches one after another. */
  ghost function InOrder(ks: seq<Kernel>, m: Mem): Mem {
    FirstInOrder(ks, |ks|, m)
  }

  ghost function FirstInOrder(ks: seq<Kernel>, n: nat, m: Mem): Mem
    requires n <= |ks|
  {
    if n == 0 then m else RunSteps(ks[n - 1], |ks[n - 1].micro|, FirstInOrder(ks, n - 1, m)).mem
  }

  datatype Config = Config(mem: Mem, locals: seq<Locals>, pcs: seq<nat>)

  ghost predicate Fits(ks: seq<Kernel>, c: Config) {
    && |c.locals| == |c.pcs| == |ks|
    && forall i :: 0 <= i < |ks| ==> c.pcs[i] <= |ks[i].micro|
  }

  ghost function Initial(ks: seq<Kernel>, m: Mem): (c: Config)
    ensures Fits(ks, c)
  {
    Config(m, seq(|ks|, i => []), seq(|ks|, i => 0))
  }

  /** A barrier stands somewhere between dispatch `i` and the later dispatch `j`. */
  ghost predicate Fenced(fence: seq<bool>, i: nat, j: nat)
    requires i < j < |fence|
  {
    exists k :: i < k <= j && fence[k]
  }

  /** Dispatch `i` may take a micro-step: everything fenced off before it is done. */
  ghost predicate Enabled(ks: seq<Kernel>, fence: seq<bool>, c: Config, i: nat)
    requires Fits(ks, c) && |fence| == |ks|
  {
    && i < |ks|
    && c.pcs[i] < |ks[i].micro|
    && forall j :: 0 <= j < i && Fenced(fence, j, i) ==> c.pcs[j] == |ks[j].micro|
  }

  ghost function Fire(ks: seq<Kernel>, c: Config, i: nat): (c': Config)
    requires Fits(ks, c) && i < |ks| && c.pcs[i] < |ks[i].micro|
    ensures Fits(ks, c')
  {
    var v := Step(ks[i], c.pcs[i], c.locals[i], c.mem);
    Config(v.mem, c.locals[i := v.locals], c.pcs[i := c.pcs[i] + 1])
  }

  /** `sched` is a run from `c` that respects the barriers and completes every
      dispatch, ending in memory `m`. */
  ghost predicate RunsTo(ks: seq<Kernel>, fence: seq<bool>, c: Config, sched: seq<nat>, m: Mem)
    requires Fits(ks, c) && |fence| == |ks|
    decreases |sched|
  {
    if sched == [] then
      m == c.mem && forall i :: 0 <= i < |ks| ==> c.pcs[i] == |ks[i].micro|
    else
      Enabled(ks, fence, c, sched[0]) && RunsTo(ks, fence, Fire(ks, c, sched[0]), sched[1..], m)
  }

  /** The barrier placement separates every conflicting pair of dispatches. */
  ghost predicate Separates(acc: seq<Access>, fence: seq<bool>)
    requires |fence| == |acc|
  {
    forall i, j :: 0 <= i < j < |acc| && Conflicts(acc[i], acc[j]) ==> Fenced(fence, i, j)
  }

  ghost predicate Uses(ks: seq<Kernel>, acc: seq<Access>) {
    |ks| == |acc| && forall i :: 0 <= i < |ks| ==> ks[i].access == acc[i]
  }

  /** Whatever the dispatches compute within their declared accesses, every
      complete interleaving ends in the in-order memory. */
  ghost predicate Safe(acc: seq<Access>, fence: seq<bool>)
    requires |fence| == |acc|
  {
    forall ks: seq<Kernel>, sched: seq<nat>, m: Mem, m': Mem ::
      Uses(ks, acc) && RunsTo(ks, fence, Initial(ks, m), sched, m') ==> m' == InOrder(ks, m)
  }

  // ---- Serial equivalence ------------------------------------------------

  /** In-order execution cut short: dispatch `i` runs only its first `pcs[i]`
      micro-steps.  Every reachable configuration has this form. */
  ghost function Canon(ks: seq<Kernel>, pcs: seq<nat>, m: Mem, n: nat): (c: (Mem, seq<Locals>))
    requires n <= |ks| == |pcs|
    requires forall i :: 0 <= i < |ks| ==> pcs[i] <= |ks[i].micro|
    ensures |c.1| == n
  {
    if n == 0 then (m, [])
    else
      var c := Canon(ks, pcs, m, n - 1);
      var v := RunSteps(ks[n - 1], pcs[n - 1], c.0);
      (v.mem, c.1 + [v.locals])
  }

  lemma UnseenStores(m: Mem, out: Mem, stores: set<Loc>, vis: set<Loc>)
    requires vis * stores == {}
    ensures Restrict(m + Restrict(out, stores), vis) == Restrict(m, vis)
  {
    forall x | x in vis ensures x !in stores {
      assert x in stores ==> x in vis * stores;
    }
  }

  lemma StoresCommute(m: Mem, outA: Mem, a: set<Loc>, outB: Mem, b: set<Loc>)
    requires a * b == {}
    ensures m + Restrict(outA, a) + Restrict(outB, b) == m + Restrict(outB, b) + Restrict(outA, a)
  {
    forall x | x in a ensures x !in b {
      assert x in b ==> x in a * b;
    }
  }

  /** Micro-steps of two dispatches that do not conflict commute. */
  lemma StepsCommute(a: Kernel, p: nat, la: Locals, b: Kernel, q: nat, lb: Locals, m: Mem)
    requires p < |a.micro| && q < |b.micro|
    requires !Conflicts(a.access, b.access)
    ensures Step(a, p, la, Step(b, q, lb, m).mem).locals == Step(a, p, la, m).locals
    ensures Step(b, q, lb, Step(a, p, la, m).mem).locals == Step(b, q, lb, m).locals
    ensures Step(a, p, la, Step(b, q, lb, m).mem).mem == Step(b, q, lb, Step(a, p, la, m).mem).mem
  {
    var visA, visB := a.access.loads + a.access.stores, b.access.loads + b.access.stores;
    assert visA * b.access.stores == {} && visB * a.access.stores == {};
    var va, vb := View(la, Restrict(m, visA)), View(lb, Restrict(m, visB));
    var outA := if va in a.micro[p] then a.micro[p][va].out else map[];
    var outB := if vb in b.micro[q] then b.micro[q][vb].out else map[];
    UnseenStores(m, outB, b.access.stores, visA);
    UnseenStores(m, outA, a.access.stores, visB);
    StoresCommute(m, outA, a.access.stores, outB, b.access.stores);
    assert Step(a, p, la, m).mem == m + Restrict(outA, a.access.stores);
    assert Step(b, q, lb, m).mem == m + Restrict(outB, b.access.stores);
  }

  /** A micro-step of `a` moves across a whole prefix of a non-conflicting `b`. */
  lemma {:induction false} StepCommutesWithRun(a: Kernel, p: nat, la: Locals, b: Kernel, q: nat, m: Mem)
    requires p < |a.micro| && q <= |b.micro|
    requires !Conflicts(a.access, b.access)
    ensures Step(a, p, la, RunSteps(b, q, m).mem).locals == Step(a, p, la, m).locals
    ensures RunSteps(b, q, Step(a, p, la, m).mem).locals == RunSteps(b, q, m).locals
    ensures Step(a, p, la, RunSteps(b, q, m).mem).mem == RunSteps(b, q, Step(a, p, la, m).mem).mem
  {
    if q > 0 {
      StepCommutesWithRun(a, p, la, b, q - 1, m);
      var v := RunSteps(b, q - 1, m);
      StepsCommute(a, p, la, b, q - 1, v.locals, v.mem);
    }
  }

  lemma {:induction false} CanonLocal(ks: seq<Kernel>, pcs: seq<nat>, pcs': seq<nat>, m: Mem, n: nat)
    requires n <= |ks| == |pcs| == |pcs'|
    requires forall i :: 0 <= i < |ks| ==> pcs[i] <= |ks[i].micro| && pcs'[i] <= |ks[i].micro|
    requires forall i :: 0 <= i < n ==> pcs[i] == pcs'[i]
    ensures Canon(ks, pcs, m, n) == Canon(ks, pcs', m, n)
  {
    if n > 0 { CanonLocal(ks, pcs, pcs', m, n - 1); }
  }

  ghost function FireCanon(ks: seq<Kernel>, pcs: seq<nat>, c: (Mem, seq<Locals>), i: nat): (Mem, seq<Locals>)
    requires i < |c.1| && i < |ks| == |pcs| && pcs[i] < |ks[i].micro|
  {
    var v := Step(ks[i], pcs[i], c.1[i], c.0);
    (v.mem, c.1[i := v.locals])
  }

  lemma FireLast(ks: seq<Kernel>, pcs: seq<nat>, m: Mem, i: nat)
    requires i < |ks| == |pcs|
    requires forall j :: 0 <= j < |ks| ==> pcs[j] <= |ks[j].micro|
    requires pcs[i] < |ks[i].micro|
    ensures Canon(ks, pcs[i := pcs[i] + 1], m, i + 1) == FireCanon(ks, pcs, Canon(ks, pcs, m, i + 1), i)
  {
    var pcs' := pcs[i := pcs[i] + 1];
    CanonLocal(ks, pcs, pcs', m, i);
    var c := Canon(ks, pcs, m, i);
    var w := RunSteps(ks[i], pcs[i], c.0);
    var v := Step(ks[i], pcs[i], w.locals, w.mem);
    assert RunSteps(ks[i], pcs'[i], c.0) == v;
    assert (c.1 + [w.locals])[i := v.locals] == c.1 + [v.locals];
  }

  /** Firing dispatch `i` late is the same as having run it in order, provided
      no later dispatch that has already started conflicts with it. */
  lemma {:induction false} FireIntoCanon(ks: seq<Kernel>, pcs: seq<nat>, m: Mem, i: nat, n: nat)
    requires i < n <= |ks| == |pcs|
    requires forall j :: 0 <= j < |ks| ==> pcs[j] <= |ks[j].micro|
    requires pcs[i] < |ks[i].micro|
    requires forall j :: i < j < n && pcs[j] > 0 ==> !Conflicts(ks[i].access, ks[j].access)
    ensures Canon(ks, pcs[i := pcs[i] + 1], m, n) == FireCanon(ks, pcs, Canon(ks, pcs, m, n), i)
  {
    if n == i + 1 {
      FireLast(ks, pcs, m, i);
    } else {
      FireIntoCanon(ks, pcs, m, i, n - 1);
      var c := Canon(ks, pcs, m, n - 1);
      var k, q := ks[n - 1], pcs[n - 1];
      var v := Step(ks[i], pcs[i], c.1[i], c.0);
      var w := RunSteps(k, q, c.0);
      if q > 0 {
        StepCommutesWithRun(ks[i], pcs[i], c.1[i], k, q, c.0);
      }
      assert (c.1 + [w.locals])[i := v.locals] == c.1[i := v.locals] + [w.locals];
    }
  }

  lemma {:induction false} CanonInitial(ks: seq<Kernel>, m: Mem, n: nat)
    requires n <= |ks|
    ensures Canon(ks, Initial(ks, m).pcs, m, n) == (m, Initial(ks, m).locals[..n])
  {
    var c := Initial(ks, m);
    if n > 0 {
      CanonInitial(ks, m, n - 1);
      assert c.locals[..n] == c.locals[..n - 1] + [[]];
    }
  }

  lemma {:induction false} CanonComplete(ks: seq<Kernel>, pcs: seq<nat>, m: Mem, n: nat)
    requires n <= |ks| == |pcs|
    requires forall i :: 0 <= i < |ks| ==> pcs[i] == |ks[i].micro|
    ensures Canon(ks, pcs, m, n).0 == FirstInOrder(ks, n, m)
  {
    if n > 0 { CanonComplete(ks, pcs, m, n - 1); }
  }

  /** What the barriers guarantee of every reachable configuration: a dispatch
      has started only if everything fenced off before it has finished. */
  ghost predicate Ordered(ks: seq<Kernel>, fence: seq<bool>, c: Config)
    requires Fits(ks, c) && |fence| == |ks|
  {
    forall i, j :: 0 <= i < j < |ks| && Fenced(fence, i, j) && c.pcs[j] > 0 ==> c.pcs[i] == |ks[i].micro|
  }

  /** An enabled dispatch conflicts with no later one that has started. */
  lemma NoOvertaking(ks: seq<Kernel>, acc: seq<Access>, fence: seq<bool>, c: Config, i: nat)
    requires Fits(ks, c) && |fence| == |ks| && Uses(ks, acc) && Separates(acc, fence)
    requires Ordered(ks, fence, c) && Enabled(ks, fence, c, i)
    ensures forall j :: i < j < |ks| && c.pcs[j] > 0 ==> !Conflicts(ks[i].access, ks[j].access)
    ensures Ordered(ks, fence, Fire(ks, c, i))
  {
    forall j | i < j < |ks| && c.pcs[j] > 0
      ensures !Conflicts(ks[i].access, ks[j].access)
    {
      assert !Fenced(fence, i, j);
      assert !Conflicts(acc[i], acc[j]);
    }
  }

  lemma {:induction false} RunIsSerial(ks: seq<Kernel>, acc: seq<Access>, fence: seq<bool>, m: Mem, c: Config,
                                       sched: seq<nat>, m': Mem)
    requires Fits(ks, c) && |fence| == |ks| && Uses(ks, acc) && Separates(acc, fence)
    requires Ordered(ks, fence, c)
    requires Canon(ks, c.pcs, m, |ks|) == (c.mem, c.locals)
    requires RunsTo(ks, fence, c, sched, m')
    ensures m' == InOrder(ks, m)
    decreases |sched|
  {
    if sched == [] {
      CanonComplete(ks, c.pcs, m, |ks|);
    } else {
      var i := sched[0];
      NoOvertaking(ks, acc, fence, c, i);
      FireIntoCanon(ks, c.pcs, m, i, |ks|);
      RunIsSerial(ks, acc, fence, m, Fire(ks, c, i), sched[1..], m');
    }
  }

  /** Serial equivalence: a placement that separates every conflict is safe. */
  lemma SeparatedIsSafe(acc: seq<Access>, fence: seq<bool>)
    requires |fence| == |acc| && Separates(acc, fence)
    ensures Safe(acc, fence)
  {
    forall ks: seq<Kernel>, sched: seq<nat>, m: Mem, m': Mem |
      Uses(ks, acc) && RunsTo(ks, fence, Initial(ks, m), sched, m')
      ensures m' == InOrder(ks, m)
    {
      CanonInitial(ks, m, |ks|);
      var c := Initial(ks, m);
      assert c.locals[..|ks|] == c.locals;
      RunIsSerial(ks, acc, fence, m, c, sched, m');
    }
  }

  // ---- Necessity ---------------------------------------------------------

  ghost predicate AnyView(v: View) { true }

  /** Writes the word 1 to `x`. */
  ghost function Mark(a: Access, x: Loc): Kernel {
    Kernel(a, [imap v: View | AnyView(v) :: Effect([], map[x := [1]])])
  }

  /** Writes to `y` what it sees at `x`, followed by the word 2. */
  ghost function Extend(a: Access, x: Loc, y: Loc): Kernel {
    Kernel(a, [imap v: View | AnyView(v) :: Effect([], map[y := At(v.mem, x) + [2]])])
  }

  ghost function At(m: Mem, x: Loc): Contents {
    if x in m then m[x] else []
  }

  lemma MarkStep(a: Access, x: Loc, m: Mem)
    requires x in a.stores
    ensures Step(Mark(a, x), 0, [], m).mem == m[x := [1]]
  {
    assert AnyView(View([], Restrict(m, a.loads + a.stores)));
  }

  lemma ExtendStep(a: Access, x: Loc, y: Loc, m: Mem)
    requires x in a.loads + a.stores && y in a.stores
    ensures Step(Extend(a, x, y), 0, [], m).mem == m[y := At(m, x) + [2]]
  {
    assert AnyView(View([], Restrict(m, a.loads + a.stores)));
  }

  lemma MarkAndExtendClash(a: Access, b: Access, x: Loc, y: Loc)
    requires x in a.stores && x in b.loads + b.stores && y in b.stores
    ensures Step(Extend(b, x, y), 0, [], Step(Mark(a, x), 0, [], map[]).mem).mem !=
            Step(Mark(a, x), 0, [], Step(Extend(b, x, y), 0, [], map[]).mem).mem
  {
    var none: Mem := map[];
    MarkStep(a, x, none);
    ExtendStep(b, x, y, none[x := [1]]);
    var markFirst := Step(Extend(b, x, y), 0, [], none[x := [1]]).mem;
    assert markFirst[y] == [1, 2];
    ExtendStep(b, x, y, none);
    var m := none[y := At(none, x) + [2]];
    assert m[y] == [2];
    MarkStep(a, x, m);
    assert m[x := [1]][y] != [1, 2];
  }

  ghost function TwoActive(acc: seq<Access>, i: nat, ki: Kernel, j: nat, kj: Kernel): (ks: seq<Kernel>)
    ensures |ks| == |acc|
  {
    seq(|acc|, n requires 0 <= n < |acc| => if n == i then ki else if n == j then kj else Kernel(acc[n], []))
  }

  lemma {:induction false} InOrderTwoActive(acc: seq<Access>, i: nat, ki: Kernel, j: nat, kj: Kernel, n: nat)
    requires i < j < |acc| && n <= |acc|
    ensures FirstInOrder(TwoActive(acc, i, ki, j, kj), n, map[]) ==
            var m1 := if i < n then RunSteps(ki, |ki.micro|, map[]).mem else map[];
            if j < n then RunSteps(kj, |kj.micro|, m1).mem else m1
  {
    if n > 0 { InOrderTwoActive(acc, i, ki, j, kj, n - 1); }
  }

  /** With no barrier between them, the later of two dispatches may run first. */
  lemma LaterFirst(acc: seq<Access>, fence: seq<bool>, i: nat, ki: Kernel, j: nat, kj: Kernel)
    requires |fence| == |acc| && i < j < |acc| && !Fenced(fence, i, j)
    requires |ki.micro| == |kj.micro| == 1
    ensures var ks := TwoActive(acc, i, ki, j, kj);
            RunsTo(ks, fence, Initial(ks, map[]), [j, i],
                   Step(ki, 0, [], Step(kj, 0, [], map[]).mem).mem)
  {
    var ks := TwoActive(acc, i, ki, j, kj);
    var c0 := Initial(ks, map[]);
    var c1 := Fire(ks, c0, j);
    var c2 := Fire(ks, c1, i);
    assert Enabled(ks, fence, c0, j);
    assert Enabled(ks, fence, c1, i);
    assert [j, i][1..] == [i] && [i][1..] == [];
    assert RunsTo(ks, fence, c2, [], c2.mem);
    assert RunsTo(ks, fence, c1, [i], c2.mem);
  }

  /** Two one-step dispatches that do not commute from empty memory and have
      no barrier between them make the placement unsafe. */
  lemma OrderMatters(acc: seq<Access>, fence: seq<bool>, i: nat, ki: Kernel, j: nat, kj: Kernel)
    requires |fence| == |acc| && i < j < |acc| && !Fenced(fence, i, j)
    requires ki.access == acc[i] && kj.access == acc[j]
    requires |ki.micro| == |kj.micro| == 1
    requires Step(kj, 0, [], Step(ki, 0, [], map[]).mem).mem != Step(ki, 0, [], Step(kj, 0, [], map[]).mem).mem
    ensures !Safe(acc, fence)
  {
    var ks := TwoActive(acc, i, ki, j, kj);
    LaterFirst(acc, fence, i, ki, j, kj);
    InOrderTwoActive(acc, i, ki, j, kj, |acc|);
    assert Uses(ks, acc);
    var m1 := Step(ki, 0, [], map[]).mem;
    RunOne(ki, map[]);
    RunOne(kj, m1);
  }

  lemma RunOne(k: Kernel, m: Mem)
    requires |k.micro| == 1
    ensures RunSteps(k, 1, m) == Step(k, 0, [], m)
  {
    assert RunSteps(k, 0, m) == View([], m);
  }

  /** A conflict left unseparated shows: some program and interleaving differ
      from the in-order run. */
  lemma UnseparatedIsUnsafe(acc: seq<Access>, fence: seq<bool>, i: nat, j: nat)
    requires |fence| == |acc| && i < j < |acc|
    requires Conflicts(acc[i], acc[j]) && !Fenced(fence, i, j)
    requires acc[i].stores != {} && acc[j].stores != {}
    ensures !Safe(acc, fence)
  {
    if acc[i].stores * (acc[j].loads + acc[j].stores) != {} {
      var x :| x in acc[i].stores * (acc[j].loads + acc[j].stores);
      var y :| y in acc[j].stores;
      MarkAndExtendClash(acc[i], acc[j], x, y);
      OrderMatters(acc, fence, i, Mark(acc[i], x), j, Extend(acc[j], x, y));
    } else {
      var x :| x in acc[i].loads * acc[j].stores;
      var y :| y in acc[i].stores;
      MarkAndExtendClash(acc[j], acc[i], x, y);
      OrderMatters(acc, fence, i, Extend(acc[i], x, y), j, Mark(acc[j], x));
    }
  }

  /** The exact safety condition: a placement is safe for every program with
      the given accesses if and only if it separates every conflicting pair.
      (Every recorded dispatch writes something.) */
  lemma SafeIffSeparated(acc: seq<Access>, fence: seq<bool>)
    requires |fence| == |acc|
    requires forall i :: 0 <= i < |acc| ==> acc[i].stores != {}
    ensures Safe(acc, fence) <==> Separates(acc, fence)
  {
    if Separates(acc, fence) {
      SeparatedIsSafe(acc, fence);
    } else {
      var i, j :| 0 <= i < j < |acc| && Conflicts(acc[i], acc[j]) && !Fenced(fence, i, j);
      UnseparatedIsUnsafe(acc, fence, i, j);
    }
  }

  /** No deadlock: while some dispatch is unfinished, some dispatch is enabled. */
  lemma SomeDispatchEnabled(ks: seq<Kernel>, fence: seq<bool>, c: Config, i: nat)
    requires Fits(ks, c) && |fence| == |ks|
    requires i < |ks| && c.pcs[i] < |ks[i].micro|
    ensures exists j :: 0 <= j <= i && Enabled(ks, fence, c, j)
    decreases i
  {
    if j :| 0 <= j < i && c.pcs[j] < |ks[j].micro| {
      SomeDispatchEnabled(ks, fence, c, j);
    } else {
      assert Enabled(ks, fence, c, i);
    }
  }

  /** Micro-steps that the first `n` dispatches have still to take. */
  ghost function StepsLeft(ks: seq<Kernel>, pcs: seq<nat>, n: nat): nat
    requires n <= |ks| == |pcs| && forall i :: 0 <= i < |ks| ==> pcs[i] <= |ks[i].micro|
  {
    if n == 0 then 0 else StepsLeft(ks, pcs, n - 1) + (|ks[n - 1].micro| - pcs[n - 1])
  }

  lemma {:induction false} FireTakesOne(ks: seq<Kernel>, pcs: seq<nat>, i: nat, n: nat)
    requires n <= |ks| == |pcs| && forall j :: 0 <= j < |ks| ==> pcs[j] <= |ks[j].micro|
    requires i < |ks| && pcs[i] < |ks[i].micro|
    ensures StepsLeft(ks, pcs[i := pcs[i] + 1], n) == StepsLeft(ks, pcs, n) - if i < n then 1 else 0
  {
    if n > 0 { FireTakesOne(ks, pcs, i, n - 1); }
  }

  /** So every recording can be completed from every configuration. */
  lemma {:induction false} RunsComplete(ks: seq<Kernel>, fence: seq<bool>, c: Config)
    returns (sched: seq<nat>, end: Mem)
    requires Fits(ks, c) && |fence| == |ks|
    ensures RunsTo(ks, fence, c, sched, end)
    decreases StepsLeft(ks, c.pcs, |ks|)
  {
    if i :| 0 <= i < |ks| && c.pcs[i] < |ks[i].micro| {
      SomeDispatchEnabled(ks, fence, c, i);
      var j :| 0 <= j <= i && Enabled(ks, fence, c, j);
      FireTakesOne(ks, c.pcs, j, |ks|);
      var rest;
      rest, end := RunsComplete(ks, fence, Fire(ks, c, j));
      sched := [j] + rest;
      assert sched[1..] == rest;
    } else {
      sched, end := [], c.mem;
    }
  }
}
