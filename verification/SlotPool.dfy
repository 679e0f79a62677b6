/** The executor's slot pool: a locked queue and a condition variable, under any
    interleaving of any number of threads. */
module SlotPool {

  type Slot = nat

  datatype Action = Acquire | Release

  /** Sleeping waits on the condition variable, Woken has been notified and must
      look at the queue again, NeedNotify has pushed a slot but not yet signalled. */
  datatype Phase = Ready | Sleeping | Woken | NeedNotify

  /** A thread about to do prog[pc]. */
  datatype Thread = Thread(prog: seq<Action>, pc: nat, held: seq<Slot>, phase: Phase)

  datatype State = State(pool: seq<Slot>, threads: seq<Thread>)

  /** One atomic step of thread `t`; a notification wakes `wakes`, if it wakes anyone. */
  datatype Label = Label(t: nat, wakes: nat)

  predicate Asleep(s: State, t: nat) { t < |s.threads| && s.threads[t].phase == Sleeping }

  ghost predicate SomeoneAsleep(s: State) { exists t: nat :: Asleep(s, t) }

  /** The thread stands before an acquire and is not asleep. */
  predicate Acquiring(th: Thread) {
    (th.phase == Ready || th.phase == Woken) && th.pc < |th.prog| && th.prog[th.pc] == Acquire
  }

  predicate Releasing(th: Thread) {
    th.phase == Ready && th.pc < |th.prog| && th.prog[th.pc] == Release && |th.held| > 0
  }

  /** Popping under the lock, or giving the lock up to sleep. */
  function AcquireStep(s: State, t: nat): State
    requires t < |s.threads|
  {
    var th := s.threads[t];
    if s.pool == [] then s.(threads := s.threads[t := th.(phase := Sleeping)])
    else State(s.pool[1..], s.threads[t := Thread(th.prog, th.pc + 1, th.held + [s.pool[0]], Ready)])
  }

  /** Pushing under the lock; the signal comes after the lock is gone. */
  function ReleaseStep(s: State, t: nat): State
    requires t < |s.threads| && |s.threads[t].held| > 0
  {
    var th := s.threads[t];
    var last := |th.held| - 1;
    State(s.pool + [th.held[last]], s.threads[t := Thread(th.prog, th.pc + 1, th.held[..last], NeedNotify)])
  }

  function Quiet(s: State, t: nat): State
    requires t < |s.threads|
  {
    s.(threads := s.threads[t := s.threads[t].(phase := Ready)])
  }

  /** Waking one sleeper. */
  function Wake(s: State, u: nat): State
    requires u < |s.threads|
  {
    s.(threads := s.threads[u := s.threads[u].(phase := Woken)])
  }

  /** notify_one: exactly one sleeper wakes if there is any. */
  ghost predicate NotifyStep(s: State, l: Label, s': State)
    requires l.t < |s.threads|
  {
    if SomeoneAsleep(s) then Asleep(s, l.wakes) && s' == Wake(Quiet(s, l.t), l.wakes)
    else s' == Quiet(s, l.t)
  }

  ghost predicate Step(s: State, l: Label, s': State) {
    && l.t < |s.threads|
    && var th := s.threads[l.t];
       || (Acquiring(th) && s' == AcquireStep(s, l.t))
       || (Releasing(th) && s' == ReleaseStep(s, l.t))
       || (th.phase == NeedNotify && NotifyStep(s, l, s'))
  }

  /** `run` starts in `s` and takes the labelled steps. */
  ghost predicate IsRun(run: seq<State>, labels: seq<Label>, n: nat) {
    && n < |run| && n <= |labels|
    && forall i: nat :: i < n ==> Step(run[i], labels[i], run[i + 1])
  }

  // ---- What the pool keeps -----------------------------------------------

  function Weigh(w: Thread -> nat, threads: seq<Thread>, n: nat): nat
    requires n <= |threads|
  {
    if n == 0 then 0 else Weigh(w, threads, n - 1) + w(threads[n - 1])
  }

  function HeldCount(x: Slot): Thread -> nat { (th: Thread) => multiset(th.held)[x] }

  /** How often slot `x` exists: in the pool or leased to some thread. */
  function Copies(s: State, x: Slot): nat {
    multiset(s.pool)[x] + Weigh(HeldCount(x), s.threads, |s.threads|)
  }

  /** Threads that will look at the pool, or signal, without being woken. */
  function Pends(th: Thread): nat { if th.phase == Woken || th.phase == NeedNotify then 1 else 0 }

  function Pending(s: State): nat { Weigh(Pends, s.threads, |s.threads|) }

  /** A thread that holds at most one lease at a time. */
  predicate SingleLease(th: Thread) {
    && |th.prog| % 2 == 0 && th.pc <= |th.prog|
    && (forall i :: 0 <= i < |th.prog| ==> th.prog[i] == if i % 2 == 0 then Acquire else Release)
    && |th.held| == th.pc % 2
    && (th.phase == Sleeping || th.phase == Woken ==> th.pc < |th.prog| && th.pc % 2 == 0)
    && (th.phase == NeedNotify ==> th.pc % 2 == 0)
  }

  ghost predicate NoLostWakeup(s: State) { SomeoneAsleep(s) ==> |s.pool| <= Pending(s) }

  ghost predicate Inv(s: State, slots: multiset<Slot>) {
    && (forall x: Slot :: Copies(s, x) == slots[x]) && NoLostWakeup(s)
    && forall t: nat :: t < |s.threads| ==> SingleLease(s.threads[t])
  }

  /** All slots in the pool, no thread started. */
  ghost predicate Initial(s: State) {
    forall t: nat :: t < |s.threads| ==>
      SingleLease(s.threads[t]) && s.threads[t].pc == 0 && s.threads[t].phase == Ready
  }

  lemma {:induction false} WeighUpdate(w: Thread -> nat, threads: seq<Thread>, t: nat, th: Thread, n: nat)
    requires t < |threads| && n <= |threads|
    ensures Weigh(w, threads[t := th], n) + (if t < n then w(threads[t]) else 0)
            == Weigh(w, threads, n) + (if t < n then w(th) else 0)
  {
    if n > 0 { WeighUpdate(w, threads, t, th, n - 1); }
  }

  lemma {:induction false} NothingWeighs(w: Thread -> nat, threads: seq<Thread>, n: nat)
    requires n <= |threads| && forall i: nat :: i < n ==> w(threads[i]) == 0
    ensures Weigh(w, threads, n) == 0
  {
    if n > 0 { NothingWeighs(w, threads, n - 1); }
  }

  lemma InitialInv(s: State)
    requires Initial(s)
    ensures Inv(s, multiset(s.pool))
  {
    forall x: Slot ensures Copies(s, x) == multiset(s.pool)[x] {
      NothingWeighs(HeldCount(x), s.threads, |s.threads|);
    }
  }

  // ---- Every step keeps them ---------------------------------------------

  lemma PopKeepsSlots(s: State, t: nat, x: Slot)
    requires t < |s.threads| && s.pool != []
    ensures Copies(AcquireStep(s, t), x) == Copies(s, x)
  {
    var th := s.threads[t];
    var th' := Thread(th.prog, th.pc + 1, th.held + [s.pool[0]], Ready);
    WeighUpdate(HeldCount(x), s.threads, t, th', |s.threads|);
    assert s.pool == [s.pool[0]] + s.pool[1..];
  }

  lemma PushKeepsSlots(s: State, t: nat, x: Slot)
    requires t < |s.threads| && |s.threads[t].held| > 0
    ensures Copies(ReleaseStep(s, t), x) == Copies(s, x)
  {
    var th := s.threads[t];
    var last := |th.held| - 1;
    WeighUpdate(HeldCount(x), s.threads, t, Thread(th.prog, th.pc + 1, th.held[..last], NeedNotify), |s.threads|);
    assert th.held == th.held[..last] + [th.held[last]];
  }

  lemma PhaseKeepsSlots(s: State, t: nat, p: Phase, x: Slot)
    requires t < |s.threads|
    ensures Copies(s.(threads := s.threads[t := s.threads[t].(phase := p)]), x) == Copies(s, x)
  {
    WeighUpdate(HeldCount(x), s.threads, t, s.threads[t].(phase := p), |s.threads|);
  }

  /** Conservation: every step moves slots between the pool and the leases without
      losing or duplicating one, whatever the threads do. */
  lemma StepKeepsSlots(s: State, l: Label, s': State, x: Slot)
    requires Step(s, l, s')
    ensures Copies(s', x) == Copies(s, x)
  {
    var th := s.threads[l.t];
    if Acquiring(th) && s' == AcquireStep(s, l.t) {
      if s.pool == [] { PhaseKeepsSlots(s, l.t, Sleeping, x); } else { PopKeepsSlots(s, l.t, x); }
    } else if Releasing(th) && s' == ReleaseStep(s, l.t) {
      PushKeepsSlots(s, l.t, x);
    } else {
      PhaseKeepsSlots(s, l.t, Ready, x);
      if SomeoneAsleep(s) { PhaseKeepsSlots(Quiet(s, l.t), l.wakes, Woken, x); }
    }
  }

  lemma StepKeepsSingleLease(s: State, l: Label, s': State)
    requires Step(s, l, s') && forall t: nat :: t < |s.threads| ==> SingleLease(s.threads[t])
    ensures forall t: nat :: t < |s'.threads| ==> SingleLease(s'.threads[t])
  {}

  /** Changing thread `t` to `th` changes the pending count by the difference. */
  lemma PendingUpdate(s: State, t: nat, th: Thread, pool: seq<Slot>)
    requires t < |s.threads|
    ensures Pending(State(pool, s.threads[t := th])) + Pends(s.threads[t]) == Pending(s) + Pends(th)
  {
    WeighUpdate(Pends, s.threads, t, th, |s.threads|);
  }

  lemma AcquireKeepsWakeups(s: State, t: nat)
    requires NoLostWakeup(s) && t < |s.threads| && Acquiring(s.threads[t])
    ensures NoLostWakeup(AcquireStep(s, t))
  {
    var th := s.threads[t];
    var s' := AcquireStep(s, t);
    PendingUpdate(s, t, s'.threads[t], s'.pool);
    if s.pool != [] && SomeoneAsleep(s') {
      var u: nat :| Asleep(s', u);
      assert Asleep(s, u);
    }
  }

  lemma ReleaseKeepsWakeups(s: State, t: nat)
    requires NoLostWakeup(s) && t < |s.threads| && Releasing(s.threads[t])
    ensures NoLostWakeup(ReleaseStep(s, t))
  {
    var s' := ReleaseStep(s, t);
    PendingUpdate(s, t, s'.threads[t], s'.pool);
    if SomeoneAsleep(s') {
      var u: nat :| Asleep(s', u);
      assert Asleep(s, u);
    }
  }

  lemma NotifyKeepsWakeups(s: State, l: Label, s': State)
    requires NoLostWakeup(s) && l.t < |s.threads| && s.threads[l.t].phase == NeedNotify && NotifyStep(s, l, s')
    ensures NoLostWakeup(s')
  {
    var q := Quiet(s, l.t);
    PendingUpdate(s, l.t, q.threads[l.t], s.pool);
    if SomeoneAsleep(s) {
      PendingUpdate(q, l.wakes, q.threads[l.wakes].(phase := Woken), q.pool);
    } else if SomeoneAsleep(s') {
      var u: nat :| Asleep(s', u);
      assert Asleep(s, u);
    }
  }

  /** Every step of threads that hold at most one lease keeps the invariant: the
      slots, no lost wakeup, single leases. */
  lemma StepKeepsInv(s: State, l: Label, s': State, slots: multiset<Slot>)
    requires Inv(s, slots) && Step(s, l, s')
    ensures Inv(s', slots)
  {
    StepKeepsSingleLease(s, l, s');
    forall x: Slot ensures Copies(s', x) == slots[x] { StepKeepsSlots(s, l, s', x); }
    var th := s.threads[l.t];
    if Acquiring(th) && s' == AcquireStep(s, l.t) { AcquireKeepsWakeups(s, l.t); }
    else if Releasing(th) && s' == ReleaseStep(s, l.t) { ReleaseKeepsWakeups(s, l.t); }
    else { NotifyKeepsWakeups(s, l, s'); }
  }

  /** The invariant holds in every reachable state. */
  lemma {:induction false} RunKeepsInv(run: seq<State>, labels: seq<Label>, n: nat)
    requires IsRun(run, labels, n) && Initial(run[0])
    ensures Inv(run[n], multiset(run[0].pool))
  {
    if n == 0 {
      InitialInv(run[0]);
    } else {
      RunKeepsInv(run, labels, n - 1);
      StepKeepsInv(run[n - 1], labels[n - 1], run[n], multiset(run[0].pool));
    }
  }

  // ---- No slot leased twice ----------------------------------------------

  lemma {:induction false} HolderWeighs(w: Thread -> nat, threads: seq<Thread>, t: nat, n: nat)
    requires t < n <= |threads|
    ensures Weigh(w, threads, n) >= w(threads[t])
  {
    if t < n - 1 { HolderWeighs(w, threads, t, n - 1); }
  }

  lemma {:induction false} TwoHoldersWeigh(w: Thread -> nat, threads: seq<Thread>, t: nat, u: nat, n: nat)
    requires t < u < n <= |threads|
    ensures Weigh(w, threads, n) >= w(threads[t]) + w(threads[u])
  {
    if u < n - 1 { TwoHoldersWeigh(w, threads, t, u, n - 1); } else { HolderWeighs(w, threads, t, n - 1); }
  }

  /** With distinct slots, a leased slot is neither in the pool nor leased to anyone else. */
  lemma LeaseIsExclusive(s: State, slots: multiset<Slot>, t: nat, x: Slot)
    requires Inv(s, slots) && slots[x] == 1 && t < |s.threads| && x in s.threads[t].held
    ensures x !in s.pool
    ensures forall u: nat :: u < |s.threads| && u != t ==> x !in s.threads[u].held
  {
    var w := HeldCount(x);
    assert Copies(s, x) == 1;
    assert w(s.threads[t]) >= 1;
    HolderWeighs(w, s.threads, t, |s.threads|);
    forall u: nat | u < |s.threads| && u != t ensures x !in s.threads[u].held {
      if t < u { TwoHoldersWeigh(w, s.threads, t, u, |s.threads|); }
      else { TwoHoldersWeigh(w, s.threads, u, t, |s.threads|); }
      assert w(s.threads[u]) == 0;
    }
  }

  // ---- No deadlock -------------------------------------------------------

  predicate Finished(th: Thread) { th.phase == Ready && th.pc == |th.prog| }

  /** The thread can take a step. */
  predicate Enabled(s: State, t: nat) {
    t < |s.threads|
    && (Acquiring(s.threads[t]) || Releasing(s.threads[t]) || s.threads[t].phase == NeedNotify)
  }

  lemma EnabledSteps(s: State, t: nat) returns (l: Label, s': State)
    requires Enabled(s, t)
    ensures Step(s, l, s') && l.t == t
  {
    var th := s.threads[t];
    l := Label(t, 0);
    if Acquiring(th) { s' := AcquireStep(s, t); }
    else if Releasing(th) { s' := ReleaseStep(s, t); }
    else if SomeoneAsleep(s) {
      var u: nat :| Asleep(s, u);
      l := Label(t, u);
      s' := Wake(Quiet(s, t), u);
    } else {
      s' := Quiet(s, t);
    }
  }

  /** A thread with a single lease is asleep, finished or able to step. */
  lemma SingleLeaseMoves(s: State, t: nat)
    requires t < |s.threads| && SingleLease(s.threads[t])
    ensures Enabled(s, t) || Asleep(s, t) || Finished(s.threads[t])
    ensures Asleep(s, t) || Finished(s.threads[t]) ==> s.threads[t].held == [] && Pends(s.threads[t]) == 0
  {}

  lemma SlotsAreSomewhere(s: State, slots: multiset<Slot>)
    requires Inv(s, slots) && |slots| > 0 && forall t: nat :: t < |s.threads| ==> s.threads[t].held == []
    ensures s.pool != []
  {
    var x: Slot :| x in slots;
    NothingWeighs(HeldCount(x), s.threads, |s.threads|);
    assert Copies(s, x) > 0;
  }

  /** No step is possible. */
  ghost predicate Stuck(s: State) { forall l: Label, s': State :: !Step(s, l, s') }

  /** In no reachable state is everyone asleep or finished with a sleeper left: if a
      thread sleeps, the slots it waits for are leased by a thread that can step,
      or a wakeup is on its way. One slot suffices. */
  lemma NoDeadlock(s: State, slots: multiset<Slot>, sleeper: nat)
    requires Inv(s, slots) && |slots| > 0 && Asleep(s, sleeper)
    ensures exists l: Label, s': State :: Step(s, l, s')
  {
    if t: nat :| Enabled(s, t) {
      var l, s' := EnabledSteps(s, t);
    } else {
      forall t: nat | t < |s.threads| ensures s.threads[t].held == [] && Pends(s.threads[t]) == 0 {
        SingleLeaseMoves(s, t);
      }
      NothingWeighs(Pends, s.threads, |s.threads|);
      assert s.pool == [];
      SlotsAreSomewhere(s, slots);
    }
  }

  // ---- Every run ends ----------------------------------------------------

  function PhaseCost(p: Phase): nat {
    match p case Sleeping => 0 case Woken => 1 case Ready => 2 case NeedNotify => 4
  }

  function Cost(th: Thread): nat {
    (if th.pc <= |th.prog| then 3 * (|th.prog| - th.pc) else 0) + PhaseCost(th.phase)
  }

  function TotalCost(s: State): nat { Weigh(Cost, s.threads, |s.threads|) }

  lemma CostUpdate(s: State, t: nat, th: Thread, pool: seq<Slot>)
    requires t < |s.threads|
    ensures TotalCost(State(pool, s.threads[t := th])) + Cost(s.threads[t]) == TotalCost(s) + Cost(th)
  {
    WeighUpdate(Cost, s.threads, t, th, |s.threads|);
  }

  /** Every step uses up cost: waking, failing to pop and sleeping again included. */
  lemma StepCosts(s: State, l: Label, s': State)
    requires Step(s, l, s')
    ensures TotalCost(s') < TotalCost(s)
  {
    var th := s.threads[l.t];
    if Acquiring(th) && s' == AcquireStep(s, l.t) {
      CostUpdate(s, l.t, s'.threads[l.t], s'.pool);
    } else if Releasing(th) && s' == ReleaseStep(s, l.t) {
      CostUpdate(s, l.t, s'.threads[l.t], s'.pool);
    } else {
      var q := Quiet(s, l.t);
      CostUpdate(s, l.t, q.threads[l.t], s.pool);
      if SomeoneAsleep(s) { CostUpdate(q, l.wakes, q.threads[l.wakes].(phase := Woken), q.pool); }
    }
  }

  /** No run is longer than the cost of its first state ... */
  lemma {:induction false} RunsAreBounded(run: seq<State>, labels: seq<Label>, n: nat)
    requires IsRun(run, labels, n)
    ensures n + TotalCost(run[n]) <= TotalCost(run[0])
  {
    if n > 0 {
      RunsAreBounded(run, labels, n - 1);
      StepCosts(run[n - 1], labels[n - 1], run[n]);
    }
  }

  /** ... and where a run cannot go on every thread has completed its program and
      every slot is back in the pool. */
  lemma StuckMeansFinished(s: State, slots: multiset<Slot>)
    requires Inv(s, slots) && |slots| > 0 && Stuck(s)
    ensures forall t: nat :: t < |s.threads| ==> Finished(s.threads[t])
    ensures multiset(s.pool) == slots
  {
    forall t: nat | t < |s.threads| ensures Finished(s.threads[t]) && s.threads[t].held == [] {
      SingleLeaseMoves(s, t);
      if Asleep(s, t) { NoDeadlock(s, slots, t); }
      if Enabled(s, t) { var l, s' := EnabledSteps(s, t); }
    }
    forall x: Slot ensures multiset(s.pool)[x] == slots[x] {
      NothingWeighs(HeldCount(x), s.threads, |s.threads|);
      assert Copies(s, x) == slots[x];
    }
  }

  // ---- Tuning with one slot ----------------------------------------------

  /** `n` leases one after the other: a probe takes one per split count and round. */
  function Leases(n: nat): (prog: seq<Action>)
    ensures |prog| == 2 * n && forall i :: 0 <= i < 2 * n ==> prog[i] == if i % 2 == 0 then Acquire else Release
  {
    seq(2 * n, i => if i % 2 == 0 then Acquire else Release)
  }

  /** tune_op: measure on one lease, drop it, then let the split-K probe take its own. */
  function Tuning(probes: nat): seq<Action> { [Acquire, Release] + Leases(probes) }

  /** The same without the early drop. */
  function NestedTuning(probes: nat): seq<Action> { [Acquire] + Leases(probes) + [Release] }

  lemma TuneHoldsOneLease(probes: nat)
    ensures SingleLease(Thread(Tuning(probes), 0, [], Ready))
  {}

  /** Keeping the measurement lease across the probe would deadlock a one-slot executor
      at the first probe lease, however many there are. */
  lemma NestedLeaseDeadlocks(x: Slot, probes: nat)
    requires probes > 0
    ensures var s0 := State([x], [Thread(NestedTuning(probes), 0, [], Ready)]);
            var s1 := State([], [Thread(NestedTuning(probes), 1, [x], Ready)]);
            var s2 := State([], [Thread(NestedTuning(probes), 1, [x], Sleeping)]);
            Step(s0, Label(0, 0), s1) && Step(s1, Label(0, 0), s2) && Stuck(s2) && Asleep(s2, 0)
  {
    var prog := NestedTuning(probes);
    assert prog[0] == Acquire && prog[1] == Leases(probes)[0] == Acquire;
    var s0 := State([x], [Thread(prog, 0, [], Ready)]);
    var s1 := AcquireStep(s0, 0);
    assert s1.pool == [] && s1.threads[0].held == [] + [x] == [x];
    assert s1.threads == [Thread(prog, 1, [x], Ready)];
  }
}
