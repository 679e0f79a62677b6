/** Kernels that implement, on real memory, dispatches given on symbolic memory. */
module Kernels {
  import opened GpuExecution

  // S is a symbolic memory, T names its tensors; `layout` represents the one memory in the
  // other, and same(s, s', t) says that tensor t contains the same in both.

  /** The dispatches fs one after the other. */
  function Perform<S>(fs: seq<S -> S>, n: nat, s: S): S
    requires n <= |fs|
  {
    if n == 0 then s else fs[n - 1](Perform(fs, n - 1, s))
  }

  lemma {:induction false} PerformLocal<S>(fs: seq<S -> S>, gs: seq<S -> S>, n: nat, s: S)
    requires n <= |fs| && n <= |gs| && forall i :: 0 <= i < n ==> fs[i] == gs[i]
    ensures Perform(fs, n, s) == Perform(gs, n, s)
  {
    if n > 0 { PerformLocal(fs, gs, n - 1, s); }
  }

  lemma PerformOne<S>(fs: seq<S -> S>, f: S -> S, s: S)
    ensures Perform(fs + [f], |fs| + 1, s) == f(Perform(fs, |fs|, s))
  {
    PerformLocal(fs, fs + [f], |fs|, s);
  }

  /** A kernel, any list of micro-steps, that run alone does to real memory what `f` does to
      symbolic memory. */
  ghost predicate Implements<S(!new)>(f: S -> S, k: Kernel, layout: S -> Mem) {
    forall s: S {:trigger f(s)} :: RunSteps(k, |k.micro|, layout(s)).mem == layout(f(s))
  }

  ghost predicate AllImplement<S(!new)>(fs: seq<S -> S>, ks: seq<Kernel>, layout: S -> Mem) {
    |ks| == |fs| && forall i :: 0 <= i < |fs| ==> Implements(fs[i], ks[i], layout)
  }

  lemma {:induction false} InOrderPerforms<S(!new)>(fs: seq<S -> S>, ks: seq<Kernel>, layout: S -> Mem, s: S, n: nat)
    requires AllImplement(fs, ks, layout) && n <= |fs|
    ensures FirstInOrder(ks, n, layout(s)) == layout(Perform(fs, n, s))
  {
    if n > 0 {
      InOrderPerforms(fs, ks, layout, s, n - 1);
      assert Implements(fs[n - 1], ks[n - 1], layout);
    }
  }

  /** Whatever kernels implement the dispatches within the accesses, every interleaving that
      a safe barrier placement allows performs the dispatches in order. */
  lemma RunPerforms<S(!new)>(fs: seq<S -> S>, acc: seq<Access>, fence: seq<bool>, layout: S -> Mem, ks: seq<Kernel>,
                             s: S, sched: seq<nat>, end: Mem)
    requires AllImplement(fs, ks, layout) && Uses(ks, acc) && |fence| == |acc| && Safe(acc, fence)
    requires RunsTo(ks, fence, Initial(ks, layout(s)), sched, end)
    ensures end == layout(Perform(fs, |fs|, s))
  {
    InOrderPerforms(fs, ks, layout, s, |fs|);
  }

  // ---- There are such kernels --------------------------------------------

  // Real memory is finite, so it represents finitely many tensors: those in `ts`, each at
  // its own location.

  ghost predicate AgreeOn<S(!new), T(!new)>(ts: set<T>, at: T -> Loc, same: (S, S, T) -> bool, xs: set<Loc>, s: S,
                                            s': S)
  {
    forall t: T :: t in ts && at(t) in xs ==> same(s, s', t)
  }

  /** `f` changes only what `a` stores, and what it leaves there depends only on what `a`
      loads or stores. */
  ghost predicate Framed<S(!new), T(!new)>(f: S -> S, a: Access, ts: set<T>, at: T -> Loc, same: (S, S, T) -> bool) {
    && (forall s: S, t: T :: t in ts && at(t) !in a.stores ==> same(s, f(s), t))
    && (forall s: S, s': S, t: T ::
          t in ts && at(t) in a.stores && AgreeOn(ts, at, same, a.loads + a.stores, s, s') ==> same(f(s), f(s'), t))
  }

  /** Real memory holds one location per tensor, which says exactly what the tensor contains. */
  ghost predicate Faithful<S(!new), T(!new)>(layout: S -> Mem, ts: set<T>, at: T -> Loc, same: (S, S, T) -> bool) {
    && (forall s: S, t: T :: t in ts ==> at(t) in layout(s))
    && (forall s: S, x: Loc :: x in layout(s) ==> exists t: T :: t in ts && x == at(t))
    && (forall s: S, s': S, t: T {:trigger same(s, s', t)} :: t in ts ==>
          (layout(s)[at(t)] == layout(s')[at(t)] <==> same(s, s', t)))
  }

  /** `v` shows what a dispatch with access `a` sees of memory `s`. */
  ghost predicate Sees<S>(a: Access, layout: S -> Mem, v: View, s: S) {
    v.mem == Restrict(layout(s), a.loads + a.stores)
  }

  ghost function Shown<S(!new)>(a: Access, layout: S -> Mem, v: View): (s: S)
    requires exists s: S :: Sees(a, layout, v, s)
    ensures Sees(a, layout, v, s)
  {
    var s: S :| Sees(a, layout, v, s);
    s
  }

  /** One micro-step that does what `f` does to some memory that looks the same. */
  ghost function KernelOf<S(!new)>(f: S -> S, a: Access, layout: S -> Mem): Kernel {
    Kernel(a, [imap v: View | exists s: S :: Sees(a, layout, v, s) :: Effect([], layout(f(Shown(a, layout, v))))])
  }

  lemma SeenAgree<S(!new), T(!new)>(layout: S -> Mem, ts: set<T>, at: T -> Loc, same: (S, S, T) -> bool, a: Access,
                                    s: S, s': S)
    requires Faithful(layout, ts, at, same)
    requires var vis := a.loads + a.stores; Restrict(layout(s), vis) == Restrict(layout(s'), vis)
    ensures AgreeOn(ts, at, same, a.loads + a.stores, s, s')
  {
    var vis := a.loads + a.stores;
    forall t: T | t in ts && at(t) in a.loads + a.stores ensures same(s, s', t) {
      var x := at(t);
      assert x in vis;
      assert layout(s)[x] == Restrict(layout(s), vis)[x] && layout(s')[x] == Restrict(layout(s'), vis)[x];
    }
  }

  /** Only the stored buffers need writing. */
  lemma WrittenBack<S(!new), T(!new)>(layout: S -> Mem, ts: set<T>, at: T -> Loc, same: (S, S, T) -> bool,
                                      a: Access, s: S, after: S, like: S)
    requires Faithful(layout, ts, at, same)
    requires forall t: T :: t in ts && at(t) in a.stores ==> same(like, after, t)
    requires forall t: T :: t in ts && at(t) !in a.stores ==> same(s, after, t)
    ensures layout(s) + Restrict(layout(like), a.stores) == layout(after)
  {
    var left, right := layout(s) + Restrict(layout(like), a.stores), layout(after);
    forall x | x in left || x in right ensures x in left && x in right && left[x] == right[x] {
      assert x in layout(s) || x in layout(like) || x in layout(after);
      var t: T :| t in ts && x == at(t);
      if at(t) in a.stores { assert same(like, after, t); } else { assert same(s, after, t); }
    }
  }

  lemma KernelImplements<S(!new), T(!new)>(f: S -> S, a: Access, layout: S -> Mem, ts: set<T>, at: T -> Loc,
                                           same: (S, S, T) -> bool)
    requires Framed(f, a, ts, at, same) && Faithful(layout, ts, at, same)
    ensures Implements(f, KernelOf(f, a, layout), layout)
  {
    var k := KernelOf(f, a, layout);
    forall s: S ensures RunSteps(k, |k.micro|, layout(s)).mem == layout(f(s)) {
      var v := View([], Restrict(layout(s), a.loads + a.stores));
      assert Sees(a, layout, v, s);
      var like := Shown(a, layout, v);
      SeenAgree(layout, ts, at, same, a, like, s);
      WrittenBack(layout, ts, at, same, a, s, f(s), f(like));
      assert RunSteps(k, 0, layout(s)) == View([], layout(s));
    }
  }

  ghost predicate AllFramed<S(!new), T(!new)>(fs: seq<S -> S>, acc: seq<Access>, ts: set<T>, at: T -> Loc,
                                              same: (S, S, T) -> bool)
  {
    |acc| == |fs| && forall i :: 0 <= i < |fs| ==> Framed(fs[i], acc[i], ts, at, same)
  }

  lemma AppendFramed<S(!new), T(!new)>(fs: seq<S -> S>, acc: seq<Access>, gs: seq<S -> S>, more: seq<Access>,
                                       ts: set<T>, at: T -> Loc, same: (S, S, T) -> bool)
    requires AllFramed(fs, acc, ts, at, same) && AllFramed(gs, more, ts, at, same)
    ensures AllFramed(fs + gs, acc + more, ts, at, same)
  {
    forall i | 0 <= i < |fs| + |gs| ensures Framed((fs + gs)[i], (acc + more)[i], ts, at, same) {
      assert i < |fs| ==> Framed(fs[i], acc[i], ts, at, same);
      assert i >= |fs| ==> Framed(gs[i - |fs|], more[i - |fs|], ts, at, same);
    }
  }

  /** Framed dispatches have kernels within their accesses, on every faithful layout. */
  lemma KernelsExist<S(!new), T(!new)>(fs: seq<S -> S>, acc: seq<Access>, layout: S -> Mem, ts: set<T>, at: T -> Loc,
                                       same: (S, S, T) -> bool)
    returns (ks: seq<Kernel>)
    requires AllFramed(fs, acc, ts, at, same) && Faithful(layout, ts, at, same)
    ensures AllImplement(fs, ks, layout) && Uses(ks, acc)
  {
    ks := seq(|fs|, i requires 0 <= i < |fs| => KernelOf(fs[i], acc[i], layout));
    forall i | 0 <= i < |fs| ensures Implements(fs[i], ks[i], layout) {
      KernelImplements(fs[i], acc[i], layout, ts, at, same);
    }
  }

  // ---- There are faithful layouts ----------------------------------------

  ghost predicate Distinct<T(!new)>(ts: set<T>, at: T -> Loc) {
    forall t, u :: t in ts && u in ts && at(t) == at(u) ==> t == u
  }

  ghost predicate Names<T(!new)>(ts: set<T>, at: T -> Loc, x: Loc, t: T) { t in ts && x == at(t) }

  ghost function NamedBy<T(!new)>(ts: set<T>, at: T -> Loc, x: Loc): (t: T)
    requires exists t: T :: Names(ts, at, x, t)
    ensures Names(ts, at, x, t)
  {
    var t: T :| Names(ts, at, x, t);
    t
  }

  ghost function Buffers<T(!new)>(ts: set<T>, at: T -> Loc): (xs: set<Loc>)
    ensures forall x :: x in xs <==> exists t: T :: Names(ts, at, x, t)
  {
    var xs := set t | t in ts :: at(t);
    assert forall t: T :: t in ts ==> Names(ts, at, at(t), t);
    xs
  }

  /** Each tensor's code in its own buffer. */
  ghost function Encoded<S, T(!new)>(ts: set<T>, at: T -> Loc, code: (S, T) -> Contents): S -> Mem {
    (s: S) => map x | x in Buffers(ts, at) :: code(s, NamedBy(ts, at, x))
  }

  lemma EncodedIsFaithful<S(!new), T(!new)>(ts: set<T>, at: T -> Loc, same: (S, S, T) -> bool,
                                            code: (S, T) -> Contents)
    requires Distinct(ts, at) && forall s: S, s': S, t: T :: code(s, t) == code(s', t) <==> same(s, s', t)
    ensures Faithful(Encoded(ts, at, code), ts, at, same)
  {
    var layout := Encoded(ts, at, code);
    forall s: S, t: T | t in ts ensures at(t) in layout(s) && layout(s)[at(t)] == code(s, t) {
      assert Names(ts, at, at(t), t);
      assert NamedBy(ts, at, at(t)) == t;
    }
    forall s: S, x: Loc | x in layout(s) ensures exists t: T :: t in ts && x == at(t) {
      assert Names(ts, at, x, NamedBy(ts, at, x));
    }
    forall s: S, s': S, t: T | t in ts
      ensures layout(s)[at(t)] == layout(s')[at(t)] <==> same(s, s', t)
    {
      assert code(s, t) == code(s', t) <==> same(s, s', t);
    }
  }

  function InBuffers<T>(name: T -> nat): T -> Loc { (t: T) => Buffer(name(t)) }

  /** Finitely many tensors can be given distinct buffers. */
  lemma {:induction false} NamesExist<T(!new)>(ts: set<T>) returns (name: T -> nat)
    ensures Distinct(ts, InBuffers(name)) && forall t :: t in ts ==> name(t) < |ts|
  {
    if ts == {} {
      name := _ => 0;
    } else {
      var last :| last in ts;
      var others := NamesExist(ts - {last});
      name := (t: T) => if t == last then |ts| - 1 else others(t);
      DistinctAfter(ts, last, others, name);
    }
  }

  lemma DistinctAfter<T(!new)>(ts: set<T>, last: T, others: T -> nat, name: T -> nat)
    requires last in ts && Distinct(ts - {last}, InBuffers(others)) && name(last) == |ts| - 1
    requires forall t :: t in ts - {last} ==> others(t) < |ts| - 1 && name(t) == others(t)
    ensures Distinct(ts, InBuffers(name))
  {
    forall t, u | t in ts && u in ts && InBuffers(name)(t) == InBuffers(name)(u) ensures t == u {
      assert t != last && u != last ==> InBuffers(others)(t) == InBuffers(others)(u);
    }
  }
}
