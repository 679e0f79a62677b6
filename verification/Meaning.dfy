/** What dispatches may compute, and the accesses that describe it exactly. */
module Meaning {
  import opened GpuExecution
  import opened HazardGraph
  import opened Kernels

  // A dispatch computes each location it stores by an arbitrary function of everything it
  // names, old outputs, constant tables and weights included. From that alone follow the
  // locations it can change and those it can notice.

  /** Any function from an output and the contents of the operands to what is stored. */
  type Compute = imap<(Loc, seq<Contents>), Contents>

  ghost function Out(f: Compute, x: Loc, operands: seq<Contents>): Contents {
    if (x, operands) in f then f[(x, operands)] else []
  }

  /** A dispatch, for whatever it computes. */
  type Action = (Compute, Mem) -> Mem

  ghost function ReadAll(m: Mem, xs: seq<Loc>): (cs: seq<Contents>)
    ensures |cs| == |xs| && forall i :: 0 <= i < |xs| ==> cs[i] == At(m, xs[i])
  {
    seq(|xs|, i requires 0 <= i < |xs| => At(m, xs[i]))
  }

  /** A dispatch over `operands` that stores `outputs`. */
  ghost function Update(operands: seq<Loc>, outputs: set<Loc>, f: Compute, m: Mem): (after: Mem)
    ensures forall x :: At(after, x) == if x in outputs then Out(f, x, ReadAll(m, operands)) else At(m, x)
  {
    m + map x | x in outputs :: Out(f, x, ReadAll(m, operands))
  }

  /** Location `x` need not contain afterwards what it did before. */
  ghost predicate Changes(act: Action, x: Loc) {
    exists f: Compute, m: Mem :: At(act(f, m), x) != At(m, x)
  }

  /** What it leaves elsewhere can depend on what `x` contained. */
  ghost predicate Notices(act: Action, x: Loc) {
    exists f: Compute, m: Mem, c: Contents, y: Loc :: NoticesIn(act, x, f, m, c, y)
  }

  ghost predicate NoticesIn(act: Action, x: Loc, f: Compute, m: Mem, c: Contents, y: Loc) {
    y != x && At(act(f, m), y) != At(act(f, m[x := c]), y)
  }

  ghost function Acting(act: Action, f: Compute): Mem -> Mem { (m: Mem) => act(f, m) }

  ghost predicate SameAt(m: Mem, m': Mem, x: Loc) { At(m, x) == At(m', x) }

  function Here(x: Loc): Loc { x }

  /** Whatever it computes, a dispatch stays within `a`. */
  ghost predicate Frames(a: Access, act: Action) {
    forall f: Compute, ts: set<Loc> :: FramesOn(a, act, f, ts)
  }

  /** On every set of locations that has what the dispatch names. */
  ghost predicate FramesOn(a: Access, act: Action, f: Compute, ts: set<Loc>) {
    a.loads + a.stores <= ts ==> Framed(Acting(act, f), a, ts, Here, SameAt)
  }

  /** And `a` says no more than that. */
  ghost predicate Describes(a: Access, act: Action) {
    && Frames(a, act)
    && (forall x :: x in a.stores ==> Changes(act, x))
    && (forall x :: x in a.loads ==> Changes(act, x) || Notices(act, x))
  }

  lemma ChangedIsStored(a: Access, act: Action, x: Loc)
    requires Frames(a, act) && Changes(act, x)
    ensures x in a.stores
  {
    var f, m :| At(act(f, m), x) != At(m, x);
    var ts := a.loads + a.stores + {x};
    assert FramesOn(a, act, f, ts);
    assert Here(x) == x && Acting(act, f)(m) == act(f, m);
    assert x !in a.stores ==> SameAt(m, act(f, m), x);
  }

  /** What agrees on the accesses, and at `y`, still does at `y` afterwards. */
  lemma FrameAgrees(a: Access, act: Action, f: Compute, ts: set<Loc>, m: Mem, m': Mem, y: Loc)
    requires FramesOn(a, act, f, ts) && a.loads + a.stores <= ts && y in ts
    requires AgreeOn(ts, Here, SameAt, a.loads + a.stores, m, m') && SameAt(m, m', y)
    ensures SameAt(act(f, m), act(f, m'), y)
  {
    assert Here(y) == y && Acting(act, f)(m) == act(f, m) && Acting(act, f)(m') == act(f, m');
    if y in a.stores {
      assert SameAt(Acting(act, f)(m), Acting(act, f)(m'), y);
    } else {
      assert SameAt(m, Acting(act, f)(m), y) && SameAt(m', Acting(act, f)(m'), y);
    }
  }

  lemma NoticedIsNamed(a: Access, act: Action, x: Loc)
    requires Frames(a, act) && Notices(act, x)
    ensures x in a.loads + a.stores
  {
    var f, m, c, y :| NoticesIn(act, x, f, m, c, y);
    var ts := a.loads + a.stores + {x, y};
    assert FramesOn(a, act, f, ts);
    if x !in a.loads + a.stores {
      forall t | t in ts && Here(t) in a.loads + a.stores ensures SameAt(m, m[x := c], t) {}
      FrameAgrees(a, act, f, ts, m, m[x := c], y);
    }
  }

  /** The declared stores are exactly what can change, and the declared locations exactly
      what can change or be noticed. */
  lemma DescribesIff(a: Access, act: Action, x: Loc)
    requires Describes(a, act)
    ensures x in a.stores <==> Changes(act, x)
    ensures x in a.loads + a.stores <==> Changes(act, x) || Notices(act, x)
  {
    if Changes(act, x) { ChangedIsStored(a, act, x); }
    if Notices(act, x) { NoticedIsNamed(a, act, x); }
  }

  lemma SameFrames(a: Access, act: Action, other: Action)
    requires Frames(a, act) && forall f: Compute, m: Mem :: other(f, m) == act(f, m)
    ensures Frames(a, other)
  {
    forall f: Compute, ts: set<Loc> | a.loads + a.stores <= ts ensures FramesOn(a, other, f, ts) {
      assert FramesOn(a, act, f, ts);
      assert forall m: Mem :: Acting(other, f)(m) == Acting(act, f)(m);
    }
  }

  // ---- Interference ------------------------------------------------------

  ghost predicate InterfereAt(p: Action, q: Action, x: Loc) {
    || (Changes(p, x) && (Changes(q, x) || Notices(q, x)))
    || (Notices(p, x) && Changes(q, x))
  }

  /** One of two dispatches can change what the other can change or notice. */
  ghost predicate Interfere(p: Action, q: Action) { exists x: Loc :: InterfereAt(p, q, x) }

  lemma ConflictIffInterfere(a: Access, p: Action, b: Access, q: Action)
    requires Describes(a, p) && Describes(b, q)
    ensures Conflicts(a, b) <==> Interfere(p, q)
  {
    forall x: Loc ensures InterfereAt(p, q, x) <==>
                          (x in a.stores && x in b.loads + b.stores) || (x in a.loads && x in b.stores)
    {
      DescribesIff(a, p, x);
      DescribesIff(b, q, x);
    }
    if x :| x in a.stores * (b.loads + b.stores) { assert InterfereAt(p, q, x); }
    if x :| x in a.loads * b.stores { assert InterfereAt(p, q, x); }
    if x :| InterfereAt(p, q, x) {
      assert x in a.stores * (b.loads + b.stores) || x in a.loads * b.stores;
    }
  }

  ghost predicate AllDescribed(acc: seq<Access>, acts: seq<Action>) {
    |acts| == |acc| && forall i :: 0 <= i < |acc| ==> Describes(acc[i], acts[i])
  }

  lemma AppendDescribed(acc: seq<Access>, acts: seq<Action>, more: seq<Access>, rest: seq<Action>)
    requires AllDescribed(acc, acts) && AllDescribed(more, rest)
    ensures AllDescribed(acc + more, acts + rest)
  {}

  /** Dispatches that can interfere always have a barrier between them. */
  lemma InterferingAreFenced(acc: seq<Access>, acts: seq<Action>, i: nat, j: nat)
    requires AllDescribed(acc, acts) && i < j < |acc| && Interfere(acts[i], acts[j])
    ensures Fenced(Placement(acc), i, j)
  {
    ConflictIffInterfere(acc[i], acts[i], acc[j], acts[j]);
    GreedySeparates(acc);
  }

  // ---- Dispatches that store once ----------------------------------------

  ghost predicate Updates(act: Action, operands: seq<Loc>, outputs: set<Loc>) {
    forall f: Compute, m: Mem :: act(f, m) == Update(operands, outputs, f, m)
  }

  lemma UpdateFramed(a: Access, act: Action, operands: seq<Loc>)
    requires Updates(act, operands, a.stores) && forall x :: x in operands ==> x in a.loads + a.stores
    ensures Frames(a, act)
  {
    forall f: Compute, ts: set<Loc> | a.loads + a.stores <= ts ensures FramesOn(a, act, f, ts) {
      forall m: Mem, x: Loc | Here(x) !in a.stores ensures SameAt(m, Acting(act, f)(m), x) {
        assert Acting(act, f)(m) == Update(operands, a.stores, f, m);
      }
      forall m: Mem, m': Mem, x: Loc |
        Here(x) in a.stores && AgreeOn(ts, Here, SameAt, a.loads + a.stores, m, m')
        ensures SameAt(Acting(act, f)(m), Acting(act, f)(m'), x)
      {
        assert Acting(act, f)(m) == Update(operands, a.stores, f, m);
        assert Acting(act, f)(m') == Update(operands, a.stores, f, m');
        AgreedReads(a, operands, ts, m, m');
      }
    }
  }

  lemma AgreedReads(a: Access, operands: seq<Loc>, ts: set<Loc>, m: Mem, m': Mem)
    requires (forall x :: x in operands ==> x in a.loads + a.stores) && a.loads + a.stores <= ts
    requires AgreeOn(ts, Here, SameAt, a.loads + a.stores, m, m')
    ensures ReadAll(m, operands) == ReadAll(m', operands)
  {
    forall i | 0 <= i < |operands| ensures At(m, operands[i]) == At(m', operands[i]) {
      assert Here(operands[i]) == operands[i] && SameAt(m, m', operands[i]);
    }
  }

  /** Computes a mark wherever some operand has one, or everywhere. */
  ghost function Marks(everywhere: bool): Compute {
    imap k: (Loc, seq<Contents>) | AnyKey(k) :: if everywhere || [1] in k.1 then [1] else []
  }

  ghost predicate AnyKey(k: (Loc, seq<Contents>)) { true }

  lemma MarksOut(everywhere: bool, x: Loc, operands: seq<Contents>)
    ensures Out(Marks(everywhere), x, operands) == if everywhere || [1] in operands then [1] else []
  {
    assert AnyKey((x, operands)) && (x, operands) in Marks(everywhere);
  }

  lemma UpdateChanges(act: Action, operands: seq<Loc>, outputs: set<Loc>, x: Loc)
    requires Updates(act, operands, outputs) && x in outputs
    ensures Changes(act, x)
  {
    var m: Mem := map[];
    assert act(Marks(true), m) == Update(operands, outputs, Marks(true), m);
    MarksOut(true, x, ReadAll(m, operands));
    assert At(act(Marks(true), m), x) != At(m, x);
  }

  lemma UpdateNotices(act: Action, operands: seq<Loc>, outputs: set<Loc>, x: Loc, y: Loc)
    requires Updates(act, operands, outputs) && x in operands && x !in outputs && y in outputs
    ensures Notices(act, x)
  {
    var f, m: Mem := Marks(false), map[];
    var m' := m[x := [1]];
    assert act(f, m) == Update(operands, outputs, f, m) && act(f, m') == Update(operands, outputs, f, m');
    MarksOut(false, y, ReadAll(m, operands));
    MarksOut(false, y, ReadAll(m', operands));
    var i :| 0 <= i < |operands| && operands[i] == x;
    assert ReadAll(m', operands)[i] == [1];
    assert NoticesIn(act, x, f, m, [1], y);
  }

  lemma UpdateDescribed(a: Access, act: Action, operands: seq<Loc>)
    requires Updates(act, operands, a.stores) && a.stores != {}
    requires forall x :: x in operands <==> x in a.loads + a.stores
    ensures Describes(a, act)
  {
    UpdateFramed(a, act, operands);
    forall x | x in a.stores ensures Changes(act, x) { UpdateChanges(act, operands, a.stores, x); }
    var y :| y in a.stores;
    forall x | x in a.loads ensures Changes(act, x) || Notices(act, x) {
      if x !in a.stores { UpdateNotices(act, operands, a.stores, x, y); }
    }
  }

  /** One action after the other, as one dispatch. */
  lemma ComposedFrames(a: Access, p: Action, b: Access, q: Action, act: Action)
    requires Frames(a, p) && Frames(b, q) && forall f: Compute, m: Mem :: act(f, m) == q(f, p(f, m))
    ensures Frames(Access(a.loads + b.loads, a.stores + b.stores), act)
  {
    var c := Access(a.loads + b.loads, a.stores + b.stores);
    forall f: Compute, ts: set<Loc> | c.loads + c.stores <= ts ensures FramesOn(c, act, f, ts) {
      assert FramesOn(a, p, f, ts) && FramesOn(b, q, f, ts);
      forall m: Mem, x: Loc | x in ts && Here(x) !in c.stores ensures SameAt(m, Acting(act, f)(m), x) {
        assert SameAt(m, Acting(p, f)(m), x) && SameAt(p(f, m), Acting(q, f)(p(f, m)), x);
      }
      forall m: Mem, m': Mem, x: Loc |
        x in ts && Here(x) in c.stores && AgreeOn(ts, Here, SameAt, c.loads + c.stores, m, m')
        ensures SameAt(Acting(act, f)(m), Acting(act, f)(m'), x)
      {
        ComposedAgrees(a, p, b, q, f, ts, m, m', x);
      }
    }
  }

  lemma ComposedAgrees(a: Access, p: Action, b: Access, q: Action, f: Compute, ts: set<Loc>, m: Mem, m': Mem, x: Loc)
    requires FramesOn(a, p, f, ts) && FramesOn(b, q, f, ts)
    requires a.loads + a.stores <= ts && b.loads + b.stores <= ts && x in a.stores + b.stores
    requires AgreeOn(ts, Here, SameAt, a.loads + b.loads + (a.stores + b.stores), m, m')
    ensures SameAt(q(f, p(f, m)), q(f, p(f, m')), x)
  {
    assert AgreeOn(ts, Here, SameAt, a.loads + a.stores, m, m');
    forall y | y in a.loads + a.stores + b.loads + b.stores ensures SameAt(p(f, m), p(f, m'), y) {
      assert Here(y) == y && SameAt(m, m', y);
      FrameAgrees(a, p, f, ts, m, m', y);
    }
    FrameAgrees(b, q, f, ts, p(f, m), p(f, m'), x);
  }

  // ---- Lists of dispatches -----------------------------------------------

  /** The dispatches with what each one computes. */
  ghost function Acted(acts: seq<Action>, fs: seq<Compute>): (all: seq<Mem -> Mem>)
    requires |fs| == |acts|
    ensures |all| == |acts| && forall i :: 0 <= i < |acts| ==> all[i] == Acting(acts[i], fs[i])
  {
    seq(|acts|, i requires 0 <= i < |acts| => Acting(acts[i], fs[i]))
  }

  ghost function Named(acc: seq<Access>): (xs: set<Loc>)
    ensures forall i :: 0 <= i < |acc| ==> acc[i].loads + acc[i].stores <= xs
  {
    if acc == [] then {} else Named(acc[1..]) + acc[0].loads + acc[0].stores
  }

  ghost function Code(m: Mem, x: Loc): Contents { At(m, x) }

  /** Whatever the dispatches compute, kernels that stay within the accesses can do it, and
      on every faithful layout of the locations they name. */
  lemma MeantHasKernels(acc: seq<Access>, acts: seq<Action>, fs: seq<Compute>)
    returns (layout: Mem -> Mem, ks: seq<Kernel>)
    requires AllDescribed(acc, acts) && |fs| == |acts|
    ensures Faithful(layout, Named(acc), Here, SameAt)
    ensures AllImplement(Acted(acts, fs), ks, layout) && Uses(ks, acc)
  {
    var ts := Named(acc);
    layout := Encoded(ts, Here, Code);
    EncodedIsFaithful(ts, Here, SameAt, Code);
    forall i | 0 <= i < |acc| ensures Framed(Acted(acts, fs)[i], acc[i], ts, Here, SameAt) {
      assert Describes(acc[i], acts[i]) && FramesOn(acc[i], acts[i], fs[i], ts);
    }
    ks := KernelsExist(Acted(acts, fs), acc, layout, ts, Here, SameAt);
  }
}
