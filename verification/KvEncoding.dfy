/** Contents of tensors written out as words, without loss: a tree of tags and numbers for
    each, and the tree in prefix order. Nothing in the session depends on the encoding; it
    shows that contents fit in buffers at all. */
module KvEncoding {
  import opened KvCache
  import opened KvDevice
  import opened KvFrames
  import opened KvReference
  import opened Prelude

  // ---- Trees -------------------------------------------------------------

  datatype Tree = Node(tag: nat, kids: seq<Tree>)

  /** A node is its tag, its number of children, and the children in order. */
  function Serial(t: Tree): seq<int>
    decreases t, |t.kids| + 1
  {
    [t.tag, |t.kids|] + SerialFrom(t, 0)
  }

  function SerialFrom(t: Tree, i: nat): seq<int>
    requires i <= |t.kids|
    decreases t, |t.kids| - i
  {
    if i == |t.kids| then [] else Serial(t.kids[i]) + SerialFrom(t, i + 1)
  }

  lemma SameHead(p: int, q: int, s: seq<int>, x: seq<int>, p': int, q': int, s': seq<int>, y: seq<int>)
    requires [p, q] + s + x == [p', q'] + s' + y
    ensures p == p' && q == q' && s + x == s' + y
  {
    var left, right := [p, q] + s + x, [p', q'] + s' + y;
    assert left[0] == p && left[1] == q && left[2..] == s + x;
    assert right[0] == p' && right[1] == q' && right[2..] == s' + y;
  }

  lemma Regroup(s: seq<int>, t: seq<int>, x: seq<int>)
    ensures s + t + x == s + (t + x)
  {}

  /** Nothing that follows a tree can be taken for part of it. */
  lemma {:induction false} SerialUnique(a: Tree, b: Tree, x: seq<int>, y: seq<int>)
    requires Serial(a) + x == Serial(b) + y
    ensures a == b && x == y
    decreases a, |a.kids| + 1
  {
    SameHead(a.tag, |a.kids|, SerialFrom(a, 0), x, b.tag, |b.kids|, SerialFrom(b, 0), y);
    KidsUnique(a, b, 0, x, y);
    assert a.kids == b.kids;
  }

  lemma {:induction false} KidsUnique(a: Tree, b: Tree, i: nat, x: seq<int>, y: seq<int>)
    requires |a.kids| == |b.kids| && i <= |a.kids| && SerialFrom(a, i) + x == SerialFrom(b, i) + y
    ensures x == y && forall j :: i <= j < |a.kids| ==> a.kids[j] == b.kids[j]
    decreases a, |a.kids| - i
  {
    if i == |a.kids| {
      assert [] + x == x && [] + y == y;
    } else {
      var s, t, s', t' := Serial(a.kids[i]), SerialFrom(a, i + 1), Serial(b.kids[i]), SerialFrom(b, i + 1);
      Regroup(s, t, x);
      Regroup(s', t', y);
      SerialUnique(a.kids[i], b.kids[i], t + x, t' + y);
      KidsUnique(a, b, i + 1, x, y);
    }
  }

  // ---- Values as trees ---------------------------------------------------

  function Leaf(n: nat): Tree { Node(n, []) }

  function Flag(b: bool): Tree { Leaf(if b then 1 else 0) }

  function List<T>(xs: seq<T>, f: T -> Tree): Tree { Node(0, seq(|xs|, i requires 0 <= i < |xs| => f(xs[i]))) }

  ghost predicate Injective<T(!new)>(f: T -> Tree) { forall x, y :: f(x) == f(y) ==> x == y }

  lemma ListInjective<T(!new)>(f: T -> Tree)
    requires Injective(f)
    ensures forall xs, ys :: List(xs, f) == List(ys, f) ==> xs == ys
  {
    forall xs: seq<T>, ys: seq<T> | List(xs, f) == List(ys, f) ensures xs == ys {
      var k, l := List(xs, f).kids, List(ys, f).kids;
      assert |xs| == |k| == |l| == |ys|;
      forall i | 0 <= i < |xs| ensures xs[i] == ys[i] { assert f(xs[i]) == k[i] == l[i] == f(ys[i]); }
    }
  }

  function TokTree(t: Tok): Tree
    decreases t
  {
    match t
    case Unset => Node(0, [])
    case Prompt(id) => Node(1, [Leaf(id)])
    case Greedy(state) => Node(2, [TermTree(state)])
  }

  function TermTree(x: Term): Tree
    decreases x
  {
    match x
    case Embed(tok) => Node(0, [TokTree(tok)])
    case Block(l, below, context) =>
      Node(1, [Leaf(l), TermTree(below),
               Node(0, seq(|context|, i requires 0 <= i < |context| => TermTree(context[i])))])
  }

  lemma {:induction false} TokUnique(a: Tok, b: Tok)
    requires TokTree(a) == TokTree(b)
    ensures a == b
    decreases a
  {
    var k, l := TokTree(a).kids, TokTree(b).kids;
    if a.Greedy? {
      assert k[0] == l[0];
      TermUnique(a.state, b.state);
    } else if a.Prompt? {
      assert k[0] == l[0];
    }
  }

  lemma {:induction false} TermUnique(a: Term, b: Term)
    requires TermTree(a) == TermTree(b)
    ensures a == b
    decreases a
  {
    var k, l := TermTree(a).kids, TermTree(b).kids;
    assert k[0] == l[0];
    if a.Embed? {
      TokUnique(a.tok, b.tok);
    } else {
      assert k[1] == l[1] && k[2] == l[2];
      TermUnique(a.x, b.x);
      var p, q := k[2].kids, l[2].kids;
      assert |a.context| == |p| == |q| == |b.context|;
      forall i | 0 <= i < |a.context| ensures a.context[i] == b.context[i] {
        assert p[i] == TermTree(a.context[i]) && q[i] == TermTree(b.context[i]);
        TermUnique(a.context[i], b.context[i]);
      }
    }
  }

  lemma TermsInjective()
    ensures Injective(TermTree) && Injective(TokTree)
  {
    forall x, y | TermTree(x) == TermTree(y) ensures x == y { TermUnique(x, y); }
    forall x, y | TokTree(x) == TokTree(y) ensures x == y { TokUnique(x, y); }
  }

  function ElemTree(e: Elem): Tree {
    match e
    case Zero => Node(0, [])
    case Key(x, l, c, r) => Node(1, [TermTree(x), Leaf(l), Leaf(c), Leaf(r)])
    case Value(x, l, c) => Node(2, [TermTree(x), Leaf(l), Leaf(c)])
    case Other => Node(3, [])
  }

  lemma ElemsInjective()
    ensures Injective(ElemTree)
  {
    TermsInjective();
    forall x, y | ElemTree(x) == ElemTree(y) ensures x == y {
      var k, l := ElemTree(x).kids, ElemTree(y).kids;
      if x.Key? || x.Value? {
        assert k[0] == l[0] && k[1] == l[1] && k[2] == l[2];
        TermUnique(x.x, y.x);
        if x.Key? { assert k[3] == l[3]; }
      }
    }
  }

  function TermsTree(xs: seq<Term>): Tree { List(xs, TermTree) }

  function ContextsTree(contexts: seq<seq<Term>>): Tree { List(contexts, TermsTree) }

  function CacheTree(cache: Cache): Tree { List(cache, ElemTree) }

  function ToksTree(toks: seq<Tok>): Tree { List(toks, TokTree) }

  lemma ListsInjective()
    ensures forall x, y :: TermsTree(x) == TermsTree(y) ==> x == y
    ensures forall x, y :: ContextsTree(x) == ContextsTree(y) ==> x == y
    ensures forall x, y :: CacheTree(x) == CacheTree(y) ==> x == y
    ensures forall x, y :: ToksTree(x) == ToksTree(y) ==> x == y
  {
    TermsInjective();
    ElemsInjective();
    ListInjective(TermTree);
    assert Injective(TermsTree);
    ListInjective(TermsTree);
    ListInjective(ElemTree);
    ListInjective(TokTree);
  }

  function RopeTree(rope: Option<nat>): Tree {
    match rope
    case None => Node(0, [])
    case Some(base) => Node(1, [Leaf(base)])
  }

  function StageNumber(stage: Stage): nat {
    match stage
    case OutProjection => 0
    case Middle => 1
    case NormedMiddle => 2
    case UpProjection => 3
    case GateProjection => 4
    case GatedProduct => 5
    case DownProjection => 6
  }

  function HeldTree(held: Held): Tree {
    match held
    case Junk => Node(0, [])
    case Stream(xs) => Node(1, [TermsTree(xs)])
    case NormedStream(xs, l) => Node(2, [TermsTree(xs), Leaf(l)])
    case Projections(xs, l) => Node(3, [TermsTree(xs), Leaf(l)])
    case Queries(xs, l, rope, headMajor) => Node(4, [TermsTree(xs), Leaf(l), RopeTree(rope), Flag(headMajor)])
    case KeyBuffer(xs, l, rope) => Node(5, [TermsTree(xs), Leaf(l), RopeTree(rope)])
    case ValueBuffer(xs, l) => Node(6, [TermsTree(xs), Leaf(l)])
    case ScoreRow(x, l, pos, keys) => Node(7, [TermTree(x), Leaf(l), Leaf(pos), CacheTree(keys)])
    case WeightRow(x, l, pos, keys, valid) =>
      Node(8, [TermTree(x), Leaf(l), Leaf(pos), CacheTree(keys), Leaf(valid)])
    case Attended(xs, l, contexts, headMajor) =>
      Node(9, [TermsTree(xs), Leaf(l), ContextsTree(contexts), Flag(headMajor)])
    case Inside(stage, xs, l, contexts) =>
      Node(10, [Leaf(StageNumber(stage)), TermsTree(xs), Leaf(l), ContextsTree(contexts)])
    case LastRow(x) => Node(11, [TermTree(x)])
    case NormedLast(x) => Node(12, [TermTree(x)])
    case LogitRow(x) => Node(13, [TermTree(x)])
    case Merging(x, l, context) => Node(14, [TermTree(x), Leaf(l), TermsTree(context)])
  }

  lemma SameKids(a: Tree, b: Tree)
    requires a == b
    ensures |a.kids| == |b.kids| && forall i :: 0 <= i < |a.kids| ==> a.kids[i] == b.kids[i]
  {}

  lemma ScoresUnique(a: Held, b: Held)
    requires HeldTree(a) == HeldTree(b) && (a.ScoreRow? || a.WeightRow?)
    ensures a == b
  {
    TermsInjective();
    ListsInjective();
    SameKids(HeldTree(a), HeldTree(b));
  }

  lemma ContextsUnique(a: Held, b: Held)
    requires HeldTree(a) == HeldTree(b) && (a.Attended? || a.Inside? || a.Merging?)
    ensures a == b
  {
    TermsInjective();
    ListsInjective();
    SameKids(HeldTree(a), HeldTree(b));
  }

  lemma RowsUnique(a: Held, b: Held)
    requires HeldTree(a) == HeldTree(b) && !a.ScoreRow? && !a.WeightRow? && !a.Attended? && !a.Inside? && !a.Merging?
    ensures a == b
  {
    TermsInjective();
    ListsInjective();
    SameKids(HeldTree(a), HeldTree(b));
  }

  lemma HeldUnique(a: Held, b: Held)
    requires HeldTree(a) == HeldTree(b)
    ensures a == b
  {
    if a.ScoreRow? || a.WeightRow? {
      ScoresUnique(a, b);
    } else if a.Attended? || a.Inside? || a.Merging? {
      ContextsUnique(a, b);
    } else {
      RowsUnique(a, b);
    }
  }

  // ---- Contents ----------------------------------------------------------

  function ContentsTree(c: Contents): Tree {
    Node(0, [HeldTree(c.held), if c.cache.Some? then Node(1, [CacheTree(c.cache.value)]) else Node(0, []),
             ToksTree(c.toks)])
  }

  /** The words that stand for a tensor's contents. */
  function Code(c: Contents): seq<int> { Serial(ContentsTree(c)) }

  /** Two tensors have the same code exactly when they contain the same. */
  lemma CodeIsFaithful(a: Contents, b: Contents)
    ensures Code(a) == Code(b) <==> a == b
  {
    if Code(a) == Code(b) {
      SerialUnique(ContentsTree(a), ContentsTree(b), [], []);
      var k, l := ContentsTree(a).kids, ContentsTree(b).kids;
      assert k[0] == l[0] && k[1] == l[1] && k[2] == l[2];
      HeldUnique(a.held, b.held);
      ListsInjective();
      if a.cache.Some? { assert k[1].kids[0] == l[1].kids[0]; }
    }
  }
}
