/** The reference computation: a causal transformer as free terms, decoded greedily. */
module KvReference {

  /** A token id: given by the caller, or the argmax of the head on a final state. */
  datatype Tok = Unset | Prompt(id: nat) | Greedy(state: Term)

  /** The residual stream of one position: its embedding, or what layer `layer` makes
      of the stream below it and the streams its attention reads, in position order. Equal
      terms are equal computations. */
  datatype Term = Embed(tok: Tok) | Block(layer: nat, x: Term, context: seq<Term>)

  /** The stream of position `p` below layer `l`: attention at `p` reads positions 0..p. */
  function StateAt(h: seq<Tok>, l: nat, p: nat): Term
    requires p < |h|
    decreases l, 0
  {
    if l == 0 then Embed(h[p]) else Block(l - 1, StateAt(h, l - 1, p), Prefix(h, l - 1, p + 1))
  }

  /** The streams of the first `n` positions. */
  function Prefix(h: seq<Tok>, l: nat, n: nat): (r: seq<Term>)
    requires n <= |h|
    ensures |r| == n && forall i :: 0 <= i < n ==> r[i] == StateAt(h, l, i)
    decreases l, 1
  {
    seq(n, i requires 0 <= i < n => StateAt(h, l, i))
  }

  /** The streams of positions base .. base + t. */
  function Rows(h: seq<Tok>, l: nat, base: nat, t: nat): (r: seq<Term>)
    requires base + t <= |h|
    ensures |r| == t && forall i :: 0 <= i < t ==> r[i] == StateAt(h, l, base + i)
  {
    seq(t, i requires 0 <= i < t => StateAt(h, l, base + i))
  }

  /** What each of `t` rows from `base` on may attend to. */
  function Causal(all: seq<Term>, base: nat, t: nat): (r: seq<seq<Term>>)
    requires base + t <= |all|
    ensures |r| == t && forall i :: 0 <= i < t ==> r[i] == all[..base + i + 1]
  {
    seq(t, i requires 0 <= i < t => all[..base + i + 1])
  }

  function Blocks(l: nat, xs: seq<Term>, contexts: seq<seq<Term>>): (r: seq<Term>)
    requires |xs| == |contexts|
    ensures |r| == |xs| && forall i :: 0 <= i < |xs| ==> r[i] == Block(l, xs[i], contexts[i])
  {
    seq(|xs|, i requires 0 <= i < |xs| => Block(l, xs[i], contexts[i]))
  }

  function EmbedAll(toks: seq<Tok>): (r: seq<Term>)
    ensures |r| == |toks| && forall i :: 0 <= i < |toks| ==> r[i] == Embed(toks[i])
  {
    seq(|toks|, i requires 0 <= i < |toks| => Embed(toks[i]))
  }

  /** The greedy token after `h` in a model of `layers` layers. */
  function Next(layers: nat, h: seq<Tok>): Tok
    requires |h| > 0
  {
    Greedy(StateAt(h, layers, |h| - 1))
  }

  /** The token that greedy decoding feeds at step `n` after `h`, starting with `tok`. */
  function Feed(layers: nat, h: seq<Tok>, tok: Tok, n: nat): Tok
    decreases n, 1
  {
    if n == 0 then tok else Next(layers, h + Fed(layers, h, tok, n))
  }

  /** The first `n` tokens it feeds. */
  function Fed(layers: nat, h: seq<Tok>, tok: Tok, n: nat): (r: seq<Tok>)
    ensures |r| == n
    decreases n, 0
  {
    if n == 0 then [] else Fed(layers, h, tok, n - 1) + [Feed(layers, h, tok, n - 1)]
  }

  /** The first `n` tokens it produces. */
  function Produced(layers: nat, h: seq<Tok>, tok: Tok, n: nat): (r: seq<Tok>)
    ensures |r| == n && forall i :: 0 <= i < n ==> r[i] == Feed(layers, h, tok, i + 1)
  {
    seq(n, i requires 0 <= i < n => Feed(layers, h, tok, i + 1))
  }

  // ---- Facts -------------------------------------------------------------

  /** Causality: later tokens do not change the stream of an earlier position. */
  lemma {:induction false} LaterTokensDoNotMatter(h: seq<Tok>, more: seq<Tok>, l: nat, p: nat)
    requires p < |h|
    ensures StateAt(h + more, l, p) == StateAt(h, l, p)
    decreases l
  {
    if l > 0 {
      var long, short := Prefix(h + more, l - 1, p + 1), Prefix(h, l - 1, p + 1);
      forall i | 0 <= i < p + 1 ensures long[i] == short[i] {
        LaterTokensDoNotMatter(h, more, l - 1, i);
      }
      LaterTokensDoNotMatter(h, more, l - 1, p);
    }
  }

  lemma PrefixKept(h: seq<Tok>, more: seq<Tok>, l: nat, n: nat)
    requires n <= |h|
    ensures Prefix(h + more, l, n) == Prefix(h, l, n)
  {
    var long, short := Prefix(h + more, l, n), Prefix(h, l, n);
    forall i | 0 <= i < n ensures long[i] == short[i] {
      LaterTokensDoNotMatter(h, more, l, i);
    }
  }

  lemma PrefixSplits(h: seq<Tok>, l: nat, base: nat, t: nat)
    requires base + t <= |h|
    ensures Prefix(h, l, base) + Rows(h, l, base, t) == Prefix(h, l, base + t)
  {}

  /** A layer over `t` rows with their causal contexts gives the rows of the next layer. */
  lemma LayerOfRows(h: seq<Tok>, l: nat, base: nat, t: nat)
    requires base + t <= |h|
    ensures Blocks(l, Rows(h, l, base, t), Causal(Prefix(h, l, base + t), base, t)) == Rows(h, l + 1, base, t)
  {
    var blocks := Blocks(l, Rows(h, l, base, t), Causal(Prefix(h, l, base + t), base, t));
    forall i | 0 <= i < t ensures blocks[i] == Rows(h, l + 1, base, t)[i] {
      assert Prefix(h, l, base + t)[..base + i + 1] == Prefix(h, l, base + i + 1);
    }
  }

  lemma OneCausalRow(all: seq<Term>, base: nat)
    requires |all| == base + 1
    ensures Causal(all, base, 1) == [all]
  {
    assert all[..base + 0 + 1] == all;
  }

  lemma EmbeddedRows(h: seq<Tok>, toks: seq<Tok>)
    ensures EmbedAll(toks) == Rows(h + toks, 0, |h|, |toks|)
  {}

  lemma FedGrows(layers: nat, h: seq<Tok>, tok: Tok, n: nat)
    ensures h + Fed(layers, h, tok, n + 1) == h + Fed(layers, h, tok, n) + [Feed(layers, h, tok, n)]
    ensures Produced(layers, h, tok, n + 1) == Produced(layers, h, tok, n)
            + [Next(layers, h + Fed(layers, h, tok, n + 1))]
  {}
}
