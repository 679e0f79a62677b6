/** The balanced order in which the tuner measures its candidates. */
module Schedule {
  import opened Arith
  import opened Prelude

  /** Where the rotation of the pair of rounds around `round` starts. */
  function Start(len: nat, round: nat): (s: nat)
    requires len > 0 && round > 0
    ensures s < len
  {
    Rem(Times((round - 1) / 2, DivCeil(len, 2)), len)
  }

  /** The candidate measured at position `offset` of a round. */
  function CandidateAt(len: nat, round: nat, offset: nat): (c: nat)
    requires len > 0 && offset < len
    ensures c < len
  {
    if round == 0 then offset
    else if round % 2 != 0 then Rem(Start(len, round) + offset, len)
    else Rem(Start(len, round) + len - 1 - offset, len)
  }

  /** Rotating by less than `len` wraps at most once. */
  lemma RotateOnce(x: nat, len: nat)
    requires x < 2 * len
    ensures Rem(x, len) == if x < len then x else x - len
  {
    if x < len { DivModOf(0, x, len); } else { DivModOf(1, x - len, len); }
  }

  /** The position at which a round measures candidate `c`. */
  function Rank(len: nat, round: nat, c: nat): (offset: nat)
    requires len > 0 && c < len
    ensures offset < len
  {
    if round == 0 then c
    else
      var s := Start(len, round);
      var ahead := if c >= s then c - s else c + len - s;
      if round % 2 != 0 then ahead else len - 1 - ahead
  }

  /** Every round visits every candidate exactly once: Rank inverts CandidateAt on
      both sides. */
  lemma RoundIsPermutation(len: nat, round: nat, x: nat)
    requires x < len
    ensures CandidateAt(len, round, Rank(len, round, x)) == x
    ensures Rank(len, round, CandidateAt(len, round, x)) == x
  {
    if round > 0 {
      var s := Start(len, round);
      var o := Rank(len, round, x);
      RotateOnce(s + o, len);
      RotateOnce(s + x, len);
      RotateOnce(s + len - 1 - o, len);
      RotateOnce(s + len - 1 - x, len);
    }
  }

  /** Over rounds 2p+1 and 2p+2 all candidates have the same total rank, because
      the second round is the first in reverse. */
  lemma PairBalanced(len: nat, p: nat, c: nat)
    requires c < len
    ensures Rank(len, 2 * p + 1, c) + Rank(len, 2 * p + 2, c) == len - 1
    ensures CandidateAt(len, 2 * p + 2, c) == CandidateAt(len, 2 * p + 1, len - 1 - c)
  {
    assert (2 * p + 1 - 1) / 2 == p && (2 * p + 2 - 1) / 2 == p;
    assert Start(len, 2 * p + 1) == Start(len, 2 * p + 2);
  }

  /** Reducing an addend first changes nothing. */
  lemma RemAdd(x: nat, y: nat, d: nat)
    requires d > 0
    ensures Rem(Rem(x, d) + y, d) == Rem(x + y, d)
  {
    var q, r := x / d, Rem(x, d) + y;
    assert x + y == q * d + r;
    assert r == r / d * d + r % d;
    assert x + y == (q + r / d) * d + r % d by { Distrib(q, r / d, d); }
    DivModOf(q + r / d, r % d, d);
  }

  lemma TurnsCommute(s: nat, x: nat, y: nat, d: nat)
    requires s < d && x <= d && y < d
    ensures Rem(Rem(s + x, d) + y, d) == Rem(Rem(s + y, d) + x, d)
  {
    RotateOnce(s + x, d);
    RotateOnce(s + y, d);
    RotateOnce(Rem(s + x, d) + y, d);
    RotateOnce(Rem(s + y, d) + x, d);
  }

  lemma StartTurns(len: nat, round: nat)
    requires len > 0 && round > 0
    ensures Start(len, round + 2) == Rem(Start(len, round) + DivCeil(len, 2), len)
  {
    var p, half := (round - 1) / 2, DivCeil(len, 2);
    assert (round + 2 - 1) / 2 == p + 1;
    Distrib(p, 1, half);
    assert Times(p + 1, half) == Times(p, half) + half;
    RemAdd(Times(p, half), half, len);
  }

  lemma FirstRound(len: nat, offset: nat)
    requires offset < len
    ensures CandidateAt(len, 1, offset) == offset
  {
    assert Times(0, DivCeil(len, 2)) == 0;
    RotateOnce(0, len);
    RotateOnce(offset, len);
  }

  /** How far into its rotation a round visits at `offset`. */
  function Turn(len: nat, round: nat, offset: nat): (x: nat)
    requires offset < len
    ensures x < len
  {
    if round % 2 != 0 then offset else len - 1 - offset
  }

  lemma RotatedBy(len: nat, round: nat, offset: nat)
    requires offset < len && round > 0
    ensures CandidateAt(len, round, offset) == Rem(Start(len, round) + Turn(len, round, offset), len)
    ensures Turn(len, round + 2, offset) == Turn(len, round, offset)
  {}

  /** The first measured round is the given order, and each pair of rounds starts half way
      round from where the pair before it did. */
  lemma PairsAreSpaced(len: nat, round: nat, offset: nat)
    requires offset < len
    ensures CandidateAt(len, 0, offset) == CandidateAt(len, 1, offset) == offset
    ensures round > 0 ==>
              CandidateAt(len, round + 2, offset) == Rem(CandidateAt(len, round, offset) + DivCeil(len, 2), len)
  {
    FirstRound(len, offset);
    if round > 0 {
      RotatedBy(len, round, offset);
      RotatedBy(len, round + 2, offset);
      StartTurns(len, round);
      TurnsCommute(Start(len, round), DivCeil(len, 2), Turn(len, round, offset), len);
    }
  }

  /** Sum of the ranks of `c` over the first `pairs` measured pairs. */
  function TotalRank(len: nat, pairs: nat, c: nat): nat
    requires c < len
  {
    if pairs == 0 then 0
    else TotalRank(len, pairs - 1, c) + Rank(len, 2 * pairs - 1, c) + Rank(len, 2 * pairs, c)
  }

  /** So a whole tuning run, of two or four measured rounds, favours nobody. */
  lemma {:induction false} RunBalanced(len: nat, pairs: nat, c: nat)
    requires c < len
    ensures TotalRank(len, pairs, c) == pairs * (len - 1)
  {
    if pairs > 0 {
      RunBalanced(len, pairs - 1, c);
      PairBalanced(len, pairs - 1, c);
      Distrib(pairs - 1, 1, len - 1);
    }
  }

  // ---- The measuring loop ------------------------------------------------

  /** Adds a timing when the device reported one. */
  function Push(s: seq<nat>, time: Option<nat>): seq<nat> {
    if time.Some? then s + [time.value] else s
  }

  /** The samples of candidate `c` over rounds 1..r. */
  function Samples(times: (nat, nat) -> Option<nat>, c: nat, r: nat): seq<nat> {
    if r == 0 then [] else Push(Samples(times, c, r - 1), times(r, c))
  }

  /** Candidates already visited in `round` have its sample. */
  ghost predicate SampledSoFar(times: (nat, nat) -> Option<nat>, samples: seq<seq<nat>>, round: nat, offset: nat) {
    forall c: nat :: c < |samples| ==>
      samples[c] == Samples(times, c, if round == 0 then 0
                                      else if Rank(|samples|, round, c) < offset then round else round - 1)
  }

  lemma SampleStep(times: (nat, nat) -> Option<nat>, samples: seq<seq<nat>>, round: nat, offset: nat)
    requires offset < |samples| && round > 0 && SampledSoFar(times, samples, round, offset)
    ensures var ci := CandidateAt(|samples|, round, offset);
            SampledSoFar(times, samples[ci := Push(samples[ci], times(round, ci))], round, offset + 1)
  {
    var len := |samples|;
    var ci := CandidateAt(len, round, offset);
    RoundIsPermutation(len, round, offset);
    var after := samples[ci := Push(samples[ci], times(round, ci))];
    forall c: nat | c < len
      ensures after[c] == Samples(times, c, if Rank(len, round, c) < offset + 1 then round else round - 1)
    {
      RoundIsPermutation(len, round, c);
    }
  }

  /** What runs up to position `offset` of `round`, warm-up first. */
  ghost predicate RunSoFar(len: nat, round: nat, offset: nat, runs: seq<nat>)
    requires len > 0 && offset <= len
  {
    && |runs| == Times(round, len) + offset
    && (forall r: nat, o: nat :: r < round && o < len ==> RanAt(len, r, o, runs))
    && (forall o: nat :: o < offset ==> RanAt(len, round, o, runs))
  }

  ghost predicate RanAt(len: nat, round: nat, offset: nat, runs: seq<nat>)
    requires offset < len
  {
    Times(round, len) + offset < |runs| && runs[Times(round, len) + offset] == CandidateAt(len, round, offset)
  }

  lemma RunOne(len: nat, round: nat, offset: nat, runs: seq<nat>)
    requires offset < len && RunSoFar(len, round, offset, runs)
    ensures RunSoFar(len, round, offset + 1, runs + [CandidateAt(len, round, offset)])
  {
    var more := runs + [CandidateAt(len, round, offset)];
    forall r: nat, o: nat | r < round && o < len ensures RanAt(len, r, o, more) { assert RanAt(len, r, o, runs); }
    forall o: nat | o < offset ensures RanAt(len, round, o, more) { assert RanAt(len, round, o, runs); }
  }

  lemma RoundDone(len: nat, round: nat, runs: seq<nat>)
    requires len > 0 && RunSoFar(len, round, len, runs)
    ensures RunSoFar(len, round + 1, 0, runs)
  {
    Distrib(round, 1, len);
  }

  /** Every round runs every candidate once, in its order. Round 0 warms up and is
      discarded; every later one adds one sample to each candidate. */
  method Measure(len: nat, rounds: nat, times: (nat, nat) -> Option<nat>)
    returns (samples: seq<seq<nat>>, runs: seq<nat>)
    requires len > 0
    ensures |samples| == len
    ensures forall c: nat :: c < len ==> samples[c] == Samples(times, c, rounds)
    ensures |runs| == Times(rounds + 1, len)
    ensures forall r: nat, o: nat :: r <= rounds && o < len ==> RanAt(len, r, o, runs)
  {
    samples := seq(len, _ => []);
    runs := [];
    for round := 0 to rounds + 1
      invariant |samples| == len && RunSoFar(len, round, 0, runs)
      invariant forall c: nat :: c < len ==> samples[c] == Samples(times, c, if round == 0 then 0 else round - 1)
    {
      for offset := 0 to len
        invariant |samples| == len && SampledSoFar(times, samples, round, offset)
        invariant RunSoFar(len, round, offset, runs)
      {
        var ci := CandidateAt(len, round, offset);
        RunOne(len, round, offset, runs);
        runs := runs + [ci];
        if round > 0 {
          SampleStep(times, samples, round, offset);
          samples := samples[ci := Push(samples[ci], times(round, ci))];
        }
      }
      RoundDone(len, round, runs);
    }
  }
}
