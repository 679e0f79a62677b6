/** What a greedy tracker pays for believing that a dispatch which always has a barrier in
    front of it reads more than it does. */
module BarrierWaste {
  import opened GpuExecution
  import opened HazardGraph

  /** The fewest barriers that separate a list (`HazardGraph.GreedyStaysAhead`). */
  ghost function Least(acc: seq<Access>): nat { CountTrue(Placement(acc), |acc|) }

  /** None of the first `n` dispatches needs a barrier. */
  ghost predicate Quiet(acc: seq<Access>, n: nat)
    requires n <= |acc|
  {
    forall i, j :: 0 <= i < j < n ==> !Conflicts(acc[i], acc[j])
  }

  // ---- A barrier splits the count ----------------------------------------

  lemma {:induction false} CountSplits(fence: seq<bool>, k: nat, n: nat)
    requires k <= n <= |fence|
    ensures CountTrue(fence, n) == CountTrue(fence, k) + CountTrue(fence[k..], n - k)
  {
    if k < n { CountSplits(fence, k, n - 1); }
  }

  lemma {:induction false} SameCount(fence: seq<bool>, other: seq<bool>, n: nat)
    requires n <= |fence| && n <= |other| && forall k :: 0 <= k < n ==> fence[k] == other[k]
    ensures CountTrue(fence, n) == CountTrue(other, n)
  {
    if n > 0 { SameCount(fence, other, n - 1); }
  }

  /** Dispatches before the last barrier do not matter. */
  lemma {:induction false} FencesRestart(pre: seq<Access>, tail: seq<Access>, m: nat)
    requires 0 < m <= |tail| && FenceAt(pre + tail, |pre|)
    ensures LastFence(pre + tail, |pre| + m) == |pre| + LastFence(tail, m)
    ensures m < |tail| ==> FenceAt(pre + tail, |pre| + m) == FenceAt(tail, m)
  {
    if m > 1 { FencesRestart(pre, tail, m - 1); }
    if m < |tail| { SameConflicts(pre, tail, m); }
  }

  lemma SameConflicts(pre: seq<Access>, tail: seq<Access>, m: nat)
    requires m < |tail| && LastFence(pre + tail, |pre| + m) == |pre| + LastFence(tail, m)
    ensures FenceAt(pre + tail, |pre| + m) == FenceAt(tail, m)
  {
    var acc := pre + tail;
    if i :| LastFence(tail, m) <= i < m && Conflicts(tail[i], tail[m]) { assert acc[|pre| + i] == tail[i]; }
    if i :| LastFence(acc, |pre| + m) <= i < |pre| + m && Conflicts(acc[i], acc[|pre| + m]) {
      assert acc[i] == tail[i - |pre|];
    }
  }

  /** Counting from just behind `k`, where the two agree. */
  lemma {:induction false} CountBehind(fence: seq<bool>, k: nat, other: seq<bool>, n: nat)
    requires k + n <= |fence| && 0 < n <= |other| && forall m :: 0 < m < n ==> fence[k + m] == other[m]
    ensures CountTrue(fence, k + n) - CountTrue(fence, k + 1) == CountTrue(other, n) - CountTrue(other, 1)
  {
    if n > 1 { CountBehind(fence, k, other, n - 1); }
  }

  lemma SameFlag(pre: seq<Access>, tail: seq<Access>, m: nat)
    requires 0 < m < |tail| && FenceAt(pre + tail, |pre|)
    ensures Placement(pre + tail)[|pre| + m] == Placement(tail)[m]
  {
    FencesRestart(pre, tail, m);
  }

  lemma SameFlags(pre: seq<Access>, tail: seq<Access>)
    requires |tail| > 0 && FenceAt(pre + tail, |pre|)
    ensures forall m :: 0 < m < |tail| ==> Placement(pre + tail)[|pre| + m] == Placement(tail)[m]
  {
    forall m | 0 < m < |tail| ensures Placement(pre + tail)[|pre| + m] == Placement(tail)[m] { SameFlag(pre, tail, m); }
  }

  lemma SamePrefix(pre: seq<Access>, tail: seq<Access>)
    ensures forall k :: 0 <= k < |pre| ==> Placement(pre + tail)[k] == Placement(pre)[k]
  {
    forall k | 0 <= k < |pre| ensures Placement(pre + tail)[k] == Placement(pre)[k] {
      PlacementLocal(pre, pre + tail, k);
    }
  }

  lemma CountParts(fence: seq<bool>, front: seq<bool>, own: seq<bool>)
    requires |own| > 0 && |fence| == |front| + |own| && fence[|front|] && !own[0]
    requires forall k :: 0 <= k < |front| ==> fence[k] == front[k]
    requires forall m :: 0 < m < |own| ==> fence[|front| + m] == own[m]
    ensures CountTrue(fence, |fence|) == CountTrue(front, |front|) + 1 + CountTrue(own, |own|)
  {
    SameCount(fence, front, |front|);
    CountBehind(fence, |front|, own, |own|);
    assert CountTrue(own, 1) == 0;
  }

  lemma SplitAtFence(pre: seq<Access>, tail: seq<Access>)
    requires |tail| > 0 && FenceAt(pre + tail, |pre|)
    ensures Least(pre + tail) == Least(pre) + 1 + Least(tail)
  {
    SamePrefix(pre, tail);
    SameFlags(pre, tail);
    FlagsAt(pre + tail, |pre|, tail);
    CountParts(Placement(pre + tail), Placement(pre), Placement(tail));
  }

  lemma FlagsAt(acc: seq<Access>, k: nat, tail: seq<Access>)
    requires k < |acc| && FenceAt(acc, k) && |tail| > 0
    ensures Placement(acc)[k] && !Placement(tail)[0]
  {
    assert !FenceAt(tail, 0);
  }

  /** A part of a list needs no more barriers than the whole. */
  lemma TailIsCheaper(pre: seq<Access>, tail: seq<Access>)
    ensures Least(tail) <= Least(pre + tail)
  {
    var acc, fence := pre + tail, Placement(pre + tail);
    GreedySeparates(acc);
    forall i, j | 0 <= i < j < |tail| && Conflicts(tail[i], tail[j]) ensures Fenced(fence[|pre|..], i, j) {
      assert Fenced(fence, |pre| + i, |pre| + j);
      var k :| |pre| + i < k <= |pre| + j && fence[k];
      assert fence[|pre|..][k - |pre|];
    }
    GreedyStaysAhead(tail, fence[|pre|..], |tail|);
    CountSplits(fence, |pre|, |acc|);
  }

  // ---- Up to the first barrier -------------------------------------------

  lemma {:induction false} QuietIsFree(acc: seq<Access>, n: nat)
    requires n <= |acc| && Quiet(acc, n)
    ensures LastFence(acc, n) == 0 && CountTrue(Placement(acc), n) == 0
  {
    if n > 0 { QuietIsFree(acc, n - 1); }
  }

  lemma FirstBarrier(acc: seq<Access>, w: nat)
    requires w < |acc| && Quiet(acc, w) && !Quiet(acc, w + 1)
    ensures Least(acc) == 1 + Least(acc[w..])
  {
    var pre, tail := acc[..w], acc[w..];
    assert acc == pre + tail;
    QuietIsFree(acc, w);
    var i :| 0 <= i < w && Conflicts(acc[i], acc[w]);
    assert FenceAt(acc, w);
    QuietIsFree(pre, w);
    SplitAtFence(pre, tail);
  }

  /** A list that is quiet but for its last dispatch. */
  lemma OnlyLast(acc: seq<Access>)
    requires |acc| > 0 && Quiet(acc, |acc| - 1)
    ensures Least(acc) == if Quiet(acc, |acc|) then 0 else 1
  {
    if Quiet(acc, |acc|) {
      QuietIsFree(acc, |acc|);
    } else {
      FirstBarrier(acc, |acc| - 1);
      QuietIsFree(acc[|acc| - 1..], 1);
    }
  }

  lemma {:induction false} FirstNoise(acc: seq<Access>, n: nat) returns (w: nat)
    requires n <= |acc| && !Quiet(acc, n)
    ensures w < n && Quiet(acc, w) && !Quiet(acc, w + 1)
  {
    if Quiet(acc, n - 1) { w := n - 1; } else { w := FirstNoise(acc, n - 1); }
  }

  // ---- One wrong belief --------------------------------------------------

  /** The list whose first dispatch is believed to read `extra` too. */
  ghost function Believing(acc: seq<Access>, extra: set<Loc>): (believed: seq<Access>)
    requires |acc| > 0
    ensures |believed| == |acc| && believed[1..] == acc[1..]
  {
    [Access(acc[0].loads + extra, acc[0].stores)] + acc[1..]
  }

  /** Dispatch `w` writes what the first one is only believed to read, no barrier is due by
      then, and the list from `w` on needs as many barriers by itself as the whole does. */
  ghost predicate WastesAt(acc: seq<Access>, extra: set<Loc>, w: nat) {
    0 < w < |acc| && Quiet(acc, w + 1) && acc[w].stores * extra != {} && Least(acc[w..]) == Least(acc)
  }

  lemma BelievedConflicts(acc: seq<Access>, extra: set<Loc>, i: nat, j: nat)
    requires i < j < |acc|
    ensures Conflicts(Believing(acc, extra)[i], Believing(acc, extra)[j])
            <==> Conflicts(acc[i], acc[j]) || (i == 0 && acc[j].stores * extra != {})
  {
    var a := Believing(acc, extra)[0];
    assert j > 0 && Believing(acc, extra)[j] == acc[j];
    if i == 0 {
      if x :| x in acc[j].stores * extra { assert x in a.loads * acc[j].stores; }
      if x :| x in acc[0].loads * acc[j].stores { assert x in a.loads * acc[j].stores; }
      if x :| x in a.loads * acc[j].stores { assert x in acc[0].loads * acc[j].stores || x in acc[j].stores * extra; }
    }
  }

  lemma BeliefIsDearer(acc: seq<Access>, extra: set<Loc>)
    requires |acc| > 0
    ensures Least(acc) <= Least(Believing(acc, extra))
  {
    var fence := Placement(Believing(acc, extra));
    GreedySeparates(Believing(acc, extra));
    forall i, j | 0 <= i < j < |acc| && Conflicts(acc[i], acc[j]) ensures Fenced(fence, i, j) {
      BelievedConflicts(acc, extra, i, j);
    }
    GreedyStaysAhead(acc, fence, |acc|);
  }

  lemma BelievedQuiet(acc: seq<Access>, extra: set<Loc>, n: nat)
    requires 0 < n <= |acc|
    ensures Quiet(Believing(acc, extra), n)
            <==> Quiet(acc, n) && forall j :: 0 < j < n ==> acc[j].stores * extra == {}
  {
    forall i, j | 0 <= i < j < n ensures Conflicts(Believing(acc, extra)[i], Believing(acc, extra)[j])
            <==> Conflicts(acc[i], acc[j]) || (i == 0 && acc[j].stores * extra != {}) {
      BelievedConflicts(acc, extra, i, j);
    }
    forall j | Quiet(Believing(acc, extra), n) && 0 < j < n ensures acc[j].stores * extra == {} {
      BelievedConflicts(acc, extra, 0, j);
    }
  }

  /** The tracker's first barrier, if the belief makes it one. */
  lemma WasteAtFirst(acc: seq<Access>, extra: set<Loc>, w: nat)
    requires 0 < w < |acc| && Quiet(acc, w + 1) && acc[w].stores * extra != {}
    requires forall j :: 0 < j < w ==> acc[j].stores * extra == {}
    ensures Least(Believing(acc, extra)) == 1 + Least(acc[w..]) && Least(acc[w..]) <= Least(acc)
  {
    BelievedQuiet(acc, extra, w);
    BelievedQuiet(acc, extra, w + 1);
    FirstBarrier(Believing(acc, extra), w);
    assert Believing(acc, extra)[w..] == acc[w..];
    assert acc == acc[..w] + acc[w..];
    TailIsCheaper(acc[..w], acc[w..]);
  }

  /** Without a wasted barrier the count is right. */
  lemma SameFirst(acc: seq<Access>, extra: set<Loc>, w: nat)
    requires 0 < w < |acc| && Quiet(Believing(acc, extra), w) && !Quiet(acc, w + 1)
    ensures Least(Believing(acc, extra)) == Least(acc)
  {
    BelievedQuiet(acc, extra, w);
    BelievedQuiet(acc, extra, w + 1);
    FirstBarrier(Believing(acc, extra), w);
    FirstBarrier(acc, w);
    assert Believing(acc, extra)[w..] == acc[w..];
  }

  lemma NotQuietNoWaste(acc: seq<Access>, extra: set<Loc>, w: nat)
    requires 0 < w < |acc| && Quiet(Believing(acc, extra), w) && !Quiet(acc, w + 1)
    ensures forall v: nat :: !WastesAt(acc, extra, v)
  {
    BelievedQuiet(acc, extra, w);
  }

  /** If some later dispatch wastes a barrier, so does the first candidate. */
  lemma LaterWaste(acc: seq<Access>, extra: set<Loc>, w: nat, v: nat)
    requires 0 < w <= v && WastesAt(acc, extra, v) && Least(acc[w..]) <= Least(acc)
    ensures Least(acc[w..]) == Least(acc)
  {
    assert acc[w..] == acc[w..v] + acc[v..];
    TailIsCheaper(acc[w..v], acc[v..]);
  }

  /** One wrong belief costs one barrier or none, and exactly when it costs one. */
  lemma HeadSurplus(acc: seq<Access>, extra: set<Loc>)
    requires |acc| > 0
    ensures Least(Believing(acc, extra)) == Least(acc) + if exists w: nat :: WastesAt(acc, extra, w) then 1 else 0
  {
    var believed := Believing(acc, extra);
    BelievedQuiet(acc, extra, |acc|);
    if Quiet(believed, |acc|) {
      QuietIsFree(believed, |acc|);
      BeliefIsDearer(acc, extra);
    } else {
      var w := FirstNoise(believed, |acc|);
      BelievedQuiet(acc, extra, w + 1);
      if !Quiet(acc, w + 1) {
        SameFirst(acc, extra, w);
        NotQuietNoWaste(acc, extra, w);
      } else {
        BelievedQuiet(acc, extra, w);
        WasteAtFirst(acc, extra, w);
        BeliefIsDearer(acc, extra);
        if v: nat :| WastesAt(acc, extra, v) { LaterWaste(acc, extra, w, v); }
        assert WastesAt(acc, extra, w) <==> Least(acc[w..]) == Least(acc);
      }
    }
  }

  /** The same behind a barrier, which a dispatch that depends on the one before it has. */
  lemma Surplus(pre: seq<Access>, acc: seq<Access>, extra: set<Loc>)
    requires |pre| > 0 && |acc| > 0 && Conflicts(pre[|pre| - 1], acc[0])
    ensures Least(pre + Believing(acc, extra))
            == Least(pre + acc) + if exists w: nat :: WastesAt(acc, extra, w) then 1 else 0
  {
    BehindFence(pre, acc);
    HeadConflicts(pre[|pre| - 1], acc, extra);
    BehindFence(pre, Believing(acc, extra));
    HeadSurplus(acc, extra);
  }

  lemma HeadConflicts(a: Access, acc: seq<Access>, extra: set<Loc>)
    requires |acc| > 0 && Conflicts(a, acc[0])
    ensures Conflicts(a, Believing(acc, extra)[0])
  {
    var b := Believing(acc, extra)[0];
    if x :| x in a.stores * (acc[0].loads + acc[0].stores) { assert x in a.stores * (b.loads + b.stores); }
    if x :| x in a.loads * acc[0].stores { assert x in a.loads * b.stores; }
  }

  lemma BehindFence(pre: seq<Access>, acc: seq<Access>)
    requires |pre| > 0 && |acc| > 0 && Conflicts(pre[|pre| - 1], acc[0])
    ensures Least(pre + acc) == Least(pre) + 1 + Least(acc)
  {
    CountAtLastFence(pre + acc, |pre|);
    assert Conflicts((pre + acc)[|pre| - 1], (pre + acc)[|pre|]);
    assert FenceAt(pre + acc, |pre|);
    SplitAtFence(pre, acc);
  }
}
