/** Why the two passes are right: the plan they leave is the greatest admissible one,
    and re-planning from the planned pointer loses nothing. */
module PlanTheorems {
  import opened NutsBolts
  import opened PlanSpec

  // ---------------------------------------------------------------------------
  // One re-planned window
  // ---------------------------------------------------------------------------

  /** The reverse pass computes the greatest speed from which the blocks behind can
      still be braked, although it skips blocks already at their maximum. */
  lemma {:induction false} ReverseExact(w: seq<Junction>, k: nat)
    requires 0 < k < |w| && Stoppable(w, 1)
    ensures w[k].entry <= Reverse(w, k) <= w[k].limit
    ensures Reverse(w, k) ==
            Min(w[k].limit, (if k + 1 < |w| then Reverse(w, k + 1) else 0.0) + w[k].gain)
    decreases |w| - k
  {
    if k + 1 < |w| {
      ReverseExact(w, k + 1);
      assert w[k].entry <= ExitSqr(w, k) + w[k].gain;
    } else {
      assert w[k].entry <= ExitSqr(w, k) + w[k].gain;
    }
  }

  /** A profile that is below the reverse pass at `j` is below it everywhere before. */
  lemma {:induction false} BelowReverse(w: seq<Junction>, f: seq<real>, j: nat, k: nat)
    requires Stoppable(w, 1) && Bounded(w, f)
    requires 0 < k <= j < |f| && f[j] <= Reverse(w, j)
    ensures f[k] <= Reverse(w, k)
    decreases j - k
  {
    if k < j {
      BelowReverse(w, f, j, k + 1);
      ReverseExact(w, k);
    }
  }

  /** A profile below the reverse pass is below the forward pass. */
  lemma {:induction false} BelowForward(w: seq<Junction>, f: seq<real>, k: nat)
    requires Stoppable(w, 1) && Bounded(w, f) && k < |f|
    requires forall i :: 0 < i <= k ==> f[i] <= Reverse(w, i)
    ensures f[k] <= Forward(w, k)
  {
    if k > 0 {
      BelowForward(w, f, k - 1);
    }
  }

  /** The forward pass takes the smaller of the two limits. */
  lemma {:induction false} ForwardRange(w: seq<Junction>, k: nat)
    requires k < |w| && Stoppable(w, 1)
    ensures 0.0 <= Forward(w, k)
    ensures k > 0 ==> Forward(w, k) == Min(Reverse(w, k), Forward(w, k - 1) + w[k - 1].gain)
    ensures k > 0 ==> Forward(w, k) <= w[k].limit
  {
    if k > 0 {
      ForwardRange(w, k - 1);
      ReverseExact(w, k);
    }
  }

  /** Every block of the window behind the first can brake to the next planned entry speed. */
  lemma ForwardStops(w: seq<Junction>, k: nat)
    requires 0 < k < |w| && Stoppable(w, 1)
    ensures Forward(w, k) <= (if k + 1 < |w| then Forward(w, k + 1) else 0.0) + w[k].gain
  {
    ForwardRange(w, k);
    ReverseExact(w, k);
    if k + 1 < |w| {
      ForwardRange(w, k + 1);
    }
  }

  /** If block `k` starts faster than its predecessor can push it, the predecessor is
      itself pinned: by its own limit, or by acceleration from further back. */
  lemma ClipNeedsPlanned(w: seq<Junction>, k: nat)
    requires 0 < k < |w| && Stoppable(w, 1) && Clipped(w, k)
    ensures PlannedAt(w, k - 1) == k - 1
  {
    if k > 1 {
      ReverseExact(w, k - 1);
      ForwardRange(w, k - 1);
    }
  }

  /** A block that reaches its maximum entry speed unclipped locks everything up to it. */
  lemma LockedAtLimit(w: seq<Junction>, k: nat, f: seq<real>)
    requires 0 < k < |w| && k < |f| && Stoppable(w, 1) && Bounded(w, f)
    requires !Clipped(w, k) && Forward(w, k) == w[k].limit
    ensures forall i :: 0 <= i <= k ==> f[i] <= Forward(w, i)
  {
    assert f[k] <= Reverse(w, k);
    hide Forward, Clipped, Reverse;
    forall i | 0 <= i <= k ensures f[i] <= Forward(w, i) {
      forall j | 0 < j <= i ensures f[j] <= Reverse(w, j) {
        BelowReverse(w, f, k, j);
      }
      BelowForward(w, f, i);
    }
  }

  /** A clipped block is locked with its predecessor. */
  lemma LockedClipped(w: seq<Junction>, k: nat, f: seq<real>)
    requires 0 < k < |w| && k < |f| && Bounded(w, f) && f[k - 1] <= Forward(w, k - 1)
    ensures f[k] <= Forward(w, k - 1) + w[k - 1].gain
  {
    hide Forward;
    assert k - 1 + 1 < |f|;
  }

  /** Where the forward pass stops: at a block it clips, or at one that reaches its limit. */
  lemma PlannedCases(w: seq<Junction>, k: nat)
    requires 0 < k < |w|
    ensures PlannedAt(w, k) == k || PlannedAt(w, k) == PlannedAt(w, k - 1)
    ensures PlannedAt(w, k) == k ==>
              Forward(w, k) == if Clipped(w, k) then Forward(w, k - 1) + w[k - 1].gain else w[k].limit
  {
    hide Reverse;
  }

  /** The offset the forward pass stops at is locked. */
  lemma {:induction false} PlannedIsLocked(w: seq<Junction>, k: nat, f: seq<real>)
    requires k < |w| && Stoppable(w, 1)
    requires Bounded(w, f) && |f| > PlannedAt(w, k)
    ensures forall i :: 0 <= i <= PlannedAt(w, k) ==> f[i] <= Forward(w, i)
  {
    if k == 0 {
      assert f[0] <= w[0].entry;
    } else {
      hide PlannedAt, Forward, Clipped, Reverse, Stoppable, Bounded;
      PlannedCases(w, k);
      if PlannedAt(w, k) < k {
        PlannedIsLocked(w, k - 1, f);
      } else if Clipped(w, k) {
        ClipNeedsPlanned(w, k);
        PlannedIsLocked(w, k - 1, f);
        LockedClipped(w, k, f);
      } else {
        LockedAtLimit(w, k, f);
      }
    }
  }

  // ---------------------------------------------------------------------------
  // The whole queue
  // ---------------------------------------------------------------------------

  /** A profile of the queue, cut at the planned pointer, is a profile of the window. */
  lemma BoundedSuffix(q: seq<Junction>, f: seq<real>, p: nat)
    requires Bounded(q, f) && p < |f| && f[p] <= q[p].entry
    ensures Bounded(q[p..], f[p..])
  {
    forall i | 0 <= i && i + 1 < |f| - p
      ensures f[p..][i] <= f[p..][i + 1] + q[p..][i].gain && f[p..][i + 1] <= f[p..][i] + q[p..][i].gain
    {
      assert f[p..][i] == f[p + i] && f[p..][i + 1] == f[p + i + 1] && q[p..][i] == q[p + i];
    }
  }

  lemma BoundedPrefix(q: seq<Junction>, f: seq<real>, n: nat)
    requires Bounded(q, f) && n <= |f|
    ensures Bounded(q, f[..n])
  {
  }

  /** Only the limits matter to a profile, not the planned speeds behind the first block. */
  lemma BoundedSameLimits(q: seq<Junction>, r: seq<Junction>, f: seq<real>)
    requires |q| == |r| && Bounded(r, f)
    requires |r| > 0 ==> r[0].entry <= q[0].entry
    requires forall i :: 0 <= i < |q| ==> q[i].gain == r[i].gain && q[i].limit == r[i].limit
    ensures Bounded(q, f)
  {
  }

  lemma ReplanLimits(q: seq<Junction>, p: nat)
    requires p < |q|
    ensures var r := Replan(q, p);
            && r[0].entry == q[0].entry
            && forall i :: 0 <= i < |q| ==> q[i].gain == r[i].gain && q[i].limit == r[i].limit
  {
  }

  lemma StoppableSuffix(q: seq<Junction>, p: nat)
    requires p < |q| && Stoppable(q, 1)
    ensures Stoppable(q[p..], 1)
    ensures Stoppable(q, 0) ==> Stoppable(q[p..], 0)
  {
    var w := q[p..];
    forall i | (if p > 0 || Stoppable(q, 0) then 0 else 1) <= i < |w|
      ensures w[i].entry <= ExitSqr(w, i) + w[i].gain
    {
      assert w[i] == q[p + i];
      assert ExitSqr(w, i) == ExitSqr(q, p + i);
    }
  }

  lemma ReplanRange(q: seq<Junction>, p: nat, i: nat)
    requires p < |q| && i < |q| && Stoppable(q, 0)
    ensures Physical(Replan(q, p)[i]) && (i > 0 ==> Replan(q, p)[i].entry <= q[i].limit)
  {
    assert Physical(q[i]);
    if i > p {
      StoppableSuffix(q, p);
      ForwardRange(q[p..], i - p);
    }
  }

  lemma ForwardFirst(w: seq<Junction>)
    requires w != []
    ensures Forward(w, 0) == w[0].entry
  {
  }

  lemma ReplanStops(q: seq<Junction>, p: nat, i: nat)
    requires p < |q| && i < |q| && Stoppable(q, 0)
    ensures Replan(q, p)[i].entry <= ExitSqr(Replan(q, p), i) + q[i].gain
  {
    hide Forward, Reverse, Clipped;
    var w := q[p..];
    StoppableSuffix(q, p);
    assert q[i].entry <= ExitSqr(q, i) + q[i].gain;
    ForwardFirst(w);
    if i > p {
      ForwardStops(w, i - p);
    } else if i == p && p + 1 < |q| {
      ForwardRange(w, 1);
      ReverseExact(w, 1);
    }
  }

  /** Re-planning leaves every block able to brake to its planned exit speed: the
      invariant a feed hold relies on. */
  lemma ReplanStoppable(q: seq<Junction>, p: nat)
    requires p < |q| && Stoppable(q, 0)
    ensures Stoppable(Replan(q, p), 0)
  {
    var r := Replan(q, p);
    forall i | 0 <= i < |q|
      ensures Physical(r[i]) && (i > 0 ==> r[i].entry <= r[i].limit) && r[i].entry <= ExitSqr(r, i) + r[i].gain
    {
      ReplanRange(q, p, i);
      ReplanStops(q, p, i);
    }
  }

  lemma ReplanReachable(q: seq<Junction>, p: nat, from: nat)
    requires p < |q| && Stoppable(q, 0) && from <= p
    requires p <= from || Reachable(q, from)
    ensures Reachable(Replan(q, p), from)
  {
    hide Forward, Reverse, Clipped;
    var w, r := q[p..], Replan(q, p);
    StoppableSuffix(q, p);
    ForwardFirst(w);
    forall i | from <= i && i + 1 < |r| ensures r[i + 1].entry <= r[i].entry + r[i].gain {
      if i >= p {
        ForwardRange(w, i + 1 - p);
        assert w[i - p] == q[i];
      }
    }
  }

  /** A profile kept below the locked part of the plan, seen from the window. */
  lemma SuffixProfile(q: seq<Junction>, p: nat, f: seq<real>)
    requires p < |f| && Locked(q, p) && Bounded(Replan(q, p), f)
    ensures Bounded(q[p..], f[p..])
    ensures forall i :: 0 <= i <= p ==> f[i] <= q[i].entry
  {
    ReplanLimits(q, p);
    BoundedSameLimits(q, Replan(q, p), f);
    BoundedPrefix(q, f, p + 1);
    var g := f[..p + 1];
    assert Below(g, q);
    forall i | 0 <= i <= p ensures f[i] <= q[i].entry {
      assert f[i] == g[i];
    }
    BoundedSuffix(q, f, p);
  }

  /** Where the forward pass moves the planned pointer, the plan is locked again. */
  lemma ReplanLocked(q: seq<Junction>, p: nat)
    requires p < |q| && Stoppable(q, 0) && Locked(q, p)
    ensures Locked(Replan(q, p), ReplanOffset(q, p))
  {
    var r, p' := Replan(q, p), ReplanOffset(q, p);
    forall f | |f| == p' + 1 && Bounded(r, f) ensures Below(f, r) {
      SuffixProfile(q, p, f);
      forall i | 0 <= i < |f| ensures f[i] <= r[i].entry {
        if i > p {
          LockedAt(q, p, f, i);
        }
      }
    }
  }

  lemma LockedAt(q: seq<Junction>, p: nat, f: seq<real>, i: nat)
    requires p < i < |f| <= |q| && |f| == ReplanOffset(q, p) + 1 && Stoppable(q, 0) && Bounded(q[p..], f[p..])
    ensures f[i] <= Replan(q, p)[i].entry
  {
    hide Reverse, Forward, Clipped, PlannedAt;
    StoppableSuffix(q, p);
    PlannedIsLocked(q[p..], |q| - p - 1, f[p..]);
    assert f[p..][i - p] == f[i];
  }

  lemma ReplanSuffix(q: seq<Junction>, p: nat)
    requires 0 < p < |q|
    ensures Replan(q, p)[1..] == Replan(q[1..], p - 1)
    ensures ReplanOffset(q, p) - 1 == ReplanOffset(q[1..], p - 1)
  {
    assert q[1..][p - 1..] == q[p..];
  }

  /** A locked plan stays locked without its first block, as long as that block could
      reach the planned speed of the second. */
  lemma LockedWithoutFirst(q: seq<Junction>, p: nat)
    requires 0 < p < |q| && Locked(q, p) && q[0].gain >= 0.0
    requires q[1].entry <= q[0].entry + q[0].gain && q[1].entry <= q[1].limit
    ensures Locked(q[1..], p - 1)
  {
    var s := q[1..];
    forall f | |f| == p && Bounded(s, f) ensures Below(f, s) {
      var g := [Min(q[0].entry, f[0] + q[0].gain)] + f;
      forall i | 0 <= i && i + 1 < |g|
        ensures g[i] <= g[i + 1] + q[i].gain && g[i + 1] <= g[i] + q[i].gain
      {
        if i > 0 {
          assert g[i] == f[i - 1] && g[i + 1] == f[i] && s[i - 1] == q[i];
        }
      }
      forall i | 0 < i < |g| ensures g[i] <= q[i].limit {
        if i > 1 {
          assert s[i - 1] == q[i];
        } else {
          assert f[0] <= q[1].entry;
        }
      }
      assert Bounded(q, g);
      assert Below(g, q);
      forall i | 0 <= i < |f| ensures f[i] <= s[i].entry {
        assert g[i + 1] == f[i];
      }
    }
  }

  lemma ReplanPinned(q: seq<Junction>, p: nat)
    requires p < |q| && Stoppable(q, 0) && Pinned(q, p)
    ensures Pinned(Replan(q, p), ReplanOffset(q, p))
  {
    var r, p' := Replan(q, p), ReplanOffset(q, p);
    ReplanLocked(q, p);
    if p > 0 {
      StoppableSuffix(q, 1);
      ReplanLocked(q[1..], p - 1);
      ReplanSuffix(q, p);
    } else if p' > 0 {
      ReplanStoppable(q, p);
      ReplanReachable(q, p, 0);
      LockedWithoutFirst(r, p');
    }
  }

  /** A feasible plan is one of the admissible profiles. */
  lemma FeasibleAdmissible(q: seq<Junction>)
    requires Feasible(q)
    ensures Admissible(q, Entries(q))
  {
    var e := Entries(q);
    forall i | 0 <= i && i + 1 < |e| ensures e[i] <= e[i + 1] + q[i].gain && e[i + 1] <= e[i] + q[i].gain {
      assert q[i].entry <= ExitSqr(q, i) + q[i].gain;
    }
    if |q| > 0 {
      assert q[|q| - 1].entry <= ExitSqr(q, |q| - 1) + q[|q| - 1].gain;
    }
  }

  /** THE PLAN IS OPTIMAL: whatever the planned pointer lets the planner skip, the
      entry speeds it leaves are the greatest that respect every limit. */
  lemma ReplanOptimal(q: seq<Junction>, p: nat)
    requires p < |q| && Stoppable(q, 0) && Locked(q, p)
    requires p == 0 || Reachable(q, 0)
    ensures Optimal(Replan(q, p)) && Feasible(Replan(q, p))
  {
    var r := Replan(q, p);
    ReplanStoppable(q, p);
    ReplanReachable(q, p, 0);
    FeasibleAdmissible(r);
    forall f | Admissible(r, f) ensures Below(f, r) {
      ReplanAbove(q, p, f);
    }
  }

  lemma ReplanAbove(q: seq<Junction>, p: nat, f: seq<real>)
    requires p < |q| && Stoppable(q, 0) && Locked(q, p) && Admissible(Replan(q, p), f)
    ensures Below(f, Replan(q, p))
  {
    hide Forward, Stoppable;
    SuffixProfile(q, p, f);
    forall i | 0 <= i < |f| ensures f[i] <= Replan(q, p)[i].entry {
      if i > p {
        ReplanAboveAt(q, p, f, i);
      }
    }
  }

  lemma ReplanAboveAt(q: seq<Junction>, p: nat, f: seq<real>, i: nat)
    requires p < i < |q| == |f| && Stoppable(q, 0) && Bounded(q[p..], f[p..]) && f[|f| - 1] <= q[|q| - 1].gain
    ensures f[i] <= Replan(q, p)[i].entry
  {
    StoppableSuffix(q, p);
    BelowWindow(q[p..], f[p..], i - p);
  }

  /** A window profile that comes to a stop is below the forward pass. */
  lemma BelowWindow(w: seq<Junction>, f: seq<real>, i: nat)
    requires Stoppable(w, 1) && Bounded(w, f) && 0 < i < |f| == |w| && f[|f| - 1] <= w[|w| - 1].gain
    ensures f[i] <= Forward(w, i)
  {
    forall k | 0 < k <= i ensures f[k] <= Reverse(w, k) {
      BelowReverse(w, f, |w| - 1, k);
    }
    BelowForward(w, f, i);
  }

  lemma OptimalUnique(q: seq<Junction>, r: seq<Junction>)
    requires |q| == |r| && Optimal(q) && Optimal(r)
    requires |q| > 0 ==> q[0].entry == r[0].entry
    requires forall i :: 0 <= i < |q| ==> q[i].gain == r[i].gain && q[i].limit == r[i].limit
    ensures Entries(q) == Entries(r)
  {
    BoundedSameLimits(q, r, Entries(r));
    BoundedSameLimits(r, q, Entries(q));
    assert Below(Entries(r), q) && Below(Entries(q), r);
    forall i | 0 <= i < |q| ensures Entries(q)[i] == Entries(r)[i] {
      assert Entries(r)[i] <= q[i].entry && Entries(q)[i] <= r[i].entry;
    }
  }

  /** THE SHORTCUT IS SOUND: re-planning from the planned pointer gives the very plan
      that re-planning the whole queue from its first block gives. */
  lemma ShortcutSound(q: seq<Junction>, p: nat)
    requires p < |q| && Feasible(q) && Locked(q, p)
    ensures Replan(q, p) == Replan(q, 0)
  {
    ReplanOptimal(q, p);
    assert Locked(q, 0);
    ReplanOptimal(q, 0);
    ReplanLimits(q, p);
    ReplanLimits(q, 0);
    OptimalUnique(Replan(q, p), Replan(q, 0));
    forall i | 0 <= i < |q| ensures Replan(q, p)[i] == Replan(q, 0)[i] {
      assert Entries(Replan(q, p))[i] == Entries(Replan(q, 0))[i];
    }
  }

  /** The fastest the first block may be entered if the queue is still to stop. */
  function TailCeiling(q: seq<Junction>): real
    requires |q| > 0
  {
    (if |q| > 1 then Reverse(q, 1) else 0.0) + q[0].gain
  }

  /** A queue whose first block moves too fast to be stopped has no plan at all, and
      then what the planner leaves is not one; otherwise it always finds one. */
  lemma PlanExistsIff(q: seq<Junction>)
    requires |q| > 0 && Stoppable(q, 1)
    ensures Feasible(Replan(q, 0)) <==> q[0].entry <= TailCeiling(q)
    ensures (exists f :: Admissible(q, f) && f[0] == q[0].entry) <==> q[0].entry <= TailCeiling(q)
  {
    var r := Replan(q, 0);
    if q[0].entry <= TailCeiling(q) {
      FirstStoppable(q);
      FeasibleAdmissible(r);
      var e := Entries(r);
      ReplanLimits(q, 0);
      BoundedSameLimits(q, r, e);
      assert Admissible(q, e) && e[0] == q[0].entry;
    } else {
      TooFast(q);
    }
  }

  lemma TooFast(q: seq<Junction>)
    requires |q| > 0 && Stoppable(q, 1) && q[0].entry > TailCeiling(q)
    ensures !Feasible(Replan(q, 0))
    ensures forall f :: Admissible(q, f) ==> f[0] != q[0].entry
  {
    var r := Replan(q, 0);
    assert q[0..] == q;
    if |q| > 1 {
      ForwardRange(q, 1);
    }
    assert r[0].entry > ExitSqr(r, 0) + r[0].gain;
    forall f | Admissible(q, f) ensures f[0] != q[0].entry {
      if |q| > 1 {
        BelowReverse(q, f, |q| - 1, 1);
      }
    }
  }

  lemma FirstRange(q: seq<Junction>, i: nat)
    requires i < |q| && Stoppable(q, 1) && q[0].entry <= TailCeiling(q)
    ensures 0.0 <= Forward(q, i) && (i > 0 ==> Forward(q, i) <= q[i].limit)
    ensures Forward(q, i) <= (if i + 1 < |q| then Forward(q, i + 1) else 0.0) + q[i].gain
    ensures i + 1 < |q| ==> Forward(q, i + 1) <= Forward(q, i) + q[i].gain
  {
    hide Forward, Reverse, Clipped;
    ForwardRange(q, i);
    ForwardFirst(q);
    if i + 1 < |q| {
      ForwardRange(q, i + 1);
    }
    if i > 0 {
      ForwardStops(q, i);
    }
  }

  lemma FirstStoppable(q: seq<Junction>)
    requires |q| > 0 && Stoppable(q, 1)
    requires q[0].entry <= TailCeiling(q)
    ensures Feasible(Replan(q, 0))
  {
    hide Forward, Reverse, Clipped;
    var r := Replan(q, 0);
    assert q[0..] == q;
    ForwardFirst(q);
    forall i | 0 <= i < |r|
      ensures Physical(r[i]) && (i > 0 ==> r[i].entry <= r[i].limit) && r[i].entry <= ExitSqr(r, i) + r[i].gain
      ensures i + 1 < |r| ==> r[i + 1].entry <= r[i].entry + r[i].gain
    {
      FirstRange(q, i);
    }
  }
}
