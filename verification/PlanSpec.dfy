/** The look-ahead plan as mathematics: what a sequence of queued blocks may be
    planned to do, the greatest such plan, and the two passes that compute it. */
module PlanSpec {
  import opened NutsBolts

  /** What planning needs to know of a queued block, speeds squared in (mm/min)^2. */
  datatype Junction = Junction(
    entry: real,   // planned speed at which the block is entered
    limit: real,   // the most that speed may be
    gain: real)    // what the block can gain or shed over its remaining length: 2 * acceleration * millimeters

  /** What holds of every ring slot, live or stale. */
  predicate Physical(b: Junction) {
    b.entry >= 0.0 && b.limit >= 0.0 && b.gain >= 0.0
  }

  predicate AllPhysical(q: seq<Junction>) {
    forall i :: 0 <= i < |q| ==> Physical(q[i])
  }

  /** The planned exit speed of block `i`: the next block's entry, or a full stop. */
  function ExitSqr(q: seq<Junction>, i: nat): real
    requires i < |q|
  {
    if i + 1 < |q| then q[i + 1].entry else 0.0
  }

  /** Every block from `from` on can brake to its planned exit speed, and no block
      behind the first enters faster than its junction allows. */
  ghost predicate Stoppable(q: seq<Junction>, from: nat) {
    && AllPhysical(q)
    && (forall i :: 0 < i < |q| ==> q[i].entry <= q[i].limit)
    && (forall i :: from <= i < |q| ==> q[i].entry <= ExitSqr(q, i) + q[i].gain)
  }

  /** Every block from `from` on can speed up to its planned exit speed. */
  ghost predicate Reachable(q: seq<Junction>, from: nat) {
    forall i :: from <= i && i + 1 < |q| ==> q[i + 1].entry <= q[i].entry + q[i].gain
  }

  ghost predicate Feasible(q: seq<Junction>) {
    Stoppable(q, 0) && Reachable(q, 0)
  }

  /** The entry speeds `f` keep every limit of the blocks `q`, start no faster
      than the first block's entry speed, and end in a full stop. */
  ghost predicate Admissible(q: seq<Junction>, f: seq<real>) {
    && |f| == |q|
    && Bounded(q, f)
    && (|f| > 0 ==> f[|f| - 1] <= q[|f| - 1].gain)
  }

  /** As `Admissible`, for a prefix of the queue and without the final stop. */
  ghost predicate Bounded(q: seq<Junction>, f: seq<real>) {
    && |f| <= |q|
    && (|f| > 0 ==> f[0] <= q[0].entry)
    && (forall i :: 0 < i < |f| ==> f[i] <= q[i].limit)
    && (forall i :: 0 <= i && i + 1 < |f| ==> f[i] <= f[i + 1] + q[i].gain)
    && (forall i :: 0 <= i && i + 1 < |f| ==> f[i + 1] <= f[i] + q[i].gain)
  }

  /** The planned entry speeds form the pointwise greatest admissible profile. */
  ghost predicate Optimal(q: seq<Junction>) {
    && Admissible(q, Entries(q))
    && forall f :: Admissible(q, f) ==> Below(f, q)
  }

  ghost predicate Below(f: seq<real>, q: seq<Junction>) {
    |f| <= |q| && forall i :: 0 <= i < |f| ==> f[i] <= q[i].entry
  }

  function Entries(q: seq<Junction>): seq<real> {
    seq(|q|, i requires 0 <= i < |q| => q[i].entry)
  }

  /** Nothing appended behind block `p` can ever raise the entry speeds of the
      blocks up to and including `p`: this is what the planned pointer claims. */
  ghost predicate Locked(q: seq<Junction>, p: nat) {
    && p < |q|
    && forall f :: |f| == p + 1 && Bounded(q, f) ==> Below(f, q)
  }

  /** The promise of the planned pointer, in a form that survives the first block
      being discarded while a hold has slowed it below its planned exit speed. */
  ghost predicate Pinned(q: seq<Junction>, p: nat) {
    && Locked(q, p)
    && (p > 0 ==> Locked(q[1..], p - 1))
  }

  // ---------------------------------------------------------------------------
  // The two passes
  // ---------------------------------------------------------------------------

  /** The entry speed the reverse pass leaves in block `k` of the re-planned window `w`.
      A block already at its maximum is skipped, except the last, which is always computed. */
  function Reverse(w: seq<Junction>, k: nat): real
    requires 0 < k < |w|
    decreases |w| - k
  {
    if k == |w| - 1 then Min(w[k].limit, w[k].gain)
    else if w[k].entry == w[k].limit then w[k].entry
    else if Reverse(w, k + 1) + w[k].gain < w[k].limit then Reverse(w, k + 1) + w[k].gain
    else w[k].limit
  }

  /** The entry speed the forward pass leaves in block `k`. */
  function Forward(w: seq<Junction>, k: nat): real
    requires k < |w|
    decreases k, 1
  {
    if k == 0 then w[0].entry
    else if Clipped(w, k) then Forward(w, k - 1) + w[k - 1].gain
    else Reverse(w, k)
  }

  /** Block `k - 1` must accelerate all the way and still cannot reach the reverse-pass speed. */
  predicate Clipped(w: seq<Junction>, k: nat)
    requires 0 < k < |w|
    decreases k, 0
  {
    Forward(w, k - 1) < Reverse(w, k) && Forward(w, k - 1) + w[k - 1].gain < Reverse(w, k)
  }

  /** The planned pointer, as an offset into the window, once the forward pass has seen block `k`. */
  function PlannedAt(w: seq<Junction>, k: nat): (p: nat)
    requires k < |w|
    ensures p <= k
  {
    if k == 0 then 0
    else if Clipped(w, k) || Forward(w, k) == w[k].limit then k
    else PlannedAt(w, k - 1)
  }

  /** The whole queue after re-planning from offset `p`. */
  function Replan(q: seq<Junction>, p: nat): (r: seq<Junction>)
    requires p < |q|
    ensures |r| == |q|
  {
    seq(|q|, i requires 0 <= i < |q| => if i <= p then q[i] else q[i].(entry := Forward(q[p..], i - p)))
  }

  /** The planned offset into the queue after re-planning from offset `p`. */
  function ReplanOffset(q: seq<Junction>, p: nat): (r: nat)
    requires p < |q|
    ensures p <= r < |q|
  {
    p + PlannedAt(q[p..], |q| - p - 1)
  }
}
