/** The plan over whole runs: blocks streamed in, executed, discarded, held and resumed. */
module PlanRuns {
  import opened NutsBolts
  import opened PlanSpec
  import opened PlanTheorems

  /** The queue as the planner sees it, the first block carrying its present speed and
      remaining length; `holding` from a feed hold until the plan is reinitialised. */
  datatype Plan = Plan(q: seq<Junction>, planned: nat, holding: bool)

  datatype Event =
    | Append(limit: real, gain: real)       // plan_buffer_line
    | Travel(entry: real, gain: real)       // the segment generator consumes some of the first block
    | Discard                               // plan_discard_current_block
    | Hold                                  // a feed hold begins
    | Reinitialize                          // plan_cycle_reinitialize

  /** What the segment generator may do to the first block: it never gains or sheds speed
      faster than the block's acceleration, and it can always still make the planned exit
      speed. In a hold it may end slower than that. */
  predicate Allowed(s: Plan, e: Event) {
    match e
    case Append(limit, gain) => limit >= 0.0 && gain >= 0.0 && (s.q == [] ==> limit == 0.0)
    case Travel(entry, gain) =>
      && |s.q| > 0 && 0.0 <= gain <= s.q[0].gain
      && 0.0 <= entry <= s.q[0].entry + (s.q[0].gain - gain)
      && entry <= ExitSqr(s.q, 0) + gain
      && (s.holding || |s.q| == 1 || s.q[1].entry <= entry + gain)
    case Discard => |s.q| > 0
    case Hold => true
    case Reinitialize => |s.q| > 0
  }

  function Step(s: Plan, e: Event): Plan
    requires Allowed(s, e)
    requires s.q != [] ==> s.planned < |s.q|
  {
    match e
    case Append(limit, gain) =>
      var q := s.q + [Junction(0.0, limit, gain)];
      if s.q == [] then Plan(q, 0, s.holding)
      else Plan(Replan(q, s.planned), ReplanOffset(q, s.planned), s.holding)
    case Travel(entry, gain) => s.(q := s.q[0 := s.q[0].(entry := entry, gain := gain)])
    case Discard => s.(q := s.q[1..], planned := if s.planned == 0 then 0 else s.planned - 1)
    case Hold => s.(holding := true)
    case Reinitialize => Plan(Replan(s.q, 0), ReplanOffset(s.q, 0), false)
  }

  /** The planner's invariant: the planned pointer lies in the queue and keeps its promise,
      every block can brake for the next, and outside a hold every block can also reach it. */
  ghost predicate Sound(s: Plan) {
    s.q == [] ||
    (&& s.planned < |s.q|
     && Stoppable(s.q, 0)
     && Pinned(s.q, s.planned)
     && Reachable(s.q, if s.holding then 1 else 0))
  }

  lemma AppendReady(q: seq<Junction>, p: nat, b: Junction)
    requires |q| > 0 && p < |q| && Stoppable(q, 0) && Pinned(q, p)
    requires b.entry == 0.0 && b.limit >= 0.0 && b.gain >= 0.0
    ensures Stoppable(q + [b], 0) && Pinned(q + [b], p)
    ensures Reachable(q, 1) ==> Reachable(q + [b], 1)
    ensures Reachable(q, 0) ==> Reachable(q + [b], 0)
  {
    var r := q + [b];
    forall i | 0 <= i < |r|
      ensures Physical(r[i]) && r[i].entry <= ExitSqr(r, i) + r[i].gain
    {
      if i < |q| {
        assert q[i].entry <= ExitSqr(q, i) + q[i].gain && r[i] == q[i];
      }
    }
    LockedAppend(q, p, b);
    if p > 0 {
      LockedAppend(q[1..], p - 1, b);
      assert (q + [b])[1..] == q[1..] + [b];
    }
  }

  /** The promise of the planned pointer is about every block that may ever follow. */
  lemma LockedAppend(q: seq<Junction>, p: nat, b: Junction)
    requires Locked(q, p)
    ensures Locked(q + [b], p)
  {
    var r := q + [b];
    forall f | |f| == p + 1 && Bounded(r, f) ensures Below(f, r) {
      assert Bounded(q, f) by {
        forall i | 0 <= i < |f| ensures r[i] == q[i] {
        }
      }
      assert Below(f, q);
    }
  }

  /** Executing part of the first block does not break the promise. */
  lemma LockedTravel(q: seq<Junction>, p: nat, entry: real, gain: real)
    requires Locked(q, p) && 0.0 <= gain <= q[0].gain && entry <= q[0].entry + (q[0].gain - gain)
    ensures Locked(q[0 := q[0].(entry := entry, gain := gain)], p)
  {
    var r := q[0 := q[0].(entry := entry, gain := gain)];
    forall f | |f| == p + 1 && Bounded(r, f) ensures Below(f, r) {
      if p > 0 {
        var g := f[0 := Min(q[0].entry, f[1] + q[0].gain)];
        forall i | 0 <= i && i + 1 < |g| ensures g[i] <= g[i + 1] + q[i].gain && g[i + 1] <= g[i] + q[i].gain {
          if i > 0 {
            assert g[i] == f[i] && r[i] == q[i];
          } else {
            assert f[1] <= f[0] + r[0].gain;
          }
        }
        forall i | 0 < i < |g| ensures g[i] <= q[i].limit {
          assert g[i] == f[i] && r[i] == q[i];
        }
        assert Bounded(q, g);
        assert Below(g, q);
        forall i | 0 <= i < |f| ensures f[i] <= r[i].entry {
          if i > 0 {
            assert g[i] == f[i];
          }
        }
      }
    }
  }

  lemma TravelKeeps(s: Plan, entry: real, gain: real)
    requires Sound(s) && Allowed(s, Travel(entry, gain))
    ensures Sound(Step(s, Travel(entry, gain)))
  {
    var r := Step(s, Travel(entry, gain)).q;
    LockedTravel(s.q, s.planned, entry, gain);
    assert r[1..] == s.q[1..];
    forall i | 0 <= i < |r| ensures Physical(r[i]) && r[i].entry <= ExitSqr(r, i) + r[i].gain {
      assert Physical(s.q[i]) && s.q[i].entry <= ExitSqr(s.q, i) + s.q[i].gain;
    }
    assert Reachable(s.q, 1);
  }

  lemma DiscardKeeps(s: Plan)
    requires Sound(s) && |s.q| > 0
    ensures Sound(Step(s, Discard)) && Reachable(s.q[1..], 0)
  {
    var q, r := s.q, s.q[1..];
    forall i | 0 <= i && i + 1 < |r| ensures r[i + 1].entry <= r[i].entry + r[i].gain {
      assert r[i] == q[i + 1] && r[i + 1] == q[i + 2];
    }
    if |r| > 0 {
      StoppableSuffix(q, 1);
      if s.planned > 1 {
        LockedWithoutFirst(r, s.planned - 1);
      }
    }
  }

  lemma AppendKeeps(s: Plan, limit: real, gain: real)
    requires Sound(s) && Allowed(s, Append(limit, gain))
    ensures Sound(Step(s, Append(limit, gain)))
  {
    var b := Junction(0.0, limit, gain);
    if s.q != [] {
      var q := s.q + [b];
      AppendReady(s.q, s.planned, b);
      ReplanStoppable(q, s.planned);
      ReplanPinned(q, s.planned);
      if s.planned == 0 || !s.holding {
        ReplanReachable(q, s.planned, 0);
      } else {
        ReplanReachable(q, s.planned, 1);
      }
    }
  }

  lemma ReinitializeKeeps(s: Plan)
    requires Sound(s) && |s.q| > 0
    ensures Sound(Step(s, Reinitialize)) && Optimal(Step(s, Reinitialize).q)
  {
    assert Locked(s.q, 0);
    ReplanStoppable(s.q, 0);
    ReplanPinned(s.q, 0);
    ReplanOptimal(s.q, 0);
  }

  lemma StepKeepsSound(s: Plan, e: Event)
    requires Sound(s) && Allowed(s, e)
    ensures Sound(Step(s, e))
  {
    match e
    case Append(limit, gain) => AppendKeeps(s, limit, gain);
    case Travel(entry, gain) => TravelKeeps(s, entry, gain);
    case Discard => DiscardKeeps(s);
    case Hold =>
    case Reinitialize => ReinitializeKeeps(s);
  }

  ghost predicate RunsTo(s: Plan, es: seq<Event>, t: Plan)
    decreases |es|
  {
    if es == [] then s == t
    else Allowed(s, es[0]) && (s.q != [] ==> s.planned < |s.q|) && RunsTo(Step(s, es[0]), es[1..], t)
  }

  /** EVERY RUN: starting from an empty planner, whatever sequence of additions, partial
      executions, discards, holds and resumes happens, the planned pointer stays inside the
      queue and keeps its promise. */
  lemma {:induction false} EveryRunSound(s: Plan, es: seq<Event>, t: Plan)
    requires Sound(s) && RunsTo(s, es, t)
    ensures Sound(t)
    decreases |es|
  {
    if es != [] {
      StepKeepsSound(s, es[0]);
      EveryRunSound(Step(s, es[0]), es[1..], t);
    }
  }

  /** ... and outside a hold every block added leaves the optimal plan, the same one that
      re-planning the whole queue would have given. */
  lemma EveryAdditionOptimal(es: seq<Event>, t: Plan, limit: real, gain: real)
    requires RunsTo(Plan([], 0, false), es, t) && !t.holding
    requires Allowed(t, Append(limit, gain))
    ensures t.q != [] ==> t.planned < |t.q|
    ensures Optimal(Step(t, Append(limit, gain)).q)
    ensures t.q != [] ==>
              Step(t, Append(limit, gain)).q == Replan(t.q + [Junction(0.0, limit, gain)], 0)
  {
    var b := Junction(0.0, limit, gain);
    EveryRunSound(Plan([], 0, false), es, t);
    if t.q == [] {
      var r := [b];
      FeasibleAdmissible(r);
    } else {
      AppendReady(t.q, t.planned, b);
      ReplanOptimal(t.q + [b], t.planned);
      ShortcutSound(t.q + [b], t.planned);
    }
  }
}
