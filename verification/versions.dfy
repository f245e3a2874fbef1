/** How the two back-ends relate. They agree on the first cycle's zones
    wherever the pace is at least 3:00 per km and, away from the floors, on
    every later cycle; they part where the second re-applies the floors.
    The trees the second keeps (the first week of a cycle and the sixth)
    are the first back-end's trees with every share ten times larger. */
module Versions {
  import opened Pace
  import opened Workout
  import CyclePlan
  import LinearPlan

  /** The first cycle's zones are the same in both back-ends exactly when
      the pace is no faster than 3:00 per km; faster than that, the second
      floors the base and so the threshold and easy zones differ. */
  lemma FirstCycleAgrees(paceSeconds: int)
    ensures LinearPlan.ZonesFor(paceSeconds, 1) == CyclePlan.ZonesFor(paceSeconds) <==> paceSeconds >= 180
  {
    if paceSeconds < 180 {
      assert LinearPlan.ZonesFor(paceSeconds, 1).threshold == 210;
    }
  }

  /** While the shifted pace stays at or above 3:30 per km, the second
      back-end's zones for a week are the first one's. */
  lemma LaterCyclesAgree(paceSeconds: int, week: int)
    requires week >= 1
    requires paceSeconds - 10 * (LinearPlan.Cycle(week) - 1) >= 210
    ensures LinearPlan.ZonesFor(paceSeconds, LinearPlan.Cycle(week))
         == CyclePlan.ZonesOfWeek(CyclePlan.ZonesFor(paceSeconds), week)
  {
  }

  /** They part once the floors bind: at 3:30 per km the seventh week has
      the very fast zone at 2:50 in the first back-end and at 3:00 in the
      second. */
  lemma FloorsDiverge()
    ensures CyclePlan.ZonesOfWeek(CyclePlan.ZonesFor(210), 7) == Zones(170, 200, 230, 260)
    ensures LinearPlan.ZonesFor(210, LinearPlan.Cycle(7)) == Zones(180, 210, 230, 260)
  {
  }

  /** A template with every share multiplied by c. */
  function ScaleShares(s: Step, c: real): (r: Step)
    ensures r.Block? <==> s.Block?
    decreases s
  {
    match s
    case Fixed(a) => s
    case Run(share, zone, lo, hi) => Run(share * c, zone, lo, hi)
    case RunAt(share, intensity) => RunAt(share * c, intensity)
    case Block(title, count, steps) =>
      Block(title, count, seq(|steps|, i requires 0 <= i < |steps| => ScaleShares(steps[i], c)))
  }

  function ScaleAllShares(steps: seq<Step>, c: real): (r: seq<Step>)
    ensures |r| == |steps|
  {
    seq(|steps|, i requires 0 <= i < |steps| => ScaleShares(steps[i], c))
  }

  /** Multiplying the shares by c is multiplying the scale by c. */
  lemma {:induction false} InstantiateScaledShares(s: Step, z: Zones, c: real, scale: real, k: real)
    requires c * scale == k
    ensures Instantiate(ScaleShares(s, c), z, scale) == Instantiate(s, z, k)
    decreases s
  {
    match s
    case Fixed(a) =>
    case Run(share, zone, lo, hi) =>
      assert share * c * scale == share * k;
      assert Instantiate(ScaleShares(s, c), z, scale).distance == Instantiate(s, z, k).distance;
    case RunAt(share, intensity) =>
      assert share * c * scale == share * k;
      assert Instantiate(ScaleShares(s, c), z, scale).distance == Instantiate(s, z, k).distance;
    case Block(title, count, steps) =>
      var lhs := Instantiate(ScaleShares(s, c), z, scale);
      var rhs := Instantiate(s, z, k);
      forall i | 0 <= i < |steps|
        ensures lhs.activities[i] == rhs.activities[i]
      {
        InstantiateScaledShares(steps[i], z, c, scale, k);
      }
      assert lhs.activities == rhs.activities;
  }

  lemma InstantiateAllScaledShares(steps: seq<Step>, z: Zones, c: real, scale: real, k: real)
    requires c * scale == k
    ensures InstantiateAll(ScaleAllShares(steps, c), z, scale) == InstantiateAll(steps, z, k)
  {
    forall i | 0 <= i < |steps|
      ensures InstantiateAll(ScaleAllShares(steps, c), z, scale)[i] == InstantiateAll(steps, z, k)[i]
    {
      InstantiateScaledShares(steps[i], z, c, scale, k);
    }
  }

  /** The second back-end's trees are the first one's for the same cycle
      position (its week 6 being the first one's position 0), with every
      share ten times larger. */
  lemma TemplatesTenfold(position: int)
    requires position == 1 || position == 6
    ensures LinearPlan.IntervalTemplate(position) == ScaleAllShares(CyclePlan.IntervalTemplate(position % 6), 10.0)
    ensures LinearPlan.ThresholdTemplate(position) == ScaleAllShares(CyclePlan.ThresholdTemplate(position % 6), 10.0)
  {
    IntervalTenfold(position);
    ThresholdTenfold(position);
  }

  lemma IntervalTenfold(position: int)
    requires position == 1 || position == 6
    ensures LinearPlan.IntervalTemplate(position) == ScaleAllShares(CyclePlan.IntervalTemplate(position % 6), 10.0)
  {
    var mine := LinearPlan.IntervalTemplate(position);
    var theirs := ScaleAllShares(CyclePlan.IntervalTemplate(position % 6), 10.0);
    forall i | 0 <= i < |mine|
      ensures mine[i] == theirs[i]
    {
      if mine[i].Block? {
        assert mine[i].steps == theirs[i].steps;
      }
    }
  }

  lemma ThresholdTenfold(position: int)
    requires position == 1 || position == 6
    ensures LinearPlan.ThresholdTemplate(position) == ScaleAllShares(CyclePlan.ThresholdTemplate(position % 6), 10.0)
  {
    var mine := LinearPlan.ThresholdTemplate(position);
    var theirs := ScaleAllShares(CyclePlan.ThresholdTemplate(position % 6), 10.0);
    forall i | 0 <= i < |mine|
      ensures mine[i] == theirs[i]
    {
      if mine[i].Block? {
        assert mine[i].steps == theirs[i].steps;
      }
    }
  }

  /** So a session of the second back-end at distance factor f has exactly
      the activities the first one would give at scale 10 f, with the same
      zones: the first back-end at a 10 km base in its first cycle. */
  lemma SessionsTenfold(z: Zones, week: int, f: real, scale: real)
    requires scale == 10.0 * f
    ensures var position := LinearPlan.Position(week);
      && LinearPlan.IntervalSession(z, week, 0, f).activities
         == InstantiateAll(CyclePlan.IntervalTemplate(if position == 1 then 1 else 0), z, scale)
      && LinearPlan.ThresholdSession(z, week, 0, f).activities
         == InstantiateAll(CyclePlan.ThresholdTemplate(if position == 1 then 1 else 0), z, scale)
  {
    var position := LinearPlan.Position(week);
    var p := if position == 1 then 1 else 6;
    TemplatesTenfold(p);
    assert LinearPlan.IntervalTemplate(position) == LinearPlan.IntervalTemplate(p);
    assert LinearPlan.ThresholdTemplate(position) == LinearPlan.ThresholdTemplate(p);
    InstantiateAllScaledShares(CyclePlan.IntervalTemplate(p % 6), z, 10.0, f, scale);
    InstantiateAllScaledShares(CyclePlan.ThresholdTemplate(p % 6), z, 10.0, f, scale);
  }
}
