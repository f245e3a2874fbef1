/** The second back-end (app-v4.py). The zones are recomputed every week
    from the average pace, 10 s/km faster per six-week cycle but never below
    the floors; distances are multiples of a distance factor, the ratio of
    the week's long run to a base long run banded by pace, and the long run
    grows 0.5 km a week up to 5 km over its base. */
module LinearPlan {
  import opened Wrappers
  import opened Pace
  import opened Workout

  /** The base after the cycle's adjustment, floored at 3:00 per km. */
  function AdjustedBase(paceSeconds: int, cycle: int): (b: int)
    ensures b >= 180
  {
    var adjustment := (cycle - 1) * 10;
    Max(paceSeconds - adjustment, 180)
  }

  /** The zone arithmetic of `calculate_paces(average_pace, cycle)`. */
  function ZonesFor(paceSeconds: int, cycle: int): Zones {
    var b := AdjustedBase(paceSeconds, cycle);
    Zones(Max(b - 30, 180), Max(b, 210), b + 30, b + 60)
  }

  /** `calculate_paces`: None where the pace does not parse. Whatever the
      cycle, the very fast zone is at least 3:00, the fast zone at least
      3:30, and the zones are ordered from very fast to easy, easy being
      30 s/km slower than threshold. */
  function CalculatePaces(averagePace: string, cycle: int): (r: Option<Zones>)
    ensures r.Some? <==> Parse(averagePace).Some?
    ensures r.Some? ==>
      && r.value.veryFast >= 180 && r.value.fast >= 210
      && r.value.easy == r.value.threshold + 30
      && r.value.easy > r.value.threshold >= r.value.fast >= r.value.veryFast
  {
    match Parse(averagePace)
    case None => None
    case Some(paceSeconds) => Some(ZonesFor(paceSeconds, cycle))
  }

  /** A later cycle never has a slower zone. */
  lemma ZonesNonIncreasing(paceSeconds: int, c1: int, c2: int)
    requires c1 <= c2
    ensures var early := ZonesFor(paceSeconds, c1);
      var late := ZonesFor(paceSeconds, c2);
      && late.veryFast <= early.veryFast && late.fast <= early.fast
      && late.threshold <= early.threshold && late.easy <= early.easy
  {
    assert AdjustedBase(paceSeconds, c2) <= AdjustedBase(paceSeconds, c1);
  }

  /** Away from the floors, each cycle is exactly 10 s/km faster. */
  lemma ZonesCycleStep(paceSeconds: int, cycle: int)
    requires paceSeconds - cycle * 10 >= 210
    ensures ZonesFor(paceSeconds, cycle + 1) == Shift(ZonesFor(paceSeconds, cycle), -10)
  {
  }

  /** The week's position in its six-week cycle, `(week - 1) % 6 + 1`. */
  function Position(week: int): (p: int)
    ensures 1 <= p <= 6
  {
    (week - 1) % 6 + 1
  }

  /** The trees of `generate_interval_session`. Only position 1 has a
      branch of its own; every other position takes the branch written for
      week 6. Shares are of the distance factor. */
  function IntervalTemplate(position: int): seq<Step>
  {
    if position == 1 then
      [Fixed(WarmUp), Fixed(Rest("3min")),
       Block("Repetir 5x", 5, [Run(1.0, FastZone, 0, 5), Fixed(Rest("2min"))]),
       Fixed(CoolDown)]
    else
      [Fixed(WarmUp), Fixed(Rest("3min")),
       Block("Repetir 2x", 2, [Run(1.0, FastZone, 5, 10), Fixed(Rest("2min"))]),
       Block("Repetir 3x", 3, [Run(0.5, FastZone, -15, -10), Fixed(Rest("2min"))]),
       Block("Repetir 5x", 5, [RunAt(0.2, "Muito forte"), Fixed(Rest("1min30seg"))]),
       Fixed(CoolDown)]
  }

  /** The trees of `generate_threshold_session`, with the same two
      branches. */
  function ThresholdTemplate(position: int): seq<Step>
  {
    if position == 1 then
      [Fixed(WarmUp), Fixed(Rest("3min")),
       Block("Repetir 5x", 5, [Run(1.0, FastZone, 0, 5), Fixed(Rest("2min"))]),
       Fixed(CoolDown)]
    else
      [Fixed(WarmUp), Fixed(Rest("3min")),
       Block("Repetir 2x", 2, [Run(3.5, FastZone, 25, 30), Fixed(Rest("4min"))]),
       Fixed(CoolDown)]
  }

  /** `generate_interval_session`. */
  function IntervalSession(z: Zones, week: int, date: int, distanceFactor: real): Session
  {
    Session(Interval, date, InstantiateAll(IntervalTemplate(Position(week)), z, distanceFactor), NoDistance)
  }

  /** Progressivo in the first week of a cycle, Limiar in every other. */
  function ThresholdKind(week: int): (k: Kind)
    ensures k.ThresholdType()
  {
    if Position(week) == 1 then Progressive else Threshold
  }

  /** `generate_threshold_session`. */
  function ThresholdSession(z: Zones, week: int, date: int, distanceFactor: real): Session
  {
    Session(ThresholdKind(week), date, InstantiateAll(ThresholdTemplate(Position(week)), z, distanceFactor), NoDistance)
  }

  /** The interval template is framed by the warm-up, the 3-minute rest
      and the cool-down, and its repeat blocks state their counts. */
  lemma IntervalTemplateWellFormed(position: int)
    ensures TemplateWellFormed(IntervalTemplate(position)) && TemplateFramed(IntervalTemplate(position))
  {
    RepeatLabels();
    var t := IntervalTemplate(position);
    forall i | 0 <= i < |t|
      ensures StepWellFormed(t[i])
    {
      if t[i].Block? {
        var b := t[i];
        forall j | 0 <= j < |b.steps|
          ensures StepWellFormed(b.steps[j])
        {
          assert !b.steps[j].Block?;
        }
      }
    }
  }

  /** The same for the threshold template. */
  lemma ThresholdTemplateWellFormed(position: int)
    ensures TemplateWellFormed(ThresholdTemplate(position)) && TemplateFramed(ThresholdTemplate(position))
  {
    RepeatLabels();
    var t := ThresholdTemplate(position);
    forall i | 0 <= i < |t|
      ensures StepWellFormed(t[i])
    {
      if t[i].Block? {
        var b := t[i];
        forall j | 0 <= j < |b.steps|
          ensures StepWellFormed(b.steps[j])
        {
          assert !b.steps[j].Block?;
        }
      }
    }
  }

  /** Every interval and threshold session is framed and well formed, and
      the third session is Progressivo exactly in the first week of a
      cycle. */
  lemma SessionShapes(z: Zones, week: int, date: int, distanceFactor: real)
    ensures var s := IntervalSession(z, week, date, distanceFactor);
      s.kind == Interval && s.date == date && Framed(s.activities) && AllWellFormed(s.activities)
    ensures var s := ThresholdSession(z, week, date, distanceFactor);
      && s.kind == (if Position(week) == 1 then Progressive else Threshold)
      && s.date == date && Framed(s.activities) && AllWellFormed(s.activities)
  {
    IntervalTemplateWellFormed(Position(week));
    ThresholdTemplateWellFormed(Position(week));
    InstantiateAllShape(IntervalTemplate(Position(week)), z, distanceFactor);
    InstantiateAllShape(ThresholdTemplate(Position(week)), z, distanceFactor);
  }

  /** Positions 2 to 5 have no branch of their own: their sessions are the
      ones of week 6, and the first week of every cycle repeats week 1. */
  lemma ElidedBranches(z: Zones, week: int, date: int, distanceFactor: real)
    ensures Position(week) != 1 ==>
      && IntervalSession(z, week, date, distanceFactor) == IntervalSession(z, 6, date, distanceFactor)
      && ThresholdSession(z, week, date, distanceFactor) == ThresholdSession(z, 6, date, distanceFactor)
    ensures Position(week) == 1 ==>
      && IntervalSession(z, week, date, distanceFactor) == IntervalSession(z, 1, date, distanceFactor)
      && ThresholdSession(z, week, date, distanceFactor) == ThresholdSession(z, 1, date, distanceFactor)
  {
    assert Position(6) == 6 && Position(1) == 1;
  }

  /** `generate_regenerative_session`: one easy run over the given
      distance. */
  function RegenerativeSession(date: int, distance: real): (s: Session)
    ensures s.kind == Recovery && s.date == date && |s.activities| == 1
    ensures s.activities[0].distance == Km(distance) && AllWellFormed(s.activities)
  {
    Session(Recovery, date, [EffortRun(distance, "Leve")], NoDistance)
  }

  /** `calculate_base_long_run_distance` on a parsed pace: 12, 10, 8 or
      6 km as the pace is under 5:00, 6:00, 7:00 per km or slower. */
  function BandedBase(paceSeconds: int): (r: real)
    ensures 6.0 <= r <= 12.0
  {
    if paceSeconds < 300 then 12.0
    else if paceSeconds < 360 then 10.0
    else if paceSeconds < 420 then 8.0
    else 6.0
  }

  /** A slower pace never gets a longer base long run. */
  lemma BandedBaseNonIncreasing(s1: int, s2: int)
    requires s1 <= s2
    ensures BandedBase(s2) <= BandedBase(s1)
  {
  }

  /** `calculate_base_long_run_distance`, which parses the pace itself. */
  function BaseLongRunDistance(averagePace: string): (r: Option<real>)
    ensures r.Some? <==> Parse(averagePace).Some?
    ensures r.Some? ==> 6.0 <= r.value <= 12.0
  {
    match Parse(averagePace)
    case None => None
    case Some(paceSeconds) => Some(BandedBase(paceSeconds))
  }

  /** `calculate_long_run_distance`: 0.5 km more per week, at most 5 km
      more than the base. */
  function LongRunDistance(base: real, week: int): (r: real)
    ensures r <= base + 5.0
  {
    var increaseRate := 0.5;
    var maxIncrease := 5.0;
    var increased := base + (week - 1) as real * increaseRate;
    var capped := base + maxIncrease;
    if increased <= capped then increased else capped
  }

  /** The long run is the base in week 1, grows by half a kilometre a week
      through week 11, and stays at base + 5 from then on. */
  lemma LongRunSchedule(base: real, week: int)
    ensures week == 1 ==> LongRunDistance(base, week) == base
    ensures week <= 11 ==> LongRunDistance(base, week) == base + 0.5 * (week - 1) as real
    ensures week >= 11 ==> LongRunDistance(base, week) == base + 5.0
    ensures week >= 1 ==> LongRunDistance(base, week) >= base
  {
  }

  /** The long run never shrinks from one week to a later one. */
  lemma LongRunNonDecreasing(base: real, w1: int, w2: int)
    requires w1 <= w2
    ensures LongRunDistance(base, w1) <= LongRunDistance(base, w2)
  {
  }

  /** `distance_factor`: the week's long run over the base long run for the
      pace. At least 1 in every week of the plan, and at most 1 + 5/6. */
  function DistanceFactor(paceSeconds: int, week: int): (f: real)
    ensures week >= 1 ==> 1.0 <= f
    ensures f <= 1.0 + 5.0 / 6.0
  {
    var base := BandedBase(paceSeconds);
    LongRunSchedule(base, week);
    FactorBounds(LongRunDistance(base, week), base);
    LongRunDistance(base, week) / base
  }

  lemma FactorBounds(long: real, base: real)
    requires 6.0 <= base && long <= base + 5.0
    ensures long / base <= 1.0 + 5.0 / 6.0
    ensures long >= base ==> long / base >= 1.0
  {
    assert long / base * base == long;
    assert 5.0 / base <= 5.0 / 6.0;
  }

  /** The long-run session for an already parsed pace. */
  function LongRunOf(paceSeconds: int, week: int, date: int): (s: Session)
    ensures s.kind == LongRun && s.date == date && |s.activities| == 1 && AllWellFormed(s.activities)
  {
    var distance := LongRunDistance(BandedBase(paceSeconds), week);
    Session(LongRun, date, [EffortRun(distance, "Livre")], NoDistance)
  }

  /** `generate_long_run_session`: None where the pace does not parse. */
  function LongRunSession(averagePace: string, week: int, date: int): (r: Option<Session>)
    ensures r.Some? <==> Parse(averagePace).Some?
    ensures r.Some? ==> r.value == LongRunOf(Parse(averagePace).value, week, date)
  {
    match BaseLongRunDistance(averagePace)
    case None => None
    case Some(base) =>
      Some(Session(LongRun, date, [EffortRun(LongRunDistance(base, week), "Livre")], NoDistance))
  }

  /** The cycle number of a week, `(week - 1) // 6 + 1`. */
  function Cycle(week: int): int {
    (week - 1) / 6 + 1
  }

  /** The week the plan holds under "Semana {week}". */
  function WeekOf(paceSeconds: int, week: int, date: int): Week {
    var zones := ZonesFor(paceSeconds, Cycle(week));
    var factor := DistanceFactor(paceSeconds, week);
    Week(WeekLabel(week), [
      RegenerativeSession(date, 7.0 * factor),
      IntervalSession(zones, week, date + 2, factor),
      ThresholdSession(zones, week, date + 4, factor),
      LongRunOf(paceSeconds, week, date + 6)])
  }

  /** The recovery run of a plan week is seven times its distance factor,
      so never under 7 km. */
  lemma RecoveryDistance(paceSeconds: int, week: int, date: int)
    requires week >= 1
    ensures var run := WeekOf(paceSeconds, week, date).sessions[0].activities[0];
      run.distance == Km(7.0 * DistanceFactor(paceSeconds, week)) && run.distance.km >= 7.0
  {
  }

  /** The long run of a plan week is the long-run distance of the week for
      the base long run banded by the pace, at a free intensity. */
  lemma LongRunOfWeek(paceSeconds: int, week: int, date: int)
    ensures WeekOf(paceSeconds, week, date).sessions[3].activities
            == [EffortRun(LongRunDistance(BandedBase(paceSeconds), week), "Livre")]
  {
  }

  lemma WeekOfLayout(paceSeconds: int, week: int, date: int)
    ensures WeekShape(WeekOf(paceSeconds, week, date), week, date)
  {
    var zones := ZonesFor(paceSeconds, Cycle(week));
    var factor := DistanceFactor(paceSeconds, week);
    SessionShapes(zones, week, date + 2, factor);
    SessionShapes(zones, week, date + 4, factor);
  }

  /** The week builder of a run of the generator for a parsed pace. */
  function WeekBuilder(paceSeconds: int): (int, int) -> Week {
    (week, date) => WeekOf(paceSeconds, week, date)
  }

  /** Every week the builder makes has the week shape. */
  lemma WeekBuilderShape(paceSeconds: int)
    ensures forall week, date :: WeekShape(WeekBuilder(paceSeconds)(week, date), week, date)
  {
    forall week, date
      ensures WeekShape(WeekBuilder(paceSeconds)(week, date), week, date)
    {
      WeekOfLayout(paceSeconds, week, date);
    }
  }

  /** Applied to a week number and the date of its first session, the
      builder gives the reference week for them. */
  lemma BuilderApplies(paceSeconds: int, week: int, date: int)
    ensures WeekBuilder(paceSeconds)(week, date) == WeekOf(paceSeconds, week, date)
  {
  }

  /** Week i of the plan the builder makes is the reference week i + 1,
      8 i days after the start. */
  lemma {:induction false} BuiltWeek(paceSeconds: int, n: nat, start: int, i: int)
    requires 0 <= i < n
    ensures Weeks(WeekBuilder(paceSeconds), n, start)[i] == WeekOf(paceSeconds, i + 1, start + 8 * i)
  {
    WeeksIndex(WeekBuilder(paceSeconds), n, start);
    BuilderApplies(paceSeconds, i + 1, start + 8 * i);
  }

  /** The plan the builder makes has the promised layout, and its i-th week
      is the reference week i + 1. */
  lemma BuiltPlan(paceSeconds: int, numWeeks: int, start: int)
    ensures var plan := Weeks(WeekBuilder(paceSeconds), if numWeeks > 0 then numWeeks else 0, start);
      && PlanLayout(plan, numWeeks, start)
      && forall i :: 0 <= i < |plan| ==> plan[i] == WeekOf(paceSeconds, i + 1, start + 8 * i)
  {
    WeekBuilderShape(paceSeconds);
    WeeksLayout(WeekBuilder(paceSeconds), numWeeks, start);
    var n := if numWeeks > 0 then numWeeks else 0;
    forall i | 0 <= i < n
      ensures Weeks(WeekBuilder(paceSeconds), n, start)[i] == WeekOf(paceSeconds, i + 1, start + 8 * i)
    {
      BuiltWeek(paceSeconds, n, start, i);
    }
  }

  /** One pass of the outer loop of `generate_training_plan`: None where the
      pace does not parse, otherwise the week's four sessions two days
      apart. */
  method GenerateWeek(averagePace: string, week: int, date: int) returns (r: Option<Week>)
    ensures r.None? <==> Parse(averagePace).None?
    ensures r.Some? ==> r.value == WeekOf(Parse(averagePace).value, week, date)
  {
    var cycle := (week - 1) / 6 + 1;
    var paces := CalculatePaces(averagePace, cycle);
    if paces.None? {
      return None;
    }
    ghost var paceSeconds := Parse(averagePace).value;
    ghost var reference := WeekOf(paceSeconds, week, date);
    var base := BaseLongRunDistance(averagePace).value;
    var longRunDistance := LongRunDistance(base, week);
    var distanceFactor := longRunDistance / base;
    assert distanceFactor == DistanceFactor(paceSeconds, week);
    var currentDate := date;
    var sessions: seq<Session> := [];
    var day := 0;
    while day < 4
      invariant 0 <= day <= 4 && |sessions| == day
      invariant currentDate == date + 2 * day
      invariant forall j :: 0 <= j < day ==> sessions[j] == reference.sessions[j]
    {
      var session;
      if day == 0 {
        session := RegenerativeSession(currentDate, 7.0 * distanceFactor);
      } else if day == 1 {
        session := IntervalSession(paces.value, week, currentDate, distanceFactor);
      } else if day == 2 {
        session := ThresholdSession(paces.value, week, currentDate, distanceFactor);
      } else {
        var longRun := LongRunSession(averagePace, week, currentDate);
        session := longRun.value;
      }
      sessions := sessions + [session];
      currentDate := currentDate + 2;
      day := day + 1;
    }
    return Some(Week(WeekLabel(week), sessions));
  }

  /** `generate_training_plan`. Every pass of the loop parses the pace
      again, so the first pass fails exactly when any would: with no weeks
      the plan is empty whatever the pace, otherwise None where the pace
      does not parse, and else one week per number 1..numWeeks, each the
      reference week at the date its first session falls on. */
  method GenerateTrainingPlan(averagePace: string, startDate: int, numWeeks: int) returns (r: Option<Plan>)
    ensures r.None? <==> numWeeks >= 1 && Parse(averagePace).None?
    ensures r.Some? ==> PlanLayout(r.value, numWeeks, startDate)
    ensures r.Some? ==> forall i :: 0 <= i < |r.value| ==>
              Parse(averagePace).Some? && r.value[i] == WeekOf(Parse(averagePace).value, i + 1, startDate + 8 * i)
  {
    if numWeeks < 1 {
      return Some([]);
    }
    var parsed := Parse(averagePace);
    if parsed.None? {
      return None;
    }
    var plan := BuildWeeks(WeekBuilder(parsed.value), startDate, numWeeks);
    BuiltPlan(parsed.value, numWeeks, startDate);
    return Some(plan);
  }
}
