/** The first back-end (app.py). The four pace zones are derived once from
    the average pace and then moved 10 s/km faster for every completed
    six-week cycle; every distance is a fixed proportion of a caller-given
    base distance, scaled by a multiplier that rises by 0.2, 20% of the
    base, per completed cycle. */
module CyclePlan {
  import opened Wrappers
  import opened Pace
  import opened Workout

  /** The zone arithmetic of `calculate_paces` on b seconds per km. */
  function ZonesFor(b: int): Zones {
    Zones(Max(b - 30, 180), Max(b, 210), b + 30, b + 60)
  }

  /** `calculate_paces`: None where the pace does not parse. The very fast
      zone is floored at 3:00 and the fast zone at 3:30; threshold and easy
      are fixed offsets, so easy is always the slowest of the two. */
  function CalculatePaces(averagePace: string): (r: Option<Zones>)
    ensures r.Some? <==> Parse(averagePace).Some?
    ensures r.Some? ==>
      var b := Parse(averagePace).value;
      && r.value.veryFast >= 180 && r.value.fast >= 210
      && r.value.threshold == b + 30 && r.value.easy == b + 60
      && r.value.easy > r.value.threshold
      && r.value.fast >= r.value.veryFast
      && (b >= 210 ==> r.value.veryFast == b - 30 && r.value.fast == b)
  {
    match Parse(averagePace)
    case None => None
    case Some(b) => Some(ZonesFor(b))
  }

  /** `calculate_distance_multiplier`: 1 + 0.2 per completed six-week cycle. */
  function Multiplier(week: int): real {
    1.0 + 0.2 * (((week - 1) / 6) as real)
  }

  /** The first cycle runs at the base distances. */
  lemma MultiplierFirstCycle(week: int)
    requires 1 <= week <= 6
    ensures Multiplier(week) == 1.0
  {
  }

  /** From one week to the next the multiplier rises by exactly 0.2 when a
      new cycle starts and stays put otherwise. */
  lemma MultiplierStep(week: int)
    ensures Multiplier(week + 1) == Multiplier(week) + (if week % 6 == 0 then 0.2 else 0.0)
  {
    var c := (week - 1) / 6;
    if week % 6 == 0 {
      assert week == 6 * (c + 1);
      assert week / 6 == c + 1;
    } else {
      assert week / 6 == c;
    }
  }

  /** The multiplier never decreases. */
  lemma {:induction false} MultiplierMonotone(w1: int, w2: int)
    requires w1 <= w2
    ensures Multiplier(w1) <= Multiplier(w2)
    decreases w2 - w1
  {
    if w1 < w2 {
      MultiplierStep(w1);
      MultiplierMonotone(w1 + 1, w2);
    }
  }

  /** In any week of the plan the multiplier is at least 1. */
  lemma MultiplierAtLeastOne(week: int)
    requires week >= 1
    ensures Multiplier(week) >= 1.0
  {
    MultiplierMonotone(1, week);
  }

  /** `generate_regenerative_session`: one easy run of 70% of the base
      distance, scaled by the week's multiplier. */
  function RegenerativeSession(date: int, week: int, base: real): (s: Session)
    ensures s.kind == Recovery && s.date == date && s.baseDistance == Km(base)
    ensures |s.activities| == 1 && s.activities[0].distance.Km? && AllWellFormed(s.activities)
  {
    var m := Multiplier(week);
    var regenerative := base * 0.7;
    Session(Recovery, date, [EffortRun(regenerative * m, "Leve")], Km(base))
  }

  /** The recovery run never shrinks as the weeks go by, and is never below
      70% of the base distance. */
  lemma RegenerativeDistanceGrows(w1: int, w2: int, d1: int, d2: int, base: real)
    requires 1 <= w1 <= w2 && base >= 0.0
    ensures 0.7 * base <= RegenerativeSession(d1, w1, base).activities[0].distance.km
    ensures RegenerativeSession(d1, w1, base).activities[0].distance.km
            <= RegenerativeSession(d2, w2, base).activities[0].distance.km
  {
    var m1 := Multiplier(w1);
    var m2 := Multiplier(w2);
    MultiplierAtLeastOne(w1);
    MultiplierMonotone(w1, w2);
    var x := base * 0.7;
    assert x * 1.0 <= x * m1 <= x * m2;
  }

  /** The distance every share of a template is taken of: the base distance
      times the week's multiplier. */
  function Scale(base: real, multiplier: real): real {
    base * multiplier
  }

  /** The trees of `generate_interval_session`, one per value of
      `week % 6`. Shares are of the session's scale, base distance times
      multiplier; they are the proportions written in the activities'
      distances. */
  function IntervalTemplate(position: int): seq<Step>
  {
    if position == 1 then
      [Fixed(WarmUp), Fixed(Rest("3min")),
       Block("Repetir 5x", 5, [Run(0.1, FastZone, 0, 5), Fixed(Rest("2min"))]),
       Fixed(CoolDown)]
    else if position == 2 then
      [Fixed(WarmUp), Fixed(Rest("3min")),
       Block("Repetir 3x", 3, [Run(0.5, FastZone, 5, 10), Fixed(Rest("2min"))]),
       Block("Repetir 3x", 3, [Run(0.4, FastZone, -5, 0), Fixed(Rest("2min"))]),
       Fixed(CoolDown)]
    else if position == 3 then
      [Fixed(WarmUp), Fixed(Rest("3min")),
       Block("Repetir 3x", 3, [Run(0.12, FastZone, 15, 20), Fixed(Rest("2min")),
                               Run(0.06, FastZone, -15, -10)]),
       Fixed(CoolDown)]
    else if position == 4 then
      [Fixed(WarmUp), Fixed(Rest("3min")),
       Block("Repetir 12x", 12, [Run(0.04, VeryFastZone, 0, 5), Fixed(Rest("1min30seg"))]),
       Fixed(CoolDown)]
    else if position == 5 then
      [Fixed(WarmUp), Fixed(Rest("3min")),
       Block("Repetir 6x", 6, [Run(0.08, FastZone, -5, 0), Fixed(Rest("2min"))]),
       Fixed(CoolDown)]
    else
      [Fixed(WarmUp), Fixed(Rest("3min")),
       Block("Repetir 2x", 2, [Run(0.1, FastZone, 5, 10), Fixed(Rest("2min"))]),
       Block("Repetir 3x", 3, [Run(0.05, FastZone, -15, -10), Fixed(Rest("2min"))]),
       Block("Repetir 5x", 5, [RunAt(0.02, "Muito forte"), Fixed(Rest("1min30seg"))]),
       Fixed(CoolDown)]
  }

  /** `generate_interval_session`. */
  function IntervalSession(z: Zones, week: int, date: int, base: real): Session
  {
    Session(Interval, date, InstantiateAll(IntervalTemplate(week % 6), z, Scale(base, Multiplier(week))), Km(base))
  }

  /** The session type of the third day: Progressivo in the first week of a
      cycle, Fartlek in the third, Limiar otherwise. */
  function ThresholdKind(week: int): (k: Kind)
    ensures k.ThresholdType()
  {
    if week % 6 == 1 then Progressive else if week % 6 == 3 then Fartlek else Threshold
  }

  /** The trees of `generate_threshold_session`, one per value of
      `week % 6`. */
  function ThresholdTemplate(position: int): seq<Step>
  {
    if position == 1 then
      [Fixed(WarmUp), Fixed(Rest("3min")),
       Block("Repetir 5x", 5, [Run(0.1, FastZone, 0, 5), Fixed(Rest("2min"))]),
       Fixed(CoolDown)]
    else if position == 2 then
      [Fixed(WarmUp), Fixed(Rest("3min")),
       Block("Repetir 2x", 2, [Run(0.15, FastZone, 35, 40), Fixed(Rest("2min30seg"))]),
       Block("Repetir 2x", 2, [Run(0.12, FastZone, 25, 30), Fixed(Rest("2min"))]),
       Fixed(CoolDown)]
    else if position == 3 then
      [Fixed(WarmUp), Fixed(Rest("3min")),
       Block("Repetir 6x", 6, [Run(0.07, FastZone, 25, 30), Run(0.03, EasyZone, 5, 10)]),
       Fixed(CoolDown)]
    else if position == 4 then
      [Fixed(WarmUp), Fixed(Rest("3min")),
       Run(0.4, FastZone, 35, 40), Fixed(Rest("4min")),
       Run(0.2, FastZone, 25, 30), Fixed(Rest("3min")),
       Run(0.1, FastZone, 25, 30),
       Fixed(CoolDown)]
    else if position == 5 then
      [Fixed(WarmUp), Fixed(Rest("3min")),
       Run(0.5, FastZone, 35, 40), Fixed(Rest("4min")),
       Run(0.2, FastZone, 25, 30),
       Fixed(CoolDown)]
    else
      [Fixed(WarmUp), Fixed(Rest("3min")),
       Block("Repetir 2x", 2, [Run(0.35, FastZone, 25, 30), Fixed(Rest("4min"))]),
       Fixed(CoolDown)]
  }

  /** `generate_threshold_session`. */
  function ThresholdSession(z: Zones, week: int, date: int, base: real): Session
  {
    Session(ThresholdKind(week), date, InstantiateAll(ThresholdTemplate(week % 6), z, Scale(base, Multiplier(week))), Km(base))
  }

  /** Every template opens with the 8-minute warm-up and the 3-minute rest,
      closes with the 6-minute cool-down, and every repeat block in it states
      its count and owns its steps. */
  lemma TemplatesWellFormed(position: int)
    ensures TemplateWellFormed(IntervalTemplate(position)) && TemplateFramed(IntervalTemplate(position))
    ensures TemplateWellFormed(ThresholdTemplate(position)) && TemplateFramed(ThresholdTemplate(position))
  {
    IntervalTemplateWellFormed(position);
    ThresholdTemplateWellFormed(position);
  }

  lemma IntervalTemplateWellFormed(position: int)
    ensures TemplateWellFormed(IntervalTemplate(position)) && TemplateFramed(IntervalTemplate(position))
  {
    RepeatLabels();
    var t := IntervalTemplate(position);
    forall i | 0 <= i < |t|
      ensures StepWellFormed(t[i])
    {
      if t[i].Block? {
        var b := t[i];
        forall j | 0 <= j < |b.steps|
          ensures StepWellFormed(b.steps[j])
        {
          assert !b.steps[j].Block?;
        }
      }
    }
  }

  lemma ThresholdTemplateWellFormed(position: int)
    ensures TemplateWellFormed(ThresholdTemplate(position)) && TemplateFramed(ThresholdTemplate(position))
  {
    RepeatLabels();
    var t := ThresholdTemplate(position);
    forall i | 0 <= i < |t|
      ensures StepWellFormed(t[i])
    {
      if t[i].Block? {
        var b := t[i];
        forall j | 0 <= j < |b.steps|
          ensures StepWellFormed(b.steps[j])
        {
          assert !b.steps[j].Block?;
        }
      }
    }
  }

  /** So is every interval session, whatever the zones and distances. */
  lemma IntervalShape(z: Zones, week: int, date: int, base: real)
    ensures var s := IntervalSession(z, week, date, base);
      && s.kind == Interval && s.date == date && s.baseDistance == Km(base)
      && Framed(s.activities) && AllWellFormed(s.activities)
  {
    TemplatesWellFormed(week % 6);
    InstantiateAllShape(IntervalTemplate(week % 6), z, Scale(base, Multiplier(week)));
  }

  /** And every threshold session, whose type follows the week. */
  lemma ThresholdShape(z: Zones, week: int, date: int, base: real)
    ensures var s := ThresholdSession(z, week, date, base);
      && s.kind == (if week % 6 == 1 then Progressive else if week % 6 == 3 then Fartlek else Threshold)
      && s.date == date && s.baseDistance == Km(base)
      && Framed(s.activities) && AllWellFormed(s.activities)
  {
    TemplatesWellFormed(week % 6);
    InstantiateAllShape(ThresholdTemplate(week % 6), z, Scale(base, Multiplier(week)));
  }

  /** Rescaling a template's instance by k moves it from multiplier m1 to
      m1 times k. */
  lemma ScaleInstances(t: seq<Step>, z: Zones, d: int, base: real, m1: real, m2: real, k: real)
    requires TemplateWellFormed(t) && m1 * k == m2
    ensures RescaleAll(InstantiateAll(t, z, Scale(base, m1)), k, d) == InstantiateAll(t, Shift(z, d), Scale(base, m2))
  {
    RescaleAllInstances(t, z, Scale(base, m1), k, d);
    assert Scale(base, m1) * k == Scale(base, m2);
  }

  /** The interval session of week w2 is the one of week w1 (any week at the
      same position in its cycle) with every distance scaled by k, the ratio
      of their multipliers, and every pace band moved as the zones were: the
      tree's shape, labels, durations and pace offsets depend on `week % 6`
      alone. */
  lemma IntervalFollowsCycle(z: Zones, d: int, w1: int, w2: int, k: real, date: int, base: real)
    requires w1 % 6 == w2 % 6 && Multiplier(w1) * k == Multiplier(w2)
    ensures IntervalSession(Shift(z, d), w2, date, base) == RescaleSession(IntervalSession(z, w1, date, base), k, d)
  {
    TemplatesWellFormed(w1 % 6);
    ScaleInstances(IntervalTemplate(w1 % 6), z, d, base, Multiplier(w1), Multiplier(w2), k);
  }

  /** The same for the threshold session, whose type also depends on
      `week % 6` alone. */
  lemma ThresholdFollowsCycle(z: Zones, d: int, w1: int, w2: int, k: real, date: int, base: real)
    requires w1 % 6 == w2 % 6 && Multiplier(w1) * k == Multiplier(w2)
    ensures ThresholdSession(Shift(z, d), w2, date, base) == RescaleSession(ThresholdSession(z, w1, date, base), k, d)
  {
    TemplatesWellFormed(w1 % 6);
    ScaleInstances(ThresholdTemplate(w1 % 6), z, d, base, Multiplier(w1), Multiplier(w2), k);
  }

  /** The recovery run follows the multiplier in the same way. */
  lemma RegenerativeFollowsCycle(d: int, w1: int, w2: int, k: real, date: int, base: real)
    requires Multiplier(w1) * k == Multiplier(w2)
    ensures RegenerativeSession(date, w2, base) == RescaleSession(RegenerativeSession(date, w1, base), k, d)
  {
    var m1 := Multiplier(w1);
    assert base * 0.7 * m1 * k == base * 0.7 * (m1 * k);
    var s1 := RegenerativeSession(date, w1, base);
    assert RescaleAll(s1.activities, k, d)[0] == RegenerativeSession(date, w2, base).activities[0];
  }

  /** `calculate_base_long_run_distance` on a parsed pace: the base
      distance scaled by 1.2, 1, 0.8 or 0.6 as the pace is under 5:00, 6:00,
      7:00 per km or slower. */
  function BandedBase(paceSeconds: int, base: real): (r: real)
    ensures base >= 0.0 ==> 0.6 * base <= r <= 1.2 * base
  {
    if paceSeconds < 300 then base * 1.2
    else if paceSeconds < 360 then base
    else if paceSeconds < 420 then base * 0.8
    else base * 0.6
  }

  /** A slower pace never gets a longer long run. */
  lemma BandedBaseNonIncreasing(s1: int, s2: int, base: real)
    requires s1 <= s2 && base >= 0.0
    ensures BandedBase(s2, base) <= BandedBase(s1, base)
  {
  }

  /** `calculate_base_long_run_distance`, which parses the pace itself. */
  function BaseLongRunDistance(averagePace: string, base: real): (r: Option<real>)
    ensures r.Some? <==> Parse(averagePace).Some?
    ensures r.Some? && base >= 0.0 ==> 0.6 * base <= r.value <= 1.2 * base
  {
    match Parse(averagePace)
    case None => None
    case Some(paceSeconds) => Some(BandedBase(paceSeconds, base))
  }

  /** `calculate_long_run_distance` without the final rounding to 0.1 km. */
  function LongRunDistance(longBase: real, week: int): real {
    longBase * Multiplier(week)
  }

  /** The long run is its base for the first six weeks and never shrinks
      from one week to a later one. */
  lemma LongRunDistanceGrows(longBase: real, w1: int, w2: int)
    requires longBase >= 0.0 && 1 <= w1 <= w2
    ensures w2 <= 6 ==> LongRunDistance(longBase, w2) == longBase
    ensures longBase <= LongRunDistance(longBase, w1) <= LongRunDistance(longBase, w2)
  {
    var m1 := Multiplier(w1);
    var m2 := Multiplier(w2);
    MultiplierAtLeastOne(w1);
    MultiplierMonotone(w1, w2);
    if w2 <= 6 {
      MultiplierFirstCycle(w2);
      assert LongRunDistance(longBase, w2) == longBase * 1.0;
    }
    assert LongRunDistance(longBase, w1) == longBase * m1;
    assert LongRunDistance(longBase, w2) == longBase * m2;
    ScaleMonotone(longBase, 1.0, m1);
    ScaleMonotone(longBase, m1, m2);
  }

  lemma ScaleMonotone(x: real, a: real, b: real)
    requires x >= 0.0 && a <= b
    ensures x * a <= x * b
  {
  }

  /** The long-run session for an already parsed pace. */
  function LongRunOf(paceSeconds: int, week: int, date: int, base: real): (s: Session)
    ensures s.kind == LongRun && s.date == date && s.baseDistance == Km(base)
    ensures |s.activities| == 1 && AllWellFormed(s.activities)
  {
    var distance := LongRunDistance(BandedBase(paceSeconds, base), week);
    Session(LongRun, date, [EffortRun(distance, "Livre")], Km(base))
  }

  /** `generate_long_run_session`: None where the pace does not parse. */
  function LongRunSession(averagePace: string, week: int, date: int, base: real): (r: Option<Session>)
    ensures r.Some? <==> Parse(averagePace).Some?
    ensures r.Some? ==> r.value == LongRunOf(Parse(averagePace).value, week, date, base)
  {
    match BaseLongRunDistance(averagePace, base)
    case None => None
    case Some(longBase) =>
      Some(Session(LongRun, date, [EffortRun(LongRunDistance(longBase, week), "Livre")], Km(base)))
  }

  /** The zones of a week: the zones of the average pace moved 10 s/km
      faster per completed cycle. The floors of `calculate_paces` are not
      applied again. */
  function ZonesOfWeek(z: Zones, week: int): Zones {
    var cycleNumber := (week - 1) / 6 + 1;
    Shift(z, -10 * (cycleNumber - 1))
  }

  /** Six weeks later every zone is 10 s/km faster. */
  lemma ZonesOfWeekStep(z: Zones, week: int)
    ensures ZonesOfWeek(z, week + 6) == Shift(ZonesOfWeek(z, week), -10)
  {
    assert (week + 6 - 1) / 6 == (week - 1) / 6 + 1;
  }

  /** With an average pace of 3:30 the second cycle's very fast and fast
      zones, 2:50 and 3:20, are below the floors of 3:00 and 3:30. */
  lemma FloorsNotReapplied()
    ensures ZonesOfWeek(ZonesFor(210), 7) == Zones(170, 200, 230, 260)
    ensures ZonesOfWeek(ZonesFor(210), 7).veryFast < 180
  {
  }

  /** The week the plan holds under "Semana {week}": the four sessions, two
      days apart from the given date, at the week's zones. */
  function WeekOf(z: Zones, paceSeconds: int, week: int, date: int, base: real): Week {
    var zones := ZonesOfWeek(z, week);
    Week(WeekLabel(week), [
      RegenerativeSession(date, week, base),
      IntervalSession(zones, week, date + 2, base),
      ThresholdSession(zones, week, date + 4, base),
      LongRunOf(paceSeconds, week, date + 6, base)])
  }

  /** Each week is labelled by its number and holds the four sessions in
      the fixed order, two days apart. */
  lemma WeekOfLayout(z: Zones, paceSeconds: int, week: int, date: int, base: real)
    ensures WeekShape(WeekOf(z, paceSeconds, week, date, base), week, date)
  {
    var zones := ZonesOfWeek(z, week);
    IntervalShape(zones, week, date + 2, base);
    ThresholdShape(zones, week, date + 4, base);
  }

  /** The recovery run of a plan week is 70% of the base distance times
      the week's multiplier, at the easy intensity. */
  lemma RecoveryRun(z: Zones, paceSeconds: int, week: int, date: int, base: real)
    ensures WeekOf(z, paceSeconds, week, date, base).sessions[0].activities
            == [EffortRun(0.7 * base * Multiplier(week), "Leve")]
  {
    assert base * 0.7 * Multiplier(week) == 0.7 * base * Multiplier(week);
  }

  /** The long run of a plan week is the long-run distance of the week for
      the base long run banded by the pace, at a free intensity. */
  lemma LongRunOfWeek(z: Zones, paceSeconds: int, week: int, date: int, base: real)
    ensures WeekOf(z, paceSeconds, week, date, base).sessions[3].activities
            == [EffortRun(LongRunDistance(BandedBase(paceSeconds, base), week), "Livre")]
  {
  }

  /** The interval and threshold sessions of week w + 6 are those of week w
      with the distances scaled from one multiplier to the next and the
      paces 10 s/km faster. */
  lemma WeekSixLater(z: Zones, paceSeconds: int, week: int, date: int, base: real, k: real)
    requires Multiplier(week) * k == Multiplier(week + 6)
    ensures WeekOf(z, paceSeconds, week + 6, date, base).sessions[1]
            == RescaleSession(WeekOf(z, paceSeconds, week, date, base).sessions[1], k, -10)
    ensures WeekOf(z, paceSeconds, week + 6, date, base).sessions[2]
            == RescaleSession(WeekOf(z, paceSeconds, week, date, base).sessions[2], k, -10)
  {
    var zones := ZonesOfWeek(z, week);
    ZonesOfWeekStep(z, week);
    IntervalFollowsCycle(zones, -10, week, week + 6, k, date + 2, base);
    ThresholdFollowsCycle(zones, -10, week, week + 6, k, date + 4, base);
  }

  /** One pass of the outer loop of `generate_training_plan`: the four
      sessions of the week, from the given date on, two days apart. */
  method GenerateWeek(averagePace: string, paces: Zones, week: int, date: int, base: real)
    returns (w: Week)
    requires Parse(averagePace).Some?
    ensures w == WeekOf(paces, Parse(averagePace).value, week, date, base)
  {
    ghost var reference := WeekOf(paces, Parse(averagePace).value, week, date, base);
    var cycleNumber := (week - 1) / 6 + 1;
    var adjusted := Shift(paces, -10 * (cycleNumber - 1));
    var currentDate := date;
    var sessions: seq<Session> := [];
    var day := 0;
    while day < 4
      invariant 0 <= day <= 4 && |sessions| == day
      invariant currentDate == date + 2 * day
      invariant forall j :: 0 <= j < day ==> sessions[j] == reference.sessions[j]
    {
      var session;
      if day == 0 {
        session := RegenerativeSession(currentDate, week, base);
      } else if day == 1 {
        session := IntervalSession(adjusted, week, currentDate, base);
      } else if day == 2 {
        session := ThresholdSession(adjusted, week, currentDate, base);
      } else {
        var longRun := LongRunSession(averagePace, week, currentDate, base);
        session := longRun.value;
      }
      sessions := sessions + [session];
      currentDate := currentDate + 2;
      day := day + 1;
    }
    w := Week(WeekLabel(week), sessions);
  }

  /** The week builder of a run of the generator. */
  function WeekBuilder(z: Zones, paceSeconds: int, base: real): (int, int) -> Week {
    (week, date) => WeekOf(z, paceSeconds, week, date, base)
  }

  /** Every week the builder makes has the week shape. */
  lemma WeekBuilderShape(z: Zones, paceSeconds: int, base: real)
    ensures forall week, date :: WeekShape(WeekBuilder(z, paceSeconds, base)(week, date), week, date)
  {
    forall week, date
      ensures WeekShape(WeekBuilder(z, paceSeconds, base)(week, date), week, date)
    {
      WeekOfLayout(z, paceSeconds, week, date, base);
    }
  }

  /** Applied to a week number and the date of its first session, the
      builder gives the reference week for them. */
  lemma BuilderApplies(z: Zones, paceSeconds: int, base: real, week: int, date: int)
    ensures WeekBuilder(z, paceSeconds, base)(week, date) == WeekOf(z, paceSeconds, week, date, base)
  {
  }

  /** Week i of the plan the builder makes is the reference week i + 1,
      8 i days after the start. */
  lemma {:induction false} BuiltWeek(z: Zones, paceSeconds: int, base: real, n: nat, start: int, i: int)
    requires 0 <= i < n
    ensures Weeks(WeekBuilder(z, paceSeconds, base), n, start)[i] == WeekOf(z, paceSeconds, i + 1, start + 8 * i, base)
  {
    WeeksIndex(WeekBuilder(z, paceSeconds, base), n, start);
    BuilderApplies(z, paceSeconds, base, i + 1, start + 8 * i);
  }

  /** The plan the builder makes has the promised layout, and its i-th week
      is the reference week i + 1. */
  lemma BuiltPlan(z: Zones, paceSeconds: int, base: real, numWeeks: int, start: int)
    ensures var plan := Weeks(WeekBuilder(z, paceSeconds, base), if numWeeks > 0 then numWeeks else 0, start);
      && PlanLayout(plan, numWeeks, start)
      && forall i :: 0 <= i < |plan| ==> plan[i] == WeekOf(z, paceSeconds, i + 1, start + 8 * i, base)
  {
    WeekBuilderShape(z, paceSeconds, base);
    WeeksLayout(WeekBuilder(z, paceSeconds, base), numWeeks, start);
    var n := if numWeeks > 0 then numWeeks else 0;
    forall i | 0 <= i < n
      ensures Weeks(WeekBuilder(z, paceSeconds, base), n, start)[i] == WeekOf(z, paceSeconds, i + 1, start + 8 * i, base)
    {
      BuiltWeek(z, paceSeconds, base, n, start, i);
    }
  }

  /** `generate_training_plan`: None where the average pace does not parse
      (`calculate_paces` raises before the loop); otherwise one week per
      number 1..numWeeks, each the reference week at the date its first
      session falls on. */
  method GenerateTrainingPlan(averagePace: string, startDate: int, numWeeks: int, base: real)
    returns (r: Option<Plan>)
    ensures r.None? <==> Parse(averagePace).None?
    ensures r.Some? ==> PlanLayout(r.value, numWeeks, startDate)
    ensures r.Some? ==> forall i :: 0 <= i < |r.value| ==>
              r.value[i] == WeekOf(CalculatePaces(averagePace).value, Parse(averagePace).value,
                                   i + 1, startDate + 8 * i, base)
  {
    var paces := CalculatePaces(averagePace);
    if paces.None? {
      return None;
    }
    var plan := BuildWeeks(WeekBuilder(paces.value, Parse(averagePace).value, base), startDate, numWeeks);
    BuiltPlan(paces.value, Parse(averagePace).value, base, numWeeks, startDate);
    return Some(plan);
  }
}
