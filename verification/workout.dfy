/** The plan's data model, common to both back-ends: a workout instruction
    (`Activity`) that is either a leaf or a "Repetir Nx" block owning its
    children, a day's `TrainingSession`, and a labelled week of sessions. */
module Workout {
  import opened Wrappers
  import opened Text
  import opened Pace

  /** A target pace range "<low> a <high> min/km", held as seconds per km. */
  datatype PaceBand = PaceBand(low: int, high: int)

  /** A distance in kilometres, or none. */
  datatype Distance = NoDistance | Km(km: real)

  /** The band `lo..hi` seconds around a zone, as the source writes
      `f"{adjust_pace(zone, lo)} a {adjust_pace(zone, hi)} min/km"` (an
      offset of 0 being the zone text itself). */
  function Band(zone: int, lo: int, hi: int): PaceBand {
    PaceBand(zone + lo, zone + hi)
  }

  /** The text the source stores in `Activity.pace`. */
  function BandText(b: PaceBand): string {
    Render(b.low) + " a " + Render(b.high) + " min/km"
  }

  /** Holding bands as seconds loses nothing: the source's text, built by
      adjusting the rendered zone, is the text of the band in seconds. */
  lemma BandTextFromZone(zone: int, lo: int, hi: int)
    ensures AdjustPace(Render(zone), lo).Some? && AdjustPace(Render(zone), hi).Some?
    ensures AdjustPace(Render(zone), lo).value + " a " + AdjustPace(Render(zone), hi).value + " min/km"
            == BandText(Band(zone, lo, hi))
  {
    var low := Render(zone + lo);
    var high := Render(zone + hi);
    assert BandText(Band(zone, lo, hi)) == low + " a " + high + " min/km";
    AdjustRendered(zone, lo);
    AdjustRendered(zone, hi);
  }

  /** One step of a session. Distances are kilometres; the source renders
      them as "{x:.1f}km" text, which the model keeps as the exact number. */
  datatype Activity = Activity(
    description: string,
    distance: Distance,
    duration: Option<string>,
    pace: Option<PaceBand>,
    intensity: Option<string>,
    repetitions: Option<int>,
    activities: seq<Activity>)

  /** The session type labels, by their Portuguese names in the plan. */
  datatype Kind = Recovery | Interval | Progressive | Threshold | Fartlek | LongRun
  {
    function Label(): string {
      match this
      case Recovery => "Regenerativo"
      case Interval => "Intervalado"
      case Progressive => "Progressivo"
      case Threshold => "Limiar"
      case Fartlek => "Fartlek"
      case LongRun => "Longo"
    }

    /** The kinds the third session of a week can take. */
    predicate ThresholdType() {
      Progressive? || Threshold? || Fartlek?
    }
  }

  /** `TrainingSession`; `baseDistance` is present in the app.py back-end
      only. The date is a day ordinal. */
  datatype Session = Session(kind: Kind, date: int, activities: seq<Activity>, baseDistance: Distance)

  /** One entry of the plan dictionary: its key and its four sessions. */
  datatype Week = Week(key: string, sessions: seq<Session>)

  type Plan = seq<Week>

  // The leaves the session templates are built from.

  const WarmUp := Activity("Aquecer", NoDistance, Some("8min"), None, Some("Trote leve"), None, [])

  const CoolDown := Activity("Desaquecer", NoDistance, Some("6min"), None, Some("Livre"), None, [])

  function Rest(duration: string): Activity {
    Activity("Descansar", NoDistance, Some(duration), None, Some("Livre"), None, [])
  }

  /** A run over a distance at a target pace range. */
  function PacedRun(km: real, band: PaceBand): Activity {
    Activity("Correr", Km(km), None, Some(band), None, None, [])
  }

  /** A run over a distance at a named effort instead of a pace. */
  function EffortRun(km: real, intensity: string): Activity {
    Activity("Correr", Km(km), None, None, Some(intensity), None, [])
  }

  /** A "Repetir Nx" block: the label is written out by the caller, as in
      the source, and WellFormed checks it against the count. */
  function Repeat(title: string, n: int, body: seq<Activity>): Activity {
    Activity(title, NoDistance, None, None, None, Some(n), body)
  }

  function RepeatLabel(n: int): string {
    "Repetir " + IntToString(n) + "x"
  }

  /** The labels the templates write out agree with their counts. */
  lemma RepeatLabels()
    ensures RepeatLabel(2) == "Repetir 2x" && RepeatLabel(3) == "Repetir 3x"
    ensures RepeatLabel(5) == "Repetir 5x" && RepeatLabel(6) == "Repetir 6x"
    ensures RepeatLabel(12) == "Repetir 12x"
  {
    assert NatToString(12) == "12";
  }

  /** A repeat block has a count of at least one that its label states, owns
      at least one child and carries no distance, duration, pace or
      intensity of its own; a leaf has neither a count nor children. */
  predicate WellFormed(a: Activity)
    decreases a
  {
    match a.repetitions
    case Some(n) =>
      && n >= 1
      && a.description == RepeatLabel(n)
      && |a.activities| >= 1
      && a.distance.NoDistance? && a.duration.None? && a.pace.None? && a.intensity.None?
      && forall i :: 0 <= i < |a.activities| ==> WellFormed(a.activities[i])
    case None => a.activities == []
  }

  predicate AllWellFormed(acts: seq<Activity>) {
    forall i :: 0 <= i < |acts| ==> WellFormed(acts[i])
  }

  /** Warm-up (8 min), a 3-minute rest, ..., cool-down (6 min). */
  predicate Framed(acts: seq<Activity>) {
    && |acts| >= 3
    && acts[0] == WarmUp
    && acts[1] == Rest("3min")
    && acts[|acts| - 1] == CoolDown
  }

  /** The same tree with every distance multiplied by k and every pace band
      moved by d seconds; nothing else changes. */
  function Rescale(a: Activity, k: real, d: int): (r: Activity)
    ensures r.description == a.description && r.duration == a.duration
    ensures r.intensity == a.intensity && r.repetitions == a.repetitions
    ensures |r.activities| == |a.activities|
    ensures r.distance.Km? <==> a.distance.Km?
    ensures r.pace.Some? <==> a.pace.Some?
    decreases a
  {
    Activity(
      a.description,
      if a.distance.Km? then Km(a.distance.km * k) else NoDistance,
      a.duration,
      if a.pace.Some? then Some(PaceBand(a.pace.value.low + d, a.pace.value.high + d)) else None,
      a.intensity,
      a.repetitions,
      seq(|a.activities|, i requires 0 <= i < |a.activities| => Rescale(a.activities[i], k, d)))
  }

  function RescaleAll(acts: seq<Activity>, k: real, d: int): (r: seq<Activity>)
    ensures |r| == |acts|
  {
    seq(|acts|, i requires 0 <= i < |acts| => Rescale(acts[i], k, d))
  }

  function RescaleSession(s: Session, k: real, d: int): Session {
    s.(activities := RescaleAll(s.activities, k, d))
  }

  /** A step of a session template, as the generators write them out:
      a step without distance (warm-up, rest, cool-down), a run over `share`
      times the session's scale at the band `lo..hi` around a named zone, a
      run over `share` times the scale at a named effort, or a repeat block. */
  datatype Step =
    | Fixed(activity: Activity)
    | Run(share: real, zone: ZoneName, lo: int, hi: int)
    | RunAt(share: real, intensity: string)
    | Block(title: string, count: int, steps: seq<Step>)

  /** The activity a step becomes for given zones and distance scale. */
  function Instantiate(s: Step, z: Zones, scale: real): (a: Activity)
    ensures s.Block? ==> |a.activities| == |s.steps|
    decreases s
  {
    match s
    case Fixed(a) => a
    case Run(share, zone, lo, hi) => PacedRun(share * scale, Band(Pick(z, zone), lo, hi))
    case RunAt(share, intensity) => EffortRun(share * scale, intensity)
    case Block(title, count, steps) =>
      Repeat(title, count, seq(|steps|, i requires 0 <= i < |steps| => Instantiate(steps[i], z, scale)))
  }

  function InstantiateAll(steps: seq<Step>, z: Zones, scale: real): (acts: seq<Activity>)
    ensures |acts| == |steps|
  {
    seq(|steps|, i requires 0 <= i < |steps| => Instantiate(steps[i], z, scale))
  }

  /** A step without distance, pace or children. */
  predicate Plain(a: Activity) {
    a.distance.NoDistance? && a.pace.None? && a.repetitions.None? && a.activities == []
  }

  /** A template whose fixed steps are plain leaves and whose blocks state
      their count, which is at least one, and own at least one step. */
  predicate StepWellFormed(s: Step)
    decreases s
  {
    match s
    case Fixed(a) => Plain(a)
    case Run(_, _, _, _) => true
    case RunAt(_, _) => true
    case Block(title, count, steps) =>
      && count >= 1 && title == RepeatLabel(count) && |steps| >= 1
      && forall i :: 0 <= i < |steps| ==> StepWellFormed(steps[i])
  }

  predicate TemplateWellFormed(steps: seq<Step>) {
    forall i :: 0 <= i < |steps| ==> StepWellFormed(steps[i])
  }

  /** Warm-up (8 min), a 3-minute rest, ..., cool-down (6 min). */
  predicate TemplateFramed(steps: seq<Step>) {
    && |steps| >= 3
    && steps[0] == Fixed(WarmUp)
    && steps[1] == Fixed(Rest("3min"))
    && steps[|steps| - 1] == Fixed(CoolDown)
  }

  /** A well-formed template yields a well-formed activity tree, whatever
      the zones and the scale. */
  lemma {:induction false} InstantiateWellFormed(s: Step, z: Zones, scale: real)
    requires StepWellFormed(s)
    ensures WellFormed(Instantiate(s, z, scale))
    decreases s
  {
    if s.Block? {
      forall i | 0 <= i < |s.steps|
        ensures WellFormed(Instantiate(s, z, scale).activities[i])
      {
        InstantiateWellFormed(s.steps[i], z, scale);
      }
    }
  }

  /** A well-formed, framed template yields a well-formed, framed session. */
  lemma InstantiateAllShape(steps: seq<Step>, z: Zones, scale: real)
    requires TemplateWellFormed(steps)
    ensures AllWellFormed(InstantiateAll(steps, z, scale))
    ensures TemplateFramed(steps) ==> Framed(InstantiateAll(steps, z, scale))
  {
    forall i | 0 <= i < |steps|
      ensures WellFormed(InstantiateAll(steps, z, scale)[i])
    {
      InstantiateWellFormed(steps[i], z, scale);
    }
  }

  /** Rescaling an instance is instantiating for the shifted zones and the
      scaled scale: a template fixes everything but distances and paces. */
  lemma {:induction false} RescaleInstance(s: Step, z: Zones, scale: real, k: real, d: int)
    requires StepWellFormed(s)
    ensures Rescale(Instantiate(s, z, scale), k, d) == Instantiate(s, Shift(z, d), scale * k)
    decreases s
  {
    var lhs := Rescale(Instantiate(s, z, scale), k, d);
    var rhs := Instantiate(s, Shift(z, d), scale * k);
    match s
    case Fixed(a) =>
      assert lhs.activities == [];
    case Run(share, zone, lo, hi) =>
      assert share * scale * k == share * (scale * k);
    case RunAt(share, intensity) =>
      assert share * scale * k == share * (scale * k);
    case Block(title, count, steps) =>
      forall i | 0 <= i < |steps|
        ensures lhs.activities[i] == rhs.activities[i]
      {
        RescaleInstance(steps[i], z, scale, k, d);
      }
      assert lhs.activities == rhs.activities;
  }

  lemma RescaleAllInstances(steps: seq<Step>, z: Zones, scale: real, k: real, d: int)
    requires TemplateWellFormed(steps)
    ensures RescaleAll(InstantiateAll(steps, z, scale), k, d) == InstantiateAll(steps, Shift(z, d), scale * k)
  {
    forall i | 0 <= i < |steps|
      ensures RescaleAll(InstantiateAll(steps, z, scale), k, d)[i] == InstantiateAll(steps, Shift(z, d), scale * k)[i]
    {
      RescaleInstance(steps[i], z, scale, k, d);
    }
  }

  /** The dictionary key of week n: `f"Semana {n}"`. */
  function WeekLabel(n: int): string {
    "Semana " + IntToString(n)
  }

  /** Distinct weeks get distinct keys, so no week of the plan dictionary
      overwrites another. */
  lemma WeekLabelInjective(m: int, n: int)
    requires WeekLabel(m) == WeekLabel(n)
    ensures m == n
  {
    assert WeekLabel(m)[7..] == IntToString(m);
    assert WeekLabel(n)[7..] == IntToString(n);
    IntToStringInjective(m, n);
  }

  /** The shape of one plan week: labelled "Semana n", holding four
      sessions (recovery, interval, a threshold-type session, long run),
      two days apart from the given date. */
  predicate WeekShape(w: Week, week: int, date: int) {
    && w.key == WeekLabel(week)
    && |w.sessions| == 4
    && w.sessions[0].kind == Recovery
    && w.sessions[1].kind == Interval
    && w.sessions[2].kind.ThresholdType()
    && w.sessions[3].kind == LongRun
    && forall j :: 0 <= j < 4 ==> w.sessions[j].date == date + 2 * j
  }

  /** The layout both back-ends promise: one entry per week 1..numWeeks in
      order, each of the week shape, week i + 1 starting 8 i days after the
      start, so that the k-th session of the whole plan falls 2k days after
      it. */
  predicate PlanLayout(plan: Plan, numWeeks: int, start: int) {
    && |plan| == (if numWeeks > 0 then numWeeks else 0)
    && forall i :: 0 <= i < |plan| ==> WeekShape(plan[i], i + 1, start + 8 * i)
  }

  /** The plan both generators build: week n made by `weekOf` from its
      number and the date eight days after the previous week's. */
  function Weeks(weekOf: (int, int) -> Week, n: nat, start: int): (plan: Plan)
    ensures |plan| == n
  {
    if n == 0 then [] else Weeks(weekOf, n - 1, start) + [weekOf(n, start + 8 * (n - 1))]
  }

  /** The outer loop both generators share: weeks 1..numWeeks (none when
      numWeeks < 1), each made from its number and the running date, which
      moves on eight days (four sessions, two days apart) per week. */
  method BuildWeeks(weekOf: (int, int) -> Week, startDate: int, numWeeks: int) returns (plan: Plan)
    ensures plan == Weeks(weekOf, if numWeeks > 0 then numWeeks else 0, startDate)
  {
    plan := [];
    var currentDate := startDate;
    var week := 1;
    while week <= numWeeks
      invariant 1 <= week && (week == 1 || week <= numWeeks + 1)
      invariant plan == Weeks(weekOf, week - 1, startDate)
      invariant currentDate == startDate + 8 * (week - 1)
    {
      plan := plan + [weekOf(week, currentDate)];
      currentDate := currentDate + 8;
      week := week + 1;
    }
  }

  /** Week i of that plan is the one made for number i + 1 and the date
      8 i days after the start. */
  lemma {:induction false} WeeksIndex(weekOf: (int, int) -> Week, n: nat, start: int)
    ensures forall i :: 0 <= i < n ==> Weeks(weekOf, n, start)[i] == weekOf(i + 1, start + 8 * i)
  {
    if n > 0 {
      WeeksIndex(weekOf, n - 1, start);
    }
  }

  /** When every week the builder makes has the week shape, the plan has
      the promised layout. */
  lemma WeeksLayout(weekOf: (int, int) -> Week, numWeeks: int, start: int)
    requires forall week, date :: WeekShape(weekOf(week, date), week, date)
    ensures PlanLayout(Weeks(weekOf, if numWeeks > 0 then numWeeks else 0, start), numWeeks, start)
  {
    WeeksIndex(weekOf, if numWeeks > 0 then numWeeks else 0, start);
  }
}
