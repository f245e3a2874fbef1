# Running training plan generator — Dafny model

The system turns a runner's average pace into a multi-week training plan.
Each week holds four sessions: a recovery run (Regenerativo), an interval
session (Intervalado), a threshold-type session (Progressivo, Fartlek or
Limiar), and a long run (Longo). The sessions are two days apart. There are
two back-ends, and each is modelled in its own module:

- `CyclePlan` models `app.py`. The pace zones are computed once. They get
  10 s/km faster with every six-week cycle, and the floors are not applied
  again. Distances grow by 20 % of the base per cycle from a base distance given by the
  caller. The interval and threshold trees differ for each of the six
  positions in a cycle.
- `LinearPlan` models `app-v4.py`. The zones are recomputed every week from
  the cycle number, and the floors are applied each time. Every distance is a multiple of a
  distance factor: the week's long run divided by a base long run taken from
  the pace. The long run grows 0.5 km a week, to at most 5 km more than its
  base. Only positions 1 and 6 of a cycle have trees of their own; positions
  2 to 5 fall through to the week-6 tree.
- `Request` models the pure checks of the `/calculate` handler in
  `app-v4.py`, and the pace string that the handler builds from the 5 km
  time.

Shared modules:

- `Text` models the Python text primitives the code uses: `str.split`,
  `int()` on strings, `str()` of an integer, and `:02d`.
- `Pace` models paces in `M:SS` form (parse, render, `adjust_pace`) and the
  four zones.
- `Workout` holds the activity tree, sessions, weeks and the plan layout. It
  also defines session templates (`Step`), which are instantiated for given
  zones and a given distance scale.
- `Versions` relates the two back-ends.

The data model. `Workout.Activity` is the `Activity` dataclass (app.py:10-22,
app-v4.py:10-22): a description, an optional distance, duration, pace band,
intensity and repetition count, and the children of a repeat block.
`Workout.Session` is `TrainingSession` (app.py:24-29, app-v4.py:24-28); the
`base_distance` field that only `app.py` has is `Distance.NoDistance` in
`app-v4.py`. `Workout.Week` is one entry of the plan dictionary, its key
`"Semana n"` and its four sessions. `Request.RequiredFields` is the list
`required_fields` of app-v4.py:180.

Modelling choices:

- **Paces are whole seconds per kilometre.** The source keeps zones as
  rendered strings and re-parses them in `adjust_pace`. The model keeps
  integers. `Pace.AdjustRendered` proves this loses nothing:
  `adjust_pace(render(t), k) == render(t + k)`. It holds for negative totals
  too, because Python's `//` and `%` by 60 agree with Dafny's Euclidean
  division.
- **Pace bands.** An activity's pace band is stored as two second counts.
  `Workout.BandTextFromZone` shows that the text the source writes
  (`"{a} a {b} min/km"`) is a function of those two numbers.
- **Distances are exact reals.**
- **Dates are day ordinals.**

In three places the code does something a reader may not expect; the model
follows the code:

- Parsing does not bound the seconds field. `int()` accepts any digits, so
  `"5:75"` is 375 seconds.
- The v4 handler renders the whole 5 km time, in seconds, with the pace
  format `M:SS`, and hands that text on as the average pace per km. A 5 km
  time of 1500 s gives the pace `"25:00"` (`Request.AveragePace`,
  `Pace.RenderExamples`).
- `app-v4.py` parses the pace inside the week loop. With no weeks to build,
  an unparseable pace gives an empty plan, not an error. `app.py` parses
  before the loop and always fails on such a pace.

The week loop is shared. Both back-ends run the same outer loop: week 1 to
N, four sessions per week, each two days after the last. `Workout.BuildWeeks`
is that loop, and each back-end passes its own week as a function of the
week number and the date of its first session. In `app-v4.py` every pass of
the loop parses the same pace again, so either every pass fails or none does.
The model therefore parses once, before the loop, when there is at least one
week to build.

The day loop inside a week is modelled on its own as `GenerateWeek` in each
back-end, and proved to build exactly `WeekOf`, the reference week. The
plan methods do not call `GenerateWeek`: they pass `WeekOf` itself to
`Workout.BuildWeeks`, so the plan's weeks equal what the day loop builds by
that separate proof.

## Model

| member | source | states |
|---|---|---|
| Text.ParseInt | app.py:32 | `int()` on a string: an optional sign and one or more ASCII digits, None otherwise |
| Text.Split | app.py:32 | `str.split(sep)`: the pieces between separators, never an empty list |
| Text.IntToString | app.py:41 | `str(i)`: a minus sign before the numeral of a negative number |
| Text.ZeroPad2 | app.py:41 | `:02d` of a non-negative number: at least two characters, zero-padded on the left |
| Text.NatToStringDigits | app.py:41 | `str(n)` is all digits, denotes n, has no leading zero, and has one digit below 10 and at most two below 100 |
| Text.JoinSplit | app.py:32 | splitting on ':' loses nothing: joining the pieces gives back the string |
| Text.SplitPiecesHaveNoSep | app.py:32 | no piece of `split(':')` contains ':' |
| Text.SplitAround | app.py:32 | the first ':' ends the first piece |
| Text.IntToStringRoundTrip | app.py:41 | `int(str(i)) == i` for every integer, negative ones included |
| Text.ZeroPad2RoundTrip | app.py:41 | `int(f"{n:02d}") == n`, and the padded field has no ':' |
| Text.ZeroPad2Digits | app.py:41 | `f"{n:02d}"` is all digits, denotes n, and is exactly two characters below 100 |
| Text.IntToStringInjective | app.py:41 | distinct integers have distinct `str()` forms |
| Pace.Parse | app.py:32-33 | `minutes, seconds = map(int, p.split(':'))` then minutes × 60 + seconds; None where Python raises ValueError |
| Pace.Render | app.py:41 | `f"{int(t // 60)}:{int(t % 60):02d}"` with floor division |
| Pace.RenderFields | app.py:41 | a rendered pace splits into exactly the minutes numeral and the two-digit seconds |
| Pace.RenderRoundTrip | app.py:32-33 | parsing a rendered total gives the total back, for every integer (-5 is "-1:55") |
| Pace.RenderCanonical | app.py:41 | every rendering has one ':' and a two-digit seconds field below 60 |
| Pace.RenderInjective | app.py:41 | distinct totals render differently |
| Pace.AdjustPace | app.py:43-46 | `adjust_pace` fails exactly when its input does not parse |
| Pace.AdjustPaceRoundTrip | app.py:43-46 | the adjusted text parses to the parsed input plus the adjustment, negative totals included |
| Pace.AdjustPaceCanonical | app.py:43-46 | the adjusted text has a zero-padded seconds field in 0..59 |
| Pace.AdjustCompose | app.py:43-46 | adjusting by a and then by b gives exactly the text of adjusting by a + b |
| Pace.AdjustRendered | app-v4.py:46-49 | adjusting a rendered zone by k is rendering the zone plus k, so zones may be carried as seconds |
| Pace.RenderExamples | app-v4.py:201 | -5 renders "-1:55", 300 renders "5:00", and 1500 renders "25:00" |
| Workout.BandTextFromZone | app.py:72 | the band text built from a zone with `adjust_pace` is the rendering of zone+lo and zone+hi |
| Workout.BandText | app.py:72 | the `"{a} a {b} min/km"` text of a pace band, each bound rendered as `M:SS` |
| Workout.Instantiate | app.py:71-74 | a template step made concrete: a run's distance is its share of the scale, its pace the band lo..hi seconds around the named zone; a block keeps its label, count and one child per step |
| Workout.InstantiateAll | app.py:68-76 | a whole template made concrete, one activity per step in order |
| Workout.RepeatLabels | app.py:71 | each "Repetir Nx" label the trees write names its repetition count |
| Workout.InstantiateWellFormed | app.py:71-74 | a well-formed template yields a well-formed activity tree for any zones and scale |
| Workout.InstantiateAllShape | app.py:63-76 | a well-formed, framed template yields a well-formed session opening with warm-up and 3-min rest and closing with cool-down |
| Workout.RescaleInstance | app.py:63-144 | rescaling an instance is instantiating for the shifted zones at the multiplied scale |
| Workout.RescaleAllInstances | app.py:63-144 | the same for a whole session's list of activities |
| Workout.WeekLabelInjective | app.py:271 | distinct weeks get distinct "Semana n" keys, so no week overwrites another |
| Workout.WeekLabel | app.py:271 | the plan key `f"Semana {week}"` |
| Workout.BuildWeeks | app.py:252-271 | the week loop returns, for N weeks, the weeks 1..N built at dates 8 days apart from the start; no weeks when N <= 0 |
| Workout.WeeksIndex | app.py:252-271 | week i of such a plan is the week i + 1 built at the start plus 8 i days |
| Workout.WeeksLayout | app.py:247-273 | if every week built has the week shape, the plan has N weeks (none for N <= 0) and the promised layout |
| CyclePlan.ZonesFor | app.py:33-40 | the four zone values in seconds for a base pace: very fast max(b - 30, 180), fast max(b, 210), threshold b + 30, easy b + 60 |
| CyclePlan.Multiplier | app.py:56-58 | `calculate_distance_multiplier`: 1 + 0.2 per completed six-week cycle |
| CyclePlan.IntervalTemplate | app.py:66-144 | the six interval trees of `generate_interval_session`, one per `week % 6`, with each run's share of the scale and its band around a named zone |
| CyclePlan.IntervalSession | app.py:63-144 | `generate_interval_session`: the interval tree for `week % 6`, instantiated at the week's zones and at scale base × multiplier |
| CyclePlan.ThresholdTemplate | app.py:149-218 | the six threshold trees of `generate_threshold_session`, one per `week % 6` |
| CyclePlan.ThresholdSession | app.py:146-218 | `generate_threshold_session`: the threshold tree for `week % 6`, with its session type, at the week's zones and scale |
| CyclePlan.LongRunDistance | app.py:234-237 | `calculate_long_run_distance` without the rounding: the base long run times the multiplier |
| CyclePlan.ZonesOfWeek | app.py:253-256 | the week's zones: the average pace's zones 10 s/km faster per completed cycle, with no floor applied again |
| CyclePlan.WeekOf | app.py:258-271 | the week stored under "Semana n": recovery, interval, threshold and long run at dates d, d + 2, d + 4, d + 6 |
| CyclePlan.CalculatePaces | app.py:31-41 | fails iff the pace does not parse; very fast >= 180, fast >= 210, threshold = base+30, easy = base+60 > threshold; no floor binds from 3:30 up |
| CyclePlan.MultiplierFirstCycle | app.py:56-58 | the multiplier is 1 in weeks 1 to 6 |
| CyclePlan.MultiplierStep | app.py:56-58 | the multiplier rises by exactly 0.2 after each sixth week and is otherwise unchanged |
| CyclePlan.MultiplierMonotone | app.py:56-58 | the multiplier never decreases from one week to a later one |
| CyclePlan.MultiplierAtLeastOne | app.py:56-58 | the multiplier is at least 1 in every week of the plan |
| CyclePlan.RegenerativeSession | app.py:48-54 | a Regenerativo session with one well-formed run and the caller's base distance |
| CyclePlan.RegenerativeDistanceGrows | app.py:48-54 | the recovery run is at least 0.7 × base and never shorter in a later week |
| CyclePlan.RecoveryRun | app.py:48-54 | the recovery run of every plan week is exactly 0.7 × base × the week's multiplier km, at "Leve" |
| CyclePlan.ThresholdKind | app.py:146-218 | the third session is always a threshold-type session |
| CyclePlan.TemplatesWellFormed | app.py:63-218 | every tree opens with Aquecer 8min and Descansar 3min and closes with Desaquecer 6min, and every "Repetir Nx" has N >= 1 matching its label and non-empty children |
| CyclePlan.IntervalTemplateWellFormed | app.py:63-144 | the same for the six interval trees |
| CyclePlan.ThresholdTemplateWellFormed | app.py:146-218 | the same for the six threshold trees |
| CyclePlan.IntervalShape | app.py:63-144 | every interval session is framed and well formed, with the week's date and the base distance |
| CyclePlan.ThresholdShape | app.py:146-218 | every threshold session is framed and well formed; Progressivo when week % 6 == 1, Fartlek when 3, Limiar otherwise |
| CyclePlan.ScaleInstances | app.py:63-144 | moving a template's instance from multiplier m1 to m2 is rescaling it by m2/m1 |
| CyclePlan.IntervalFollowsCycle | app.py:63-144 | interval sessions of weeks with the same `week % 6` differ only by the multiplier ratio and a zone shift |
| CyclePlan.ThresholdFollowsCycle | app.py:146-218 | the same for threshold sessions |
| CyclePlan.RegenerativeFollowsCycle | app.py:48-54 | recovery sessions of two weeks differ only by the multiplier ratio |
| CyclePlan.BandedBase | app.py:220-232 | the base long run lies between 0.6 and 1.2 times the caller's base |
| CyclePlan.BandedBaseNonIncreasing | app.py:220-232 | a slower pace never gets a longer base long run |
| CyclePlan.BaseLongRunDistance | app.py:220-232 | fails iff the pace does not parse; otherwise within 0.6 to 1.2 times the base |
| CyclePlan.LongRunDistanceGrows | app.py:234-237 | the long run is its base for weeks 1 to 6, at least its base, and never shorter later |
| CyclePlan.LongRunOf | app.py:239-245 | a Longo session with one well-formed run and the caller's base distance |
| CyclePlan.LongRunSession | app.py:239-245 | fails iff the pace does not parse; otherwise the long-run session for the parsed pace |
| CyclePlan.LongRunOfWeek | app.py:234-245 | the long run of every plan week is exactly the banded base long run times the week's multiplier, at "Livre" |
| CyclePlan.ZonesOfWeekStep | app.py:254-256 | six weeks later every zone is exactly 10 s/km faster |
| CyclePlan.FloorsNotReapplied | app.py:254-256 | the cycle shift is not floored again: at 3:30 the seventh week's very fast zone is 2:50 |
| CyclePlan.WeekOfLayout | app.py:257-271 | a week is labelled "Semana n" and holds Regenerativo, Intervalado, a threshold type and Longo, two days apart |
| CyclePlan.WeekSixLater | app.py:247-271 | week w + 6's interval and threshold sessions are week w's, rescaled by the multiplier ratio and 10 s/km faster |
| CyclePlan.GenerateWeek | app.py:257-271 | the inner loop builds exactly the reference week |
| CyclePlan.WeekBuilderShape | app.py:257-271 | every week the loop body can build has the week shape |
| CyclePlan.BuiltWeek | app.py:252-271 | week i of the plan the loop builds is the reference week i + 1, dated 8 i days after the start |
| CyclePlan.BuiltPlan | app.py:247-273 | the plan the loop builds has the promised layout and holds the reference weeks in order |
| CyclePlan.GenerateTrainingPlan | app.py:247-273 | fails iff the pace does not parse; otherwise N weeks with the promised layout, each the reference week for its cycle's zones |
| LinearPlan.ZonesFor | app-v4.py:32-43 | the zones of a cycle: the base moved 10 s/km faster per cycle and floored at 180, then the four zones with their own floors |
| LinearPlan.Cycle | app-v4.py:147 | the cycle number `(week - 1) // 6 + 1` |
| LinearPlan.IntervalTemplate | app-v4.py:57-86 | the two interval trees: position 1, and the week-6 tree that every other position gets |
| LinearPlan.IntervalSession | app-v4.py:56-86 | `generate_interval_session`: the tree for the week's position, instantiated at the zones with the distance factor as scale |
| LinearPlan.ThresholdTemplate | app-v4.py:89-110 | the two threshold trees, position 1 and the week-6 tree |
| LinearPlan.ThresholdSession | app-v4.py:88-110 | `generate_threshold_session`: Progressivo at position 1 and Limiar otherwise, over the matching tree |
| LinearPlan.WeekOf | app-v4.py:146-167 | the week stored under "Semana n": the cycle's zones, the distance factor, and the four sessions at d, d + 2, d + 4, d + 6, the recovery run 7 × factor |
| LinearPlan.AdjustedBase | app-v4.py:34-35 | the adjusted base is never below 180 |
| LinearPlan.CalculatePaces | app-v4.py:30-44 | fails iff the pace does not parse; for every cycle very fast >= 180, fast >= 210, easy = threshold + 30 > threshold >= fast >= very fast |
| LinearPlan.ZonesNonIncreasing | app-v4.py:34-43 | a later cycle never has a slower zone |
| LinearPlan.ZonesCycleStep | app-v4.py:34-43 | away from the floors, each cycle is exactly 10 s/km faster |
| LinearPlan.Position | app-v4.py:57 | the position in the cycle lies in 1..6 |
| LinearPlan.ThresholdKind | app-v4.py:88-110 | the third session is always a threshold-type session |
| LinearPlan.IntervalTemplateWellFormed | app-v4.py:56-86 | both interval trees are framed, and every repeat block's count matches its label, is >= 1 and owns children |
| LinearPlan.ThresholdTemplateWellFormed | app-v4.py:88-110 | the same for both threshold trees |
| LinearPlan.SessionShapes | app-v4.py:56-110 | every interval and threshold session is framed and well formed; Progressivo exactly at position 1, Limiar otherwise |
| LinearPlan.ElidedBranches | app-v4.py:56-110 | positions 2 to 5 give the week-6 sessions, and position 1 gives the week-1 sessions, for both generators |
| LinearPlan.RegenerativeSession | app-v4.py:51-54 | a Regenerativo session with one well-formed run over the given distance |
| LinearPlan.BandedBase | app-v4.py:112-123 | the base long run is between 6 and 12 km |
| LinearPlan.BandedBaseNonIncreasing | app-v4.py:112-123 | a slower pace never gets a longer base long run |
| LinearPlan.BaseLongRunDistance | app-v4.py:112-123 | fails iff the pace does not parse; otherwise 6 to 12 km |
| LinearPlan.LongRunDistance | app-v4.py:125-132 | the long run is never more than 5 km over its base |
| LinearPlan.LongRunSchedule | app-v4.py:125-132 | the long run is the base at week 1, base + 0.5 (week - 1) through week 11, base + 5 from week 11, and never below base |
| LinearPlan.LongRunNonDecreasing | app-v4.py:125-132 | the long run never shrinks in a later week |
| LinearPlan.DistanceFactor | app-v4.py:150-152 | the distance factor is at least 1 in every plan week and at most 1 + 5/6 |
| LinearPlan.FactorBounds | app-v4.py:152 | a long run between its base and base + 5, over a base of at least 6, gives a factor in 1..1 + 5/6 |
| LinearPlan.LongRunOf | app-v4.py:134-140 | a Longo session with one well-formed run |
| LinearPlan.LongRunSession | app-v4.py:134-140 | fails iff the pace does not parse; otherwise the long-run session for the parsed pace |
| LinearPlan.LongRunOfWeek | app-v4.py:125-140 | the long run of every plan week is exactly the capped long-run distance for the banded base, at "Livre" |
| LinearPlan.RecoveryDistance | app-v4.py:152-158 | the recovery run is 7 × the distance factor, so never under 7 km |
| LinearPlan.WeekOfLayout | app-v4.py:155-167 | a week is labelled "Semana n" and holds the four sessions in order, two days apart |
| LinearPlan.WeekBuilderShape | app-v4.py:150-167 | every week the loop body can build has the week shape |
| LinearPlan.BuiltWeek | app-v4.py:146-167 | week i of the plan the loop builds is the reference week i + 1, dated 8 i days after the start |
| LinearPlan.BuiltPlan | app-v4.py:142-169 | the plan the loop builds has the promised layout and holds the reference weeks in order |
| LinearPlan.GenerateWeek | app-v4.py:147-167 | one outer-loop pass fails iff the pace does not parse, and otherwise builds the reference week |
| LinearPlan.GenerateTrainingPlan | app-v4.py:142-169 | fails iff there is a week to build and the pace does not parse; otherwise N weeks with the promised layout, each the reference week |
| Request.Truncate | app-v4.py:187 | `int()` of a float truncates toward zero |
| Request.ToInt | app-v4.py:187-189 | `int()` keeps integers, reads booleans as 0/1, parses strings with a ValueError on failure, raises ValueError on NaN, OverflowError exactly on the infinities, and TypeError exactly on null, arrays and objects |
| Request.ToIntOfString | app-v4.py:187-189 | an integer sent as its decimal string is read back as itself |
| Request.Missing | app-v4.py:180-181 | a field is reported missing iff it is required and absent |
| Request.MissingRequired | app-v4.py:180-184 | the missing fields are reported exactly, in the order time5k, startDate, numWeeks |
| Request.Validate | app-v4.py:176-199 | "no data" iff the body is absent or empty; an accepted request has positive time5k and numWeeks |
| Request.ValidateAccepts | app-v4.py:176-199 | a request is accepted iff all three fields are present, both numbers convert and are positive, and the date is a well-formed string; the accepted values are those |
| Request.MissingReported | app-v4.py:180-184 | with a field absent, the answer is the missing-fields error naming exactly the absent required fields |
| Request.TimeCheckedFirst | app-v4.py:186-191 | a time5k that `int()` rejects decides the error before numWeeks is read: TypeError or OverflowError gives a server error, ValueError the type-error message |
| Request.LaterChecksInOrder | app-v4.py:186-199 | once time5k converts, numWeeks decides next (ValueError gives the type-error message, TypeError or OverflowError a server error), then a non-positive number gives the positivity message, then a non-string start date a server error and an unparseable one the date-format message |
| Request.AveragePace | app-v4.py:201 | the pace string parses back to the 5 km time in seconds and is canonical |
| Request.Respond | app-v4.py:201-202 | an accepted request gets numWeeks weeks with the promised layout, each the reference week for a pace of time5k seconds |
| Request.Calculate | app-v4.py:176-204 | a request errs iff validation errs, with validation's error; otherwise it gets the plan for its values |
| Versions.FirstCycleAgrees | app-v4.py:30-44 | the first cycle's zones agree with `app.py` iff the pace is at least 180 s/km |
| Versions.LaterCyclesAgree | app-v4.py:34-43 | while the shifted pace stays at or above 3:30, v4's cycle zones equal `app.py`'s shifted zones |
| Versions.FloorsDiverge | app-v4.py:35-40 | at 3:30 the seventh week's very fast zone is 2:50 in `app.py` and 3:00 in v4 |
| Versions.InstantiateScaledShares | app-v4.py:56-110 | multiplying every share of a tree by c is multiplying the scale by c |
| Versions.InstantiateAllScaledShares | app-v4.py:56-110 | the same for a whole template |
| Versions.TemplatesTenfold | app-v4.py:56-110 | v4's position-1 and week-6 trees are `app.py`'s with every share multiplied by 10 |
| Versions.SessionsTenfold | app-v4.py:56-110 | a v4 interval or threshold session at factor f has the activities `app.py` gives at scale 10 f |

## Left out

- Flask and the HTTP layer are not modelled: the app, its routes, CORS, the `after_request` headers, `jsonify`, `app.run`, the OPTIONS answer and the text of the error messages. `Request` returns error kinds, not HTTP responses.
- The `/calculate` handler of `app.py` is not modelled. It is plumbing that reads five fields (`minutes`, `seconds`, `start_date`, `num_weeks`, `base_distance`), three of them with defaults, and the default start date is the current clock.
- Request bodies that are JSON but not objects are not modelled. The model takes a decoded object or nothing.
- Python `int()` on strings is modelled as an optional sign followed by ASCII digits. Surrounding whitespace, underscores and non-ASCII digits are not modelled.
- Date handling is not modelled: `datetime.strptime`, `strftime` and `timedelta`. Dates are day ordinals. `Request.Validate` takes the date parser as a parameter, `parseDate`.
- Request.Calculate: answers with the plan for every validated request. In the handler, a start date near 31/12/9999 passes `strptime` but makes `current_date += timedelta(days=2)` (app-v4.py:165) raise an uncaught OverflowError, a server error. On Python 3.11 and later, `int()` also refuses a string of more than 4300 digits with a ValueError, the type-error message, where `Text.ParseInt` accepts it. The model bounds neither the calendar nor the digit count.
- Decimal rendering of distances is not modelled: `:.1f` and `round(x, 1)`. Distances are exact reals, because binary floating point cannot be reproduced faithfully.
- CyclePlan.LongRunDistance: does not model the `round(x, 1)` the source applies to the long run.
- `km_to_minutes` is not modelled. It is never called.
- The React front-end files are not modelled.
- Distances for `app.py` are written as share × (base × multiplier). The source writes most of them as `share * base_distance * distance_multiplier`, that is (share × base) × multiplier. The recovery run and the repeats of position 1 go through a local: `(base_distance * share) * distance_multiplier`. Over exact reals these are all equal. Over binary floats they can differ in the last bit.
- The `interval_distance` and `threshold_distance` locals of `app.py` are not modelled as such. Only the position-1 branches read them, and there they equal the share written in the activity. The other branches assign them and never read them.
- Activity distances and paces are stored as numbers, not as the source's text. `Workout.BandTextFromZone` relates the pace text to the numbers. The `km` suffix is not modelled.
- The `TrainingSession.type` strings are modelled as the `Kind` datatype, with `Kind.Label()` giving the text.
