/** The pure part of the `/calculate` handler of the second back-end
    (app-v4.py): the checks on the decoded JSON body, in the order the
    handler makes them, and the pace string it hands to the generator. */
module Request {
  import opened Wrappers
  import opened Text
  import opened Pace
  import opened Workout
  import LinearPlan

  /** A decoded JSON value, as far as the handler looks into it; arrays and
      objects are one case because `int()` rejects both alike. `JReal` is a
      finite number; Python's decoder also yields NaN (the literal `NaN`) and
      the infinities (`Infinity`, `-Infinity`, or a number too large such as
      `1e400`), which are `JNaN` and `JInfinity`. */
  datatype Json =
    | JNull | JBool(b: bool) | JInt(i: int) | JReal(r: real) | JNaN | JInfinity(negative: bool)
    | JStr(s: string) | JCompound

  /** What `int(value)` does: a number, a ValueError (caught by the
      handler), or a TypeError or OverflowError (neither caught, so the
      request fails with a server error). */
  datatype Conversion = Converted(n: int) | ValueErr | TypeErr | OverflowErr

  /** The validated request. */
  datatype Valid = Valid(time5k: int, startDate: int, numWeeks: int)

  /** Each way the handler answers without a plan. */
  datatype RequestError =
    | NoData                          // "No JSON data received", 400
    | MissingFields(fields: seq<string>) // "Missing required fields: ...", 400
    | InvalidTypes                    // the ValueError of `int()`, 400
    | NotPositive                     // time5k or numWeeks <= 0, 400
    | InvalidDate                     // the ValueError of `strptime`, 400
    | ServerError                     // an uncaught TypeError or OverflowError, 500

  /** `int(x)` on a float: truncation toward zero. */
  function Truncate(x: real): (n: int)
    ensures n as real <= x < n as real + 1.0 || n as real - 1.0 < x <= n as real
    ensures x >= 0.0 ==> 0 <= n && n as real <= x
    ensures x < 0.0 ==> n <= 0 && x <= n as real
  {
    if x >= 0.0 then x.Floor else -((-x).Floor)
  }

  /** Python's `int()` on a decoded JSON value. */
  function ToInt(j: Json): (c: Conversion)
    ensures j.JInt? ==> c == Converted(j.i)
    ensures j.JStr? ==> (c.Converted? <==> ParseInt(j.s).Some?) && !c.TypeErr?
    ensures j.JBool? ==> c == Converted(if j.b then 1 else 0)
    ensures (j.JNull? || j.JCompound?) <==> c.TypeErr?
    ensures j.JNaN? ==> c == ValueErr
    ensures j.JInfinity? <==> c.OverflowErr?
    ensures j.JReal? ==> c == Converted(Truncate(j.r))
    ensures j.JStr? && ParseInt(j.s).Some? ==> c == Converted(ParseInt(j.s).value)
  {
    match j
    case JNull => TypeErr
    case JBool(b) => Converted(if b then 1 else 0)
    case JInt(i) => Converted(i)
    case JReal(r) => Converted(Truncate(r))
    case JNaN => ValueErr
    case JInfinity(_) => OverflowErr
    case JStr(s) => (match ParseInt(s) case Some(n) => Converted(n) case None => ValueErr)
    case JCompound => TypeErr
  }

  /** A number sent as its decimal string is read back as that number. */
  lemma ToIntOfString(n: int)
    ensures ToInt(JStr(IntToString(n))) == Converted(n)
  {
    IntToStringRoundTrip(n);
  }

  /** The fields the handler requires, in the order it reports them. */
  const RequiredFields: seq<string> := ["time5k", "startDate", "numWeeks"]

  /** `[field for field in fields if field not in data]`. */
  function Missing(fields: seq<string>, data: map<string, Json>): (m: seq<string>)
    ensures |m| <= |fields|
    ensures forall f :: f in m <==> f in fields && f !in data
  {
    if |fields| == 0 then []
    else
      var rest := Missing(fields[1..], data);
      assert forall f :: f in fields <==> f == fields[0] || f in fields[1..];
      if fields[0] !in data then [fields[0]] + rest else rest
  }

  /** The missing required fields, exactly and in the handler's order. */
  lemma MissingRequired(body: map<string, Json>)
    ensures Missing(RequiredFields, body) ==
      (if "time5k" in body then [] else ["time5k"])
      + (if "startDate" in body then [] else ["startDate"])
      + (if "numWeeks" in body then [] else ["numWeeks"])
  {
    var last := Missing(["numWeeks"], body);
    assert ["numWeeks"][1..] == [];
    assert last == (if "numWeeks" in body then [] else ["numWeeks"]);
    var middle := Missing(["startDate", "numWeeks"], body);
    assert ["startDate", "numWeeks"][1..] == ["numWeeks"];
    assert middle == (if "startDate" in body then [] else ["startDate"]) + last;
    assert RequiredFields[1..] == ["startDate", "numWeeks"];
  }

  /** The checks of `calculate`, in order: a body at all and not empty, the
      three fields present, `int()` of time5k and then of numWeeks, both
      positive, and a DD/MM/YYYY start date. `parseDate` stands for
      `strptime`: the day ordinal of a well-formed date, None otherwise. */
  function Validate(data: Option<map<string, Json>>, parseDate: string -> Option<int>): (r: Result<Valid, RequestError>)
    ensures r == Err(NoData) <==> data.None? || |data.value| == 0
    ensures r.Ok? ==> r.value.time5k > 0 && r.value.numWeeks > 0
  {
    if data.None? || |data.value| == 0 then Err(NoData)
    else
      var body := data.value;
      var missing := Missing(RequiredFields, body);
      if |missing| > 0 then Err(MissingFields(missing))
      else
        assert "time5k" in RequiredFields && "startDate" in RequiredFields && "numWeeks" in RequiredFields;
        match ToInt(body["time5k"])
        case TypeErr => Err(ServerError)
        case OverflowErr => Err(ServerError)
        case ValueErr => Err(InvalidTypes)
        case Converted(time5k) =>
          match ToInt(body["numWeeks"])
          case TypeErr => Err(ServerError)
          case OverflowErr => Err(ServerError)
          case ValueErr => Err(InvalidTypes)
          case Converted(numWeeks) =>
            if time5k <= 0 || numWeeks <= 0 then Err(NotPositive)
            else
              match body["startDate"]
              case JStr(text) =>
                (match parseDate(text)
                 case None => Err(InvalidDate)
                 case Some(day) => Ok(Valid(time5k, day, numWeeks)))
              case _ => Err(ServerError)
  }

  /** A request is accepted exactly when it has all three fields, time5k and
      numWeeks convert to positive integers, and the start date is a
      well-formed date string; and then the request carries those values. */
  lemma ValidateAccepts(data: Option<map<string, Json>>, parseDate: string -> Option<int>)
    ensures Validate(data, parseDate).Ok? <==>
      && data.Some?
      && "time5k" in data.value && "startDate" in data.value && "numWeeks" in data.value
      && ToInt(data.value["time5k"]).Converted? && ToInt(data.value["time5k"]).n > 0
      && ToInt(data.value["numWeeks"]).Converted? && ToInt(data.value["numWeeks"]).n > 0
      && data.value["startDate"].JStr? && parseDate(data.value["startDate"].s).Some?
    ensures Validate(data, parseDate).Ok? ==>
      Validate(data, parseDate).value ==
        Valid(ToInt(data.value["time5k"]).n, parseDate(data.value["startDate"].s).value, ToInt(data.value["numWeeks"]).n)
  {
    if data.Some? {
      MissingRequired(data.value);
      if "time5k" in data.value {
        assert |data.value| > 0 by { assert "time5k" in data.value.Keys; }
      }
    }
  }

  /** The missing fields are reported exactly, in the order time5k,
      startDate, numWeeks, before any value is looked at. */
  lemma MissingReported(body: map<string, Json>, parseDate: string -> Option<int>)
    requires |body| > 0
    requires "time5k" !in body || "startDate" !in body || "numWeeks" !in body
    ensures Validate(Some(body), parseDate).Err?
    ensures var e := Validate(Some(body), parseDate).error;
      && e.MissingFields?
      && (forall f :: f in e.fields <==> f in RequiredFields && f !in body)
      && e.fields == Missing(RequiredFields, body)
  {
    MissingRequired(body);
  }

  /** A time5k that `int()` cannot take at all (a TypeError, or the
      OverflowError of an infinity) fails the request with a server error
      whatever numWeeks is; one it rejects as a value (a malformed string or
      NaN) fails it as a type error, again before numWeeks is read. */
  lemma TimeCheckedFirst(body: map<string, Json>, parseDate: string -> Option<int>)
    requires "time5k" in body && "startDate" in body && "numWeeks" in body
    ensures ToInt(body["time5k"]).TypeErr? ==> Validate(Some(body), parseDate) == Err(ServerError)
    ensures ToInt(body["time5k"]).OverflowErr? ==> Validate(Some(body), parseDate) == Err(ServerError)
    ensures ToInt(body["time5k"]).ValueErr? ==> Validate(Some(body), parseDate) == Err(InvalidTypes)
  {
    MissingRequired(body);
    assert |body| > 0 by { assert "time5k" in body.Keys; }
  }

  /** Once time5k converts, the remaining checks decide the error in the
      handler's order: numWeeks's conversion (a ValueError is the type-error
      message, an uncaught TypeError or OverflowError a server error), then
      positivity of both numbers, then the start date (a non-string makes
      `strptime` raise an uncaught TypeError; a malformed string is the
      date-format message). */
  lemma LaterChecksInOrder(body: map<string, Json>, parseDate: string -> Option<int>)
    requires "time5k" in body && "startDate" in body && "numWeeks" in body
    requires ToInt(body["time5k"]).Converted?
    ensures var weeks := ToInt(body["numWeeks"]);
      && (weeks.ValueErr? ==> Validate(Some(body), parseDate) == Err(InvalidTypes))
      && (weeks.TypeErr? || weeks.OverflowErr? ==> Validate(Some(body), parseDate) == Err(ServerError))
    ensures var time5k := ToInt(body["time5k"]).n;
      var weeks := ToInt(body["numWeeks"]);
      weeks.Converted? ==>
        && (time5k <= 0 || weeks.n <= 0 ==> Validate(Some(body), parseDate) == Err(NotPositive))
        && (time5k > 0 && weeks.n > 0 && !body["startDate"].JStr? ==>
              Validate(Some(body), parseDate) == Err(ServerError))
        && (time5k > 0 && weeks.n > 0 && body["startDate"].JStr? && parseDate(body["startDate"].s).None? ==>
              Validate(Some(body), parseDate) == Err(InvalidDate))
  {
    MissingRequired(body);
    assert |body| > 0 by { assert "time5k" in body.Keys; }
  }

  /** `f"{time_5k // 60}:{time_5k % 60:02d}"`: the whole 5 km time, read as
      if it were seconds per kilometre, so a 25-minute 5 km gives "25:00". */
  function AveragePace(time5k: int): (p: string)
    ensures Parse(p) == Some(time5k) && Canonical(p)
  {
    RenderRoundTrip(time5k);
    RenderCanonical(time5k);
    Render(time5k)
  }

  /** The plan a validated request is answered with: numWeeks weeks from
      the start day, each the reference week for a pace of time5k seconds
      per kilometre. */
  predicate Answers(q: Valid, plan: Plan) {
    && PlanLayout(plan, q.numWeeks, q.startDate)
    && forall i :: 0 <= i < |plan| ==> plan[i] == LinearPlan.WeekOf(q.time5k, i + 1, q.startDate + 8 * i)
  }

  /** What the handler returns for a validated request. */
  method Respond(q: Valid) returns (plan: Plan)
    requires q.numWeeks > 0
    ensures |plan| == q.numWeeks
    ensures Answers(q, plan)
  {
    var averagePace := AveragePace(q.time5k);
    var generated := LinearPlan.GenerateTrainingPlan(averagePace, q.startDate, q.numWeeks);
    plan := generated.value;
  }

  /** The handler after the body is decoded: every rejected request gets
      its error and no plan, every accepted one the plan for its values. */
  method Calculate(data: Option<map<string, Json>>, parseDate: string -> Option<int>)
    returns (r: Result<Plan, RequestError>)
    ensures r.Err? <==> Validate(data, parseDate).Err?
    ensures r.Err? ==> r.error == Validate(data, parseDate).error
    ensures r.Ok? ==> Answers(Validate(data, parseDate).value, r.value)
  {
    var validated := Validate(data, parseDate);
    match validated
    case Err(e) =>
      return Err(e);
    case Ok(q) =>
      var plan := Respond(q);
      return Ok(plan);
  }
}
