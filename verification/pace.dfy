/** Paces in whole seconds per kilometre and their `M:SS` text form, shared
    by both back-ends (`calculate_paces` renders zones, `adjust_pace` parses,
    shifts and re-renders). Python's `//` and `%` by 60 round toward minus
    infinity, which for a positive divisor is exactly Dafny's Euclidean `/`
    and `%`, so negative totals are modelled as written. */
module Pace {
  import opened Wrappers
  import opened Text

  function Max(a: int, b: int): int {
    if a >= b then a else b
  }

  /** `minutes, seconds = map(int, p.split(':'))` and then
      `minutes * 60 + seconds`; None wherever Python raises ValueError (not
      exactly one ':', or a field `int()` rejects). Nothing bounds the
      seconds field: "5:75" is 375 seconds. */
  function Parse(p: string): Option<int>
  {
    var parts := Split(p, ':');
    if |parts| == 2 && ParseInt(parts[0]).Some? && ParseInt(parts[1]).Some? then
      var minutes := ParseInt(parts[0]).value;
      var seconds := ParseInt(parts[1]).value;
      Some(minutes * 60 + seconds)
    else None
  }

  /** `f"{int(t // 60)}:{int(t % 60):02d}"`. */
  function Render(t: int): string
  {
    IntToString(t / 60) + ":" + ZeroPad2(t % 60)
  }

  /** The shape every rendered pace has: a minutes field, one ':', and a
      seconds field of exactly two digits whose value is below 60. */
  predicate Canonical(p: string)
  {
    var parts := Split(p, ':');
    && |parts| == 2
    && ParseInt(parts[0]).Some?
    && |parts[1]| == 2
    && IsDigit(parts[1][0]) && IsDigit(parts[1][1])
    && DigitValue(parts[1][0]) * 10 + DigitValue(parts[1][1]) < 60
  }

  /** Rendering splits into the minutes numeral and the padded seconds. */
  lemma RenderFields(t: int)
    ensures Split(Render(t), ':') == [IntToString(t / 60), ZeroPad2(t % 60)]
  {
    var a := IntToString(t / 60);
    var b := ZeroPad2(t % 60);
    IntToStringHasNoColon(t / 60);
    ZeroPad2RoundTrip(t % 60);
    SplitAround(a, ':', b);
    SplitWithoutSep(b, ':');
    assert Render(t) == a + [':'] + b;
  }

  /** Every total, negative ones included, parses back to itself: -5
      renders as "-1:55", which is -60 + 55. */
  lemma RenderRoundTrip(t: int)
    ensures Parse(Render(t)) == Some(t)
  {
    RenderFields(t);
    IntToStringRoundTrip(t / 60);
    ZeroPad2RoundTrip(t % 60);
  }

  /** Every rendering has a two-digit seconds field below 60. */
  lemma RenderCanonical(t: int)
    ensures Canonical(Render(t))
  {
    RenderFields(t);
    IntToStringRoundTrip(t / 60);
    ZeroPad2Digits(t % 60);
  }

  /** Rendering is one-to-one on totals. */
  lemma RenderInjective(s: int, t: int)
    requires Render(s) == Render(t)
    ensures s == t
  {
    RenderRoundTrip(s);
    RenderRoundTrip(t);
  }

  /** `adjust_pace`: parse, add a signed number of seconds, render. No
      clamping: a negative total gives a negative minutes field. It fails
      exactly where parsing fails. */
  function AdjustPace(p: string, adjustment: int): (r: Option<string>)
    ensures r.Some? <==> Parse(p).Some?
  {
    match Parse(p)
    case None => None
    case Some(total) => Some(Render(total + adjustment))
  }

  /** On a parseable pace the adjusted text is the rendering of the
      shifted total. */
  lemma AdjustPaceRenders(p: string, adjustment: int)
    requires Parse(p).Some?
    ensures AdjustPace(p, adjustment) == Some(Render(Parse(p).value + adjustment))
  {
  }

  /** The adjusted text parses to exactly the parsed input plus the
      adjustment, negative totals included. */
  lemma AdjustPaceRoundTrip(p: string, adjustment: int)
    requires Parse(p).Some?
    ensures Parse(AdjustPace(p, adjustment).value) == Some(Parse(p).value + adjustment)
  {
    AdjustPaceRenders(p, adjustment);
    RenderRoundTrip(Parse(p).value + adjustment);
  }

  /** The adjusted text has a two-digit, zero-padded seconds field below 60. */
  lemma AdjustPaceCanonical(p: string, adjustment: int)
    requires Parse(p).Some?
    ensures Canonical(AdjustPace(p, adjustment).value)
  {
    var u := Parse(p).value + adjustment;
    var r := Render(u);
    assert AdjustPace(p, adjustment) == Some(r);
    assert Canonical(r) by { RenderCanonical(u); }
  }

  /** Offsets compose: adjusting by a and then by b is adjusting by a + b,
      down to the exact text produced. */
  lemma AdjustCompose(p: string, a: int, b: int)
    requires Parse(p).Some?
    ensures AdjustPace(AdjustPace(p, a).value, b) == AdjustPace(p, a + b)
  {
    var t := Parse(p).value;
    var q := AdjustPace(p, a).value;
    AdjustPaceRoundTrip(p, a);
    assert t + a + b == t + (a + b);
  }

  /** Adjusting a rendered pace is rendering the shifted total. This is why
      the model can carry pace zones as seconds where the source carries
      their text and re-parses it. */
  lemma AdjustRendered(t: int, k: int)
    ensures AdjustPace(Render(t), k) == Some(Render(t + k))
  {
    RenderRoundTrip(t);
  }

  /** The four named pace zones, in seconds per kilometre. */
  datatype Zones = Zones(veryFast: int, fast: int, threshold: int, easy: int)

  /** The keys of the source's zone dictionary. */
  datatype ZoneName = VeryFastZone | FastZone | ThresholdZone | EasyZone

  /** `paces[name]`. */
  function Pick(z: Zones, name: ZoneName): int {
    match name
    case VeryFastZone => z.veryFast
    case FastZone => z.fast
    case ThresholdZone => z.threshold
    case EasyZone => z.easy
  }

  /** Every zone moved by the same number of seconds. */
  function Shift(z: Zones, d: int): Zones
  {
    Zones(z.veryFast + d, z.fast + d, z.threshold + d, z.easy + d)
  }

  /** Concrete renderings: a negative total keeps its seconds in 0..59. */
  lemma RenderExamples()
    ensures Render(-5) == "-1:55"
    ensures Render(300) == "5:00"
    ensures Render(1500) == "25:00"
  {
    assert IntToString(-1) == "-1";
    assert ZeroPad2(55) == "55";
    assert IntToString(5) == "5";
    assert ZeroPad2(0) == "00";
    assert NatToString(25) == "25";
  }
}
