/** The synthetic telemetry generator (`generateTimeSeriesData`, the copy
    in the Dashboard page; every other page carries an identical copy) and
    the Dashboard's side activity feed. */
module Dashboard {
  import opened Wrappers
  import opened Trig
  import opened Text
  import Seqs
  import ActivityFeed

  /** One chart sample: an hour label and a non-negative value. */
  datatype Sample = Sample(time: string, value: real)

  /** The generator's arguments. */
  datatype SeriesParams = SeriesParams(points: nat, base: real, variance: real, trend: real)

  /** The parameter defaults: 24 points, base 50, variance 20, no trend. */
  const Defaults: SeriesParams := SeriesParams(24, 50.0, 20.0, 0.0)

  /** `Math.random()` results in call order: draw `i` is the one consumed
      by sample `i`. */
  type Draws = nat -> Unit

  /** `${i.toString().padStart(2, '0')}:00` */
  function Label(i: nat): string {
    PadStart2(Decimal(i)) + ":00"
  }

  /** Reads the hour back out of a label; None for a string that is not
      digits followed by ":00". */
  function HourOf(time: string): Option<nat> {
    if |time| >= 4 && time[|time| - 3..] == ":00" && AllDigits(time[..|time| - 3])
    then Some(ParseDecimal(time[..|time| - 3]))
    else None
  }

  /** Every label reads back as the index that produced it. */
  lemma HourOfLabel(i: nat)
    ensures HourOf(Label(i)) == Some(i)
  {
    var d := Decimal(i);
    var l := Label(i);
    ParseDecimalOfDecimal(i);
    if |d| >= 2 {
      assert l[..|l| - 3] == d;
    } else {
      assert l[..|l| - 3] == "0" + d;
      ParseDecimalLeadingZero(d);
    }
  }

  /** Labels are pairwise distinct. */
  lemma LabelInjective(i: nat, j: nat)
    requires Label(i) == Label(j)
    ensures i == j
  {
    HourOfLabel(i);
    HourOfLabel(j);
  }

  /** Labels are five characters below 100 and are never wrapped at 24;
      from 100 on they are longer. */
  lemma LabelShape(i: nat)
    ensures i < 100 ==> |Label(i)| == 5
    ensures i >= 100 ==> |Label(i)| >= 6
    ensures Label(i)[|Label(i)| - 3..] == ":00"
  {
  }

  lemma LabelExamples()
    ensures Label(0) == "00:00"
    ensures Label(9) == "09:00"
    ensures Label(23) == "23:00"
    ensures Label(24) == "24:00"
    ensures Label(100) == "100:00"
  {
    assert Decimal(23) == Decimal(2) + ['3'];
    assert Decimal(24) == Decimal(2) + ['4'];
    assert Decimal(100) == Decimal(10) + ['0'];
    assert Decimal(10) == Decimal(1) + ['0'];
  }

  /** The expression inside `Math.max(0, ...)` for sample `i`. */
  function RawValue(p: SeriesParams, sin: Sine, rnd: Unit, i: nat): real {
    Mix(p.base, p.variance, sin((i as real) / 3.0), rnd, Drift(p, i))
  }

  /** The linear trend term `trend * i`. */
  function Drift(p: SeriesParams, i: nat): real {
    p.trend * (i as real)
  }

  /** `base + s * variance + u * variance / 2 + drift`, for a sine value
      `s`, a draw `u` and the drift `trend * i`. */
  function Mix(base: real, variance: real, s: real, u: real, drift: real): real {
    base + s * variance + u * variance / 2.0 + drift
  }

  /** `Math.max(0, raw)`: never negative, and exactly the raw value when
      that is not negative. */
  function Clamp(raw: real): (v: real)
    ensures v >= 0.0
    ensures raw >= 0.0 ==> v == raw
    ensures raw < 0.0 ==> v == 0.0
  {
    Max(0.0, raw)
  }

  /** Sample `i` of a series: its hour label and its clamped value. */
  function SampleAt(p: SeriesParams, sin: Sine, rnd: Draws, i: nat): (r: Sample)
    ensures r.time == Label(i)
    ensures r.value >= 0.0
    ensures RawValue(p, sin, rnd(i), i) >= 0.0 ==> r.value == RawValue(p, sin, rnd(i), i)
    ensures RawValue(p, sin, rnd(i), i) < 0.0 ==> r.value == 0.0
  {
    Sample(Label(i), Clamp(RawValue(p, sin, rnd(i), i)))
  }

  /** `generateTimeSeriesData(points, base, variance, trend)`: exactly
      `points` samples, sample `i` at index `i`. */
  function Generate(p: SeriesParams, sin: Sine, rnd: Draws): (r: seq<Sample>)
    ensures |r| == p.points
    ensures forall i :: 0 <= i < |r| ==> r[i] == SampleAt(p, sin, rnd, i)
    ensures forall i :: 0 <= i < |r| ==> r[i].time == Label(i) && r[i].value >= 0.0
  {
    seq(p.points, i requires 0 <= i < p.points => SampleAt(p, sin, rnd, i))
  }

  /** `Math.random() * variance / 2` lies in [0, variance/2]. */
  lemma NoiseBound(u: real, variance: real)
    requires 0.0 <= u < 1.0
    requires variance >= 0.0
    ensures 0.0 <= u * variance / 2.0 <= variance / 2.0
  {
    MulNonNegative(u, variance);
    MulNonNegative(1.0 - u, variance);
  }

  lemma ClampBetween(base: real, variance: real, wave: real, noise: real, drift: real)
    requires -variance <= wave <= variance
    requires 0.0 <= noise <= variance / 2.0
    ensures Max(0.0, base - variance + drift) <= Max(0.0, base + wave + noise + drift)
    ensures Max(0.0, base + wave + noise + drift) <= Max(0.0, base + 1.5 * variance + drift)
  {
  }

  /** For a sine value `s` in [-1, 1] and a draw `u` in [0, 1), the
      clamped sample expression lies between the clamped envelopes. */
  lemma ClampedEnvelope(base: real, variance: real, s: real, u: real, drift: real)
    requires variance >= 0.0
    requires -1.0 <= s <= 1.0
    requires 0.0 <= u < 1.0
    ensures Max(0.0, base - variance + drift)
            <= Max(0.0, Mix(base, variance, s, u, drift))
            <= Max(0.0, base + 1.5 * variance + drift)
  {
    ScaledSine(s, variance);
    NoiseBound(u, variance);
    ClampBetween(base, variance, s * variance, u * variance / 2.0, drift);
  }

  /** With a non-negative variance every value lies between the clamped
      low and high envelopes `base - variance + trend*i` and
      `base + 1.5*variance + trend*i`. */
  lemma ValueEnvelope(p: SeriesParams, sin: Sine, rnd: Draws, i: nat)
    requires p.variance >= 0.0
    requires i < p.points
    ensures Max(0.0, p.base - p.variance + Drift(p, i))
            <= Generate(p, sin, rnd)[i].value
            <= Max(0.0, p.base + 1.5 * p.variance + Drift(p, i))
  {
    var raw := RawValue(p, sin, rnd(i), i);
    assert Generate(p, sin, rnd)[i] == SampleAt(p, sin, rnd, i);
    assert SampleAt(p, sin, rnd, i).value == Max(0.0, raw);
    ClampedEnvelope(p.base, p.variance, sin((i as real) / 3.0), rnd(i), Drift(p, i));
  }

  /** The default call yields the 24 hourly labels "00:00" to "23:00". */
  lemma DefaultSeriesShape(sin: Sine, rnd: Draws)
    ensures |Generate(Defaults, sin, rnd)| == 24
    ensures Generate(Defaults, sin, rnd)[0].time == "00:00"
    ensures Generate(Defaults, sin, rnd)[23].time == "23:00"
  {
    LabelExamples();
  }

  /** The Dashboard's activity list. */
  const Activities: seq<ActivityFeed.Activity> := [
    ActivityFeed.Activity("1", ActivityFeed.Alert,
      "Critical temperature threshold exceeded in Engine Assembly",
      "10 minutes ago", Some(ActivityFeed.Critical), None),
    ActivityFeed.Activity("2", ActivityFeed.Notification,
      "Software update available for robotics controller",
      "25 minutes ago", Some(ActivityFeed.Low), None),
    ActivityFeed.Activity("3", ActivityFeed.Update,
      "Inventory restocked: Carbon fiber components",
      "1 hour ago", Some(ActivityFeed.Low), None),
    ActivityFeed.Activity("4", ActivityFeed.Optimization,
      "AI suggested optimizations for motor efficiency available",
      "2 hours ago", Some(ActivityFeed.Medium), None),
    ActivityFeed.Activity("5", ActivityFeed.Alert,
      "Network latency detected in zone B communications",
      "3 hours ago", Some(ActivityFeed.High), Some(true))
  ]

  /** `activities.slice(0, 3)`, the list handed to the side feed. */
  function SideFeed(): seq<ActivityFeed.Activity> {
    Seqs.Take(Activities, 3)
  }

  /** The side feed shows exactly the first three activities in their
      original order, so ids "1", "2", "3". */
  lemma SideFeedIsFirstThree()
    ensures |SideFeed()| == 3
    ensures forall i :: 0 <= i < 3 ==> SideFeed()[i] == Activities[i]
    ensures |ActivityFeed.RenderFeed(SideFeed())| == 3
    ensures ActivityFeed.RenderFeed(SideFeed())[0].key == "1"
    ensures ActivityFeed.RenderFeed(SideFeed())[2].key == "3"
  {
  }
}
