/** The System Configurations page: the deploy countdown, the impact
    analysis derived from the four sliders, and the hub-and-spoke network of
    the factory scene with its per-frame animation. */
module SystemConfigurations {
  import opened Wrappers
  import opened Trig
  import Text

  // ---------------------------------------------------------------------
  // Deploy countdown
  // ---------------------------------------------------------------------

  /** What the page holds for the deploy button: the `countdown` state,
      the number of live `setInterval` timers started by `startDeploy`, and
      how many success toasts have been raised so far. */
  datatype Deploy = Deploy(countdown: Option<int>, intervals: nat, toasts: nat)

  /** The page's first render: `useState<number | null>(null)`. */
  const InitialDeploy := Deploy(None, 0, 0)

  /** The seconds `startDeploy` counts down from. */
  const DeploySeconds := 5

  /** The result of the functional update passed to `setCountdown` on each
      interval firing: the next countdown, and whether this firing clears
      its interval and raises the toast. */
  datatype TickOutcome = TickOutcome(next: Option<int>, finish: bool)

  /** The updater: null stays null, a value of at most 1 ends the countdown
      (clearing the interval and raising the toast), anything else is
      decremented. */
  function TickUpdate(current: Option<int>): (o: TickOutcome)
    ensures current.None? ==> o == TickOutcome(None, false)
    ensures o.finish <==> current.Some? && current.value <= 1
    ensures o.next.Some? <==> current.Some? && current.value > 1
    ensures o.next.Some? ==> o.next.value + 1 == current.value
  {
    match current
    case None => TickOutcome(None, false)
    case Some(c) => if c <= 1 then TickOutcome(None, true) else TickOutcome(Some(c - 1), false)
  }

  /** The button's `disabled={countdown !== null}`. */
  predicate ButtonDisabled(s: Deploy) {
    s.countdown.Some?
  }

  /** The button caption: "Deploying in {countdown}s" while counting down,
      "Deploy Changes" otherwise. The number between the prefix and the
      trailing "s" reads back as the countdown. */
  function ButtonCaption(s: Deploy): (c: string)
    ensures c == "Deploy Changes" <==> !ButtonDisabled(s)
    ensures ButtonDisabled(s) ==> |c| > 14 && c[..13] == "Deploying in " && c[|c| - 1] == 's'
    ensures ButtonDisabled(s) && s.countdown.value >= 0 ==>
      Text.AllDigits(c[13..|c| - 1]) && Text.ParseDecimal(c[13..|c| - 1]) == s.countdown.value
  {
    match s.countdown
    case Some(n) =>
      var c := "Deploying in " + Text.IntText(n) + "s";
      if n >= 0 then
        assert c[13..|c| - 1] == Text.Decimal(n);
        Text.ParseDecimalOfDecimal(n);
        c
      else c
    case None => "Deploy Changes"
  }

  /** The events that change the deploy state: a click on the button, and
      one firing of a live interval. */
  datatype DeployEvent = Click | Tick

  /** A click reaches `startDeploy` only while the button is enabled; it
      sets the countdown to 5 and starts one more interval. A firing needs a
      live interval; a firing that finishes clears that interval and raises
      one toast. */
  function DeployStep(s: Deploy, e: DeployEvent): (s': Deploy)
    ensures e == Click && ButtonDisabled(s) ==> s' == s
    ensures e == Click && !ButtonDisabled(s) ==> s'.countdown == Some(DeploySeconds)
    ensures e == Tick && s.intervals > 0 && s'.countdown.Some? ==>
      s.countdown.Some? && s'.countdown.value + 1 == s.countdown.value
    ensures s.toasts <= s'.toasts <= s.toasts + 1
    ensures s'.toasts == s.toasts + 1 <==>
      e == Tick && s.intervals > 0 && s.countdown.Some? && s.countdown.value <= 1
    ensures s'.toasts == s.toasts + 1 ==> s'.countdown.None? && s'.intervals + 1 == s.intervals
    ensures s.intervals <= s'.intervals + 1 && s'.intervals <= s.intervals + 1
    ensures s'.intervals > s.intervals ==> e == Click && !ButtonDisabled(s)
  {
    match e
    case Click =>
      if ButtonDisabled(s) then s
      else s.(countdown := Some(DeploySeconds), intervals := s.intervals + 1)
    case Tick =>
      if s.intervals == 0 then s
      else
        var o := TickUpdate(s.countdown);
        Deploy(o.next, if o.finish then s.intervals - 1 else s.intervals,
               if o.finish then s.toasts + 1 else s.toasts)
  }

  /** The state a run of events leads to. */
  function Run(s: Deploy, events: seq<DeployEvent>): Deploy
    decreases |events|
  {
    if events == [] then s else Run(DeployStep(s, events[0]), events[1..])
  }

  /** Between events: a countdown is running exactly while one interval is
      live, and a running countdown is between 1 and 5. */
  ghost predicate DeployInvariant(s: Deploy) {
    && (s.countdown.Some? ==> s.intervals == 1 && 1 <= s.countdown.value <= DeploySeconds)
    && (s.countdown.None? ==> s.intervals == 0)
  }

  /** Every event keeps the invariant: in particular a second click cannot
      start a second interval, and the countdown never shows a value below
      1. */
  lemma DeployStepKeepsInvariant(s: Deploy, e: DeployEvent)
    requires DeployInvariant(s)
    ensures DeployInvariant(DeployStep(s, e))
    ensures DeployStep(s, e).intervals <= 1
  {
  }

  lemma {:induction false} RunKeepsInvariant(s: Deploy, events: seq<DeployEvent>)
    requires DeployInvariant(s)
    ensures DeployInvariant(Run(s, events))
    decreases |events|
  {
    if events != [] {
      DeployStepKeepsInvariant(s, events[0]);
      RunKeepsInvariant(DeployStep(s, events[0]), events[1..]);
    }
  }

  /** Whatever the user does from the first render, at most one interval
      is ever live and the button caption never shows a value outside 1..5. */
  lemma ReachableDeployStates(events: seq<DeployEvent>)
    ensures var s := Run(InitialDeploy, events);
      s.intervals <= 1 && (s.countdown.Some? ==> 1 <= s.countdown.value <= DeploySeconds)
  {
    RunKeepsInvariant(InitialDeploy, events);
  }

  /** Ticks only. */
  function Ticks(n: nat): (r: seq<DeployEvent>)
    ensures |r| == n && forall i :: 0 <= i < n ==> r[i] == Tick
  {
    seq(n, _ => Tick)
  }

  /** With a countdown at `c` and its one interval live, `k < c` firings
      leave `c - k` showing and raise no toast. */
  lemma {:induction false} TicksCountDown(c: int, toasts: nat, k: nat)
    requires k < c
    ensures Run(Deploy(Some(c), 1, toasts), Ticks(k)) == Deploy(Some(c - k), 1, toasts)
    decreases k
  {
    if k > 0 {
      assert Ticks(k)[1..] == Ticks(k - 1);
      TicksCountDown(c - 1, toasts, k - 1);
    }
  }

  /** From a click on an idle page the button shows 5, 4, 3, 2, 1 on the
      next five renders; the fifth firing ends the countdown, clears the
      interval and raises exactly one toast, and the button is enabled
      again. */
  lemma DeployCountsDownFromFive(toasts: nat)
    ensures var s := DeployStep(Deploy(None, 0, toasts), Click);
      && s == Deploy(Some(5), 1, toasts)
      && (forall k :: 0 <= k < 5 ==> Run(s, Ticks(k)).countdown == Some(5 - k))
      && Run(s, Ticks(5)) == Deploy(None, 0, toasts + 1)
      && !ButtonDisabled(Run(s, Ticks(5)))
  {
    var s := DeployStep(Deploy(None, 0, toasts), Click);
    forall k | 0 <= k < 5
      ensures Run(s, Ticks(k)).countdown == Some(5 - k)
    {
      TicksCountDown(5, toasts, k);
    }
    TicksCountDown(5, toasts, 4);
    assert Ticks(5) == Ticks(4) + [Tick];
    RunAppend(s, Ticks(4), [Tick]);
  }

  /** On that run the button reads "Deploying in 5s" down to "Deploying in
      1s", each number reading back as the countdown, then "Deploy Changes". */
  lemma CountdownCaptions(toasts: nat)
    ensures var s := DeployStep(Deploy(None, 0, toasts), Click);
      && (forall k :: 0 <= k < 5 ==>
            ButtonCaption(Run(s, Ticks(k))) == "Deploying in " + Text.Decimal(5 - k) + "s")
      && (forall k :: 0 <= k < 5 ==>
            var c := ButtonCaption(Run(s, Ticks(k)));
            Text.ParseDecimal(c[13..|c| - 1]) == 5 - k)
      && ButtonCaption(Run(s, Ticks(5))) == "Deploy Changes"
  {
    DeployCountsDownFromFive(toasts);
  }

  lemma {:induction false} RunAppend(s: Deploy, a: seq<DeployEvent>, b: seq<DeployEvent>)
    ensures Run(s, a + b) == Run(Run(s, a), b)
    decreases |a|
  {
    if a == [] {
      assert a + b == b;
    } else {
      assert (a + b)[0] == a[0];
      assert (a + b)[1..] == a[1..] + b;
      RunAppend(DeployStep(s, a[0]), a[1..], b);
    }
  }

  // ---------------------------------------------------------------------
  // Impact analysis
  // ---------------------------------------------------------------------

  /** The slider values the page starts with. */
  const InitialPower := 70
  const InitialBandwidth := 60
  const InitialRedundancy := 50
  const InitialSecurity := 80

  /** "+N% Increase": the power above 70, or 0. */
  function PowerImpact(power: int): (n: int)
    ensures n >= 0
    ensures n == 0 <==> power <= InitialPower
    ensures n > 0 ==> n + InitialPower == power
  {
    if power - 70 > 0 then power - 70 else 0
  }

  /** "+X% Improved": 0.4 per point of redundancy above 50, or 0. */
  function StabilityImpact(redundancy: int): (x: real)
    ensures x >= 0.0
    ensures x == 0.0 <==> redundancy <= InitialRedundancy
    ensures x > 0.0 ==> x * 2.5 + InitialRedundancy as real == redundancy as real
  {
    if redundancy - 50 > 0 then (redundancy - 50) as real * 0.4 else 0.0
  }

  /** Which way a two-sided impact points. */
  datatype Response = Faster(faster: real) | Slower(slower: real)
  datatype Risk = Reduced(reduced: real) | Increased(increased: real)

  /** Response time: half a percent faster per point of bandwidth above 60,
      otherwise half a percent slower per point below (60 itself reads
      "0.0% Slower"). */
  function ResponseImpact(bandwidth: int): (r: Response)
    ensures r.Faster? <==> bandwidth > InitialBandwidth
    ensures r.Faster? ==> r.faster > 0.0 && r.faster * 2.0 == (bandwidth - InitialBandwidth) as real
    ensures r.Slower? ==> r.slower >= 0.0 && r.slower * 2.0 == (InitialBandwidth - bandwidth) as real
  {
    if bandwidth > 60 then Faster((bandwidth - 60) as real * 0.5)
    else Slower((60 - bandwidth) as real * 0.5)
  }

  /** Risk factor: reduced by 0.4 per point of security above 80, otherwise
      increased by 0.6 per point below. */
  function RiskImpact(security: int): (r: Risk)
    ensures r.Reduced? <==> security > InitialSecurity
    ensures r.Reduced? ==> r.reduced > 0.0 && r.reduced * 2.5 == (security - InitialSecurity) as real
    ensures r.Increased? ==> r.increased >= 0.0 && r.increased * 5.0 == (InitialSecurity - security) as real * 3.0
  {
    if security > 80 then Reduced((security - 80) as real * 0.4)
    else Increased((80 - security) as real * 0.6)
  }

  /** The size of a two-sided impact, whichever way it points. */
  function ResponseSize(r: Response): real {
    match r
    case Faster(x) => x
    case Slower(x) => x
  }

  function RiskSize(r: Risk): real {
    match r
    case Reduced(x) => x
    case Increased(x) => x
  }

  /** All four impacts are zero exactly at the initial slider values (for
      power and stability, at or below them), so the panel shows no change
      until a slider is moved. */
  lemma ImpactZeroAtBaseline(power: int, bandwidth: int, redundancy: int, security: int)
    ensures PowerImpact(power) == 0 <==> power <= InitialPower
    ensures StabilityImpact(redundancy) == 0.0 <==> redundancy <= InitialRedundancy
    ensures ResponseSize(ResponseImpact(bandwidth)) == 0.0 <==> bandwidth == InitialBandwidth
    ensures RiskSize(RiskImpact(security)) == 0.0 <==> security == InitialSecurity
  {
  }

  /** Each impact grows with its slider: more power never shows a smaller
      increase, and more bandwidth never reads slower. */
  lemma ImpactMonotone(a: int, b: int)
    requires a <= b
    ensures PowerImpact(a) <= PowerImpact(b)
    ensures StabilityImpact(a) <= StabilityImpact(b)
    ensures ResponseImpact(a).Faster? ==>
      (ResponseImpact(b).Faster? && ResponseImpact(a).faster <= ResponseImpact(b).faster)
    ensures RiskImpact(a).Reduced? ==>
      (RiskImpact(b).Reduced? && RiskImpact(a).reduced <= RiskImpact(b).reduced)
  {
  }

  // ---------------------------------------------------------------------
  // Network scene
  // ---------------------------------------------------------------------

  datatype Point = Point(x: real, y: real, z: real)

  /** The hub at the origin followed by the four corners. */
  const NetworkNodes: seq<Point> := [
    Point(0.0, 0.0, 0.0),
    Point(2.5, 0.0, 2.5),
    Point(-2.5, 0.0, 2.5),
    Point(2.5, 0.0, -2.5),
    Point(-2.5, 0.0, -2.5)
  ]

  /** One line of the scene: its React key and its two end points. */
  datatype Connection = Connection(key: string, start: Point, end: Point)

  /** `createConnections`: for each node after the hub, one line from the
      hub to that node, keyed "connection-i". */
  method CreateConnections() returns (r: seq<Connection>)
    ensures |r| == |NetworkNodes| - 1 == 4
    ensures forall k :: 0 <= k < |r| ==> r[k].start == NetworkNodes[0] && r[k].end == NetworkNodes[k + 1]
    ensures forall k :: 0 <= k < |r| ==> r[k].key == "connection-" + Text.Decimal(k + 1)
    ensures forall k :: 0 <= k < |r| ==> r[k].end != r[k].start
    ensures forall j, k :: 0 <= j < k < |r| ==> r[j].end != r[k].end && r[j].key != r[k].key
  {
    r := [];
    var i := 1;
    while i < |NetworkNodes|
      invariant 1 <= i <= |NetworkNodes|
      invariant |r| == i - 1
      invariant forall k :: 0 <= k < |r| ==> r[k].start == NetworkNodes[0] && r[k].end == NetworkNodes[k + 1]
      invariant forall k :: 0 <= k < |r| ==> r[k].key == "connection-" + Text.Decimal(k + 1)
    {
      r := r + [Connection("connection-" + Text.Decimal(i), NetworkNodes[0], NetworkNodes[i])];
      i := i + 1;
    }
    forall j, k | 0 <= j < k < |r|
      ensures r[j].key != r[k].key
    {
      KeysDiffer(j + 1, k + 1);
    }
  }

  /** Keys built from different numbers are different. */
  lemma KeysDiffer(a: nat, b: nat)
    requires a != b
    ensures "connection-" + Text.Decimal(a) != "connection-" + Text.Decimal(b)
  {
    var p := "connection-";
    if p + Text.Decimal(a) == p + Text.Decimal(b) {
      assert Text.Decimal(a) == (p + Text.Decimal(a))[|p|..];
      assert Text.Decimal(b) == (p + Text.Decimal(b))[|p|..];
      Text.ParseDecimalOfDecimal(a);
      Text.ParseDecimalOfDecimal(b);
    }
  }

  /** Line `i`'s opacity at time `t`: `0.3 + |sin(3t + i/2)| * 0.7`. */
  function ConnectionOpacity(sin: Sine, t: real, i: nat): (o: real)
    ensures 0.3 <= o <= 1.0
  {
    var s := sin(t * 3.0 + i as real * 0.5);
    ScaledSine(Abs(s), 0.7);
    0.3 + Abs(s) * 0.7
  }

  /** A server indicator's glow at time `t`: `0.5 + sin(2t + i) * 0.5`. */
  function IndicatorIntensity(sin: Sine, t: real, i: nat): (v: real)
    ensures 0.0 <= v <= 1.0
  {
    0.5 + sin(t * 2.0 + i as real) * 0.5
  }

  /** The number of meshes ever registered in `serversRef`: nothing in the
      component pushes to it. */
  const RegisteredServers: nat := 0

  /** The glow values the frame callback writes, one per registered server. */
  function IndicatorFrame(sin: Sine, t: real, servers: nat): (r: seq<real>)
    ensures |r| == servers
    ensures forall i :: 0 <= i < servers ==> 0.0 <= r[i] <= 1.0
  {
    seq(servers, i requires 0 <= i < servers => IndicatorIntensity(sin, t, i))
  }

  /** Since `serversRef` stays empty, the indicator update does nothing. */
  lemma IndicatorLoopIsEmpty(sin: Sine, t: real)
    ensures IndicatorFrame(sin, t, RegisteredServers) == []
  {
  }
}
