/** The `SystemHealthOrb` component: the colours and caption chosen by the
    health status, the size classes, and the pulse driven by a randomised
    interval and a half-second reset timeout. */
module SystemHealthOrb {
  import opened Wrappers
  import opened Trig
  import opened Text
  import Palette

  datatype HealthStatus = Optimal | Good | Warning | Critical

  datatype Size = Small | Medium | Large

  /** The `status = "good"` and `size = "md"` defaults. */
  function StatusOrDefault(s: Option<HealthStatus>): HealthStatus {
    s.GetOr(Good)
  }

  function SizeOrDefault(s: Option<Size>): Size {
    s.GetOr(Medium)
  }

  datatype OrbColors = OrbColors(inner: string, outer: string)

  /** `getStatusColor`. */
  function StatusColor(s: HealthStatus): OrbColors {
    match s
    case Optimal => OrbColors(Palette.Green, Palette.Green)
    case Good => OrbColors(Palette.Blue, Palette.Blue)
    case Warning => OrbColors(Palette.Amber, Palette.Amber)
    case Critical => OrbColors(Palette.Red, Palette.Red)
  }

  /** Every status gets one colour for both layers, and different statuses
      get different colours. */
  lemma StatusColorProperties(a: HealthStatus, b: HealthStatus)
    ensures StatusColor(a).inner == StatusColor(a).outer
    ensures StatusColor(a) == StatusColor(b) <==> a == b
  {
    Palette.StatusColorsDistinct();
  }

  /** `getStatusText`. */
  function StatusText(s: HealthStatus): string {
    match s
    case Optimal => "System Optimal"
    case Good => "System Good"
    case Warning => "System Warning"
    case Critical => "System Critical"
  }

  /** Every caption is "System " followed by the status name, and no two
      statuses share one. */
  lemma StatusTextProperties(a: HealthStatus, b: HealthStatus)
    ensures StatusText(a)[..7] == "System "
    ensures StatusText(a) == StatusText(b) <==> a == b
  {
  }

  /** `sizeClasses[size]`. */
  function SizeClass(s: Size): (c: string)
    ensures |c| == 9 && c[..2] == "w-" && c[4..7] == " h-"
    ensures AllDigits(c[2..4]) && c[2..4] == c[7..9]
  {
    match s
    case Small => "w-16 h-16"
    case Medium => "w-24 h-24"
    case Large => "w-32 h-32"
  }

  /** The position of a size in `sm`, `md`, `lg`. */
  function SizeRank(s: Size): nat {
    match s
    case Small => 0
    case Medium => 1
    case Large => 2
  }

  /** A larger size gives a strictly wider (and, being square, taller)
      orb, so the three sizes never share a class. */
  lemma SizeClassGrows(a: Size, b: Size)
    ensures SizeRank(a) < SizeRank(b) ==>
      ParseDecimal(SizeClass(a)[2..4]) < ParseDecimal(SizeClass(b)[2..4])
    ensures SizeClass(a) == SizeClass(b) <==> a == b
  {
    assert ParseDecimal(SizeClass(Small)[2..4]) == 16 by {
      assert SizeClass(Small)[2..4] == "16";
      assert "16"[..1] == "1";
    }
    assert ParseDecimal(SizeClass(Medium)[2..4]) == 24 by {
      assert SizeClass(Medium)[2..4] == "24";
      assert "24"[..1] == "2";
    }
    assert ParseDecimal(SizeClass(Large)[2..4]) == 32 by {
      assert SizeClass(Large)[2..4] == "32";
      assert "32"[..1] == "3";
    }
    assert SizeClass(Small)[2] != SizeClass(Medium)[2];
    assert SizeClass(Small)[2] != SizeClass(Large)[2];
    assert SizeClass(Medium)[2] != SizeClass(Large)[2];
  }

  /** With no props the orb is blue, reads "System Good" and is 24 units
      wide. */
  lemma Defaults()
    ensures StatusColor(StatusOrDefault(None)).inner == Palette.Blue
    ensures StatusText(StatusOrDefault(None)) == "System Good"
    ensures SizeClass(SizeOrDefault(None)) == "w-24 h-24"
  {
  }

  // ---------------------------------------------------------------------
  // Pulse
  // ---------------------------------------------------------------------

  /** The interval period in milliseconds, `2000 + Math.random() * 1000`,
      drawn once when the effect runs. */
  function PulsePeriod(draw: Unit): (ms: real)
    ensures 2000.0 <= ms < 3000.0
  {
    2000.0 + draw * 1000.0
  }

  /** The reset timeout, in milliseconds. */
  const ResetDelay: real := 500.0

  /** Whatever the draw, a pulse's reset is due before the next firing:
      500 ms is less than a quarter of the shortest period. */
  lemma ResetBeforeNextPulse(draw: Unit)
    ensures ResetDelay * 4.0 <= PulsePeriod(draw)
  {
  }

  /** The pulse state: whether the interval is live, the `pulse` flag, and
      the number of reset timeouts scheduled but not yet run. */
  datatype Orb = Orb(intervalLive: bool, pulse: bool, pendingResets: nat)

  /** The state after the mount effect: `useState(false)` and one live
      interval. */
  const Mounted := Orb(true, false, 0)

  datatype OrbEvent = IntervalFires | ResetFires | Unmount

  /** An interval firing raises the pulse and schedules one reset; a reset
      lowers it; unmounting clears only the interval, so resets already
      scheduled still run. */
  function OrbStep(o: Orb, e: OrbEvent): (r: Orb)
    ensures r.intervalLive ==> o.intervalLive
    ensures e == IntervalFires && o.intervalLive ==> r.pulse
    ensures r.pulse && !o.pulse ==> e == IntervalFires
    ensures e == ResetFires && o.pendingResets > 0 ==> !r.pulse
    ensures r.pendingResets > o.pendingResets ==> e == IntervalFires && o.intervalLive
    ensures o.pendingResets <= r.pendingResets + 1 && r.pendingResets <= o.pendingResets + 1
    ensures e == Unmount ==> !r.intervalLive && r.pulse == o.pulse && r.pendingResets == o.pendingResets
  {
    match e
    case IntervalFires => if o.intervalLive then Orb(true, true, o.pendingResets + 1) else o
    case ResetFires => if o.pendingResets > 0 then o.(pulse := false, pendingResets := o.pendingResets - 1) else o
    case Unmount => o.(intervalLive := false)
  }

  /** Unmounting a second time changes nothing. */
  lemma UnmountTwice(o: Orb)
    ensures OrbStep(OrbStep(o, Unmount), Unmount) == OrbStep(o, Unmount)
  {
  }

  function OrbRun(o: Orb, events: seq<OrbEvent>): Orb
    decreases |events|
  {
    if events == [] then o else OrbRun(OrbStep(o, events[0]), events[1..])
  }

  /** While the pulse is raised a reset is pending, so the orb never stays
      lit for good. */
  ghost predicate PulseWillReset(o: Orb) {
    o.pulse ==> o.pendingResets > 0
  }

  lemma {:induction false} OrbRunKeepsPulseWillReset(o: Orb, events: seq<OrbEvent>)
    requires PulseWillReset(o)
    ensures PulseWillReset(OrbRun(o, events))
    decreases |events|
  {
    if events != [] {
      OrbRunKeepsPulseWillReset(OrbStep(o, events[0]), events[1..]);
    }
  }

  /** After unmounting the interval never fires again and no new reset is
      scheduled: the pending resets can only run down. */
  lemma {:induction false} AfterUnmount(o: Orb, events: seq<OrbEvent>)
    requires !o.intervalLive
    ensures !OrbRun(o, events).intervalLive
    ensures OrbRun(o, events).pendingResets <= o.pendingResets
    decreases |events|
  {
    if events != [] {
      AfterUnmount(OrbStep(o, events[0]), events[1..]);
    }
  }

  /** The outer glow's classes when not pulsing, one token per class. */
  const GlowBase: seq<string> := ["absolute", "inset-0", "rounded-full", "opacity-20", "animate-pulse-glow"]

  /** The outer glow's class list, as handed to `cn`: the base classes
      always lead, and the glow is brightened and scaled up exactly while
      pulsing. */
  function GlowClasses(pulse: bool): (c: seq<string>)
    ensures |GlowBase| <= |c| && c[..|GlowBase|] == GlowBase
    ensures "scale-110" in c <==> pulse
    ensures "opacity-30" in c <==> pulse
  {
    assert "opacity-30"[8] != "opacity-20"[8];
    GlowBase + (if pulse then ["opacity-30", "scale-110"] else [])
  }

  /** One cycle from mount: firing lights the orb, the reset darkens it,
      and the state is back to the mounted one. */
  lemma PulseCycle()
    ensures OrbRun(Mounted, [IntervalFires]).pulse
    ensures OrbRun(Mounted, [IntervalFires, ResetFires]) == Mounted
  {
    assert [IntervalFires, ResetFires][1..] == [ResetFires];
  }
}
