/** The Digital Testing page: the test status machine driven by the start
    button and its three-second timeout, and everything the page derives
    from the status. */
module DigitalTesting {
  import StatusCard

  datatype Status = Idle | Running | Complete

  /** The status and the number of `setTimeout` callbacks still pending. */
  datatype Lab = Lab(status: Status, pending: nat)

  /** `useState("idle")`, nothing scheduled. */
  const InitialLab := Lab(Idle, 0)

  /** A click on the start button, or a pending timeout firing. */
  datatype LabEvent = Start | Timeout

  /** The button's `disabled={testStatus === "running"}`. */
  predicate StartDisabled(s: Status) {
    s == Running
  }

  /** `startTest` runs only while the button is enabled: it sets "running"
      and schedules one timeout. A firing timeout sets "complete". */
  function LabStep(lab: Lab, e: LabEvent): (r: Lab)
    ensures e == Start ==> r.status == Running
    ensures e == Start && StartDisabled(lab.status) ==> r == lab
    ensures r.status == Running && lab.status != Running ==> e == Start
    ensures r.status == Complete && lab.status != Complete ==> e == Timeout
    ensures e == Timeout && lab.pending > 0 ==> r.status == Complete
    ensures lab.pending <= r.pending + 1 && r.pending <= lab.pending + 1
    ensures r.pending > lab.pending ==> e == Start && lab.status != Running
    ensures r.pending < lab.pending ==> e == Timeout
  {
    match e
    case Start => if StartDisabled(lab.status) then lab else Lab(Running, lab.pending + 1)
    case Timeout => if lab.pending == 0 then lab else Lab(Complete, lab.pending - 1)
  }

  function RunLab(lab: Lab, events: seq<LabEvent>): Lab
    decreases |events|
  {
    if events == [] then lab else RunLab(LabStep(lab, events[0]), events[1..])
  }

  /** Between events exactly one timeout is pending while running and none
      otherwise. */
  ghost predicate LabInvariant(lab: Lab) {
    lab.pending == (if lab.status == Running then 1 else 0)
  }

  lemma LabStepKeepsInvariant(lab: Lab, e: LabEvent)
    requires LabInvariant(lab)
    ensures LabInvariant(LabStep(lab, e))
  {
  }

  /** From the first render, whatever is clicked and whenever timeouts
      fire, at most one timeout is ever pending, and the status is "running"
      exactly while one is. */
  lemma {:induction false} ReachableLabStates(lab: Lab, events: seq<LabEvent>)
    requires LabInvariant(lab)
    ensures LabInvariant(RunLab(lab, events))
    ensures RunLab(lab, events).pending <= 1
    decreases |events|
  {
    if events != [] {
      LabStepKeepsInvariant(lab, events[0]);
      ReachableLabStates(LabStep(lab, events[0]), events[1..]);
    }
  }

  /** A whole run: idle, start, the timeout fires, complete; a second start
      from "complete" runs the test again. */
  lemma TestCycle()
    ensures InitialLab.status == Idle
    ensures RunLab(InitialLab, [Start]).status == Running
    ensures RunLab(InitialLab, [Start, Timeout]).status == Complete
    ensures RunLab(InitialLab, [Start, Timeout, Start]).status == Running
    ensures RunLab(InitialLab, [Start, Start, Start]) == RunLab(InitialLab, [Start])
  {
    assert [Start, Timeout][1..] == [Timeout];
    assert [Start, Timeout, Start][1..] == [Timeout, Start];
    assert [Timeout, Start][1..] == [Start];
    assert [Start, Start, Start][1..] == [Start, Start];
    assert [Start, Start][1..] == [Start];
  }

  /** The "Test Status" card's value. */
  function StatusLabel(s: Status): string {
    if s == Idle then "Ready" else if s == Running then "Running" else "Complete"
  }

  /** The "AI Analysis" card's value. */
  function AnalysisLabel(s: Status): string {
    if s == Complete then "Passed" else "Pending"
  }

  /** Both cards share one variant. */
  function CardVariant(s: Status): StatusCard.Variant {
    if s == Complete then StatusCard.Success else StatusCard.Default
  }

  /** The cards: each status has its own status label, the analysis reads
      "Passed" exactly when complete, and the success style is used exactly
      when complete. */
  lemma CardsFollowStatus(s: Status, t: Status)
    ensures StatusLabel(s) == StatusLabel(t) <==> s == t
    ensures AnalysisLabel(s) == "Passed" <==> s == Complete
    ensures CardVariant(s) == StatusCard.Success <==> s == Complete
  {
  }

  /** A child of the start button. */
  datatype Piece = MicroscopeIcon | Pulse(text: string) | CheckIcon | Caption(text: string)

  /** A `{cond && x}` child: `x` when the condition holds, nothing
      otherwise. */
  function When(cond: bool, p: Piece): seq<Piece> {
    if cond then [p] else []
  }

  /** The caption each status should put on the button. */
  function ButtonCaption(s: Status): string {
    match s
    case Idle => "Start Digital Test"
    case Running => "Running Test"
    case Complete => "Test Complete"
  }

  /** The six conditional children of the start button, in order. */
  function ButtonPieces(s: Status): (r: seq<Piece>)
    ensures |r| == 2
    ensures !r[0].Caption? && r[1] == Caption(ButtonCaption(s))
    ensures r[0] == MicroscopeIcon <==> s == Idle
    ensures r[0] == Pulse("Testing...") <==> s == Running
    ensures r[0] == CheckIcon <==> s == Complete
  {
    When(s == Idle, MicroscopeIcon) + When(s == Running, Pulse("Testing...")) +
    When(s == Complete, CheckIcon) +
    When(s == Idle, Caption("Start Digital Test")) + When(s == Running, Caption("Running Test")) +
    When(s == Complete, Caption("Test Complete"))
  }

  /** Exactly one caption is on the button in every state, and different
      states show different captions. */
  lemma OneButtonCaption(s: Status, t: Status)
    ensures |set i | 0 <= i < |ButtonPieces(s)| && ButtonPieces(s)[i].Caption?| == 1
    ensures ButtonCaption(s) == ButtonCaption(t) <==> s == t
  {
    var r := ButtonPieces(s);
    assert (set i | 0 <= i < |r| && r[i].Caption?) == {1};
  }

  /** What the diagnostic panel shows. */
  datatype Panel = Report | Analyzing | Prompt

  function DiagnosticPanel(s: Status): (p: Panel)
    ensures p == Report <==> s == Complete
    ensures p == Analyzing <==> s == Running
  {
    if s == Complete then Report else if s == Running then Analyzing else Prompt
  }
}
