# Novyra-G operations console, modelled in Dafny

Novyra-G is a React single-page "digital factory" console. Each page shows
synthetic telemetry, filterable record lists, a few small interactive state
machines, and a Three.js scene animated per frame. There is no large
algorithm. The logic worth stating exactly is spread over small, pure pieces.
This project models those pieces as immutable datatypes and pure functions,
and proves what the pages promise about them.

The modelled pieces are:

- **Time-series generator** (`Dashboard`, `dashboard.dfy`). Each sample has a
  zero-padded `"HH:00"` label and the value
  `max(0, base + sin(i/3)*variance + rnd*variance/2 + trend*i)`. Also the
  Dashboard's three-entry side feed.
- **Record filters and classifiers.**
  - Alert and log filtering (`AlertsLogs`).
  - Inventory search, category filter and category buttons, the three-way
    stock badge, and the summary counts (`Inventory`).
  - Severity, icon and opacity classes (`ActivityFeed`).
  - Variant and trend classes and conditional rendering (`StatusCard`).
  - Orb colours, text and sizes (`SystemHealthOrb`).
  - Confidence, impact and category buckets (`AIInsights`).
- **Small state machines.**
  - The deploy countdown (`SystemConfigurations`).
  - The digital-test status (`DigitalTesting`).
  - The orb's pulse and reset timers (`SystemHealthOrb`).
  - The simulation and vehicle switches (`DronesAircraft`).
  - The sidebar collapse and active-link rule (`Sidebar`).
  - The insight selection toggle (`AIInsights`).
- **Procedural graph topology.**
  - The random-or-backbone edge rule of the alerts network (`AlertsLogs`).
  - The adjacent-layer connections of the neural-net scene (`AIInsights`).
  - The hub-and-spoke lines of the configuration scene
    (`SystemConfigurations`).
- **Bounds of the per-frame animation formulas.** Joint angles, pulsing
  opacities and intensities, hovering and banking. These live in
  `RoboticArm`, `DronesAircraft`, `AIInsights`, `AlertsLogs`, `Inventory`
  and `SystemConfigurations`.

Shared pieces are the following.

- `Trig` is the numeric layer:
  - `Sine`: any total real function bounded by [-1, 1], standing for
    `Math.sin`;
  - `Unit`: a `Math.random()` draw in [0, 1);
  - `Lerp`: three.js's `(1 - w)a + w*b`;
  - `Pi`: the double value of `Math.PI`.
- `Text` holds ASCII `toLowerCase`, `includes`, integer `toString` and
  `padStart(2, '0')`.
- `Seqs` holds filtering, prefixes, de-duplication and first occurrence.
- `Palette` holds the shared hex colours.
- `Wrappers` holds `Option`, used for optional props and nullable state.

Elapsed time `t` and every random draw are parameters. A timer firing or a
click is a discrete event applied by a step function. Nothing in the model
performs I/O.

Hour labels are not wrapped at 24. The label only pads the index to two
digits, so index 24 gives `"24:00"` and index 100 gives `"100:00"`
(`Dashboard.LabelShape`, `Dashboard.LabelExamples`).

## Model

| member | source | states |
|---|---|---|
| Dashboard.Generate | src/pages/Dashboard.tsx:19-24 | exactly `points` samples; sample `i` sits at index `i`, carries label `Label(i)` and has a non-negative value |
| Dashboard.SampleAt | src/pages/Dashboard.tsx:21-22 | a sample's value equals the raw expression when that is non-negative, and is 0 otherwise |
| Dashboard.Clamp | src/pages/Dashboard.tsx:22 | `Math.max(0, raw)` is never negative, equals `raw` when `raw >= 0`, and is 0 when `raw < 0` |
| Dashboard.NoiseBound | src/pages/Dashboard.tsx:22 | `Math.random() * variance / 2` lies in [0, variance/2] for a non-negative variance |
| Dashboard.ClampedEnvelope | src/pages/Dashboard.tsx:22 | for a sine value in [-1,1] and a draw in [0,1), the clamped sample lies between the clamped low and high envelopes |
| Dashboard.ValueEnvelope | src/pages/Dashboard.tsx:22 | with `variance >= 0`, every generated value lies in [max(0, base-variance+trend*i), max(0, base+1.5*variance+trend*i)] |
| Dashboard.HourOfLabel | src/pages/Dashboard.tsx:21 | every label reads back (digits before ":00") as the index that produced it |
| Dashboard.LabelInjective | src/pages/Dashboard.tsx:20-21 | labels of different indices are different |
| Dashboard.LabelShape | src/pages/Dashboard.tsx:21 | labels are 5 characters below 100 and at least 6 from 100 on; all end in ":00"; there is no wrap at 24 |
| Dashboard.LabelExamples | src/pages/Dashboard.tsx:21 | worked examples on the page's data: indices 0, 9, 23, 24 and 100 give "00:00", "09:00", "23:00", "24:00" and "100:00" |
| Dashboard.DefaultSeriesShape | src/pages/Dashboard.tsx:19 | the default call has 24 samples labelled from "00:00" to "23:00" |
| Dashboard.SideFeedIsFirstThree | src/pages/Dashboard.tsx:123 | the side feed gets exactly the first three activities in their original order and renders entries "1".."3" |
| ActivityFeed.SeverityClass | src/components/ActivityFeed.tsx:36-49 | the border is gray exactly when the severity is missing |
| ActivityFeed.SeverityClassInjective | src/components/ActivityFeed.tsx:36-49 | different severities (a missing one included) never share a border class |
| ActivityFeed.ActivityIcon | src/components/ActivityFeed.tsx:21-33 | an alert shows AlertCircle iff critical, in red; an amber triangle when high; a yellow triangle otherwise; a notification shows a blue Bell, an update a blue Info and an optimization a green CheckCircle |
| ActivityFeed.IconIgnoresSeverity | src/components/ActivityFeed.tsx:27-32 | for a non-alert type the icon does not depend on the severity |
| ActivityFeed.ReadOpacity | src/components/ActivityFeed.tsx:69 | "opacity-60" iff `read` is true; a false or missing flag gives "opacity-100" |
| ActivityFeed.RenderFeed | src/components/ActivityFeed.tsx:63-80 | one entry per activity in input order; entry i is keyed by activity i's id and shows its severity border, read opacity, type icon, message and timestamp |
| ActivityFeed.RenderFeedAppend | src/components/ActivityFeed.tsx:63 | the feed of two lists put together is the two feeds put together, so the dashboard's three-item slice renders as the first three entries |
| StatusCard.VariantOrDefault | src/components/StatusCard.tsx:23 | a given variant is used as is; a missing one becomes "default" |
| StatusCard.VariantClassInjective | src/components/StatusCard.tsx:26-31 | the four variants have four different class strings |
| StatusCard.Glyphs | src/components/StatusCard.tsx:56-58 | exactly one glyph is shown: ↑ for up, ↓ for down, → for stable |
| StatusCard.GlyphsInjective | src/components/StatusCard.tsx:56-58 | different trends show different glyphs |
| StatusCard.TrendBadge | src/components/StatusCard.tsx:51-61 | the badge appears iff the trend and a non-empty trend value are given; it has the trend's colour and reads glyph, space, trend value |
| StatusCard.Render | src/components/StatusCard.tsx:39-67 | the badge follows the trend rule; the description line appears iff a non-empty description is given; the variant class is that of the given variant or of the default one; the badge is the trend badge of the trend and its value; title and value are shown unchanged |
| StatusCard.RenderVariant | src/components/StatusCard.tsx:23-42 | two otherwise equal cards look the same iff their variants (after defaulting) are equal |
| AlertsLogs.FilterAlerts | src/pages/AlertsLogs.tsx:250-255 | an alert is kept iff its type is selected ("all" or equal) and the lowered query occurs in its lowered message or system; the result is an order-preserving subsequence that holds every copy of a kept alert and none of a dropped one |
| AlertsLogs.FilterLogs | src/pages/AlertsLogs.tsx:258-263 | a log line is kept iff its level is selected and the lowered query occurs in its lowered message or system; the result is an order-preserving subsequence that holds every copy of a kept line and none of a dropped one |
| AlertsLogs.EmptyQueryMatches | src/pages/AlertsLogs.tsx:252-253 | the empty query matches every message and system |
| AlertsLogs.UnfilteredIsIdentity | src/pages/AlertsLogs.tsx:250-263 | with "all" selected and an empty query both lists come back unchanged |
| AlertsLogs.NarrowingSelectsSubseq | src/pages/AlertsLogs.tsx:250-263 | choosing one type or level instead of "all" yields a subsequence of the "all" result for the same query |
| AlertsLogs.NodeColor | src/pages/AlertsLogs.tsx:156 | the node colour is red iff `i%3==0`, blue iff `i%3==1`, amber iff `i%3==2` |
| AlertsLogs.NodeColorPeriodic | src/pages/AlertsLogs.tsx:156 | node colours repeat with period 3 |
| AlertsLogs.CreateNodes | src/pages/AlertsLogs.tsx:143-178 | twelve nodes in index order with their cyclic colours, radius in [3,4), height in [-1,1) and size in [0.2,0.4) |
| AlertsLogs.Row | src/pages/AlertsLogs.tsx:186-188 | the inner loop yields exactly the chosen pairs (i, j') with j <= j' < n, in increasing order |
| AlertsLogs.RowsFrom | src/pages/AlertsLogs.tsx:185-188 | the loops from row i on yield exactly the chosen pairs i <= a < b < n, in strictly increasing lexicographic order |
| AlertsLogs.CreateLines | src/pages/AlertsLogs.tsx:181-218 | a line joins a and b iff a < b < n and the draw exceeds 0.7 or both are multiples of 4; there are no self-loops and no duplicates |
| AlertsLogs.SceneLines | src/pages/AlertsLogs.tsx:226 | no lines while there are no nodes; otherwise exactly the lines of the edge rule |
| AlertsLogs.BackbonePairDrawn | src/pages/AlertsLogs.tsx:188 | a pair i < j < n of multiples of 4 is drawn whatever the random draws are |
| AlertsLogs.BackboneAlwaysDrawn | src/pages/AlertsLogs.tsx:145-188 | with twelve nodes, (0,4), (0,8) and (4,8) are always drawn |
| AlertsLogs.NodeDrift | src/pages/AlertsLogs.tsx:128 | the per-frame node height stays in [-0.1, 0.1] |
| AlertsLogs.LineOpacity | src/pages/AlertsLogs.tsx:136 | the per-frame line opacity stays in [0.2, 0.8] |
| Inventory.FilterItems | src/pages/Inventory.tsx:192-196 | an item is kept iff its lowered name contains the lowered query and it matches the selected category (if any); order is preserved, and every copy of a kept item is kept |
| Inventory.SearchIgnoresCategory | src/pages/Inventory.tsx:193 | with no category selected, changing an item's category does not change whether it matches |
| Inventory.UnfilteredInventory | src/pages/Inventory.tsx:33-44 | with no category and an empty query all ten items are listed in their original order |
| Inventory.CategoryList | src/pages/Inventory.tsx:199 | the mapped list holds each item's category at the item's position |
| Inventory.Categories | src/pages/Inventory.tsx:199 | the category buttons have no duplicates, are exactly the categories that occur, and follow first-occurrence order |
| Inventory.UniqueOfFirst | src/pages/Inventory.tsx:34-43 | a fact about the page's item list: de-duplicating its first k categories gives the distinct categories among them in order of appearance |
| Inventory.InventoryCategories | src/pages/Inventory.tsx:199 | the six category buttons after "All" are Materials, Components, Electronics, Fasteners, Engine Parts, Digital |
| Inventory.BadgeTextClassification | src/pages/Inventory.tsx:323-327 | "Low Stock" iff stock < reorder; "Moderate" iff reorder <= stock and 2*stock < 3*reorder; "Optimal" iff 3*reorder <= 2*stock |
| Inventory.BadgeClassMatchesText | src/pages/Inventory.tsx:316-327 | the badge colour and the badge text always come from the same branch |
| Inventory.CriticalCount | src/pages/Inventory.tsx:286 | the critical count is at most the list length, is 0 iff no item is flagged critical, and equals the number of marked positions for any marking of exactly the critical positions |
| Inventory.CountByMarks | src/pages/Inventory.tsx:286 | counting the critical items of a list is counting the positions flagged critical |
| Inventory.CriticalFrom | src/pages/Inventory.tsx:286 | from position k on, the number of critical items equals the number of marked positions |
| Inventory.InventoryCounts | src/pages/Inventory.tsx:281-286 | the summary cards read 10 total items and 3 critical ones |
| Inventory.RobotAt | src/pages/Inventory.tsx:55-63 | robot x stays in [-4, 4]; y is exactly 0.5 unless sin(0.2t) > 0.8, and then lies in [0.2, 0.8] |
| SystemConfigurations.TickUpdate | src/pages/SystemConfigurations.tsx:234-245 | null stays null; a value <= 1 becomes null and finishes (interval cleared, toast raised); any other value is decremented by 1 |
| SystemConfigurations.ButtonCaption | src/pages/SystemConfigurations.tsx:352-364 | the caption is "Deploy Changes" exactly when the button is enabled; while disabled it starts "Deploying in ", ends in "s", and the digits between read back as the countdown |
| SystemConfigurations.DeployStep | src/pages/SystemConfigurations.tsx:230-247 | a click while disabled does nothing and an enabled one shows 5; a firing only ever lowers the countdown by one; toasts never go down, rise by at most one, and rise exactly on the firing that sees 1 or less, which clears the countdown and its interval; live intervals change by at most one and grow only on an enabled click |
| SystemConfigurations.DeployStepKeepsInvariant | src/pages/SystemConfigurations.tsx:352 | every event keeps "counting iff exactly one interval is live, and the count is in 1..5" |
| SystemConfigurations.RunKeepsInvariant | src/pages/SystemConfigurations.tsx:230-247 | any run of events keeps the deploy invariant |
| SystemConfigurations.ReachableDeployStates | src/pages/SystemConfigurations.tsx:224-247 | from the first render, at most one interval is ever live and the countdown never shows a value outside 1..5 |
| SystemConfigurations.Ticks | src/pages/SystemConfigurations.tsx:233 | n firings of the interval, and nothing else |
| SystemConfigurations.TicksCountDown | src/pages/SystemConfigurations.tsx:233-245 | from c with one interval live, k < c firings leave c-k showing and raise no toast |
| SystemConfigurations.DeployCountsDownFromFive | src/pages/SystemConfigurations.tsx:231-245 | a click shows 5,4,3,2,1 on the next renders; the fifth firing ends the countdown, clears the interval, raises exactly one toast and re-enables the button |
| SystemConfigurations.CountdownCaptions | src/pages/SystemConfigurations.tsx:355-364 | on that run the button reads "Deploying in 5s" down to "Deploying in 1s", each number reading back as the countdown, then "Deploy Changes" |
| SystemConfigurations.RunAppend | src/pages/SystemConfigurations.tsx:230-247 | running two event sequences one after the other is running their concatenation |
| SystemConfigurations.PowerImpact | src/pages/SystemConfigurations.tsx:613 | the power increase is non-negative, 0 iff power <= 70, and otherwise power - 70 |
| SystemConfigurations.StabilityImpact | src/pages/SystemConfigurations.tsx:636 | the stability gain is non-negative, 0 iff redundancy <= 50, and otherwise 0.4 per point above 50 |
| SystemConfigurations.ResponseImpact | src/pages/SystemConfigurations.tsx:620-627 | "Faster" iff bandwidth > 60, by half a point per point above; otherwise "Slower" by half a point per point below (0 at 60) |
| SystemConfigurations.RiskImpact | src/pages/SystemConfigurations.tsx:643-650 | "Reduced" iff security > 80, by 0.4 per point above; otherwise "Increased" by 0.6 per point below |
| SystemConfigurations.ImpactZeroAtBaseline | src/pages/SystemConfigurations.tsx:225-228 | all four impacts are zero exactly at the initial slider values 70/60/50/80 (power and stability also below them) |
| SystemConfigurations.ImpactMonotone | src/pages/SystemConfigurations.tsx:613-650 | raising a slider never lowers the power or stability impact, and never turns "Faster" or "Reduced" into a smaller gain |
| SystemConfigurations.CreateConnections | src/pages/SystemConfigurations.tsx:155-191 | exactly four lines, each from the hub to the k-th corner, keyed "connection-k"; the ends are distinct, and so are the keys |
| SystemConfigurations.KeysDiffer | src/pages/SystemConfigurations.tsx:174 | keys built from different numbers differ |
| SystemConfigurations.ConnectionOpacity | src/pages/SystemConfigurations.tsx:59 | the per-frame line opacity stays in [0.3, 1.0] |
| SystemConfigurations.IndicatorIntensity | src/pages/SystemConfigurations.tsx:52 | the indicator glow formula stays in [0, 1] |
| SystemConfigurations.IndicatorFrame | src/pages/SystemConfigurations.tsx:48-55 | one glow value per registered server, each in [0, 1] |
| SystemConfigurations.IndicatorLoopIsEmpty | src/pages/SystemConfigurations.tsx:38 | nothing is ever registered in `serversRef`, so the indicator update writes nothing |
| Trig.SlowSpinRate | src/pages/DigitalTesting.tsx:37 | the chamber's rotation is 0 at time 0 and grows by 0.1 per second of elapsed time, whatever came before |
| DigitalTesting.LabStep | src/pages/DigitalTesting.tsx:128-131 | after a start the test is running, and a start while running changes nothing; running is entered only by a start and complete only by a timeout; a firing timeout completes the test; pending timeouts change by at most one, grow only on a start from idle or complete, and shrink only on a timeout |
| DigitalTesting.LabStepKeepsInvariant | src/pages/DigitalTesting.tsx:203 | every event keeps "one timeout pending iff running" |
| DigitalTesting.ReachableLabStates | src/pages/DigitalTesting.tsx:126-131 | any run of events keeps the invariant, so at most one timeout is ever pending |
| DigitalTesting.TestCycle | src/pages/DigitalTesting.tsx:126-131 | idle, then running after start, complete after the timeout, running again on a second start; extra clicks while running change nothing |
| DigitalTesting.CardsFollowStatus | src/pages/DigitalTesting.tsx:217-227 | the status card shows one label per status; the analysis reads "Passed" iff complete; the success variant is used iff complete |
| DigitalTesting.ButtonPieces | src/pages/DigitalTesting.tsx:206-211 | the button renders exactly two children: first the microscope icon iff idle, the "Testing..." pulse iff running, the check icon iff complete; then the caption for the status |
| DigitalTesting.OneButtonCaption | src/pages/DigitalTesting.tsx:209-211 | exactly one caption is rendered in every state, and different states have different captions |
| DigitalTesting.DiagnosticPanel | src/pages/DigitalTesting.tsx:290-330 | the report shows iff complete, and "Analyzing" shows iff running |
| AIInsights.ClickInsight | src/pages/AIInsights.tsx:378 | after a click the card is expanded iff it was not before, and no other card is expanded |
| AIInsights.ClickTwice | src/pages/AIInsights.tsx:378 | clicking a card twice restores the selection when nothing or that card was selected |
| AIInsights.AtMostOneExpanded | src/pages/AIInsights.tsx:410 | among cards with distinct ids at most one shows its details |
| AIInsights.InsightIdsDistinct | src/pages/AIInsights.tsx:32-78 | the five cards have distinct ids |
| AIInsights.ConfidenceBuckets | src/pages/AIInsights.tsx:395-397 | green iff confidence > 90, blue iff in (80, 90], yellow iff <= 80 |
| AIInsights.ConfidenceMonotone | src/pages/AIInsights.tsx:395-397 | a higher confidence never falls into a lower bucket |
| AIInsights.ImpactBuckets | src/pages/AIInsights.tsx:415-417 | green iff the impact is High or Critical, blue iff Medium, never yellow |
| AIInsights.CategoryClassFallback | src/pages/AIInsights.tsx:383-387 | orange iff the category is not one of the four named ones; the four named ones have distinct badges |
| AIInsights.InsightTones | src/pages/AIInsights.tsx:32-78 | the five cards read green, blue, blue, yellow, green |
| AIInsights.LayerNodes | src/pages/AIInsights.tsx:117-130 | the nodes of one layer from index i on, one per index, coloured by the layer rule |
| AIInsights.NodesFrom | src/pages/AIInsights.tsx:114-130 | the nodes of layers k onwards: as many as those layers' sizes add up to, one per (layer, index) |
| AIInsights.Neurons | src/pages/AIInsights.tsx:114-150 | one node per (layer, index), input layer blue, output layer green, hidden layers white |
| AIInsights.LayersSum | src/pages/AIInsights.tsx:109 | a fact about the page's layer list: the sizes 4, 6, 8, 6, 3 give 27 neurons |
| AIInsights.NetworkNodes | src/pages/AIInsights.tsx:109-130 | the page's network has 27 nodes, a blue input layer, a green output layer and three white hidden layers |
| AIInsights.LinksFrom | src/pages/AIInsights.tsx:154-155 | the inner loop yields exactly the lines into one node from previous-layer nodes whose draw exceeds 0.3 |
| AIInsights.LinksInto | src/pages/AIInsights.tsx:117-155 | the lines into nodes of one layer from index `to` on, at most their count times the previous layer's size |
| AIInsights.SynapsesFrom | src/pages/AIInsights.tsx:114-155 | the lines into layers k onwards, bounded by the products of adjacent layer sizes |
| AIInsights.Synapses | src/pages/AIInsights.tsx:152-169 | a line from node j of layer k-1 to node i of layer k exists iff its draw exceeds 0.3; no line enters layer 0 or skips a layer |
| AIInsights.NetworkSynapses | src/pages/AIInsights.tsx:152-169 | the page's network has at most 138 lines, and a line is green iff it enters the output layer |
| AIInsights.LayersCapacity | src/pages/AIInsights.tsx:109 | a fact about the page's layer list: 4·6 + 6·8 + 8·6 + 6·3 = 138 possible synapses |
| AIInsights.SynapseColorGreen | src/pages/AIInsights.tsx:169 | a line is green iff its target is in the last layer |
| AIInsights.FullDrawsLinkEverything | src/pages/AIInsights.tsx:152-155 | when every draw exceeds 0.3 every adjacent-layer pair is joined |
| AIInsights.LayerXSymmetric | src/pages/AIInsights.tsx:110-115 | layer positions are symmetric about 0; five layers sit at -3, -1.5, 0, 1.5, 3 |
| AIInsights.NodeScale | src/pages/AIInsights.tsx:90 | node scale stays in [0.9, 1.1] |
| AIInsights.NodeEmission | src/pages/AIInsights.tsx:93-97 | emission is 2 iff sin(t+i) > 0.7, and 0.5 otherwise |
| AIInsights.SynapseOpacity | src/pages/AIInsights.tsx:103 | line opacity stays in [0.2, 1.0] |
| DronesAircraft.FlightStep | src/pages/DronesAircraft.tsx:233-239 | a vehicle click selects that vehicle and keeps the flag; the simulation click flips the flag and keeps the vehicle |
| DronesAircraft.FlightStepLaws | src/pages/DronesAircraft.tsx:237-239 | two simulation clicks are the identity; choosing a vehicle twice is choosing it once; the two kinds of click commute |
| DronesAircraft.ViewFollowsSimulation | src/pages/DronesAircraft.tsx:319-366 | "Active", the success style, the mission clock "00:15:42", the in-flight marker (line 470) and "Stop Flight" all appear iff simulating |
| DronesAircraft.ViewFollowsVehicle | src/pages/DronesAircraft.tsx:313-327 | a drone reports Battery (label, 82%, tab, chart title at lines 384 and 419) and a fighter Fuel (93%); switching vehicle leaves the simulation-driven parts alone |
| DronesAircraft.InitialView | src/pages/DronesAircraft.tsx:233-234 | the page opens on a drone at standby, with no mission clock and no marker |
| DronesAircraft.JetAt | src/pages/DronesAircraft.tsx:43-45 | jet height stays in [-0.2, 0.2], roll in [-0.05, 0.05], yaw in [π/4-0.1, π/4+0.1] |
| DronesAircraft.ExhaustGlow | src/pages/DronesAircraft.tsx:50-54 | each exhaust intensity stays in [0.6, 1.0] |
| RoboticArm.Weight | src/components/ThreeJSModels/RoboticArmModel.tsx:21 | the weight (sin+1)/2 is in [0,1] for a sine value; it is 0 iff the sine is -1 and 1 iff it is 1 |
| Trig.LerpBetween | src/components/ThreeJSModels/RoboticArmModel.tsx:18-22 | a lerp with weight in [0,1] stays between its ends and equals them at weights 0 and 1 |
| RoboticArm.JointRange | src/components/ThreeJSModels/RoboticArmModel.tsx:17-38 | each joint stays within its limits, reaching the upper one at a sine peak and the lower one at a trough |
| RoboticArm.Frame | src/components/ThreeJSModels/RoboticArmModel.tsx:14-39 | joint 1 stays in [-π/4, π/4], joint 2 in [-π/6, π/3], the end effector in [-π/8, π/8] |
| RoboticArm.FrameForgetsHistory | src/components/ThreeJSModels/RoboticArmModel.tsx:14-39 | the pose depends on elapsed time alone, not on the previous pose; the previous pose is not read, so this records that each angle is set directly from the clock |
| Palette.StatusColorsDistinct | src/components/SystemHealthOrb.tsx:14-33 | the four status colours are different strings |
| SystemHealthOrb.StatusColorProperties | src/components/SystemHealthOrb.tsx:12-35 | every status uses one colour for inner and outer, and different statuses get different colours |
| SystemHealthOrb.StatusTextProperties | src/components/SystemHealthOrb.tsx:37-48 | every caption starts with "System ", and different statuses get different captions |
| SystemHealthOrb.Defaults | src/components/SystemHealthOrb.tsx:51-52 | with no props the orb is blue, reads "System Good" and has the medium size class |
| SystemHealthOrb.SizeClass | src/components/SystemHealthOrb.tsx:68-72 | each size class is "w-N h-N" with the same two-digit N for width and height |
| SystemHealthOrb.SizeClassGrows | src/components/SystemHealthOrb.tsx:68-72 | sm, md, lg give strictly growing widths, and the three classes are pairwise different |
| SystemHealthOrb.GlowClasses | src/components/SystemHealthOrb.tsx:82-85 | the base glow classes always lead, and `opacity-30` and `scale-110` are present exactly while pulsing |
| SystemHealthOrb.PulsePeriod | src/components/SystemHealthOrb.tsx:63 | the interval period lies in [2000, 3000) ms |
| SystemHealthOrb.ResetBeforeNextPulse | src/components/SystemHealthOrb.tsx:62-63 | the 500 ms reset is at most a quarter of any period, so it is due before the next firing |
| SystemHealthOrb.OrbStep | src/components/SystemHealthOrb.tsx:54-66 | nothing restarts a cleared interval; the pulse is raised only by a firing, and a live firing raises it; a pending reset lowers it; pending resets change by at most one and grow only on a live firing; unmount clears the interval and nothing else |
| SystemHealthOrb.UnmountTwice | src/components/SystemHealthOrb.tsx:65 | unmounting a second time changes nothing |
| SystemHealthOrb.OrbRunKeepsPulseWillReset | src/components/SystemHealthOrb.tsx:60-62 | whatever happens, a raised pulse always has a reset pending |
| SystemHealthOrb.AfterUnmount | src/components/SystemHealthOrb.tsx:65 | after unmount the interval never fires again and pending resets can only run down |
| SystemHealthOrb.PulseCycle | src/components/SystemHealthOrb.tsx:54-62 | from mount, a firing lights the orb and the reset returns it to the mounted state |
| Sidebar.ToggleCollapsed | src/components/Sidebar.tsx:127 | the button flips the collapsed flag |
| Sidebar.ToggleTwice | src/components/Sidebar.tsx:127 | two clicks restore the sidebar |
| Sidebar.NoPrefixMatching | src/components/Sidebar.tsx:70 | a link is active only on its exact path, so "/" is not active on "/inventory" |
| Sidebar.RenderLink | src/components/Sidebar.tsx:70-116 | exactly one of label and tooltip is shown (label iff expanded); the active bar shows iff active and expanded |
| Sidebar.RenderNav | src/components/Sidebar.tsx:69-120 | one link per navigation item, in order |
| Sidebar.AtMostOneActive | src/components/Sidebar.tsx:70 | with distinct targets at most one link is active for any path |
| Sidebar.NavTargetsDistinct | src/components/Sidebar.tsx:19-29 | the nine targets are pairwise different |
| Sidebar.RenderFrame | src/components/Sidebar.tsx:36-63 | the frame is "w-16" wide iff collapsed and "w-64" iff expanded; the brand title shows iff expanded, and the chevron points right iff collapsed |
| Sidebar.InitialSidebar | src/components/Sidebar.tsx:32 | on first render the sidebar is narrow, shows tooltips and no labels, and draws no active bar |
| Text.ContainsIffOccurs | src/pages/AlertsLogs.tsx:252 | the `includes` scan succeeds exactly when the needle occurs at some position |
| Text.ContainsEmpty | src/pages/Inventory.tsx:193 | every string includes the empty string |
| Text.LowerIdempotent | src/pages/AlertsLogs.tsx:253 | lowering twice is lowering once |
| Text.ParseDecimalOfDecimal | src/pages/Dashboard.tsx:21 | reading back an integer's decimal text gives the integer |
| Seqs.FilterIsSubseq | src/pages/AlertsLogs.tsx:250 | `Array.filter` keeps an order-preserving subsequence |
| Seqs.FilterMonotone | src/pages/AlertsLogs.tsx:251 | filtering with a stronger predicate selects a subsequence of the weaker one's result |
| Seqs.UniqueFirstOccurrenceOrder | src/pages/Inventory.tsx:199 | `new Set` keeps elements in the order of their first occurrence |
| Seqs.Filter | src/pages/AlertsLogs.tsx:250 | `Array.filter` keeps exactly the elements of the input that satisfy the predicate, and is no longer than the input |
| Seqs.FilterMultiplicity | src/pages/AlertsLogs.tsx:250 | `Array.filter` keeps every copy of a kept element and no copy of a dropped one |
| Seqs.Take | src/pages/Dashboard.tsx:123 | `slice(0, n)` has length min(n, length) and agrees with the input position by position |
| Seqs.Unique | src/pages/Inventory.tsx:199 | `Array.from(new Set(...))` holds exactly the input's elements, each once |
| Text.Decimal | src/pages/Dashboard.tsx:21 | an integer's decimal text is non-empty, all digits, one digit exactly below 10 and two exactly from 10 to 99 |

## Left out

- Three.js scene graphs, meshes, materials, lights, the canvas and orbit
  controls are not modelled. They are rendering only.
- Node and layer positions from `sin`/`cos` of angles are not modelled. This
  covers the alerts ring, the neural-net node circles and the robot's
  `atan2` facing angle. Only the random draws, colours, indices and the
  layer x positions are kept.
- The scheduling of `useFrame` is not modelled. Elapsed time `t` is a
  parameter of each frame function.
- `Math.sin` is not computed. It is any total function bounded by [-1, 1].
  No accuracy claim about floating point is made. Every formula is stated
  over exact reals.
- `Math.random` is an oracle. For the network edges it is a function of the
  pair; for node specs it is a function of the call position. The model does
  not check that the draws are consumed in exactly the source's call order.
- `setInterval` and `setTimeout` are not timed. Their firings are discrete
  events. The model does not rule out firings the real clock would order
  differently.
- Number-to-string rendering is not modelled. This covers `toFixed(1)` at
  src/pages/SystemConfigurations.tsx:626-627 and the raw float printing at
  lines 636 and 649-650, which can show artefacts such as
  `1.2000000000000002`. The real-valued quantities are stated instead.
- `toLowerCase` is ASCII-only. Unicode case mapping is not modelled.
- The ref-callback arrays that `push` on every render are not modelled.
  They grow across re-renders (src/pages/AlertsLogs.tsx:162, 208,
  src/pages/AIInsights.tsx:136, 183, src/pages/SystemConfigurations.tsx:184).
  The node and line lists are taken as given, and the count of registered
  nodes is the parameter `n` of `AlertsLogs.SceneLines`.
- Hooks called inside `map` (src/pages/SystemConfigurations.tsx:77-78) are
  React lifecycle behaviour and are left out.
- The ServerRack indicator colour draws are not modelled, because no
  indicator is ever registered (`SystemConfigurations.IndicatorLoopIsEmpty`).
- `toggleSimulation` reads `simulating` from the render's closure. Two
  clicks inside one render would both set the same value. The model assumes
  one click per render.
- The StatusCard `icon` and `className` props are not modelled, nor is the
  class merging done by `cn`. The orb's glow classes are kept as a class
  list, so while pulsing both `opacity-20` and `opacity-30` are listed.
- Unmounting the Configurations or Digital Testing page is not modelled.
  Neither page cleans up on unmount: the deploy interval is cleared only
  inside the countdown updater (src/pages/SystemConfigurations.tsx:237), and
  the test timeout (src/pages/DigitalTesting.tsx:130) is never cleared. So
  `SystemConfigurations.ReachableDeployStates` and
  `DigitalTesting.ReachableLabStates` hold for one mount of the page.
- Toasts appear only as a counter in `SystemConfigurations.Deploy`. The
  Tabs, Button and Slider components and their bounds are not modelled.
- `generateTimeSeriesData` takes `points` as a natural number. A negative
  or fractional length passed to `Array.from` is not modelled. The other
  pages' copies of the generator are identical to the Dashboard's and are
  not modelled separately.
- The Dashboard charts, the other pages' chart data, and the fixed text and
  layout are not modelled.
- `TimeSeriesChart`, `App`, `Layout`, `TopBar`, `FactoryModel`, and the
  `EngineAssembly` and `RoboticArmControl` pages are not part of this model.
  They hold routing, layout, a wall-clock timer, a frame-count-driven
  rotation and generator copies.
