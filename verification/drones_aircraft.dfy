/** The Drones & Aircraft page: the vehicle choice and the simulation
    switch, everything the panel derives from them, and the bounds of the
    fighter model's per-frame motion. */
module DronesAircraft {
  import opened Trig
  import StatusCard

  datatype Vehicle = Drone | Fighter

  /** The page state: the selected vehicle and whether a flight is being
      simulated. */
  datatype Flight = Flight(vehicle: Vehicle, simulating: bool)

  /** `useState("drone")` and `useState(false)`. */
  const InitialFlight := Flight(Drone, false)

  datatype FlightEvent = Select(v: Vehicle) | ToggleSimulation

  /** One click: a vehicle button selects that vehicle, the simulation
      button flips the flag; each leaves the other half of the state alone. */
  function FlightStep(f: Flight, e: FlightEvent): (r: Flight)
    ensures e.Select? ==> r.vehicle == e.v && r.simulating == f.simulating
    ensures e == ToggleSimulation ==> r.vehicle == f.vehicle && r.simulating != f.simulating
  {
    match e
    case Select(v) => f.(vehicle := v)
    case ToggleSimulation => f.(simulating := !f.simulating)
  }

  /** Two clicks on the simulation button restore the page, and choosing a
      vehicle twice is the same as choosing it once. */
  lemma FlightStepLaws(f: Flight, v: Vehicle)
    ensures FlightStep(FlightStep(f, ToggleSimulation), ToggleSimulation) == f
    ensures FlightStep(FlightStep(f, Select(v)), Select(v)) == FlightStep(f, Select(v))
    ensures FlightStep(FlightStep(f, Select(v)), ToggleSimulation) ==
            FlightStep(FlightStep(f, ToggleSimulation), Select(v))
  {
  }

  /** What the control panel and cards show. */
  datatype FlightView = FlightView(
    statusHeading: string,
    flightStatus: string,
    statusVariant: StatusCard.Variant,
    missionTime: string,
    resourceLabel: string,
    resourceValue: string,
    resourceTab: string,
    resourceChartTitle: string,
    buttonCaption: string,
    marker: bool)

  function View(f: Flight): FlightView {
    var drone := f.vehicle == Drone;
    FlightView(
      if drone then "Drone Status" else "Aircraft Status",
      if f.simulating then "Active" else "Standby",
      if f.simulating then StatusCard.Success else StatusCard.Default,
      if f.simulating then "00:15:42" else "--:--:--",
      if drone then "Battery Level" else "Fuel Level",
      if drone then "82%" else "93%",
      if drone then "Battery" else "Fuel",
      if drone then "Battery Level (%)" else "Fuel Level (%)",
      if f.simulating then "Stop Flight" else "Start Simulation",
      f.simulating)
  }

  /** The simulation-driven parts of the view follow the flag alone: active,
      success style, a mission clock and the in-flight marker exactly while
      simulating, whichever vehicle is chosen. */
  lemma ViewFollowsSimulation(f: Flight)
    ensures View(f).flightStatus == "Active" <==> f.simulating
    ensures View(f).statusVariant == StatusCard.Success <==> f.simulating
    ensures View(f).missionTime == "00:15:42" <==> f.simulating
    ensures View(f).marker <==> f.simulating
    ensures View(f).buttonCaption == "Stop Flight" <==> f.simulating
  {
  }

  /** The vehicle-driven parts follow the vehicle alone: a drone reports
      battery, a fighter fuel, and switching vehicles touches nothing that
      depends on the simulation. */
  lemma ViewFollowsVehicle(f: Flight, v: Vehicle)
    ensures View(f).resourceLabel == "Battery Level" <==> f.vehicle == Drone
    ensures View(f).resourceValue == (if f.vehicle == Drone then "82%" else "93%")
    ensures View(f).resourceTab == "Battery" <==> f.vehicle == Drone
    ensures View(f).resourceChartTitle == "Battery Level (%)" <==> f.vehicle == Drone
    ensures var g := FlightStep(f, Select(v));
      View(g).flightStatus == View(f).flightStatus && View(g).missionTime == View(f).missionTime &&
      View(g).marker == View(f).marker
  {
  }

  /** The page opens on a drone at standby with no mission clock. */
  lemma InitialView()
    ensures View(InitialFlight).flightStatus == "Standby"
    ensures View(InitialFlight).missionTime == "--:--:--"
    ensures View(InitialFlight).resourceLabel == "Battery Level"
    ensures !View(InitialFlight).marker
  {
  }

  // ---------------------------------------------------------------------
  // Fighter model motion
  // ---------------------------------------------------------------------

  /** The jet's pose at time `t`: hover height, roll and yaw. */
  datatype JetPose = JetPose(y: real, roll: real, yaw: real)

  function JetAt(sin: Sine, t: real): (p: JetPose)
    ensures -0.2 <= p.y <= 0.2
    ensures -0.05 <= p.roll <= 0.05
    ensures Pi / 4.0 - 0.1 <= p.yaw <= Pi / 4.0 + 0.1
  {
    ScaledSine(sin(t * 0.5), 0.2);
    ScaledSine(sin(t * 0.3), 0.05);
    ScaledSine(sin(t * 0.2), 0.1);
    JetPose(sin(t * 0.5) * 0.2, sin(t * 0.3) * 0.05, sin(t * 0.2) * 0.1 + Pi / 4.0)
  }

  /** An exhaust glow; the first exhaust uses phase 0, the second 0.5. */
  function ExhaustGlow(sin: Sine, t: real, phase: real): (v: real)
    ensures 0.6 <= v <= 1.0
  {
    ScaledSine(sin(t * 10.0 + phase), 0.2);
    0.8 + sin(t * 10.0 + phase) * 0.2
  }
}
