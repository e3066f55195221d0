/** The policy simulation of pages/4_WhatIf_Simulator.py: slider values
    become an NO2 reduction, the reduced NO2 is floored at zero, and the
    baseline and simulated Breathability are compared and rated. */
module WhatIf {
  import opened BreathIndex

  /** Per-unit NO2 reductions of the three levers, as the code computes them. */
  const PerTree: real := 0.00000001
  const PerBusLine: real := 0.00000005
  const PerTruckHour: real := 0.0000001

  function TotalReduction(trees: nat, buses: nat, trucks: nat): (r: real)
    ensures r >= 0.0
    ensures r == 0.0 <==> trees == 0 && buses == 0 && trucks == 0
  {
    PerTree * trees as real + PerBusLine * buses as real + PerTruckHour * trucks as real
  }

  /** `max(no2_base - total_reduction, 0.0)` */
  function SimulatedNo2(base: real, reduction: real): (n: real)
    ensures n >= 0.0
    ensures n == 0.0 || n == base - reduction
    ensures n >= base - reduction
    ensures reduction >= 0.0 && base >= 0.0 ==> n <= base
  {
    if base - reduction > 0.0 then base - reduction else 0.0
  }

  datatype Scenario = Safe | ImprovedButCaution | StillUnsafe

  function ScenarioText(s: Scenario): string {
    match s
    case Safe => "Safe"
    case ImprovedButCaution => "Improved but caution"
    case StillUnsafe => "Still unsafe"
  }

  /** The second if-chain of the page, over the simulated score. */
  function ScenarioFor(b: real): (s: Scenario)
    ensures s == Safe <==> b >= 80.0
    ensures s == StillUnsafe <==> b < 60.0
  {
    if b >= 80.0 then Safe else if b >= 60.0 then ImprovedButCaution else StillUnsafe
  }

  /** The scenario always agrees with the rating label. */
  lemma ScenarioMatchesLabel(b: real)
    ensures ScenarioFor(b) == Safe <==> BandFor(b) == Healthy
    ensures ScenarioFor(b) == ImprovedButCaution <==> BandFor(b) == Caution
    ensures ScenarioFor(b) == StillUnsafe <==> BandFor(b) == Unhealthy
  {
  }

  datatype Simulation = Simulation(
    reduction: real,
    no2New: real,
    breatheBase: real,
    breatheNew: real,
    improvement: real,
    rating: Band,
    scenario: Scenario)

  /** The numbers and ratings the page shows for a baseline and the sliders. */
  function Simulate(base: real, trees: nat, buses: nat, trucks: nat): (s: Simulation)
    ensures s.reduction == TotalReduction(trees, buses, trucks)
    ensures s.no2New == SimulatedNo2(base, s.reduction)
    // both scores are the shared index, and the improvement is their difference
    ensures s.breatheBase == Breathability(base) && s.breatheNew == Breathability(s.no2New)
    ensures s.improvement == s.breatheNew - s.breatheBase
    ensures s.no2New >= 0.0
    ensures 0.0 <= s.breatheBase <= 100.0 && 0.0 <= s.breatheNew <= 100.0
    // a policy package never makes the air less breathable
    ensures s.improvement >= 0.0
    ensures s.rating == BandFor(s.breatheNew) && s.scenario == ScenarioFor(s.breatheNew)
  {
    var reduction := TotalReduction(trees, buses, trucks);
    var no2New := SimulatedNo2(base, reduction);
    var breatheBase := Breathability(base);
    var breatheNew := Breathability(no2New);
    NoWorse(base, reduction);
    Simulation(reduction, no2New, breatheBase, breatheNew, breatheNew - breatheBase,
               BandFor(breatheNew), ScenarioFor(breatheNew))
  }

  /** Flooring the reduced value never lowers the score, even for a
      negative baseline. */
  lemma NoWorse(base: real, reduction: real)
    requires reduction >= 0.0
    ensures Breathability(base) <= Breathability(SimulatedNo2(base, reduction))
  {
    var n := SimulatedNo2(base, reduction);
    if base >= 0.0 {
      BreathabilityAntitone(n, base);
    } else {
      assert n == 0.0;
    }
  }

  /** With no lever moved, the simulation reproduces the baseline. */
  lemma NoPolicyNoChange(base: real)
    requires base >= 0.0
    ensures Simulate(base, 0, 0, 0).no2New == base
    ensures Simulate(base, 0, 0, 0).improvement == 0.0
  {
  }
}
