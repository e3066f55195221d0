/** The Breathability Index shared by the Predictive Microclouds, What-If
    Simulator and National Reports pages: NO2 column density mapped
    linearly from a clean floor to a polluted ceiling, clamped, and
    turned into a 0..100 score where higher is cleaner. */
module BreathIndex {
  /** The NO2 column densities (mol/m2) taken as perfect and as worst. */
  const MinNo2: real := 0.00005
  const MaxNo2: real := 0.00025

  function Clamp01(x: real): (y: real)
    ensures 0.0 <= y <= 1.0
    ensures 0.0 <= x <= 1.0 ==> y == x
  {
    if x < 0.0 then 0.0 else if x > 1.0 then 1.0 else x
  }

  /** `max(0.0, min(1.0, (no2 - min_v) / (max_v - min_v)))` */
  function Norm(no2: real): (n: real)
    ensures 0.0 <= n <= 1.0
    ensures no2 <= MinNo2 ==> n == 0.0
    ensures no2 >= MaxNo2 ==> n == 1.0
  {
    Clamp01((no2 - MinNo2) / (MaxNo2 - MinNo2))
  }

  /** `(1 - norm) * 100` */
  function Breathability(no2: real): (b: real)
    ensures 0.0 <= b <= 100.0
    ensures no2 <= MinNo2 ==> b == 100.0
    ensures no2 >= MaxNo2 ==> b == 0.0
  {
    (1.0 - Norm(no2)) * 100.0
  }

  /** More NO2 never gives a higher score. */
  lemma BreathabilityAntitone(a: real, b: real)
    requires a <= b
    ensures Breathability(b) <= Breathability(a)
  {
    assert (a - MinNo2) / (MaxNo2 - MinNo2) <= (b - MinNo2) / (MaxNo2 - MinNo2);
  }

  /** Strictly inside the two bounds the score is the linear interpolation. */
  lemma BreathabilityLinear(no2: real)
    requires MinNo2 <= no2 <= MaxNo2
    ensures Breathability(no2) == (MaxNo2 - no2) / (MaxNo2 - MinNo2) * 100.0
  {
  }

  /** The three-way rating the pages attach to a score. */
  datatype Band = Healthy | Caution | Unhealthy

  function BandName(band: Band): string {
    match band
    case Healthy => "Healthy"
    case Caution => "Caution"
    case Unhealthy => "Unhealthy"
  }

  /** Worse bands have higher levels. */
  function BandLevel(band: Band): nat {
    match band
    case Healthy => 0
    case Caution => 1
    case Unhealthy => 2
  }

  function BandFor(b: real): (band: Band)
    ensures band == Healthy <==> b >= 80.0
    ensures band == Unhealthy <==> b < 60.0
  {
    if b >= 80.0 then Healthy else if b >= 60.0 then Caution else Unhealthy
  }

  /** More NO2 never gives a better band. */
  lemma BandMonotone(a: real, b: real)
    requires a <= b
    ensures BandLevel(BandFor(Breathability(a))) <= BandLevel(BandFor(Breathability(b)))
  {
    BreathabilityAntitone(a, b);
  }
}
