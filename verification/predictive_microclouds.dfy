/** The micro-zone reading of pages/2_Predictive_Microclouds.py: the
    Breathability of the clicked tile, its risk level and the explanation
    text. The NO2 lookups are parameters. */
module Microclouds {
  import opened Common
  import opened BreathIndex

  datatype Risk = Low | Medium | High

  function RiskName(risk: Risk): string {
    match risk
    case Low => "Low"
    case Medium => "Medium"
    case High => "High"
  }

  function RiskLevel(risk: Risk): nat {
    match risk
    case Low => 0
    case Medium => 1
    case High => 2
  }

  /** The risk as the page computes it: "Low", overwritten by "Medium"
      below 80, overwritten by "High" below 60. */
  function RiskFor(b: real): (risk: Risk)
    ensures risk == Low <==> b >= 80.0
    ensures risk == Medium <==> 60.0 <= b < 80.0
    ensures risk == High <==> b < 60.0
  {
    var first := Low;
    var second := if b < 80.0 then Medium else first;
    if b < 60.0 then High else second
  }

  /** The risk levels are the shared rating bands under other names. */
  lemma RiskMatchesBand(b: real)
    ensures RiskLevel(RiskFor(b)) == BandLevel(BandFor(b))
  {
  }

  /** Risk never decreases as NO2 rises. */
  lemma RiskMonotone(a: real, b: real)
    requires a <= b
    ensures RiskLevel(RiskFor(Breathability(a))) <= RiskLevel(RiskFor(Breathability(b)))
  {
    BreathabilityAntitone(a, b);
  }

  const SafeWording: string := "relatively safe for most people"
  const StressWording: string := "showing stress for sensitive groups"

  function Wording(b: real): (text: string)
    ensures text == SafeWording || text == StressWording
  {
    if b >= 80.0 then SafeWording else StressWording
  }

  /** The reassuring wording appears exactly when the risk is Low. */
  lemma SafeWordingIffLow(b: real)
    ensures Wording(b) == SafeWording <==> RiskFor(b) == Low
  {
  }

  /** What the page shows for a clicked tile: the metrics use the default
      layer's NO2, the explanation the selected layer's. */
  datatype Analysis = Analysis(breathability: real, risk: Risk, metricNo2: real,
                               explainedNo2: real, wording: string)

  function Analyze(no2Default: real, no2Layer: real): (a: Analysis)
    // the metrics come from the default layer, the explanation quotes the selected one
    ensures a.breathability == Breathability(no2Default) && a.risk == RiskFor(a.breathability)
    ensures a.metricNo2 == no2Default && a.explainedNo2 == no2Layer
    ensures 0.0 <= a.breathability <= 100.0
    ensures no2Default <= MinNo2 ==> a.breathability == 100.0 && a.risk == Low
    ensures no2Default >= MaxNo2 ==> a.breathability == 0.0 && a.risk == High
    ensures a.wording == SafeWording <==> a.risk == Low
  {
    var b := Breathability(no2Default);
    SafeWordingIffLow(b);
    Analysis(b, RiskFor(b), no2Default, no2Layer, Wording(b))
  }

  /** One run of the page. A run with no clicked point shows the warning;
      `Failed` is a run that ends in an exception. */
  datatype PageRun = Warned | Shown(analysis: Analysis) | Failed

  /** The page as written: with no clicked point the warning branch falls
      through to the layer lookup below it, which reads the coordinates
      only the other branch assigned. */
  function PageAsWritten(clicked: bool, no2Default: real, no2Layer: real): PageRun {
    if clicked then Shown(Analyze(no2Default, no2Layer)) else Failed
  }

  /** The failing input: any session without a clicked point. */
  lemma UnclickedPageFails(no2Default: real, no2Layer: real)
    ensures PageAsWritten(false, no2Default, no2Layer) == Failed
  {
  }

  /** The page with the layer lookup and the explanation kept inside the
      clicked-point branch. */
  function Page(clicked: bool, no2Default: real, no2Layer: real): (run: PageRun)
    ensures run != Failed
    ensures run == Warned <==> !clicked
    ensures clicked ==> run == PageAsWritten(clicked, no2Default, no2Layer)
  {
    if clicked then Shown(Analyze(no2Default, no2Layer)) else Warned
  }
}
