/** The gas-fingerprint rules of src/data_engine/city_profiles.py. */
module CityProfiles {
  /** One city's averages, in the units the city table stores. */
  datatype Gases = Gases(no2: real, so2: real, co: real)

  datatype Note = TrafficDominated | Industrial | Combustion | Balanced

  function NoteText(note: Note): string {
    match note
    case TrafficDominated =>
      "Pattern suggests **traffic\U{2011}dominated** pollution with limited heavy industry."
    case Industrial =>
      "Elevated SO\U{2082} indicates influence from **power plants or industrial stacks**."
    case Combustion =>
      "High CO hints at **intense combustion sources** such as dense traffic or biomass burning."
    case Balanced =>
      "Gas levels are moderate and relatively balanced; Kalam NanoAtmosphere recommends continued monitoring of trends."
  }

  const No2High: real := 0.0002
  const So2Elevated: real := 0.0001
  const CoHigh: real := 0.04

  predicate TrafficRule(g: Gases) { g.no2 > No2High && g.so2 < So2Elevated }
  predicate IndustrialRule(g: Gases) { g.so2 >= So2Elevated }
  predicate CombustionRule(g: Gases) { g.co > CoHigh }

  /** `interpret_city`: one note per rule that fires, in rule order, and the
      balanced note alone when none does. */
  method InterpretCity(g: Gases) returns (notes: seq<Note>)
    ensures TrafficDominated in notes <==> TrafficRule(g)
    ensures Industrial in notes <==> IndustrialRule(g)
    ensures Combustion in notes <==> CombustionRule(g)
    ensures Balanced in notes <==> !TrafficRule(g) && !IndustrialRule(g) && !CombustionRule(g)
    ensures Balanced in notes ==> notes == [Balanced]
    ensures 1 <= |notes| <= 2
    // no note twice, and rule order kept
    ensures forall i, j :: 0 <= i < j < |notes| ==> Rank(notes[i]) < Rank(notes[j])
  {
    notes := [];
    if g.no2 > 2.0e-4 && g.so2 < 1.0e-4 {
      notes := notes + [TrafficDominated];
    }
    if g.so2 >= 1.0e-4 {
      notes := notes + [Industrial];
    }
    if g.co > 0.04 {
      notes := notes + [Combustion];
    }
    if notes == [] {
      notes := notes + [Balanced];
    }
  }

  /** The order in which the rules are tried. */
  function Rank(note: Note): nat {
    match note
    case TrafficDominated => 0
    case Industrial => 1
    case Combustion => 2
    case Balanced => 3
  }

  /** The traffic and the industrial pattern exclude each other. */
  lemma TrafficExcludesIndustrial(g: Gases)
    ensures !(TrafficRule(g) && IndustrialRule(g))
  {
  }
}
