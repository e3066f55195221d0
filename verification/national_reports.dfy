/** The city snapshot table of pages/5_National_Reports.py. */
module NationalReports {
  import opened BreathIndex
  import CityProfiles

  /** One table row before number formatting. */
  datatype CityRow = CityRow(city: string, no2: real, so2: real, co: real,
                             breathability: real, status: Band)

  function RowFor(city: string, g: CityProfiles.Gases): (row: CityRow)
    ensures row.city == city && row.no2 == g.no2 && row.so2 == g.so2 && row.co == g.co
    ensures row.breathability == Breathability(g.no2) && row.status == BandFor(row.breathability)
    ensures 0.0 <= row.breathability <= 100.0
    ensures row.status == Healthy <==> row.breathability >= 80.0
    ensures row.status == Unhealthy <==> row.breathability < 60.0
  {
    var b := Breathability(g.no2);
    CityRow(city, g.no2, g.so2, g.co, b, BandFor(b))
  }

  /** Score and status depend on a city's NO2 alone. */
  lemma RowDependsOnlyOnNo2(city: string, g1: CityProfiles.Gases, g2: CityProfiles.Gases)
    requires g1.no2 == g2.no2
    ensures RowFor(city, g1).breathability == RowFor(city, g2).breathability
    ensures RowFor(city, g1).status == RowFor(city, g2).status
  {
  }

  /** A dirtier city never gets a better status. */
  lemma StatusMonotone(c1: string, g1: CityProfiles.Gases, c2: string, g2: CityProfiles.Gases)
    requires g1.no2 <= g2.no2
    ensures BandLevel(RowFor(c1, g1).status) <= BandLevel(RowFor(c2, g2).status)
  {
    BandMonotone(g1.no2, g2.no2);
  }

  /** The page's table for the city averages in their table order; a
      logged-out session stops before the table. */
  method NationalRows(loggedIn: bool, cities: seq<(string, CityProfiles.Gases)>) returns (rows: seq<CityRow>)
    ensures !loggedIn ==> rows == []
    ensures loggedIn ==> |rows| == |cities|
    ensures loggedIn ==> forall i :: 0 <= i < |rows| ==> rows[i] == RowFor(cities[i].0, cities[i].1)
  {
    rows := [];
    if !loggedIn {
      return;
    }
    for i := 0 to |cities|
      invariant |rows| == i
      invariant forall k :: 0 <= k < i ==> rows[k] == RowFor(cities[k].0, cities[k].1)
    {
      var (city, g) := cities[i];
      var no2 := g.no2;
      var norm := Clamp01((no2 - MinNo2) / (MaxNo2 - MinNo2));
      var breathe := (1.0 - norm) * 100.0;
      var status;
      if breathe >= 80.0 {
        status := Healthy;
      } else if breathe >= 60.0 {
        status := Caution;
      } else {
        status := Unhealthy;
      }
      rows := rows + [CityRow(city, no2, g.so2, g.co, breathe, status)];
    }
  }
}
