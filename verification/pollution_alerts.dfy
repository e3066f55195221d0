/** The alert card of pages/8_Pollution_Alerts.py: the AQI banding with
    its colours and advisories, and when the page pulls a fresh reading. */
module PollutionAlerts {
  import opened Common

  /** India's National AQI categories, in rising order. */
  datatype Band = Good | Satisfactory | ModeratelyPolluted | Poor | VeryPoor | Severe

  function Level(band: Band): nat {
    match band
    case Good => 0
    case Satisfactory => 1
    case ModeratelyPolluted => 2
    case Poor => 3
    case VeryPoor => 4
    case Severe => 5
  }

  /** The inclusive upper bound of each band below Severe. */
  function UpperBound(level: nat): real
    requires level < 5
  {
    [50.0, 100.0, 200.0, 300.0, 400.0][level]
  }

  /** `classify_aqi`: the first band whose upper bound the reading does not exceed. */
  function Classify(aqi: real): (band: Band)
    ensures forall k :: 0 <= k < Level(band) ==> aqi > UpperBound(k)
    ensures Level(band) < 5 ==> aqi <= UpperBound(Level(band))
  {
    if aqi <= 50.0 then Good
    else if aqi <= 100.0 then Satisfactory
    else if aqi <= 200.0 then ModeratelyPolluted
    else if aqi <= 300.0 then Poor
    else if aqi <= 400.0 then VeryPoor
    else Severe
  }

  /** A higher reading never lands in a lower band. */
  lemma ClassifyMonotone(a: real, b: real)
    requires a <= b
    ensures Level(Classify(a)) <= Level(Classify(b))
  {
  }

  function Label(band: Band): string {
    match band
    case Good => "Good"
    case Satisfactory => "Satisfactory"
    case ModeratelyPolluted => "Moderately Polluted"
    case Poor => "Poor"
    case VeryPoor => "Very Poor"
    case Severe => "Severe"
  }

  function Color(band: Band): string {
    match band
    case Good => "#009966"
    case Satisfactory => "#FFDE33"
    case ModeratelyPolluted => "#FF9933"
    case Poor => "#CC0033"
    case VeryPoor => "#660099"
    case Severe => "#7E0023"
  }

  function Advisory(band: Band): string {
    match band
    case Good => "Air quality is good. Enjoy outdoor activities."
    case Satisfactory => "Minor breathing discomfort to sensitive people (lungs, heart)."
    case ModeratelyPolluted =>
      "People with asthma, children, and elders should reduce long or heavy outdoor exertion."
    case Poor => "Sensitive groups should avoid outdoor activity; others limit long or heavy exertion."
    case VeryPoor => "Everyone should limit outdoor activity. High risk for respiratory/cardiac patients."
    case Severe => "Health emergency. Stay indoors as much as possible and follow official advisories."
  }

  /** The three texts of the alert card. */
  function ClassifyAqi(aqi: real): (card: (string, string, string))
    ensures card == (Label(Classify(aqi)), Color(Classify(aqi)), Advisory(Classify(aqi)))
  {
    var band := Classify(aqi);
    (Label(band), Color(band), Advisory(band))
  }

  /** Different bands never share a label or a colour, so the card tells
      the band apart. */
  lemma CardDistinguishesBands(b1: Band, b2: Band)
    requires b1 != b2
    ensures Label(b1) != Label(b2) && Color(b1) != Color(b2)
  {
  }

  /** Each label comes with one colour and one advisory, whatever the reading. */
  lemma LabelFixesCard(a: real, b: real)
    ensures ClassifyAqi(a).0 == ClassifyAqi(b).0 ==> ClassifyAqi(a) == ClassifyAqi(b)
  {
    if Classify(a) != Classify(b) {
      CardDistinguishesBands(Classify(a), Classify(b));
    }
  }

  const RefreshSeconds: real := 30.0

  /** The reading the page keeps between reruns. */
  class AlertState {
    var lastAlertPull: real
    var currentAqi: Option<real>

    constructor ()
      ensures lastAlertPull == 0.0 && currentAqi == None
    {
      lastAlertPull := 0.0;
      currentAqi := None;
    }

    /** One run of the page's data block. `now` and `pulledAt` are the two
        clock readings, `fetched` is what `get_city_aqi` returns; `shown`
        is the reading the card classifies. */
    method Refresh(refresh: bool, now: real, pulledAt: real, fetched: real) returns (shown: real, pulled: bool)
      modifies this
      ensures pulled <==> refresh || now - old(lastAlertPull) > RefreshSeconds
      ensures pulled ==> shown == fetched && currentAqi == Some(fetched) && lastAlertPull == pulledAt
      ensures !pulled ==> currentAqi == old(currentAqi) && lastAlertPull == old(lastAlertPull)
      ensures !pulled && old(currentAqi).Some? ==> shown == old(currentAqi).value
      ensures !pulled && old(currentAqi).None? ==> shown == fetched
    {
      pulled := refresh || now - lastAlertPull > RefreshSeconds;
      if pulled {
        shown := fetched;
        currentAqi := Some(fetched);
        lastAlertPull := pulledAt;
      } else {
        shown := if currentAqi.Some? then currentAqi.value else fetched;
      }
    }
  }
}
