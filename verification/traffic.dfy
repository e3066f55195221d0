/** The counting and banding logic of pages/10_Traffic_intelligence.py.
    The detector is outside the model: a prediction is given as the class
    ids of its boxes, one sequence per result object. */
module Traffic {
  import opened Common

  /** The COCO classes the page counts as vehicles. */
  const VehicleClasses: map<int, string> :=
    map[2 := "car", 3 := "motorcycle", 5 := "bus", 7 := "truck", 1 := "bicycle"]

  /** The breakdown's keys, in the dictionary's order. */
  const VehicleNames: seq<string> := ["car", "motorcycle", "bus", "truck", "bicycle"]

  /** All boxes of a prediction, result by result. */
  function Flatten(results: seq<seq<int>>): (ids: seq<int>)
    ensures |results| == 1 ==> ids == results[0]
  {
    if results == [] then [] else Flatten(results[..|results| - 1]) + results[|results| - 1]
  }

  /** The number of boxes whose class is a vehicle class. */
  function VehicleCount(ids: seq<int>): nat {
    if ids == [] then 0
    else VehicleCount(ids[..|ids| - 1]) + (if ids[|ids| - 1] in VehicleClasses then 1 else 0)
  }

  /** The number of boxes whose class maps to `name`. */
  function NameCount(ids: seq<int>, name: string): nat {
    if ids == [] then 0
    else
      var last := ids[|ids| - 1];
      NameCount(ids[..|ids| - 1], name)
      + (if last in VehicleClasses && VehicleClasses[last] == name then 1 else 0)
  }

  function SumCounts(ids: seq<int>, names: seq<string>): nat {
    if names == [] then 0 else NameCount(ids, names[0]) + SumCounts(ids, names[1..])
  }

  /** The total is the sum of the breakdown: every vehicle box is counted
      under exactly one name. */
  lemma {:induction false} TotalIsSumOfBreakdown(ids: seq<int>)
    ensures VehicleCount(ids) == SumCounts(ids, VehicleNames)
  {
    SumOverNames(ids);
    if ids != [] {
      var init := ids[..|ids| - 1];
      TotalIsSumOfBreakdown(init);
      SumOverNames(init);
    }
  }

  /** The sum over the five names, written out. */
  lemma SumOverNames(ids: seq<int>)
    ensures SumCounts(ids, VehicleNames)
            == NameCount(ids, "car") + NameCount(ids, "motorcycle") + NameCount(ids, "bus")
               + NameCount(ids, "truck") + NameCount(ids, "bicycle")
  {
    var n1: seq<string> := ["motorcycle", "bus", "truck", "bicycle"];
    var n2: seq<string> := ["bus", "truck", "bicycle"];
    var n3: seq<string> := ["truck", "bicycle"];
    var n4: seq<string> := ["bicycle"];
    assert VehicleNames[1..] == n1 && n1[1..] == n2 && n2[1..] == n3 && n3[1..] == n4 && n4[1..] == [];
    assert SumCounts(ids, n4) == NameCount(ids, "bicycle");
    assert SumCounts(ids, n3) == NameCount(ids, "truck") + SumCounts(ids, n4);
    assert SumCounts(ids, n2) == NameCount(ids, "bus") + SumCounts(ids, n3);
    assert SumCounts(ids, n1) == NameCount(ids, "motorcycle") + SumCounts(ids, n2);
  }
  /** Counting a sequence one more box at a time. */
  lemma CountsStep(ids: seq<int>, id: int)
    ensures VehicleCount(ids + [id]) == VehicleCount(ids) + (if id in VehicleClasses then 1 else 0)
    ensures forall name :: NameCount(ids + [id], name)
              == NameCount(ids, name) + (if id in VehicleClasses && VehicleClasses[id] == name then 1 else 0)
  {
    assert (ids + [id])[..|ids|] == ids;
  }

  lemma FlattenStep(results: seq<seq<int>>, i: nat)
    requires i < |results|
    ensures Flatten(results[..i + 1]) == Flatten(results[..i]) + results[i]
  {
    assert results[..i + 1][..i] == results[..i];
  }

  /** The breakdown every counter starts from. */
  const ZeroBreakdown: map<string, nat> :=
    map["car" := 0, "motorcycle" := 0, "bus" := 0, "truck" := 0, "bicycle" := 0]

  /** One frame's boxes added to the counts so far, which cover `seen`. */
  method CountBoxes(boxes: seq<int>, ghost seen: seq<int>, total0: nat, breakdown0: map<string, nat>)
    returns (total: nat, breakdown: map<string, nat>)
    requires total0 == VehicleCount(seen)
    requires forall name :: name in breakdown0 <==> name in VehicleNames
    requires forall name :: name in breakdown0 ==> breakdown0[name] == NameCount(seen, name)
    ensures total == VehicleCount(seen + boxes)
    ensures forall name :: name in breakdown <==> name in VehicleNames
    ensures forall name :: name in breakdown ==> breakdown[name] == NameCount(seen + boxes, name)
  {
    total, breakdown := total0, breakdown0;
    ghost var done := seen;
    for j := 0 to |boxes|
      invariant done == seen + boxes[..j]
      invariant total == VehicleCount(done)
      invariant forall name :: name in breakdown <==> name in VehicleNames
      invariant forall name :: name in breakdown ==> breakdown[name] == NameCount(done, name)
    {
      var cls := boxes[j];
      CountsStep(done, cls);
      done := done + [cls];
      if cls in VehicleClasses {
        var name := VehicleClasses[cls];
        breakdown := breakdown[name := breakdown[name] + 1];
        total := total + 1;
      }
    }
    assert boxes[..|boxes|] == boxes;
  }

  /** The counting loops of `recv` and of the image branch: the total and the
      per-name breakdown of one prediction. */
  method CountDetections(results: seq<seq<int>>) returns (total: nat, breakdown: map<string, nat>)
    ensures total == VehicleCount(Flatten(results))
    ensures forall name :: name in breakdown <==> name in VehicleNames
    ensures forall name :: name in breakdown ==> breakdown[name] == NameCount(Flatten(results), name)
  {
    total := 0;
    breakdown := ZeroBreakdown;
    for i := 0 to |results|
      invariant total == VehicleCount(Flatten(results[..i]))
      invariant forall name :: name in breakdown <==> name in VehicleNames
      invariant forall name :: name in breakdown ==> breakdown[name] == NameCount(Flatten(results[..i]), name)
    {
      total, breakdown := CountBoxes(results[i], Flatten(results[..i]), total, breakdown);
      FlattenStep(results, i);
    }
    assert results[..|results|] == results;
  }

  /** The dictionary's keys are distinct. */
  predicate Distinct(names: seq<string>) {
    forall i, j :: 0 <= i < j < |names| ==> names[i] != names[j]
  }

  /** The breakdown's five names are distinct, so its table has one row per name. */
  lemma VehicleNamesDistinct()
    ensures Distinct(VehicleNames)
  {
  }

  /** Where a key stands in the dictionary's order. */
  function Position(names: seq<string>, name: string): (k: nat)
    requires name in names
    ensures k < |names| && names[k] == name
  {
    if names[0] == name then 0 else 1 + Position(names[1..], name)
  }

  lemma DistinctTail(names: seq<string>)
    requires names != [] && Distinct(names)
    ensures Distinct(names[1..])
    ensures names[0] !in names[1..]
  {
    var tail := names[1..];
    forall i, j | 0 <= i < j < |tail|
      ensures tail[i] != tail[j]
    {
      assert tail[i] == names[i + 1] && tail[j] == names[j + 1];
    }
    forall k | 0 <= k < |tail|
      ensures tail[k] != names[0]
    {
      assert tail[k] == names[k + 1];
    }
  }

  /** A key after the first stands one place further in the whole order. */
  lemma PositionInTail(names: seq<string>, name: string)
    requires names != [] && names[0] != name && name in names[1..]
    ensures name in names && Position(names, name) == 1 + Position(names[1..], name)
  {
  }

  /** The breakdown table: the names with a positive count, in key order. */
  function BreakdownRows(names: seq<string>, breakdown: map<string, nat>): (rows: seq<(string, nat)>)
    ensures forall row :: row in rows ==> row.0 in names && row.0 in breakdown
                                          && row.1 == breakdown[row.0] && row.1 > 0
    ensures forall name :: name in names && name in breakdown && breakdown[name] > 0 ==>
              (name, breakdown[name]) in rows
  {
    if names == [] then []
    else
      var name := names[0];
      var rest := BreakdownRows(names[1..], breakdown);
      assert forall n :: n in names[1..] ==> n in names;
      assert forall n :: n in names ==> n == name || n in names[1..];
      if name in breakdown && breakdown[name] > 0 then [(name, breakdown[name])] + rest else rest
  }

  /** Every row's name is a key, and the rows follow the keys' order. */
  predicate InKeyOrder(names: seq<string>, rows: seq<(string, nat)>) {
    && (forall i :: 0 <= i < |rows| ==> rows[i].0 in names)
    && (forall i, j :: 0 <= i < j < |rows| ==> Position(names, rows[i].0) < Position(names, rows[j].0))
  }

  /** Rows in the order of the later keys are in the order of all keys. */
  lemma TailKeyOrder(names: seq<string>, rows: seq<(string, nat)>)
    requires names != [] && Distinct(names) && InKeyOrder(names[1..], rows)
    ensures InKeyOrder(names, rows)
    ensures forall i :: 0 <= i < |rows| ==> Position(names, rows[i].0) >= 1
  {
    DistinctTail(names);
    forall i | 0 <= i < |rows|
      ensures rows[i].0 in names && Position(names, rows[i].0) == 1 + Position(names[1..], rows[i].0)
    {
      PositionInTail(names, rows[i].0);
    }
  }

  /** A row for the first key goes in front of rows for the later keys. */
  lemma ConsKeyOrder(names: seq<string>, count: nat, rows: seq<(string, nat)>)
    requires names != [] && Distinct(names) && InKeyOrder(names[1..], rows)
    ensures InKeyOrder(names, [(names[0], count)] + rows)
  {
    TailKeyOrder(names, rows);
    var all := [(names[0], count)] + rows;
    assert Position(names, all[0].0) == 0;
    forall i | 1 <= i < |all|
      ensures all[i] == rows[i - 1]
    {
    }
  }

  /** Over distinct keys the rows follow the key order, so no name has two rows. */
  lemma {:induction false} BreakdownRowsOrdered(names: seq<string>, breakdown: map<string, nat>)
    requires Distinct(names)
    ensures InKeyOrder(names, BreakdownRows(names, breakdown))
  {
    if names != [] {
      var name := names[0];
      DistinctTail(names);
      BreakdownRowsOrdered(names[1..], breakdown);
      var rest := BreakdownRows(names[1..], breakdown);
      if name in breakdown && breakdown[name] > 0 {
        assert BreakdownRows(names, breakdown) == [(name, breakdown[name])] + rest;
        ConsKeyOrder(names, breakdown[name], rest);
      } else {
        assert BreakdownRows(names, breakdown) == rest;
        TailKeyOrder(names, rest);
      }
    }
  }

  datatype Congestion = Light | Moderate | Heavy

  function CongestionLabel(c: Congestion): string {
    match c
    case Light => "\U{1F7E2} Light"
    case Moderate => "\U{1F7E1} Moderate"
    case Heavy => "\U{1F534} Heavy"
  }

  function CongestionLevel(c: Congestion): nat {
    match c
    case Light => 0
    case Moderate => 1
    case Heavy => 2
  }

  function CongestionFor(density: real): (c: Congestion)
    ensures c == Light <==> density < 5.0
    ensures c == Heavy <==> density >= 15.0
  {
    if density < 5.0 then Light else if density < 15.0 then Moderate else Heavy
  }

  /** Vehicles per million pixels. */
  function Density(total: nat, height: nat, width: nat): (d: real)
    requires height > 0 && width > 0
    ensures d >= 0.0
    ensures d == 0.0 <==> total == 0
  {
    var area := (height * width) as real;
    total as real / area * 1000000.0
  }

  /** On a frame of a given size, more vehicles never mean lighter congestion. */
  lemma CongestionMonotone(t1: nat, t2: nat, height: nat, width: nat)
    requires height > 0 && width > 0 && t1 <= t2
    ensures CongestionLevel(CongestionFor(Density(t1, height, width)))
            <= CongestionLevel(CongestionFor(Density(t2, height, width)))
  {
    var area := (height * width) as real;
    assert t1 as real / area <= t2 as real / area;
  }

  datatype FrameStats = FrameStats(total: nat, density: real, congestion: Congestion, breakdown: map<string, nat>)

  /** Counting, density and banding for one frame of the given size. */
  method AnalyzeFrame(results: seq<seq<int>>, height: nat, width: nat) returns (stats: FrameStats)
    requires height > 0 && width > 0
    ensures stats.total == VehicleCount(Flatten(results))
    ensures stats.density == Density(stats.total, height, width)
    ensures stats.congestion == CongestionFor(stats.density)
    ensures forall name :: name in stats.breakdown <==> name in VehicleNames
    ensures forall name :: name in stats.breakdown ==> stats.breakdown[name] == NameCount(Flatten(results), name)
  {
    var total, breakdown := CountDetections(results);
    var density := total as real / (height * width) as real * 1000000.0;
    var congestion;
    if density < 5.0 {
      congestion := Light;
    } else if density < 15.0 {
      congestion := Moderate;
    } else {
      congestion := Heavy;
    }
    stats := FrameStats(total, density, congestion, breakdown);
  }

  /** The live-camera processor, whose fields the page reads between frames. */
  class VideoProcessor {
    var confidence: real
    var vehicleCount: nat
    var density: real
    var congestion: Congestion
    var breakdown: map<string, nat>

    constructor ()
      ensures confidence == 0.25 && vehicleCount == 0 && density == 0.0 && congestion == Light
      ensures breakdown == ZeroBreakdown
    {
      confidence := 0.25;
      vehicleCount := 0;
      density := 0.0;
      congestion := Light;
      breakdown := ZeroBreakdown;
    }

    /** `recv` on a frame of the given size whose prediction is `results`. */
    method Recv(results: seq<seq<int>>, height: nat, width: nat)
      requires height > 0 && width > 0
      modifies this
      ensures confidence == old(confidence)
      ensures vehicleCount == VehicleCount(Flatten(results))
      ensures density == Density(vehicleCount, height, width)
      ensures congestion == CongestionFor(density)
      ensures forall name :: name in breakdown <==> name in VehicleNames
      ensures forall name :: name in breakdown ==> breakdown[name] == NameCount(Flatten(results), name)
      ensures vehicleCount == SumCounts(Flatten(results), VehicleNames)
    {
      var stats := AnalyzeFrame(results, height, width);
      vehicleCount := stats.total;
      density := stats.density;
      congestion := stats.congestion;
      breakdown := stats.breakdown;
      TotalIsSumOfBreakdown(Flatten(results));
    }
  }

  const SampleEvery: nat := 5

  datatype FramePoint = FramePoint(frame: nat, time: real, vehicles: nat)

  /** A zero frame rate fails on the first sampled frame's time stamp. */
  datatype VideoResult = Processed(points: seq<FramePoint>) | ZeroFps

  /** The "Process Video" loop over the decoded frames, each given by its
      prediction: every fifth frame, from the first, yields a data point. */
  method ProcessVideo(frames: seq<seq<seq<int>>>, fps: int) returns (r: VideoResult)
    ensures r == ZeroFps <==> fps == 0 && |frames| > 0
    ensures r.Processed? ==> |r.points| == (|frames| + SampleEvery - 1) / SampleEvery
    ensures r.Processed? && fps != 0 ==> forall k :: 0 <= k < |r.points| ==>
              r.points[k] == FramePoint(SampleEvery * k, (SampleEvery * k) as real / fps as real,
                                        VehicleCount(Flatten(frames[SampleEvery * k])))
  {
    var data: seq<FramePoint> := [];
    var idx := 0;
    while idx < |frames|
      invariant 0 <= idx <= |frames|
      invariant idx > 0 ==> fps != 0
      invariant SampleEvery * |data| - SampleEvery < idx <= SampleEvery * |data|
      invariant fps != 0 ==> forall k :: 0 <= k < |data| ==>
                  data[k] == FramePoint(SampleEvery * k, (SampleEvery * k) as real / fps as real,
                                        VehicleCount(Flatten(frames[SampleEvery * k])))
    {
      assert idx % SampleEvery == 0 <==> idx == SampleEvery * |data|;
      if idx % SampleEvery == 0 {
        if fps == 0 {
          return ZeroFps;
        }
        var count, _ := CountDetections(frames[idx]);
        data := data + [FramePoint(idx, idx as real / fps as real, count)];
      }
      idx := idx + 1;
    }
    assert |data| == (|frames| + SampleEvery - 1) / SampleEvery;
    r := Processed(data);
  }

  function SumVehicles(points: seq<FramePoint>): nat {
    if points == [] then 0 else SumVehicles(points[..|points| - 1]) + points[|points| - 1].vehicles
  }

  /** "Peak Traffic"; none when no frame was sampled. */
  function Peak(points: seq<FramePoint>): (m: Option<nat>)
    ensures m.None? <==> points == []
    ensures m.Some? ==> forall k :: 0 <= k < |points| ==> points[k].vehicles <= m.value
    ensures m.Some? ==> exists k :: 0 <= k < |points| && points[k].vehicles == m.value
  {
    if points == [] then None
    else
      var last := points[|points| - 1].vehicles;
      match Peak(points[..|points| - 1])
      case None => Some(last)
      case Some(p) => Some(if p >= last then p else last)
  }

  /** "Avg Vehicles/Frame"; none when no frame was sampled. */
  function Average(points: seq<FramePoint>): (a: Option<real>)
    ensures a.None? <==> points == []
    // the mean: the average times the number of points is the sum of the counts
    ensures a.Some? ==> a.value * |points| as real == SumVehicles(points) as real
  {
    if points == [] then None else Some(SumVehicles(points) as real / |points| as real)
  }

  lemma {:induction false} SumAtMostPeak(points: seq<FramePoint>, bound: nat)
    requires forall k :: 0 <= k < |points| ==> points[k].vehicles <= bound
    ensures SumVehicles(points) <= |points| * bound
  {
    if points != [] {
      SumAtMostPeak(points[..|points| - 1], bound);
    }
  }

  /** The average never exceeds the peak. */
  lemma AverageAtMostPeak(points: seq<FramePoint>)
    requires points != []
    ensures Average(points).value <= Peak(points).value as real
  {
    var p := Peak(points).value;
    SumAtMostPeak(points, p);
    var n := |points|;
    ProductAsReal(n, p);
    QuotientAtMost(SumVehicles(points) as real, n as real, p as real);
  }

  lemma ProductAsReal(n: nat, p: nat)
    ensures (n * p) as real == n as real * p as real
  {
  }

  lemma QuotientAtMost(s: real, n: real, p: real)
    requires n > 0.0 && s <= n * p
    ensures s / n <= p
  {
    var q := s / n;
    assert q * n == s;
    if q > p {
      assert (q - p) * n > 0.0;
    }
  }

  /** The industrial zones' AQI score, from PM2.5, CO and NO2. */
  function ZoneScore(pm25: real, co: real, no2: real): real {
    pm25 * 0.5 + co * 10.0 + no2 * 0.2
  }

  function ZoneLabel(score: real): (verdict: string)
    ensures verdict == "Moderate" <==> score < 100.0
    ensures verdict == "Unhealthy" <==> score >= 100.0
  {
    if score < 100.0 then "Moderate" else "Unhealthy"
  }

  /** Raising any one pollutant never turns an unhealthy zone moderate. */
  lemma ZoneLabelMonotone(pm25: real, co: real, no2: real, pm25': real, co': real, no2': real)
    requires pm25 <= pm25' && co <= co' && no2 <= no2'
    requires ZoneLabel(ZoneScore(pm25, co, no2)) == "Unhealthy"
    ensures ZoneLabel(ZoneScore(pm25', co', no2')) == "Unhealthy"
  {
  }
}
