/** The community reporting store of pages/9_Community_Hub.py: the
    `user_scores` dictionary and the `community_reports` list held in the
    session, report submission with its point awards and automatic
    validation, admin moderation, and the badge leaderboard. The CSV
    files behind the two collections are the collections themselves. */
module CommunityHub {
  import opened Common

  datatype Status = UnderReview | ActionTaken | Resolved | Rejected

  function StatusName(status: Status): string {
    match status
    case UnderReview => "Under Review"
    case ActionTaken => "Action Taken"
    case Resolved => "Resolved"
    case Rejected => "Rejected"
  }

  /** A coordinate as a report dict holds it: absent, a number, or a value
      `float()` rejects or that compares false with everything (a NaN
      left by `pd.to_numeric(..., errors='coerce')`). */
  datatype RawCoord = Missing | Num(value: real) | NotNumeric

  datatype Report = Report(
    id: string,
    user: string,
    publicName: string,
    category: string,
    severity: int,
    city: string,
    lat: RawCoord,
    lon: RawCoord,
    description: string,
    timestamp: string,
    status: Status,
    autoVerified: bool,
    hasPhoto: bool)

  /** `float(report.get(key, 0))`, or `None` where the conversion fails. */
  function AsFloat(c: RawCoord): Option<real> {
    match c
    case Missing => Some(0.0)
    case Num(v) => Some(v)
    case NotNumeric => None
  }

  /** `auto_validate_report`: the dummy hotspot box around Delhi, bounds included. */
  function AutoValidate(lat: RawCoord, lon: RawCoord): (ok: bool)
    // a missing coordinate reads as 0, which lies outside the box
    ensures ok <==> && lat.Num? && lon.Num?
                    && 28.4 <= lat.value <= 28.8 && 76.9 <= lon.value <= 77.4
  {
    var la := AsFloat(lat);
    var lo := AsFloat(lon);
    if la.None? || lo.None? then false
    else 28.4 <= la.value <= 28.8 && 76.9 <= lo.value <= 77.4
  }

  /** The name shown on a report. */
  function PublicName(user: string, allowPublicName: bool): (name: string)
    ensures allowPublicName ==> name == user
    ensures !allowPublicName ==> name == "Anonymous"
  {
    if allowPublicName then user else "Anonymous"
  }

  /** The report the submission block leaves in the list: built as "Under
      Review", then promoted to "Action Taken" when it auto-validates. */
  function Submitted(id: string, user: string, category: string, severity: int, city: string,
                     lat: real, lon: real, description: string, timestamp: string,
                     hasPhoto: bool, allowPublicName: bool): (r: Report)
    ensures r.autoVerified <==> 28.4 <= lat <= 28.8 && 76.9 <= lon <= 77.4
    ensures r.status == (if r.autoVerified then ActionTaken else UnderReview)
    ensures r.id == id && r.user == user && r.publicName == PublicName(user, allowPublicName)
    ensures r.lat == Num(lat) && r.lon == Num(lon) && r.severity == severity
    ensures r.category == category && r.city == city && r.description == description
    ensures r.timestamp == timestamp && r.hasPhoto == hasPhoto
  {
    var draft := Report(id, user, PublicName(user, allowPublicName), category, severity, city,
                        Num(lat), Num(lon), description, timestamp, UnderReview, false, hasPhoto);
    if AutoValidate(draft.lat, draft.lon) then draft.(status := ActionTaken, autoVerified := true)
    else draft
  }

  /** Points a submission earns: 5 plus the severity, and 10 more when auto-verified. */
  function Award(severity: int, autoVerified: bool): (points: int)
    ensures 1 <= severity <= 5 ==> 6 <= points <= 20
    ensures autoVerified ==> points == Award(severity, false) + 10
  {
    5 + severity + (if autoVerified then 10 else 0)
  }

  /** `user_scores.get(email, 0)` */
  function ScoreOf(scores: map<string, int>, email: string): int {
    if email in scores then scores[email] else 0
  }

  /** The position of the first report with the given id, as both the
      `next(...)` lookup and the write-back loop find it. */
  function FirstIndex(reports: seq<Report>, id: string): (r: Option<nat>)
    ensures r.Some? ==> r.value < |reports| && reports[r.value].id == id
    ensures r.Some? ==> forall j :: 0 <= j < r.value ==> reports[j].id != id
    ensures r.None? ==> forall j :: 0 <= j < |reports| ==> reports[j].id != id
  {
    if reports == [] then None
    else if reports[0].id == id then Some(0)
    else match FirstIndex(reports[1..], id)
      case None => None
      case Some(k) => Some(k + 1)
  }

  /** The list after a moderation action on `id`. */
  function SetStatus(reports: seq<Report>, id: string, status: Status): (r: seq<Report>)
    ensures |r| == |reports|
    // only the status field of one report can change
    ensures forall i :: 0 <= i < |r| ==> r[i].(status := reports[i].status) == reports[i]
    ensures forall i :: 0 <= i < |r| ==>
              r[i].status == (if FirstIndex(reports, id) == Some(i) then status else reports[i].status)
  {
    match FirstIndex(reports, id)
    case None => reports
    case Some(i) => reports[i := reports[i].(status := status)]
  }

  datatype Badge = Legend | Pro | Trusted | Newcomer

  function BadgeLabel(badge: Badge): string {
    match badge
    case Legend => "\U{1F31F} Legend (100+ pts)"
    case Pro => "\U{1F525} Pro (50+ pts)"
    case Trusted => "\U{2705} Trusted (20+ pts)"
    case Newcomer => "\U{1F195} New"
  }

  /** The badge tiers, lowest first. */
  function BadgeLevel(badge: Badge): nat {
    match badge
    case Newcomer => 0
    case Trusted => 1
    case Pro => 2
    case Legend => 3
  }

  function BadgeFor(points: int): (badge: Badge)
    ensures badge == Legend <==> points >= 100
    ensures badge == Pro <==> 50 <= points < 100
    ensures badge == Trusted <==> 20 <= points < 50
    ensures badge == Newcomer <==> points < 20
  {
    if points >= 100 then Legend
    else if points >= 50 then Pro
    else if points >= 20 then Trusted
    else Newcomer
  }

  /** More points never earn a lower badge. */
  lemma BadgeMonotone(p: int, q: int)
    requires p <= q
    ensures BadgeLevel(BadgeFor(p)) <= BadgeLevel(BadgeFor(q))
  {
  }

  type Entry = (string, int)

  predicate NonIncreasing(s: seq<Entry>) {
    forall i, j :: 0 <= i < j < |s| ==> s[i].1 >= s[j].1
  }

  /** Inserts `x` in front of every entry with no more points than it, so
      that it stays ahead of later entries with equal points. */
  function Insert(x: Entry, s: seq<Entry>): (r: seq<Entry>)
    requires NonIncreasing(s)
    ensures |r| == |s| + 1
    ensures NonIncreasing(r)
    ensures multiset(r) == multiset(s) + multiset{x}
  {
    if s == [] || x.1 >= s[0].1 then
      ConsNonIncreasing(x, s);
      [x] + s
    else
      var rest := Insert(x, s[1..]);
      assert s == [s[0]] + s[1..];
      HeadBoundsInsert(x, s, rest);
      ConsNonIncreasing(s[0], rest);
      [s[0]] + rest
  }

  /** A head with at least the points of every later entry keeps a sorted
      sequence sorted. */
  lemma ConsNonIncreasing(h: Entry, s: seq<Entry>)
    requires NonIncreasing(s)
    requires s == [] || h.1 >= s[0].1
    ensures NonIncreasing([h] + s)
  {
    var r := [h] + s;
    forall i, j | 0 <= i < j < |r|
      ensures r[i].1 >= r[j].1
    {
      if i == 0 {
        assert r[j] == s[j - 1];
      } else {
        assert r[i] == s[i - 1] && r[j] == s[j - 1];
      }
    }
  }

  /** Everything inserted behind the head of a sorted sequence has no more
      points than that head. */
  lemma HeadBoundsInsert(x: Entry, s: seq<Entry>, rest: seq<Entry>)
    requires s != [] && NonIncreasing(s) && x.1 < s[0].1
    requires NonIncreasing(rest)
    requires multiset(rest) == multiset(s[1..]) + multiset{x}
    ensures rest == [] || rest[0].1 <= s[0].1
  {
    if rest != [] {
      assert rest[0] in multiset(rest);
      if rest[0] != x {
        assert rest[0] in multiset(s[1..]);
        var m :| 0 <= m < |s[1..]| && s[1..][m] == rest[0];
        assert s[m + 1] == rest[0];
      }
    }
  }

  /** `sorted(user_scores.items(), key=points, reverse=True)` */
  function SortByPoints(items: seq<Entry>): (r: seq<Entry>)
    ensures |r| == |items|
    ensures NonIncreasing(r)
    ensures multiset(r) == multiset(items)
  {
    if items == [] then []
    else
      assert items == [items[0]] + items[1..];
      Insert(items[0], SortByPoints(items[1..]))
  }

  /** `user_scores.items()` in the dictionary's insertion order. */
  function ItemsOf(order: seq<string>, scores: map<string, int>): (r: seq<Entry>)
    ensures |r| == |order|
    ensures forall i :: 0 <= i < |order| ==> r[i] == (order[i], ScoreOf(scores, order[i]))
  {
    seq(|order|, i requires 0 <= i < |order| => (order[i], ScoreOf(scores, order[i])))
  }

  datatype Row = Row(rank: nat, user: string, points: int, badge: Badge)

  /** The (user, points) pairs of a table. */
  function EntriesOf(rows: seq<Row>): (entries: seq<Entry>)
    ensures |entries| == |rows|
    ensures forall i :: 0 <= i < |rows| ==> entries[i] == (rows[i].user, rows[i].points)
  {
    if rows == [] then [] else EntriesOf(rows[..|rows| - 1]) + [(rows[|rows| - 1].user, rows[|rows| - 1].points)]
  }

  /** The session's two collections. `scoreOrder` is the insertion order of
      the `user_scores` dictionary, which `items()` follows. */
  class Hub {
    var scores: map<string, int>
    var scoreOrder: seq<string>
    var reports: seq<Report>

    ghost predicate Valid()
      reads this
    {
      && (forall i, j :: 0 <= i < j < |scoreOrder| ==> scoreOrder[i] != scoreOrder[j])
      && (forall e :: e in scores <==> e in scoreOrder)
    }

    /** The collections as `load_reports` and `load_scores` give them. */
    constructor (reports: seq<Report>, scoreOrder: seq<string>, scores: map<string, int>)
      requires forall i, j :: 0 <= i < j < |scoreOrder| ==> scoreOrder[i] != scoreOrder[j]
      requires forall e :: e in scores <==> e in scoreOrder
      ensures Valid()
      ensures this.reports == reports && this.scoreOrder == scoreOrder && this.scores == scores
    {
      this.reports := reports;
      this.scoreOrder := scoreOrder;
      this.scores := scores;
    }

    /** `add_points(email, points)` */
    method AddPoints(email: string, points: int)
      requires Valid()
      modifies this
      ensures Valid() && reports == old(reports)
      ensures scores == old(scores)[email := ScoreOf(old(scores), email) + points]
      ensures scoreOrder == if email in old(scores) then old(scoreOrder) else old(scoreOrder) + [email]
    {
      if email !in scores {
        scores := scores[email := 0];
        scoreOrder := scoreOrder + [email];
      }
      scores := scores[email := scores[email] + points];
    }

    /** The "Submit Incident" form, with the drawn id and the clock text as
        parameters; returns the report it stored. */
    method Submit(user: string, reportId: string, timestamp: string, category: string, severity: int,
                  city: string, lat: real, lon: real, description: string, hasPhoto: bool,
                  allowPublicName: bool) returns (report: Report)
      requires Valid()
      modifies this
      ensures Valid()
      ensures report == Submitted(reportId, user, category, severity, city, lat, lon, description,
                                  timestamp, hasPhoto, allowPublicName)
      ensures reports == old(reports) + [report]
      ensures scores == old(scores)[user := ScoreOf(old(scores), user) + Award(severity, report.autoVerified)]
      ensures scoreOrder == if user in old(scores) then old(scoreOrder) else old(scoreOrder) + [user]
    {
      report := Report(reportId, user, PublicName(user, allowPublicName), category, severity, city,
                       Num(lat), Num(lon), description, timestamp, UnderReview, false, hasPhoto);
      reports := reports + [report];
      var autoVerified := AutoValidate(report.lat, report.lon);
      if autoVerified {
        // the dict already in the list is patched in place
        report := report.(status := ActionTaken, autoVerified := true);
        reports := reports[|reports| - 1 := report];
      }
      Reward(user, severity, autoVerified);
    }

    /** The two `add_points` calls of a submission: the base award, then
        the bonus when the report auto-validated. */
    method Reward(user: string, severity: int, autoVerified: bool)
      requires Valid()
      modifies this
      ensures Valid() && reports == old(reports)
      ensures scores == old(scores)[user := ScoreOf(old(scores), user) + Award(severity, autoVerified)]
      ensures scoreOrder == if user in old(scores) then old(scoreOrder) else old(scoreOrder) + [user]
    {
      ghost var initial := scores;
      AddPoints(user, 5 + severity);
      ghost var based := scores;
      if autoVerified {
        AddPoints(user, 10);
      }
      AwardedInTwoSteps(initial, based, scores, user, severity, autoVerified);
    }

    /** A moderation button pressed by `actor` on the report chosen by id. */
    method Moderate(actor: string, selectedId: string, status: Status) returns (changed: bool)
      requires Valid()
      modifies this
      ensures Valid() && scores == old(scores) && scoreOrder == old(scoreOrder)
      ensures changed <==> actor == AdminEmail && FirstIndex(old(reports), selectedId).Some?
      ensures reports == if actor == AdminEmail then SetStatus(old(reports), selectedId, status) else old(reports)
    {
      if actor != AdminEmail {
        return false;
      }
      var i := 0;
      while i < |reports| && reports[i].id != selectedId
        invariant 0 <= i <= |reports|
        invariant forall j :: 0 <= j < i ==> reports[j].id != selectedId
      {
        i := i + 1;
      }
      if i == |reports| {
        return false;
      }
      FirstIndexAt(reports, selectedId, i);
      reports := reports[i := reports[i].(status := status)];
      changed := true;
    }

    /** The leaderboard table: ranks from 1 over the users by points, highest first. */
    method Leaderboard() returns (rows: seq<Row>)
      requires Valid()
      ensures |rows| == |scoreOrder|
      ensures forall i :: 0 <= i < |rows| ==> rows[i].rank == i + 1
      ensures forall i :: 0 <= i < |rows| ==> rows[i].badge == BadgeFor(rows[i].points)
      ensures forall i, j :: 0 <= i < j < |rows| ==> rows[i].points >= rows[j].points
      ensures multiset(EntriesOf(rows)) == multiset(ItemsOf(scoreOrder, scores))
    {
      var ranked := SortByPoints(ItemsOf(scoreOrder, scores));
      rows := [];
      for i := 0 to |ranked|
        invariant |rows| == i
        invariant forall k :: 0 <= k < i ==>
                    rows[k] == Row(k + 1, ranked[k].0, ranked[k].1, BadgeFor(ranked[k].1))
      {
        var (email, points) := ranked[i];
        rows := rows + [Row(i + 1, email, points, BadgeFor(points))];
      }
      RankedTable(ranked, rows);
    }
  }

  /** A table built row by row from a sorted ranking is ranked, badged and
      sorted, and lists exactly the ranking's entries. */
  lemma RankedTable(ranked: seq<Entry>, rows: seq<Row>)
    requires NonIncreasing(ranked) && |rows| == |ranked|
    requires forall k :: 0 <= k < |rows| ==>
               rows[k] == Row(k + 1, ranked[k].0, ranked[k].1, BadgeFor(ranked[k].1))
    ensures forall i :: 0 <= i < |rows| ==> rows[i].rank == i + 1 && rows[i].badge == BadgeFor(rows[i].points)
    ensures forall i, j :: 0 <= i < j < |rows| ==> rows[i].points >= rows[j].points
    ensures EntriesOf(rows) == ranked
  {
  }

  /** The base award followed by the optional bonus adds up to `Award`. */
  lemma AwardedInTwoSteps(initial: map<string, int>, based: map<string, int>, final: map<string, int>,
                          user: string, severity: int, autoVerified: bool)
    requires based == initial[user := ScoreOf(initial, user) + (5 + severity)]
    requires autoVerified ==> final == based[user := ScoreOf(based, user) + 10]
    requires !autoVerified ==> final == based
    ensures final == initial[user := ScoreOf(initial, user) + Award(severity, autoVerified)]
  {
  }

  lemma FirstIndexAt(reports: seq<Report>, id: string, i: nat)
    requires i < |reports| && reports[i].id == id
    requires forall j :: 0 <= j < i ==> reports[j].id != id
    ensures FirstIndex(reports, id) == Some(i)
  {
  }
}
