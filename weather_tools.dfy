/**
 * The backend weather tools' own logic around their calls to the NWS API,
 * BigQuery and Google Maps: which alerts query is made and how its answer is
 * filtered, counted and cut; how a map link is assembled; the historical
 * query's fallback over stations; the census lookup and its totals; and the
 * caps on nearby places and route steps.
 *
 * Every network or BigQuery answer is a parameter of the tool that asks for
 * it, and a call that raises is an answer carrying the exception's text. The
 * agent's tool context is a class whose `state` dictionary the tools write
 * their results into.
 */
module WeatherTools {
  import opened Wrappers
  import opened Text
  import opened RankSort

  // ---------------------------------------------------------------------------
  // Shared shapes

  /** Python truthiness of an optional number: present and non-zero. */
  predicate TruthyNumber(x: Option<real>) {
    x.Some? && x.value != 0.0
  }

  /** Python truthiness of an optional string: present and non-empty. */
  predicate TruthyText(s: Option<string>) {
    s.Some? && s.value != ""
  }

  /** What a request or query gives back: its decoded body, or the text of the exception it raised. */
  datatype Reply<T> = Replied(body: T) | Raised(error: string)

  /** A tool's answer: `{"status": "success", ...}` or `{"status": "error", "message": ...}`. */
  datatype Outcome<T> = Success(value: T) | Failure(message: string)

  /** `list[:n]`: at most the first `n` elements. */
  function Take<T>(s: seq<T>, n: nat): (r: seq<T>)
    ensures |r| == if |s| < n then |s| else n
    ensures r <= s
  {
    if |s| <= n then s else s[..n]
  }

  // ---------------------------------------------------------------------------
  // The tool context

  /** A value one of the tools saves under its key. */
  datatype Saved =
    | SavedAlerts(alerts: AlertsRecord)
    | SavedMap(map_: MapData)
    | SavedHistory(history: HistoryRecord)
    | SavedCensus(census: CensusSummary)
    | SavedPlaces(places: PlacesResult)
    | SavedDirections(directions: DirectionsResult)

  /** The agent's tool context: only its `state` dictionary is used. */
  class ToolContext {
    var state: map<string, Saved>

    constructor ()
      ensures state == map[]
    {
      state := map[];
    }
  }

  // ---------------------------------------------------------------------------
  // get_nws_alerts: which alerts are asked for

  /** The three forms of the NWS active-alerts request. */
  datatype AlertsQuery = PointQuery(latitude: real, longitude: real) | AreaQuery(area: string) | NationalQuery

  /** Point-based when both coordinates are truthy, else by area when a state is given, else national. */
  function AlertsQueryFor(state: Option<string>, latitude: Option<real>, longitude: Option<real>): (q: AlertsQuery)
    ensures q.PointQuery? <==> TruthyNumber(latitude) && TruthyNumber(longitude)
    ensures q.AreaQuery? <==> !(TruthyNumber(latitude) && TruthyNumber(longitude)) && TruthyText(state)
    ensures q.PointQuery? ==> q.latitude == latitude.value && q.longitude == longitude.value
    ensures q.AreaQuery? ==> q.area == state.value
  {
    if TruthyNumber(latitude) && TruthyNumber(longitude) then PointQuery(latitude.value, longitude.value)
    else if TruthyText(state) then AreaQuery(state.value)
    else NationalQuery
  }

  // ---------------------------------------------------------------------------
  // get_nws_alerts: shaping the answer

  /**
   * The `properties` of one alert feature, each key None when missing (a
   * feature without properties has all of them None).
   */
  datatype Props = Props(
    severity: Option<string>, event: Option<string>, urgency: Option<string>, certainty: Option<string>,
    headline: Option<string>, description: Option<string>, instruction: Option<string>,
    onset: Option<string>, expires: Option<string>, affectedZones: Option<seq<string>>, senderName: Option<string>)

  /** One alert as the tool lists it. */
  datatype NwsAlert = NwsAlert(
    event: Option<string>, severity: string, urgency: Option<string>, certainty: Option<string>,
    headline: Option<string>, description: Option<string>, instruction: Option<string>,
    onset: Option<string>, expires: Option<string>, affectedZones: seq<string>, senderName: Option<string>)

  const UnknownSeverity := "Unknown"

  /** A missing severity lists as "Unknown", missing zones as an empty list; the rest is copied. */
  function FormatAlert(p: Props): NwsAlert {
    NwsAlert(p.event, p.severity.GetOr(UnknownSeverity), p.urgency, p.certainty, p.headline, p.description,
             p.instruction, p.onset, p.expires, p.affectedZones.GetOr([]), p.senderName)
  }

  /** The severity filter: when a severity is asked for, only an exact match passes. */
  predicate Passes(p: Props, severity: Option<string>) {
    !TruthyText(severity) || p.severity == severity
  }

  /** The features that pass the filter, in their order. */
  function Matching(features: seq<Props>, severity: Option<string>): (r: seq<Props>)
    ensures |r| <= |features|
    ensures forall p :: p in r <==> p in features && Passes(p, severity)
    decreases |features|
  {
    if features == [] then []
    else
      var n := |features| - 1;
      assert features == features[..n] + [features[n]];
      Matching(features[..n], severity) + (if Passes(features[n], severity) then [features[n]] else [])
  }

  /** Filtering two lists in turn gives the filtered lists one after the other: order and repeats are kept. */
  lemma {:induction false} MatchingConcat(a: seq<Props>, b: seq<Props>, severity: Option<string>)
    ensures Matching(a + b, severity) == Matching(a, severity) + Matching(b, severity)
    decreases |b|
  {
    if b == [] {
      assert a + b == a;
    } else {
      var n := |b| - 1;
      var tail := if Passes(b[n], severity) then [b[n]] else [];
      assert (a + b)[..|a + b| - 1] == a + b[..n];
      assert (a + b)[|a + b| - 1] == b[n];
      MatchingConcat(a, b[..n], severity);
      assert Matching(a + b, severity) == Matching(a, severity) + Matching(b[..n], severity) + tail;
      assert Matching(b, severity) == Matching(b[..n], severity) + tail;
      AppendAssoc(Matching(a, severity), Matching(b[..n], severity), tail);
    }
  }


  /** When every feature passes, the filter keeps the list as it is. */
  lemma {:induction false} MatchingKeepsAll(features: seq<Props>, severity: Option<string>)
    requires forall i :: 0 <= i < |features| ==> Passes(features[i], severity)
    ensures Matching(features, severity) == features
    decreases |features|
  {
    if features != [] {
      var n := |features| - 1;
      var init := features[..n];
      MatchingKeepsAll(init, severity);
      assert init + [features[n]] == features;
    }
  }

  /** With no severity asked, every feature is listed, in order and with its repeats. */
  lemma MatchingWithoutSeverity(features: seq<Props>, severity: Option<string>)
    ensures !TruthyText(severity) ==> Matching(features, severity) == features
  {
    if !TruthyText(severity) {
      MatchingKeepsAll(features, severity);
    }
  }

  function FormatAll(ps: seq<Props>): (r: seq<NwsAlert>)
    ensures |r| == |ps|
    ensures forall i :: 0 <= i < |ps| ==> r[i] == FormatAlert(ps[i])
  {
    seq(|ps|, i requires 0 <= i < |ps| => FormatAlert(ps[i]))
  }

  /** A Python dict from severity to count, as its entries in insertion order. */
  type Counts = seq<(string, nat)>

  /** `severity_counts` before the first alert: the five usual severities at zero, in this order. */
  const InitialCounts: Counts := [("Extreme", 0), ("Severe", 0), ("Moderate", 0), ("Minor", 0), (UnknownSeverity, 0)]

  /** `counts.get(key, 0)`. */
  function CountOf(counts: Counts, key: string): nat
    decreases |counts|
  {
    if counts == [] then 0
    else if counts[0].0 == key then counts[0].1
    else CountOf(counts[1..], key)
  }

  predicate HasKey(counts: Counts, key: string) {
    exists i :: 0 <= i < |counts| && counts[i].0 == key
  }

  predicate DistinctKeys(counts: Counts) {
    forall i, j :: 0 <= i < j < |counts| ==> counts[i].0 != counts[j].0
  }

  /** The sum of the dict's values. */
  function Total(counts: Counts): nat
    decreases |counts|
  {
    if counts == [] then 0 else counts[0].1 + Total(counts[1..])
  }

  /**
   * `counts[key] = counts.get(key, 0) + 1`: an existing key is bumped where it
   * stands, a new one is appended with 1.
   */
  function Bump(counts: Counts, key: string): Counts
    decreases |counts|
  {
    if counts == [] then [(key, 1)]
    else if counts[0].0 == key then [(key, counts[0].1 + 1)] + counts[1..]
    else [counts[0]] + Bump(counts[1..], key)
  }

  lemma HasKeyTail(counts: Counts, key: string)
    requires counts != [] && counts[0].0 != key
    ensures HasKey(counts, key) <==> HasKey(counts[1..], key)
  {
    if HasKey(counts, key) {
      var i :| 0 <= i < |counts| && counts[i].0 == key;
      assert counts[1..][i - 1].0 == key;
    }
    if HasKey(counts[1..], key) {
      var i :| 0 <= i < |counts[1..]| && counts[1..][i].0 == key;
      assert counts[i + 1].0 == key;
    }
  }

  /** An existing key keeps its place, a new one goes last with count 1. */
  lemma {:induction false} BumpKeys(counts: Counts, key: string)
    ensures |Bump(counts, key)| == if HasKey(counts, key) then |counts| else |counts| + 1
    ensures forall i :: 0 <= i < |counts| ==> Bump(counts, key)[i].0 == counts[i].0
    ensures !HasKey(counts, key) ==> Bump(counts, key)[|counts|] == (key, 1)
    decreases |counts|
  {
    if counts != [] && counts[0].0 != key {
      BumpKeys(counts[1..], key);
      HasKeyTail(counts, key);
      assert Bump(counts, key)[1..] == Bump(counts[1..], key);
    } else if counts != [] {
      assert counts[0].0 == key;
    }
  }

  /** Bumping adds one to the key's count and leaves every other count alone. */
  lemma {:induction false} BumpCounts(counts: Counts, key: string)
    ensures forall k :: CountOf(Bump(counts, key), k) == CountOf(counts, k) + (if k == key then 1 else 0)
    decreases |counts|
  {
    if counts != [] && counts[0].0 != key {
      BumpCounts(counts[1..], key);
      assert Bump(counts, key)[1..] == Bump(counts[1..], key);
    }
  }

  /** Bumping adds one to the sum of the counts. */
  lemma {:induction false} BumpTotal(counts: Counts, key: string)
    ensures Total(Bump(counts, key)) == Total(counts) + 1
    decreases |counts|
  {
    if counts != [] {
      if counts[0].0 != key {
        BumpTotal(counts[1..], key);
      }
      assert Bump(counts, key)[1..] == if counts[0].0 == key then counts[1..] else Bump(counts[1..], key);
    }
  }

  /** Bumping never makes a key appear twice. */
  lemma BumpDistinct(counts: Counts, key: string)
    requires DistinctKeys(counts)
    ensures DistinctKeys(Bump(counts, key))
  {
    var r := Bump(counts, key);
    BumpKeys(counts, key);
    forall i, j | 0 <= i < j < |r|
      ensures r[i].0 != r[j].0
    {
      if j >= |counts| {
        assert !HasKey(counts, key);
        assert r[j].0 == key && r[i].0 == counts[i].0;
      }
    }
  }

  function Severities(alerts: seq<NwsAlert>): (r: seq<string>)
    ensures |r| == |alerts|
    ensures forall i :: 0 <= i < |alerts| ==> r[i] == alerts[i].severity
  {
    seq(|alerts|, i requires 0 <= i < |alerts| => alerts[i].severity)
  }

  /** The counts after bumping each severity in turn. */
  function Tally(counts: Counts, severities: seq<string>): Counts
    decreases |severities|
  {
    if severities == [] then counts
    else
      var n := |severities| - 1;
      Bump(Tally(counts, severities[..n]), severities[n])
  }

  /** `severity_breakdown` of the listed alerts. */
  function Breakdown(alerts: seq<NwsAlert>): Counts {
    Tally(InitialCounts, Severities(alerts))
  }

  /**
   * Tallying counts every severity as often as it occurs, adds exactly one to
   * the sum per severity, and keeps the keys already there, in their places.
   */
  lemma {:induction false} TallySpec(counts: Counts, severities: seq<string>)
    ensures forall k :: CountOf(Tally(counts, severities), k) == CountOf(counts, k) + multiset(severities)[k]
    ensures Total(Tally(counts, severities)) == Total(counts) + |severities|
    ensures |Tally(counts, severities)| >= |counts|
    ensures forall i :: 0 <= i < |counts| ==> Tally(counts, severities)[i].0 == counts[i].0
    ensures DistinctKeys(counts) ==> DistinctKeys(Tally(counts, severities))
    decreases |severities|
  {
    if severities != [] {
      var n := |severities| - 1;
      TallySpec(counts, severities[..n]);
      var before := Tally(counts, severities[..n]);
      BumpKeys(before, severities[n]);
      BumpCounts(before, severities[n]);
      BumpTotal(before, severities[n]);
      if DistinctKeys(counts) {
        BumpDistinct(before, severities[n]);
      }
      assert severities == severities[..n] + [severities[n]];
      assert multiset(severities) == multiset(severities[..n]) + multiset{severities[n]};
    }
  }

  /** Counts with distinct keys, all at zero. */
  predicate Zeroed(counts: Counts) {
    DistinctKeys(counts) && forall i :: 0 <= i < |counts| ==> counts[i].1 == 0
  }

  lemma {:induction false} ZeroedCounts(counts: Counts)
    requires forall i :: 0 <= i < |counts| ==> counts[i].1 == 0
    ensures forall k :: CountOf(counts, k) == 0
    ensures Total(counts) == 0
    decreases |counts|
  {
    if counts != [] {
      ZeroedCounts(counts[1..]);
    }
  }

  lemma InitialZeroed()
    ensures Zeroed(InitialCounts)
  {
  }

  /** Tallying from zeroed counts: each severity counted as often as it occurs, the sum is the number tallied. */
  lemma TallyFromZero(counts: Counts, severities: seq<string>)
    requires Zeroed(counts)
    ensures |Tally(counts, severities)| >= |counts|
    ensures forall i :: 0 <= i < |counts| ==> Tally(counts, severities)[i].0 == counts[i].0
    ensures DistinctKeys(Tally(counts, severities))
    ensures forall k :: CountOf(Tally(counts, severities), k) == multiset(severities)[k]
    ensures Total(Tally(counts, severities)) == |severities|
  {
    ZeroedCounts(counts);
    TallySpec(counts, severities);
  }

  /**
   * The breakdown starts with the five usual severities in order, never lists
   * a severity twice, counts each severity exactly as often as the listed
   * alerts carry it, and its values add up to the number of alerts.
   */
  lemma BreakdownSpec(alerts: seq<NwsAlert>)
    ensures |Breakdown(alerts)| >= |InitialCounts|
    ensures forall i :: 0 <= i < |InitialCounts| ==> Breakdown(alerts)[i].0 == InitialCounts[i].0
    ensures DistinctKeys(Breakdown(alerts))
    ensures forall k :: CountOf(Breakdown(alerts), k) == multiset(Severities(alerts))[k]
    ensures Total(Breakdown(alerts)) == |alerts|
  {
    InitialZeroed();
    TallyFromZero(InitialCounts, Severities(alerts));
  }

  /** `severity_priority.get(s, 4)`: Extreme first, then Severe, Moderate, Minor, anything else last. */
  function Priority(severity: string): (p: nat)
    ensures p <= LowestPriority
    ensures p == 0 <==> severity == "Extreme"
    ensures p == LowestPriority <==> severity !in {"Extreme", "Severe", "Moderate", "Minor"}
  {
    if severity == "Extreme" then 0
    else if severity == "Severe" then 1
    else if severity == "Moderate" then 2
    else if severity == "Minor" then 3
    else 4
  }

  const LowestPriority: nat := 4

  /** The sort key turned round, so that the descending rank sort puts priority 0 first. */
  function Urgency(a: NwsAlert): nat {
    LowestPriority - Priority(a.severity)
  }

  /** `alerts.sort(key=priority)`: Python's sort is stable. */
  function BySeverity(alerts: seq<NwsAlert>): seq<NwsAlert> {
    Descending(alerts, Urgency, LowestPriority)
  }

  /** More than this many alerts are cut. */
  const LimitAbove: nat := 20
  /** How many alerts a cut list keeps. */
  const LimitKeep: nat := 15

  /** Above 20 alerts, the 15 most critical in priority order; otherwise all, in their order. */
  function Limit(alerts: seq<NwsAlert>): seq<NwsAlert> {
    if |alerts| > LimitAbove then Take(BySeverity(alerts), LimitKeep) else alerts
  }

  /**
   * The cut: at most 20 alerts are kept as they are; above 20, the first 15 of
   * the sorted list are kept, taken from the alerts, in priority order, none of
   * them less critical than an alert left out, and each severity's alerts in
   * their original order.
   */
  lemma LimitSpec(alerts: seq<NwsAlert>)
    ensures |alerts| <= LimitAbove ==> Limit(alerts) == alerts
    ensures |alerts| > LimitAbove ==> |Limit(alerts)| == LimitKeep && Limit(alerts) <= BySeverity(alerts)
    ensures multiset(Limit(alerts)) <= multiset(alerts)
    ensures forall i, j :: 0 <= i < j < |Limit(alerts)| && |alerts| > LimitAbove ==>
      Priority(Limit(alerts)[i].severity) <= Priority(Limit(alerts)[j].severity)
    ensures forall i, j :: 0 <= i < |Limit(alerts)| <= j < |BySeverity(alerts)| ==>
      Priority(Limit(alerts)[i].severity) <= Priority(BySeverity(alerts)[j].severity)
    ensures forall k :: 0 <= k <= LowestPriority ==> Bucket(Limit(alerts), Urgency, k) <= Bucket(alerts, Urgency, k)
  {
    var sorted := BySeverity(alerts);
    DescendingSpec(alerts, Urgency, LowestPriority);
    if |alerts| > LimitAbove {
      var kept := Take(sorted, LimitKeep);
      PrefixSubMultiset(sorted, LimitKeep);
      forall k | 0 <= k <= LowestPriority
        ensures Bucket(kept, Urgency, k) <= Bucket(alerts, Urgency, k)
      {
        BucketPrefix(sorted, Urgency, k, LimitKeep);
      }
    } else {
      forall k | 0 <= k <= LowestPriority
        ensures Bucket(alerts, Urgency, k) <= Bucket(alerts, Urgency, k)
      {
      }
    }
  }

  /** What one successful call reports. */
  datatype AlertsReport = AlertsReport(
    alerts: seq<NwsAlert>, totalCount: nat, returnedCount: nat, severityBreakdown: Counts,
    timestamp: string, limited: bool, note: Option<string>)

  /** What the call saves under "alerts". */
  datatype AlertsRecord = AlertsRecord(
    alerts: seq<NwsAlert>, count: nat, severityBreakdown: Counts, timestamp: string, limited: bool)

  function NoteFor(returned: nat, total: nat): string {
    "Showing top " + NatToString(returned) + " critical alerts out of " + NatToString(total) + " total"
  }

  /** The report on the alerts that passed the filter, at time `now`. */
  function ReportOn(matched: seq<NwsAlert>, now: string): AlertsReport {
    var kept := Limit(matched);
    var limited := |matched| > LimitAbove;
    AlertsReport(kept, |matched|, |kept|, Breakdown(matched), now, limited,
                 if limited then Some(NoteFor(|kept|, |matched|)) else None)
  }

  function RecordOf(r: AlertsReport): AlertsRecord {
    AlertsRecord(r.alerts, r.totalCount, r.severityBreakdown, r.timestamp, r.limited)
  }

  /**
   * The report's counts agree: no more returned than matched, limited exactly
   * above 20, a note exactly when limited, and a breakdown adding up to the
   * total; with a severity asked for, every returned alert has exactly it.
   */
  lemma ReportSpec(features: seq<Props>, severity: Option<string>, now: string)
    ensures var r := ReportOn(FormatAll(Matching(features, severity)), now);
      && r.returnedCount == |r.alerts| <= r.totalCount <= |features|
      && (r.limited <==> r.totalCount > LimitAbove)
      && (r.note.Some? <==> r.limited)
      && r.returnedCount == (if r.limited then LimitKeep else r.totalCount)
      && Total(r.severityBreakdown) == r.totalCount
    ensures TruthyText(severity) ==>
      forall a :: a in ReportOn(FormatAll(Matching(features, severity)), now).alerts ==> a.severity == severity.value
  {
    var matching := Matching(features, severity);
    var matched := FormatAll(matching);
    LimitSpec(matched);
    BreakdownSpec(matched);
    if TruthyText(severity) {
      forall a | a in Limit(matched)
        ensures a.severity == severity.value
      {
        assert a in multiset(Limit(matched));
        assert a in matched;
        var i :| 0 <= i < |matched| && matched[i] == a;
        assert matching[i] in matching;
      }
    }
  }

  /** Tallying one more alert bumps its severity. */
  lemma BreakdownSnoc(alerts: seq<NwsAlert>, a: NwsAlert)
    ensures Breakdown(alerts + [a]) == Bump(Breakdown(alerts), a.severity)
  {
    assert Severities(alerts + [a])[..|alerts|] == Severities(alerts);
  }

  /** The loop over the features: formats the passing ones and counts them by severity. */
  method CollectAlerts(features: seq<Props>, severity: Option<string>) returns (alerts: seq<NwsAlert>, counts: Counts)
    ensures alerts == FormatAll(Matching(features, severity))
    ensures counts == Breakdown(alerts)
  {
    alerts, counts := [], InitialCounts;
    for i := 0 to |features|
      invariant alerts == FormatAll(Matching(features[..i], severity))
      invariant counts == Breakdown(alerts)
    {
      assert features[..i + 1][..i] == features[..i];
      var props := features[i];
      if !Passes(props, severity) {
        continue;
      }
      var alertSeverity := props.severity.GetOr(UnknownSeverity);
      BreakdownSnoc(alerts, FormatAlert(props));
      counts := Bump(counts, alertSeverity);
      alerts := alerts + [FormatAlert(props)];
    }
    assert features[..|features|] == features;
  }

  /**
   * `get_nws_alerts`: asks for the chosen alerts, keeps those of the asked
   * severity while counting them by severity, cuts a long list, saves the
   * record under "alerts" and reports; a request that raises reports an error
   * and saves nothing.
   */
  method GetNwsAlerts(ctx: ToolContext, state: Option<string>, latitude: Option<real>, longitude: Option<real>,
                      severity: Option<string>, fetch: AlertsQuery -> Reply<seq<Props>>, now: string)
    returns (result: Outcome<AlertsReport>)
    modifies ctx
    ensures fetch(AlertsQueryFor(state, latitude, longitude)).Raised? ==>
      result == Failure("Failed to get alerts: " + fetch(AlertsQueryFor(state, latitude, longitude)).error)
      && ctx.state == old(ctx.state)
    ensures fetch(AlertsQueryFor(state, latitude, longitude)).Replied? ==>
      var report := ReportOn(FormatAll(Matching(fetch(AlertsQueryFor(state, latitude, longitude)).body, severity)), now);
      result == Success(report) && ctx.state == old(ctx.state)["alerts" := SavedAlerts(RecordOf(report))]
  {
    var reply := fetch(AlertsQueryFor(state, latitude, longitude));
    if reply.Raised? {
      return Failure("Failed to get alerts: " + reply.error);
    }
    var alerts, counts := CollectAlerts(reply.body, severity);
    var totalCount := |alerts|;
    if totalCount > LimitAbove {
      alerts := Take(BySeverity(alerts), LimitKeep);
    }
    var limited := totalCount > LimitAbove;
    var report := AlertsReport(alerts, totalCount, |alerts|, counts, now, limited,
                               if limited then Some(NoteFor(|alerts|, totalCount)) else None);
    ctx.state := ctx.state["alerts" := SavedAlerts(RecordOf(report))];
    result := Success(report);
  }

  // ---------------------------------------------------------------------------
  // generate_map

  /** The elements that `keep` accepts, in their order. */
  function Filter<T(!new)>(s: seq<T>, keep: T -> bool): (r: seq<T>)
    ensures |r| <= |s|
    ensures forall x :: x in r <==> x in s && keep(x)
    decreases |s|
  {
    if s == [] then []
    else
      var n := |s| - 1;
      assert s == s[..n] + [s[n]];
      Filter(s[..n], keep) + (if keep(s[n]) then [s[n]] else [])
  }

  /** Filtering two lists in turn gives the filtered lists one after the other: order and repeats are kept. */
  lemma {:induction false} FilterConcat<T(!new)>(a: seq<T>, b: seq<T>, keep: T -> bool)
    ensures Filter(a + b, keep) == Filter(a, keep) + Filter(b, keep)
    decreases |b|
  {
    if b == [] {
      assert a + b == a;
    } else {
      var n := |b| - 1;
      var tail := if keep(b[n]) then [b[n]] else [];
      assert (a + b)[..|a + b| - 1] == a + b[..n];
      assert (a + b)[|a + b| - 1] == b[n];
      FilterConcat(a, b[..n], keep);
      assert Filter(a + b, keep) == Filter(a, keep) + Filter(b[..n], keep) + tail;
      AppendAssoc(Filter(a, keep), Filter(b[..n], keep), tail);
    }
  }

  /** When `keep` accepts every element, the list is kept as it is. */
  lemma {:induction false} FilterKeepsAll<T(!new)>(s: seq<T>, keep: T -> bool)
    requires forall x :: x in s ==> keep(x)
    ensures Filter(s, keep) == s
    decreases |s|
  {
    if s != [] {
      var n := |s| - 1;
      FilterKeepsAll(s[..n], keep);
      assert s[..n] + [s[n]] == s;
    }
  }

  /** A marker as the agent passes it, each key None when missing. */
  datatype MarkerIn = MarkerIn(lat: Option<real>, lng: Option<real>, title: Option<string>, address: Option<string>)

  /** A marker as saved for the frontend. */
  datatype MapMarker = MapMarker(lat: Option<real>, lng: Option<real>, title: string, address: string)

  /** The link the tool builds: a driving route ending at the first marker, or a search at the centre. */
  datatype MapLink =
    | RouteLink(destLat: real, destLng: real, waypoints: seq<(real, real)>)
    | SearchLink(lat: real, lng: real, zoom: int)

  /** The markers after the first that may become waypoints: `markers[1:9]`. */
  function WaypointWindow(markers: seq<MarkerIn>): (w: seq<MarkerIn>)
    ensures |w| <= MaxWaypoints
  {
    if |markers| <= 1 then [] else markers[1..if |markers| < 9 then |markers| else 9]
  }

  const MaxWaypoints: nat := 8

  /** A marker with truthy coordinates becomes a waypoint. */
  predicate Locatable(m: MarkerIn) {
    TruthyNumber(m.lat) && TruthyNumber(m.lng)
  }

  function Point(m: MarkerIn): (real, real) {
    (m.lat.GetOr(0.0), m.lng.GetOr(0.0))
  }

  function Points(ms: seq<MarkerIn>): (r: seq<(real, real)>)
    ensures |r| == |ms|
    ensures forall i :: 0 <= i < |ms| ==> r[i] == Point(ms[i])
  {
    seq(|ms|, i requires 0 <= i < |ms| => Point(ms[i]))
  }

  /** The link for the given markers. */
  function LinkFor(centerLat: real, centerLng: real, zoom: int, markers: seq<MarkerIn>): MapLink {
    if markers == [] then SearchLink(centerLat, centerLng, zoom)
    else
      var first := markers[0];
      RouteLink(first.lat.GetOr(centerLat), first.lng.GetOr(centerLng), Points(Filter(WaypointWindow(markers), Locatable)))
  }

  /**
   * Without markers the link searches the centre at the zoom; with markers it
   * ends at the first one (its missing coordinates taken from the centre) and
   * passes through at most eight waypoints, which are exactly the coordinates
   * of the second to ninth markers whose coordinates are both truthy.
   */
  lemma LinkSpec(centerLat: real, centerLng: real, zoom: int, markers: seq<MarkerIn>)
    ensures markers == [] <==> LinkFor(centerLat, centerLng, zoom, markers).SearchLink?
    ensures markers == [] ==> LinkFor(centerLat, centerLng, zoom, markers) == SearchLink(centerLat, centerLng, zoom)
    ensures markers != [] ==>
      var link := LinkFor(centerLat, centerLng, zoom, markers);
      && (link.destLat == if markers[0].lat.Some? then markers[0].lat.value else centerLat)
      && (link.destLng == if markers[0].lng.Some? then markers[0].lng.value else centerLng)
      && |link.waypoints| <= MaxWaypoints
      && link.waypoints == Points(Filter(markers[1..if |markers| < 9 then |markers| else 9], Locatable))
      && (forall i :: 1 <= i < |markers| && i <= MaxWaypoints && Locatable(markers[i]) ==>
            (markers[i].lat.value, markers[i].lng.value) in link.waypoints)
      && (forall p :: p in link.waypoints ==>
            exists i :: 1 <= i < |markers| && i <= MaxWaypoints && Locatable(markers[i]) && p == Point(markers[i]))
  {
    if markers != [] {
      var window := WaypointWindow(markers);
      assert window == markers[1..if |markers| < 9 then |markers| else 9];
      var usable := Filter(window, Locatable);
      forall i | 1 <= i < |markers| && i <= MaxWaypoints && Locatable(markers[i])
        ensures Point(markers[i]) in Points(usable)
      {
        assert window[i - 1] == markers[i];
        assert markers[i] in usable;
        var j :| 0 <= j < |usable| && usable[j] == markers[i];
        assert Points(usable)[j] == Point(markers[i]);
      }
      forall p | p in Points(usable)
        ensures exists i :: 1 <= i < |markers| && i <= MaxWaypoints && Locatable(markers[i]) && p == Point(markers[i])
      {
        var j :| 0 <= j < |usable| && Points(usable)[j] == p;
        assert usable[j] in window;
        var k :| 0 <= k < |window| && window[k] == usable[j];
        assert markers[k + 1] == window[k];
      }
    }
  }

  /** `f"{n}"` for an integer. */
  function IntToString(n: int): string {
    if n < 0 then "-" + NatToString(-n) else NatToString(n)
  }

  const RoutePrefix := "https://www.google.com/maps/dir/?api=1&destination="
  const RouteSuffix := "&travelmode=driving"
  const SearchPrefix := "https://www.google.com/maps/search/?api=1&query="

  /** `"lat,lng"` with the numbers rendered by `show`. */
  function PointText(p: (real, real), show: real -> string): string {
    show(p.0) + "," + show(p.1)
  }

  function PointTexts(ps: seq<(real, real)>, show: real -> string): (r: seq<string>)
    ensures |r| == |ps|
  {
    seq(|ps|, i requires 0 <= i < |ps| => PointText(ps[i], show))
  }

  /** The link's text; `show` is Python's rendering of a float, which the model does not fix. */
  function LinkText(link: MapLink, show: real -> string): string {
    match link
    case RouteLink(lat, lng, waypoints) =>
      RoutePrefix + PointText((lat, lng), show)
      + (if waypoints != [] then "&waypoints=" + Join(PointTexts(waypoints, show), '|') else "")
      + RouteSuffix
    case SearchLink(lat, lng, zoom) =>
      SearchPrefix + PointText((lat, lng), show) + "&zoom=" + IntToString(zoom)
  }

  /** A text made of three parts starts with the first, ends with the last, and holds the middle between them. */
  lemma Framed(head: string, middle: string, tail: string)
    ensures StartsWith(head + middle + tail, head)
    ensures EndsWith(head + middle + tail, tail)
    ensures StartsWith((head + middle + tail)[|head|..], middle)
  {
    var text := head + middle + tail;
    assert text[..|head|] == head;
    assert text[|text| - |tail|..] == tail;
    assert text[|head|..][..|middle|] == middle;
  }

  /**
   * A route link starts at the directions endpoint with its destination and
   * ends with the driving mode, with the waypoint list between them exactly
   * when there are waypoints.
   */
  lemma RouteTextSpec(link: MapLink, show: real -> string)
    requires link.RouteLink?
    ensures var text := LinkText(link, show);
      var head := RoutePrefix + PointText((link.destLat, link.destLng), show);
      && StartsWith(text, head)
      && EndsWith(text, RouteSuffix)
      && (link.waypoints == [] <==> |text| == |head| + |RouteSuffix|)
      && (link.waypoints != [] ==> StartsWith(text[|head|..], "&waypoints="))
  {
    var head := RoutePrefix + PointText((link.destLat, link.destLng), show);
    if link.waypoints != [] {
      var list := Join(PointTexts(link.waypoints, show), '|');
      Framed(head, "&waypoints=" + list, RouteSuffix);
      Framed("&waypoints=", list, "");
    } else {
      Framed(head, "", RouteSuffix);
    }
  }

  /** A search link starts at the search endpoint and ends with the zoom. */
  lemma SearchTextSpec(link: MapLink, show: real -> string)
    requires link.SearchLink?
    ensures StartsWith(LinkText(link, show), SearchPrefix)
    ensures EndsWith(LinkText(link, show), "&zoom=" + IntToString(link.zoom))
  {
    Framed(SearchPrefix, PointText((link.lat, link.lng), show), "&zoom=" + IntToString(link.zoom));
  }

  /** A saved marker: a missing title becomes "Location", a missing address "". */
  function Structured(m: MarkerIn): MapMarker {
    MapMarker(m.lat, m.lng, m.title.GetOr("Location"), m.address.GetOr(""))
  }

  /** `f"{x}"` of a possibly missing coordinate. */
  function OptText(x: Option<real>, show: real -> string): string {
    if x.Some? then show(x.value) else "None"
  }

  /** The `n`-th summary line, numbered from 1; here a missing title becomes "Location n". */
  function SummaryLine(n: nat, m: MarkerIn, show: real -> string): string {
    NatToString(n) + ". " + m.title.GetOr("Location " + NatToString(n)) + " (" + OptText(m.lat, show) + ", " + OptText(m.lng, show) + ")"
  }

  /** Summary lines are numbered 1, 2, ... in marker order: each line's leading digits read back as its position. */
  lemma SummaryNumbered(markers: seq<MarkerIn>, show: real -> string, i: nat)
    requires i < |markers|
    ensures var line := SummaryLine(i + 1, markers[i], show);
      var digits := NatToString(i + 1);
      && StartsWith(line, digits + ". ")
      && DigitsValue(digits) == i + 1
  {
    var line := SummaryLine(i + 1, markers[i], show);
    var digits := NatToString(i + 1);
    assert line[..|digits| + 2] == digits + ". ";
    NatToStringRoundTrip(i + 1);
  }

  /** What the tool saves under "map_data". */
  datatype MapData = MapData(centerLat: real, centerLng: real, zoom: int, markers: seq<MapMarker>, mapUrl: string)

  /** What the tool reports. */
  datatype MapReport = MapReport(
    message: string, mapUrl: string, centerLat: real, centerLng: real, zoom: int,
    markers: seq<MapMarker>, markerSummary: seq<string>, instruction: string)

  /** The link, with the waypoints gathered by the loop over `markers[1:9]`. */
  method BuildLink(centerLat: real, centerLng: real, zoom: int, ms: seq<MarkerIn>) returns (link: MapLink)
    ensures link == LinkFor(centerLat, centerLng, zoom, ms)
  {
    if |ms| > 0 {
      var window := WaypointWindow(ms);
      var waypoints: seq<(real, real)> := [];
      for i := 0 to |window|
        invariant waypoints == Points(Filter(window[..i], Locatable))
      {
        assert window[..i + 1][..i] == window[..i];
        var marker := window[i];
        if marker.lat.Some? && marker.lat.value != 0.0 && marker.lng.Some? && marker.lng.value != 0.0 {
          waypoints := waypoints + [(marker.lat.value, marker.lng.value)];
        }
      }
      assert window[..|window|] == window;
      link := RouteLink(ms[0].lat.GetOr(centerLat), ms[0].lng.GetOr(centerLng), waypoints);
    } else {
      link := SearchLink(centerLat, centerLng, zoom);
    }
  }

  /** `structured_markers`: one saved marker per input marker, in order. */
  method StructuredMarkers(ms: seq<MarkerIn>) returns (structured: seq<MapMarker>)
    ensures |structured| == |ms|
    ensures forall i :: 0 <= i < |ms| ==> structured[i] == Structured(ms[i])
  {
    structured := [];
    for i := 0 to |ms|
      invariant |structured| == i
      invariant forall j :: 0 <= j < i ==> structured[j] == Structured(ms[j])
    {
      structured := structured + [MapMarker(ms[i].lat, ms[i].lng, ms[i].title.GetOr("Location"), ms[i].address.GetOr(""))];
    }
  }

  /** `marker_summary`: one line per marker, numbered from 1. */
  method MarkerSummary(ms: seq<MarkerIn>, show: real -> string) returns (summary: seq<string>)
    ensures |summary| == |ms|
    ensures forall i :: 0 <= i < |ms| ==> summary[i] == SummaryLine(i + 1, ms[i], show)
  {
    summary := [];
    for i := 0 to |ms|
      invariant |summary| == i
      invariant forall j :: 0 <= j < i ==> summary[j] == SummaryLine(j + 1, ms[j], show)
    {
      summary := summary + [SummaryLine(i + 1, ms[i], show)];
    }
  }

  /**
   * `generate_map`: builds the link, the saved markers and the numbered
   * summary, saves the map data under "map_data" and reports. A missing
   * marker list is treated as an empty one.
   */
  method GenerateMap(ctx: ToolContext, centerLat: real, centerLng: real, zoom: int,
                     markers: Option<seq<MarkerIn>>, show: real -> string)
    returns (report: MapReport)
    modifies ctx
    ensures var ms := markers.GetOr([]);
      && report.mapUrl == LinkText(LinkFor(centerLat, centerLng, zoom, ms), show)
      && |report.markers| == |ms|
      && (forall i :: 0 <= i < |ms| ==> report.markers[i] == Structured(ms[i]))
      && |report.markerSummary| == |ms|
      && (forall i :: 0 <= i < |ms| ==> report.markerSummary[i] == SummaryLine(i + 1, ms[i], show))
      && report.message == "Generated map with " + NatToString(|ms|) + " marker(s)"
      && report.instruction == "View map: " + report.mapUrl
      && report.centerLat == centerLat && report.centerLng == centerLng && report.zoom == zoom
    ensures ctx.state == old(ctx.state)["map_data" :=
      SavedMap(MapData(centerLat, centerLng, zoom, report.markers, report.mapUrl))]
  {
    var ms := markers.GetOr([]);
    var link := BuildLink(centerLat, centerLng, zoom, ms);
    var mapUrl := LinkText(link, show);
    var structured := StructuredMarkers(ms);
    ctx.state := ctx.state["map_data" := SavedMap(MapData(centerLat, centerLng, zoom, structured, mapUrl))];
    var summary := MarkerSummary(ms, show);
    report := MapReport("Generated map with " + NatToString(|ms|) + " marker(s)", mapUrl, centerLat, centerLng, zoom,
                        structured, summary, "View map: " + mapUrl);
  }

  // ---------------------------------------------------------------------------
  // query_historical_weather

  /** One daily observation row. */
  datatype Observation = Observation(
    date: string, temperature: Option<real>, maxTemp: Option<real>, minTemp: Option<real>,
    precipitation: Option<real>, snowDepth: Option<real>, windSpeed: Option<real>, maxWindSpeed: Option<real>)

  /** What the tool saves under "historical_weather". */
  datatype HistoryRecord = HistoryRecord(usafId: string, records: seq<Observation>, count: nat)

  datatype HistoryReport =
    | HistoryFound(usafId: string, records: seq<Observation>, count: nat, stationTried: nat, totalStations: nat)
    | HistoryMissing(message: string, stationsTried: seq<string>)

  /** A station's query came back with at least one row. */
  predicate HasRecords(r: Reply<seq<Observation>>) {
    r.Replied? && r.body != []
  }

  /** The position of the first station, from `from` on, whose query has rows. */
  function FirstWithRecords(ids: seq<string>, query: string -> Reply<seq<Observation>>, from: nat): (k: Option<nat>)
    requires from <= |ids|
    ensures k.Some? ==> from <= k.value < |ids| && HasRecords(query(ids[k.value]))
    ensures k.Some? ==> forall j :: from <= j < k.value ==> !HasRecords(query(ids[j]))
    ensures k.None? ==> forall j :: from <= j < |ids| ==> !HasRecords(query(ids[j]))
    decreases |ids| - from
  {
    if from == |ids| then None
    else if HasRecords(query(ids[from])) then Some(from)
    else FirstWithRecords(ids, query, from + 1)
  }

  function MissingText(stations: nat): string {
    "Failed to retrieve data from any of the " + NatToString(stations) + " nearest weather stations"
  }

  /**
   * `query_historical_weather`: tries the stations in order; the first whose
   * query brings rows is reported with its 1-based position and saved under
   * "historical_weather"; a station whose query raises or brings nothing is
   * skipped; when none has rows, the error lists every station tried and
   * nothing is saved.
   */
  method QueryHistoricalWeather(ctx: ToolContext, usafIds: seq<string>, query: string -> Reply<seq<Observation>>)
    returns (result: HistoryReport)
    modifies ctx
    ensures FirstWithRecords(usafIds, query, 0).None? ==>
      result == HistoryMissing(MissingText(|usafIds|), usafIds) && ctx.state == old(ctx.state)
    ensures FirstWithRecords(usafIds, query, 0).Some? ==>
      var k := FirstWithRecords(usafIds, query, 0).value;
      var records := query(usafIds[k]).body;
      && result == HistoryFound(usafIds[k], records, |records|, k + 1, |usafIds|)
      && ctx.state == old(ctx.state)["historical_weather" := SavedHistory(HistoryRecord(usafIds[k], records, |records|))]
  {
    for idx := 0 to |usafIds|
      invariant FirstWithRecords(usafIds, query, 0) == FirstWithRecords(usafIds, query, idx)
      invariant ctx.state == old(ctx.state)
    {
      var reply := query(usafIds[idx]);
      if reply.Raised? {
        continue;
      }
      var records := reply.body;
      if records != [] {
        ctx.state := ctx.state["historical_weather" := SavedHistory(HistoryRecord(usafIds[idx], records, |records|))];
        return HistoryFound(usafIds[idx], records, |records|, idx + 1, |usafIds|);
      }
    }
    result := HistoryMissing(MissingText(|usafIds|), usafIds);
  }

  // ---------------------------------------------------------------------------
  // get_census_demographics

  /** Two-letter state codes (and DC) and their FIPS codes. */
  const StateFips: map<string, string> := map[
    "AL" := "01", "AK" := "02", "AZ" := "04", "AR" := "05", "CA" := "06", "CO" := "08", "CT" := "09",
    "DE" := "10", "DC" := "11", "FL" := "12", "GA" := "13", "HI" := "15", "ID" := "16", "IL" := "17",
    "IN" := "18", "IA" := "19", "KS" := "20", "KY" := "21", "LA" := "22", "ME" := "23", "MD" := "24",
    "MA" := "25", "MI" := "26", "MN" := "27", "MS" := "28", "MO" := "29", "MT" := "30", "NE" := "31",
    "NV" := "32", "NH" := "33", "NJ" := "34", "NM" := "35", "NY" := "36", "NC" := "37", "ND" := "38",
    "OH" := "39", "OK" := "40", "OR" := "41", "PA" := "42", "RI" := "44", "SC" := "45", "SD" := "46",
    "TN" := "47", "TX" := "48", "UT" := "49", "VT" := "50", "VA" := "51", "WA" := "53", "WV" := "54",
    "WI" := "55", "WY" := "56"]

  /** `state_fips.get(state.upper())`. */
  function FipsFor(state: string): Option<string> {
    var code := Upper(state);
    if code in StateFips then Some(StateFips[code]) else None
  }

  lemma UpperLowerChar(c: char)
    ensures UpperChar(LowerChar(c)) == UpperChar(c)
  {
  }

  /** Upper-casing forgets how the letters were written. */
  lemma {:induction false} UpperOfLower(s: string)
    ensures Upper(Lower(s)) == Upper(s)
    decreases |s|
  {
    forall i | 0 <= i < |s|
      ensures Upper(Lower(s))[i] == Upper(s)[i]
    {
      UpperLowerChar(s[i]);
    }
  }

  /** The state code is matched without regard to case. */
  lemma FipsIgnoresCase(state: string)
    ensures FipsFor(Lower(state)) == FipsFor(state)
  {
    UpperOfLower(state);
  }

  /** One census tract row, reduced to its identifier and the fields the totals and averages read. */
  datatype Tract = Tract(
    geoId: string, population: Option<real>, medianAge: Option<real>, medianIncome: Option<real>,
    housingUnits: Option<real>, households: Option<real>)

  /** `sum(f(t) for t in tracts)`. */
  function SumOf(tracts: seq<Tract>, f: Tract -> real): real
    decreases |tracts|
  {
    if tracts == [] then 0.0 else SumOf(tracts[..|tracts| - 1], f) + f(tracts[|tracts| - 1])
  }

  function PopulationOf(t: Tract): real { t.population.GetOr(0.0) }
  function HouseholdsOf(t: Tract): real { t.households.GetOr(0.0) }
  function MedianAgeOf(t: Tract): real { t.medianAge.GetOr(0.0) }
  function MedianIncomeOf(t: Tract): real { t.medianIncome.GetOr(0.0) }

  /** Summing a concatenation sums the parts. */
  lemma {:induction false} SumOfConcat(a: seq<Tract>, b: seq<Tract>, f: Tract -> real)
    ensures SumOf(a + b, f) == SumOf(a, f) + SumOf(b, f)
    decreases |b|
  {
    if b != [] {
      var n := |b| - 1;
      assert (a + b)[..|a + b| - 1] == a + b[..n];
      assert (a + b)[|a + b| - 1] == b[n];
      SumOfConcat(a, b[..n], f);
    } else {
      assert a + b == a;
    }
  }

  predicate HasPopulation(t: Tract) { t.population.Some? }
  predicate HasHouseholds(t: Tract) { t.households.Some? }

  /** Tracts on which `f` is 0 add nothing: the sum is that over the tracts `has` keeps. */
  lemma {:induction false} MissingAddsNothing(tracts: seq<Tract>, has: Tract -> bool, f: Tract -> real)
    requires forall t :: !has(t) ==> f(t) == 0.0
    ensures SumOf(tracts, f) == SumOf(Filter(tracts, has), f)
    decreases |tracts|
  {
    if tracts != [] {
      var n := |tracts| - 1;
      MissingAddsNothing(tracts[..n], has, f);
      var kept := Filter(tracts[..n], has);
      if has(tracts[n]) {
        assert Filter(tracts, has) == kept + [tracts[n]];
        SumOfConcat(kept, [tracts[n]], f);
        assert SumOf([tracts[n]], f) == f(tracts[n]) by {
          assert [tracts[n]][..0] == [];
        }
      } else {
        assert Filter(tracts, has) == kept;
      }
    }
  }

  /** What the tool saves under "census_demographics" and reports as its data. */
  datatype CensusSummary =
    | CensusFound(city: string, state: string, totalPopulation: real, totalHouseholds: real,
                  avgMedianAge: real, avgMedianIncome: real, censusTracts: nat, tracts: seq<Tract>)
    | CensusEmpty(city: string, state: string, message: string)

  function InvalidStateText(state: string): string {
    "Invalid state abbreviation: " + state + ". Please use 2-letter state code (e.g., CA, TX, NY)"
  }

  /** The summary of the tracts the query returned. */
  function SummaryOf(city: string, state: string, tracts: seq<Tract>): CensusSummary {
    if tracts == [] then
      CensusEmpty(city, state, "No census data found for " + city + ", " + state + ". Try searching by county name instead.")
    else
      CensusFound(city, state, SumOf(tracts, PopulationOf), SumOf(tracts, HouseholdsOf),
                  SumOf(tracts, MedianAgeOf) / |tracts| as real, SumOf(tracts, MedianIncomeOf) / |tracts| as real,
                  |tracts|, tracts)
  }

  /** The loop over the rows: keeps each tract and totals population and households, a missing one as 0. */
  method CollectTracts(rows: seq<Tract>) returns (demographics: seq<Tract>, totalPopulation: real, totalHouseholds: real)
    ensures demographics == rows
    ensures totalPopulation == SumOf(rows, PopulationOf)
    ensures totalHouseholds == SumOf(rows, HouseholdsOf)
  {
    demographics, totalPopulation, totalHouseholds := [], 0.0, 0.0;
    for i := 0 to |rows|
      invariant demographics == rows[..i]
      invariant totalPopulation == SumOf(demographics, PopulationOf)
      invariant totalHouseholds == SumOf(demographics, HouseholdsOf)
    {
      assert rows[..i + 1][..i] == rows[..i];
      demographics := demographics + [rows[i]];
      totalPopulation := totalPopulation + rows[i].population.GetOr(0.0);
      totalHouseholds := totalHouseholds + rows[i].households.GetOr(0.0);
    }
    assert rows[..|rows|] == rows;
  }

  /** The answer for the looked-up FIPS code (None: the state code is unknown). */
  function CensusOutcome(city: string, state: string, fips: Option<string>, query: string -> Reply<seq<Tract>>)
    : Outcome<CensusSummary>
  {
    if fips.None? then Failure(InvalidStateText(state))
    else
      var reply := query(fips.value);
      if reply.Raised? then Failure("Failed to query census data: " + reply.error)
      else Success(SummaryOf(city, state, reply.body))
  }

  /**
   * An unknown state code is refused whatever the query would answer; for a
   * known one, tracts are summarised with their count, totals and averages,
   * and no tracts give the "no census data" summary.
   */
  lemma CensusOutcomeSpec(city: string, state: string, query: string -> Reply<seq<Tract>>)
    ensures FipsFor(state).None? ==>
      forall q :: CensusOutcome(city, state, FipsFor(state), q) == Failure(InvalidStateText(state))
    ensures FipsFor(state).Some? && query(FipsFor(state).value).Replied? ==>
      var tracts := query(FipsFor(state).value).body;
      var r := CensusOutcome(city, state, FipsFor(state), query);
      && r.Success?
      && (tracts == [] <==> r.value.CensusEmpty?)
      && (tracts != [] ==>
            && r.value.censusTracts == |tracts|
            && r.value.totalPopulation == SumOf(Filter(tracts, HasPopulation), PopulationOf)
            && r.value.totalHouseholds == SumOf(Filter(tracts, HasHouseholds), HouseholdsOf))
  {
    if FipsFor(state).Some? && query(FipsFor(state).value).Replied? {
      var tracts := query(FipsFor(state).value).body;
      MissingAddsNothing(tracts, HasPopulation, PopulationOf);
      MissingAddsNothing(tracts, HasHouseholds, HouseholdsOf);
    }
  }

  /**
   * `get_census_demographics`: an unknown state code is an error before any
   * query is made; otherwise the tracts of the state's FIPS code are totalled
   * (a missing population or household count as 0) and averaged, and the
   * summary is saved under "census_demographics".
   */
  method GetCensusDemographics(ctx: ToolContext, city: string, state: string, query: string -> Reply<seq<Tract>>)
    returns (result: Outcome<CensusSummary>, asked: Option<string>)
    modifies ctx
    ensures asked == FipsFor(state)
    ensures result == CensusOutcome(city, state, asked, query)
    ensures ctx.state == if result.Success? then old(ctx.state)["census_demographics" := SavedCensus(result.value)]
                         else old(ctx.state)
  {
    var stateCode := FipsFor(state);
    if stateCode.None? {
      return Failure(InvalidStateText(state)), None;
    }
    asked := stateCode;
    var reply := query(stateCode.value);
    if reply.Raised? {
      return Failure("Failed to query census data: " + reply.error), asked;
    }
    var demographics, totalPopulation, totalHouseholds := CollectTracts(reply.body);
    var summary: CensusSummary;
    if demographics != [] {
      var n := |demographics| as real;
      summary := CensusFound(city, state, totalPopulation, totalHouseholds,
                             SumOf(demographics, MedianAgeOf) / n, SumOf(demographics, MedianIncomeOf) / n,
                             |demographics|, demographics);
    } else {
      summary := CensusEmpty(city, state, "No census data found for " + city + ", " + state + ". Try searching by county name instead.");
    }
    ctx.state := ctx.state["census_demographics" := SavedCensus(summary)];
    result := Success(summary);
  }

  // ---------------------------------------------------------------------------
  // search_nearby_places

  /** One result of the nearby search, each key None when missing. */
  datatype Place = Place(
    name: Option<string>, vicinity: Option<string>, location: (real, real), placeId: Option<string>,
    types: Option<seq<string>>, rating: Option<real>, openNow: Option<bool>)

  /** One place as the tool lists it. */
  datatype ListedPlace = ListedPlace(
    name: Option<string>, address: Option<string>, location: (real, real), placeId: Option<string>,
    types: seq<string>, rating: Option<real>, openNow: Option<bool>)

  datatype PlacesRequest = PlacesRequest(location: string, radius: int, placeType: string, keyword: Option<string>)
  datatype PlacesAnswer = PlacesAnswer(status: string, results: seq<Place>)

  /** What the tool saves under "nearby_places" and reports. */
  datatype PlacesResult = PlacesResult(
    location: string, placeType: string, radiusMeters: int, keyword: Option<string>, places: seq<ListedPlace>, count: nat)

  const MaxPlaces: nat := 10
  const MissingKeyText := "GOOGLE_MAPS_API_KEY not configured"

  function ListPlace(p: Place): ListedPlace {
    ListedPlace(p.name, p.vicinity, p.location, p.placeId, p.types.GetOr([]), p.rating, p.openNow)
  }

  /** The request sends the keyword only when it is truthy. */
  function PlacesRequestFor(location: string, placeType: string, radius: int, keyword: Option<string>): PlacesRequest {
    PlacesRequest(location, radius, placeType, if TruthyText(keyword) then keyword else None)
  }

  predicate SearchSucceeded(status: string) {
    status == "OK" || status == "ZERO_RESULTS"
  }

  /**
   * `search_nearby_places`: without an API key nothing is asked; a failed
   * request or a status other than OK or ZERO_RESULTS is an error; otherwise
   * the first ten results are listed, counted and saved under "nearby_places".
   */
  method SearchNearbyPlaces(ctx: ToolContext, keyConfigured: bool, location: string, placeType: string, radius: int,
                            keyword: Option<string>, fetch: PlacesRequest -> Reply<PlacesAnswer>)
    returns (result: Outcome<PlacesResult>)
    modifies ctx
    ensures !keyConfigured ==> result == Failure(MissingKeyText) && ctx.state == old(ctx.state)
    ensures keyConfigured ==>
      var reply := fetch(PlacesRequestFor(location, placeType, radius, keyword));
      && (reply.Raised? ==> result == Failure("Failed to search places: " + reply.error))
      && (reply.Replied? && !SearchSucceeded(reply.body.status) ==> result == Failure("Places search failed: " + reply.body.status))
      && (result.Failure? ==> ctx.state == old(ctx.state))
      && (reply.Replied? && SearchSucceeded(reply.body.status) ==>
            && result.Success?
            && result.value.count == |result.value.places| == (if |reply.body.results| < MaxPlaces then |reply.body.results| else MaxPlaces)
            && (forall i :: 0 <= i < result.value.count ==> result.value.places[i] == ListPlace(reply.body.results[i]))
            && result.value == PlacesResult(location, placeType, radius, keyword, result.value.places, result.value.count)
            && ctx.state == old(ctx.state)["nearby_places" := SavedPlaces(result.value)])
  {
    if !keyConfigured {
      return Failure(MissingKeyText);
    }
    var reply := fetch(PlacesRequestFor(location, placeType, radius, keyword));
    if reply.Raised? {
      return Failure("Failed to search places: " + reply.error);
    }
    if !SearchSucceeded(reply.body.status) {
      return Failure("Places search failed: " + reply.body.status);
    }
    var results := Take(reply.body.results, MaxPlaces);
    var places: seq<ListedPlace> := [];
    for i := 0 to |results|
      invariant |places| == i
      invariant forall j :: 0 <= j < i ==> places[j] == ListPlace(results[j])
    {
      places := places + [ListPlace(results[i])];
    }
    var found := PlacesResult(location, placeType, radius, keyword, places, |places|);
    ctx.state := ctx.state["nearby_places" := SavedPlaces(found)];
    result := Success(found);
  }

  // ---------------------------------------------------------------------------
  // get_directions

  /** One step of a leg; the tool copies its instruction and texts. */
  datatype Step = Step(instruction: string, distance: string, duration: string)

  datatype Leg = Leg(
    distanceText: string, distanceMeters: int, durationText: string, durationSeconds: int,
    startAddress: string, endAddress: string, steps: seq<Step>)

  datatype RouteAnswer = RouteAnswer(summary: Option<string>, legs: seq<Leg>)

  /** One route as the tool lists it: its first leg, with at most five steps. */
  datatype Route = Route(
    summary: string, distance: string, distanceMeters: int, duration: string, durationSeconds: int,
    startAddress: string, endAddress: string, steps: seq<Step>)

  datatype DirectionsRequest = DirectionsRequest(origin: string, destination: string, mode: string, alternatives: bool)
  datatype DirectionsAnswer = DirectionsAnswer(status: string, routes: seq<RouteAnswer>)

  /** What the tool saves under "directions" and reports. */
  datatype DirectionsResult = DirectionsResult(origin: string, destination: string, mode: string, routes: seq<Route>)

  const MaxSteps: nat := 5
  /** Python's message for `route["legs"][0]` on an empty list. */
  const NoLegText := "list index out of range"

  function ListRoute(r: RouteAnswer): (route: Route)
    requires r.legs != []
    ensures |route.steps| <= MaxSteps && route.steps <= r.legs[0].steps
  {
    var leg := r.legs[0];
    Route(r.summary.GetOr("Route"), leg.distanceText, leg.distanceMeters, leg.durationText, leg.durationSeconds,
          leg.startAddress, leg.endAddress, Take(leg.steps, MaxSteps))
  }

  predicate AllHaveLegs(routes: seq<RouteAnswer>) {
    forall i :: 0 <= i < |routes| ==> routes[i].legs != []
  }

  /**
   * `get_directions`: without an API key nothing is asked; a failed request,
   * a status other than OK, or a route without legs is an error; otherwise
   * every route is listed by its first leg, cut to five steps, and the result
   * is saved under "directions".
   */
  method GetDirections(ctx: ToolContext, keyConfigured: bool, origin: string, destination: string, mode: string,
                       alternatives: bool, fetch: DirectionsRequest -> Reply<DirectionsAnswer>)
    returns (result: Outcome<DirectionsResult>)
    modifies ctx
    ensures !keyConfigured ==> result == Failure(MissingKeyText) && ctx.state == old(ctx.state)
    ensures keyConfigured ==>
      var reply := fetch(DirectionsRequest(origin, destination, mode, alternatives));
      && (reply.Raised? ==> result == Failure("Failed to get directions: " + reply.error))
      && (reply.Replied? && reply.body.status != "OK" ==> result == Failure("Directions failed: " + reply.body.status))
      && (reply.Replied? && reply.body.status == "OK" && !AllHaveLegs(reply.body.routes) ==>
            result == Failure("Failed to get directions: " + NoLegText))
      && (result.Failure? ==> ctx.state == old(ctx.state))
      && (reply.Replied? && reply.body.status == "OK" && AllHaveLegs(reply.body.routes) ==>
            && result.Success?
            && result.value.origin == origin && result.value.destination == destination && result.value.mode == mode
            && |result.value.routes| == |reply.body.routes|
            && (forall i :: 0 <= i < |reply.body.routes| ==> result.value.routes[i] == ListRoute(reply.body.routes[i]))
            && ctx.state == old(ctx.state)["directions" := SavedDirections(result.value)])
  {
    if !keyConfigured {
      return Failure(MissingKeyText);
    }
    var reply := fetch(DirectionsRequest(origin, destination, mode, alternatives));
    if reply.Raised? {
      return Failure("Failed to get directions: " + reply.error);
    }
    if reply.body.status != "OK" {
      return Failure("Directions failed: " + reply.body.status);
    }
    var answers := reply.body.routes;
    var routes: seq<Route> := [];
    for i := 0 to |answers|
      invariant |routes| == i
      invariant forall j :: 0 <= j < i ==> answers[j].legs != [] && routes[j] == ListRoute(answers[j])
    {
      if answers[i].legs == [] {
        return Failure("Failed to get directions: " + NoLegText);
      }
      routes := routes + [ListRoute(answers[i])];
    }
    var found := DirectionsResult(origin, destination, mode, routes);
    ctx.state := ctx.state["directions" := SavedDirections(found)];
    result := Success(found);
  }
}
