/**
 * The dashboard's alert shaping: the severity ranking and top-3 cut of the
 * national loader, the conversion of an alerts reply's `map_data` into map
 * markers, what a reply does to the alerts panel, and the severe-events
 * carousel's paging.
 *
 * A reply's `map_data` is a JSON object; it is modelled as its entries in
 * order, each value reduced to what the page reads from it.
 */
module DashboardAlerts {
  import opened Wrappers
  import opened Text
  import opened Geo
  import opened RankSort

  /** An NWS alert as the backend lists it (the fields the dashboard reads or shows). */
  datatype Alert = Alert(id: string, event: string, severity: string, area: string, headline: string)

  // ---------------------------------------------------------------------------
  // Severity ranking

  /** `severityOrder[s] || 0`: Extreme 4, Severe 3, Moderate 2, Minor 1, anything else 0. */
  function Rank(severity: string): (r: nat)
    ensures r <= MaxRank
  {
    if severity == "Extreme" then 4
    else if severity == "Severe" then 3
    else if severity == "Moderate" then 2
    else if severity == "Minor" then 1
    else 0
  }

  const MaxRank: nat := 4

  function AlertRank(a: Alert): nat {
    Rank(a.severity)
  }

  /** `alerts.sort((a, b) => rank(b) - rank(a))`: the engine's sort is stable. */
  function ByRank(alerts: seq<Alert>): seq<Alert> {
    Descending(alerts, AlertRank, MaxRank)
  }

  /** The national loader keeps the three highest-ranked alerts. */
  const TopCount: nat := 3

  function TopAlerts(alerts: seq<Alert>): (top: seq<Alert>)
    ensures |top| <= TopCount
  {
    var sorted := ByRank(alerts);
    if |sorted| > TopCount then sorted[..TopCount] else sorted
  }

  /** The national sort: a permutation of the alerts, highest rank first, equal ranks in their original order. */
  lemma ByRankSpec(alerts: seq<Alert>)
    ensures multiset(ByRank(alerts)) == multiset(alerts)
    ensures |ByRank(alerts)| == |alerts|
    ensures SortedDown(ByRank(alerts), AlertRank)
    ensures forall k :: 0 <= k <= MaxRank ==> Bucket(ByRank(alerts), AlertRank, k) == Bucket(alerts, AlertRank, k)
  {
    DescendingSpec(alerts, AlertRank, MaxRank);
  }

  /** The kept alerts are the first of the sorted list: as many as there are, up to three. */
  lemma TopAlertsSpec(alerts: seq<Alert>)
    ensures |TopAlerts(alerts)| == if |alerts| < TopCount then |alerts| else TopCount
    ensures TopAlerts(alerts) <= ByRank(alerts)
  {
    ByRankSpec(alerts);
  }

  /** The kept alerts all come from the reply, and none is ranked below an alert left out. */
  lemma TopAlertsOutrank(alerts: seq<Alert>)
    ensures multiset(TopAlerts(alerts)) <= multiset(alerts)
    ensures forall i, j :: 0 <= i < |TopAlerts(alerts)| <= j < |ByRank(alerts)| ==>
      AlertRank(ByRank(alerts)[i]) >= AlertRank(ByRank(alerts)[j])
  {
    var sorted := ByRank(alerts);
    ByRankSpec(alerts);
    var n := |TopAlerts(alerts)|;
    assert TopAlerts(alerts) == sorted[..n];
    SortedPrefix(sorted, AlertRank, n);
  }

  // ---------------------------------------------------------------------------
  // Map data

  /** A `map_data` value, reduced to what the page reads from it. */
  datatype Json =
    | Object(lat: Option<real>, lng: Option<real>, address: Option<string>)  // any object; missing fields are None
    | Array(markers: seq<Marker>)                                          // an array of marker objects
    | Scalar(truthy: bool)                                                 // a number, string or boolean

  /** `map_data`: its entries in order, keys distinct as in any JSON object. */
  type MapData = seq<(string, Json)>

  /** `map_data[key]`, when present. */
  function Lookup(md: MapData, key: string): (r: Option<Json>)
    ensures r.Some? <==> exists i :: 0 <= i < |md| && md[i].0 == key
    ensures r.Some? ==> exists i :: 0 <= i < |md| && md[i] == (key, r.value)
    decreases |md|
  {
    if md == [] then None
    else if md[0].0 == key then Some(md[0].1)
    else
      var r := Lookup(md[1..], key);
      assert forall i :: 0 < i < |md| ==> md[i] == md[1..][i - 1];
      r
  }

  /** JavaScript's `x || fallback` on a number that may be missing: 0 and missing take the fallback. */
  function OrNumber(x: Option<real>, fallback: real): real {
    if x.Some? && x.value != 0.0 then x.value else fallback
  }

  function LatOf(v: Json): Option<real> {
    if v.Object? then v.lat else None
  }

  function LngOf(v: Json): Option<real> {
    if v.Object? then v.lng else None
  }

  /** `{lat: data.lat || 39.8283, lng: data.lng || -98.5795, title: key, address: data.address || ''}`. */
  function EntryMarker(entry: (string, Json)): (m: Marker)
    ensures m.title == entry.0
    ensures m.lat == OrNumber(LatOf(entry.1), DefaultLat) && m.lng == OrNumber(LngOf(entry.1), DefaultLng)
  {
    var (key, v) := entry;
    Marker(OrNumber(LatOf(v), DefaultLat), OrNumber(LngOf(v), DefaultLng), key,
           if v.Object? then v.address.GetOr("") else "")
  }

  /** The keys a located-alerts reply reserves for the map itself. */
  predicate Reserved(key: string) {
    key == "center" || key == "zoom" || key == "map_url"
  }

  /** One marker per entry whose key is not reserved, in entry order. */
  function EntryMarkers(md: MapData): (ms: seq<Marker>)
    ensures |ms| <= |md|
    decreases |md|
  {
    if md == [] then []
    else (if Reserved(md[0].0) then [] else [EntryMarker(md[0])]) + EntryMarkers(md[1..])
  }

  /** One marker per entry, reserved keys included. */
  function AllEntryMarkers(md: MapData): (ms: seq<Marker>)
    ensures |ms| == |md|
    ensures forall i :: 0 <= i < |md| ==> ms[i] == EntryMarker(md[i])
  {
    seq(|md|, i requires 0 <= i < |md| => EntryMarker(md[i]))
  }

  /** The `markers` entry when it is an array. */
  function MarkerArray(md: MapData): Option<seq<Marker>> {
    match Lookup(md, "markers")
    case Some(Array(ms)) => Some(ms)
    case _ => None
  }

  /** The map centre as the page stores it: `[center.lat, center.lng]`, either possibly undefined. */
  datatype Center = Center(lat: Option<real>, lng: Option<real>)

  const DefaultCenter := Center(Some(DefaultLat), Some(DefaultLng))

  /** The new centre, when `map_data.center` is truthy. */
  function CenterOf(md: MapData): Option<Center> {
    match Lookup(md, "center")
    case Some(Object(lat, lng, _)) => Some(Center(lat, lng))
    case Some(Array(_)) => Some(Center(None, None))
    case Some(Scalar(truthy)) => if truthy then Some(Center(None, None)) else None
    case None => None
  }

  /**
   * The markers of a reply that lists alerts: a non-empty `markers` array as
   * it is, otherwise one marker per entry that is not reserved.
   */
  function AlertMarkers(md: MapData): seq<Marker> {
    match MarkerArray(md)
    case Some(ms) => if |ms| > 0 then ms else EntryMarkers(md)
    case None => EntryMarkers(md)
  }

  /** The markers of a reply without an alerts list: any `markers` array, even empty, as it is. */
  function ContentMarkers(md: MapData): seq<Marker> {
    match MarkerArray(md)
    case Some(ms) => ms
    case None => EntryMarkers(md)
  }

  /** Every marker made from entries carries the key of an entry that is not reserved. */
  lemma {:induction false} EntryMarkersTitles(md: MapData)
    ensures forall m :: m in EntryMarkers(md) ==>
      !Reserved(m.title) && exists i :: 0 <= i < |md| && md[i].0 == m.title && m == EntryMarker(md[i])
    decreases |md|
  {
    if md != [] {
      EntryMarkersTitles(md[1..]);
      forall m | m in EntryMarkers(md[1..])
        ensures exists i :: 0 <= i < |md| && md[i].0 == m.title && m == EntryMarker(md[i])
      {
        var i :| 0 <= i < |md[1..]| && md[1..][i].0 == m.title && m == EntryMarker(md[1..][i]);
        assert md[i + 1] == md[1..][i];
      }
    }
  }

  /** Every entry that is not reserved gives a marker, and the order of entries is kept. */
  lemma {:induction false} EntryMarkersComplete(md: MapData, i: nat)
    requires i < |md| && !Reserved(md[i].0)
    ensures EntryMarker(md[i]) in EntryMarkers(md)
    decreases i
  {
    if i > 0 {
      EntryMarkersComplete(md[1..], i - 1);
      assert md[1..][i - 1] == md[i];
    }
  }

  /**
   * When a reply lists alerts and its `markers` array is empty, that array
   * becomes a marker of its own, titled 'markers', at the default position.
   */
  lemma EmptyMarkersBecomeMarker(md: MapData)
    requires Lookup(md, "markers") == Some(Array([]))
    ensures exists m :: m in AlertMarkers(md) && m.title == "markers" && m.lat == DefaultLat && m.lng == DefaultLng
  {
    var i :| 0 <= i < |md| && md[i] == ("markers", Array([]));
    EntryMarkersComplete(md, i);
  }

  // ---------------------------------------------------------------------------
  // Alerts replies

  /** What `api.getAlerts` resolves to. */
  datatype AlertsResponse = AlertsResponse(alerts: Option<seq<Alert>>, content: Option<string>, mapData: Option<MapData>)

  /** The call's outcome: a reply, a null reply, or a rejection. */
  datatype AlertsCall = Responded(response: AlertsResponse) | NullResponse | CallFailed

  /** The alerts panel: the alerts list, the agent's text, the map markers and centre. */
  datatype Panel = Panel(alerts: seq<Alert>, agentResponse: string, markers: seq<Marker>, center: Center)

  const FailedText := "Failed to load alerts. Please try again."

  function FoundText(count: nat, location: string): string {
    "Found " + NatToString(count) + " alerts for " + location + "."
  }

  function NoneFoundText(location: string): string {
    "No active alerts found for " + location + "."
  }

  /** `response?.content || default`: empty or missing content takes the default. */
  function ContentOr(content: Option<string>, fallback: string): string {
    if content.Some? && content.value != [] then content.value else fallback
  }

  function MovedCenter(md: MapData, current: Center): Center {
    CenterOf(md).GetOr(current)
  }

  /**
   * The panel once `loadAlerts(location)` has finished with the given call.
   * The list is cleared as the load starts; a failed or null reply keeps the
   * markers and centre; a null reply fails only after its text was set, so
   * the failure text is what remains.
   */
  function LoadedPanel(p: Panel, location: string, call: AlertsCall): Panel {
    match call
    case CallFailed => Panel([], FailedText, p.markers, p.center)
    case NullResponse => Panel([], FailedText, p.markers, p.center)
    case Responded(r) =>
      if r.alerts.Some? then ListedPanel(p, location, r.alerts.value, r.mapData)
      else UnlistedPanel(p, location, r.content, r.mapData)
  }

  /** A reply with an alerts list: the list, its count, and markers from any map data. */
  function ListedPanel(p: Panel, location: string, list: seq<Alert>, mapData: Option<MapData>): Panel {
    if |list| == 0 then Panel([], NoneFoundText(location), [], p.center)
    else if mapData.None? then Panel(list, FoundText(|list|, location), [], p.center)
    else Panel(list, FoundText(|list|, location), AlertMarkers(mapData.value), MovedCenter(mapData.value, p.center))
  }

  /** A reply without an alerts list: its content, and markers from any map data. */
  function UnlistedPanel(p: Panel, location: string, content: Option<string>, mapData: Option<MapData>): Panel {
    var text := ContentOr(content, NoneFoundText(location));
    if mapData.None? then Panel([], text, [], p.center)
    else Panel([], text, ContentMarkers(mapData.value), MovedCenter(mapData.value, p.center))
  }

  /**
   * A reply that lists alerts shows exactly those alerts and says how many;
   * its markers are the reply's own non-empty `markers` array when it has one.
   */
  lemma LoadedPanelFound(p: Panel, location: string, r: AlertsResponse)
    requires r.alerts.Some? && |r.alerts.value| > 0
    ensures var q := LoadedPanel(p, location, Responded(r));
      && q.alerts == r.alerts.value
      && q.agentResponse == FoundText(|r.alerts.value|, location)
      && (r.mapData.None? ==> q.markers == [] && q.center == p.center)
      && (r.mapData.Some? && MarkerArray(r.mapData.value).Some? && |MarkerArray(r.mapData.value).value| > 0 ==>
            q.markers == MarkerArray(r.mapData.value).value)
  {
  }

  /** A failed load, or a null reply, shows the failure text, empties the list and leaves the map alone. */
  lemma LoadedPanelFailed(p: Panel, location: string, call: AlertsCall)
    requires !call.Responded?
    ensures LoadedPanel(p, location, call) == p.(alerts := [], agentResponse := FailedText)
  {
  }

  /** A reply that carries no `map_data` clears the markers and keeps the centre. */
  lemma LoadedPanelNoMap(p: Panel, location: string, r: AlertsResponse)
    requires r.mapData.None?
    ensures LoadedPanel(p, location, Responded(r)).markers == []
    ensures LoadedPanel(p, location, Responded(r)).center == p.center
  {
  }

  // ---------------------------------------------------------------------------
  // The national loader

  /** The places tried in turn until one reply lists alerts. */
  const NationalLocations: seq<string> := ["United States", "Florida", "Texas", "California", "Louisiana", "North Carolina"]

  predicate HasAlerts(r: AlertsResponse) {
    r.alerts.Some? && |r.alerts.value| > 0
  }

  /** The response variable after trying `places` in turn: a rejected call leaves it as it was. */
  function LastResponse(places: seq<string>, reply: string -> AlertsCall, current: Option<AlertsResponse>): Option<AlertsResponse>
    decreases |places|
  {
    if places == [] then current
    else
      var next := match reply(places[0])
        case Responded(r) => Some(r)
        case NullResponse => None
        case CallFailed => current;
      if next.Some? && HasAlerts(next.value) then next
      else LastResponse(places[1..], reply, next)
  }

  /** A call that came back with a non-empty alerts list. */
  predicate ListsAlerts(c: AlertsCall) {
    c.Responded? && HasAlerts(c.response)
  }

  /** The first place whose reply lists alerts, if any. */
  function FirstWithAlerts(places: seq<string>, reply: string -> AlertsCall): (r: Option<nat>)
    ensures r.Some? ==> r.value < |places| && ListsAlerts(reply(places[r.value]))
    ensures r.Some? ==> forall k :: 0 <= k < r.value ==> !ListsAlerts(reply(places[k]))
    ensures r.None? ==> forall k :: 0 <= k < |places| ==> !ListsAlerts(reply(places[k]))
    decreases |places|
  {
    if places == [] then None
    else if ListsAlerts(reply(places[0])) then Some(0)
    else
      match FirstWithAlerts(places[1..], reply)
      case Some(k) =>
        assert forall j :: 0 < j <= k ==> places[j] == places[1..][j - 1];
        Some(k + 1)
      case None =>
        assert forall j :: 0 < j < |places| ==> places[j] == places[1..][j - 1];
        None
  }

  /** The places asked: every one up to the first whose reply lists alerts, or all of them. */
  function AskedPlaces(places: seq<string>, reply: string -> AlertsCall): (asked: seq<string>)
    ensures asked <= places && (asked == places || |asked| > 0)
    ensures forall k :: 0 <= k < |asked| - 1 ==> !ListsAlerts(reply(places[k]))
    ensures |asked| < |places| ==> ListsAlerts(reply(places[|asked| - 1]))
  {
    match FirstWithAlerts(places, reply)
    case Some(k) => places[..k + 1]
    case None => places
  }

  /** The loop ends holding a reply with alerts exactly when some place had one, and then it is the first such reply. */
  lemma {:induction false} LastResponseIsFirst(places: seq<string>, reply: string -> AlertsCall, current: Option<AlertsResponse>)
    requires current.None? || !HasAlerts(current.value)
    ensures var last := LastResponse(places, reply, current);
      match FirstWithAlerts(places, reply)
      case Some(k) => last == Some(reply(places[k]).response)
      case None => last.None? || !HasAlerts(last.value)
    decreases |places|
  {
    if places != [] {
      var next := match reply(places[0])
        case Responded(r) => Some(r)
        case NullResponse => None
        case CallFailed => current;
      if !(next.Some? && HasAlerts(next.value)) {
        LastResponseIsFirst(places[1..], reply, next);
      }
    }
  }

  /** A kept alert's fallback marker: the default position, titled "event - severity". */
  function FallbackMarker(a: Alert): Marker {
    Marker(DefaultLat, DefaultLng, a.event + " - " + a.severity, "Location unavailable")
  }

  /** `topAlerts.map(...)` for the fallback markers. */
  function FallbackMarkers(top: seq<Alert>): (ms: seq<Marker>)
    ensures |ms| == |top|
    ensures forall i :: 0 <= i < |top| ==> ms[i] == FallbackMarker(top[i])
  {
    seq(|top|, i requires 0 <= i < |top| => FallbackMarker(top[i]))
  }

  /**
   * The national markers: the first three of a non-empty `markers` array, or
   * of all entries with no key reserved; when that leaves none, one fallback
   * marker per kept alert.
   */
  function NationalMarkers(mapData: Option<MapData>, top: seq<Alert>): seq<Marker> {
    var fromMap :=
      if mapData.None? then []
      else match MarkerArray(mapData.value)
        case Some(ms) =>
          if |ms| > 0 then (if |ms| > TopCount then ms[..TopCount] else ms)
          else AllEntryMarkers(if |mapData.value| > TopCount then mapData.value[..TopCount] else mapData.value)
        case None => AllEntryMarkers(if |mapData.value| > TopCount then mapData.value[..TopCount] else mapData.value);
    if |fromMap| == 0 then FallbackMarkers(top) else fromMap
  }

  /**
   * At most three markers. Without usable map data, exactly one fallback
   * marker per kept alert; with a non-empty `map_data`, markers from the map:
   * the head of a non-empty `markers` array, else the first entries, keys
   * `center` and `zoom` included.
   */
  lemma NationalMarkersSpec(mapData: Option<MapData>, top: seq<Alert>)
    requires |top| <= TopCount
    ensures |NationalMarkers(mapData, top)| <= TopCount
    ensures mapData.None? || mapData.value == [] ==> NationalMarkers(mapData, top) == FallbackMarkers(top)
    ensures mapData.Some? && mapData.value != [] ==>
      var ms := NationalMarkers(mapData, top);
      var md := mapData.value;
      ms != [] &&
      if MarkerArray(md).Some? && MarkerArray(md).value != [] then
        var arr := MarkerArray(md).value;
        |ms| == (if |arr| < TopCount then |arr| else TopCount) && ms == arr[..|ms|]
      else
        |ms| == (if |md| < TopCount then |md| else TopCount) && forall i :: 0 <= i < |ms| ==> ms[i] == EntryMarker(md[i])
  {
  }

  /** The panel after the national loader: the top three alerts and their markers, or nothing when no place had alerts. */
  function NationalPanel(p: Panel, found: Option<AlertsResponse>): Panel {
    match found
    case Some(r) =>
      if HasAlerts(r) then
        var top := TopAlerts(r.alerts.value);
        p.(alerts := top, markers := NationalMarkers(r.mapData, top))
      else p.(alerts := [], markers := [])
    case None => p.(alerts := [], markers := [])
  }

  // ---------------------------------------------------------------------------
  // The severe-events carousel

  const EventsPerPage: nat := 3

  /** The Previous button: `Math.max(0, i - 3)`, disabled at 0. */
  function PreviousIndex(i: nat): nat {
    if i >= EventsPerPage then i - EventsPerPage else 0
  }

  predicate PreviousDisabled(i: nat) {
    i == 0
  }

  /** The Next button, shown only with more than three events: `Math.min(len - 3, i + 3)`. */
  function NextIndex(i: nat, len: nat): nat
    requires len > EventsPerPage
  {
    if len - EventsPerPage < i + EventsPerPage then len - EventsPerPage else i + EventsPerPage
  }

  predicate NextDisabled(i: nat, len: nat) {
    i + EventsPerPage >= len
  }

  datatype Click = PreviousClick | NextClick

  /** One click; a disabled button does nothing. */
  function AfterClick(i: nat, len: nat, c: Click): nat
    requires len > EventsPerPage
  {
    match c
    case PreviousClick => if PreviousDisabled(i) then i else PreviousIndex(i)
    case NextClick => if NextDisabled(i, len) then i else NextIndex(i, len)
  }

  function AfterClicks(i: nat, len: nat, clicks: seq<Click>): nat
    requires len > EventsPerPage
    decreases |clicks|
  {
    if clicks == [] then i else AfterClicks(AfterClick(i, len, clicks[0]), len, clicks[1..])
  }

  /** The index can always show a full page: 0 <= i <= len - 3. */
  predicate InRange(i: nat, len: nat) {
    i + EventsPerPage <= len
  }

  /** From any index in range, every sequence of clicks stays in range. */
  lemma {:induction false} ClicksStayInRange(i: nat, len: nat, clicks: seq<Click>)
    requires len > EventsPerPage && InRange(i, len)
    ensures InRange(AfterClicks(i, len, clicks), len)
    decreases |clicks|
  {
    if clicks != [] {
      ClicksStayInRange(AfterClick(i, len, clicks[0]), len, clicks[1..]);
    }
  }

  /** In range, Next is disabled exactly on the last position and Previous exactly on the first. */
  lemma DisabledAtEnds(i: nat, len: nat)
    requires len > EventsPerPage && InRange(i, len)
    ensures NextDisabled(i, len) <==> i == len - EventsPerPage
    ensures PreviousDisabled(i) <==> i == 0
  {
  }

  /** Previous undoes a Next that moved a whole page. */
  lemma PreviousUndoesNext(i: nat, len: nat)
    requires len > EventsPerPage && i + 2 * EventsPerPage <= len
    ensures AfterClick(AfterClick(i, len, NextClick), len, PreviousClick) == i
  {
  }

  /** `severeEvents.slice(i, i + 3)`: the cards shown. */
  function Window<T>(events: seq<T>, i: nat): (w: seq<T>)
    ensures |w| <= EventsPerPage
    ensures i < |events| ==> |w| > 0
  {
    if i >= |events| then []
    else if i + EventsPerPage <= |events| then events[i..i + EventsPerPage]
    else events[i..]
  }

  /** In range, the window is three consecutive cards starting at the index. */
  lemma WindowFull<T>(events: seq<T>, i: nat)
    requires InRange(i, |events|)
    ensures |Window(events, i)| == EventsPerPage
    ensures forall k :: 0 <= k < EventsPerPage ==> Window(events, i)[k] == events[i + k]
  {
  }

  /** The page label "p / n": `floor(i / 3) + 1` of `ceil(len / 3)`. */
  function PageLabel(i: nat, len: nat): (nat, nat) {
    (i / EventsPerPage + 1, (len + EventsPerPage - 1) / EventsPerPage)
  }

  /** "Showing a-b of len": the first and last card numbers. */
  function ShowingRange(i: nat, len: nat): (nat, nat) {
    (i + 1, if i + EventsPerPage < len then i + EventsPerPage else len)
  }
}
