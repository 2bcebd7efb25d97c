/**
 * The dashboard's reading of the severe-weather summary. Storm lines come from
 * the hurricane section, one event per storm. Heat and flood warnings come from
 * the alerts section. At most six events are kept in all.
 */
module DashboardParse {
  import opened Wrappers
  import opened Text

  datatype EventKind = HurricaneEvent | HeatEvent | FloodEvent

  /**
   * The data behind one event card. A hurricane event links to the NHC page,
   * both as its track and its advisory link. It may also carry a wind speed.
   * The `lastUpdate` timestamp is not modelled.
   */
  datatype SevereEvent = SevereEvent(
    kind: EventKind, name: string, location: string, severity: string,
    description: string, fullDescription: string,
    windSpeed: Option<string>, trackUrl: Option<string>)

  const NhcUrl := "https://www.nhc.noaa.gov/"
  const MaxEvents := 6
  const ShortLength := 100

  // ---------------------------------------------------------------------------
  // Descriptions

  /** The card text: the line itself, or its first 100 characters and an ellipsis. */
  function ShortDescription(full: string): (d: string)
    ensures |d| <= ShortLength + 3
    ensures |full| <= ShortLength ==> d == full
    ensures |full| > ShortLength ==> d == full[..ShortLength] + "..."
    ensures d == full || (|d| == ShortLength + 3 && StartsWith(full, d[..ShortLength]) && EndsWith(d, "..."))
  {
    if |full| > ShortLength then full[..ShortLength] + "..." else full
  }

  /** An event's card text is the short form of its full text. */
  predicate Described(e: SevereEvent) {
    e.description == ShortDescription(e.fullDescription)
  }

  // ---------------------------------------------------------------------------
  // Locations

  const States: seq<string> := ["California", "Texas", "Florida", "New York", "Arizona", "Nevada", "Louisiana"]

  /** The first name of the list, from index `i` on, that the text contains (case-sensitive). */
  function FirstNamedFrom(text: string, names: seq<string>, i: nat): (r: Option<string>)
    requires i <= |names|
    ensures r.None? <==> forall k :: i <= k < |names| ==> !Contains(text, names[k])
    ensures r.Some? ==>
      exists k :: i <= k < |names| && names[k] == r.value && Contains(text, names[k])
        && forall m :: i <= m < k ==> !Contains(text, names[m])
    decreases |names| - i
  {
    if i == |names| then None
    else if Contains(text, names[i]) then Some(names[i])
    else FirstNamedFrom(text, names, i + 1)
  }

  /** The state a line is about: the first of the list that it names. */
  function FirstState(text: string): Option<string> {
    FirstNamedFrom(text, States, 0)
  }

  /** `extractLocation`: the list is scanned in order and the first state named wins. */
  method ExtractLocation(text: string) returns (r: Option<string>)
    ensures r == FirstState(text)
  {
    for i := 0 to |States|
      invariant FirstNamedFrom(text, States, i) == FirstState(text)
    {
      if Contains(text, States[i]) {
        return Some(States[i]);
      }
    }
    return None;
  }

  // ---------------------------------------------------------------------------
  // The storm and wind patterns

  /**
   * What `s.match(re)` finds for a pattern without the `g` flag: the match at
   * the first position, from `i` on, where `matchAt` succeeds.
   */
  function Search<T>(s: string, i: nat, matchAt: (string, nat) -> Option<T>): (r: Option<T>)
    ensures r.Some? ==> exists j :: i <= j <= |s| && matchAt(s, j) == r
    decreases |s| + 1 - i
  {
    if i > |s| then None
    else
      match matchAt(s, i)
      case Some(m) => Some(m)
      case None => Search(s, i + 1, matchAt)
  }

  /** The search finds nothing exactly when the pattern matches at no position. */
  lemma {:induction false} SearchNone<T>(s: string, i: nat, matchAt: (string, nat) -> Option<T>)
    ensures Search(s, i, matchAt).None? <==> forall j :: i <= j <= |s| ==> matchAt(s, j).None?
    decreases |s| + 1 - i
  {
    if i <= |s| && matchAt(s, i).None? {
      SearchNone(s, i + 1, matchAt);
    }
  }

  /** The search finds the leftmost position where the pattern matches. */
  lemma {:induction false} SearchLeftmost<T>(s: string, i: nat, matchAt: (string, nat) -> Option<T>)
    ensures Search(s, i, matchAt).Some? ==>
      exists j :: i <= j <= |s| && matchAt(s, j) == Search(s, i, matchAt)
        && forall m :: i <= m < j ==> matchAt(s, m).None?
    decreases |s| + 1 - i
  {
    if i <= |s| && matchAt(s, i).None? {
      SearchLeftmost(s, i + 1, matchAt);
      var r := Search(s, i + 1, matchAt);
      if r.Some? {
        var j :| i + 1 <= j <= |s| && matchAt(s, j) == r && forall m :: i + 1 <= m < j ==> matchAt(s, m).None?;
        assert forall m :: i <= m < j ==> matchAt(s, m).None?;
      }
    }
  }

  /**
   * `(Hurricane|Tropical Storm)\s+(\w+)` with the `i` flag, tried at index `i`.
   * It yields the keyword as written and the storm's word. Both repetitions are
   * greedy, and nothing follows them, so the longest runs are the only match.
   */
  function StormNameAt(s: string, i: nat): (r: Option<(string, string)>)
    ensures r.Some? ==> Lower(r.value.0) == "hurricane" || Lower(r.value.0) == "tropical storm"
    ensures r.Some? ==> r.value.1 != [] && forall k :: 0 <= k < |r.value.1| ==> IsWordChar(r.value.1[k])
  {
    var k := if OccursAtCi(s, "hurricane", i) then 9 else if OccursAtCi(s, "tropical storm", i) then 14 else 0;
    if k == 0 then None
    else
      var ws := RunEnd(s, i + k, Space);
      var we := RunEnd(s, ws, Word);
      if ws == i + k || we == ws then None
      else
        RunElements(s, ws, we, Word);
        Some((s[i..i + k], s[ws..we]))
  }

  /** The storm a line names: the keyword as written and the storm's word. */
  function StormName(line: string): (r: Option<(string, string)>)
    ensures r.Some? ==> r.value.1 != [] && forall k :: 0 <= k < |r.value.1| ==> IsWordChar(r.value.1[k])
  {
    Search(line, 0, StormNameAt)
  }

  /** `(\d+)\s*mph` with the `i` flag, tried at index `i`: the digits. */
  function WindAt(s: string, i: nat): (r: Option<string>)
    ensures r.Some? ==> r.value != [] && forall k :: 0 <= k < |r.value| ==> IsDigit(r.value[k])
  {
    if i > |s| then None
    else
      var d := RunEnd(s, i, Digit);
      if d == i || !OccursAtCi(s, "mph", RunEnd(s, d, Space)) then None
      else
        RunElements(s, i, d, Digit);
        Some(s[i..d])
  }

  /** The wind speed a storm card shows: the leftmost `N mph`, whatever the case of `mph`. */
  function WindSpeed(line: string): (r: Option<string>)
    ensures r.Some? ==> EndsWith(r.value, " mph") && IsDigit(r.value[0])
  {
    match Search(line, 0, WindAt)
    case Some(digits) => Some(digits + " mph")
    case None => None
  }

  /** The trailing run of word characters of a name: the storm's own word. */
  function LastWord(s: string): (w: string)
    ensures |w| <= |s| && w == s[|s| - |w|..]
    ensures forall k :: 0 <= k < |w| ==> IsWordChar(w[k])
  {
    if s == [] || !IsWordChar(s[|s| - 1]) then [] else LastWord(s[..|s| - 1]) + [s[|s| - 1]]
  }

  /** After a separator, the last word of a name is the word appended. */
  lemma {:induction false} LastWordAfter(p: string, w: string)
    requires p != [] && !IsWordChar(p[|p| - 1])
    requires forall k :: 0 <= k < |w| ==> IsWordChar(w[k])
    ensures LastWord(p + w) == w
    decreases |w|
  {
    if w == [] {
      assert p + w == p;
    } else {
      var s := p + w;
      assert s[..|s| - 1] == p + w[..|w| - 1];
      LastWordAfter(p, w[..|w| - 1]);
    }
  }

  // ---------------------------------------------------------------------------
  // The hurricane section

  const SkipPhrases: seq<string> := [
    "hurricane path", "view hurricane", "visualization", "view in google earth",
    "download kmz", "how to view", "forecast cone", "track path"
  ]
  const SkipHeads: seq<string> := ["**View", "**Download", "**How to"]

  /** Lines about the storm map rather than a storm: a phrase of the lower-cased line or a bold heading. */
  predicate Skipped(line: string) {
    ContainsAny(Lower(line), SkipPhrases) || StartsWithAny(Trim(line), SkipHeads)
  }

  /** The case-sensitive test a line passes before the pattern is tried. */
  predicate NamesStorm(line: string) {
    Contains(line, "Hurricane") || Contains(line, "Tropical Storm")
  }

  /** The event of a storm line, from the keyword and word the pattern matched. */
  function StormEvent(keyword: string, word: string, line: string): (e: SevereEvent)
    requires forall k :: 0 <= k < |word| ==> IsWordChar(word[k])
    ensures e.kind.HurricaneEvent? && LastWord(e.name) == word && Described(e)
    ensures e.severity == "Extreme" <==> Contains(Lower(line), "hurricane")
    ensures e.severity == "Severe" <==> !Contains(Lower(line), "hurricane")
  {
    LastWordAfter(keyword + " ", word);
    var full := Trim(line);
    SevereEvent(
      HurricaneEvent, keyword + " " + word, "Atlantic/Pacific",
      if Contains(Lower(line), "hurricane") then "Extreme" else "Severe",
      ShortDescription(full), full, WindSpeed(line), Some(NhcUrl))
  }

  /** What one line of the hurricane section offers before de-duplication: the storm's word and its event. */
  function StormLine(line: string): (r: Option<(string, SevereEvent)>)
    ensures r.None? <==> Skipped(line) || !NamesStorm(line) || StormName(line).None?
    ensures OfferValid(r)
  {
    if Skipped(line) || !NamesStorm(line) then None
    else
      match StormName(line)
      case None => None
      case Some((keyword, word)) => Some((word, StormEvent(keyword, word, line)))
  }

  /** The storms seen so far and the events kept for them. */
  datatype StormScan = StormScan(seen: set<string>, events: seq<SevereEvent>)

  /** A line's offer is taken only when its storm's word has not been seen yet. */
  function Keep(scan: StormScan, offer: Option<(string, SevereEvent)>): StormScan {
    match offer
    case None => scan
    case Some((word, e)) =>
      if word in scan.seen then scan else StormScan(scan.seen + {word}, scan.events + [e])
  }

  /** Lines read in order, each offering at most one storm. */
  function Scan(lines: seq<string>, offerOf: string -> Option<(string, SevereEvent)>): StormScan
    decreases |lines|
  {
    if lines == [] then StormScan({}, [])
    else Keep(Scan(lines[..|lines| - 1], offerOf), offerOf(lines[|lines| - 1]))
  }

  /** The hurricane-section lines read in order. */
  function ScanStorms(lines: seq<string>): StormScan {
    Scan(lines, StormLine)
  }

  /** An offer names a described storm event by its last word. */
  predicate OfferValid(offer: Option<(string, SevereEvent)>) {
    offer.Some? ==>
      offer.value.1.kind.HurricaneEvent? && LastWord(offer.value.1.name) == offer.value.0 && Described(offer.value.1)
  }

  /** Every kept event is a described storm whose word is recorded, and no word is kept twice. */
  predicate StormsValid(scan: StormScan) {
    && (forall k :: 0 <= k < |scan.events| ==>
          scan.events[k].kind.HurricaneEvent? && Described(scan.events[k]) && LastWord(scan.events[k].name) in scan.seen)
    && (forall j, k :: 0 <= j < k < |scan.events| ==> LastWord(scan.events[j].name) != LastWord(scan.events[k].name))
  }

  /** Taking one more offer keeps the scan valid: a new event's word was not recorded before. */
  lemma KeepValid(scan: StormScan, offer: Option<(string, SevereEvent)>)
    requires StormsValid(scan) && OfferValid(offer)
    ensures StormsValid(Keep(scan, offer))
  {
    if offer.Some? && offer.value.0 !in scan.seen {
      var (word, e) := offer.value;
      var events := scan.events + [e];
      var seen := scan.seen + {word};
      assert Keep(scan, offer) == StormScan(seen, events);
      forall k | 0 <= k < |events|
        ensures events[k].kind.HurricaneEvent? && Described(events[k]) && LastWord(events[k].name) in seen
      {
        if k < |scan.events| {
          assert events[k] == scan.events[k];
        }
      }
      forall j, k | 0 <= j < k < |events|
        ensures LastWord(events[j].name) != LastWord(events[k].name)
      {
        assert events[j] == scan.events[j];
        assert LastWord(events[j].name) in scan.seen;
        if k < |scan.events| {
          assert events[k] == scan.events[k];
        } else {
          assert events[k] == e && LastWord(e.name) == word;
        }
      }
    }
  }

  lemma {:induction false} ScanValid(lines: seq<string>, offerOf: string -> Option<(string, SevereEvent)>)
    requires forall line :: OfferValid(offerOf(line))
    ensures StormsValid(Scan(lines, offerOf))
    decreases |lines|
  {
    if lines != [] {
      ScanValid(lines[..|lines| - 1], offerOf);
      KeepValid(Scan(lines[..|lines| - 1], offerOf), offerOf(lines[|lines| - 1]));
    }
  }

  lemma ScanStormsValid(lines: seq<string>)
    ensures StormsValid(ScanStorms(lines))
  {
    ScanValid(lines, StormLine);
  }

  /** The section is read only when it is non-empty and mentions a storm in any case. */
  predicate MentionsStorm(content: string) {
    Contains(Lower(content), "hurricane") || Contains(Lower(content), "tropical storm")
  }

  function HurricaneEvents(content: Option<string>): seq<SevereEvent> {
    if content.Some? && content.value != [] && MentionsStorm(content.value)
    then ScanStorms(Split(content.value, '\n')).events
    else []
  }

  // ---------------------------------------------------------------------------
  // The alerts section

  predicate HeatWarning(line: string) {
    Contains(Lower(line), "heat") && Contains(Lower(line), "warning")
  }

  predicate FloodWarning(line: string) {
    Contains(Lower(line), "flood") && Contains(Lower(line), "warning")
  }

  /** The event a warning line gives: heat and flood events differ only in their name and fallback location. */
  function AlertEvent(kind: EventKind, line: string): (e: SevereEvent)
    requires !kind.HurricaneEvent?
    ensures e.kind == kind && e.severity == "Severe" && Described(e)
  {
    var full := Trim(line);
    var name := if kind.HeatEvent? then "Heat Wave" else "Flood Warning";
    var fallback := if kind.HeatEvent? then "Multiple States" else "Multiple Areas";
    SevereEvent(kind, name, FirstState(line).GetOr(fallback), "Severe", ShortDescription(full), full, None, None)
  }

  /** The events of one alert line: the heat and flood tests are independent, heat first. */
  function AlertLine(line: string): (r: seq<SevereEvent>)
    ensures |r| <= 2
    ensures HeatWarning(line) <==> |r| > 0 && r[0].kind.HeatEvent?
    ensures FloodWarning(line) <==> |r| > 0 && r[|r| - 1].kind.FloodEvent?
  {
    (if HeatWarning(line) then [AlertEvent(HeatEvent, line)] else [])
    + (if FloodWarning(line) then [AlertEvent(FloodEvent, line)] else [])
  }

  /**
   * Every alert event is a 'Severe' heat or flood card whose full text is its
   * trimmed line and whose location is the first state it names, or a fallback.
   */
  lemma AlertLineEvents(line: string)
    ensures forall e :: e in AlertLine(line) ==>
      && !e.kind.HurricaneEvent? && e.severity == "Severe" && Described(e)
      && e.fullDescription == Trim(line)
      && e.location == FirstState(line).GetOr(if e.kind.HeatEvent? then "Multiple States" else "Multiple Areas")
  {
  }

  /** Each line's events, line after line. */
  function ConcatMap(lines: seq<string>, f: string -> seq<SevereEvent>): seq<SevereEvent>
    decreases |lines|
  {
    if lines == [] then [] else ConcatMap(lines[..|lines| - 1], f) + f(lines[|lines| - 1])
  }

  /** Mapping more lines only appends: the events keep the order of their lines. */
  lemma {:induction false} ConcatMapAppend(first: seq<string>, rest: seq<string>, f: string -> seq<SevereEvent>)
    ensures ConcatMap(first + rest, f) == ConcatMap(first, f) + ConcatMap(rest, f)
    decreases |rest|
  {
    if rest == [] {
      assert first + rest == first;
    } else {
      var all := first + rest;
      var init, last := rest[..|rest| - 1], rest[|rest| - 1];
      assert all[..|all| - 1] == first + init;
      assert all[|all| - 1] == last;
      ConcatMapAppend(first, init, f);
      calc {
        ConcatMap(all, f);
        ConcatMap(first + init, f) + f(last);
        (ConcatMap(first, f) + ConcatMap(init, f)) + f(last);
        ConcatMap(first, f) + (ConcatMap(init, f) + f(last));
        ConcatMap(first, f) + ConcatMap(rest, f);
      }
    }
  }

  /** The alert-section lines read in order. */
  function AlertsOf(lines: seq<string>): seq<SevereEvent> {
    ConcatMap(lines, AlertLine)
  }

  /** Every event read from the alerts section is a described 'Severe' card, never a storm. */
  lemma {:induction false} AlertsOfValid(lines: seq<string>)
    ensures forall e :: e in AlertsOf(lines) ==> !e.kind.HurricaneEvent? && e.severity == "Severe" && Described(e)
    decreases |lines|
  {
    if lines != [] {
      AlertsOfValid(lines[..|lines| - 1]);
      AlertLineEvents(lines[|lines| - 1]);
    }
  }

  function AlertEvents(content: Option<string>): seq<SevereEvent> {
    if content.Some? && content.value != [] then AlertsOf(Split(content.value, '\n')) else []
  }

  // ---------------------------------------------------------------------------
  // The whole parse

  /** Storm events, then alert events, cut to the first six. */
  function SevereEvents(hurricanes: Option<string>, alerts: Option<string>): seq<SevereEvent> {
    var all := HurricaneEvents(hurricanes) + AlertEvents(alerts);
    if |all| > MaxEvents then all[..MaxEvents] else all
  }

  /** One line of the hurricane section: its storm is recorded and its event kept unless the storm was seen. */
  method ReadStormLine(seenStorms: set<string>, events: seq<SevereEvent>, line: string)
    returns (seen': set<string>, events': seq<SevereEvent>)
    ensures StormScan(seen', events') == Keep(StormScan(seenStorms, events), StormLine(line))
  {
    seen', events' := seenStorms, events;
    match StormLine(line) {
      case Some((stormName, storm)) =>
        if stormName !in seenStorms {
          seen' := seen' + {stormName};
          events' := events' + [storm];
        }
      case None =>
    }
  }

  /** One line of the alerts section: a heat warning, then a flood warning, each located by `extractLocation`. */
  method ReadAlertLine(line: string) returns (found: seq<SevereEvent>)
    ensures found == AlertLine(line)
  {
    var lowerLine := Lower(line);
    var fullDesc := Trim(line);
    var heat: seq<SevereEvent> := [];
    if Contains(lowerLine, "heat") && Contains(lowerLine, "warning") {
      var location := ExtractLocation(line);
      heat := [SevereEvent(HeatEvent, "Heat Wave", location.GetOr("Multiple States"), "Severe",
                           ShortDescription(fullDesc), fullDesc, None, None)];
      assert heat == [AlertEvent(HeatEvent, line)];
    }
    var flood: seq<SevereEvent> := [];
    if Contains(lowerLine, "flood") && Contains(lowerLine, "warning") {
      var location := ExtractLocation(line);
      flood := [SevereEvent(FloodEvent, "Flood Warning", location.GetOr("Multiple Areas"), "Severe",
                            ShortDescription(fullDesc), fullDesc, None, None)];
      assert flood == [AlertEvent(FloodEvent, line)];
    }
    found := heat + flood;
  }

  /** The hurricane section's loop: every line is read, and a storm already seen adds nothing. */
  method ReadStorms(lines: seq<string>) returns (events: seq<SevereEvent>)
    ensures events == ScanStorms(lines).events
  {
    events := [];
    var seenStorms: set<string> := {};
    for i := 0 to |lines|
      invariant StormScan(seenStorms, events) == ScanStorms(lines[..i])
    {
      assert lines[..i + 1][..i] == lines[..i];
      seenStorms, events := ReadStormLine(seenStorms, events, lines[i]);
    }
    assert lines[..|lines|] == lines;
  }

  /** The alerts section's loop: every line's warnings are appended in turn. */
  method ReadAlerts(lines: seq<string>) returns (events: seq<SevereEvent>)
    ensures events == AlertsOf(lines)
  {
    events := [];
    for i := 0 to |lines|
      invariant events == AlertsOf(lines[..i])
    {
      assert lines[..i + 1][..i] == lines[..i];
      var found := ReadAlertLine(lines[i]);
      events := events + found;
    }
    assert lines[..|lines|] == lines;
  }

  /** `parseSevereWeatherEvents`: the hurricane section, then the alerts section, then the cut to six. */
  method ParseSevereWeatherEvents(hurricanes: Option<string>, alerts: Option<string>) returns (events: seq<SevereEvent>)
    ensures events == SevereEvents(hurricanes, alerts)
  {
    var storms: seq<SevereEvent> := [];
    if hurricanes.Some? && hurricanes.value != [] {
      var hurricaneText := Lower(hurricanes.value);
      if Contains(hurricaneText, "hurricane") || Contains(hurricaneText, "tropical storm") {
        storms := ReadStorms(Split(hurricanes.value, '\n'));
      }
    }
    assert storms == HurricaneEvents(hurricanes);
    var warnings: seq<SevereEvent> := [];
    if alerts.Some? && alerts.value != [] {
      warnings := ReadAlerts(Split(alerts.value, '\n'));
    }
    assert warnings == AlertEvents(alerts);
    events := storms + warnings;
    if |events| > MaxEvents {
      events := events[..MaxEvents];
    }
  }

  // ---------------------------------------------------------------------------
  // Properties of the parse

  /** Storm events are all storms and alert events none. */
  lemma SectionKinds(hurricanes: Option<string>, alerts: Option<string>)
    ensures forall e :: e in HurricaneEvents(hurricanes) ==> e.kind.HurricaneEvent? && Described(e)
    ensures forall e :: e in AlertEvents(alerts) ==> !e.kind.HurricaneEvent? && Described(e)
  {
    if hurricanes.Some? && hurricanes.value != [] && MentionsStorm(hurricanes.value) {
      ScanStormsValid(Split(hurricanes.value, '\n'));
    }
    if alerts.Some? && alerts.value != [] {
      AlertsOfValid(Split(alerts.value, '\n'));
    }
  }

  /** In storm events followed by alert events, an index holds a storm exactly when it falls in the first part. */
  lemma StormsThenAlerts(h: seq<SevereEvent>, a: seq<SevereEvent>)
    requires forall e :: e in h ==> e.kind.HurricaneEvent?
    requires forall e :: e in a ==> !e.kind.HurricaneEvent?
    ensures forall i :: 0 <= i < |h + a| ==> ((h + a)[i].kind.HurricaneEvent? <==> i < |h|)
  {
    forall i | 0 <= i < |h + a|
      ensures (h + a)[i].kind.HurricaneEvent? <==> i < |h|
    {
      if i < |h| {
        assert (h + a)[i] == h[i] && h[i] in h;
      } else {
        assert (h + a)[i] == a[i - |h|] && a[i - |h|] in a;
      }
    }
  }

  /**
   * At most six events survive. They are the first ones of the storm events
   * followed by the alert events, so every storm event comes before every alert event.
   */
  lemma SevereEventsOrder(hurricanes: Option<string>, alerts: Option<string>)
    ensures |SevereEvents(hurricanes, alerts)| <= MaxEvents
    ensures SevereEvents(hurricanes, alerts) <= HurricaneEvents(hurricanes) + AlertEvents(alerts)
    ensures var r := SevereEvents(hurricanes, alerts);
      forall j, k :: 0 <= j < k < |r| && r[k].kind.HurricaneEvent? ==> r[j].kind.HurricaneEvent?
  {
    var h := HurricaneEvents(hurricanes);
    var a := AlertEvents(alerts);
    var r := SevereEvents(hurricanes, alerts);
    SectionKinds(hurricanes, alerts);
    StormsThenAlerts(h, a);
    assert forall i :: 0 <= i < |r| ==> r[i] == (h + a)[i];
  }

  /** The storm section never yields two events for the same storm word. */
  lemma HurricaneEventsDistinct(hurricanes: Option<string>)
    ensures var h := HurricaneEvents(hurricanes);
      forall j, k :: 0 <= j < k < |h| ==> LastWord(h[j].name) != LastWord(h[k].name)
  {
    if hurricanes.Some? && hurricanes.value != [] && MentionsStorm(hurricanes.value) {
      ScanStormsValid(Split(hurricanes.value, '\n'));
    }
  }

  /** A prefix of distinct storms followed by alerts names no storm word twice. */
  lemma DistinctStormsInPrefix(h: seq<SevereEvent>, a: seq<SevereEvent>, r: seq<SevereEvent>)
    requires forall e :: e in h ==> e.kind.HurricaneEvent?
    requires forall e :: e in a ==> !e.kind.HurricaneEvent?
    requires forall j, k :: 0 <= j < k < |h| ==> LastWord(h[j].name) != LastWord(h[k].name)
    requires r <= h + a
    ensures forall j, k :: 0 <= j < k < |r| && r[k].kind.HurricaneEvent? ==> LastWord(r[j].name) != LastWord(r[k].name)
  {
    StormsThenAlerts(h, a);
    forall j, k | 0 <= j < k < |r| && r[k].kind.HurricaneEvent?
      ensures LastWord(r[j].name) != LastWord(r[k].name)
    {
      assert r[k] == (h + a)[k] && r[j] == (h + a)[j];
      assert k < |h|;
      assert (h + a)[k] == h[k] && (h + a)[j] == h[j];
    }
  }

  /** No storm word is reported twice, whatever the keyword in front of it. */
  lemma DistinctStorms(hurricanes: Option<string>, alerts: Option<string>)
    ensures var r := SevereEvents(hurricanes, alerts);
      forall j, k :: 0 <= j < k < |r| && r[k].kind.HurricaneEvent? ==> LastWord(r[j].name) != LastWord(r[k].name)
  {
    SectionKinds(hurricanes, alerts);
    HurricaneEventsDistinct(hurricanes);
    SevereEventsOrder(hurricanes, alerts);
    DistinctStormsInPrefix(HurricaneEvents(hurricanes), AlertEvents(alerts), SevereEvents(hurricanes, alerts));
  }

  /** Every card text is at most 103 characters and is the short form of the card's full text. */
  lemma DescriptionsBounded(hurricanes: Option<string>, alerts: Option<string>)
    ensures forall e :: e in SevereEvents(hurricanes, alerts) ==> Described(e) && |e.description| <= ShortLength + 3
  {
    var h := HurricaneEvents(hurricanes);
    var a := AlertEvents(alerts);
    var r := SevereEvents(hurricanes, alerts);
    SectionKinds(hurricanes, alerts);
    forall e | e in r ensures Described(e) {
      var k :| 0 <= k < |r| && r[k] == e;
      assert e == (h + a)[k];
      if k < |h| {
        assert e in h;
      } else {
        assert e in a;
      }
    }
  }

  /** Reading more alert lines only appends: events keep the order of their lines. */
  lemma AlertsInLineOrder(first: seq<string>, rest: seq<string>)
    ensures AlertsOf(first + rest) == AlertsOf(first) + AlertsOf(rest)
  {
    ConcatMapAppend(first, rest, AlertLine);
  }

  /** Reading more lines only appends: earlier storms keep their events and places. */
  lemma {:induction false} ScanExtends(first: seq<string>, rest: seq<string>, offerOf: string -> Option<(string, SevereEvent)>)
    ensures Scan(first, offerOf).events <= Scan(first + rest, offerOf).events
    ensures Scan(first, offerOf).seen <= Scan(first + rest, offerOf).seen
    decreases |rest|
  {
    if rest == [] {
      assert first + rest == first;
    } else {
      var all := first + rest;
      assert all[..|all| - 1] == first + rest[..|rest| - 1];
      ScanExtends(first, rest[..|rest| - 1], offerOf);
    }
  }

  /** Reading more storm lines only appends: earlier storms keep their events and places. */
  lemma StormsInLineOrder(first: seq<string>, rest: seq<string>)
    ensures ScanStorms(first).events <= ScanStorms(first + rest).events
    ensures ScanStorms(first).seen <= ScanStorms(first + rest).seen
  {
    ScanExtends(first, rest, StormLine);
  }

  /** One warning line naming both heat and flood yields a heat event and then a flood event. */
  lemma HeatAndFloodFromOneLine(line: string)
    requires HeatWarning(line) && FloodWarning(line)
    ensures |AlertLine(line)| == 2
    ensures AlertLine(line)[0].kind.HeatEvent? && AlertLine(line)[1].kind.FloodEvent?
  {
  }
}
