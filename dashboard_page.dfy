/**
 * The dashboard page's state and handlers. The page keeps an alerts panel
 * (the alerts list, the agent's text, the map markers and centre), the
 * location filter (a region or a state), the severe-events carousel and the
 * risk-analysis modal; each handler updates them in place, as React's state
 * setters do.
 *
 * Every backend call is a parameter: the alerts loaders are given the reply
 * for a location, the events loader the events reply, and the risk handler
 * the analysis reply. A handler runs to completion before the next one.
 */
module DashboardPage {
  import opened Wrappers
  import opened Geo
  import Tour
  import opened DashboardParse
  import opened DashboardAlerts

  /** A card in the severe-events carousel: a parsed event or, from the tour fixture, an NWS alert. */
  datatype Card = EventCard(event: SevereEvent) | AlertCard(alert: Alert)

  /** What `api.getSevereWeatherEvents` brings back: the two sections' text, or a failure (a null reply included). */
  datatype EventsCall = EventsResponded(hurricanes: Option<string>, alerts: Option<string>) | EventsFailed

  /** What `api.analyzeRisk` brings back. */
  datatype RiskReply = RiskAnswered(analysis: string) | RiskFailed

  /** What the risk modal shows: the backend's analysis, the demo fixture, or an error. */
  datatype RiskView = Analysis(text: string) | MockAnalysis | AnalysisError(message: string)

  const RiskFailedText := "Failed to analyze risk. Please try again."
  const SelectStateText := "Please select a state"

  function EventCards(events: seq<SevereEvent>): (cards: seq<Card>)
    ensures |cards| == |events|
    ensures forall i :: 0 <= i < |events| ==> cards[i] == EventCard(events[i])
  {
    seq(|events|, i requires 0 <= i < |events| => EventCard(events[i]))
  }

  function AlertCards(alerts: seq<Alert>): (cards: seq<Card>)
    ensures |cards| == |alerts|
    ensures forall i :: 0 <= i < |alerts| ==> cards[i] == AlertCard(alerts[i])
  {
    seq(|alerts|, i requires 0 <= i < |alerts| => AlertCard(alerts[i]))
  }

  // ---------------------------------------------------------------------------
  // The tour fixture

  const FixtureAlerts: seq<Alert> := [
    Alert("1", "Hurricane Warning", "Extreme", "Coastal Florida", "Category 4 Hurricane Milton approaching Gulf Coast"),
    Alert("2", "Tornado Watch", "Severe", "Central Texas", "Tornado Watch in effect until 10:00 PM CDT"),
    Alert("3", "Flash Flood Warning", "Severe", "Los Angeles County", "Flash Flood Warning for urban areas")
  ]

  const FixtureInsights := "\U{1F6A8} CRITICAL SITUATION: Category 4 Hurricane Milton poses extreme threat to Gulf Coast. "
    + "Immediate evacuation required for coastal zones. Multiple severe weather threats across the nation including "
    + "tornadoes in Texas and flash flooding in California."

  const FixtureMarkers: seq<Marker> := [
    Marker(27.9506, -82.4572, "Tampa Bay - Hurricane Warning", "Tampa, FL - Category 4 Hurricane Milton approaching"),
    Marker(27.7676, -82.6403, "St. Petersburg - Hurricane Warning", "St. Petersburg, FL - Extreme storm surge risk"),
    Marker(28.5383, -81.3792, "Orlando - Tropical Storm Warning", "Orlando, FL - Heavy rain and wind expected"),
    Marker(27.4989, -82.5748, "Bradenton - Hurricane Warning", "Bradenton, FL - Mandatory evacuation in effect"),
    Marker(28.0172, -82.7390, "Tarpon Springs - Hurricane Warning", "Tarpon Springs, FL - Coastal flooding expected")
  ]

  const FixtureCenter := Center(Some(28.5), Some(-82.5))
  const FixtureLocation := "Tampa Bay, Florida"

  /** The tour shows the dashboard fixture with tour and demo on, at the alerts or the map step. */
  predicate FixtureStep(isTourActive: bool, isDemoMode: bool, currentStep: nat) {
    isTourActive && isDemoMode
    && (Tour.StepIdAt(currentStep) == Some("dashboard-alerts") || Tour.StepIdAt(currentStep) == Some("dashboard-map"))
  }

  /** Those are the catalogue's third and fifth steps, and no other. */
  lemma FixtureSteps(isTourActive: bool, isDemoMode: bool, currentStep: nat)
    ensures FixtureStep(isTourActive, isDemoMode, currentStep) <==>
      isTourActive && isDemoMode && (currentStep == 2 || currentStep == 4)
  {
    Tour.CatalogueShape();
    assert Tour.TourSteps[2].id == "dashboard-alerts";
    assert Tour.TourSteps[4].id == "dashboard-map";
  }

  // ---------------------------------------------------------------------------
  // Regions

  /** A region button: its name, the state list it searches, its display name. */
  datatype Region = Region(name: string, value: string, displayName: string)

  const Regions: seq<Region> := [
    Region("National", "all US states", "National"),
    Region("West", "CA,OR,WA,NV,AZ,ID,MT,WY,CO,UT,NM,AK,HI", "Western US"),
    Region("Midwest", "IL,IN,IA,KS,MI,MN,MO,NE,ND,OH,SD,WI", "Midwest US"),
    Region("South", "AL,AR,DE,FL,GA,KY,LA,MD,MS,NC,OK,SC,TN,TX,VA,WV", "Southern US"),
    Region("Northeast", "CT,ME,MA,NH,NJ,NY,PA,RI,VT", "Northeast US")
  ]

  /** `regions.find(r => r.value === value)`. */
  function FindRegion(regions: seq<Region>, value: string): (r: Option<Region>)
    ensures r.Some? ==> r.value in regions && r.value.value == value
    ensures r.None? ==> forall k :: 0 <= k < |regions| ==> regions[k].value != value
    decreases |regions|
  {
    if regions == [] then None
    else if regions[0].value == value then Some(regions[0])
    else
      var r := FindRegion(regions[1..], value);
      assert forall k :: 0 < k < |regions| ==> regions[k] == regions[1..][k - 1];
      r
  }

  /** The location a filter change searches: a region's display name when the value is a region's list, else the value. */
  function DisplayName(filterType: string, value: string): string {
    if filterType == "region" then
      match FindRegion(Regions, value)
      case Some(r) => if r.displayName != [] then r.displayName else value
      case None => value
    else value
  }

  /** Each region's list is shown by its display name; any other value, or a state filter, is searched as given. */
  lemma DisplayNameSpec(filterType: string, value: string)
    ensures filterType == "region" && (exists k :: 0 <= k < |Regions| && Regions[k].value == value) ==>
      exists k :: 0 <= k < |Regions| && Regions[k].value == value && DisplayName(filterType, value) == Regions[k].displayName
    ensures filterType != "region" || (forall k :: 0 <= k < |Regions| ==> Regions[k].value != value) ==>
      DisplayName(filterType, value) == value
  {
    if filterType == "region" {
      var r := FindRegion(Regions, value);
      if r.Some? {
        var k :| 0 <= k < |Regions| && Regions[k] == r.value;
        assert Regions[k].displayName != [];
      }
    }
  }

  // ---------------------------------------------------------------------------
  // The page

  /** The location filter: the searched location, the filter kind, the chosen state and region, the dropdown. */
  datatype Selection = Selection(location: string, filter: string, state: string, region: string, dropdownOpen: bool)

  /** The risk-analysis modal. */
  datatype Modal = Modal(open: bool, selected: Option<Card>, analysis: Option<RiskView>, analyzing: bool)

  /** The carousel: its cards, the events loader's busy flag, the first card shown. */
  datatype Strip = Strip(events: seq<Card>, loadingEvents: bool, index: nat)

  /**
   * The page's state. React keeps each of these values in its own state
   * hook; related hooks are grouped here into one record per part of the
   * page, and a setter becomes an update of one record field.
   */
  class Page {
    var panel: Panel       // alerts, agentResponse, alertMarkers, mapCenter
    var loading: bool      // the alerts loaders' busy flag
    var filters: Selection // location, selectedFilter, selectedState, selectedRegion, isDropdownOpen
    var strip: Strip       // severeEvents, loadingEvents, carouselIndex
    var modal: Modal       // isRiskModalOpen, selectedAlertForAnalysis, riskAnalysis, isAnalyzingRisk

    /** A page over empty storage. */
    constructor ()
      ensures panel == Panel([], "", [], DefaultCenter) && !loading
      ensures filters == Selection("", "", "", "National", false)
      ensures strip == Strip([], false, 0)
      ensures modal == Modal(false, None, None, false)
    {
      panel := Panel([], "", [], DefaultCenter);
      loading := false;
      filters := Selection("", "", "", "National", false);
      strip := Strip([], false, 0);
      modal := Modal(false, None, None, false);
    }

    /** `loadAlerts(currentLocation)`: ignored while loading; otherwise the panel shows the reply's outcome. */
    method LoadAlerts(currentLocation: string, call: AlertsCall)
      modifies this
      ensures old(loading) ==> unchanged(this)
      ensures !old(loading) ==> panel == LoadedPanel(old(panel), currentLocation, call) && !loading
      ensures filters == old(filters) && strip == old(strip) && modal == old(modal)
    {
      if loading {
        return;
      }
      loading := true;
      panel := panel.(alerts := [], agentResponse := "");
      match call {
        case CallFailed =>
          panel := panel.(agentResponse := FailedText);
        case NullResponse =>
          panel := panel.(agentResponse := NoneFoundText(currentLocation));
          // reading `map_data` of the null reply throws
          panel := panel.(agentResponse := FailedText);
        case Responded(r) =>
          if r.alerts.Some? {
            var list := r.alerts.value;
            panel := panel.(alerts := list);
            if |list| > 0 {
              panel := panel.(agentResponse := FoundText(|list|, currentLocation));
              if r.mapData.Some? {
                var md := r.mapData.value;
                var center := CenterOf(md);
                if center.Some? {
                  panel := panel.(center := center.value);
                }
                panel := panel.(markers := AlertMarkers(md));
              } else {
                panel := panel.(markers := []);
              }
            } else {
              panel := panel.(agentResponse := NoneFoundText(currentLocation), markers := []);
            }
          } else {
            panel := panel.(agentResponse := ContentOr(r.content, NoneFoundText(currentLocation)));
            if r.mapData.Some? {
              var md := r.mapData.value;
              var center := CenterOf(md);
              if center.Some? {
                panel := panel.(center := center.value);
              }
              panel := panel.(markers := ContentMarkers(md));
            } else {
              panel := panel.(markers := []);
            }
          }
      }
      loading := false;
    }

    /**
     * `loadNationalSevereAlerts()`: ignored while loading; otherwise asks for
     * each place in turn until a reply lists alerts, and returns the places
     * asked. The panel then holds the top three alerts of that reply and
     * their markers, or nothing.
     */
    method LoadNationalSevereAlerts(reply: string -> AlertsCall) returns (asked: seq<string>)
      modifies this
      ensures old(loading) ==> unchanged(this) && asked == []
      ensures !old(loading) ==>
        asked == AskedPlaces(NationalLocations, reply)
        && panel == NationalPanel(old(panel), LastResponse(NationalLocations, reply, None))
        && !loading
      ensures filters == old(filters) && strip == old(strip) && modal == old(modal)
    {
      asked := [];
      if loading {
        return;
      }
      loading := true;
      var response;
      response, asked := AskInTurn(NationalLocations, reply);
      if response.Some? && HasAlerts(response.value) {
        var top := TopAlerts(response.value.alerts.value);
        panel := panel.(alerts := top, markers := NationalMarkers(response.value.mapData, top));
      } else {
        panel := panel.(alerts := [], markers := []);
      }
      loading := false;
    }

    /** `loadSevereWeatherEvents()`: ignored while loading; a reply replaces the cards with the parsed events, a failure keeps them. */
    method LoadSevereWeatherEvents(call: EventsCall)
      modifies this
      ensures old(strip.loadingEvents) ==> unchanged(this)
      ensures !old(strip.loadingEvents) ==> strip == old(strip).(events := match call
          case EventsResponded(h, a) => EventCards(SevereEvents(h, a))
          case EventsFailed => old(strip.events))
      ensures panel == old(panel) && loading == old(loading) && filters == old(filters) && modal == old(modal)
    {
      if strip.loadingEvents {
        return;
      }
      strip := strip.(loadingEvents := true);
      match call {
        case EventsResponded(h, a) =>
          var events := ParseSevereWeatherEvents(h, a);
          strip := strip.(events := EventCards(events));
        case EventsFailed =>
      }
      strip := strip.(loadingEvents := false);
    }

    /** The first mount of a session: a national search when no alerts were saved, and an events load when no events were. */
    method FirstMount(alertsSaved: bool, savedRegionNational: bool, eventsSaved: bool, call: AlertsCall, eventsCall: EventsCall)
      requires !loading && !strip.loadingEvents
      modifies this
      ensures !alertsSaved ==>
        filters == old(filters).(location := "all US states", filter := "region", region := "National")
        && panel == LoadedPanel(old(panel), "all US states", call)
      ensures alertsSaved ==>
        panel == old(panel) && filters == (if savedRegionNational then old(filters).(region := "National") else old(filters))
      ensures strip == old(strip).(events := if eventsSaved then old(strip.events) else match eventsCall
          case EventsResponded(h, a) => EventCards(SevereEvents(h, a))
          case EventsFailed => old(strip.events))
      ensures !loading && modal == old(modal)
    {
      if !alertsSaved {
        filters := filters.(region := "National", filter := "region", location := "all US states");
        LoadAlerts("all US states", call);
      } else if savedRegionNational {
        filters := filters.(region := "National");
      }
      if !eventsSaved {
        LoadSevereWeatherEvents(eventsCall);
      }
    }

    /** The tour effect: at a fixture step the page shows the fixture alerts, text, filter and map; otherwise nothing changes. */
    method OnTourStep(isTourActive: bool, isDemoMode: bool, currentStep: nat)
      modifies this
      ensures !FixtureStep(isTourActive, isDemoMode, currentStep) ==> unchanged(this)
      ensures FixtureStep(isTourActive, isDemoMode, currentStep) ==>
        strip == old(strip).(events := AlertCards(FixtureAlerts))
        && panel == old(panel).(agentResponse := FixtureInsights, markers := FixtureMarkers, center := FixtureCenter)
        && filters == old(filters).(location := FixtureLocation, region := "South", filter := "region")
        && loading == old(loading)
      ensures modal == old(modal)
    {
      var stepId := Tour.StepIdAt(currentStep);
      if isTourActive && isDemoMode && stepId.Some? {
        if stepId.value == "dashboard-alerts" || stepId.value == "dashboard-map" {
          strip := strip.(events := AlertCards(FixtureAlerts));
          panel := panel.(agentResponse := FixtureInsights);
          filters := filters.(location := FixtureLocation, region := "South", filter := "region");
          panel := panel.(markers := FixtureMarkers, center := FixtureCenter);
          if stepId.value == "risk-analysis" {
            assert false;
          }
        }
      }
    }

    /** Picking a state in the dropdown clears the region and closes the dropdown. */
    method HandleStateSelect(stateCode: string)
      modifies this
      ensures filters == old(filters).(state := stateCode, region := "", dropdownOpen := false)
      ensures panel == old(panel) && loading == old(loading) && strip == old(strip) && modal == old(modal)
    {
      filters := filters.(state := stateCode, region := "", dropdownOpen := false);
    }

    /** Applying the state: without one, only the agent's text asks for it; with one, a state search for it. */
    method HandleApplyState(call: AlertsCall)
      modifies this
      ensures old(filters.state) == "" ==>
        panel == old(panel).(agentResponse := SelectStateText) && filters == old(filters) && loading == old(loading)
      ensures old(filters.state) != "" ==>
        filters == old(filters).(location := old(filters.state), filter := "state", region := "", dropdownOpen := false)
        && (old(loading) ==> panel == old(panel) && loading)
        && (!old(loading) ==> panel == LoadedPanel(old(panel), old(filters.state), call) && !loading)
      ensures strip == old(strip) && modal == old(modal)
    {
      if filters.state == "" {
        panel := panel.(agentResponse := SelectStateText);
        return;
      }
      filters := filters.(region := "", filter := "state", location := filters.state, dropdownOpen := false);
      LoadAlerts(filters.state, call);
    }

    /** Clearing the state clears the region too. */
    method HandleClearState()
      modifies this
      ensures filters == old(filters).(state := "", region := "")
      ensures panel == old(panel) && loading == old(loading) && strip == old(strip) && modal == old(modal)
    {
      filters := filters.(state := "", region := "");
    }

    /** A region button: the region is chosen, the state cleared, and its list searched at once. */
    method HandleSelectRegion(regionName: string, regionStates: string, call: AlertsCall)
      modifies this
      ensures filters == Selection(regionStates, "region", "", regionName, false)
      ensures old(loading) ==> panel == old(panel) && loading
      ensures !old(loading) ==> panel == LoadedPanel(old(panel), regionStates, call) && !loading
      ensures strip == old(strip) && modal == old(modal)
    {
      filters := filters.(region := regionName, state := "", dropdownOpen := false);
      filters := filters.(filter := "region", location := regionStates);
      LoadAlerts(regionStates, call);
    }

    /** `handleFilterChange(filterType, value)`: searches the display name of the value. */
    method HandleFilterChange(filterType: string, value: string, call: AlertsCall)
      modifies this
      ensures filters == old(filters).(location := DisplayName(filterType, value), filter := filterType)
      ensures old(loading) ==> panel == old(panel) && loading
      ensures !old(loading) ==> panel == LoadedPanel(old(panel), DisplayName(filterType, value), call) && !loading
      ensures strip == old(strip) && modal == old(modal)
    {
      var displayName := DisplayName(filterType, value);
      filters := filters.(filter := filterType, location := displayName);
      LoadAlerts(displayName, call);
    }

    /**
     * The Refresh button and the session-expired event: the location, filter,
     * panel and cards are cleared, the map recentred, and both loaders run.
     */
    method ClearAndReload(eventsCall: EventsCall, reply: string -> AlertsCall) returns (asked: seq<string>)
      modifies this
      ensures filters == old(filters).(location := "", filter := "")
      ensures strip == old(strip).(events := if old(strip.loadingEvents) then [] else match eventsCall
          case EventsResponded(h, a) => EventCards(SevereEvents(h, a))
          case EventsFailed => [])
      ensures var cleared := Panel([], "", [], DefaultCenter);
        panel == if old(loading) then cleared else NationalPanel(cleared, LastResponse(NationalLocations, reply, None))
      ensures loading == old(loading) && modal == old(modal)
    {
      filters := filters.(location := "", filter := "");
      panel := Panel([], "", [], DefaultCenter);
      strip := strip.(events := []);
      LoadSevereWeatherEvents(eventsCall);
      asked := LoadNationalSevereAlerts(reply);
    }

    /** The carousel's Previous button. */
    method ClickPrevious()
      requires |strip.events| > EventsPerPage
      modifies this
      ensures strip == old(strip).(index := AfterClick(old(strip.index), |old(strip.events)|, PreviousClick))
      ensures panel == old(panel) && loading == old(loading) && filters == old(filters) && modal == old(modal)
    {
      if !PreviousDisabled(strip.index) {
        strip := strip.(index := PreviousIndex(strip.index));
      }
    }

    /** The carousel's Next button. */
    method ClickNext()
      requires |strip.events| > EventsPerPage
      modifies this
      ensures strip == old(strip).(index := AfterClick(old(strip.index), |old(strip.events)|, NextClick))
      ensures panel == old(panel) && loading == old(loading) && filters == old(filters) && modal == old(modal)
    {
      if !NextDisabled(strip.index, |strip.events|) {
        strip := strip.(index := NextIndex(strip.index, |strip.events|));
      }
    }

    /**
     * The Analyze Risk button of a card: the modal opens on that card and
     * ends showing the demo fixture, the backend's analysis, or the error.
     */
    method HandleAnalyzeRisk(card: Card, isDemoMode: bool, reply: RiskReply)
      modifies this
      ensures modal == Modal(true, Some(card),
        Some(if isDemoMode then MockAnalysis
             else match reply
               case RiskAnswered(text) => Analysis(text)
               case RiskFailed => AnalysisError(RiskFailedText)),
        false)
      ensures panel == old(panel) && loading == old(loading) && filters == old(filters) && strip == old(strip)
    {
      modal := Modal(true, Some(card), None, true);
      if isDemoMode {
        modal := modal.(analysis := Some(MockAnalysis));
      } else {
        match reply {
          case RiskAnswered(text) => modal := modal.(analysis := Some(Analysis(text)));
          case RiskFailed => modal := modal.(analysis := Some(AnalysisError(RiskFailedText)));
        }
      }
      modal := modal.(analyzing := false);
    }
  }

  /**
   * The national loader's `for` loop: asks for each place in turn, keeping the
   * last reply that did not fail, and stops after the first reply that lists
   * alerts. Returns the reply kept and the places asked.
   */
  method AskInTurn(places: seq<string>, reply: string -> AlertsCall) returns (response: Option<AlertsResponse>, asked: seq<string>)
    ensures response == LastResponse(places, reply, None)
    ensures asked == AskedPlaces(places, reply)
  {
    response := None;
    asked := [];
    var i := 0;
    var found := false;
    while i < |places| && !found
      invariant i <= |places|
      invariant asked == places[..i]
      invariant !found ==> response.None? || !HasAlerts(response.value)
      invariant !found ==> LastResponse(places, reply, None) == LastResponse(places[i..], reply, response)
      invariant found ==>
        0 < i && response == LastResponse(places, reply, None) && FirstWithAlerts(places, reply) == Some(i - 1)
      invariant forall k :: 0 <= k < i - 1 || (0 <= k < i && !found) ==> !ListsAlerts(reply(places[k]))
    {
      var place := places[i];
      asked := asked + [place];
      var previous := response;
      match reply(place) {
        case Responded(r) => response := Some(r);
        case NullResponse => response := None;
        case CallFailed =>
      }
      assert places[i..][0] == place && places[i..][1..] == places[i + 1..];
      assert asked == places[..i + 1];
      if response.Some? && HasAlerts(response.value) {
        assert LastResponse(places[i..], reply, previous) == response;
        found := true;
      }
      i := i + 1;
    }
  }

  /** After a national load the alerts shown are the first reply with alerts' top three, or none when no place had any. */
  lemma NationalPanelFromFirst(p: Panel, reply: string -> AlertsCall)
    ensures var q := NationalPanel(p, LastResponse(NationalLocations, reply, None));
      match FirstWithAlerts(NationalLocations, reply)
      case Some(k) =>
        var r := reply(NationalLocations[k]).response;
        q.alerts == TopAlerts(r.alerts.value) && q.markers == NationalMarkers(r.mapData, q.alerts)
      case None => q.alerts == [] && q.markers == []
  {
    LastResponseIsFirst(NationalLocations, reply, None);
  }
}
