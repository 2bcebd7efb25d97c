/**
 * The hurricane-simulation page: an uploaded satellite image is sent for
 * analysis and the evacuation plan that comes back is shown with one map
 * marker per prioritised location. In demo mode, or when the tour reaches
 * its hurricane step, the page plays a canned upload-and-analysis sequence
 * on timers instead.
 *
 * The timers are a virtual clock (see `Clock`): the sequence is a timeline
 * of effects stamped with their delay from the trigger. The effect's cleanup
 * cancels only the first timer; the later timers are created inside the
 * callbacks, whose returned cleanups React never sees.
 */
module HurricaneSimulation {
  import opened Wrappers
  import opened Clock
  import opened Text
  import Tour
  import ChatPage

  /** One prioritised location of an evacuation plan. */
  datatype PriorityLocation = PriorityLocation(latitude: real, longitude: real, riskScore: real, stationName: Option<string>)

  /** The storm facts the canned result shows. */
  datatype Insights = Insights(
    hurricaneName: string, category: nat, windSpeed: string, location: string,
    landfall: string, stormSurge: string, rainfall: string, summary: string)

  /** An evacuation plan as the page shows it (the fields it reads). */
  datatype Plan = Plan(
    hurricaneCategory: Option<nat>,
    affectedStates: seq<string>,
    totalHighRiskLocations: nat,
    highestRiskScore: Option<real>,
    prioritizedLocations: seq<PriorityLocation>,
    insights: Option<Insights>)

  // ---------------------------------------------------------------------------
  // The canned result

  /**
   * `Math.max(...scores)`: the largest risk score, or None for an empty list
   * (where JavaScript gives -Infinity).
   */
  function HighestScore(locations: seq<PriorityLocation>): (m: Option<real>)
    ensures m.None? <==> locations == []
    ensures m.Some? ==> forall i :: 0 <= i < |locations| ==> locations[i].riskScore <= m.value
    ensures m.Some? ==> exists i :: 0 <= i < |locations| && locations[i].riskScore == m.value
    decreases |locations|
  {
    if locations == [] then None
    else
      var rest := HighestScore(locations[1..]);
      assert forall i :: 1 <= i < |locations| ==> locations[i] == locations[1..][i - 1];
      if rest.None? || locations[0].riskScore >= rest.value then Some(locations[0].riskScore)
      else rest
  }

  /** The canned result: the count and the highest score are computed from the locations it lists. */
  function MockPlan(category: nat, locations: seq<PriorityLocation>, insights: Insights): (p: Plan)
    ensures p.totalHighRiskLocations == |p.prioritizedLocations| && p.prioritizedLocations == locations
    ensures p.highestRiskScore == HighestScore(locations)
  {
    Plan(Some(category), ["FL"], |locations|, HighestScore(locations), locations, Some(insights))
  }

  const FixtureLocations: seq<PriorityLocation> := [
    PriorityLocation(27.7676, -82.6403, 9.8, Some("St. Petersburg Beach")),
    PriorityLocation(27.9506, -82.4572, 9.5, Some("Downtown Tampa")),
    PriorityLocation(27.8643, -82.6318, 9.3, Some("Clearwater Beach")),
    PriorityLocation(27.4989, -82.5748, 8.9, Some("Bradenton Beach")),
    PriorityLocation(28.0172, -82.7390, 8.7, Some("Tarpon Springs"))
  ]

  const FixtureCategory: nat := 4

  const FixtureInsights := Insights(
    "Hurricane Milton", FixtureCategory, "150 mph", "25.5°N, 83.2°W", "Tomorrow 6:00 AM EDT",
    "12-15 feet", "10-15 inches",
    "\U{1F300} CATASTROPHIC HURRICANE MILTON: Category 4 hurricane will make landfall near Tampa Bay in approximately "
    + "18 hours. This is an extremely dangerous, life-threatening situation. Storm surge of 12-15 feet will inundate "
    + "coastal areas. Winds of 150 mph will cause devastating damage. Rainfall of 10-15 inches will cause catastrophic "
    + "flooding. EVACUATE IMMEDIATELY if in Zones A, B, or C. If you cannot evacuate, seek shelter in a sturdy "
    + "interior room away from windows.")

  /** The canned result names five locations, the highest scoring 9.8. */
  lemma FixtureSummary()
    ensures var p := MockPlan(FixtureCategory, FixtureLocations, FixtureInsights);
      p.totalHighRiskLocations == 5 && p.highestRiskScore == Some(9.8)
  {
    var l := FixtureLocations;
    assert l[0].riskScore == 9.8;
    assert forall i :: 0 <= i < |l| ==> l[i].riskScore <= 9.8;
  }

  // ---------------------------------------------------------------------------
  // Map markers

  /**
   * A map marker. The labels are numbers formatted with `toFixed`, which is
   * not modelled; a marker keeps the values its label is made of.
   */
  datatype MapMarker =
    | StationMarker(lat: real, lng: real, station: string, riskScore: real)   // "<station>\nRisk Score: <score>/10"
    | PriorityMarker(lat: real, lng: real, priority: nat, riskScore: real)    // "Priority #<n> - Risk: <score>"

  const UnnamedStation := "High Risk Location"

  /** `details?.station_name || 'High Risk Location'`. */
  function StationLabel(name: Option<string>): string {
    if name.Some? && name.value != [] then name.value else UnnamedStation
  }

  /** The canned sequence's markers: one per location, in order, labelled with its station. */
  function StationMarkers(locations: seq<PriorityLocation>): (ms: seq<MapMarker>)
    ensures |ms| == |locations|
    ensures forall i :: 0 <= i < |locations| ==>
      ms[i] == StationMarker(locations[i].latitude, locations[i].longitude, StationLabel(locations[i].stationName), locations[i].riskScore)
  {
    seq(|locations|, i requires 0 <= i < |locations| =>
      StationMarker(locations[i].latitude, locations[i].longitude, StationLabel(locations[i].stationName), locations[i].riskScore))
  }

  /** A live analysis's markers: one per location, in order, numbered from 1. */
  function PriorityMarkers(locations: seq<PriorityLocation>): (ms: seq<MapMarker>)
    ensures |ms| == |locations|
    ensures forall i :: 0 <= i < |locations| ==>
      ms[i] == PriorityMarker(locations[i].latitude, locations[i].longitude, i + 1, locations[i].riskScore)
  {
    seq(|locations|, i requires 0 <= i < |locations| =>
      PriorityMarker(locations[i].latitude, locations[i].longitude, i + 1, locations[i].riskScore))
  }

  /** The markers a finished analysis leaves: those of its locations, or none for a missing plan or an empty list. */
  function PlanMarkers(plan: Option<Plan>): (ms: seq<MapMarker>)
    ensures plan.None? || plan.value.prioritizedLocations == [] ==> ms == []
  {
    if plan.Some? && |plan.value.prioritizedLocations| > 0 then PriorityMarkers(plan.value.prioritizedLocations)
    else []
  }

  // ---------------------------------------------------------------------------
  // The canned sequence

  /** What the page shows. */
  datatype SimView = SimView(
    selectedImage: Option<ChatPage.ImageFile>,
    preview: Option<string>,
    analyzing: bool,
    result: Option<Plan>,
    error: Option<string>,
    markers: seq<MapMarker>)

  /** One timer step of the canned sequence. */
  datatype SimEffect =
    | ClearAll                                          // preview, result, error, markers, analyzing
    | ShowPreview(url: string)
    | StartAnalyzing
    | ShowResult(plan: Plan, markers: seq<MapMarker>)   // result set, analyzing and error cleared, markers set

  function Apply(v: SimView, e: SimEffect): SimView {
    match e
    case ClearAll => Cleared(v)
    case ShowPreview(url) => v.(preview := Some(url))
    case StartAnalyzing => v.(analyzing := true)
    case ShowResult(plan, ms) => v.(result := Some(plan), analyzing := false, error := None, markers := ms)
  }

  function ApplyAll(v: SimView, events: seq<Timed<SimEffect>>): SimView
    decreases |events|
  {
    if events == [] then v else ApplyAll(Apply(v, events[0].effect), events[1..])
  }

  lemma {:induction false} ApplyAllSnoc(v: SimView, events: seq<Timed<SimEffect>>, e: Timed<SimEffect>)
    ensures ApplyAll(v, events + [e]) == Apply(ApplyAll(v, events), e.effect)
    decreases |events|
  {
    if events == [] {
      assert events + [e] == [e];
    } else {
      assert (events + [e])[1..] == events[1..] + [e];
      ApplyAllSnoc(Apply(v, events[0].effect), events[1..], e);
    }
  }

  const SampleImage := "/hurricane_track.png"
  const PreviewDelay: nat := 1000
  const AnalyzeDelay: nat := 1500
  const ResultDelay: nat := 3000

  /** The sequence: cleared at once, the preview after 1 s, analysing 1.5 s later, the result 3 s after that. */
  function Timeline(plan: Plan, ms: seq<MapMarker>): seq<Timed<SimEffect>> {
    [ Timed(0, ClearAll),
      Timed(PreviewDelay, ShowPreview(SampleImage)),
      Timed(PreviewDelay + AnalyzeDelay, StartAnalyzing),
      Timed(PreviewDelay + AnalyzeDelay + ResultDelay, ShowResult(plan, ms)) ]
  }

  /**
   * What is played when the effect's cleanup runs at `cleanupAt` (None: it
   * never runs). Only the first timer is cancelled, so a cleanup before it
   * fires leaves the cleared page, and a later one changes nothing.
   */
  function Played(plan: Plan, ms: seq<MapMarker>, cleanupAt: Option<nat>): seq<Timed<SimEffect>> {
    if cleanupAt.Some? && cleanupAt.value < PreviewDelay then [Timed(0, ClearAll)]
    else Timeline(plan, ms)
  }

  /** The canned plan and its station markers, played until the cleanup at `cleanupAt`. */
  function MockSequence(cleanupAt: Option<nat>): seq<Timed<SimEffect>> {
    Played(MockPlan(FixtureCategory, FixtureLocations, FixtureInsights), StationMarkers(FixtureLocations), cleanupAt)
  }

  /** The canned sequence is in time order: preview at 1000 ms, analysing at 2500 ms, result at 5500 ms. */
  lemma TimelineOrder(plan: Plan, ms: seq<MapMarker>)
    ensures Chronological(Timeline(plan, ms))
    ensures var t := Timeline(plan, ms); t[1].at == 1000 && t[2].at == 2500 && t[3].at == 5500
  {
  }

  /** Once the first timer has fired, a cleanup cancels nothing: the rest of the sequence still plays. */
  lemma LateCleanupCancelsNothing(plan: Plan, ms: seq<MapMarker>, t: nat)
    requires t >= PreviewDelay
    ensures Played(plan, ms, Some(t)) == Played(plan, ms, None)
    ensures DueAfter(Played(plan, ms, Some(t)), t) == DueAfter(Timeline(plan, ms), t)
  {
  }

  /** A cleanup before the first timer leaves the page cleared, with no preview, result or markers. */
  lemma EarlyCleanupLeavesCleared(v: SimView, plan: Plan, ms: seq<MapMarker>, t: nat)
    requires t < PreviewDelay
    ensures ApplyAll(v, Played(plan, ms, Some(t))) == Cleared(v)
  {
  }

  /** The page with the canned sequence's first effect applied: everything but the selected file cleared. */
  function Cleared(v: SimView): SimView {
    v.(preview := None, result := None, error := None, markers := [], analyzing := false)
  }

  /** The page after each prefix of the canned sequence. */
  lemma TimelineSteps(v: SimView, plan: Plan, ms: seq<MapMarker>)
    ensures ApplyAll(v, Timeline(plan, ms)[..1]) == Cleared(v)
    ensures ApplyAll(v, Timeline(plan, ms)[..2]) == Cleared(v).(preview := Some(SampleImage))
    ensures ApplyAll(v, Timeline(plan, ms)[..3]) == Cleared(v).(preview := Some(SampleImage), analyzing := true)
    ensures ApplyAll(v, Timeline(plan, ms)[..4]) ==
      Cleared(v).(preview := Some(SampleImage), result := Some(plan), markers := ms)
  {
    var tl := Timeline(plan, ms);
    assert tl[..1] == [tl[0]];
    assert ApplyAll(v, tl[..1]) == ApplyAll(Cleared(v), []);
    ApplyAllSnoc(v, tl[..1], tl[1]);
    assert tl[..2] == tl[..1] + [tl[1]];
    ApplyAllSnoc(v, tl[..2], tl[2]);
    assert tl[..3] == tl[..2] + [tl[2]];
    ApplyAllSnoc(v, tl[..3], tl[3]);
    assert tl[..4] == tl[..3] + [tl[3]];
  }

  /** Before 1000 ms only the clearing has happened. */
  lemma ViewBeforePreview(v: SimView, plan: Plan, ms: seq<MapMarker>, t: nat)
    requires t < 1000
    ensures ApplyAll(v, DueBy(Timeline(plan, ms), t)) == Cleared(v)
  {
    DueByPrefix(Timeline(plan, ms), t, 1);
    TimelineSteps(v, plan, ms);
  }

  /** From 1000 ms to 2500 ms the sample preview is shown, nothing else. */
  lemma ViewPreview(v: SimView, plan: Plan, ms: seq<MapMarker>, t: nat)
    requires 1000 <= t < 2500
    ensures ApplyAll(v, DueBy(Timeline(plan, ms), t)) == Cleared(v).(preview := Some(SampleImage))
  {
    DueByPrefix(Timeline(plan, ms), t, 2);
    TimelineSteps(v, plan, ms);
  }

  /** From 2500 ms to 5500 ms the analysing indicator is on beside the preview. */
  lemma ViewAnalysing(v: SimView, plan: Plan, ms: seq<MapMarker>, t: nat)
    requires 2500 <= t < 5500
    ensures ApplyAll(v, DueBy(Timeline(plan, ms), t)) == Cleared(v).(preview := Some(SampleImage), analyzing := true)
  {
    DueByPrefix(Timeline(plan, ms), t, 3);
    TimelineSteps(v, plan, ms);
  }

  /** From 5500 ms the plan and its markers are shown and the indicator is off again. */
  lemma ViewResult(v: SimView, plan: Plan, ms: seq<MapMarker>, t: nat)
    requires t >= 5500
    ensures ApplyAll(v, DueBy(Timeline(plan, ms), t)) ==
      Cleared(v).(preview := Some(SampleImage), result := Some(plan), markers := ms)
  {
    DueByPrefix(Timeline(plan, ms), t, 4);
    TimelineSteps(v, plan, ms);
  }

  /** The canned sequence runs in demo mode, or while the tour shows the hurricane step. */
  predicate ShouldLoadMock(isDemoMode: bool, isTourActive: bool, currentStep: nat) {
    isDemoMode || (isTourActive && Tour.StepIdAt(currentStep) == Some("hurricane-simulation"))
  }

  /** The hurricane step is the ninth of the catalogue. */
  lemma MockTrigger(isDemoMode: bool, isTourActive: bool, currentStep: nat)
    ensures ShouldLoadMock(isDemoMode, isTourActive, currentStep) <==> isDemoMode || (isTourActive && currentStep == 8)
  {
    Tour.CatalogueShape();
    assert Tour.TourSteps[8].id == "hurricane-simulation";
  }

  // ---------------------------------------------------------------------------
  // Risk levels

  /** `getRiskLevelText`: High from 60, Moderate from 40, Low below. */
  function RiskLevelText(riskScore: real): (t: string)
    ensures t == "High Risk" <==> riskScore >= 60.0
    ensures t == "Moderate Risk" <==> 40.0 <= riskScore < 60.0
    ensures t == "Low Risk" <==> riskScore < 40.0
  {
    if riskScore >= 60.0 then "High Risk"
    else if riskScore >= 40.0 then "Moderate Risk"
    else "Low Risk"
  }

  /** `getRiskLevelColor`: the same thresholds. */
  function RiskLevelColor(riskScore: real): (c: string)
    ensures c == "text-red-600 bg-red-50" <==> riskScore >= 60.0
    ensures c == "text-yellow-600 bg-yellow-50" <==> 40.0 <= riskScore < 60.0
    ensures c == "text-green-600 bg-green-50" <==> riskScore < 40.0
  {
    if riskScore >= 60.0 then "text-red-600 bg-red-50"
    else if riskScore >= 40.0 then "text-yellow-600 bg-yellow-50"
    else "text-green-600 bg-green-50"
  }

  // ---------------------------------------------------------------------------
  // The page

  /** What `api.analyzeHurricaneImage` brings back: a plan (possibly null), or an error with its message. */
  datatype AnalyzeReply = Analyzed(plan: Option<Plan>) | AnalyzeFailed(message: string)

  const NoImageText := "Please select an image first"
  const AnalyzeFailedText := "Failed to analyze hurricane image"

  /** The page after a finished live analysis of an attached image. */
  function Analysed(v: SimView, reply: AnalyzeReply): SimView {
    match reply
    case Analyzed(plan) => v.(analyzing := false, error := None, result := plan, markers := PlanMarkers(plan))
    case AnalyzeFailed(message) =>
      v.(analyzing := false, result := None, error := Some(if message != [] then message else AnalyzeFailedText))
  }

  class SimulationPage {
    var selectedImage: Option<ChatPage.ImageFile>
    var imagePreview: Option<string>
    var isAnalyzing: bool
    var analysisResult: Option<Plan>
    var error: Option<string>
    var mapMarkers: seq<MapMarker>

    function View(): SimView
      reads this
    {
      SimView(selectedImage, imagePreview, isAnalyzing, analysisResult, error, mapMarkers)
    }

    constructor ()
      ensures View() == SimView(None, None, false, None, None, [])
    {
      selectedImage := None;
      imagePreview := None;
      isAnalyzing := false;
      analysisResult := None;
      error := None;
      mapMarkers := [];
    }

    /** One timer callback of the canned sequence. */
    method Fire(e: SimEffect)
      modifies this
      ensures View() == Apply(old(View()), e)
    {
      match e {
        case ClearAll =>
          imagePreview := None;
          analysisResult := None;
          error := None;
          mapMarkers := [];
          isAnalyzing := false;
        case ShowPreview(url) =>
          imagePreview := Some(url);
        case StartAnalyzing =>
          isAnalyzing := true;
        case ShowResult(plan, ms) =>
          analysisResult := Some(plan);
          isAnalyzing := false;
          error := None;
          mapMarkers := ms;
      }
    }

    /**
     * The demo effect: when it should run, the canned sequence plays to its
     * end or to the cleanup, whichever stops it; otherwise nothing changes.
     */
    method RunMockEffect(isDemoMode: bool, isTourActive: bool, currentStep: nat, cleanupAt: Option<nat>)
      modifies this
      ensures !ShouldLoadMock(isDemoMode, isTourActive, currentStep) ==> View() == old(View())
      ensures ShouldLoadMock(isDemoMode, isTourActive, currentStep) ==> View() == ApplyAll(old(View()), MockSequence(cleanupAt))
    {
      if ShouldLoadMock(isDemoMode, isTourActive, currentStep) {
        Play(MockSequence(cleanupAt));
      }
    }

    /** Fires the given timer callbacks in order. */
    method Play(events: seq<Timed<SimEffect>>)
      modifies this
      ensures View() == ApplyAll(old(View()), events)
    {
      var i := 0;
      while i < |events|
        invariant i <= |events|
        invariant View() == ApplyAll(old(View()), events[..i])
      {
        ApplyAllSnoc(old(View()), events[..i], events[i]);
        assert events[..i + 1] == events[..i] + [events[i]];
        Fire(events[i].effect);
        i := i + 1;
      }
      assert events[..i] == events;
    }

    /** Choosing a file attaches it and clears the error. */
    method SelectImage(file: Option<ChatPage.ImageFile>)
      modifies this
      ensures file.Some? ==> View() == old(View()).(selectedImage := file, error := None)
      ensures file.None? ==> View() == old(View())
    {
      if file.Some? {
        selectedImage := file;
        error := None;
      }
    }

    /** A dropped file is attached only when its MIME type is an image type. */
    method DropImage(file: Option<ChatPage.ImageFile>)
      modifies this
      ensures file.Some? && StartsWith(file.value.mimeType, "image/") ==>
        View() == old(View()).(selectedImage := file, error := None)
      ensures !(file.Some? && StartsWith(file.value.mimeType, "image/")) ==> View() == old(View())
    {
      if file.Some? && StartsWith(file.value.mimeType, "image/") {
        selectedImage := file;
        error := None;
      }
    }

    /** The FileReader finished: its data URL becomes the preview. */
    method PreviewLoaded(dataUrl: string)
      modifies this
      ensures View() == old(View()).(preview := Some(dataUrl))
    {
      imagePreview := Some(dataUrl);
    }

    /**
     * `handleAnalyze`: without an image only the error is set and nothing is
     * sent; otherwise the image is sent and the page shows the outcome, no
     * longer analysing. Returns the image sent.
     */
    method HandleAnalyze(reply: AnalyzeReply) returns (sent: Option<ChatPage.ImageFile>)
      modifies this
      ensures old(selectedImage).None? ==> sent.None? && View() == old(View()).(error := Some(NoImageText))
      ensures old(selectedImage).Some? ==> sent == old(selectedImage) && View() == Analysed(old(View()), reply)
      ensures !old(isAnalyzing) ==> !isAnalyzing
    {
      if selectedImage.None? {
        error := Some(NoImageText);
        return None;
      }
      sent := selectedImage;
      isAnalyzing := true;
      error := None;
      analysisResult := None;
      match reply {
        case Analyzed(plan) =>
          analysisResult := plan;
          if plan.Some? && |plan.value.prioritizedLocations| > 0 {
            mapMarkers := PriorityMarkers(plan.value.prioritizedLocations);
          } else {
            mapMarkers := [];
          }
        case AnalyzeFailed(message) =>
          error := Some(if message != [] then message else AnalyzeFailedText);
      }
      isAnalyzing := false;
    }

    /** `clearImage`: outside demo mode the image, preview, result, error and markers are cleared; in demo mode nothing changes. */
    method ClearImage(isDemoMode: bool)
      modifies this
      ensures isDemoMode ==> View() == old(View())
      ensures !isDemoMode ==> View() == SimView(None, None, old(isAnalyzing), None, None, [])
    {
      if !isDemoMode {
        selectedImage := None;
        imagePreview := None;
        analysisResult := None;
        error := None;
        mapMarkers := [];
      }
    }
  }

  /** A finished analysis is never left analysing, and shows one marker per prioritised location of the plan. */
  lemma AnalysedShowsPlan(v: SimView, reply: AnalyzeReply)
    ensures !Analysed(v, reply).analyzing
    ensures reply.Analyzed? && reply.plan.Some? ==>
      var locs := reply.plan.value.prioritizedLocations;
      var ms := Analysed(v, reply).markers;
      |ms| == |locs| && forall i :: 0 <= i < |locs| ==>
        ms[i].PriorityMarker? && ms[i].priority == i + 1 && ms[i].lat == locs[i].latitude && ms[i].lng == locs[i].longitude
    ensures reply.AnalyzeFailed? ==> Analysed(v, reply).markers == v.markers && Analysed(v, reply).error.Some?
  {
  }
}
