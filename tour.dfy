/**
 * The guided tour's provider: a fixed ten-step catalogue, the index of the
 * current step, whether the tour overlay is shown, and a "completed" flag that
 * is mirrored in localStorage under 'tourCompleted'.
 *
 * The transitions are first given as functions on a `TourState` value, which
 * the lemmas reason about; the `TourProvider` class performs them in place and
 * is proved to follow those functions.
 */
module Tour {
  import opened Wrappers
  import opened Storage

  datatype Placement = Center | Top | Bottom

  /** One step of the tour. Titles and descriptions are display text and are not modelled. */
  datatype TourStep = TourStep(id: string, page: string, highlight: Option<string>, position: Placement)

  const TourSteps: seq<TourStep> := [
    TourStep("welcome", "/", None, Center),
    TourStep("demo-mode", "/", Some("demo-toggle"), Bottom),
    TourStep("dashboard-alerts", "/", Some("alerts-section"), Top),
    TourStep("risk-analysis", "/", Some("alerts-section"), Top),
    TourStep("dashboard-map", "/", Some("map-section"), Top),
    TourStep("chat-page", "/chat", Some("chat-interface"), Top),
    TourStep("forecast-page", "/forecast", Some("forecast-section"), Top),
    TourStep("emergency-resources", "/emergency-resources", Some("resources-section"), Top),
    TourStep("hurricane-simulation", "/hurricane-simulation", Some("simulation-section"), Top),
    TourStep("complete", "/hurricane-simulation", None, Center)
  ]

  const LastIndex: nat := |TourSteps| - 1

  /** The localStorage key and value that record a completed tour. */
  const CompletedKey := "tourCompleted"
  const CompletedValue := "true"

  /** The catalogue's shape: ten steps, distinct ids, 'welcome' first and 'complete' last. */
  lemma CatalogueShape()
    ensures |TourSteps| == 10 && LastIndex == 9
    ensures TourSteps[0].id == "welcome" && TourSteps[LastIndex].id == "complete"
    ensures forall i, j :: 0 <= i < j < |TourSteps| ==> TourSteps[i].id != TourSteps[j].id
  {
  }

  /** Index of the step with the given id, if the catalogue has one. */
  function StepIndex(id: string): (r: Option<nat>)
    ensures r.Some? ==> r.value < |TourSteps| && TourSteps[r.value].id == id
    ensures r.None? ==> forall i :: 0 <= i < |TourSteps| ==> TourSteps[i].id != id
  {
    IndexFrom(id, 0)
  }

  function IndexFrom(id: string, i: nat): (r: Option<nat>)
    requires i <= |TourSteps|
    ensures r.Some? ==> i <= r.value < |TourSteps| && TourSteps[r.value].id == id
    ensures r.None? ==> forall k :: i <= k < |TourSteps| ==> TourSteps[k].id != id
    decreases |TourSteps| - i
  {
    if i == |TourSteps| then None
    else if TourSteps[i].id == id then Some(i)
    else IndexFrom(id, i + 1)
  }

  /** The step id shown at `index`, or None when the index is outside the catalogue. */
  function StepIdAt(index: nat): Option<string> {
    if index < |TourSteps| then Some(TourSteps[index].id) else None
  }

  /** The provider's three state variables. */
  datatype TourState = TourState(active: bool, index: nat, completed: bool)

  predicate InRange(s: TourState) {
    s.index <= LastIndex
  }

  /** What a freshly mounted provider reads from storage: completed iff the key holds 'true'. */
  predicate StoredCompleted(entries: map<string, Blob>) {
    CompletedKey in entries && entries[CompletedKey] == Text(CompletedValue)
  }

  function Initial(entries: map<string, Blob>): (s: TourState)
    ensures InRange(s)
  {
    TourState(false, 0, StoredCompleted(entries))
  }

  function Start(s: TourState): TourState {
    TourState(true, 0, s.completed)
  }

  function Complete(s: TourState): TourState {
    TourState(false, 0, true)
  }

  /** Advances below the last step; at (or past) the last step it completes the tour. */
  function Next(s: TourState): TourState {
    if s.index < LastIndex then s.(index := s.index + 1) else Complete(s)
  }

  function Previous(s: TourState): TourState {
    if s.index > 0 then s.(index := s.index - 1) else s
  }

  function Skip(s: TourState): TourState {
    TourState(false, 0, s.completed)
  }

  function Reset(s: TourState): TourState {
    s.(completed := false)
  }

  /** The storage writes of each operation: only completing and resetting touch the key. */
  function CompleteStore(entries: map<string, Blob>): map<string, Blob> {
    entries[CompletedKey := Text(CompletedValue)]
  }

  function ResetStore(entries: map<string, Blob>): map<string, Blob> {
    entries - {CompletedKey}
  }

  function NextStore(s: TourState, entries: map<string, Blob>): map<string, Blob> {
    if s.index < LastIndex then entries else CompleteStore(entries)
  }

  /** Persistence round trip: a provider mounted after completing reads true, after resetting false. */
  lemma CompletionRoundTrip(entries: map<string, Blob>)
    ensures Initial(CompleteStore(entries)).completed
    ensures !Initial(ResetStore(entries)).completed
    ensures Initial(ResetStore(CompleteStore(entries))) == Initial(map[])
  {
  }

  /** Starting always shows step 0, whatever the prior state, and keeps the completed flag. */
  lemma StartShowsFirstStep(s: TourState)
    ensures Start(s).active && Start(s).index == 0 && InRange(Start(s))
    ensures Start(s).completed == s.completed
    ensures StepIdAt(Start(s).index) == Some("welcome")
  {
  }

  /** Skipping leaves the completed flag as it was and never completes the tour. */
  lemma SkipKeepsCompletion(s: TourState)
    ensures !Skip(s).active && Skip(s).index == 0
    ensures Skip(s).completed == s.completed
  {
  }

  /** Resetting clears only the completed flag. */
  lemma ResetKeepsPosition(s: TourState)
    ensures Reset(s).active == s.active && Reset(s).index == s.index && !Reset(s).completed
  {
  }

  /** Navigation commands a user can issue while the overlay is shown. */
  datatype Nav = NextCmd | PreviousCmd

  function Navigate(s: TourState, cmds: seq<Nav>): TourState
    decreases |cmds|
  {
    if cmds == [] then s
    else Navigate(if cmds[0] == NextCmd then Next(s) else Previous(s), cmds[1..])
  }

  /** Index bounds: no sequence of next/previous calls leaves [0, LastIndex]. */
  lemma {:induction false} NavigationStaysInRange(s: TourState, cmds: seq<Nav>)
    requires InRange(s)
    ensures InRange(Navigate(s, cmds))
    ensures StepIdAt(Navigate(s, cmds).index).Some?
    decreases |cmds|
  {
    if cmds != [] {
      var s' := if cmds[0] == NextCmd then Next(s) else Previous(s);
      assert InRange(s');
      NavigationStaysInRange(s', cmds[1..]);
    }
  }

  /** `n` calls of nextStep. */
  function NextN(s: TourState, n: nat): TourState
    decreases n
  {
    if n == 0 then s else NextN(Next(s), n - 1)
  }

  /** From a started tour, k <= 9 calls of next land on step k with the tour still active. */
  lemma {:induction false} StepsAfterStart(s: TourState, k: nat)
    requires k <= LastIndex
    ensures NextN(Start(s), k) == TourState(true, k, s.completed)
    decreases k
  {
    if k > 0 {
      StepsAfterStart(s, k - 1);
      NextNSplit(Start(s), k - 1);
    }
  }

  /** `n + 1` calls of next are `n` calls followed by one more. */
  lemma {:induction false} NextNSplit(s: TourState, n: nat)
    ensures NextN(s, n + 1) == Next(NextN(s, n))
    decreases n
  {
    if n > 0 {
      NextNSplit(Next(s), n - 1);
    }
  }

  /** Nine calls of next after start reach 'complete' with the tour still shown; the tenth completes it. */
  lemma NineNextsThenComplete(s: TourState)
    ensures NextN(Start(s), 9).active && StepIdAt(NextN(Start(s), 9).index) == Some("complete")
    ensures NextN(Start(s), 10) == TourState(false, 0, true)
  {
    StepsAfterStart(s, 9);
    NextNSplit(Start(s), 9);
  }

  /**
   * nextStep and previousStep never consult the active flag: once the tour is
   * completed (inactive, index 0), a further next moves the hidden index to 1
   * rather than being a no-op.
   */
  lemma NavigationIgnoresActive(s: TourState, b: bool)
    requires s.index < LastIndex
    ensures Next(s.(active := b)) == Next(s).(active := b)
    ensures Previous(s.(active := b)) == Previous(s).(active := b)
    ensures Next(s).active == s.active && Next(s).completed == s.completed
    ensures Next(Complete(s)) == TourState(false, 1, true)
  {
  }

  /** The provider component: its state, the catalogue, and the storage it mirrors the completed flag into. */
  class TourProvider {
    var isTourActive: bool
    var currentStep: nat
    var hasCompletedTour: bool
    const store: LocalStorage

    ghost predicate Valid()
      reads this
    {
      currentStep <= LastIndex
    }

    function State(): TourState
      reads this
    {
      TourState(isTourActive, currentStep, hasCompletedTour)
    }

    /** Mounting: inactive at step 0, completed flag read from storage. */
    constructor (store: LocalStorage)
      ensures Valid() && this.store == store
      ensures State() == Initial(store.entries)
    {
      this.store := store;
      isTourActive := false;
      currentStep := 0;
      hasCompletedTour := CompletedKey in store.entries && store.entries[CompletedKey] == Text(CompletedValue);
    }

    method StartTour()
      requires Valid()
      modifies this
      ensures Valid() && State() == Start(old(State()))
    {
      isTourActive := true;
      currentStep := 0;
    }

    method NextStep()
      requires Valid()
      modifies this, store
      ensures Valid() && State() == Next(old(State()))
      ensures store.entries == NextStore(old(State()), old(store.entries))
    {
      if currentStep < |TourSteps| - 1 {
        currentStep := currentStep + 1;
      } else {
        CompleteTour();
      }
    }

    method PreviousStep()
      requires Valid()
      modifies this
      ensures Valid() && State() == Previous(old(State()))
    {
      if currentStep > 0 {
        currentStep := currentStep - 1;
      }
    }

    method SkipTour()
      requires Valid()
      modifies this
      ensures Valid() && State() == Skip(old(State()))
    {
      isTourActive := false;
      currentStep := 0;
    }

    method CompleteTour()
      modifies this, store
      ensures Valid() && State() == Complete(old(State()))
      ensures store.entries == CompleteStore(old(store.entries))
    {
      isTourActive := false;
      currentStep := 0;
      hasCompletedTour := true;
      store.SetItem(CompletedKey, Text(CompletedValue));
    }

    method ResetTour()
      requires Valid()
      modifies this, store
      ensures Valid() && State() == Reset(old(State()))
      ensures store.entries == ResetStore(old(store.entries))
    {
      hasCompletedTour := false;
      store.RemoveItem(CompletedKey);
    }

    /** `getCurrentStep()`: always a catalogue entry, whether or not the tour is active. */
    method GetCurrentStep() returns (step: TourStep)
      requires Valid()
      ensures step in TourSteps && Some(step.id) == StepIdAt(currentStep)
    {
      step := TourSteps[currentStep];
    }
  }

  /** Completing and then remounting the provider on the same storage shows the tour as completed. */
  method CompleteThenRemount(store: LocalStorage) returns (remounted: TourProvider)
    modifies store
    ensures remounted.hasCompletedTour && !remounted.isTourActive && remounted.currentStep == 0
  {
    var p := new TourProvider(store);
    p.CompleteTour();
    remounted := new TourProvider(store);
  }
}
