/**
 * The header button that launches the guided tour. Demo mode must be on for
 * the tour's fixtures to appear, so a click with demo mode off first switches
 * it on and starts the tour 300 ms later; with demo mode already on the tour
 * starts at once.
 */
module TourButton {
  import opened Wrappers
  import opened Tour

  /** Delay between switching demo mode on and starting the tour. */
  const StartDelayMs: nat := 300

  /** The demo-mode context: a single flag that its toggle flips. */
  class DemoMode {
    var isDemoMode: bool

    constructor (on: bool)
      ensures isDemoMode == on
    {
      isDemoMode := on;
    }

    method Toggle()
      modifies this
      ensures isDemoMode == !old(isDemoMode)
    {
      isDemoMode := !isDemoMode;
    }
  }

  /** The button's caption. */
  function Label(hasCompletedTour: bool): (r: string)
    ensures r == "Replay Tour" <==> hasCompletedTour
    ensures r == "Take Tour" <==> !hasCompletedTour
  {
    if hasCompletedTour then "Replay Tour" else "Take Tour"
  }

  /** The caption follows the provider: 'Replay Tour' after completing, 'Take Tour' after a reset. */
  lemma LabelFollowsCompletion(s: TourState)
    ensures Label(Complete(s).completed) == "Replay Tour"
    ensures Label(Reset(s).completed) == "Take Tour"
    ensures Label(Skip(s).completed) == Label(s.completed)
  {
  }

  /**
   * A click. Returns the delay of the timer it schedules: `Some(300)` when it
   * had to switch demo mode on (the tour is not started yet), `None` when the
   * tour was started directly. A click never switches demo mode off.
   */
  method HandleStartTour(tour: TourProvider, demo: DemoMode) returns (pending: Option<nat>)
    requires tour.Valid()
    modifies tour, demo
    ensures demo.isDemoMode
    ensures tour.Valid()
    ensures !old(demo.isDemoMode) ==> pending == Some(StartDelayMs) && tour.State() == old(tour.State())
    ensures old(demo.isDemoMode) ==> pending.None? && tour.State() == Start(old(tour.State()))
  {
    if !demo.isDemoMode {
      demo.Toggle();
      pending := Some(StartDelayMs);
    } else {
      tour.StartTour();
      pending := None;
    }
  }

  /** The delayed callback scheduled by a click. */
  method OnStartTimer(tour: TourProvider)
    requires tour.Valid()
    modifies tour
    ensures tour.Valid() && tour.State() == Start(old(tour.State()))
  {
    tour.StartTour();
  }

  /**
   * A click followed, when one was scheduled, by its timer: whichever branch
   * was taken, demo mode ends on and the tour ends active at its first step.
   */
  method ClickAndWait(tour: TourProvider, demo: DemoMode) returns (elapsed: nat)
    requires tour.Valid()
    modifies tour, demo
    ensures demo.isDemoMode
    ensures tour.isTourActive && tour.currentStep == 0 && tour.Valid()
    ensures tour.hasCompletedTour == old(tour.hasCompletedTour)
    ensures elapsed == (if old(demo.isDemoMode) then 0 else StartDelayMs)
  {
    var pending := HandleStartTour(tour, demo);
    if pending.Some? {
      OnStartTimer(tour);
      elapsed := pending.value;
    } else {
      elapsed := 0;
    }
  }
}
