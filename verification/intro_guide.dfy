/** The guided tour (src/components/IntroGuide.tsx): the step counter and the dialog
    flag driven by start, next, previous and end, and the saved "seen" flag of the
    browser's storage, held here as a field. The one-second delay before the first
    showing is an event of its own. */
module IntroGuide {

  datatype Placement = Top | Bottom | Left | Right

  datatype TourStep = TourStep(element: string, title: string, intro: string, position: Placement)

  /** The four steps the tour installs when it mounts. */
  const TourSteps: seq<TourStep> := [
    TourStep("#dashboard-overview", "Dashboard",
             "Welcome to your claims dashboard! This is where you'll see key statistics and recent claims.", Bottom),
    TourStep("#claims-navigation", "Claims",
             "Click here to view and manage all claims in the system.", Right),
    TourStep("#claims-stats", "Claims Statistics",
             "Here you can see the status of all claims at a glance.", Bottom),
    TourStep("#recent-claims", "Recent Claims",
             "These are your most recently updated claims for quick access.", Top)
  ]

  /** The tour's observable state, and the actions a user takes on it. */
  datatype TourState = TourState(showIntro: bool, currentStep: int, hasSeenIntro: bool)

  /** `Dismiss` is the dialog closing itself (escape or a click outside it), which
      goes through `onOpenChange` rather than `endTour`. */
  datatype TourAction = StartTour | NextStep | PrevStep | EndTour | Dismiss

  /** The counter is a valid index of a tour of `stepCount` steps, or 0 for an empty tour. */
  predicate InRange(currentStep: int, stepCount: nat) {
    0 <= currentStep && (currentStep < stepCount || currentStep == 0)
  }

  /** The tour closed and recorded as seen. */
  function Ended(st: TourState): (r: TourState)
    ensures !r.showIntro && r.hasSeenIntro && r.currentStep == st.currentStep
  {
    st.(showIntro := false, hasSeenIntro := true)
  }

  /** The state after one action on a tour of `stepCount` steps. */
  function Step(st: TourState, action: TourAction, stepCount: nat): (r: TourState)
    ensures action == StartTour ==> r.currentStep == 0 && r.showIntro && r.hasSeenIntro == st.hasSeenIntro
    ensures action == NextStep && st.currentStep < stepCount - 1 ==> r == st.(currentStep := st.currentStep + 1)
    ensures action == NextStep && st.currentStep >= stepCount - 1 ==> r == Ended(st)
    ensures action == PrevStep ==>
              r == if st.currentStep > 0 then st.(currentStep := st.currentStep - 1) else st
    ensures action == EndTour ==> r == Ended(st)
    ensures action == Dismiss ==> r == st.(showIntro := false)
  {
    match action
    case StartTour => st.(currentStep := 0, showIntro := true)
    case NextStep =>
      if st.currentStep < stepCount - 1 then st.(currentStep := st.currentStep + 1)
      else Ended(st)
    case PrevStep => if st.currentStep > 0 then st.(currentStep := st.currentStep - 1) else st
    case EndTour => Ended(st)
    case Dismiss => st.(showIntro := false)
  }

  /** The state after a series of actions, first to last. */
  function RunTour(st: TourState, actions: seq<TourAction>, stepCount: nat): TourState
    decreases |actions|
  {
    if actions == [] then st
    else RunTour(Step(st, actions[0], stepCount), actions[1..], stepCount)
  }

  /** From an in-range counter, any series of actions keeps the counter in range. */
  lemma {:induction false} TourStaysInRange(st: TourState, actions: seq<TourAction>, stepCount: nat)
    requires InRange(st.currentStep, stepCount)
    ensures InRange(RunTour(st, actions, stepCount).currentStep, stepCount)
    decreases |actions|
  {
    if actions != [] {
      TourStaysInRange(Step(st, actions[0], stepCount), actions[1..], stepCount);
    }
  }

  /** `k` presses of "next" from the first step walk to step `k` while the tour stays as
      it was; one more press moves on, or at the last step ends the tour. */
  lemma {:induction false} NextWalksTheTour(st: TourState, k: nat, stepCount: nat)
    requires st.currentStep == 0 && k < stepCount
    ensures RunTour(st, seq(k, _ => NextStep), stepCount) == st.(currentStep := k)
    ensures RunTour(st, seq(k + 1, _ => NextStep), stepCount)
            == if k < stepCount - 1 then st.(currentStep := k + 1) else Ended(st.(currentStep := k))
  {
    if k > 0 {
      NextWalksTheTour(st, k - 1, stepCount);
      RunTourSnoc(st, seq(k - 1, _ => NextStep), NextStep, stepCount);
      assert seq(k - 1, _ => NextStep) + [NextStep] == seq(k, _ => NextStep);
    }
    RunTourSnoc(st, seq(k, _ => NextStep), NextStep, stepCount);
    assert seq(k, _ => NextStep) + [NextStep] == seq(k + 1, _ => NextStep);
  }

  /** Running one more action at the end is one more step from where the series ended. */
  lemma {:induction false} RunTourSnoc(st: TourState, actions: seq<TourAction>, a: TourAction, stepCount: nat)
    ensures RunTour(st, actions + [a], stepCount) == Step(RunTour(st, actions, stepCount), a, stepCount)
    decreases |actions|
  {
    if actions != [] {
      assert (actions + [a])[1..] == actions[1..] + [a];
      RunTourSnoc(Step(st, actions[0], stepCount), actions[1..], a, stepCount);
    }
  }

  /** "Previous" undoes "next" everywhere except at the last step, where "next" ends the tour. */
  lemma PrevUndoesNext(st: TourState, stepCount: nat)
    requires 0 <= st.currentStep < stepCount - 1
    ensures Step(Step(st, NextStep, stepCount), PrevStep, stepCount) == st
  {
  }

  /** Closing the dialog by dismissing it hides the tour like ending it does, but
      records nothing: an unseen tour is shown again on the next mount. */
  lemma DismissLeavesTourUnseen(st: TourState, stepCount: nat)
    requires !st.hasSeenIntro
    ensures !Step(st, Dismiss, stepCount).showIntro && !Step(st, Dismiss, stepCount).hasSeenIntro
    ensures !Step(st, EndTour, stepCount).showIntro && Step(st, EndTour, stepCount).hasSeenIntro
  {
  }

  class IntroGuide {
    var showIntro: bool
    var currentStep: int
    var steps: seq<TourStep>
    var hasSeenIntro: bool

    /** The component's first render: no dialog, step 0, no steps yet. */
    constructor (hasSeenIntro: bool)
      ensures !showIntro && currentStep == 0 && steps == [] && this.hasSeenIntro == hasSeenIntro
      ensures Valid()
    {
      showIntro := false;
      currentStep := 0;
      steps := [];
      this.hasSeenIntro := hasSeenIntro;
    }

    predicate Valid()
      reads this
    {
      InRange(currentStep, |steps|)
    }

    function State(): TourState
      reads this
    {
      TourState(showIntro, currentStep, hasSeenIntro)
    }

    /** The mount effect: installs the four steps, and reports whether the delayed
        first showing is scheduled, which is when the tour has not been seen. */
    method Mount() returns (scheduleShow: bool)
      requires currentStep == 0
      modifies this`steps
      ensures steps == TourSteps && |steps| == 4
      ensures scheduleShow == !hasSeenIntro
      ensures Valid()
    {
      steps := TourSteps;
      scheduleShow := !hasSeenIntro;
    }

    /** The delayed first showing fires. */
    method ShowAfterDelay()
      modifies this`showIntro
      ensures showIntro
    {
      showIntro := true;
    }

    method StartTour()
      requires Valid()
      modifies this`currentStep, this`showIntro
      ensures State() == Step(old(State()), TourAction.StartTour, |steps|)
      ensures Valid()
    {
      currentStep := 0;
      showIntro := true;
    }

    method NextStep()
      requires Valid()
      modifies this`currentStep, this`showIntro, this`hasSeenIntro
      ensures State() == Step(old(State()), TourAction.NextStep, |steps|)
      ensures Valid()
    {
      if currentStep < |steps| - 1 {
        currentStep := currentStep + 1;
      } else {
        EndTour();
      }
    }

    method PrevStep()
      requires Valid()
      modifies this`currentStep
      ensures State() == Step(old(State()), TourAction.PrevStep, |steps|)
      ensures Valid()
    {
      if currentStep > 0 {
        currentStep := currentStep - 1;
      }
    }

    method EndTour()
      requires Valid()
      modifies this`showIntro, this`hasSeenIntro
      ensures State() == Step(old(State()), TourAction.EndTour, |steps|)
      ensures Valid()
    {
      showIntro := false;
      hasSeenIntro := true;
    }

    /** The dialog's `onOpenChange`, bound to the `showIntro` setter. */
    method OnOpenChange(open: bool)
      requires Valid()
      modifies this`showIntro
      ensures State() == if open then old(State()).(showIntro := true)
                         else Step(old(State()), Dismiss, |steps|)
      ensures Valid()
    {
      showIntro := open;
    }

    /** `resetTutorial`: forgets that the tour was seen; the open dialog is left as it is. */
    method ResetTutorial()
      modifies this`hasSeenIntro
      ensures !hasSeenIntro
    {
      hasSeenIntro := false;
    }
  }
}
