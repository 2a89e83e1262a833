/**
 Sessions as sequences of events. An event is a handler call made by a component that
 the current state renders (App.tsx:167-215: login page while logged out, settings,
 filters and grid once logged in and loaded, each modal while its flag is set) or a
 pending timer firing. The lemmas state what holds of every state such a sequence
 reaches.
 */
module Traces {
  import opened Session

  datatype Event =
    | LoginSucceeded
    | LogoutClicked
    | LoadingTimerFired(skipOnboarding: bool)
    | OnboardingTourStarted
    | OnboardingModalClosed
    | OnboardingTourCompleted
    | TourStartedManually
    | FiltersStarted(temp: Filters, resetCardOrder: bool)
    | DontShowAgainChanged(dontShow: bool)
    | LevelWarningClosed
    | RedKPIModalClosed
    | CardOrderChanged(view: View, order: seq<string>)
    | RedKPITimerFired

  /** Whether `e` can happen in `s`: its emitting component is on screen, or its timer is pending. */
  predicate Enabled(s: State, e: Event) {
    match e
    case LoginSucceeded => !s.isAuthenticated
    case LogoutClicked => s.isAuthenticated
    case TourStartedManually => s.isAuthenticated
    case FiltersStarted(_, _) => s.isAuthenticated && !s.isLoading
    case CardOrderChanged(_, _) => s.isAuthenticated && !s.isLoading
    case LevelWarningClosed => s.isAuthenticated && s.showModal
    case DontShowAgainChanged(_) => s.isAuthenticated && s.showModal
    case RedKPIModalClosed => s.isAuthenticated && s.showRedKPIModal
    case OnboardingTourStarted => s.isAuthenticated && s.showOnboardingModal
    case OnboardingModalClosed => s.isAuthenticated && s.showOnboardingModal
    case OnboardingTourCompleted => s.isAuthenticated && s.showOnboardingTour
    case LoadingTimerFired(_) => s.loadingTimerPending
    case RedKPITimerFired => s.redKPITimersPending > 0
  }

  /** The handler (or timer callback) an event runs, with the effects it triggers. */
  function Step(s: State, e: Event): State {
    match e
    case LoginSucceeded => LoginSuccess(s)
    case LogoutClicked => Logout(s)
    case LoadingTimerFired(skip) => FireLoadingTimer(s, skip)
    case OnboardingTourStarted => StartOnboardingTour(s)
    case OnboardingModalClosed => CloseOnboardingModal(s)
    case OnboardingTourCompleted => CompleteOnboardingTour(s)
    case TourStartedManually => ManualStartTour(s)
    case FiltersStarted(temp, reset) => Start(s, temp, reset)
    case DontShowAgainChanged(dontShow) => DontShowAgain(s, dontShow)
    case LevelWarningClosed => CloseLevelWarning(s)
    case RedKPIModalClosed => CloseRedKPIModal(s)
    case CardOrderChanged(view, order) => CardOrderChange(s, view, order)
    case RedKPITimerFired => FireRedKPITimer(s)
  }

  function Run(s: State, events: seq<Event>): State
    decreases |events|
  {
    if events == [] then s else Run(Step(s, events[0]), events[1..])
  }

  /** Every event of `events` is enabled in the state reached just before it. */
  predicate Feasible(s: State, events: seq<Event>)
    decreases |events|
  {
    events == [] || (Enabled(s, events[0]) && Feasible(Step(s, events[0]), events[1..]))
  }

  /**
   The consistency of the loading gate and the red-KPI flags:
   logged out, the next login starts from the skeleton and no grid is shown;
   logged in, the skeleton is shown exactly while the loading timer is pending;
   the KPI grid is never shown over the skeleton;
   a visible red-KPI report has its one-shot flag set.
   */
  predicate Inv(s: State) {
    && (!s.isAuthenticated ==> s.isLoading && !s.hasStarted && !s.loadingTimerPending)
    && (s.isAuthenticated ==> (s.isLoading <==> s.loadingTimerPending))
    && (s.hasStarted ==> !s.isLoading)
    && (s.showRedKPIModal ==> s.hasShownRedKPIModal)
  }

  /** The number of commits in `events` made with the senior-executive user group. */
  function SeniorCommits(events: seq<Event>): nat
    decreases |events|
  {
    if events == [] then 0
    else Scheduled(events[0]) + SeniorCommits(events[1..])
  }

  /** The number of red-KPI callbacks run in `events`. */
  function RedKPIFirings(events: seq<Event>): nat
    decreases |events|
  {
    if events == [] then 0
    else Fired(events[0]) + RedKPIFirings(events[1..])
  }

  /** The red-KPI callbacks one event schedules, as counted by `SeniorCommits`. */
  function Scheduled(e: Event): nat {
    if e.FiltersStarted? && e.temp.nutzergruppe == SeniorExecutive then 1 else 0
  }

  /** The red-KPI callbacks one event runs, as counted by `RedKPIFirings`. */
  function Fired(e: Event): nat {
    if e == RedKPITimerFired then 1 else 0
  }

  /**
   What one enabled step keeps: the consistency invariant, a suppressed and closed
   level warning, and the red-KPI bookkeeping (a callback is added only by a
   senior-executive commit and removed only by running, and the report appears only
   when a callback runs).
   */
  predicate StepKeeps(s: State, e: Event) {
    && (Inv(s) ==> Inv(Step(s, e)))
    && (s.dontShowModalAgain && !s.showModal ==> Step(s, e).dontShowModalAgain && !Step(s, e).showModal)
    && Step(s, e).redKPITimersPending + Fired(e) == s.redKPITimersPending + Scheduled(e)
    && (Step(s, e).showRedKPIModal ==> s.showRedKPIModal || s.redKPITimersPending > 0 || Scheduled(e) > 0)
  }

  /** Login view, logout button and loading timer. */
  lemma SessionEventKeeps(s: State, e: Event)
    requires e.LoginSucceeded? || e.LogoutClicked? || e.LoadingTimerFired?
    requires Enabled(s, e)
    ensures StepKeeps(s, e)
  {
  }

  /** Onboarding modal, tour and the settings' tour entry. */
  lemma OnboardingEventKeeps(s: State, e: Event)
    requires e.OnboardingTourStarted? || e.OnboardingModalClosed? || e.OnboardingTourCompleted? || e.TourStartedManually?
    requires Enabled(s, e)
    ensures StepKeeps(s, e)
  {
  }

  /** The level-warning modal and the red-KPI modal. */
  lemma ModalEventKeeps(s: State, e: Event)
    requires e.DontShowAgainChanged? || e.LevelWarningClosed? || e.RedKPIModalClosed?
    requires Enabled(s, e)
    ensures StepKeeps(s, e)
  {
  }

  /** The filter view's start, the card grid and the red-KPI callback. */
  lemma DashboardEventKeeps(s: State, e: Event)
    requires e.FiltersStarted? || e.CardOrderChanged? || e.RedKPITimerFired?
    requires Enabled(s, e)
    ensures StepKeeps(s, e)
  {
  }

  /** Every enabled event keeps `StepKeeps`, whichever part of the page emits it. */
  lemma EnabledStepKeeps(s: State, e: Event)
    requires Enabled(s, e)
    ensures StepKeeps(s, e)
  {
    match e
    case LoginSucceeded | LogoutClicked | LoadingTimerFired(_) => SessionEventKeeps(s, e);
    case OnboardingTourStarted | OnboardingModalClosed | OnboardingTourCompleted | TourStartedManually =>
      OnboardingEventKeeps(s, e);
    case DontShowAgainChanged(_) | LevelWarningClosed | RedKPIModalClosed => ModalEventKeeps(s, e);
    case FiltersStarted(_, _) | CardOrderChanged(_, _) | RedKPITimerFired => DashboardEventKeeps(s, e);
  }

  lemma {:induction false} RunPreservesInv(s: State, events: seq<Event>)
    requires Inv(s) && Feasible(s, events)
    ensures Inv(Run(s, events))
    decreases |events|
  {
    if events != [] {
      EnabledStepKeeps(s, events[0]);
      RunPreservesInv(Step(s, events[0]), events[1..]);
    }
  }

  /** Every state a session reaches from the initial state satisfies `Inv`. */
  lemma ReachableStatesAreConsistent(events: seq<Event>)
    requires Feasible(Initial(), events)
    ensures Inv(Run(Initial(), events))
  {
    RunPreservesInv(Initial(), events);
  }

  /**
   Once the level warning is suppressed and closed it never shows again: the only
   way to lift the suppression is the warning's own checkbox, which is not on screen.
   */
  lemma {:induction false} SuppressionIsPermanent(s: State, events: seq<Event>)
    requires s.dontShowModalAgain && !s.showModal
    requires Feasible(s, events)
    ensures Run(s, events).dontShowModalAgain && !Run(s, events).showModal
    decreases |events|
  {
    if events != [] {
      EnabledStepKeeps(s, events[0]);
      SuppressionIsPermanent(Step(s, events[0]), events[1..]);
    }
  }

  /**
   Red-KPI callbacks are scheduled only by senior-executive commits and each runs
   once: the pending ones are those scheduled minus those that ran.
   */
  lemma {:induction false} RedKPITimerAccounting(s: State, events: seq<Event>)
    requires Feasible(s, events)
    ensures Run(s, events).redKPITimersPending + RedKPIFirings(events)
            == s.redKPITimersPending + SeniorCommits(events)
    decreases |events|
  {
    if events != [] {
      EnabledStepKeeps(s, events[0]);
      assert SeniorCommits(events) == Scheduled(events[0]) + SeniorCommits(events[1..]);
      assert RedKPIFirings(events) == Fired(events[0]) + RedKPIFirings(events[1..]);
      RedKPITimerAccounting(Step(s, events[0]), events[1..]);
    }
  }

  /**
   The red-KPI report only ever appears in a session in which some commit chose the
   senior-executive user group (though not necessarily the latest one).
   */
  lemma {:induction false} RedKPIReportNeedsSeniorCommit(s: State, events: seq<Event>)
    requires Feasible(s, events)
    requires Run(s, events).showRedKPIModal
    ensures s.showRedKPIModal || s.redKPITimersPending > 0 || SeniorCommits(events) > 0
    decreases |events|
  {
    if events != [] {
      EnabledStepKeeps(s, events[0]);
      assert SeniorCommits(events) == Scheduled(events[0]) + SeniorCommits(events[1..]);
      RedKPIReportNeedsSeniorCommit(Step(s, events[0]), events[1..]);
    }
  }

  /** From the initial state, no red-KPI report without a senior-executive commit. */
  lemma NoReportWithoutSeniorCommit(events: seq<Event>)
    requires Feasible(Initial(), events)
    requires SeniorCommits(events) == 0
    ensures !Run(Initial(), events).showRedKPIModal
  {
    if Run(Initial(), events).showRedKPIModal {
      RedKPIReportNeedsSeniorCommit(Initial(), events);
    }
  }

  /** One enabled event followed by a feasible rest is feasible, and runs as the two parts do. */
  lemma FeasibleCons(s: State, e: Event, rest: seq<Event>)
    requires Enabled(s, e) && Feasible(Step(s, e), rest)
    ensures Feasible(s, [e] + rest) && Run(s, [e] + rest) == Run(Step(s, e), rest)
  {
    assert ([e] + rest)[1..] == rest;
  }

  /**
   The red-KPI callback is not cancelled by a later commit: committing the senior
   executive group and then, before the callback runs, another group shows the report
   to that other group.
   */
  lemma StaleRedKPICallback()
    ensures var other := Filters("Organisator", DefaultLevel, "", "", "", "");
            var senior := other.(nutzergruppe := SeniorExecutive);
            var events := [LoginSucceeded, LoadingTimerFired(true), FiltersStarted(senior, false),
                           FiltersStarted(other, false), RedKPITimerFired];
            var r := Run(Initial(), events);
            Feasible(Initial(), events) && r.showRedKPIModal && r.filters.nutzergruppe != SeniorExecutive
  {
    var other := Filters("Organisator", DefaultLevel, "", "", "", "");
    var senior := other.(nutzergruppe := SeniorExecutive);
    var e0, e1, e2, e3, e4 := LoginSucceeded, LoadingTimerFired(true), FiltersStarted(senior, false),
                              FiltersStarted(other, false), RedKPITimerFired;
    var s0 := Initial();
    var s1 := Step(s0, e0);
    var s2 := Step(s1, e1);
    var s3 := Step(s2, e2);
    var s4 := Step(s3, e3);
    var s5 := Step(s4, e4);
    assert s5.showRedKPIModal && s5.filters.nutzergruppe == "Organisator";
    FeasibleCons(s4, e4, []);
    FeasibleCons(s3, e3, [e4]);
    FeasibleCons(s2, e2, [e3, e4]);
    FeasibleCons(s1, e1, [e2, e3, e4]);
    FeasibleCons(s0, e0, [e1, e2, e3, e4]);
  }

  /** Fresh session, login, loading delay: the content is shown and, unless skipped, the onboarding modal. */
  lemma FirstLoginOffersOnboarding()
    ensures var events := [LoginSucceeded, LoadingTimerFired(false)];
            var r := Run(Initial(), events);
            Feasible(Initial(), events) && !r.isLoading && r.showOnboardingModal && !r.showOnboardingTour
  {
  }

  /** A senior-executive commit followed by its callback shows the report. */
  lemma SeniorCommitShowsReport(s: State, temp: Filters, resetCardOrder: bool)
    requires temp.nutzergruppe == SeniorExecutive
    ensures var r := FireRedKPITimer(Start(s, temp, resetCardOrder));
            r.showRedKPIModal && r.hasShownRedKPIModal
  {
  }

  /** Logout then login replays the loading phase, whatever the session did before. */
  lemma LogoutReplaysLoading(s: State)
    requires s.isAuthenticated
    ensures var r := LoginSuccess(Logout(s));
            r.isAuthenticated && r.isLoading && r.loadingTimerPending && !r.hasStarted
            && r.filters == s.filters && r.dontShowModalAgain == s.dontShowModalAgain
            && r.cardOrder == s.cardOrder
  {
  }

  /**
   Committing the same selection twice runs the reset effect at most once: the second
   commit resolves the level the same way, so the six-tuple does not change.
   */
  lemma RecommitKeepsReport(s: State, temp: Filters, resetCardOrder: bool)
    ensures var once := Start(s, temp, resetCardOrder);
            var twice := Start(once, temp, resetCardOrder);
            twice.filters == once.filters
            && twice.showRedKPIModal == once.showRedKPIModal
            && twice.hasShownRedKPIModal == once.hasShownRedKPIModal
  {
  }

  /** Orders set for two different views do not interfere. */
  lemma CardOrderChangesCommute(s: State, v: View, a: seq<string>, w: View, b: seq<string>)
    requires v != w
    ensures CardOrderChange(CardOrderChange(s, v, a), w, b) == CardOrderChange(CardOrderChange(s, w, b), v, a)
  {
  }
}
