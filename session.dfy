/**
 The session record of the dashboard's root component (App.tsx) and one pure
 transition per handler, effect and timer callback. A handler's transition returns the
 record after its setters and after every effect whose dependencies those setters
 changed. `Commit` and `ResetOnFilterChange` are the two halves of `Start`: the setters
 of `handleStart` alone, and the effect they trigger.
 Timers are explicit: `loadingTimerPending` is the one-shot loading timer armed by
 the authentication effect, `redKPITimersPending` counts the red-KPI callbacks that
 `handleStart` scheduled and that have not run yet.
 */
module Session {

  /** The level the filter view offers for "no level chosen". */
  const Unspecified: string := "Keine Angabe"

  /** The level committed instead of `Unspecified` when the level warning is raised. */
  const DefaultLevel: string := "Gering"

  /** The user group for which the red-KPI report is shown automatically. */
  const SeniorExecutive: string := "Leitender Angestellter"

  /** The three dashboard perspectives that keep their own card order. */
  datatype View = Organizer | Auftraggeber | Techniker

  datatype Option<T> = None | Some(value: T)

  /**
   The card-order store: for each view, the user's order of card ids, or `None`
   when that view has no entry.
   */
  datatype CardOrder = CardOrder(
    organizer: Option<seq<string>>,
    auftraggeber: Option<seq<string>>,
    techniker: Option<seq<string>>)
  {
    function Get(view: View): Option<seq<string>> {
      match view
      case Organizer => organizer
      case Auftraggeber => auftraggeber
      case Techniker => techniker
    }

    /** The store with `view`'s entry replaced by `order` and the other entries kept. */
    function Set(view: View, order: seq<string>): (c: CardOrder)
      ensures c.Get(view) == Some(order)
      ensures forall v :: v != view ==> c.Get(v) == Get(v)
    {
      match view
      case Organizer => this.(organizer := Some(order))
      case Auftraggeber => this.(auftraggeber := Some(order))
      case Techniker => this.(techniker := Some(order))
    }
  }

  /** The store with no entry for any view (the `{}` of the source). */
  const NoCardOrder: CardOrder := CardOrder(None, None, None)

  /** The six committed filter values: the dependency list of the red-KPI reset effect. */
  datatype Filters = Filters(
    nutzergruppe: string,
    level: string,
    format: string,
    startDate: string,
    endDate: string,
    eventCount: string)

  datatype State = State(
    isAuthenticated: bool,
    showOnboardingModal: bool,
    showOnboardingTour: bool,
    filters: Filters,
    hasStarted: bool,
    showModal: bool,            // level-warning modal
    dontShowModalAgain: bool,   // suppresses the level warning
    isLoading: bool,
    showRedKPIModal: bool,
    hasShownRedKPIModal: bool,
    cardOrder: CardOrder,
    loadingTimerPending: bool,
    redKPITimersPending: nat)

  /** The values every `useState` starts with; no timer is pending. */
  function Initial(): State {
    State(
      isAuthenticated := false,
      showOnboardingModal := false,
      showOnboardingTour := false,
      filters := Filters("", Unspecified, "", "", "", ""),
      hasStarted := false,
      showModal := false,
      dontShowModalAgain := false,
      isLoading := true,
      showRedKPIModal := false,
      hasShownRedKPIModal := false,
      cardOrder := NoCardOrder,
      loadingTimerPending := false,
      redKPITimersPending := 0)
  }

  /**
   The loading effect depends on `isAuthenticated` only. It re-runs when that value
   changes: its cleanup cancels the pending timer and its body arms a new one when
   the user is now authenticated. When the value does not change nothing happens.
   */
  function LoadingTimerAfter(wasAuthenticated: bool, isAuthenticated: bool, pending: bool): bool {
    if wasAuthenticated == isAuthenticated then pending else isAuthenticated
  }

  /** `handleLoginSuccess`: the opaque success signal of the login view. */
  function LoginSuccess(s: State): (r: State)
    ensures r.isAuthenticated
    ensures !s.isAuthenticated ==> r.loadingTimerPending
    ensures s.isAuthenticated ==> r == s
    // nothing else changes
    ensures r.(isAuthenticated := s.isAuthenticated, loadingTimerPending := s.loadingTimerPending) == s
  {
    s.(isAuthenticated := true,
       loadingTimerPending := LoadingTimerAfter(s.isAuthenticated, true, s.loadingTimerPending))
  }

  /** `handleLogout`: back to the login view, the next login replays the loading phase. */
  function Logout(s: State): (r: State)
    ensures !r.isAuthenticated && !r.hasStarted && r.isLoading
    ensures s.isAuthenticated ==> !r.loadingTimerPending
    ensures !s.isAuthenticated ==> r.loadingTimerPending == s.loadingTimerPending
    // filters, suppression flag, modal flags and card order are kept
    ensures r.(isAuthenticated := s.isAuthenticated, hasStarted := s.hasStarted,
               isLoading := s.isLoading, loadingTimerPending := s.loadingTimerPending) == s
  {
    s.(isAuthenticated := false, hasStarted := false, isLoading := true,
       loadingTimerPending := LoadingTimerAfter(s.isAuthenticated, false, s.loadingTimerPending))
  }

  /**
   The loading timer's callback. `skipOnboarding` is whether the value stored under
   "skipOnboarding" is a non-empty string (the callback tests its truthiness, so a
   missing key and an empty string both show the modal). A cancelled or never-armed
   timer does not run.
   */
  function FireLoadingTimer(s: State, skipOnboarding: bool): (r: State)
    ensures s.loadingTimerPending ==> !r.isLoading && !r.loadingTimerPending
    ensures s.loadingTimerPending ==> (r.showOnboardingModal <==> s.showOnboardingModal || !skipOnboarding)
    ensures !s.loadingTimerPending ==> r == s
    // nothing else changes
    ensures r.(isLoading := s.isLoading, loadingTimerPending := s.loadingTimerPending,
               showOnboardingModal := s.showOnboardingModal) == s
  {
    if !s.loadingTimerPending then s
    else if skipOnboarding then s.(isLoading := false, loadingTimerPending := false)
    else s.(isLoading := false, showOnboardingModal := true, loadingTimerPending := false)
  }

  /** `handleStartOnboardingTour`: the onboarding modal hands over to the tour. */
  function StartOnboardingTour(s: State): (r: State)
    ensures !r.showOnboardingModal && r.showOnboardingTour
    ensures r.(showOnboardingModal := s.showOnboardingModal, showOnboardingTour := s.showOnboardingTour) == s
  {
    s.(showOnboardingModal := false, showOnboardingTour := true)
  }

  /** `handleCloseOnboardingModal`: the user declines the tour. */
  function CloseOnboardingModal(s: State): (r: State)
    ensures !r.showOnboardingModal
    ensures r.(showOnboardingModal := s.showOnboardingModal) == s
  {
    s.(showOnboardingModal := false)
  }

  /** `handleCompleteOnboardingTour`. */
  function CompleteOnboardingTour(s: State): (r: State)
    ensures !r.showOnboardingTour
    ensures r.(showOnboardingTour := s.showOnboardingTour) == s
  {
    s.(showOnboardingTour := false)
  }

  /** `handleManualStartTour`: the settings entry point, independent of the modal. */
  function ManualStartTour(s: State): (r: State)
    ensures r.showOnboardingTour
    ensures r.(showOnboardingTour := s.showOnboardingTour) == s
  {
    s.(showOnboardingTour := true)
  }

  /** The level `handleStart` commits, and whether it raises the level warning. */
  datatype Resolution = Resolution(level: string, warn: bool)

  /**
   Level resolution in `handleStart`: only an unsuppressed "Keine Angabe" is replaced,
   by "Gering", and only then is the level warning raised.
   */
  function ResolveLevel(tempLevel: string, dontShowModalAgain: bool): (r: Resolution)
    ensures r.warn <==> tempLevel == Unspecified && !dontShowModalAgain
    ensures r.warn ==> r.level == DefaultLevel
    ensures !r.warn ==> r.level == tempLevel
    ensures r.level == Unspecified ==> dontShowModalAgain
  {
    if tempLevel == Unspecified && !dontShowModalAgain then Resolution(DefaultLevel, true)
    else Resolution(tempLevel, false)
  }

  /**
   The effect that runs after a render in which one of the six committed filter
   values changed: it hides the red-KPI report and clears its one-shot flag.
   `previous` is the six-tuple the last run of the effect saw.
   */
  function ResetOnFilterChange(previous: Filters, s: State): (r: State)
    ensures s.filters != previous ==> !r.showRedKPIModal && !r.hasShownRedKPIModal
    ensures s.filters == previous ==> r == s
    ensures r.(showRedKPIModal := s.showRedKPIModal, hasShownRedKPIModal := s.hasShownRedKPIModal) == s
  {
    if s.filters == previous then s
    else s.(showRedKPIModal := false, hasShownRedKPIModal := false)
  }

  /**
   The fields no setter of `handleStart` writes: authentication, loading and its timer,
   onboarding, the red-KPI flags and the suppression flag have the same values in `r`
   as in `s`.
   */
  predicate KeepsUntouchedByStart(s: State, r: State) {
    && r.isAuthenticated == s.isAuthenticated
    && r.isLoading == s.isLoading
    && r.loadingTimerPending == s.loadingTimerPending
    && r.showOnboardingModal == s.showOnboardingModal
    && r.showOnboardingTour == s.showOnboardingTour
    && r.showRedKPIModal == s.showRedKPIModal
    && r.hasShownRedKPIModal == s.hasShownRedKPIModal
    && r.dontShowModalAgain == s.dontShowModalAgain
  }

  /**
   The setters of `handleStart(temp..., resetCardOrder)`, before any effect runs.
   `temp` carries the six values the filter view emits, `temp.level` being the
   requested (unresolved) level.
   */
  function Commit(s: State, temp: Filters, resetCardOrder: bool): (r: State)
    // five values are copied verbatim
    ensures r.filters.nutzergruppe == temp.nutzergruppe && r.filters.format == temp.format
    ensures r.filters.startDate == temp.startDate && r.filters.endDate == temp.endDate
    ensures r.filters.eventCount == temp.eventCount
    // level resolution
    ensures temp.level == Unspecified && !s.dontShowModalAgain ==> r.filters.level == DefaultLevel && r.showModal
    ensures !(temp.level == Unspecified && !s.dontShowModalAgain) ==>
              r.filters.level == temp.level && r.showModal == s.showModal
    ensures r.hasStarted
    // the card order is cleared exactly on request; one red-KPI callback per senior-executive commit
    ensures resetCardOrder ==> r.cardOrder == NoCardOrder
    ensures !resetCardOrder ==> r.cardOrder == s.cardOrder
    ensures r.redKPITimersPending == s.redKPITimersPending + if temp.nutzergruppe == SeniorExecutive then 1 else 0
    // authentication, loading, onboarding, the red-KPI flags and the suppression flag are kept
    ensures KeepsUntouchedByStart(s, r)
  {
    var resolved := ResolveLevel(temp.level, s.dontShowModalAgain);
    State(s.isAuthenticated, s.showOnboardingModal, s.showOnboardingTour,
          temp.(level := resolved.level),                                     // the six filter setters
          true,                                                               // setHasStarted
          resolved.warn || s.showModal,                                       // setShowModal(true) on a warning
          s.dontShowModalAgain, s.isLoading, s.showRedKPIModal, s.hasShownRedKPIModal,
          if resetCardOrder then NoCardOrder else s.cardOrder,                // setCardOrder({}) on request
          s.loadingTimerPending,
          s.redKPITimersPending + if temp.nutzergruppe == SeniorExecutive then 1 else 0)  // setTimeout
  }

  /**
   `handleStart` as a whole: its setters, then the reset effect when the committed
   six-tuple changed (compared after level resolution, so "Keine Angabe" resolved to
   "Gering" counts as "Gering").
   */
  function Start(s: State, temp: Filters, resetCardOrder: bool): (r: State)
    ensures r.filters == Commit(s, temp, resetCardOrder).filters
    ensures r.filters != s.filters ==> !r.showRedKPIModal && !r.hasShownRedKPIModal
    ensures r.filters == s.filters ==>
              r.showRedKPIModal == s.showRedKPIModal && r.hasShownRedKPIModal == s.hasShownRedKPIModal
    // apart from the two red-KPI flags, the result is that of the setters
    ensures r.(showRedKPIModal := s.showRedKPIModal, hasShownRedKPIModal := s.hasShownRedKPIModal)
            == Commit(s, temp, resetCardOrder)
  {
    ResetOnFilterChange(s.filters, Commit(s, temp, resetCardOrder))
  }

  /** The red-KPI callback scheduled by `handleStart`; it has no cancellation. */
  function FireRedKPITimer(s: State): (r: State)
    ensures s.redKPITimersPending > 0 ==>
              r.showRedKPIModal && r.hasShownRedKPIModal && r.redKPITimersPending == s.redKPITimersPending - 1
    ensures s.redKPITimersPending == 0 ==> r == s
    ensures r.(showRedKPIModal := s.showRedKPIModal, hasShownRedKPIModal := s.hasShownRedKPIModal,
               redKPITimersPending := s.redKPITimersPending) == s
  {
    if s.redKPITimersPending == 0 then s
    else s.(showRedKPIModal := true, hasShownRedKPIModal := true,
            redKPITimersPending := s.redKPITimersPending - 1)
  }

  /** `handleDontShowAgain`: the level already committed is not revisited. */
  function DontShowAgain(s: State, dontShow: bool): (r: State)
    ensures r.dontShowModalAgain == dontShow
    ensures r.(dontShowModalAgain := s.dontShowModalAgain) == s
  {
    s.(dontShowModalAgain := dontShow)
  }

  /** The level-warning modal's close callback. */
  function CloseLevelWarning(s: State): (r: State)
    ensures !r.showModal
    ensures r.(showModal := s.showModal) == s
  {
    s.(showModal := false)
  }

  /** The red-KPI modal's close callback: the one-shot flag stays set. */
  function CloseRedKPIModal(s: State): (r: State)
    ensures !r.showRedKPIModal
    ensures r.(showRedKPIModal := s.showRedKPIModal) == s
  {
    s.(showRedKPIModal := false)
  }

  /** `handleCardOrderChange`: merge by key into the card-order store. */
  function CardOrderChange(s: State, view: View, order: seq<string>): (r: State)
    ensures r.cardOrder.Get(view) == Some(order)
    ensures forall v :: v != view ==> r.cardOrder.Get(v) == s.cardOrder.Get(v)
    ensures r.(cardOrder := s.cardOrder) == s
  {
    s.(cardOrder := s.cardOrder.Set(view, order))
  }

  /** One entry of the red-KPI report (its tooltip text is not modelled). */
  datatype RedKPI = RedKPI(title: string, value: string)

  /** `getRedKPIs`: the static report shown to the senior-executive group. */
  function RedKPIs(): (r: seq<RedKPI>)
    ensures |r| == 3
    ensures r[0].title == "Stornierungsquote"
    ensures r[1].title == "Technikkompatibilität (Location)"
    ensures r[2].title == "Technikkompatibilität (Format)"
  {
    [ RedKPI("Stornierungsquote", "50%"),
      RedKPI("Technikkompatibilität (Location)", "Ø50%"),
      RedKPI("Technikkompatibilität (Format)", "Ø50%") ]
  }
}
