/**
 The root component of App.tsx as an object: one field per `useState` (the six
 committed filter values as one record), one method per handler, effect or timer
 callback. Each handler's and timer callback's new state is the corresponding
 transition of the `Session` module applied to the old state, so every property proved
 there holds of this object. A handler may be called only when its event is enabled
 (`Traces.Enabled`: its component is on screen, or its timer is pending), and it keeps
 `Valid`, the invariant `Traces.Inv`. `LoadingEffect`, `FilterChangeEffect` and
 `SetSelection` are the steps the handlers are built from; each states its own part
 of the new state and does not promise `Valid` on its own.
 */
module Dashboard {
  import opened Session
  import opened Traces

  class App {
    var isAuthenticated: bool
    var showOnboardingModal: bool
    var showOnboardingTour: bool
    /** The six committed filter values (six `useState`s the handler always sets together). */
    var filters: Filters
    var hasStarted: bool
    var showModal: bool
    var dontShowModalAgain: bool
    var isLoading: bool
    var showRedKPIModal: bool
    var hasShownRedKPIModal: bool
    var cardOrder: CardOrder
    /** The loading timer armed by the authentication effect and not yet run or cleared. */
    var loadingTimerPending: bool
    /** The red-KPI callbacks `HandleStart` scheduled that have not run yet. */
    var redKPITimersPending: nat

    /** The component's state as a value of the session model. */
    function Snapshot(): State
      reads this
    {
      State(isAuthenticated, showOnboardingModal, showOnboardingTour, filters, hasStarted,
            showModal, dontShowModalAgain, isLoading, showRedKPIModal, hasShownRedKPIModal,
            cardOrder, loadingTimerPending, redKPITimersPending)
    }

    /** The consistency every reachable state of the component keeps (`Traces.Inv`). */
    predicate Valid()
      reads this
    {
      Inv(Snapshot())
    }

    /** Every `useState` with its initial value. */
    constructor ()
      ensures Snapshot() == Initial()
      ensures Valid()
    {
      isAuthenticated := false;
      showOnboardingModal := false;
      showOnboardingTour := false;
      filters := Filters("", Unspecified, "", "", "", "");
      hasStarted := false;
      showModal := false;
      dontShowModalAgain := false;
      isLoading := true;
      showRedKPIModal := false;
      hasShownRedKPIModal := false;
      cardOrder := NoCardOrder;
      loadingTimerPending := false;
      redKPITimersPending := 0;
    }

    /**
     The loading effect, run after a render in which `isAuthenticated` may have
     changed from `wasAuthenticated`: on a change, the cleanup clears the pending
     timer and the body arms a new one when the user is now authenticated.
     */
    method LoadingEffect(wasAuthenticated: bool)
      modifies this`loadingTimerPending
      ensures loadingTimerPending == LoadingTimerAfter(wasAuthenticated, isAuthenticated, old(loadingTimerPending))
    {
      if wasAuthenticated != isAuthenticated {
        loadingTimerPending := false;
        if isAuthenticated {
          loadingTimerPending := true;
        }
      }
    }

    method HandleLoginSuccess()
      requires Valid() && Enabled(Snapshot(), LoginSucceeded)
      modifies this
      ensures Snapshot() == LoginSuccess(old(Snapshot()))
      ensures Valid()
    {
      EnabledStepKeeps(Snapshot(), LoginSucceeded);
      var was := isAuthenticated;
      isAuthenticated := true;
      LoadingEffect(was);
    }

    method HandleLogout()
      requires Valid() && Enabled(Snapshot(), LogoutClicked)
      modifies this
      ensures Snapshot() == Logout(old(Snapshot()))
      ensures Valid()
    {
      EnabledStepKeeps(Snapshot(), LogoutClicked);
      var was := isAuthenticated;
      isAuthenticated := false;
      hasStarted := false;
      isLoading := true;
      LoadingEffect(was);
    }

    /** The loading timer's callback; `skipOnboarding` is whether the stored value is a non-empty string. */
    method FireLoadingTimer(skipOnboarding: bool)
      requires Valid() && Enabled(Snapshot(), LoadingTimerFired(skipOnboarding))
      modifies this
      ensures Snapshot() == Session.FireLoadingTimer(old(Snapshot()), skipOnboarding)
      ensures Valid()
    {
      EnabledStepKeeps(Snapshot(), LoadingTimerFired(skipOnboarding));
      if loadingTimerPending {
        loadingTimerPending := false;
        isLoading := false;
        if !skipOnboarding {
          showOnboardingModal := true;
        }
      }
    }

    method HandleStartOnboardingTour()
      requires Valid() && Enabled(Snapshot(), OnboardingTourStarted)
      modifies this
      ensures Snapshot() == StartOnboardingTour(old(Snapshot()))
      ensures Valid()
    {
      EnabledStepKeeps(Snapshot(), OnboardingTourStarted);
      showOnboardingModal := false;
      showOnboardingTour := true;
    }

    method HandleCloseOnboardingModal()
      requires Valid() && Enabled(Snapshot(), OnboardingModalClosed)
      modifies this
      ensures Snapshot() == CloseOnboardingModal(old(Snapshot()))
      ensures Valid()
    {
      EnabledStepKeeps(Snapshot(), OnboardingModalClosed);
      showOnboardingModal := false;
    }

    method HandleCompleteOnboardingTour()
      requires Valid() && Enabled(Snapshot(), OnboardingTourCompleted)
      modifies this
      ensures Snapshot() == CompleteOnboardingTour(old(Snapshot()))
      ensures Valid()
    {
      EnabledStepKeeps(Snapshot(), OnboardingTourCompleted);
      showOnboardingTour := false;
    }

    method HandleManualStartTour()
      requires Valid() && Enabled(Snapshot(), TourStartedManually)
      modifies this
      ensures Snapshot() == ManualStartTour(old(Snapshot()))
      ensures Valid()
    {
      EnabledStepKeeps(Snapshot(), TourStartedManually);
      showOnboardingTour := true;
    }

    /**
     The red-KPI reset effect, run after a render whose committed six-tuple may differ
     from `previous`, the one its last run saw.
     */
    method FilterChangeEffect(previous: Filters)
      modifies this`showRedKPIModal, this`hasShownRedKPIModal
      ensures Snapshot() == ResetOnFilterChange(previous, old(Snapshot()))
    {
      if filters != previous {
        hasShownRedKPIModal := false;
        showRedKPIModal := false;
      }
    }

    /**
     The setters of `handleStart`, in the handler's order; React applies them together
     before the next render, so no effect runs in between.
     */
    method SetSelection(temp: Filters, resetCardOrder: bool)
      modifies this
      ensures Snapshot() == Commit(old(Snapshot()), temp, resetCardOrder)
    {
      if resetCardOrder {
        cardOrder := NoCardOrder;
      }
      if temp.level == Unspecified && !dontShowModalAgain {
        showModal := true;
        filters := temp.(level := DefaultLevel);
      } else {
        filters := temp;
      }
      hasStarted := true;
      if temp.nutzergruppe == SeniorExecutive {
        redKPITimersPending := redKPITimersPending + 1;
      }
    }

    /** `handleStart`: the setters, then the reset effect on the six committed values. */
    method HandleStart(tempNutzergruppe: string, tempLevel: string, tempFormat: string,
                       tempStartDate: string, tempEndDate: string, tempEventCount: string,
                       resetCardOrder: bool := false)
      requires Valid()
      requires Enabled(Snapshot(), FiltersStarted(Filters(tempNutzergruppe, tempLevel, tempFormat, tempStartDate,
                                                          tempEndDate, tempEventCount), resetCardOrder))
      modifies this
      ensures Snapshot() == Start(old(Snapshot()),
                                  Filters(tempNutzergruppe, tempLevel, tempFormat, tempStartDate, tempEndDate, tempEventCount),
                                  resetCardOrder)
      ensures Valid()
    {
      var temp := Filters(tempNutzergruppe, tempLevel, tempFormat, tempStartDate, tempEndDate, tempEventCount);
      EnabledStepKeeps(Snapshot(), FiltersStarted(temp, resetCardOrder));
      var previous := filters;
      SetSelection(temp, resetCardOrder);
      FilterChangeEffect(previous);
    }

    /** The red-KPI callback; it runs only if `HandleStart` scheduled it. */
    method FireRedKPITimer()
      requires Valid() && Enabled(Snapshot(), RedKPITimerFired)
      modifies this
      ensures Snapshot() == Session.FireRedKPITimer(old(Snapshot()))
      ensures Valid()
    {
      EnabledStepKeeps(Snapshot(), RedKPITimerFired);
      if redKPITimersPending > 0 {
        redKPITimersPending := redKPITimersPending - 1;
        showRedKPIModal := true;
        hasShownRedKPIModal := true;
      }
    }

    method HandleDontShowAgain(dontShow: bool)
      requires Valid() && Enabled(Snapshot(), DontShowAgainChanged(dontShow))
      modifies this
      ensures Snapshot() == DontShowAgain(old(Snapshot()), dontShow)
      ensures Valid()
    {
      EnabledStepKeeps(Snapshot(), DontShowAgainChanged(dontShow));
      dontShowModalAgain := dontShow;
    }

    /** The level-warning modal's `onClose`. */
    method CloseLevelWarning()
      requires Valid() && Enabled(Snapshot(), LevelWarningClosed)
      modifies this
      ensures Snapshot() == Session.CloseLevelWarning(old(Snapshot()))
      ensures Valid()
    {
      EnabledStepKeeps(Snapshot(), LevelWarningClosed);
      showModal := false;
    }

    /** The red-KPI modal's `onClose`. */
    method CloseRedKPIModal()
      requires Valid() && Enabled(Snapshot(), RedKPIModalClosed)
      modifies this
      ensures Snapshot() == Session.CloseRedKPIModal(old(Snapshot()))
      ensures Valid()
    {
      EnabledStepKeeps(Snapshot(), RedKPIModalClosed);
      showRedKPIModal := false;
    }

    method HandleCardOrderChange(view: View, order: seq<string>)
      requires Valid() && Enabled(Snapshot(), CardOrderChanged(view, order))
      modifies this
      ensures Snapshot() == CardOrderChange(old(Snapshot()), view, order)
      ensures Valid()
    {
      EnabledStepKeeps(Snapshot(), CardOrderChanged(view, order));
      cardOrder := cardOrder.Set(view, order);
    }
  }

}
