# Dashboard session state (App.tsx)

A Dafny model of the root React component `App` of the event-KPI dashboard. The
component owns one record of session state. Its fields are:

- authentication and the loading skeleton;
- the onboarding modal and the onboarding tour;
- the six committed filter values (user group, level, format, start date, end date,
  event count);
- whether the KPI grid has been started;
- the level-warning modal and its suppression checkbox;
- the red-KPI report modal and its "already shown" flag;
- the per-view card order.

Handlers, two effects and two timer callbacks change that record. Rendering is not
modelled beyond "a component is on screen iff its flag says so", which decides the
events that can happen.

The project has three modules:

- `Session` (session.dfy) holds the state as a value (`State`, `Filters`, `CardOrder`)
  and one pure transition per handler, effect and timer callback. Each transition's
  contract states the fields it sets and that every other field is kept. `Commit` (the
  setters of `handleStart`) and `ResetOnFilterChange` (the effect they trigger) are the
  two halves of `Start`; `Start` states its red-KPI flags and that every other field is
  as `Commit` left it.
- `Traces` (traces.dfy) holds events and sessions. `Enabled` says which events the
  rendered page can emit in a state, or which timer is pending. `Step`/`Run` apply
  them. The lemmas there state what holds of every reachable state:
  - the loading gate and the red-KPI flags stay consistent (`Inv`);
  - a suppressed and closed level warning never comes back;
  - red-KPI callbacks are counted exactly;
  - the report needs a senior-executive commit;
  - a stale red-KPI callback shows the report after the selection has moved on.
- `Dashboard` (dashboard.dfy) holds the component as a class `App` with one mutable
  field per `useState`. The six filter values are one field of type `Filters`, because
  the only handler that writes them always writes all six. Each handler, effect and
  timer callback is a method. Each handler and timer callback is proved to produce
  exactly `Session.<transition>(old state)`. It requires its event to be enabled and
  keeps `Valid()`, which is `Traces.Inv` of the object's state. The helpers
  `LoadingEffect`, `FilterChangeEffect` and `SetSelection` are steps inside the
  handlers: `LoadingEffect` states only the loading timer, and the other two state
  `Session.ResetOnFilterChange` and `Session.Commit` of the old state.

Timers are explicit state:

- `loadingTimerPending` is the 1500 ms loading timer. The authentication effect arms it
  when `isAuthenticated` becomes true and clears it when `isAuthenticated` becomes false.
- `redKPITimersPending` counts the 100 ms red-KPI callbacks. `handleStart` schedules one
  for the user group "Leitender Angestellter" (senior executive), and nothing ever
  cancels them.

Firing a timer is an event. It is enabled only while that timer is pending.

The filter-change effect runs only when the committed six-tuple actually changes
value. The comparison uses the resolved level, so "Keine Angabe" committed as "Gering"
counts as "Gering".

The flag `hasShownRedKPIModal` is described as a one-shot guard that allows at most
one automatic report per filter selection. The component only writes it: no code path
reads it, and every senior-executive commit schedules a new report. The model follows
the code. `Inv` records the only relation the code keeps: a visible report has the flag
set.

## Model

| member | source | states |
|---|---|---|
| Session.CardOrder.Set | App.tsx:160-165 | the chosen view's entry becomes the new order and the other two views' entries are unchanged |
| Session.LoginSuccess | App.tsx:61-63 | the user is authenticated; a first login arms the loading timer; logging in again changes nothing; no other field changes |
| Session.Logout | App.tsx:65-69 | logged out, grid hidden, skeleton back on; a pending loading timer is cancelled; filters, suppression flag, modal flags and card order are kept |
| Session.FireLoadingTimer | App.tsx:46-59 | a pending timer ends loading and opens the onboarding modal unless onboarding is skipped; a timer that is not pending does nothing; nothing else changes |
| Session.StartOnboardingTour | App.tsx:71-74 | the modal is hidden and the tour is shown; nothing else changes |
| Session.CloseOnboardingModal | App.tsx:76-78 | only the onboarding modal flag is cleared |
| Session.CompleteOnboardingTour | App.tsx:80-82 | only the tour flag is cleared |
| Session.ManualStartTour | App.tsx:84-86 | only the tour flag is set |
| Session.ResolveLevel | App.tsx:115-121 | the warning is raised iff the level is "Keine Angabe" and not suppressed; then the level becomes "Gering", otherwise it is the requested level; "Keine Angabe" is committed only when suppressed |
| Session.ResetOnFilterChange | App.tsx:88-92 | a changed six-tuple hides the report and clears its flag; an unchanged one leaves the state as it is; no other field changes |
| Session.Commit | App.tsx:94-133 | five values are copied verbatim; the level is resolved, and the warning is set, or else left as it was (never cleared); the grid is started; the card order is cleared exactly when requested; one red-KPI callback is scheduled exactly for "Leitender Angestellter"; authentication, loading and its timer, onboarding, the red-KPI flags and the suppression flag are kept |
| Session.Start | App.tsx:88-133 | `handleStart` and then the reset effect: the red flags are cleared when the committed tuple changed and kept when it did not; every other field is as the setters left it |
| Session.FireRedKPITimer | App.tsx:125-132 | a pending callback shows the report, sets its flag and is used up; with none pending nothing happens; nothing else changes |
| Session.DontShowAgain | App.tsx:135-137 | only the suppression flag changes, to the given value |
| Session.CloseLevelWarning | App.tsx:188-193 | only the level-warning flag is cleared |
| Session.CloseRedKPIModal | App.tsx:195-200 | only the report's visibility is cleared; its flag stays set |
| Session.CardOrderChange | App.tsx:160-165 | merge by key: the view's entry is the new order, the other views' entries are unchanged, nothing else changes |
| Session.RedKPIs | App.tsx:139-158 | the report lists exactly three KPIs: "Stornierungsquote", "Technikkompatibilität (Location)", "Technikkompatibilität (Format)" |
| Traces.RunPreservesInv | App.tsx:15-165 | every feasible session keeps `Inv`: logged out means skeleton on, grid off and no loading timer; logged in, the skeleton is shown exactly while the loading timer is pending; the grid is never shown over the skeleton; a visible report has its flag set |
| Traces.ReachableStatesAreConsistent | App.tsx:15-43 | `Inv` holds of every state reachable from the initial `useState` values |
| Traces.SuppressionIsPermanent | App.tsx:116-121 | once the warning is suppressed and closed, no event sequence shows it again or lifts the suppression |
| Traces.RedKPITimerAccounting | App.tsx:125-132 | pending callbacks plus callbacks run equal pending at the start plus senior-executive commits |
| Traces.RedKPIReportNeedsSeniorCommit | App.tsx:125-132 | a report visible at the end was visible at the start, or some callback was pending, or some commit chose "Leitender Angestellter" |
| Traces.NoReportWithoutSeniorCommit | App.tsx:125-132 | from the initial state, without a senior-executive commit the report never appears |
| Traces.StaleRedKPICallback | App.tsx:125-132 | the senior-executive commit, then another group's commit, then the callback: a feasible session that ends showing the report for a non-senior-executive selection |
| Traces.FirstLoginOffersOnboarding | App.tsx:46-63 | login followed by the loading timer, without the skip key, ends loading and opens the onboarding modal |
| Traces.SeniorCommitShowsReport | App.tsx:125-132 | a senior-executive commit followed by its callback shows the report and sets its flag |
| Traces.LogoutReplaysLoading | App.tsx:57-69 | logout then login restarts the skeleton and arms a new loading timer, keeping filters, suppression and card order |
| Traces.RecommitKeepsReport | App.tsx:88-133 | committing the same selection twice leaves the committed tuple and both red flags as the first commit left them |
| Traces.CardOrderChangesCommute | App.tsx:160-165 | order changes for two different views commute |
| Dashboard.App.constructor | App.tsx:15-43 | the fields start with the `useState` defaults; no timer is pending; `Valid()` holds |
| Dashboard.App.LoadingEffect | App.tsx:46-59 | the timer is re-armed or cleared only when `isAuthenticated` changed |
| Dashboard.App.HandleLoginSuccess | App.tsx:61-63 | the new state is `Session.LoginSuccess` of the old one, and `Valid()` is kept |
| Dashboard.App.HandleLogout | App.tsx:65-69 | the new state is `Session.Logout` of the old one, and `Valid()` is kept |
| Dashboard.App.FireLoadingTimer | App.tsx:48-56 | the new state is `Session.FireLoadingTimer` of the old one, and `Valid()` is kept |
| Dashboard.App.HandleStartOnboardingTour | App.tsx:71-74 | the new state is `Session.StartOnboardingTour` of the old one, and `Valid()` is kept |
| Dashboard.App.HandleCloseOnboardingModal | App.tsx:76-78 | the new state is `Session.CloseOnboardingModal` of the old one, and `Valid()` is kept |
| Dashboard.App.HandleCompleteOnboardingTour | App.tsx:80-82 | the new state is `Session.CompleteOnboardingTour` of the old one, and `Valid()` is kept |
| Dashboard.App.HandleManualStartTour | App.tsx:84-86 | the new state is `Session.ManualStartTour` of the old one, and `Valid()` is kept |
| Dashboard.App.FilterChangeEffect | App.tsx:88-92 | the new state is `Session.ResetOnFilterChange` of the old one |
| Dashboard.App.SetSelection | App.tsx:103-132 | the new state is `Session.Commit` of the old one |
| Dashboard.App.HandleStart | App.tsx:94-133 | the new state is `Session.Start` of the old one, and `Valid()` is kept |
| Dashboard.App.FireRedKPITimer | App.tsx:128-131 | the new state is `Session.FireRedKPITimer` of the old one, and `Valid()` is kept |
| Dashboard.App.HandleDontShowAgain | App.tsx:135-137 | the new state is `Session.DontShowAgain` of the old one, and `Valid()` is kept |
| Dashboard.App.CloseLevelWarning | App.tsx:190 | the new state is `Session.CloseLevelWarning` of the old one, and `Valid()` is kept |
| Dashboard.App.CloseRedKPIModal | App.tsx:197 | the new state is `Session.CloseRedKPIModal` of the old one, and `Valid()` is kept |
| Dashboard.App.HandleCardOrderChange | App.tsx:160-165 | the new state is `Session.CardOrderChange` of the old one, and `Valid()` is kept |

## Left out

- Rendering (App.tsx:167-215) and the imported components are left out. Their only role here is which handler can be called in which state, and `Traces.Enabled` captures that.
- The tooltip texts of `getRedKPIs` are left out. They are static display strings; each entry keeps its title and value.
- Real time is left out. The 100 ms and 1500 ms delays are not modelled. Each timer firing is an event that can happen whenever its timer is pending, so every interleaving of pending timers and user events is allowed rather than the one the delays would produce.
- React's rendering schedule is reduced to two rules. Setters called in one handler take effect together. An effect runs after that update only when one of its dependency values changed.
- The initial mount run of both effects is left out. On the initial values it changes nothing: the loading effect does nothing while logged out, and the reset effect clears two flags that are already false.
- Unmounting the component is left out. Its cleanup would cancel a pending loading timer.
- `localStorage.getItem("skipOnboarding")` is a boolean parameter of the loading-timer callback: whether the stored value is a non-empty string, as the callback tests it; no storage is modelled.
- The login mechanism is left out. A successful login is an opaque event from the login view.
