# Subapplication loading and caching engine — a Dafny model

This project models the engine with which the host application of a
micro-frontend system loads its subapplications, keeps them alive once
loaded, and drives the loading feedback shown while they load:

- the **component cache** (`useMicroFrontendCache`): one entry
  `{component, isLoaded, error}` and one in-flight flag per subapplication
  id. The asynchronous `loadComponent` is split at its `await` into
  `Begin` (the already-loaded check, then raising the flag and invoking the
  loader) and `Settle` (storing the outcome, then lowering the flag as the
  `finally` block does). The loader's outcome is a parameter: success with
  a component, or failure with a thrown value;
- the **loading-phase tracker** (`useLoadingStates`): per id a phase
  (`initial`, `enhanced`, `skeleton`, `complete`, `error`, `timeout`), a
  start time, an elapsed time and a timed-out flag. Time is an explicit
  `now` argument, and each timer callback is its own event: the 500 ms and
  3000 ms promotions, the 100 ms tick, and the watchdog (8000 ms budget in
  `enhanced`, 15000 ms in the other non-terminal phases);
- the **activation orchestrators** `RouterLayout` and its older sibling
  `Layout`: the choice of the active app, the load effect (load when the
  entry is absent or neither loaded nor errored), retry (clear, a 50 ms
  wait, load), and the rendering decision as a pure function of the active
  app and the cache and tracker snapshots: every loaded instance stays
  mounted, at most the active one is displayed;
- **`useDynamicImport`**, a single-slot loader: reset, loading, then loaded
  or failed.

Each hook is a class whose fields are the maps or record the hook updates.
Each of its methods is specified by a pure function of the old state
(`Begin`, `Settle`, `Clear`, `Started`, `Promote`, `Ticked`, ...). The
promised properties are proved about those functions, as contracts and as
lemmas over whole runs of events: a loaded entry with no load pending for
its id is never evicted except by a clear or a retry's stale load, the
flag is lowered on every settlement, terminal phases do not regress, and
visibility is exclusive. The two loops of the tracker
(the tick's `forEach` and the watchdog's arming loop) are methods with
loop invariants.

Where the code does less than its comments and names suggest, the model
follows the code, as written:

- `loadComponent` tests only `isLoaded`, not the in-flight flag.
  `DoubleLoadOverwritesLoaded` shows two loads of one id running at once,
  and a late failure replacing a loaded entry. The comment above the
  trigger in host/src/components/RouterLayout.tsx:72 speaks of "not
  currently loading", but the condition at line 73 does not test it.
- `clearCache` does not fence a pending load. `StaleSettleAfterClear` shows
  a late success repopulating the cleared entry, and `LateFailureAfterRetry`
  shows a late failure undoing a successful retry. The code has no fence or
  single-claim primitive, and none is modelled.
- `loadComponent` reads the `componentCache` of the render it was created
  in. A retry awaits the `loadComponent` captured when retry was clicked,
  so after its 50 ms wait it tests the entry from before its own clear.
  For that reason `BeginSeen` takes the entry the closure saw as a
  parameter. `StaleRetryReloadsLoaded` shows the consequence: if the app
  was reloaded during the wait, the retry still invokes the loader, and
  that call's failure evicts the loaded entry.
- `loadComponent` catches every loader failure, so the router's `then`
  continuation calls `completeLoading` after a failure as well
  (`EffectLoadSettled`).
- An `Error` with an empty message is stored as `""`. That value is
  falsy, so the entry counts as neither loaded nor failed, and the load
  effect loads it again (`EmptyMessageIsNeitherLoadedNorFailed`).
- The ids are inconsistent across files. `AppId` holds all four of them:
  `tasks` and `contacts` (declared type, `Layout`, the flag seed) and
  `app1` and `users` (`RouterLayout`).

## Model

| member | source | states |
|---|---|---|
| ComponentCache.SettledEntry | host/src/hooks/useMicroFrontendCache.ts:43-65 | success stores the module's component, loaded, no error; failure stores no component, not loaded, and the Error's message or the default text for any other thrown value; both shapes are well-formed |
| ComponentCache.Lookup | host/src/hooks/useMicroFrontendCache.ts:75-77 | absent id gives nothing, a present id gives its entry |
| ComponentCache.FlagOf | host/src/hooks/useMicroFrontendCache.ts:82-84 | the flag defaults to false for an id without one |
| ComponentCache.EmptyCache | host/src/hooks/useMicroFrontendCache.ts:12-18 | no entries, no raised flag, nothing in flight; the initial cache is well-formed |
| ComponentCache.BeginSeen | host/src/hooks/useMicroFrontendCache.ts:29-37 | the skip test is on the entry the calling closure saw: seen loaded leaves the whole state unchanged; otherwise the flag is raised and one invocation is pending, whatever the current entry; entries and other ids untouched |
| ComponentCache.Begin | host/src/hooks/useMicroFrontendCache.ts:29-37 | an already-loaded id leaves the whole state unchanged (loader not invoked); otherwise the flag is raised and one invocation is pending; entries untouched; other ids untouched |
| ComponentCache.Settle | host/src/hooks/useMicroFrontendCache.ts:39-69 | stores exactly the outcome's entry for the id, lowers its flag on success and failure alike, ends one pending invocation, and changes no other id |
| ComponentCache.Clear | host/src/hooks/useMicroFrontendCache.ts:89-97 | whatever the prior state, no entry remains and the flag is false; pending invocations are not cancelled; other ids untouched |
| ComponentCache.Stats | host/src/hooks/useMicroFrontendCache.ts:102-115 | totalCached is the number of keys; loadedApps is exactly the loaded ids; failedApps exactly the ids with a truthy error |
| ComponentCache.StatsDisjoint | host/src/hooks/useMicroFrontendCache.ts:102-111 | in a well-formed cache no id is both loaded and failed, and every loaded id has its component |
| ComponentCache.StepKeepsWellFormed | host/src/hooks/useMicroFrontendCache.ts:29-95 | begin, settle and clear keep entries in a settlement's shape and a raised flag backed by a pending invocation |
| ComponentCache.RunKeepsWellFormed | host/src/hooks/useMicroFrontendCache.ts:29-95 | every state reachable by any run of events is well-formed |
| ComponentCache.LoadedStaysLoaded | host/src/hooks/useMicroFrontendCache.ts:30-34 | a loaded entry with no pending load for its id is unchanged by any run of events that neither clears it nor runs a retry's load whose closure saw it not loaded |
| ComponentCache.RunLeavesOtherIds | host/src/hooks/useMicroFrontendCache.ts:44-95 | events about other ids never change an id's entry, flag or pending count |
| ComponentCache.FlagHeldUntilSettled | host/src/hooks/useMicroFrontendCache.ts:37-69 | the flag raised by a load that was not skipped stays raised through any events for other ids, and its settlement lowers it on success or failure |
| ComponentCache.LateFailureAfterRetry | host/src/hooks/useMicroFrontendCache.ts:39-69 | a load pending across a clear and a successful reload settles afterwards; its failure leaves the app not loaded without any clear |
| ComponentCache.StaleRetryReloadsLoaded | host/src/components/RouterLayout.tsx:108-126 | a retry whose closure saw the errored entry still raises the flag and invokes the loader after a reload succeeded during its wait, and that call's failure evicts the loaded entry |
| ComponentCache.DoubleLoadOverwritesLoaded | host/src/hooks/useMicroFrontendCache.ts:30-37 | two loads begun before either settles both invoke the loader, and a late failure replaces the loaded entry |
| ComponentCache.StaleSettleAfterClear | host/src/hooks/useMicroFrontendCache.ts:89-95 | a load still pending across a clear repopulates the entry when it succeeds |
| ComponentCache.EmptyMessageIsNeitherLoadedNorFailed | host/src/hooks/useMicroFrontendCache.ts:63 | a failure whose Error message is empty leaves an entry listed neither as loaded nor as failed |
| ComponentCache.MicroFrontendCache.constructor | host/src/hooks/useMicroFrontendCache.ts:10-18 | the hook starts as the empty cache with the seeded flags |
| ComponentCache.MicroFrontendCache.BeginLoad | host/src/hooks/useMicroFrontendCache.ts:23-37 | reports whether the loader is invoked (iff the entry the closure saw is not loaded) and leaves the state BeginSeen gives |
| ComponentCache.MicroFrontendCache.SettleLoad | host/src/hooks/useMicroFrontendCache.ts:39-69 | settling a pending invocation leaves the state Settle gives |
| ComponentCache.MicroFrontendCache.ClearCache | host/src/hooks/useMicroFrontendCache.ts:89-97 | leaves the state Clear gives |
| ComponentCache.MicroFrontendCache.GetCachedComponent | host/src/hooks/useMicroFrontendCache.ts:75-77 | the entry Lookup gives for the current map |
| ComponentCache.MicroFrontendCache.IsLoading | host/src/hooks/useMicroFrontendCache.ts:82-84 | the flag FlagOf gives for the current map |
| ComponentCache.MicroFrontendCache.GetCacheStats | host/src/hooks/useMicroFrontendCache.ts:102-115 | the statistics Stats gives for the current map |
| LoadingStates.Started | host/src/hooks/useLoadingStates.ts:125-135 | the id gets phase initial, start time now, elapsed 0, not timed out; other ids unchanged |
| LoadingStates.Promote | host/src/hooks/useLoadingStates.ts:137-171 | moves the id to the target phase only if it is still in the source phase, stamping elapsed time and keeping start time and timed-out flag; otherwise the state is unchanged |
| LoadingStates.Ticked | host/src/hooks/useLoadingStates.ts:41-63 | same ids, phases never change, terminal entries untouched, non-terminal entries get elapsed = now - start |
| LoadingStates.TickStates | host/src/hooks/useLoadingStates.ts:43-61 | the per-id loop computes exactly Ticked, and reports an update iff some non-terminal id's elapsed time changes |
| LoadingStates.ArmedTimers | host/src/hooks/useLoadingStates.ts:72-89 | a timer for exactly the non-terminal ids: 8000 ms in enhanced, 15000 ms in the others |
| LoadingStates.ArmWatchdogs | host/src/hooks/useLoadingStates.ts:70-101 | the arming loop builds exactly ArmedTimers |
| LoadingStates.WatchdogFired | host/src/hooks/useLoadingStates.ts:90-99 | when due, the id becomes timeout with hasTimedOut, start and elapsed kept; otherwise nothing changes; other ids untouched |
| LoadingStates.WatchdogDeadline | host/src/hooks/useLoadingStates.ts:30-32 | a non-terminal id is due once 15000 ms have passed since its start, or 8000 ms in enhanced, and firing then times it out |
| LoadingStates.PhaseSet | host/src/hooks/useLoadingStates.ts:108-123 | sets any phase, keeps a truthy existing start time or takes now, stamps elapsed, always clears hasTimedOut |
| LoadingStates.Completed | host/src/hooks/useLoadingStates.ts:174-189 | no-op for an absent id; otherwise complete with the final elapsed time, start and timed-out flag kept |
| LoadingStates.TimedOut | host/src/hooks/useLoadingStates.ts:191-207 | no-op for an absent id; otherwise timeout, hasTimedOut, final elapsed time |
| LoadingStates.Metrics | host/src/hooks/useLoadingStates.ts:209-219 | nothing for an absent id; otherwise totalTime is the elapsed time, the phase and id are reported, and app1 alone is federation |
| LoadingStates.InPhase | host/src/hooks/useLoadingStates.ts:221-224 | false for an absent id |
| LoadingStates.InPhaseMatchesMetrics | host/src/hooks/useLoadingStates.ts:209-224 | an id is in a phase exactly when its metrics exist and report that phase |
| LoadingStates.ReplayKeepsKey | host/src/hooks/useLoadingStates.ts:41-207 | no tracker event removes an id once it is tracked |
| LoadingStates.SlowLoadStages | host/src/hooks/useLoadingStates.ts:137-171 | both promotions firing on time leave the id in skeleton, 3000 ms elapsed, start time kept |
| LoadingStates.ApplyKeepsTerminal | host/src/hooks/useLoadingStates.ts:41-207 | no event other than a restart of the id takes it out of a terminal phase |
| LoadingStates.TerminalPersists | host/src/hooks/useLoadingStates.ts:41-207 | terminal phases do not regress through any run of events without a restart of the id |
| LoadingStates.QuickLoadSkipsSkeleton | host/src/hooks/useLoadingStates.ts:138-189 | a load completed before its promotions fire never reaches skeleton and stays terminal |
| LoadingStates.StalledLoadTimesOut | host/src/hooks/useLoadingStates.ts:84-99 | a load promoted to enhanced and never settled is timed out, with hasTimedOut, once 8000 ms have passed |
| LoadingStates.LoadingStateTracker.constructor | host/src/hooks/useLoadingStates.ts:38 | the tracker starts empty |
| LoadingStates.LoadingStateTracker.StartLoading | host/src/hooks/useLoadingStates.ts:125-135 | leaves the state Started gives |
| LoadingStates.LoadingStateTracker.PromoteEnhanced | host/src/hooks/useLoadingStates.ts:138-153 | the 500 ms callback: initial to enhanced only |
| LoadingStates.LoadingStateTracker.PromoteSkeleton | host/src/hooks/useLoadingStates.ts:156-171 | the 3000 ms callback: enhanced to skeleton only |
| LoadingStates.LoadingStateTracker.PromoteFrom | host/src/hooks/useLoadingStates.ts:141-151 | the shared guarded update of both promotion callbacks leaves the state Promote gives |
| LoadingStates.LoadingStateTracker.Tick | host/src/hooks/useLoadingStates.ts:41-63 | one interval run leaves the state Ticked gives and reports whether it changed anything |
| LoadingStates.LoadingStateTracker.Watchdog | host/src/hooks/useLoadingStates.ts:69-106 | fires iff the id is due, leaving the state WatchdogFired gives |
| LoadingStates.LoadingStateTracker.SetLoadingPhase | host/src/hooks/useLoadingStates.ts:108-123 | leaves the state PhaseSet gives |
| LoadingStates.LoadingStateTracker.CompleteLoading | host/src/hooks/useLoadingStates.ts:174-189 | leaves the state Completed gives |
| LoadingStates.LoadingStateTracker.TimeoutLoading | host/src/hooks/useLoadingStates.ts:191-207 | leaves the state TimedOut gives |
| LoadingStates.LoadingStateTracker.GetLoadingMetrics | host/src/hooks/useLoadingStates.ts:209-219 | the metrics Metrics gives for the current map |
| LoadingStates.LoadingStateTracker.IsInPhase | host/src/hooks/useLoadingStates.ts:221-224 | the answer InPhase gives for the current map |
| DynamicImport.ImportErrorMessage | host/src/hooks/useDynamicImport.ts:54 | never empty: the thrown value's non-empty message, else the default text |
| DynamicImport.EffectState | host/src/hooks/useDynamicImport.ts:22-39 | reset state, loading only when loading is wanted and an import function exists, never an error or component |
| DynamicImport.SettledImport | host/src/hooks/useDynamicImport.ts:43-57 | no longer loading; exactly one of component and error present; success gives the module's component, failure its message |
| DynamicImport.DynamicImportHook.constructor | host/src/hooks/useDynamicImport.ts:15-19 | starts reset |
| DynamicImport.DynamicImportHook.RunEffect | host/src/hooks/useDynamicImport.ts:21-42 | resets, and starts an import iff shouldLoad and an import function are given |
| DynamicImport.DynamicImportHook.Settle | host/src/hooks/useDynamicImport.ts:43-57 | a pending import settling leaves the state SettledImport gives |
| Activation.EffectDecision | host/src/components/RouterLayout.tsx:70-94 | loads iff the entry is absent or neither loaded nor errored; otherwise already-loaded iff loaded, errored iff not loaded with a truthy error |
| Activation.MountedInstances | host/src/components/RouterLayout.tsx:238-275 | an instance is rendered iff its entry is loaded with a component |
| Activation.DisplayedInstances | host/src/components/RouterLayout.tsx:242-262 | only mounted instances are displayed, at most the active one, and it is iff loaded, not errored, not loading |
| Activation.MountedIsLoaded | host/src/components/Layout.tsx:150-187 | in a well-formed cache the mounted instances are exactly the loaded ids |
| Activation.InstanceSurvives | host/src/components/Layout.tsx:149-187 | a mounted instance with no pending load stays mounted, whatever the active app, through any run of events that neither clears it nor runs a retry's stale load of it |
| Activation.RetryRecovers | host/src/components/RouterLayout.tsx:108-126 | after a clear the entry is loadable again, the reload invokes the loader, and its success leaves a loaded entry with no error and the flag lowered |
| RouterShell.ActiveApp | host/src/components/RouterLayout.tsx:18-26 | always app1 or users; users exactly for "/users" or param users when no app1 condition holds |
| RouterShell.NavigationTarget | host/src/components/RouterLayout.tsx:98-105 | a target path exactly for app1 and users, and the active app derived from that path is the chosen id |
| RouterShell.PhaseOf | host/src/hooks/useLoadingStates.ts:221-224 | the reported phase is the one isInPhase holds for |
| RouterShell.MainPanels | host/src/components/RouterLayout.tsx:141-283 | while loading exactly one loader panel (enhanced, skeleton or spinner by phase), none otherwise; the timeout panel iff the phase is timeout; the error panel iff a truthy error outside timeout; the header iff not loading and not errored; the fallback iff not loading, not errored and not loaded |
| RouterShell.RouterScreen | host/src/components/RouterLayout.tsx:128-283 | mounted are the loaded instances; at most the active one is displayed; when it is, the header shows and no loader, error panel or fallback does |
| RouterShell.LoadRoundTrip | host/src/components/RouterLayout.tsx:73-88 | start and load, then any tracker events (promotions, ticks, watchdogs) and any cache events for other ids, keep the flag raised with the load pending; its success and the complete then leave the app loaded, flag lowered, phase complete |
| RouterShell.RouterLayout.constructor | host/src/components/RouterLayout.tsx:51-66 | one fresh cache and one fresh tracker, both empty |
| RouterShell.RouterLayout.LoadEffect | host/src/components/RouterLayout.tsx:69-95 | per the decision: start then invoke the loader; or complete an already-loaded app; or do nothing for an errored one |
| RouterShell.RouterLayout.EffectLoadSettled | host/src/components/RouterLayout.tsx:80-84 | the cache settles, then completeLoading runs, after success and failure alike |
| RouterShell.RouterLayout.HandleRetry | host/src/components/RouterLayout.tsx:108-116 | clears the cache entry and starts the wait, remembering the entry from before the clear that the retry's closure will test; the tracker is untouched |
| RouterShell.RouterLayout.RetryDelayElapsed | host/src/components/RouterLayout.tsx:118-120 | after the wait, loads again unless the entry seen before the clear was loaded; a reload finished during the wait does not stop it |
| RouterShell.RouterLayout.RetryLoadSettled | host/src/components/RouterLayout.tsx:120-125 | the retry's outcome is only stored in the cache; a failure goes no further |
| RouterShell.RouterLayout.Render | host/src/components/RouterLayout.tsx:128-283 | the screen RouterScreen gives for the active app of the location and the current cache and tracker |
| LayoutShell.LayoutPanels | host/src/components/Layout.tsx:97-195 | the spinner iff loading, the error panel iff a truthy error, the header iff not loading and not errored, the fallback iff not loading, not errored and not loaded |
| LayoutShell.LayoutScreen | host/src/components/Layout.tsx:85-195 | mounted are the loaded instances; at most the active one is displayed; when it is, neither spinner, error panel nor fallback shows |
| LayoutShell.Layout.constructor | host/src/components/Layout.tsx:10 | the initial active app is tasks, with an empty cache |
| LayoutShell.Layout.HandleAppChange | host/src/components/Layout.tsx:59-62 | the chosen app becomes active |
| LayoutShell.Layout.LoadEffect | host/src/components/Layout.tsx:44-57 | loads per the decision; loaded or errored entries trigger nothing |
| LayoutShell.Layout.LoadSettled | host/src/hooks/useMicroFrontendCache.ts:39-69 | a pending load settling leaves the state Settle gives |
| LayoutShell.Layout.HandleRetry | host/src/components/Layout.tsx:65-73 | clears the cache entry and starts the wait, remembering the entry from before the clear that the retry's closure will test |
| LayoutShell.Layout.RetryDelayElapsed | host/src/components/Layout.tsx:75-82 | after the wait, loads again unless the entry seen before the clear was loaded; a reload finished during the wait does not stop it |
| LayoutShell.Layout.Render | host/src/components/Layout.tsx:85-195 | the screen LayoutScreen gives for the active app and the current cache |

## Left out

- The loaders themselves: the real `import()` calls and the Module Federation remotes are I/O. A loader is an outcome chosen by the caller of `SettleLoad` and `Settle`.
- React effect scheduling. The watchdog effect cancels and re-arms its timers on every change of the tracker's map, the 100 ms tick included. Taken literally, no watchdog could fire while the tick keeps updating. The model instead treats each armed timer as an event that may fire once its budget has passed.
- LoadingStates.WatchdogFired: the budget is counted from the timeline's start time, not from the moment the timer was last armed, because re-arming follows React scheduling.
- LoadingStates.Promote: the 500 ms and 3000 ms delays are not checked against `now`. A promotion event may be issued at any time, and only the phase guard is modelled.
- Timers scheduled by an earlier `startLoading` are not cancelled by a new one. The model allows this, since any promotion event may occur, but does not say which start a promotion came from.
- ComponentCache.Stats: `loadedApps` and `failedApps` are sets. The source returns arrays in key insertion order.
- Object identity: the tick returns the previous map object when nothing changed. The model compares values only, and `TickStates` reports `hasUpdates`.
- A loader that throws `null` or `undefined` into `useDynamicImport` raises a second error inside its `catch`. That case is not modelled: `Thrown` always carries a message or none.
- `module.default` is assumed present. The declared type makes it non-null, so a success always carries a component.
- `EnhancedLoader`'s own 15 s `onTimeout` (which calls `timeoutLoading`) and the unused `federation`/`local` budgets are presentation hints, not part of the tracker. The forced timeout is `TimedOut`.
- Presentation details are left out: which error component renders (`FederationFallback` or the generic panel), texts, badges and timing metrics. Both error components are one `ErrorPanel`.
- Routing beyond the active-app derivation, the identity subsystem and console logging are not part of this model.
- No generation counter or single-claim load primitive is modelled, because the source has none. The races they would close are exhibited as lemmas instead.
