/** `RouterLayout`: the router-driven orchestrator over one component cache
    and one phase tracker. Its asynchronous sequences are split at their
    suspension points: the load effect (start, then load) and its `then`
    continuation (complete); a retry (clear), its 50 ms wait ending (load),
    and that load settling. */
module RouterShell {
  import opened Types
  import opened ComponentCache
  import opened LoadingStates
  import opened Activation

  /** The active app derived from the location and the route parameter. */
  function ActiveApp(pathname: string, appIdParam: Option<string>): (id: AppId)
    ensures id == App1 || id == Users
    ensures id == Users <==>
              && (pathname == "/users" || appIdParam == Some("users"))
              && !(pathname == "/" || pathname == "/app1" || appIdParam == Some("app1"))
  {
    if pathname == "/" || pathname == "/app1" || appIdParam == Some("app1") then App1
    else if pathname == "/users" || appIdParam == Some("users") then Users
    else App1
  }

  /** `handleAppChange`: the path navigated to, if any; navigating there makes the chosen app active. */
  function NavigationTarget(id: AppId): (path: Option<string>)
    ensures path.Some? <==> id == App1 || id == Users
    ensures path.Some? ==> ActiveApp(path.value, None) == id
  {
    if id == App1 then Some("/app1") else if id == Users then Some("/users") else None
  }

  /** The instances this layout renders. */
  const RouterSlots: set<AppId> := {App1, Users}

  function PhaseOf(m: States, id: AppId): (p: Option<Phase>)
    ensures forall q :: InPhase(m, id, q) <==> p == Some(q)
  {
    if id in m then Some(m[id].phase) else None
  }

  /** The loader shown while loading: the enhanced one in `enhanced`, the skeleton in `skeleton`, else the spinner. */
  function LoaderFor(phase: Option<Phase>): Panel {
    match phase
    case Some(Enhanced) => EnhancedLoaderPanel
    case Some(Skeleton) => SkeletonLoaderPanel
    case _ => BasicSpinner
  }

  /** The panels of the main area, condition by condition as the markup has them. */
  function MainPanels(entry: Option<CachedComponent>, loading: bool, phase: Option<Phase>): (r: set<Panel>)
    ensures r * LoaderPanels == if loading then {LoaderFor(phase)} else {}
    ensures TimeoutPanel in r <==> phase == Some(Timeout)
    ensures ErrorPanel in r <==> entry.Some? && HasError(entry.value) && phase != Some(Timeout)
    ensures AppHeader in r <==> !loading && !(entry.Some? && HasError(entry.value))
    ensures NoContent in r <==> !loading && !(entry.Some? && HasError(entry.value)) && !(entry.Some? && entry.value.isLoaded)
  {
    var hasError := entry.Some? && HasError(entry.value);
    var isLoaded := entry.Some? && entry.value.isLoaded;
    (if loading && phase == Some(Enhanced) then {EnhancedLoaderPanel} else {})
    + (if loading && phase == Some(Skeleton) then {SkeletonLoaderPanel} else {})
    + (if loading && phase != Some(Enhanced) && phase != Some(Skeleton) then {BasicSpinner} else {})
    + (if phase == Some(Timeout) then {TimeoutPanel} else {})
    + (if hasError && phase != Some(Timeout) then {ErrorPanel} else {})
    + (if !loading && !hasError then {AppHeader} else {})
    + (if !loading && !hasError && !isLoaded then {NoContent} else {})
  }

  /** The whole rendering decision as a function of the active app and the
      cache and tracker snapshots. At most the active instance is displayed,
      and when it is, no loader, error panel or fallback is shown beside it. */
  function RouterScreen(active: AppId, entries: map<AppId, CachedComponent>, flags: map<AppId, bool>,
                        phases: States): (s: Screen)
    ensures s.mounted == MountedInstances(RouterSlots, entries)
    ensures s.displayed <= s.mounted && s.displayed <= {active}
    ensures s.panels * LoaderPanels == if FlagOf(flags, active) then {LoaderFor(PhaseOf(phases, active))} else {}
    ensures active in s.displayed ==>
              && AppHeader in s.panels && s.panels * LoaderPanels == {}
              && ErrorPanel !in s.panels && NoContent !in s.panels
  {
    Screen(MainPanels(Lookup(entries, active), FlagOf(flags, active), PhaseOf(phases, active)),
           MountedInstances(RouterSlots, entries),
           DisplayedInstances(RouterSlots, active, entries, flags))
  }

  /** The first load of an app, quick or slow: the effect's start and load;
      any tracker events meanwhile (the promotions through `enhanced` and
      `skeleton`, ticks, watchdogs) and any cache events for other ids; the
      load's own successful settlement, then the `then` continuation's
      complete. The flag is raised until the settlement, which is a
      legitimate one, and the app ends loaded, lowered and complete. */
  lemma LoadRoundTrip(s: CacheState, m: States, id: AppId, c: ComponentRef, t0: nat, t1: nat,
                      ces: seq<CacheEvent>, tes: seq<TrackerEvent>)
    requires ShouldLoad(Lookup(s.entries, id))
    requires forall i :: 0 <= i < |ces| ==> ces[i].id != id
    ensures !AlreadyLoaded(s, id)
    ensures var w := Run(Begin(s, id), ces);
            FlagOf(w.flags, id) && w.inFlight[id] > 0
    ensures var r := Step(Run(Begin(s, id), ces), SettleEv(id, Success(c)));
            var p := Completed(Replay(Started(m, id, t0), tes), id, t1);
            AlreadyLoaded(r, id) && !FlagOf(r.flags, id) && InPhase(p, id, Complete)
  {
    RunLeavesOtherIds(Begin(s, id), id, ces);
    ReplayKeepsKey(Started(m, id, t0), id, tes);
  }

  class RouterLayout {
    const cache: MicroFrontendCache
    const tracker: LoadingStateTracker
    /** Loads started by the effect, whose continuation will call `completeLoading`. */
    ghost var effectLoads: multiset<AppId>
    /** Retries between `clearCache` and the end of their 50 ms wait, each
        with the entry its stale `loadComponent` closure will test. */
    var retriesWaiting: multiset<PendingRetry>
    /** Loads started by a retry, whose outcome nobody but the cache observes. */
    ghost var retryLoads: multiset<AppId>

    ghost predicate Valid()
      reads this, cache
    {
      cache.inFlight == effectLoads + retryLoads
    }

    constructor ()
      ensures Valid() && fresh(cache) && fresh(tracker)
      ensures cache.Snapshot() == EmptyCache() && tracker.loadingStates == map[]
      ensures retriesWaiting == multiset{}
    {
      cache := new MicroFrontendCache();
      tracker := new LoadingStateTracker();
      effectLoads, retriesWaiting, retryLoads := multiset{}, multiset{}, multiset{};
    }

    /** One run of the load effect for the location `pathname` / `appIdParam` at time `now`. */
    method LoadEffect(pathname: string, appIdParam: Option<string>, now: nat) returns (action: EffectAction)
      requires Valid()
      modifies this, cache, tracker
      ensures Valid()
      ensures var id := ActiveApp(pathname, appIdParam);
              && action == EffectDecision(Lookup(old(cache.componentCache), id))
              && (action == LoadNeeded ==>
                    && !AlreadyLoaded(old(cache.Snapshot()), id)
                    && cache.Snapshot() == Begin(old(cache.Snapshot()), id)
                    && tracker.loadingStates == Started(old(tracker.loadingStates), id, now)
                    && effectLoads == old(effectLoads) + multiset{id})
              && (action == LoadedAlready ==>
                    && cache.Snapshot() == old(cache.Snapshot())
                    && tracker.loadingStates == Completed(old(tracker.loadingStates), id, now)
                    && effectLoads == old(effectLoads))
              && (action == Errored ==>
                    && cache.Snapshot() == old(cache.Snapshot())
                    && tracker.loadingStates == old(tracker.loadingStates)
                    && effectLoads == old(effectLoads))
      ensures retriesWaiting == old(retriesWaiting) && retryLoads == old(retryLoads)
    {
      var id := ActiveApp(pathname, appIdParam);
      var cachedComponent := cache.GetCachedComponent(id);
      if ShouldLoad(cachedComponent) {
        tracker.StartLoading(id, now);
        var invoked := cache.BeginLoad(id, cachedComponent);
        assert invoked;
        effectLoads := effectLoads + multiset{id};
        action := LoadNeeded;
      } else if cachedComponent.value.isLoaded {
        tracker.CompleteLoading(id, now);
        action := LoadedAlready;
      } else {
        action := Errored;
      }
    }

    /** An effect-started load settling, followed by its `then` continuation,
        which runs on failure too because the cache swallows the error. */
    method EffectLoadSettled(id: AppId, outcome: LoadOutcome, now: nat)
      requires Valid() && id in effectLoads
      modifies this, cache, tracker
      ensures Valid()
      ensures cache.Snapshot() == Settle(old(cache.Snapshot()), id, outcome)
      ensures tracker.loadingStates == Completed(old(tracker.loadingStates), id, now)
      ensures effectLoads == old(effectLoads) - multiset{id}
      ensures retriesWaiting == old(retriesWaiting) && retryLoads == old(retryLoads)
    {
      cache.SettleLoad(id, outcome);
      tracker.CompleteLoading(id, now);
      effectLoads := effectLoads - multiset{id};
    }

    /** `handleRetry` up to its 50 ms wait: the entry and flag are cleared;
        the tracker is not touched. The retry keeps the `loadComponent` of the
        render it was clicked in, which saw the entry before the clear. */
    method HandleRetry(id: AppId)
      requires Valid()
      modifies this, cache
      ensures Valid()
      ensures cache.Snapshot() == Clear(old(cache.Snapshot()), id)
      ensures retriesWaiting == old(retriesWaiting) + multiset{PendingRetry(id, Lookup(old(cache.componentCache), id))}
      ensures effectLoads == old(effectLoads) && retryLoads == old(retryLoads)
    {
      var seen := cache.GetCachedComponent(id);
      cache.ClearCache(id);
      retriesWaiting := retriesWaiting + multiset{PendingRetry(id, seen)};
    }

    /** The retry's wait ending: its `loadComponent` tests the entry it saw
        before the clear, not the current one, so a load that succeeded
        during the wait does not stop it. */
    method RetryDelayElapsed(r: PendingRetry) returns (invoked: bool)
      requires Valid() && r in retriesWaiting
      modifies this, cache
      ensures Valid()
      ensures invoked <==> !SeenLoaded(r.seen)
      ensures cache.Snapshot() == BeginSeen(old(cache.Snapshot()), r.id, r.seen)
      ensures retriesWaiting == old(retriesWaiting) - multiset{r}
      ensures retryLoads == old(retryLoads) + if invoked then multiset{r.id} else multiset{}
      ensures effectLoads == old(effectLoads)
    {
      invoked := cache.BeginLoad(r.id, r.seen);
      retriesWaiting := retriesWaiting - multiset{r};
      if invoked {
        retryLoads := retryLoads + multiset{r.id};
      }
    }

    /** A retry's load settling; a failure is stored in the cache and goes no further. */
    method RetryLoadSettled(id: AppId, outcome: LoadOutcome)
      requires Valid() && id in retryLoads
      modifies this, cache
      ensures Valid()
      ensures cache.Snapshot() == Settle(old(cache.Snapshot()), id, outcome)
      ensures retryLoads == old(retryLoads) - multiset{id}
      ensures effectLoads == old(effectLoads) && retriesWaiting == old(retriesWaiting)
    {
      cache.SettleLoad(id, outcome);
      retryLoads := retryLoads - multiset{id};
    }

    function Render(pathname: string, appIdParam: Option<string>): (s: Screen)
      reads this, cache, tracker
      ensures s == RouterScreen(ActiveApp(pathname, appIdParam), cache.componentCache, cache.loadingStates, tracker.loadingStates)
    {
      RouterScreen(ActiveApp(pathname, appIdParam), cache.componentCache, cache.loadingStates, tracker.loadingStates)
    }
  }
}
