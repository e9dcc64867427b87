/** `Layout`: the older orchestrator, which keeps the active app in its own
    state and has no phase tracker. */
module LayoutShell {
  import opened Types
  import opened ComponentCache
  import opened Activation

  /** The instances this layout renders. */
  const LayoutSlots: set<AppId> := {Tasks, Contacts}

  /** The panels of the main area: the spinner while loading, the error
      panel for a truthy error, the header, and the "no content" fallback. */
  function LayoutPanels(entry: Option<CachedComponent>, loading: bool): (r: set<Panel>)
    ensures r * LoaderPanels == if loading then {BasicSpinner} else {}
    ensures ErrorPanel in r <==> entry.Some? && HasError(entry.value)
    ensures AppHeader in r <==> !loading && !(entry.Some? && HasError(entry.value))
    ensures NoContent in r <==> !loading && !(entry.Some? && HasError(entry.value)) && !(entry.Some? && entry.value.isLoaded)
    ensures TimeoutPanel !in r
  {
    var hasError := entry.Some? && HasError(entry.value);
    var isLoaded := entry.Some? && entry.value.isLoaded;
    (if loading then {BasicSpinner} else {})
    + (if hasError then {ErrorPanel} else {})
    + (if !loading && !hasError then {AppHeader} else {})
    + (if !loading && !hasError && !isLoaded then {NoContent} else {})
  }

  /** The rendering decision. At most the active instance is displayed, and
      when it is, neither the spinner, the error panel nor the fallback is. */
  function LayoutScreen(active: AppId, entries: map<AppId, CachedComponent>, flags: map<AppId, bool>): (s: Screen)
    ensures s.mounted == MountedInstances(LayoutSlots, entries)
    ensures s.displayed <= s.mounted && s.displayed <= {active}
    ensures BasicSpinner in s.panels <==> FlagOf(flags, active)
    ensures active in s.displayed ==>
              && AppHeader in s.panels && BasicSpinner !in s.panels
              && ErrorPanel !in s.panels && NoContent !in s.panels
  {
    Screen(LayoutPanels(Lookup(entries, active), FlagOf(flags, active)),
           MountedInstances(LayoutSlots, entries),
           DisplayedInstances(LayoutSlots, active, entries, flags))
  }

  class Layout {
    const cache: MicroFrontendCache
    var activeApp: AppId
    /** Retries between `clearCache` and the end of their 50 ms wait, each
        with the entry its stale `loadComponent` closure will test. */
    var retriesWaiting: multiset<PendingRetry>

    constructor ()
      ensures activeApp == Tasks && fresh(cache) && cache.Snapshot() == EmptyCache()
      ensures retriesWaiting == multiset{}
    {
      cache := new MicroFrontendCache();
      activeApp := Tasks;
      retriesWaiting := multiset{};
    }

    /** `handleAppChange`: the chosen app becomes active; nothing else changes. */
    method HandleAppChange(id: AppId)
      modifies this
      ensures activeApp == id && retriesWaiting == old(retriesWaiting)
    {
      activeApp := id;
    }

    /** One run of the load effect; it only ever starts a load, and nothing follows it. */
    method LoadEffect() returns (action: EffectAction)
      modifies cache
      ensures action == EffectDecision(Lookup(old(cache.componentCache), activeApp))
      ensures action == LoadNeeded ==>
                !AlreadyLoaded(old(cache.Snapshot()), activeApp) && cache.Snapshot() == Begin(old(cache.Snapshot()), activeApp)
      ensures action != LoadNeeded ==> cache.Snapshot() == old(cache.Snapshot())
    {
      var cachedComponent := cache.GetCachedComponent(activeApp);
      if ShouldLoad(cachedComponent) {
        var invoked := cache.BeginLoad(activeApp, cachedComponent);
        action := LoadNeeded;
      } else if cachedComponent.value.isLoaded {
        action := LoadedAlready;
      } else {
        action := Errored;
      }
    }

    /** Any started load settling; no continuation observes it. */
    method LoadSettled(id: AppId, outcome: LoadOutcome)
      requires id in cache.inFlight
      modifies cache
      ensures cache.Snapshot() == Settle(old(cache.Snapshot()), id, outcome)
    {
      cache.SettleLoad(id, outcome);
    }

    /** `handleRetry` up to its 50 ms wait; the retry keeps the
        `loadComponent` of the render it was clicked in. */
    method HandleRetry(id: AppId)
      modifies this, cache
      ensures cache.Snapshot() == Clear(old(cache.Snapshot()), id)
      ensures retriesWaiting == old(retriesWaiting) + multiset{PendingRetry(id, Lookup(old(cache.componentCache), id))}
      ensures activeApp == old(activeApp)
    {
      var seen := cache.GetCachedComponent(id);
      cache.ClearCache(id);
      retriesWaiting := retriesWaiting + multiset{PendingRetry(id, seen)};
    }

    /** The retry's wait ending: `loadComponent` again, testing the entry it
        saw before the clear; its failure is only stored in the cache. */
    method RetryDelayElapsed(r: PendingRetry) returns (invoked: bool)
      requires r in retriesWaiting
      modifies this, cache
      ensures invoked <==> !SeenLoaded(r.seen)
      ensures cache.Snapshot() == BeginSeen(old(cache.Snapshot()), r.id, r.seen)
      ensures retriesWaiting == old(retriesWaiting) - multiset{r} && activeApp == old(activeApp)
    {
      invoked := cache.BeginLoad(r.id, r.seen);
      retriesWaiting := retriesWaiting - multiset{r};
    }

    function Render(): (s: Screen)
      reads this, cache
      ensures s == LayoutScreen(activeApp, cache.componentCache, cache.loadingStates)
    {
      LayoutScreen(activeApp, cache.componentCache, cache.loadingStates)
    }
  }
}
