/** The decision logic both layouts share: when the load effect loads, which
    cached instances stay mounted, and which one is displayed. */
module Activation {
  import opened Types
  import opened ComponentCache

  /** The load effect's trigger: no entry, or an entry neither loaded nor errored. */
  predicate ShouldLoad(entry: Option<CachedComponent>) {
    entry.None? || (!entry.value.isLoaded && !HasError(entry.value))
  }

  /** The three branches of the load effect. */
  datatype EffectAction = LoadNeeded | LoadedAlready | Errored

  function EffectDecision(entry: Option<CachedComponent>): (a: EffectAction)
    ensures a == LoadNeeded <==> ShouldLoad(entry)
    ensures a == LoadedAlready <==> entry.Some? && entry.value.isLoaded
    ensures a == Errored <==> entry.Some? && !entry.value.isLoaded && HasError(entry.value)
  {
    if ShouldLoad(entry) then LoadNeeded
    else if entry.value.isLoaded then LoadedAlready
    else Errored
  }

  /** An instance is rendered (kept mounted) while its entry is loaded and has a factory. */
  predicate Mounted(entry: Option<CachedComponent>) {
    entry.Some? && entry.value.isLoaded && entry.value.component.Some?
  }

  /** A mounted instance is displayed only for the active app, without an error, when not loading. */
  predicate Displayed(slot: AppId, active: AppId, entry: Option<CachedComponent>, loading: bool) {
    Mounted(entry) && slot == active && !HasError(entry.value) && !loading
  }

  function MountedInstances(slots: set<AppId>, entries: map<AppId, CachedComponent>): (r: set<AppId>)
    ensures forall id :: id in r <==> id in slots && Mounted(Lookup(entries, id))
  {
    set id | id in slots && Mounted(Lookup(entries, id))
  }

  function DisplayedInstances(slots: set<AppId>, active: AppId, entries: map<AppId, CachedComponent>,
                              flags: map<AppId, bool>): (r: set<AppId>)
    ensures r <= MountedInstances(slots, entries)
    ensures r <= {active}
    ensures active in r <==> active in slots && Displayed(active, active, Lookup(entries, active), FlagOf(flags, active))
  {
    set id | id in slots && Displayed(id, active, Lookup(entries, id), FlagOf(flags, id))
  }

  /** In a well-formed cache the mounted instances are exactly the loaded ids. */
  lemma MountedIsLoaded(slots: set<AppId>, s: CacheState)
    requires WellFormed(s)
    ensures forall id :: id in MountedInstances(slots, s.entries) <==> id in slots && AlreadyLoaded(s, id)
  {
    forall id | id in slots && AlreadyLoaded(s, id)
      ensures id in MountedInstances(slots, s.entries)
    {
      assert WellShaped(s.entries[id]);
    }
  }

  /** State preservation across navigation: a mounted instance with no load
      pending for its id stays mounted, whatever the active app, through any
      cache events that neither clear it nor run a retry's stale load of it. */
  lemma InstanceSurvives(slots: set<AppId>, s: CacheState, id: AppId, es: seq<CacheEvent>)
    requires id in MountedInstances(slots, s.entries) && s.inFlight[id] == 0
    requires forall i :: 0 <= i < |es| ==> !Disturbs(es[i], id)
    ensures id in MountedInstances(slots, Run(s, es).entries)
  {
    LoadedStaysLoaded(s, id, es);
  }

  /** Retry after any outcome: clearing, then loading again, invokes the
      loader, and a success leaves a loaded entry with no error. */
  lemma RetryRecovers(s: CacheState, id: AppId, c: ComponentRef)
    ensures ShouldLoad(Lookup(Clear(s, id).entries, id))
    ensures !AlreadyLoaded(Clear(s, id), id)
    ensures var r := Settle(Begin(Clear(s, id), id), id, Success(c));
            Lookup(r.entries, id) == Some(CachedComponent(Some(c), true, None)) && !FlagOf(r.flags, id)
  {
  }

  /** A retry waiting out its 50 ms: the id, and the entry its closure's
      `loadComponent` will test, the one from the render where retry was
      clicked, before the clear. */
  datatype PendingRetry = PendingRetry(id: AppId, seen: Option<CachedComponent>)

  /** What the main area shows beside the instances. */
  datatype Panel = BasicSpinner | EnhancedLoaderPanel | SkeletonLoaderPanel | TimeoutPanel | ErrorPanel | AppHeader | NoContent

  const LoaderPanels: set<Panel> := {BasicSpinner, EnhancedLoaderPanel, SkeletonLoaderPanel}

  /** A rendering decision: the panels, the mounted instances, the displayed ones. */
  datatype Screen = Screen(panels: set<Panel>, mounted: set<AppId>, displayed: set<AppId>)
}
