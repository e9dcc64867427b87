/** The component cache (`useMicroFrontendCache`): one entry and one in-flight
    flag per subapplication id. The asynchronous `loadComponent` becomes two
    steps, `Begin` (the synchronous part before the `await`) and `Settle`
    (the continuation after the loader resolves or rejects). */
module ComponentCache {
  import opened Types

  /** One cache entry (`CachedComponent`). */
  datatype CachedComponent = CachedComponent(component: Option<ComponentRef>, isLoaded: bool, error: Option<string>)

  /** JavaScript truthiness of an entry's `error`: present and not the empty string. */
  predicate HasError(e: CachedComponent) {
    e.error.Some? && e.error.value != ""
  }

  /** The two shapes a settlement writes: loaded with a factory and no error,
      or not loaded with no factory and an error string. */
  predicate WellShaped(e: CachedComponent) {
    || (e.isLoaded && e.component.Some? && e.error.None?)
    || (!e.isLoaded && e.component.None? && e.error.Some?)
  }

  /** The message a failed load stores: an `Error`'s own message, the default text otherwise. */
  function FailureMessage(t: Thrown): string {
    match t
    case ErrorInstance(m) => m
    case NonError(_) => DefaultLoadError
  }

  /** The entry a settlement stores for its outcome. */
  function SettledEntry(o: LoadOutcome): (e: CachedComponent)
    ensures WellShaped(e)
    ensures e.isLoaded <==> o.Success?
    ensures o.Success? ==> e.component == Some(o.component) && !HasError(e)
    ensures o.Failure? && o.thrown.ErrorInstance? ==> e.error == Some(o.thrown.message)
    ensures o.Failure? && o.thrown.NonError? ==> e.error == Some(DefaultLoadError) && HasError(e)
  {
    match o
    case Success(c) => CachedComponent(Some(c), true, None)
    case Failure(t) => CachedComponent(None, false, Some(FailureMessage(t)))
  }

  /** `getCachedComponent`: the entry for `id`, or nothing. */
  function Lookup(entries: map<AppId, CachedComponent>, id: AppId): (r: Option<CachedComponent>)
    ensures r.None? <==> id !in entries
    ensures r.Some? ==> r.value == entries[id]
  {
    if id in entries then Some(entries[id]) else None
  }

  /** `isLoading`: the in-flight flag, false for an id without one. */
  function FlagOf(flags: map<AppId, bool>, id: AppId): (b: bool)
    ensures b <==> id in flags && flags[id]
  {
    if id in flags then flags[id] else false
  }

  /** The whole cache. `inFlight` counts, per id, the loader invocations that
      have begun and not yet settled; it stands for the pending promises and
      has no counterpart among the hook's own variables. */
  datatype CacheState = CacheState(entries: map<AppId, CachedComponent>, flags: map<AppId, bool>, inFlight: multiset<AppId>)

  /** The hook's initial state: no entries, flags seeded false for `tasks` and `contacts`. */
  function EmptyCache(): (s: CacheState)
    ensures forall id :: Lookup(s.entries, id).None? && !FlagOf(s.flags, id) && s.inFlight[id] == 0
    ensures WellFormed(s)
  {
    CacheState(map[], map[Tasks := false, Contacts := false], multiset{})
  }

  /** The entry for `id` is already loaded, so `loadComponent` returns at once. */
  predicate AlreadyLoaded(s: CacheState, id: AppId) {
    Lookup(s.entries, id).Some? && Lookup(s.entries, id).value.isLoaded
  }

  /** `id`'s entry, flag and in-flight count are the only things that differ between `s` and `r`. */
  ghost predicate OnlyTouches(s: CacheState, r: CacheState, id: AppId) {
    && AgreeExcept(s.entries, r.entries, id)
    && (forall k :: k != id ==> FlagOf(r.flags, k) == FlagOf(s.flags, k))
    && (forall k :: k != id ==> r.inFlight[k] == s.inFlight[k])
  }

  /** The entry a `loadComponent` closure tested is loaded. */
  predicate SeenLoaded(seen: Option<CachedComponent>) {
    seen.Some? && seen.value.isLoaded
  }

  /** The part of `loadComponent` before the `await`, for a closure whose
      `componentCache` showed `seen` for `id`: the closure is the one of the
      render it was created in, so `seen` may be older than `s`. Skip when
      `seen` is loaded; otherwise raise the flag and invoke the loader once,
      whatever the current entry is. */
  function BeginSeen(s: CacheState, id: AppId, seen: Option<CachedComponent>): (r: CacheState)
    ensures SeenLoaded(seen) ==> r == s
    ensures !SeenLoaded(seen) ==> FlagOf(r.flags, id) && r.inFlight[id] == s.inFlight[id] + 1
    ensures r.entries == s.entries
    ensures OnlyTouches(s, r, id)
  {
    if SeenLoaded(seen) then s
    else CacheState(s.entries, s.flags[id := true], s.inFlight + multiset{id})
  }

  /** `Begin` for a closure that sees the current entry: skip an
      already-loaded id; otherwise raise the flag and invoke the loader once. */
  function Begin(s: CacheState, id: AppId): (r: CacheState)
    ensures AlreadyLoaded(s, id) ==> r == s
    ensures !AlreadyLoaded(s, id) ==> FlagOf(r.flags, id) && r.inFlight[id] == s.inFlight[id] + 1
    ensures r.entries == s.entries
    ensures OnlyTouches(s, r, id)
  {
    BeginSeen(s, id, Lookup(s.entries, id))
  }

  /** The continuation of `loadComponent`: store the outcome's entry and, as
      the `finally` block does, lower the flag, whatever the outcome. */
  function Settle(s: CacheState, id: AppId, o: LoadOutcome): (r: CacheState)
    ensures Lookup(r.entries, id) == Some(SettledEntry(o))
    ensures !FlagOf(r.flags, id)
    ensures r.inFlight[id] == if s.inFlight[id] == 0 then 0 else s.inFlight[id] - 1
    ensures OnlyTouches(s, r, id)
  {
    CacheState(s.entries[id := SettledEntry(o)], s.flags[id := false], s.inFlight - multiset{id})
  }

  /** `clearCache`: drop the entry and lower the flag, whatever the prior
      state; a load still in flight is not cancelled. */
  function Clear(s: CacheState, id: AppId): (r: CacheState)
    ensures Lookup(r.entries, id).None? && !FlagOf(r.flags, id)
    ensures r.inFlight == s.inFlight
    ensures OnlyTouches(s, r, id)
  {
    CacheState(s.entries - {id}, s.flags[id := false], s.inFlight)
  }

  /** `getCacheStats`, with the id lists as sets. */
  datatype CacheStats = CacheStats(totalCached: nat, loadedApps: set<AppId>, failedApps: set<AppId>)

  function Stats(entries: map<AppId, CachedComponent>): (r: CacheStats)
    ensures r.totalCached == |entries|
    ensures forall id :: id in r.loadedApps <==> Lookup(entries, id).Some? && Lookup(entries, id).value.isLoaded
    ensures forall id :: id in r.failedApps <==> Lookup(entries, id).Some? && HasError(Lookup(entries, id).value)
  {
    CacheStats(|entries|,
               set id | id in entries && entries[id].isLoaded,
               set id | id in entries && HasError(entries[id]))
  }

  /** The invariant every reachable cache keeps: entries have a settlement's
      shape, and a raised flag means some loader invocation is pending. */
  ghost predicate WellFormed(s: CacheState) {
    && (forall id :: id in s.entries ==> WellShaped(s.entries[id]))
    && (forall id :: FlagOf(s.flags, id) ==> s.inFlight[id] > 0)
  }

  /** In a well-formed cache no id is both loaded and failed, and a loaded
      entry always carries its factory. */
  lemma StatsDisjoint(s: CacheState)
    requires WellFormed(s)
    ensures Stats(s.entries).loadedApps !! Stats(s.entries).failedApps
    ensures forall id :: id in Stats(s.entries).loadedApps ==> s.entries[id].component.Some?
  {
    var st := Stats(s.entries);
    forall id | id in st.loadedApps
      ensures id !in st.failedApps && s.entries[id].component.Some?
    {
      assert WellShaped(s.entries[id]);
    }
  }

  /** The events that drive the cache: a call of `loadComponent` reaching
      its `await` through a closure that sees the current entry, the same
      through a retry's closure that saw `seen` before its clear, the
      settlement of one pending invocation, a `clearCache`. */
  datatype CacheEvent =
    | BeginEv(id: AppId)
    | RetryBeginEv(id: AppId, seen: Option<CachedComponent>)
    | SettleEv(id: AppId, outcome: LoadOutcome)
    | ClearEv(id: AppId)

  /** One event; a settlement with no pending invocation for its id cannot occur and changes nothing. */
  function Step(s: CacheState, e: CacheEvent): CacheState {
    match e
    case BeginEv(id) => Begin(s, id)
    case RetryBeginEv(id, seen) => BeginSeen(s, id, seen)
    case SettleEv(id, o) => if s.inFlight[id] > 0 then Settle(s, id, o) else s
    case ClearEv(id) => Clear(s, id)
  }

  function Run(s: CacheState, es: seq<CacheEvent>): CacheState
    decreases |es|
  {
    if es == [] then s else Run(Step(s, es[0]), es[1..])
  }

  lemma StepKeepsWellFormed(s: CacheState, e: CacheEvent)
    requires WellFormed(s)
    ensures WellFormed(Step(s, e))
  {
    var r := Step(s, e);
    forall id | FlagOf(r.flags, id) ensures r.inFlight[id] > 0 {
      assert id != e.id ==> FlagOf(s.flags, id);
    }
  }

  /** Every cache reachable from the initial one is well-formed. */
  lemma {:induction false} RunKeepsWellFormed(s: CacheState, es: seq<CacheEvent>)
    requires WellFormed(s)
    ensures WellFormed(Run(s, es))
    decreases |es|
  {
    if es != [] {
      StepKeepsWellFormed(s, es[0]);
      RunKeepsWellFormed(Step(s, es[0]), es[1..]);
    }
  }

  /** The events that can take `id`'s loaded entry away: its clear, and a
      retry's load whose closure saw the entry not loaded. */
  predicate Disturbs(e: CacheEvent, id: AppId) {
    || e == ClearEv(id)
    || (e.RetryBeginEv? && e.id == id && !SeenLoaded(e.seen))
  }

  /** State preservation: a loaded entry with no loader invocation pending
      for its id stays exactly as it is, through any events that neither
      clear that id nor run a retry's stale load of it; later loads of it are
      skipped, so nothing can overwrite it. */
  lemma {:induction false} LoadedStaysLoaded(s: CacheState, id: AppId, es: seq<CacheEvent>)
    requires AlreadyLoaded(s, id) && s.inFlight[id] == 0
    requires forall i :: 0 <= i < |es| ==> !Disturbs(es[i], id)
    ensures Lookup(Run(s, es).entries, id) == Lookup(s.entries, id)
    ensures AlreadyLoaded(Run(s, es), id) && Run(s, es).inFlight[id] == 0
    decreases |es|
  {
    if es != [] {
      var t := Step(s, es[0]);
      assert !Disturbs(es[0], id);
      assert Lookup(t.entries, id) == Lookup(s.entries, id) && t.inFlight[id] == 0;
      assert forall i :: 0 <= i < |es[1..]| ==> es[1..][i] == es[i + 1];
      LoadedStaysLoaded(t, id, es[1..]);
    }
  }

  /** Events about other ids leave `id`'s entry, flag and pending count alone. */
  lemma {:induction false} RunLeavesOtherIds(s: CacheState, id: AppId, es: seq<CacheEvent>)
    requires forall i :: 0 <= i < |es| ==> es[i].id != id
    ensures Lookup(Run(s, es).entries, id) == Lookup(s.entries, id)
    ensures FlagOf(Run(s, es).flags, id) == FlagOf(s.flags, id)
    ensures Run(s, es).inFlight[id] == s.inFlight[id]
    decreases |es|
  {
    if es != [] {
      var t := Step(s, es[0]);
      assert es[0].id != id;
      assert Lookup(t.entries, id) == Lookup(s.entries, id);
      assert forall i :: 0 <= i < |es[1..]| ==> es[1..][i] == es[i + 1];
      RunLeavesOtherIds(t, id, es[1..]);
    }
  }

  /** The flag of a load that was not skipped is raised from `Begin` until
      its own settlement, however events for other ids interleave, and is
      lowered by that settlement whether it succeeds or fails. */
  lemma FlagHeldUntilSettled(s: CacheState, id: AppId, es: seq<CacheEvent>, o: LoadOutcome)
    requires !AlreadyLoaded(s, id)
    requires forall i :: 0 <= i < |es| ==> es[i].id != id
    ensures FlagOf(Run(Begin(s, id), es).flags, id)
    ensures !FlagOf(Step(Run(Begin(s, id), es), SettleEv(id, o)).flags, id)
  {
    RunLeavesOtherIds(Begin(s, id), id, es);
  }

  /** As written, the flag does not stop a second load: two calls that both
      reach `Begin` before either settles both invoke the loader, and a late
      failure then overwrites the first call's loaded entry. */
  lemma DoubleLoadOverwritesLoaded(s: CacheState, id: AppId, c: ComponentRef, t: Thrown)
    requires !AlreadyLoaded(s, id)
    ensures Begin(Begin(s, id), id).inFlight[id] == s.inFlight[id] + 2
    ensures AlreadyLoaded(Settle(Begin(Begin(s, id), id), id, Success(c)), id)
    ensures !AlreadyLoaded(Settle(Settle(Begin(Begin(s, id), id), id, Success(c)), id, Failure(t)), id)
  {
  }

  /** As written, `clearCache` does not fence a pending invocation: its late
      success repopulates the entry that was just cleared. */
  lemma StaleSettleAfterClear(s: CacheState, id: AppId, c: ComponentRef)
    requires !AlreadyLoaded(s, id)
    ensures Clear(Begin(s, id), id).inFlight[id] > 0
    ensures Lookup(Step(Clear(Begin(s, id), id), SettleEv(id, Success(c))).entries, id)
         == Some(CachedComponent(Some(c), true, None))
  {
  }

  /** As written, a late failure undoes a successful retry: a load still
      pending when the entry is cleared and loaded again settles after the
      reload and leaves the entry not loaded, with no clear in between. */
  lemma LateFailureAfterRetry(s: CacheState, id: AppId, c: ComponentRef, t: Thrown)
    requires !AlreadyLoaded(s, id)
    ensures var reloaded := Settle(Begin(Clear(Begin(s, id), id), id), id, Success(c));
            && AlreadyLoaded(reloaded, id) && reloaded.inFlight[id] > 0
            && !AlreadyLoaded(Step(reloaded, SettleEv(id, Failure(t))), id)
  {
  }

  /** As written, a retry's closure tests the entry from before its clear: if
      another load of the id succeeds during the retry's wait, the retry still
      raises the flag and invokes the loader, and that call's failure evicts
      the loaded entry. */
  lemma StaleRetryReloadsLoaded(s: CacheState, id: AppId, c: ComponentRef, t: Thrown)
    requires Lookup(s.entries, id).Some? && !AlreadyLoaded(s, id)
    ensures var seen := Lookup(s.entries, id);
            var reloaded := Settle(Begin(Clear(s, id), id), id, Success(c));
            var retried := BeginSeen(reloaded, id, seen);
            && AlreadyLoaded(reloaded, id)
            && FlagOf(retried.flags, id) && retried.inFlight[id] == reloaded.inFlight[id] + 1
            && !AlreadyLoaded(Settle(retried, id, Failure(t)), id)
  {
  }

  /** An `Error` with an empty message is stored as the empty string, which
      is falsy: the entry then counts as neither loaded nor failed. */
  lemma EmptyMessageIsNeitherLoadedNorFailed(s: CacheState, id: AppId)
    ensures var st := Stats(Settle(s, id, Failure(ErrorInstance(""))).entries);
            id !in st.loadedApps && id !in st.failedApps
  {
    var r := Settle(s, id, Failure(ErrorInstance("")));
    assert Lookup(r.entries, id) == Some(CachedComponent(None, false, Some("")));
  }

  /** `useMicroFrontendCache`: the two maps the hook updates, plus the
      model-only record of pending loader invocations. */
  class MicroFrontendCache {
    var componentCache: map<AppId, CachedComponent>
    var loadingStates: map<AppId, bool>
    ghost var inFlight: multiset<AppId>

    ghost function Snapshot(): CacheState
      reads this
    {
      CacheState(componentCache, loadingStates, inFlight)
    }

    constructor ()
      ensures Snapshot() == EmptyCache()
    {
      componentCache := map[];
      loadingStates := map[Tasks := false, Contacts := false];
      inFlight := multiset{};
    }

    /** `loadComponent` up to its `await`, called through a closure whose
        `componentCache` showed `seen` for `id`; `invoked` says whether the
        loader runs. */
    method BeginLoad(id: AppId, seen: Option<CachedComponent>) returns (invoked: bool)
      modifies this
      ensures invoked <==> !SeenLoaded(seen)
      ensures Snapshot() == BeginSeen(old(Snapshot()), id, seen)
    {
      if seen.Some? && seen.value.isLoaded {
        return false;
      }
      loadingStates := loadingStates[id := true];
      inFlight := inFlight + multiset{id};
      invoked := true;
    }

    /** The rest of `loadComponent`, once a pending invocation for `id` settles. */
    method SettleLoad(id: AppId, outcome: LoadOutcome)
      requires id in inFlight
      modifies this
      ensures Snapshot() == Settle(old(Snapshot()), id, outcome)
    {
      match outcome {
        case Success(c) =>
          componentCache := componentCache[id := CachedComponent(Some(c), true, None)];
        case Failure(t) =>
          var message := if t.ErrorInstance? then t.message else DefaultLoadError;
          componentCache := componentCache[id := CachedComponent(None, false, Some(message))];
      }
      loadingStates := loadingStates[id := false];
      inFlight := inFlight - multiset{id};
    }

    function GetCachedComponent(id: AppId): (r: Option<CachedComponent>)
      reads this
      ensures r == Lookup(componentCache, id)
    {
      Lookup(componentCache, id)
    }

    function IsLoading(id: AppId): (b: bool)
      reads this
      ensures b == FlagOf(loadingStates, id)
    {
      FlagOf(loadingStates, id)
    }

    method ClearCache(id: AppId)
      modifies this
      ensures Snapshot() == Clear(old(Snapshot()), id)
    {
      componentCache := componentCache - {id};
      loadingStates := loadingStates[id := false];
    }

    function GetCacheStats(): (r: CacheStats)
      reads this
      ensures r == Stats(componentCache)
    {
      Stats(componentCache)
    }
  }
}
