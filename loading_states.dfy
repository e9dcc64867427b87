/** The loading-phase tracker (`useLoadingStates`): one timeline per
    subapplication id. Time is the explicit argument `now` (milliseconds);
    each timer callback of the hook is its own event. */
module LoadingStates {
  import opened Types

  datatype Phase = Initial | Enhanced | Skeleton | Complete | Error | Timeout

  /** The phases in which the tick and the watchdog leave an id alone. */
  predicate Terminal(p: Phase) {
    p == Complete || p == Error || p == Timeout
  }

  datatype LoadingState = LoadingState(phase: Phase, startTime: nat, elapsedTime: int, hasTimedOut: bool)

  type States = map<AppId, LoadingState>

  /** Delays of the two promotions scheduled by `startLoading`. */
  const EnhancedDelay: nat := 500
  const SkeletonDelay: nat := 3000

  /** Watchdog budgets (`LOADING_TIMEOUTS.enhanced` and `.skeleton`). */
  const EnhancedTimeout: nat := 8000
  const SkeletonTimeout: nat := 15000

  /** `startLoading`: a fresh timeline for `id` that starts now. */
  function Started(m: States, id: AppId, now: nat): (r: States)
    ensures id in r && r[id].phase == Initial && r[id].startTime == now
    ensures r[id].elapsedTime == 0 && !r[id].hasTimedOut
    ensures AgreeExcept(m, r, id)
  {
    m[id := LoadingState(Initial, now, 0, false)]
  }

  /** A delayed promotion: move `id` from phase `from` to phase `to` if it is
      still in `from`, stamping the elapsed time; otherwise change nothing. */
  function Promote(m: States, id: AppId, from: Phase, to: Phase, now: nat): (r: States)
    ensures (id in r <==> id in m) && AgreeExcept(m, r, id)
    ensures id in m && m[id].phase == from ==>
              && r[id].phase == to
              && r[id].startTime == m[id].startTime
              && r[id].hasTimedOut == m[id].hasTimedOut
              && r[id].elapsedTime == now - m[id].startTime
    ensures !(id in m && m[id].phase == from) ==> r == m
  {
    if id in m && m[id].phase == from then
      m[id := m[id].(phase := to, elapsedTime := now - m[id].startTime)]
    else m
  }

  /** An id whose recorded elapsed time the tick would change. */
  predicate Stale(s: LoadingState, now: nat) {
    !Terminal(s.phase) && now - s.startTime != s.elapsedTime
  }

  function TickEntry(s: LoadingState, now: nat): LoadingState {
    if Terminal(s.phase) then s else s.(elapsedTime := now - s.startTime)
  }

  /** The state after one run of the 100 ms interval. */
  function Ticked(m: States, now: nat): (r: States)
    ensures r.Keys == m.Keys
    ensures forall k :: k in m ==> r[k].phase == m[k].phase && r[k].startTime == m[k].startTime && r[k].hasTimedOut == m[k].hasTimedOut
    ensures forall k :: k in m && Terminal(m[k].phase) ==> r[k] == m[k]
    ensures forall k :: k in m && !Terminal(m[k].phase) ==> r[k].elapsedTime == now - m[k].startTime
  {
    map k | k in m :: TickEntry(m[k], now)
  }

  /** The interval's state updater: the `forEach` over every id, returning
      the previous map itself when nothing changed. */
  method TickStates(prev: States, now: nat) returns (next: States, hasUpdates: bool)
    ensures next == Ticked(prev, now)
    ensures hasUpdates <==> exists k :: k in prev && Stale(prev[k], now)
  {
    next := prev;
    hasUpdates := false;
    var keys := prev.Keys;
    while keys != {}
      invariant keys <= prev.Keys && next.Keys == prev.Keys
      invariant forall k :: k in prev && k !in keys ==> next[k] == TickEntry(prev[k], now)
      invariant forall k :: k in keys ==> next[k] == prev[k]
      invariant hasUpdates <==> exists k :: k in prev && k !in keys && Stale(prev[k], now)
      decreases keys
    {
      var k :| k in keys;
      var state := next[k];
      if !Terminal(state.phase) {
        var newElapsedTime := now - state.startTime;
        if newElapsedTime != state.elapsedTime {
          next := next[k := state.(elapsedTime := newElapsedTime)];
          hasUpdates := true;
        }
      }
      keys := keys - {k};
    }
    if !hasUpdates {
      next := prev;
    }
    assert forall k :: k in prev ==> next[k] == Ticked(prev, now)[k];
  }

  /** The watchdog's budget for a non-terminal phase. */
  function Budget(p: Phase): nat {
    if p == Enhanced then EnhancedTimeout else SkeletonTimeout
  }

  /** The timers the watchdog effect arms: one per non-terminal id, 8000 ms
      in `enhanced` and 15000 ms in every other non-terminal phase. */
  function ArmedTimers(m: States): (t: map<AppId, nat>)
    ensures forall k :: k in t <==> k in m && !Terminal(m[k].phase)
    ensures forall k :: k in t ==> t[k] == if m[k].phase == Enhanced then 8000 else 15000
  {
    map k | k in m && !Terminal(m[k].phase) :: Budget(m[k].phase)
  }

  /** The watchdog effect's loop filling its `timeouts` record. */
  method ArmWatchdogs(states: States) returns (timeouts: map<AppId, nat>)
    ensures timeouts == ArmedTimers(states)
  {
    timeouts := map[];
    var keys := states.Keys;
    while keys != {}
      invariant keys <= states.Keys
      invariant forall k :: k in timeouts <==> k in states && k !in keys && !Terminal(states[k].phase)
      invariant forall k :: k in timeouts ==> timeouts[k] == Budget(states[k].phase)
      decreases keys
    {
      var k :| k in keys;
      var state := states[k];
      if !Terminal(state.phase) {
        var timeoutDuration := SkeletonTimeout;
        if state.phase == Enhanced {
          timeoutDuration := EnhancedTimeout;
        } else if state.phase == Skeleton {
          timeoutDuration := SkeletonTimeout;
        }
        timeouts := timeouts[k := timeoutDuration];
      }
      keys := keys - {k};
    }
  }

  /** The watchdog for `id` is armed and its budget, counted from the start
      of the timeline, has run out. */
  predicate WatchdogDue(m: States, id: AppId, now: nat) {
    id in ArmedTimers(m) && now - m[id].startTime >= ArmedTimers(m)[id]
  }

  /** A watchdog timer firing: `timeout` and `hasTimedOut`, nothing else stamped. */
  function WatchdogFired(m: States, id: AppId, now: nat): (r: States)
    ensures (id in r <==> id in m) && AgreeExcept(m, r, id)
    ensures WatchdogDue(m, id, now) ==>
              && r[id].phase == Timeout && r[id].hasTimedOut
              && r[id].startTime == m[id].startTime && r[id].elapsedTime == m[id].elapsedTime
    ensures !WatchdogDue(m, id, now) ==> r == m
  {
    if WatchdogDue(m, id, now) then m[id := m[id].(phase := Timeout, hasTimedOut := true)] else m
  }

  /** The running watchdog times out every non-terminal id once 15000 ms
      have passed since its start, and an `enhanced` one after 8000 ms. */
  lemma WatchdogDeadline(m: States, id: AppId, now: nat)
    requires id in m && !Terminal(m[id].phase)
    requires now - m[id].startTime >= SkeletonTimeout
          || (m[id].phase == Enhanced && now - m[id].startTime >= EnhancedTimeout)
    ensures WatchdogDue(m, id, now)
    ensures WatchdogFired(m, id, now)[id].phase == Timeout
  {
    assert id in ArmedTimers(m);
  }

  /** `setLoadingPhase`: any phase, keeping a truthy start time (a start
      time of 0 is falsy and replaced by now), and always clearing `hasTimedOut`. */
  function PhaseSet(m: States, id: AppId, p: Phase, now: nat): (r: States)
    ensures id in r && r[id].phase == p && !r[id].hasTimedOut
    ensures r[id].startTime == if id in m && m[id].startTime != 0 then m[id].startTime else now
    ensures r[id].elapsedTime == now - r[id].startTime
    ensures AgreeExcept(m, r, id)
  {
    var startTime := if id in m && m[id].startTime != 0 then m[id].startTime else now;
    m[id := LoadingState(p, startTime, now - startTime, false)]
  }

  /** `completeLoading`: nothing for an absent id; otherwise `complete` with the final elapsed time. */
  function Completed(m: States, id: AppId, now: nat): (r: States)
    ensures (id in r <==> id in m) && AgreeExcept(m, r, id)
    ensures id !in m ==> r == m
    ensures id in m ==>
              && r[id].phase == Complete && r[id].elapsedTime == now - m[id].startTime
              && r[id].startTime == m[id].startTime && r[id].hasTimedOut == m[id].hasTimedOut
  {
    if id in m then m[id := m[id].(phase := Complete, elapsedTime := now - m[id].startTime)] else m
  }

  /** `timeoutLoading`: nothing for an absent id; otherwise `timeout`, `hasTimedOut` and the elapsed time. */
  function TimedOut(m: States, id: AppId, now: nat): (r: States)
    ensures (id in r <==> id in m) && AgreeExcept(m, r, id)
    ensures id !in m ==> r == m
    ensures id in m ==>
              && r[id].phase == Timeout && r[id].hasTimedOut
              && r[id].elapsedTime == now - m[id].startTime && r[id].startTime == m[id].startTime
  {
    if id in m then m[id := m[id].(phase := Timeout, hasTimedOut := true, elapsedTime := now - m[id].startTime)] else m
  }

  datatype LoadingType = Federation | Local

  datatype LoadingMetrics = LoadingMetrics(totalTime: int, phase: Phase, appId: AppId, loadingType: LoadingType)

  /** `getLoadingMetrics`: nothing for an absent id; `app1` is reported as federation, every other id as local. */
  function Metrics(m: States, id: AppId): (r: Option<LoadingMetrics>)
    ensures r.None? <==> id !in m
    ensures r.Some? ==> r.value.totalTime == m[id].elapsedTime && r.value.phase == m[id].phase && r.value.appId == id
    ensures r.Some? ==> (r.value.loadingType == Federation <==> id == App1)
  {
    if id !in m then None
    else Some(LoadingMetrics(m[id].elapsedTime, m[id].phase, id, if id == App1 then Federation else Local))
  }

  /** `isInPhase`: false for an absent id. */
  function InPhase(m: States, id: AppId, p: Phase): (b: bool)
    ensures b ==> id in m
  {
    id in m && m[id].phase == p
  }

  /** The two reads agree: an id is in a phase exactly when its metrics report that phase. */
  lemma InPhaseMatchesMetrics(m: States, id: AppId, p: Phase)
    ensures InPhase(m, id, p) <==> Metrics(m, id).Some? && Metrics(m, id).value.phase == p
  {
  }

  /** The events that drive the tracker: the hook's commands and its timer callbacks. */
  datatype TrackerEvent =
    | StartEv(id: AppId, now: nat)
    | PromoteEnhancedEv(id: AppId, now: nat)
    | PromoteSkeletonEv(id: AppId, now: nat)
    | TickEv(now: nat)
    | WatchdogEv(id: AppId, now: nat)
    | SetPhaseEv(id: AppId, phase: Phase, now: nat)
    | CompleteEv(id: AppId, now: nat)
    | TimeoutEv(id: AppId, now: nat)

  function Apply(m: States, e: TrackerEvent): States {
    match e
    case StartEv(id, now) => Started(m, id, now)
    case PromoteEnhancedEv(id, now) => Promote(m, id, Initial, Enhanced, now)
    case PromoteSkeletonEv(id, now) => Promote(m, id, Enhanced, Skeleton, now)
    case TickEv(now) => Ticked(m, now)
    case WatchdogEv(id, now) => WatchdogFired(m, id, now)
    case SetPhaseEv(id, p, now) => PhaseSet(m, id, p, now)
    case CompleteEv(id, now) => Completed(m, id, now)
    case TimeoutEv(id, now) => TimedOut(m, id, now)
  }

  function Replay(m: States, es: seq<TrackerEvent>): States
    decreases |es|
  {
    if es == [] then m else Replay(Apply(m, es[0]), es[1..])
  }

  /** No event removes an id from the tracker. */
  lemma {:induction false} ReplayKeepsKey(m: States, id: AppId, es: seq<TrackerEvent>)
    requires id in m
    ensures id in Replay(m, es)
    decreases |es|
  {
    if es != [] {
      assert id in Apply(m, es[0]);
      ReplayKeepsKey(Apply(m, es[0]), id, es[1..]);
    }
  }

  /** A slow load's staging: both promotions fire on time, and the id shows
      the skeleton with the elapsed time of the second promotion. */
  lemma SlowLoadStages(m: States, id: AppId, t0: nat)
    ensures var r := Replay(Started(m, id, t0), [PromoteEnhancedEv(id, t0 + EnhancedDelay), PromoteSkeletonEv(id, t0 + SkeletonDelay)]);
            id in r && r[id].phase == Skeleton && r[id].elapsedTime == SkeletonDelay && r[id].startTime == t0
  {
    var e := Promote(Started(m, id, t0), id, Initial, Enhanced, t0 + EnhancedDelay);
    var es := [PromoteEnhancedEv(id, t0 + EnhancedDelay), PromoteSkeletonEv(id, t0 + SkeletonDelay)];
    assert es[1..] == [PromoteSkeletonEv(id, t0 + SkeletonDelay)];
    assert Replay(Started(m, id, t0), es) == Replay(e, es[1..]);
  }

  /** The events that can take `id` back to a non-terminal phase. */
  predicate Restarts(e: TrackerEvent, id: AppId) {
    || (e.StartEv? && e.id == id)
    || (e.SetPhaseEv? && e.id == id && !Terminal(e.phase))
  }

  lemma ApplyKeepsTerminal(m: States, id: AppId, e: TrackerEvent)
    requires id in m && Terminal(m[id].phase) && !Restarts(e, id)
    ensures id in Apply(m, e) && Terminal(Apply(m, e)[id].phase)
  {
    match e
    case TickEv(now) =>
    case WatchdogEv(x, now) =>
    case _ =>
  }

  /** Terminal phases do not regress: once `complete`, `error` or `timeout`,
      an id stays terminal until a new `startLoading` or a `setLoadingPhase`
      to a non-terminal phase. */
  lemma {:induction false} TerminalPersists(m: States, id: AppId, es: seq<TrackerEvent>)
    requires id in m && Terminal(m[id].phase)
    requires forall i :: 0 <= i < |es| ==> !Restarts(es[i], id)
    ensures id in Replay(m, es) && Terminal(Replay(m, es)[id].phase)
    decreases |es|
  {
    if es != [] {
      ApplyKeepsTerminal(m, id, es[0]);
      assert forall i :: 0 <= i < |es[1..]| ==> es[1..][i] == es[i + 1];
      TerminalPersists(Apply(m, es[0]), id, es[1..]);
    }
  }

  /** A load that completes before its promotions fire never shows the
      skeleton: the late promotions find a terminal phase and do nothing. */
  lemma QuickLoadSkipsSkeleton(m: States, id: AppId, t0: nat, t1: nat, es: seq<TrackerEvent>)
    requires forall i :: 0 <= i < |es| ==> !Restarts(es[i], id)
    ensures var r := Replay(Completed(Started(m, id, t0), id, t1), es);
            id in r && r[id].phase != Skeleton && Terminal(r[id].phase)
  {
    TerminalPersists(Completed(Started(m, id, t0), id, t1), id, es);
  }

  /** A load that never settles: promoted to `enhanced` at 500 ms, it is
      timed out by the watchdog once 8000 ms have passed since its start. */
  lemma StalledLoadTimesOut(m: States, id: AppId, t0: nat, now: nat)
    requires now >= t0 + EnhancedTimeout
    ensures var r := WatchdogFired(Promote(Started(m, id, t0), id, Initial, Enhanced, t0 + EnhancedDelay), id, now);
            r[id].phase == Timeout && r[id].hasTimedOut
  {
    var e := Promote(Started(m, id, t0), id, Initial, Enhanced, t0 + EnhancedDelay);
    WatchdogDeadline(e, id, now);
  }

  /** `useLoadingStates`: the per-id record the hook overwrites. */
  class LoadingStateTracker {
    var loadingStates: States

    constructor ()
      ensures loadingStates == map[]
    {
      loadingStates := map[];
    }

    method StartLoading(id: AppId, now: nat)
      modifies this
      ensures loadingStates == Started(old(loadingStates), id, now)
    {
      loadingStates := loadingStates[id := LoadingState(Initial, now, 0, false)];
    }

    /** The callback scheduled 500 ms after `startLoading`. */
    method PromoteEnhanced(id: AppId, now: nat)
      modifies this
      ensures loadingStates == Promote(old(loadingStates), id, Initial, Enhanced, now)
    {
      PromoteFrom(id, Initial, Enhanced, now);
    }

    /** The callback scheduled 3000 ms after `startLoading`. */
    method PromoteSkeleton(id: AppId, now: nat)
      modifies this
      ensures loadingStates == Promote(old(loadingStates), id, Enhanced, Skeleton, now)
    {
      PromoteFrom(id, Enhanced, Skeleton, now);
    }

    method PromoteFrom(id: AppId, from: Phase, to: Phase, now: nat)
      modifies this
      ensures loadingStates == Promote(old(loadingStates), id, from, to, now)
    {
      if id in loadingStates && loadingStates[id].phase == from {
        var current := loadingStates[id];
        loadingStates := loadingStates[id := current.(phase := to, elapsedTime := now - current.startTime)];
      }
    }

    /** One run of the 100 ms interval. */
    method Tick(now: nat) returns (hasUpdates: bool)
      modifies this
      ensures loadingStates == Ticked(old(loadingStates), now)
      ensures hasUpdates <==> exists k :: k in old(loadingStates) && Stale(old(loadingStates)[k], now)
    {
      var next;
      next, hasUpdates := TickStates(loadingStates, now);
      loadingStates := next;
    }

    /** The watchdog timer for `id` firing, if it is armed and due. */
    method Watchdog(id: AppId, now: nat) returns (fired: bool)
      modifies this
      ensures fired <==> WatchdogDue(old(loadingStates), id, now)
      ensures loadingStates == WatchdogFired(old(loadingStates), id, now)
    {
      var timeouts := ArmWatchdogs(loadingStates);
      fired := id in timeouts && now - loadingStates[id].startTime >= timeouts[id];
      if fired {
        loadingStates := loadingStates[id := loadingStates[id].(phase := Timeout, hasTimedOut := true)];
      }
    }

    method SetLoadingPhase(id: AppId, phase: Phase, now: nat)
      modifies this
      ensures loadingStates == PhaseSet(old(loadingStates), id, phase, now)
    {
      var startTime := if id in loadingStates && loadingStates[id].startTime != 0 then loadingStates[id].startTime else now;
      loadingStates := loadingStates[id := LoadingState(phase, startTime, now - startTime, false)];
    }

    method CompleteLoading(id: AppId, now: nat)
      modifies this
      ensures loadingStates == Completed(old(loadingStates), id, now)
    {
      if id in loadingStates {
        var current := loadingStates[id];
        loadingStates := loadingStates[id := current.(phase := Complete, elapsedTime := now - current.startTime)];
      }
    }

    method TimeoutLoading(id: AppId, now: nat)
      modifies this
      ensures loadingStates == TimedOut(old(loadingStates), id, now)
    {
      if id in loadingStates {
        var current := loadingStates[id];
        loadingStates := loadingStates[id := current.(phase := Timeout, hasTimedOut := true, elapsedTime := now - current.startTime)];
      }
    }

    function GetLoadingMetrics(id: AppId): (r: Option<LoadingMetrics>)
      reads this
      ensures r == Metrics(loadingStates, id)
    {
      Metrics(loadingStates, id)
    }

    function IsInPhase(id: AppId, phase: Phase): (b: bool)
      reads this
      ensures b == InPhase(loadingStates, id, phase)
    {
      InPhase(loadingStates, id, phase)
    }
  }
}
