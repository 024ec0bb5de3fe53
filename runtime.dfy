/** How the pieces meet at run time: an emit on `perfEventBus` reaching the
    `perfAnalytics` closures, a dispatch through the timing middleware, and
    a call of a tracked selector whose event goes onto the bus. */
module Runtime {
  import opened Wrappers
  import opened Topics
  import opened EventBus
  import opened Analytics
  import opened Middleware
  import opened Selectors
  import opened Reselect

  /** `perfEventBus.emit(topic, data)` with `analytics` among the
      subscribers: every listener of the topic is called once per
      registration, and the statistics see the event exactly once while
      tracking and not at all while stopped. */
  method Publish(bus: EventBus<Listener>, analytics: PerfAnalytics, topic: string, data: Payload)
    returns (called: seq<Listener>, warnings: nat)
    requires analytics.bus == bus && analytics.Valid() && Conforms(topic, data)
    modifies analytics
    ensures analytics.Valid()
    ensures called == bus.ListenersOf(topic)
    ensures analytics.Current()
            == if analytics.isTracking then ApplyEvent(old(analytics.Current()), data) else old(analytics.Current())
    ensures warnings == if analytics.isTracking && data.StoreSizePayload?
                           && Oversized(data.size, analytics.config.maxStoreSizeThreshold) then 1 else 0
    ensures analytics.isTracking == old(analytics.isTracking) && analytics.session == old(analytics.session)
            && analytics.unsubscribes == old(analytics.unsubscribes)
  {
    called := bus.Emit(topic);
    ghost var before := analytics.Current();
    warnings := analytics.Deliver(called, data);
    DeliveryToSubscribers(before, called, topic, data, analytics.isTracking, analytics.session,
                          analytics.config.maxStoreSizeThreshold);
  }

  /** `store.dispatch(action)` through `createPerfMiddleware()`, when `next`
      takes `duration` and the clock reads `timestamp`: the reducer's result
      comes back, a warning is given iff the dispatch took longer than 16,
      and the action's metric gains one sample while tracking. */
  method DispatchAction<R>(bus: EventBus<Listener>, analytics: PerfAnalytics, action: Action,
                           next: Action -> R, duration: nat, timestamp: int)
    returns (result: R, slowWarning: bool)
    requires analytics.bus == bus && analytics.Valid()
    modifies analytics
    ensures analytics.Valid()
    ensures result == next(action)
    ensures slowWarning <==> duration > SlowActionBudget
    ensures analytics.Current()
            == if analytics.isTracking
               then ApplyEvent(old(analytics.Current()), ActionPayload(action.actionType, duration, timestamp))
               else old(analytics.Current())
    ensures analytics.isTracking == old(analytics.isTracking)
  {
    var run := PerfStage(action, next, duration, timestamp);
    PassThrough(action, next, duration, timestamp);
    EmitsOneActionEvent(action, next, duration, timestamp);
    WarnsIffSlow(action, next, duration, timestamp);
    var last := run.effects[|run.effects| - 1];
    var _, _ := Publish(bus, analytics, last.topic, last.payload);
    result := run.result;
    slowWarning := CountOf(run.effects, IsWarning) == 1;
  }

  /** A call of a tracked selector: its event, if any, goes onto the bus. */
  method CallSelector(bus: EventBus<Listener>, analytics: PerfAnalytics, selector: TrackedSelector,
                      args: seq<Ref>, duration: nat, timestamp: int)
    returns (result: Ref, emitted: Option<Payload>)
    requires analytics.bus == bus && analytics.Valid() && selector.cache.Valid()
    modifies analytics, selector, selector.cache
    ensures analytics.Valid() && selector.cache.Valid()
    ensures result == selector.cache.combine(args)
    ensures !selector.config.selectorTrackingEnabled ==> emitted == None
    ensures selector.config.selectorTrackingEnabled ==> (emitted.Some? <==> Changed(old(selector.lastArgs), args))
    ensures emitted.Some? ==> emitted.value.SelectorPayload? && emitted.value.name == selector.name
                              && emitted.value.duration == duration
    ensures analytics.Current()
            == if analytics.isTracking && emitted.Some?
               then ApplyEvent(old(analytics.Current()), emitted.value)
               else old(analytics.Current())
    ensures analytics.isTracking == old(analytics.isTracking)
  {
    var slow;
    result, emitted, slow := selector.Call(args, duration, timestamp);
    if emitted.Some? {
      var _, _ := Publish(bus, analytics, SelectorTopic, emitted.value);
    }
  }
}
