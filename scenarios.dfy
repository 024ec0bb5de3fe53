/** Concrete runs of the system, each starting from fresh objects: the
    behaviour the repository's tests describe, and the consequences of the
    two flaws documented in README. */
module Scenarios {
  import opened Wrappers
  import opened Topics
  import opened EventBus
  import opened Metrics
  import opened Analytics
  import opened Middleware
  import opened Selectors
  import opened Reselect
  import Config
  import Runtime

  /** Three dispatches of one action type taking 10, 30 and 20: one metric
      with count 3, total 60, max 30, min 10; only the 30 and the 20 exceed
      the 16 budget... */
  method ThreeDispatchesOfOneType() returns (metric: Option<Metric>, warnings: seq<bool>)
    ensures metric == Some(Metric(3, 60, 30, Finite(10)))
    ensures warnings == [false, true, true]
  {
    var bus := new EventBus<Listener>();
    var config := new Config.PerfConfig();
    var analytics := new PerfAnalytics(bus, config);
    var next := (a: Action) => a.body;
    var _, w1 := Runtime.DispatchAction(bus, analytics, Action("X", 0), next, 10, 1);
    assert Get(analytics.actions, "X") == Some(Metric(1, 10, 10, Finite(10)));
    var _, w2 := Runtime.DispatchAction(bus, analytics, Action("X", 0), next, 30, 2);
    assert Get(analytics.actions, "X") == Some(Metric(2, 40, 30, Finite(10)));
    var _, w3 := Runtime.DispatchAction(bus, analytics, Action("X", 0), next, 20, 3);
    metric := Get(analytics.actions, "X");
    warnings := [w1, w2, w3];
  }

  /** A tracked selector called with (1, 10), (1, 10), (1, 20): the
      combiner runs twice; the first call reports a recomputation at index
      -1, the repeated call reports nothing, the third reports index 1. */
  method SelectorRecomputations() returns (recomputations: nat, events: seq<Option<Payload>>)
    ensures recomputations == 2
    ensures |events| == 3 && events[1] == None
    ensures events[0].Some? && events[0].value == SelectorPayload("sel", 4, true, -1, 1)
    ensures events[2].Some? && events[2].value == SelectorPayload("sel", 4, true, 1, 3)
  {
    var config := new Config.PerfConfig();
    var sum := (xs: seq<Ref>) => if |xs| == 2 then xs[0] + xs[1] else 0;
    var selector := new TrackedSelector("sel", config, sum);
    var _, e1, _ := selector.Call([1, 10], 4, 1);
    var _, e2, _ := selector.Call([1, 10], 4, 2);
    var _, e3, _ := selector.Call([1, 20], 4, 3);
    recomputations := selector.cache.recomputations;
    events := [e1, e2, e3];
  }

  /** With the corrected `stopTracking`, an action dispatched afterwards is
      not recorded, and the flag reads false. */
  method NothingRecordedAfterStop() returns (tracking: bool, metric: Option<Metric>)
    ensures !tracking && metric == None
  {
    var bus := new EventBus<Listener>();
    var config := new Config.PerfConfig();
    var analytics := new PerfAnalytics(bus, config);
    analytics.StopTracking();
    var _, _ := Runtime.DispatchAction(bus, analytics, Action("X", 0), (a: Action) => a.body, 5, 1);
    tracking := analytics.GetIsTracking();
    metric := Get(analytics.actions, "X");
  }

  /** With `stopTracking` as written, the call throws, the flag reads false,
      yet the closure is still on the bus and the next action is recorded. */
  method StillRecordedAfterStopAsWritten() returns (threw: bool, tracking: bool, metric: Option<Metric>)
    ensures threw && !tracking
    ensures metric == Some(Metric(1, 5, 5, Finite(5)))
  {
    var bus := new EventBus<Listener>();
    var config := new Config.PerfConfig();
    var analytics := new PerfAnalytics(bus, config);
    threw := analytics.StopTrackingAsWritten();
    tracking := analytics.GetIsTracking();
    var data := ActionPayload("X", 5, 1);
    var called := bus.Emit(ActionTopic);
    ghost var before := analytics.Current();
    var _ := analytics.Deliver(called, data);
    DeliveryToSubscribers(before, called, ActionTopic, data, true, 1, config.maxStoreSizeThreshold);
    metric := Get(analytics.actions, "X");
  }

  /** `reset` clears the statistics without stopping tracking: the next
      dispatch is recorded from a fresh metric. */
  method ResetKeepsTracking() returns (tracking: bool, metric: Option<Metric>, summaryRows: nat)
    ensures tracking && metric == Some(Metric(1, 7, 7, Finite(7))) && summaryRows == 0
  {
    var bus := new EventBus<Listener>();
    var config := new Config.PerfConfig();
    var analytics := new PerfAnalytics(bus, config);
    var next := (a: Action) => a.body;
    var _, _ := Runtime.DispatchAction(bus, analytics, Action("X", 0), next, 3, 1);
    analytics.Reset();
    var summary := analytics.LogSummary();
    SummaryAfterReset();
    summaryRows := |summary.mostTriggeredActions|;
    var _, _ := Runtime.DispatchAction(bus, analytics, Action("X", 0), next, 7, 2);
    tracking := analytics.GetIsTracking();
    metric := Get(analytics.actions, "X");
  }

  /** Turning selector tracking off and on again: while off, `lastArgs` is
      not updated, so after a call with other inputs and a return to the old
      ones the base memoizer recomputes but the tracker reports nothing. */
  method UnreportedRecomputationAfterToggle() returns (recomputations: nat, lastEvent: Option<Payload>)
    ensures recomputations == 3 && lastEvent == None
  {
    var config := new Config.PerfConfig();
    var sum := (xs: seq<Ref>) => if |xs| == 2 then xs[0] + xs[1] else 0;
    var selector := new TrackedSelector("sel", config, sum);
    var _, _, _ := selector.Call([1, 10], 1, 1);
    config.SetPerfOptions(Config.NoOptions.(selectorTrackingEnabled := Some(false)));
    var _, _, _ := selector.Call([2, 10], 1, 2);
    config.SetPerfOptions(Config.NoOptions.(selectorTrackingEnabled := Some(true)));
    var _, e, _ := selector.Call([1, 10], 1, 3);
    recomputations := selector.cache.recomputations;
    lastEvent := e;
  }

  /** Store-size events above the threshold in MB warn; the latest sample
      is what the summary shows. */
  method StoreSizeWarnings() returns (warnings: seq<nat>, current: Option<nat>)
    ensures warnings == [0, 1] && current == Some(6 * BytesPerMB)
  {
    var bus := new EventBus<Listener>();
    var config := new Config.PerfConfig();
    var analytics := new PerfAnalytics(bus, config);
    var _, w1 := Runtime.Publish(bus, analytics, StoreSizeTopic, StoreSizePayload(5 * BytesPerMB, 1));
    var _, w2 := Runtime.Publish(bus, analytics, StoreSizeTopic, StoreSizePayload(6 * BytesPerMB, 2));
    var summary := analytics.LogSummary();
    warnings := [w1, w2];
    current := summary.currentStoreSize;
  }
}
