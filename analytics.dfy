/** The aggregator `PerfAnalytics` of packages/core/src/analytics.ts: its
    three closures subscribed on the bus, the tracking flag, reset, the
    statistics tables and `logSummary`'s ranked tables. */
module Analytics {
  import opened Wrappers
  import opened Topics
  import opened Metrics
  import opened EventBus
  import Config

  /** An element of `storeSizes`: the store-size event's data as pushed. */
  datatype StoreSample = StoreSample(size: nat, timestamp: int)

  /** The three statistics fields `actions`, `selectors`, `storeSizes`. */
  datatype Stats = Stats(actions: Table, selectors: Table, storeSizes: seq<StoreSample>)

  const EmptyStats: Stats := Stats([], [], [])

  const BytesPerMB: nat := 1024 * 1024

  /** `size > perfConfig.maxStoreSizeThreshold * 1024 * 1024`. */
  predicate Oversized(size: nat, thresholdMB: int) {
    size > thresholdMB * BytesPerMB
  }

  /** The analytics closure that consumes events of this payload's shape. */
  function KindFor(p: Payload): HandlerKind {
    match p
    case ActionPayload(_, _, _) => HandleAction
    case SelectorPayload(_, _, _, _, _) => HandleSelector
    case StoreSizePayload(_, _) => HandleStoreSize
  }

  lemma KindForTopic(topic: string, p: Payload)
    requires Conforms(topic, p)
    ensures TopicOf(KindFor(p)) == topic
  {
  }

  /** The statistics after one event has been handled by its closure:
      `handleAction` records `type` and `duration` in `actions`,
      `handleSelector` records `name` and `duration` in `selectors`,
      `handleStoreSize` appends the sample to `storeSizes`. */
  function ApplyEvent(st: Stats, p: Payload): (r: Stats)
    ensures p.ActionPayload? ==> r.selectors == st.selectors && r.storeSizes == st.storeSizes
    ensures p.SelectorPayload? ==> r.actions == st.actions && r.storeSizes == st.storeSizes
    ensures p.StoreSizePayload? ==> r.actions == st.actions && r.selectors == st.selectors
  {
    match p
    case ActionPayload(actionType, duration, _) =>
      st.(actions := Record(st.actions, actionType, duration))
    case SelectorPayload(name, duration, _, _, _) =>
      st.(selectors := Record(st.selectors, name, duration))
    case StoreSizePayload(size, timestamp) =>
      st.(storeSizes := st.storeSizes + [StoreSample(size, timestamp)])
  }

  /** An action event counts one more sample of its duration under its
      `type`, and leaves every other key, the selectors table and the size
      history alone. */
  lemma ActionEventEffect(st: Stats, actionType: string, d: nat, timestamp: int)
    ensures var r := ApplyEvent(st, ActionPayload(actionType, d, timestamp));
      && Get(r.actions, actionType) == Some(AddSample(Get(st.actions, actionType).GetOr(FreshMetric), d))
      && (forall n :: n != actionType ==> Get(r.actions, n) == Get(st.actions, n))
      && r.selectors == st.selectors && r.storeSizes == st.storeSizes
  {
  }

  /** A selector event does the same keyed by `name` in `selectors`. */
  lemma SelectorEventEffect(st: Stats, name: string, d: nat, recomputation: bool, changedIndex: int, timestamp: int)
    ensures var r := ApplyEvent(st, SelectorPayload(name, d, recomputation, changedIndex, timestamp));
      && Get(r.selectors, name) == Some(AddSample(Get(st.selectors, name).GetOr(FreshMetric), d))
      && (forall n :: n != name ==> Get(r.selectors, n) == Get(st.selectors, n))
      && r.actions == st.actions && r.storeSizes == st.storeSizes
  {
    var r := ApplyEvent(st, SelectorPayload(name, d, recomputation, changedIndex, timestamp));
    assert r.selectors == Record(st.selectors, name, d);
  }

  /** The first sample of a key gives count 1, total, max and min all `d`. */
  lemma FirstSample(d: nat)
    ensures AddSample(FreshMetric, d) == Metric(1, d, d, Finite(d))
  {
  }

  /** A store-size event is appended at the end of the size history. */
  lemma StoreSizeEventEffect(st: Stats, size: nat, timestamp: int)
    ensures var r := ApplyEvent(st, StoreSizePayload(size, timestamp));
      && r.storeSizes == st.storeSizes + [StoreSample(size, timestamp)]
      && r.actions == st.actions && r.selectors == st.selectors
  {
  }

  /** What a call of listener `l` with data `p` does to the statistics: an
      analytics closure handles data of its own shape; any other listener
      does not touch them. */
  function Step(st: Stats, l: Listener, p: Payload): (r: Stats)
    ensures l.Subscriber? ==> r == st
    ensures r != st ==> l.AnalyticsHandler? && TopicOf(l.kind) == TopicOf(KindFor(p))
  {
    if l.AnalyticsHandler? && l.kind == KindFor(p) then ApplyEvent(st, p) else st
  }

  /** Whether that call prints the high-memory warning. */
  predicate StepWarns(l: Listener, p: Payload, thresholdMB: int) {
    l.AnalyticsHandler? && l.kind == HandleStoreSize && p.StoreSizePayload?
    && Oversized(p.size, thresholdMB)
  }

  /** The statistics after the listeners `calls` were called in order. */
  function DeliverAll(st: Stats, calls: seq<Listener>, p: Payload): Stats
    decreases |calls|
  {
    if calls == [] then st
    else Step(DeliverAll(st, calls[..|calls| - 1], p), calls[|calls| - 1], p)
  }

  /** How many high-memory warnings those calls print. */
  function WarningsAll(calls: seq<Listener>, p: Payload, thresholdMB: int): nat
    decreases |calls|
  {
    if calls == [] then 0
    else WarningsAll(calls[..|calls| - 1], p, thresholdMB)
         + (if StepWarns(calls[|calls| - 1], p, thresholdMB) then 1 else 0)
  }

  /** The analytics closures among `list`, in order. */
  function OwnHandlers(list: seq<Listener>): seq<Listener>
    decreases |list|
  {
    if list == [] then []
    else OwnHandlers(list[..|list| - 1])
         + (if list[|list| - 1].AnalyticsHandler? then [list[|list| - 1]] else [])
  }

  lemma {:induction false} OwnHandlersAppend(a: seq<Listener>, b: seq<Listener>)
    ensures OwnHandlers(a + b) == OwnHandlers(a) + OwnHandlers(b)
    decreases |b|
  {
    if b == [] {
      assert a + b == a;
    } else {
      assert (a + b)[..|a + b| - 1] == a + b[..|b| - 1];
      OwnHandlersAppend(a, b[..|b| - 1]);
    }
  }

  /** Other subscribers do not change the statistics: only the analytics
      closures among the calls matter. */
  lemma {:induction false} DeliverOnlyOwn(st: Stats, calls: seq<Listener>, p: Payload)
    ensures DeliverAll(st, calls, p) == DeliverAll(st, OwnHandlers(calls), p)
    decreases |calls|
  {
    if calls != [] {
      var init := calls[..|calls| - 1];
      var l := calls[|calls| - 1];
      DeliverOnlyOwn(st, init, p);
      var own := OwnHandlers(calls);
      if l.AnalyticsHandler? {
        assert own == OwnHandlers(init) + [l];
        assert own[..|own| - 1] == OwnHandlers(init);
        assert own[|own| - 1] == l;
      } else {
        assert own == OwnHandlers(init) + [];
        assert own == OwnHandlers(init);
      }
    }
  }

  /** Nor do they print warnings. */
  lemma {:induction false} WarningsOnlyOwn(calls: seq<Listener>, p: Payload, thresholdMB: int)
    ensures WarningsAll(calls, p, thresholdMB) == WarningsAll(OwnHandlers(calls), p, thresholdMB)
    decreases |calls|
  {
    if calls != [] {
      var init := calls[..|calls| - 1];
      var l := calls[|calls| - 1];
      WarningsOnlyOwn(init, p, thresholdMB);
      var own := OwnHandlers(calls);
      if l.AnalyticsHandler? {
        assert own == OwnHandlers(init) + [l];
        assert own[..|own| - 1] == OwnHandlers(init);
        assert own[|own| - 1] == l;
        assert WarningsAll(own, p, thresholdMB)
               == WarningsAll(OwnHandlers(init), p, thresholdMB) + (if StepWarns(l, p, thresholdMB) then 1 else 0);
      } else {
        assert own == OwnHandlers(init) + [];
        assert own == OwnHandlers(init);
        assert !StepWarns(l, p, thresholdMB);
      }
    }
  }

  lemma OwnHandlersCons(x: Listener, rest: seq<Listener>)
    ensures OwnHandlers([x] + rest) == (if x.AnalyticsHandler? then [x] else []) + OwnHandlers(rest)
  {
    OwnHandlersAppend([x], rest);
    assert [x][..0] == [];
  }

  /** Removing one listener and then picking the analytics closures is
      picking them and then removing it. */
  lemma {:induction false} OwnHandlersWithout(list: seq<Listener>, h: Listener)
    ensures OwnHandlers(Without(list, h)) == Without(OwnHandlers(list), h)
    decreases |list|
  {
    if list != [] {
      var x := list[0];
      var rest := list[1..];
      var head: seq<Listener> := if x.AnalyticsHandler? then [x] else [];
      OwnHandlersWithout(rest, h);
      assert list == [x] + rest;
      OwnHandlersCons(x, rest);
      var r := OwnHandlers(rest);
      if x == h {
        assert Without(list, h) == Without(rest, h);
        if head == [] {
          assert head + r == r;
        } else {
          assert (head + r)[0] == h && (head + r)[1..] == r;
        }
      } else {
        assert Without(list, h) == [x] + Without(rest, h);
        OwnHandlersCons(x, Without(rest, h));
        if head == [] {
          assert head + r == r;
          assert head + Without(r, h) == Without(r, h);
        } else {
          assert (head + r)[0] == x && (head + r)[1..] == r;
        }
      }
    }
  }

  /** The analytics closures that should be on `topic`: the current
      session's closure for that topic while tracking, none otherwise. */
  function ExpectedHandlers(topic: string, tracking: bool, session: nat): (r: seq<Listener>)
    ensures |r| <= 1
  {
    if !tracking || session == 0 then []
    else if topic == ActionTopic then [AnalyticsHandler(session - 1, HandleAction)]
    else if topic == SelectorTopic then [AnalyticsHandler(session - 1, HandleSelector)]
    else if topic == StoreSizeTopic then [AnalyticsHandler(session - 1, HandleStoreSize)]
    else []
  }

  /** While tracking, an event on its own topic is handled exactly once;
      while stopped it is not handled at all. */
  lemma {:induction false} DeliveryToSubscribers(st: Stats, list: seq<Listener>, topic: string, p: Payload,
                                                 tracking: bool, session: nat, thresholdMB: int)
    requires OwnHandlers(list) == ExpectedHandlers(topic, tracking, session)
    requires Conforms(topic, p)
    ensures DeliverAll(st, list, p) == if tracking && session > 0 then ApplyEvent(st, p) else st
    ensures WarningsAll(list, p, thresholdMB)
            == if tracking && session > 0 && p.StoreSizePayload? && Oversized(p.size, thresholdMB) then 1 else 0
  {
    DeliverOnlyOwn(st, list, p);
    WarningsOnlyOwn(list, p, thresholdMB);
    var own := OwnHandlers(list);
    if own != [] {
      assert own[..0] == [];
      KindForTopic(topic, p);
    }
  }

  /** The unsubscribe capabilities of session `s`'s three closures. */
  function Subscriptions(s: nat): seq<Subscription<Listener>> {
    [ Subscription(ActionTopic, AnalyticsHandler(s, HandleAction)),
      Subscription(SelectorTopic, AnalyticsHandler(s, HandleSelector)),
      Subscription(StoreSizeTopic, AnalyticsHandler(s, HandleStoreSize)) ]
  }

  /** A topic's list after the capabilities `subs` were called in order. */
  function AfterUnsubscribing(list: seq<Listener>, topic: string, subs: seq<Subscription<Listener>>): seq<Listener>
    decreases |subs|
  {
    if subs == [] then list
    else
      var rest := AfterUnsubscribing(list, topic, subs[..|subs| - 1]);
      if subs[|subs| - 1].event == topic then Without(rest, subs[|subs| - 1].fn) else rest
  }

  lemma {:induction false} AfterUnsubscribingKeepsSubscribers(list: seq<Listener>, topic: string,
                                                              subs: seq<Subscription<Listener>>, x: Listener)
    requires forall i :: 0 <= i < |subs| ==> subs[i].fn.AnalyticsHandler?
    requires x.Subscriber?
    ensures Count(AfterUnsubscribing(list, topic, subs), x) == Count(list, x)
    decreases |subs|
  {
    if subs != [] {
      AfterUnsubscribingKeepsSubscribers(list, topic, subs[..|subs| - 1], x);
      WithoutSpec(AfterUnsubscribing(list, topic, subs[..|subs| - 1]), subs[|subs| - 1].fn);
    }
  }

  /** The listener map after `startTracking`'s three `on` calls in session `s`. */
  function Subscribed(m: map<string, seq<Listener>>, s: nat): map<string, seq<Listener>> {
    var m1 := m[ActionTopic := Lookup(m, ActionTopic) + [AnalyticsHandler(s, HandleAction)]];
    var m2 := m1[SelectorTopic := Lookup(m1, SelectorTopic) + [AnalyticsHandler(s, HandleSelector)]];
    m2[StoreSizeTopic := Lookup(m2, StoreSizeTopic) + [AnalyticsHandler(s, HandleStoreSize)]]
  }

  /** Subscribing appends the session's closure to each of the three topics
      and leaves every other topic alone. */
  lemma SubscribedLists(m: map<string, seq<Listener>>, s: nat)
    ensures forall t :: Lookup(Subscribed(m, s), t) == Lookup(m, t) + ExpectedHandlers(t, true, s + 1)
  {
  }

  /** From a bus with no analytics closures, subscribing leaves exactly the
      session's three. */
  lemma SubscribedOwn(m: map<string, seq<Listener>>, s: nat)
    requires forall t :: OwnHandlers(Lookup(m, t)) == []
    ensures forall t :: OwnHandlers(Lookup(Subscribed(m, s), t)) == ExpectedHandlers(t, true, s + 1)
  {
    forall t ensures OwnHandlers(Lookup(Subscribed(m, s), t)) == ExpectedHandlers(t, true, s + 1) {
      SubscribedOwnAt(m, s, t);
    }
  }

  lemma SubscribedOwnAt(m: map<string, seq<Listener>>, s: nat, t: string)
    requires OwnHandlers(Lookup(m, t)) == []
    ensures OwnHandlers(Lookup(Subscribed(m, s), t)) == ExpectedHandlers(t, true, s + 1)
  {
    SubscribedLists(m, s);
    var e := ExpectedHandlers(t, true, s + 1);
    OwnHandlersAppend(Lookup(m, t), e);
    if e != [] {
      assert e[..0] == [];
      assert OwnHandlers(e) == OwnHandlers(e[..0]) + [e[0]];
    }
  }

  /** Session `s`'s capabilities remove from each topic's list that
      topic's closure of the session, and touch no other topic. */
  lemma AfterSessionUnsubscribed(list: seq<Listener>, t: string, s: nat)
    ensures var e := ExpectedHandlers(t, true, s + 1);
      AfterUnsubscribing(list, t, Subscriptions(s)) == if e == [] then list else Without(list, e[0])
  {
    var subs := Subscriptions(s);
    assert subs[..3] == subs;
    assert subs[..3][..2] == subs[..2];
    assert subs[..2][..1] == subs[..1];
    assert subs[..1][..0] == [];
    var a0 := AfterUnsubscribing(list, t, subs[..0]);
    var a1 := AfterUnsubscribing(list, t, subs[..1]);
    var a2 := AfterUnsubscribing(list, t, subs[..2]);
    assert a0 == list;
    assert a1 == if t == ActionTopic then Without(list, subs[0].fn) else list;
    assert a2 == if t == SelectorTopic then Without(a1, subs[1].fn) else a1;
  }

  /** Calling session `s`'s three capabilities leaves no analytics closure
      on any topic. */
  lemma UnsubscribedOwn(m: map<string, seq<Listener>>, s: nat)
    requires forall t :: OwnHandlers(Lookup(m, t)) == ExpectedHandlers(t, true, s + 1)
    ensures forall t :: OwnHandlers(AfterUnsubscribing(Lookup(m, t), t, Subscriptions(s))) == []
  {
    forall t ensures OwnHandlers(AfterUnsubscribing(Lookup(m, t), t, Subscriptions(s))) == [] {
      var e := ExpectedHandlers(t, true, s + 1);
      AfterSessionUnsubscribed(Lookup(m, t), t, s);
      if e != [] {
        OwnHandlersWithout(Lookup(m, t), e[0]);
        assert Without(e, e[0]) == [];
      }
    }
  }

  /** A `logSummary` report: the six ranked tables and the latest store size. */
  datatype Summary = Summary(
    mostTriggeredActions: seq<Row>, slowestActions: seq<Row>, heaviestActions: seq<Row>,
    mostTriggeredSelectors: seq<Row>, slowestSelectors: seq<Row>, heaviestSelectors: seq<Row>,
    currentStoreSize: Option<nat>)

  function Sizes(samples: seq<StoreSample>): (r: seq<nat>)
    ensures |r| == |samples| && forall i :: 0 <= i < |samples| ==> r[i] == samples[i].size
    decreases |samples|
  {
    if samples == [] then [] else [samples[0].size] + Sizes(samples[1..])
  }

  function SummaryOf(st: Stats): Summary {
    Summary(
      Top10(st.actions, ByCount), Top10(st.actions, ByMaxDuration), Top10(st.actions, ByTotalDuration),
      Top10(st.selectors, ByCount), Top10(st.selectors, ByMaxDuration), Top10(st.selectors, ByTotalDuration),
      LatestSize(Sizes(st.storeSizes)))
  }

  /** After `reset` the summary shows no rows and no store size. */
  lemma SummaryAfterReset()
    ensures SummaryOf(EmptyStats) == Summary([], [], [], [], [], [], None)
  {
    assert Rows([]) == [];
  }

  /** After a store-size event `logSummary` reports that size as the
      current one; action and selector events leave it as it was. */
  lemma StoreSizeReported(st: Stats, p: Payload)
    ensures p.StoreSizePayload? ==> SummaryOf(ApplyEvent(st, p)).currentStoreSize == Some(p.size)
    ensures !p.StoreSizePayload? ==>
      SummaryOf(ApplyEvent(st, p)).currentStoreSize == SummaryOf(st).currentStoreSize
  {
    if p.StoreSizePayload? {
      var r := ApplyEvent(st, p);
      assert Sizes(r.storeSizes)[|r.storeSizes| - 1] == p.size;
    }
  }

  /** The invariants of the statistics: unique keys and well-formed metrics. */
  ghost predicate StatsWellFormed(st: Stats) {
    UniqueNames(st.actions) && UniqueNames(st.selectors)
    && TableWellFormed(st.actions) && TableWellFormed(st.selectors)
  }

  lemma {:induction false} DeliverAllWellFormed(st: Stats, calls: seq<Listener>, p: Payload)
    requires StatsWellFormed(st)
    ensures StatsWellFormed(DeliverAll(st, calls, p))
    decreases |calls|
  {
    if calls != [] {
      var mid := DeliverAll(st, calls[..|calls| - 1], p);
      DeliverAllWellFormed(st, calls[..|calls| - 1], p);
      match p
      case ActionPayload(t, d, _) =>
        RecordUnique(mid.actions, t, d);
        RecordWellFormed(mid.actions, t, d);
      case SelectorPayload(n, d, _, _, _) =>
        RecordUnique(mid.selectors, n, d);
        RecordWellFormed(mid.selectors, n, d);
      case StoreSizePayload(_, _) =>
    }
  }

  /** The three `on` calls of `startTracking` for session `s`. */
  method SubscribeSession(bus: EventBus<Listener>, s: nat) returns (subs: seq<Subscription<Listener>>)
    modifies bus
    ensures bus.listeners == Subscribed(old(bus.listeners), s)
    ensures subs == Subscriptions(s)
  {
    var u1 := bus.On(ActionTopic, AnalyticsHandler(s, HandleAction));
    var u2 := bus.On(SelectorTopic, AnalyticsHandler(s, HandleSelector));
    var u3 := bus.On(StoreSizeTopic, AnalyticsHandler(s, HandleStoreSize));
    subs := [u1, u2, u3];
  }

  /** `this.unsubscribes.forEach(unsub => unsub())`: the capabilities are
      called in order. */
  method UnsubscribeAll(bus: EventBus<Listener>, subs: seq<Subscription<Listener>>)
    requires forall i :: 0 <= i < |subs| ==> subs[i].event in bus.listeners
    modifies bus
    ensures bus.listeners.Keys == old(bus.listeners.Keys)
    ensures forall t :: Lookup(bus.listeners, t) == AfterUnsubscribing(Lookup(old(bus.listeners), t), t, subs)
  {
    var i := 0;
    while i < |subs|
      invariant 0 <= i <= |subs|
      invariant bus.listeners.Keys == old(bus.listeners.Keys)
      invariant forall t :: Lookup(bus.listeners, t) == AfterUnsubscribing(Lookup(old(bus.listeners), t), t, subs[..i])
    {
      bus.Unsubscribe(subs[i]);
      assert subs[..i + 1][..i] == subs[..i];
      i := i + 1;
    }
    assert subs[..|subs|] == subs;
  }

  class PerfAnalytics {
    const bus: EventBus<Listener>
    const config: Config.PerfConfig
    var actions: Table
    var selectors: Table
    var storeSizes: seq<StoreSample>
    var unsubscribes: seq<Subscription<Listener>>
    var isTracking: bool
    /** How many times `startTracking` has subscribed; the closures of the
        latest subscription carry `session - 1`. */
    var session: nat

    function Current(): Stats
      reads this
    {
      Stats(actions, selectors, storeSizes)
    }

    /** The subscription invariant: tracking iff three capabilities are
        held, and the analytics closures on the bus are exactly the current
        session's three, one per topic, while tracking, and none otherwise. */
    ghost predicate Valid()
      reads this, bus
    {
      && (isTracking <==> |unsubscribes| == 3)
      && (!isTracking ==> unsubscribes == [])
      && (isTracking ==> session > 0 && unsubscribes == Subscriptions(session - 1))
      && (isTracking ==>
            ActionTopic in bus.listeners && SelectorTopic in bus.listeners && StoreSizeTopic in bus.listeners)
      && (forall t :: OwnHandlers(Lookup(bus.listeners, t)) == ExpectedHandlers(t, isTracking, session))
    }

    /** `new PerfAnalytics()`: starts tracking at once. No analytics closure
        is on the bus beforehand (the closures are created by this object). */
    constructor (bus: EventBus<Listener>, config: Config.PerfConfig)
      requires forall t :: OwnHandlers(Lookup(bus.listeners, t)) == []
      modifies bus
      ensures this.bus == bus && this.config == config
      ensures Valid() && isTracking && |unsubscribes| == 3 && Current() == EmptyStats
      ensures forall t :: bus.ListenersOf(t) == old(bus.ListenersOf(t)) + ExpectedHandlers(t, true, 1)
    {
      this.bus := bus;
      this.config := config;
      actions := [];
      selectors := [];
      storeSizes := [];
      unsubscribes := [];
      isTracking := false;
      session := 0;
      new;
      StartTracking();
    }

    /** `getIsTracking()`: the flag, which in a valid state says whether the
        three capabilities are held. After the as-written `stopTracking` it
        reads false although the closures are still on the bus. */
    function GetIsTracking(): (r: bool)
      reads this, bus
      ensures r == isTracking
      ensures Valid() ==> (r <==> |unsubscribes| == 3)
    {
      isTracking
    }

    /** `startTracking()`: nothing when already tracking; otherwise three
        new closures are appended to their topics' lists and their
        capabilities kept. */
    method StartTracking()
      requires Valid()
      modifies this, bus
      ensures Valid() && isTracking && Current() == old(Current())
      ensures old(isTracking) ==> unsubscribes == old(unsubscribes) && session == old(session)
                                  && bus.listeners == old(bus.listeners)
      ensures !old(isTracking) ==>
        && session == old(session) + 1 && unsubscribes == Subscriptions(old(session))
        && forall t :: bus.ListenersOf(t) == old(bus.ListenersOf(t)) + ExpectedHandlers(t, true, session)
    {
      if isTracking {
        return;
      }
      isTracking := true;
      var s := session;
      ghost var m := bus.listeners;
      var subs := SubscribeSession(bus, s);
      unsubscribes := unsubscribes + subs;
      session := s + 1;
      SubscribedLists(m, s);
      SubscribedOwn(m, s);
    }

    /** `stopTracking()` with each capability returned by `on` called in
        turn: nothing when not tracking; otherwise the three closures leave
        their lists and the capabilities are dropped. */
    method StopTracking()
      requires Valid()
      modifies this, bus
      ensures Valid() && !isTracking && unsubscribes == [] && Current() == old(Current())
      ensures !old(isTracking) ==> bus.listeners == old(bus.listeners) && session == old(session)
      ensures old(isTracking) ==>
        forall t :: bus.ListenersOf(t) == AfterUnsubscribing(old(bus.ListenersOf(t)), t, old(unsubscribes))
      ensures forall t, x: Listener :: x.Subscriber? ==> Count(bus.ListenersOf(t), x) == Count(old(bus.ListenersOf(t)), x)
    {
      if !isTracking {
        return;
      }
      isTracking := false;
      ghost var before := bus.listeners;
      var subs := unsubscribes;
      UnsubscribeAll(bus, subs);
      unsubscribes := [];
      UnsubscribedOwn(before, session - 1);
      forall t, x: Listener | x.Subscriber?
        ensures Count(bus.ListenersOf(t), x) == Count(old(bus.ListenersOf(t)), x)
      {
        AfterUnsubscribingKeepsSubscribers(Lookup(before, t), t, subs, x);
      }
    }

    /** `stopTracking()` as written: line 64-66 wrap each capability as
        `() => perfEventBus.off(topic, handler)`, but the bus has no `off`
        method, so the first call throws a TypeError. The flag is already
        false by then; the capabilities are not dropped and the closures stay
        on the bus. `threw` reports the exception. */
    method StopTrackingAsWritten() returns (threw: bool)
      requires Valid()
      modifies this
      ensures threw == old(isTracking)
      ensures !isTracking && unsubscribes == old(unsubscribes) && session == old(session)
      ensures Current() == old(Current())
    {
      if !isTracking {
        threw := false;
        return;
      }
      isTracking := false;
      threw := |unsubscribes| > 0;
    }

    /** `reset()`: empties the three statistics fields; tracking untouched. */
    method Reset()
      modifies this
      ensures Current() == EmptyStats
      ensures isTracking == old(isTracking) && unsubscribes == old(unsubscribes) && session == old(session)
    {
      actions := [];
      selectors := [];
      storeSizes := [];
    }

    /** The closure `handleAction(data)`. */
    method HandleActionEvent(data: Payload)
      modifies this
      ensures Current() == Step(old(Current()), AnalyticsHandler(0, HandleAction), data)
      ensures isTracking == old(isTracking) && unsubscribes == old(unsubscribes) && session == old(session)
    {
      if data.ActionPayload? {
        actions := Record(actions, data.actionType, data.duration);
      }
    }

    /** The closure `handleSelector(data)`. */
    method HandleSelectorEvent(data: Payload)
      modifies this
      ensures Current() == Step(old(Current()), AnalyticsHandler(0, HandleSelector), data)
      ensures isTracking == old(isTracking) && unsubscribes == old(unsubscribes) && session == old(session)
    {
      if data.SelectorPayload? {
        selectors := Record(selectors, data.name, data.duration);
      }
    }

    /** The closure `handleStoreSize(data)`: append, then warn if oversized. */
    method HandleStoreSizeEvent(data: Payload) returns (warned: bool)
      modifies this
      ensures Current() == Step(old(Current()), AnalyticsHandler(0, HandleStoreSize), data)
      ensures warned == StepWarns(AnalyticsHandler(0, HandleStoreSize), data, config.maxStoreSizeThreshold)
      ensures isTracking == old(isTracking) && unsubscribes == old(unsubscribes) && session == old(session)
    {
      warned := false;
      if data.StoreSizePayload? {
        storeSizes := storeSizes + [StoreSample(data.size, data.timestamp)];
        warned := data.size > config.maxStoreSizeThreshold * BytesPerMB;
      }
    }

    /** The calls `emit` makes, in order, as far as they reach this object:
        each analytics closure among `calls` runs its handler on `data`. */
    method Deliver(calls: seq<Listener>, data: Payload) returns (warnings: nat)
      modifies this
      ensures Current() == DeliverAll(old(Current()), calls, data)
      ensures warnings == WarningsAll(calls, data, config.maxStoreSizeThreshold)
      ensures isTracking == old(isTracking) && unsubscribes == old(unsubscribes) && session == old(session)
    {
      warnings := 0;
      var i := 0;
      while i < |calls|
        invariant 0 <= i <= |calls|
        invariant Current() == DeliverAll(old(Current()), calls[..i], data)
        invariant warnings == WarningsAll(calls[..i], data, config.maxStoreSizeThreshold)
        invariant isTracking == old(isTracking) && unsubscribes == old(unsubscribes) && session == old(session)
      {
        var l := calls[i];
        assert calls[..i + 1][..i] == calls[..i];
        if l.AnalyticsHandler? {
          match l.kind
          case HandleAction =>
            HandleActionEvent(data);
          case HandleSelector =>
            HandleSelectorEvent(data);
          case HandleStoreSize =>
            var warned := HandleStoreSizeEvent(data);
            if warned {
              warnings := warnings + 1;
            }
        }
        i := i + 1;
      }
      assert calls[..|calls|] == calls;
    }

    /** `logSummary()`: the six top-10 tables and the latest store size.
        What the tables mean is proved about `SummaryOf` (`Top10Sorted`,
        `Top10Maximal`, `Top10TiesInInsertionOrder`) and about the size
        (`StoreSizeReported`); this method only reads the current state. */
    method LogSummary() returns (summary: Summary)
      ensures summary == SummaryOf(Current())
      ensures summary.currentStoreSize.Some? <==> |storeSizes| > 0
      ensures summary.currentStoreSize.Some? ==>
        summary.currentStoreSize.value == storeSizes[|storeSizes| - 1].size
    {
      summary := SummaryOf(Current());
    }
  }
}
