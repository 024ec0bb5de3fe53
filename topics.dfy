/** The event topics the core publishes on `perfEventBus`, their payloads,
    and the identities of the listeners that subscribe to them. Topic names
    are the string literals used in middleware.ts, selectors.ts and
    analytics.ts. */
module Topics {

  const ActionTopic: string := "redux-perf-action"
  const SelectorTopic: string := "redux-perf-selector"
  const StoreSizeTopic: string := "redux-perf-store-size"

  /** The data objects passed to `emit`. Durations are whole time units,
      timestamps are epoch values supplied by the caller. */
  datatype Payload =
    | ActionPayload(actionType: string, duration: nat, timestamp: int)
    | SelectorPayload(name: string, duration: nat, recomputation: bool, changedIndex: int, timestamp: int)
    | StoreSizePayload(size: nat, timestamp: int)

  /** The payload has the shape the listeners of `topic` read. */
  predicate Conforms(topic: string, p: Payload) {
    (topic == ActionTopic && p.ActionPayload?) ||
    (topic == SelectorTopic && p.SelectorPayload?) ||
    (topic == StoreSizeTopic && p.StoreSizePayload?)
  }

  /** Which of the three closures created by `PerfAnalytics.startTracking`. */
  datatype HandlerKind = HandleAction | HandleSelector | HandleStoreSize

  /** The topic each analytics closure is registered on. */
  function TopicOf(k: HandlerKind): (t: string)
    ensures t == ActionTopic || t == SelectorTopic || t == StoreSizeTopic
  {
    match k
    case HandleAction => ActionTopic
    case HandleSelector => SelectorTopic
    case HandleStoreSize => StoreSizeTopic
  }

  /** Each of the three topics carries exactly one analytics closure. */
  lemma TopicOfInjective(j: HandlerKind, k: HandlerKind)
    ensures TopicOf(j) == TopicOf(k) <==> j == k
  {
  }

  /** A listener's identity (the JavaScript function object). Every call of
      `startTracking` creates three new closures; `session` tells them apart
      from the closures of earlier calls. Any other subscriber (a dashboard,
      a test spy) is a `Subscriber`. */
  datatype Listener =
    | AnalyticsHandler(session: nat, kind: HandlerKind)
    | Subscriber(id: nat)
}
