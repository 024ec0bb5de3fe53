# redux-perf-toolkit core, modelled in Dafny

This project models the instrumentation core of redux-perf-toolkit and proves
properties of the model. The core has these parts:

- the `perfEventBus` publish/subscribe bus;
- the mutable `perfConfig` settings and `setPerfOptions`;
- the dispatch-timing middleware `createPerfMiddleware`;
- the reselect wrapper `createSelector`, with its name inference, its per-selector tracking memoizer `memoizeWithTracking`, and `createPerfSelector`;
- the `PerfAnalytics` aggregator: its subscriptions, its statistics tables and `logSummary`'s top-10 tables;
- the Vite plugin rules: `resolveId`, the `transform` file filters, and the Babel visitor that injects selector names.

The model follows the source's own form:

- Objects whose fields the code updates are classes: `EventBus`, `PerfConfig`, `PerfAnalytics`, the memoizer closure `TrackedSelector`, the module state of selectors.ts `SelectorFactory`, and the AST nodes the visitor mutates. Their methods say, in `modifies`/`ensures`, exactly what they change.
- Loops are `while` loops with invariants: `emit`'s `forEach`, the change-detection `for` with `break`, `stopTracking`'s `forEach`, and the delivery of one event to the listeners.
- Pure rules are functions with lemmas: name resolution, argument splitting, metric accumulation, top-10 ranking, option merging, and the plugin's string predicates.

File by file:

- `event_bus.dfy`: the bus, and `Without`, the `filter` performed by the unsubscribe closure.
- `config.dfy`: the settings object and `Object.assign`-style merging.
- `topics.dfy`: the three topic names, the payload shapes, and listener identities.
- `middleware.dfy`: it returns the ordered trace of what one pass through the stage does.
- `reselect.dfy`: the base memoizer. It is the model's assumption about `lruMemoize` with default options, a one-entry cache compared by reference; it is not a verification of reselect.
- `selectors.dfy`: `createSelector` and the tracking memoizer.
- `metrics.dfy`: metrics, keyed tables and the top-10 ranking.
- `analytics.dfy`: `PerfAnalytics` and the facts connecting it to the bus.
- `runtime.dfy`: an emit reaching the analytics object, a dispatch, and a selector call.
- `scenarios.dfy`: concrete runs on fresh objects.
- `vite_plugin.dfy`: the plugin.
- `strings.dfy`: `includes`, `endsWith` and the decimal rendering.
- `wrappers.dfy`: `Option`.

Numbers are mathematical integers.

- Durations, sizes and counts are `nat`.
- Thresholds and timestamps are `int`.
- `performance.now()` differences and `Date.now()` readings are parameters of the operations that read the clock.

In JavaScript a listener is a function object. Here it is a value of type `Listener`:

- `AnalyticsHandler(session, kind)` is one of the three closures created by the `session`-th call of `startTracking`;
- `Subscriber(id)` is any other subscriber.

The capability returned by `on` is the value `Subscription(event, fn)`. Calling it is `EventBus.Unsubscribe`.

What is proved, in outline:

- **Bus.** `emit` calls exactly the registered listeners, in registration order and with multiplicity, over a snapshot of the list.
- **Subscriptions.** In `PerfAnalytics`, the invariant `Valid` links tracking to holding three capabilities. It also requires the bus to carry exactly the current session's three closures while tracking, and none otherwise. `startTracking` and the corrected `stopTracking` preserve it. Other subscribers are never disturbed.
- **Delivery.** While tracking, an event on its topic updates the statistics exactly once. While stopped, it updates nothing.
- **Metrics.** A metric fed with samples `ds` is `(|ds|, sum, max, min)`. Tables keep unique keys and well-formed metrics.
- **Ranking.** `getTop10` returns the first `min(10, n)` rows of a stable descending sort. Nothing left out outranks what is kept. Rows with equal keys keep their insertion order.
- **Selectors.** Name resolution: an explicit `options.name` wins. Otherwise, when the last argument is the combiner, its function name is used, or a fresh `AnonymousSelector-<n>` when it has none; anonymous names never repeat. When an unnamed options object comes last, the name is the literal "AnonymousSelector", even if the combiner before it has a name. Change detection reports the first changed input index. A tracked selector emits an event exactly when its inputs differ from the stored ones. While the tracker and the base memoizer agree, that is exactly when the combiner runs.
- **Middleware.** It calls `next` exactly once and returns its result. It warns exactly when the duration exceeds 16. It emits exactly one action event.
- **Plugin.** `resolveId` redirects `reselect` only outside `node_modules` and the core package. The visitor leaves every `createSelector` declarator called with at least one argument with a named options object; a call with no arguments is left unchanged. A second visit changes nothing.

Two further behaviours are recorded outside the Findings table.

- **lastArgs is frozen while tracking is off.** In the tracking closure (packages/core/src/selectors.ts:221), turning tracking off stops updates to `lastArgs`, but the base memoizer keeps being called. After tracking is turned back on, the tracker and the memoizer can disagree: a real recomputation goes unreported. `Scenarios.UnreportedRecomputationAfterToggle` exhibits it. The code does not promise otherwise, so it is recorded here rather than as a finding.
- **Zero-duration samples.** A metric with count 0 is exactly one with minimum `Infinity` (`Metrics.WellFormed`). Its total duration can be 0 with a positive count, because zero durations are possible. So "count 0 iff total 0" is not a property of the code, and it is not claimed.

## Model

| member | source | states |
|---|---|---|
| Config.PerfConfig.constructor | packages/core/src/config.ts:1-6 | the initial settings are tracking on, selector threshold 5, store-size tracking on, store threshold 5 MB |
| Config.PerfConfig.SetPerfOptions | packages/core/src/config.ts:8-10 | the new settings are the old ones with every supplied field overwritten |
| Config.Merge | packages/core/src/config.ts:8-10 | `Object.assign` invents nothing: every field of the result is the old value or the supplied one |
| Config.MergeFields | packages/core/src/config.ts:8-10 | field by field: a supplied field takes the given value, an omitted one keeps the old value |
| Config.MergeEmpty | packages/core/src/config.ts:8-10 | `setPerfOptions({})` changes nothing |
| Config.MergeIdempotent | packages/core/src/config.ts:8-10 | applying the same options twice is applying them once |
| Config.MergeLaterWins | packages/core/src/config.ts:8-10 | two successive calls equal one call with the overlay of both, the later call winning field by field |
| EventBus.EventBus.constructor | packages/core/src/utils/eventBus.ts:4 | a new bus has no listeners |
| EventBus.EventBus.Emit | packages/core/src/utils/eventBus.ts:6-10 | the listeners called are exactly the event's list at the time of the call, in order and with multiplicity; none for an unknown event |
| EventBus.EventBus.On | packages/core/src/utils/eventBus.ts:12-22 | the listener is appended to its event's list, creating the list if absent; no other event changes; the returned capability names this event and listener |
| EventBus.EventBus.Unsubscribe | packages/core/src/utils/eventBus.ts:19-21 | calling the capability replaces its event's list by that list without every occurrence of the listener; no other event or key changes |
| EventBus.Without | packages/core/src/utils/eventBus.ts:20 | the filtered list is no longer than the list, and holds only listeners of the list other than the removed one |
| EventBus.WithoutSpec | packages/core/src/utils/eventBus.ts:20 | after the filter the listener is absent; every other listener keeps its count and their order is kept; the length drops by the listener's count |
| EventBus.WithoutIdempotent | packages/core/src/utils/eventBus.ts:19-21 | calling an unsubscribe closure twice is calling it once |
| EventBus.WithoutAbsent | packages/core/src/utils/eventBus.ts:20 | unsubscribing a listener that is not registered leaves the list as it was |
| EventBus.RegisteredTwiceCalledTwice | packages/core/src/utils/eventBus.ts:16 | appending a listener twice adds two occurrences of it to the list |
| EventBus.RegisterTwiceThenEmit | packages/core/src/utils/eventBus.ts:6-17 | `on(event, fn)` twice and then `emit(event)` calls the earlier listeners and then `fn` twice: one call per registration |
| Topics.TopicOf | packages/core/src/analytics.ts:59-61 | each analytics closure is registered on one of the three topics |
| Topics.TopicOfInjective | packages/core/src/analytics.ts:59-61 | the three closures are registered on three different topics |
| Middleware.PerfStage | packages/core/src/middleware.ts:5-29 | one pass returns `next`'s result; its trace has two or three effects, starts with the call of `next` and ends with an emit on "redux-perf-action" |
| Middleware.PassThrough | packages/core/src/middleware.ts:5-28 | the stage calls `next` exactly once, first, with the action it received, and returns `next`'s result |
| Middleware.EmitsOneActionEvent | packages/core/src/middleware.ts:21-26 | exactly one action event is emitted, last, carrying the action type and the measured duration |
| Middleware.WarnsIffSlow | packages/core/src/middleware.ts:12-19 | a slow-action warning is given iff the duration exceeds 16; it comes between `next` and the emit |
| Reselect.LruCache.constructor | packages/core/src/selectors.ts:216 | a new base memoizer is empty and has computed nothing |
| Reselect.LruCache.Call | packages/core/src/selectors.ts:216 | the assumed behaviour of `lruMemoize`: the value is the combiner's for these arguments; on a hit the cached value comes back without recomputing; on a miss the combiner runs once and its result is cached |
| Strings.NatToString | packages/core/src/selectors.ts:157 | the rendering of the counter is a non-empty digit string, of one digit iff the number is below 10 |
| Strings.NatToStringInjective | packages/core/src/selectors.ts:157 | different counter values render differently |
| Selectors.SplitArguments | packages/core/src/selectors.ts:187-201 | a function last is the combiner, and the options are `{}`; otherwise the last argument is the options and the one before it the combiner; in every case inputs, combiner and options reassemble the argument list |
| Selectors.ResolveName | packages/core/src/selectors.ts:153-208 | an explicit non-empty `options.name` wins; else, when the last argument is a function, its non-empty name, or `AnonymousSelector-<counter+1>` for an unnamed one; else (options or another value last) "AnonymousSelector", whatever the combiner before it is called; the counter moves by one exactly when the last argument is an unnamed function |
| Selectors.NamedCombinerBeforeOptions | packages/core/src/selectors.ts:153-158 | `createSelector(...inputs, function combine(){}, {})` is named "AnonymousSelector" and leaves the counter alone: the combiner's name is read only when it is the last argument |
| Selectors.AnonymousNamesUnique | packages/core/src/selectors.ts:157 | different counter values give different anonymous names |
| Selectors.ConsecutiveAnonymousSelectorsDiffer | packages/core/src/selectors.ts:149-157 | two anonymous selectors created one after the other get different names |
| Selectors.PerfSelectorNameLostAsWritten | packages/core/src/selectors.ts:296 | as written, every `createPerfSelector` selector is named "AnonymousSelector" whatever name is passed |
| Selectors.PerfSelectorNamed | packages/core/src/selectors.ts:296 | with the name forwarded as `options.name`, a non-empty name becomes the selector's name and the counter is untouched |
| Selectors.ChangeReportUnique | packages/core/src/selectors.ts:223-236 | the change report is determined by the two argument lists, and it reports a recomputation exactly when they differ |
| Selectors.DetectChange | packages/core/src/selectors.ts:223-236 | first call or a length change: recomputation at index -1; otherwise a recomputation iff some input differs by reference, at the first such index, and -1 when none does |
| Selectors.TrackedSelector.constructor | packages/core/src/selectors.ts:213-217 | a fresh closure has no stored inputs and a fresh, empty base memoizer |
| Selectors.TrackedSelector.Call | packages/core/src/selectors.ts:219-263 | the result is always the base memoizer's; tracking off: no event, no warning, `lastArgs` untouched; tracking on: an event iff the inputs differ from `lastArgs`, which then become the inputs, with the selector's name, the duration and the first changed index; a slow warning iff an event is emitted and the duration exceeds the threshold; while tracker and memoizer agree, an event iff the combiner ran |
| Selectors.SelectorFactory.constructor | packages/core/src/selectors.ts:149 | the anonymous counter starts at 0 |
| Selectors.SelectorFactory.CreateSelector | packages/core/src/selectors.ts:151-272 | a selector is built iff the combiner is a function; it carries the resolved name and the combiner; the counter advances as name resolution says |
| Selectors.SelectorFactory.CreatePerfSelector | packages/core/src/selectors.ts:275-296 | with the corrected forwarding, the selector is named by the given name (or the literal for an empty one) and the counter is untouched |
| Metrics.AddSample | packages/core/src/analytics.ts:31-35 | one sample adds one to the count and its duration to the total; the max becomes the larger of the old max and the sample, the min the smaller of the old min and the sample (a finite value) |
| Metrics.Accumulate | packages/core/src/analytics.ts:28-35 | the metric of a sequence of samples counts them, and has a finite minimum once there is one |
| Metrics.AccumulateExact | packages/core/src/analytics.ts:28-35 | a metric fed the samples `ds` from a fresh one has count the number of samples, total their sum, max the maximum (0 when empty) and min the minimum (`Infinity` when empty) |
| Metrics.AddSampleWellFormed | packages/core/src/analytics.ts:31-35 | one more sample keeps a metric well formed: count 0 iff min is `Infinity`, min ≤ max, count·min ≤ total ≤ count·max |
| Metrics.Record | packages/core/src/analytics.ts:27-36 | recording a sample under a key updates that key's metric (from a fresh one for a new key) and no other; a new key is added at the end |
| Metrics.RecordUnique | packages/core/src/analytics.ts:28-30 | a table keeps one entry per key |
| Metrics.RecordWellFormed | packages/core/src/analytics.ts:27-36 | recording keeps every metric of a table well formed |
| Metrics.Rows | packages/core/src/analytics.ts:89-98 | one row per entry, in the table's order, carrying the key, count, max and total |
| Metrics.StableSort | packages/core/src/analytics.ts:99-103 | the sort keeps the number of rows |
| Metrics.StableSortSorted | packages/core/src/analytics.ts:99-103 | the sorted rows are in descending order of the chosen key |
| Metrics.StableSortPermutes | packages/core/src/analytics.ts:99-103 | the sorted rows are a permutation of the rows |
| Metrics.StableSortStable | packages/core/src/analytics.ts:99-103 | rows with equal keys keep their relative order |
| Metrics.Top10 | packages/core/src/analytics.ts:88-105 | `getTop10` returns min(10, n) rows for a table of n keys |
| Metrics.Top10Sorted | packages/core/src/analytics.ts:88-105 | the table has min(10, n) rows, is sorted descending, and shows only rows of the metrics |
| Metrics.Top10Maximal | packages/core/src/analytics.ts:99-104 | no row left out has a larger key than a row shown |
| Metrics.Top10TiesInInsertionOrder | packages/core/src/analytics.ts:89-104 | among rows with one key value, those shown are the first ones in insertion order |
| Analytics.ApplyEvent | packages/core/src/analytics.ts:27-57 | each closure touches only its own field: an action event leaves the selectors and sizes alone, a selector event the actions and sizes, a store-size event both tables |
| Analytics.Step | packages/core/src/analytics.ts:27-61 | a call of a foreign subscriber leaves the statistics alone; a call that changes them is one of the analytics closures, registered on the topic of the payload's shape |
| Analytics.KindForTopic | packages/core/src/analytics.ts:59-61 | a payload of a topic's shape is consumed by the closure registered on that topic |
| Analytics.ActionEventEffect | packages/core/src/analytics.ts:27-36 | an action event adds one sample under its type and changes no other key, no selector metric and no size sample |
| Analytics.SelectorEventEffect | packages/core/src/analytics.ts:38-47 | a selector event adds one sample under its name and changes nothing else |
| Analytics.FirstSample | packages/core/src/analytics.ts:28-35 | the first sample of a key gives count 1 and total, max and min equal to it |
| Analytics.StoreSizeEventEffect | packages/core/src/analytics.ts:49-50 | a store-size event is appended to the size history and changes nothing else |
| Analytics.DeliverOnlyOwn | packages/core/src/analytics.ts:27-61 | listeners other than the analytics closures do not affect the statistics |
| Analytics.WarningsOnlyOwn | packages/core/src/analytics.ts:49-57 | only the analytics store-size closure prints the high-memory warning |
| Analytics.DeliveryToSubscribers | packages/core/src/analytics.ts:23-61 | while tracking, an event on its topic is handled exactly once; while stopped, it is not handled; at most one warning, iff tracking and the size exceeds threshold·1024·1024 |
| Analytics.AfterUnsubscribingKeepsSubscribers | packages/core/src/analytics.ts:70-75 | calling the analytics capabilities never changes another subscriber's registrations |
| Analytics.SubscribedLists | packages/core/src/analytics.ts:59-61 | `startTracking` appends one new closure to each of the three topics and leaves other topics alone |
| Analytics.SubscribedOwn | packages/core/src/analytics.ts:59-61 | from a bus without analytics closures, subscribing leaves exactly the new three |
| Analytics.AfterSessionUnsubscribed | packages/core/src/analytics.ts:73 | a session's capabilities remove that session's closure from each topic and touch nothing else |
| Analytics.UnsubscribedOwn | packages/core/src/analytics.ts:70-75 | after the capabilities are called, no analytics closure is left on any topic |
| Analytics.SummaryAfterReset | packages/core/src/analytics.ts:77-80 | after `reset` every summary table is empty and no store size is shown |
| Metrics.LatestSize | packages/core/src/analytics.ts:129-130 | the current size exists iff some sample was recorded, and then it is the last one; its partner `Analytics.StoreSizeReported` ties it to the store-size closure |
| Analytics.StoreSizeReported | packages/core/src/analytics.ts:129-131 | after a store-size event `logSummary` reports that event's size as the current one; action and selector events leave the reported size as it was |
| Analytics.DeliverAllWellFormed | packages/core/src/analytics.ts:27-47 | delivering events keeps keys unique and every metric well formed |
| Analytics.SubscribeSession | packages/core/src/analytics.ts:59-61 | the three `on` calls append the session's three closures, one per topic, and return their three capabilities in topic order |
| Analytics.UnsubscribeAll | packages/core/src/analytics.ts:73 | the capabilities are called in order; each topic's list is the result of applying them one by one |
| Analytics.PerfAnalytics.constructor | packages/core/src/analytics.ts:19-21 | construction starts tracking: the invariant holds and the first session's three closures are appended to the bus |
| Analytics.PerfAnalytics.GetIsTracking | packages/core/src/analytics.ts:84-86 | returns the tracking flag in every state, including the one the as-written stop leaves; in a valid state it reads true iff the three capabilities are held |
| Analytics.PerfAnalytics.StartTracking | packages/core/src/analytics.ts:23-68 | idempotent while tracking; otherwise three new closures go on the bus and one `Subscription` per closure is kept in `unsubscribes` (it stands for the closure `on` returns in the corrected stop, and for the `off` wrapper of lines 63-67 in the as-written stop); the invariant is preserved and the statistics are untouched |
| Analytics.PerfAnalytics.StopTracking | packages/core/src/analytics.ts:70-75 | corrected: nothing while stopped; otherwise the closures leave the bus, the capabilities are dropped, the invariant is preserved, and other subscribers keep their registrations |
| Analytics.PerfAnalytics.StopTrackingAsWritten | packages/core/src/analytics.ts:63-75 | as written: when tracking, the call throws after clearing the flag, and the capabilities (and the closures) stay |
| Analytics.PerfAnalytics.Reset | packages/core/src/analytics.ts:77-82 | the three statistics fields are emptied and tracking is untouched |
| Analytics.PerfAnalytics.HandleActionEvent | packages/core/src/analytics.ts:27-36 | the action closure's effect on the statistics |
| Analytics.PerfAnalytics.HandleSelectorEvent | packages/core/src/analytics.ts:38-47 | the selector closure's effect on the statistics |
| Analytics.PerfAnalytics.HandleStoreSizeEvent | packages/core/src/analytics.ts:49-57 | the sample is appended; the warning is given iff size > threshold·1024·1024 |
| Analytics.PerfAnalytics.Deliver | packages/core/src/analytics.ts:27-57 | the statistics after a sequence of listener calls are the fold of their effects in order; the warning count is the number of warning calls |
| Analytics.PerfAnalytics.LogSummary | packages/core/src/analytics.ts:108-133 | the six top-10 tables of actions and selectors by count, max and total, and the last sample's size iff there is one |
| Runtime.Publish | packages/core/src/utils/eventBus.ts:6-10 | an emit with the analytics object subscribed: the invariant holds afterwards; the statistics see the event once while tracking and not at all while stopped |
| Runtime.DispatchAction | packages/core/src/middleware.ts:5-29 | a dispatch returns `next`'s result, warns iff slow, and adds one sample under the action type iff tracking |
| Runtime.CallSelector | packages/core/src/selectors.ts:219-263 | a selector call's event, emitted iff the inputs changed and tracking is on, is recorded by the analytics iff it is tracking |
| Scenarios.ThreeDispatchesOfOneType | packages/core/src/analytics.ts:27-36 | durations 10, 30, 20 of one type: count 3, total 60, max 30, min 10; warnings only for 30 and 20 |
| Scenarios.SelectorRecomputations | packages/core/src/selectors.ts:223-260 | inputs (1,10), (1,10), (1,20): two recomputations; events at index -1, none, then index 1 |
| Scenarios.NothingRecordedAfterStop | packages/core/src/analytics.ts:70-75 | with the corrected stop, a later action is not recorded |
| Scenarios.StillRecordedAfterStopAsWritten | packages/core/src/analytics.ts:63-75 | as written, stop throws, the flag reads false, and a later action is still recorded |
| Scenarios.ResetKeepsTracking | packages/core/src/analytics.ts:77-82 | reset empties the summary and keeps tracking: the next action starts a fresh metric |
| Scenarios.UnreportedRecomputationAfterToggle | packages/core/src/selectors.ts:221-238 | after turning tracking off and on, a real recomputation emits no event |
| Scenarios.StoreSizeWarnings | packages/core/src/analytics.ts:49-57 | 5 MB does not warn at the default threshold, 6 MB does; the summary shows the latest size |
| VitePlugin.ResolveId | packages/vite-plugin/src/index.ts:27-42 | returns the core path iff rewriting is on, the source is "reselect", and the importer is absent or mentions none of "node_modules", "packages/core", "packages\\core", "redux-perf-core" |
| VitePlugin.SettingsOf | packages/vite-plugin/src/index.ts:20 | an omitted option takes its default (rewrite on, path "@dynlabs/redux-perf-core") and a supplied one is kept; its partner `VitePlugin.DefaultOptionsRedirect` shows what the defaults do to `resolveId` |
| VitePlugin.DefaultOptionsRedirect | packages/vite-plugin/src/index.ts:19-42 | through the option defaults: with no options, an importer-less `reselect` import goes to "@dynlabs/redux-perf-core"; with only `corePath` it goes there; with `rewriteReselect: false` nothing is redirected |
| VitePlugin.ContainsTransitive | packages/vite-plugin/src/index.ts:31-35 | `includes` of a part follows from `includes` of a whole containing it |
| VitePlugin.CoreImportsNotRedirected | packages/vite-plugin/src/index.ts:20-42 | with the defaults, no importer whose path mentions the core path is redirected |
| VitePlugin.ResolveIdExamples | packages/vite-plugin/src/index.ts:27-42 | concrete cases: a `reselect` import without an importer is redirected; an import from a Windows path in the core package is not; other sources and disabled rewriting give null |
| VitePlugin.ShouldTransform | packages/vite-plugin/src/index.ts:46-56 | a module that passes the filters has an id of at least three characters ending in `s` or `x` |
| VitePlugin.NoSelectorNoTransform | packages/vite-plugin/src/index.ts:54-56 | code without `createSelector` is never transformed, whatever the id |
| VitePlugin.NodeModulesNotTransformed | packages/vite-plugin/src/index.ts:46-48 | an id mentioning `node_modules` is never transformed, whatever the code |
| VitePlugin.TypeScriptModuleTransformed | packages/vite-plugin/src/index.ts:46-56 | for any id outside `node_modules` ending in `.ts`, `.tsx`, `.js` or `.jsx`: it is transformed iff the code mentions `createSelector` |
| VitePlugin.OtherModulesSkipped | packages/vite-plugin/src/index.ts:50-52 | any id whose last character is neither `s` nor `x` is skipped, whatever the code |
| VitePlugin.SkippedExamples | packages/vite-plugin/src/index.ts:50-52 | `a.ts?raw` and `src/App.vue` are skipped |
| VitePlugin.VueScriptBlockTransformed | packages/vite-plugin/src/index.ts:46-56 | a single example: the Vue script-block id `src/App.vue?vue&type=script&lang.ts` (passed as its stem plus `.ts`) passes the filters when the code mentions `createSelector`, because the extension check reads the whole id, query included |
| VitePlugin.NameProperty | packages/vite-plugin/src/index.ts:85 | the injected property is one the name check recognises |
| VitePlugin.OnlyIdentifierKeysName | packages/vite-plugin/src/index.ts:78-82 | only identifier keys count as a name, computed ones included; a quoted `'name'` key or a `name` method does not |
| VitePlugin.VisitVariableDeclarator | packages/vite-plugin/src/index.ts:64-97 | non-targets are untouched; no arguments: no change; an object last gains one `name` property unless it has one; otherwise a new `{ name }` object is appended; afterwards the options are named, and an already named call is left unchanged (idempotence) |
| VitePlugin.NamingScenario | packages/vite-plugin/src/index.ts:88-95 | a two-argument call gains `{ name: "selectTotal" }`, and a second visit changes nothing |

## Left out

- Timing: `performance.now()` and `Date.now()` are parameters. Durations are whole numbers. `toFixed`, the `avg` column and the formatting of console messages are not modelled.
- Console output: the warnings are returned as booleans or counts; the texts are not modelled.
- reselect internals: `createSelectorCreator`, `argsMemoize`, input-selector evaluation, the `memoize`/`memoizeOptions` plumbing and reselect's argument checks are not modelled, except one: where the combiner is missing or not a function, reselect throws, and `Selectors.SelectorFactory.CreateSelector` returns `null`. `Reselect.LruCache` is an assumed model of `lruMemoize` with default options. Input selectors are opaque arguments, and their results are the references the tracking closure compares.
- `perfMemoize` and `createPerfMemoizer` (packages/core/src/selectors.ts:6-146) are never used by the exported functions. The second `return` of `createPerfSelector` (line 308) is unreachable. Neither is modelled.
- Store-size events: no code of the core emits them. The tests at packages/core/src/__tests__/middleware.test.ts:62-90 expect the middleware to emit them, with throttling, but middleware.ts has neither. The model follows middleware.ts, and store-size events enter only through `Runtime.Publish`. `storeSizeTrackingEnabled` is stored but read by no code.
- Exceptions thrown by listeners, reducers or combiners are not modelled; the only exception modelled is the one `stopTracking` throws as written.
- `Middleware.PerfStage`: `next(action)` is one atomic effect. What runs inside it (reducers, store subscribers, selectors they call and the selector events those publish before the action event) is not modelled, nor is that ordering. The statistics do not depend on it, since each analytics closure touches only its own field (`Analytics.ApplyEvent`).
- Multiple `PerfAnalytics` objects on one bus: listener identities assume a single analytics object. This excludes the module-level `perfAnalytics` together with further instances, as the tests create them.
- Payloads whose shape does not match their topic: such events come from foreign emitters. The analytics closures ignore them, whereas JavaScript would record `undefined` fields.
- `Object.entries` order over integer-like keys, and prototype keys such as `__proto__`: tables keep insertion order for all keys.
- Bus topics named after an `Object.prototype` member (such as `"toString"`): the source's plain-object `listeners` (packages/core/src/utils/eventBus.ts:4) would find the inherited function, so `emit` and `on` would throw. The model's map has no inherited keys. The three topics of the core are not such names.
- Floating-point thresholds and durations, NaN and negative durations are not modelled.
- Option fields explicitly set to `undefined` are treated as omitted; in the source, `Object.assign` would store `undefined`.
- `Analytics.PerfAnalytics.StopTrackingAsWritten`: it models the exception only as the returned flag. The rest of a JavaScript caller does not run after it, and the model does not model a later `startTracking`, which would then subscribe a second set of closures.
- `VitePlugin.VisitVariableDeclarator`: Babel parsing, printing, source maps and traversal order are not modelled. `callee` is a constant field because the visitor never rewrites it. Aliasing between two declarators sharing an argument object is not modelled beyond the frame of the one call.
- The React components, hooks, the reselect proxy and the example application are not modelled.

## Findings

| source | as written | input that shows it | evidently intended | confidence | as-written member | corrected member |
|---|---|---|---|---|---|---|
| packages/core/src/analytics.ts:63-67 | the unsubscribe closures call `perfEventBus.off`, which the bus (packages/core/src/utils/eventBus.ts:3-23) does not define, so `stopTracking` throws a TypeError after clearing `isTracking`; the handlers stay subscribed and keep recording | `new PerfAnalytics()`, then `stopTracking()`, then an emit on "redux-perf-action" | keep the closures returned by `on` and call them, so that stopping removes the handlers | not executed | Analytics.PerfAnalytics.StopTrackingAsWritten | Analytics.PerfAnalytics.StopTracking |
| packages/core/src/selectors.ts:296 | `createPerfSelector` appends `{ memoizeOptions: { name } }`, an options object with no own `name`, so name resolution falls back to "AnonymousSelector" | `createPerfSelector("byId", selectA, combine)` | the name reaches `options.name` | not executed | Selectors.PerfSelectorNameLostAsWritten | Selectors.PerfSelectorNamed |
