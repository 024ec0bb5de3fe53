/** The process-wide settings object `perfConfig` and `setPerfOptions`
    (packages/core/src/config.ts). */
module Config {
  import opened Wrappers

  /** The four settings, as a value. Thresholds are whole milliseconds
      (`slowSelectorThreshold`) and whole megabytes (`maxStoreSizeThreshold`). */
  datatype Settings = Settings(
    selectorTrackingEnabled: bool,
    slowSelectorThreshold: int,
    storeSizeTrackingEnabled: bool,
    maxStoreSizeThreshold: int)

  /** The initial value of `perfConfig`. */
  const Defaults: Settings := Settings(true, 5, true, 5)

  /** A `Partial<typeof perfConfig>`: each field may be absent. */
  datatype PerfOptions = PerfOptions(
    selectorTrackingEnabled: Option<bool>,
    slowSelectorThreshold: Option<int>,
    storeSizeTrackingEnabled: Option<bool>,
    maxStoreSizeThreshold: Option<int>)

  /** The options object `{}`. */
  const NoOptions: PerfOptions := PerfOptions(None, None, None, None)

  /** `Object.assign(settings, options)` on values: every field present in
      `options` is copied over, every other field is kept. */
  function Merge(s: Settings, o: PerfOptions): (r: Settings)
    ensures r.selectorTrackingEnabled == s.selectorTrackingEnabled
            || o.selectorTrackingEnabled == Some(r.selectorTrackingEnabled)
    ensures r.slowSelectorThreshold == s.slowSelectorThreshold
            || o.slowSelectorThreshold == Some(r.slowSelectorThreshold)
    ensures r.storeSizeTrackingEnabled == s.storeSizeTrackingEnabled
            || o.storeSizeTrackingEnabled == Some(r.storeSizeTrackingEnabled)
    ensures r.maxStoreSizeThreshold == s.maxStoreSizeThreshold
            || o.maxStoreSizeThreshold == Some(r.maxStoreSizeThreshold)
  {
    Settings(
      o.selectorTrackingEnabled.GetOr(s.selectorTrackingEnabled),
      o.slowSelectorThreshold.GetOr(s.slowSelectorThreshold),
      o.storeSizeTrackingEnabled.GetOr(s.storeSizeTrackingEnabled),
      o.maxStoreSizeThreshold.GetOr(s.maxStoreSizeThreshold))
  }

  /** Options `b` laid over options `a`: a field of `b` wins where both have one. */
  function Overlay(a: PerfOptions, b: PerfOptions): PerfOptions {
    PerfOptions(
      if b.selectorTrackingEnabled.Some? then b.selectorTrackingEnabled else a.selectorTrackingEnabled,
      if b.slowSelectorThreshold.Some? then b.slowSelectorThreshold else a.slowSelectorThreshold,
      if b.storeSizeTrackingEnabled.Some? then b.storeSizeTrackingEnabled else a.storeSizeTrackingEnabled,
      if b.maxStoreSizeThreshold.Some? then b.maxStoreSizeThreshold else a.maxStoreSizeThreshold)
  }

  /** Fields present in the options are overwritten, all others keep their value. */
  lemma MergeFields(s: Settings, o: PerfOptions)
    ensures o.selectorTrackingEnabled.Some? ==>
      Merge(s, o).selectorTrackingEnabled == o.selectorTrackingEnabled.value
    ensures o.selectorTrackingEnabled.None? ==>
      Merge(s, o).selectorTrackingEnabled == s.selectorTrackingEnabled
    ensures o.slowSelectorThreshold.Some? ==>
      Merge(s, o).slowSelectorThreshold == o.slowSelectorThreshold.value
    ensures o.slowSelectorThreshold.None? ==>
      Merge(s, o).slowSelectorThreshold == s.slowSelectorThreshold
    ensures o.storeSizeTrackingEnabled.Some? ==>
      Merge(s, o).storeSizeTrackingEnabled == o.storeSizeTrackingEnabled.value
    ensures o.storeSizeTrackingEnabled.None? ==>
      Merge(s, o).storeSizeTrackingEnabled == s.storeSizeTrackingEnabled
    ensures o.maxStoreSizeThreshold.Some? ==>
      Merge(s, o).maxStoreSizeThreshold == o.maxStoreSizeThreshold.value
    ensures o.maxStoreSizeThreshold.None? ==>
      Merge(s, o).maxStoreSizeThreshold == s.maxStoreSizeThreshold
  {
  }

  /** `setPerfOptions({})` changes nothing. */
  lemma MergeEmpty(s: Settings)
    ensures Merge(s, NoOptions) == s
  {
  }

  /** Applying the same options twice is the same as applying them once. */
  lemma MergeIdempotent(s: Settings, o: PerfOptions)
    ensures Merge(Merge(s, o), o) == Merge(s, o)
  {
  }

  /** Two calls in a row act as one call with the later options laid over the
      earlier: on a field both set, the later call wins. */
  lemma MergeLaterWins(s: Settings, a: PerfOptions, b: PerfOptions)
    ensures Merge(Merge(s, a), b) == Merge(s, Overlay(a, b))
  {
  }

  /** The mutable singleton `perfConfig`. */
  class PerfConfig {
    var selectorTrackingEnabled: bool
    var slowSelectorThreshold: int
    var storeSizeTrackingEnabled: bool
    var maxStoreSizeThreshold: int

    /** The current settings as a value. */
    function Value(): Settings
      reads this
    {
      Settings(selectorTrackingEnabled, slowSelectorThreshold,
               storeSizeTrackingEnabled, maxStoreSizeThreshold)
    }

    /** The module initialiser of config.ts. */
    constructor ()
      ensures Value() == Defaults
    {
      selectorTrackingEnabled := true;
      slowSelectorThreshold := 5;
      storeSizeTrackingEnabled := true;
      maxStoreSizeThreshold := 5;
    }

    /** `setPerfOptions(options)`: `Object.assign(perfConfig, options)`, field by field. */
    method SetPerfOptions(options: PerfOptions)
      modifies this
      ensures Value() == Merge(old(Value()), options)
    {
      if options.selectorTrackingEnabled.Some? {
        selectorTrackingEnabled := options.selectorTrackingEnabled.value;
      }
      if options.slowSelectorThreshold.Some? {
        slowSelectorThreshold := options.slowSelectorThreshold.value;
      }
      if options.storeSizeTrackingEnabled.Some? {
        storeSizeTrackingEnabled := options.storeSizeTrackingEnabled.value;
      }
      if options.maxStoreSizeThreshold.Some? {
        maxStoreSizeThreshold := options.maxStoreSizeThreshold.value;
      }
    }
  }
}
