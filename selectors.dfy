/** The tracked memoizer `createSelector` of packages/core/src/selectors.ts:
    splitting its variadic arguments, naming the selector, and the tracking
    closure `memoizeWithTracking` around reselect's `lruMemoize`. */
module Selectors {
  import opened Wrappers
  import opened Strings
  import opened Topics
  import opened Reselect
  import Config

  /** One argument of `createSelector(...args)`, classified by what the code
      inspects: `typeof arg === 'function'` with the function's `name`, an
      options object with its `name` property (absent, or a string), or any
      other value (an array of input selectors, `null`, a number). */
  datatype Arg =
    | FunctionArg(fnName: string, combine: seq<Ref> -> Ref)
    | OptionsArg(name: Option<string>)
    | ValueArg(id: Ref)

  /** The three parts of the argument list. `None` stands for `undefined`. */
  datatype SplitArgs = SplitArgs(inputs: seq<Arg>, combiner: Option<Arg>, options: Option<Arg>)

  /** The options object `{}` that stands when the last argument is the combiner. */
  const EmptyOptions: Arg := OptionsArg(None)

  /** Splitting `args` into input selectors, combiner and options: when the
      last argument is a function it is the combiner and the options are
      `{}`; otherwise it is the options, the one before it the combiner and
      the rest the inputs. Every case puts the pieces back together into
      `args`. */
  function SplitArguments(args: seq<Arg>): (r: SplitArgs)
    ensures |args| > 0 && args[|args| - 1].FunctionArg? ==>
      r.combiner.Some? && r.inputs + [r.combiner.value] == args && r.options == Some(EmptyOptions)
    ensures |args| >= 2 && !args[|args| - 1].FunctionArg? ==>
      r.combiner.Some? && r.options.Some? && r.inputs + [r.combiner.value, r.options.value] == args
    ensures |args| == 1 && !args[0].FunctionArg? ==>
      r.inputs == [] && r.combiner == None && r.options == Some(args[0])
    ensures |args| == 0 ==> r == SplitArgs([], None, None)
  {
    if |args| == 0 then SplitArgs([], None, None)
    else
      var last := args[|args| - 1];
      if last.FunctionArg? then SplitArgs(args[..|args| - 1], Some(last), Some(EmptyOptions))
      else if |args| == 1 then SplitArgs([], None, Some(last))
      else SplitArgs(args[..|args| - 2], Some(args[|args| - 2]), Some(last))
  }

  /** `options && options.name`: the options' name when it is a non-empty string. */
  function ExplicitName(options: Option<Arg>): Option<string> {
    if options.Some? && options.value.OptionsArg? && options.value.name.Some?
       && options.value.name.value != ""
    then options.value.name else None
  }

  /** The name synthesised for the `n`-th anonymous selector. */
  function AnonymousName(n: nat): string {
    "AnonymousSelector-" + NatToString(n)
  }

  const AnonymousSelector: string := "AnonymousSelector"

  /** The resolved name and the new value of `anonymousSelectorCounter`. */
  datatype Naming = Naming(name: string, counter: nat)

  /** The last argument is a function without a name: the only case that
      draws on the counter. */
  predicate DrawsCounter(args: seq<Arg>) {
    |args| > 0 && args[|args| - 1].FunctionArg? && args[|args| - 1].fnName == ""
  }

  /** Name resolution of `createSelector`, given the counter's current value. */
  function ResolveName(args: seq<Arg>, counter: nat): (r: Naming)
    // An explicit non-empty `options.name` wins.
    ensures ExplicitName(SplitArguments(args).options).Some? ==>
      r.name == ExplicitName(SplitArguments(args).options).value
    // Else the combiner's own non-empty name.
    ensures |args| > 0 && args[|args| - 1].FunctionArg? && args[|args| - 1].fnName != "" ==>
      r.name == args[|args| - 1].fnName
    // Else a numbered anonymous name, and only then does the counter move, by one.
    ensures DrawsCounter(args) ==> r.name == AnonymousName(counter + 1)
    ensures r.counter == if DrawsCounter(args) then counter + 1 else counter
    // An options object (or anything else) last, without a name: the plain literal.
    ensures (ExplicitName(SplitArguments(args).options).None?
             && !(|args| > 0 && args[|args| - 1].FunctionArg?)) ==> r.name == AnonymousSelector
  {
    var last := if |args| > 0 then Some(args[|args| - 1]) else None;
    var inferred :=
      if last.Some? && last.value.FunctionArg? then
        (if last.value.fnName != "" then Naming(last.value.fnName, counter)
         else Naming(AnonymousName(counter + 1), counter + 1))
      else Naming(AnonymousSelector, counter);
    var explicit := ExplicitName(SplitArguments(args).options);
    if explicit.Some? then Naming(explicit.value, inferred.counter) else inferred
  }

  /** A named combiner followed by an options object without a name does not
      name the selector: only the last argument's function name is read. */
  lemma NamedCombinerBeforeOptions(inputs: seq<Arg>, fnName: string, combine: seq<Ref> -> Ref, counter: nat)
    requires fnName != ""
    ensures var r := ResolveName(inputs + [FunctionArg(fnName, combine), OptionsArg(None)], counter);
      r.name == AnonymousSelector && r.counter == counter
  {
    var args := inputs + [FunctionArg(fnName, combine), OptionsArg(None)];
    assert args[|args| - 1] == OptionsArg(None);
  }

  /** Successive anonymous selectors get pairwise different names. */
  lemma AnonymousNamesUnique(m: nat, n: nat)
    requires m != n
    ensures AnonymousName(m) != AnonymousName(n)
  {
    if AnonymousName(m) == AnonymousName(n) {
      PrefixCancel("AnonymousSelector-", NatToString(m), NatToString(n));
      NatToStringInjective(m, n);
    }
  }

  /** Two anonymous selectors made one after the other never share a name. */
  lemma ConsecutiveAnonymousSelectorsDiffer(a: seq<Arg>, b: seq<Arg>, counter: nat)
    requires DrawsCounter(a) && DrawsCounter(b)
    ensures ResolveName(a, counter).name != ResolveName(b, ResolveName(a, counter).counter).name
  {
    AnonymousNamesUnique(counter + 1, counter + 2);
  }

  /** `createPerfSelector(name, ...args)` as written: it appends
      `{ memoizeOptions: { name } }`, an options object with no `name`
      property of its own. */
  function PerfSelectorArgsAsWritten(name: string, args: seq<Arg>): seq<Arg> {
    args + [OptionsArg(None)]
  }

  /** As written, the explicit name never reaches the selector: every
      selector made by `createPerfSelector` is called "AnonymousSelector". */
  lemma PerfSelectorNameLostAsWritten(name: string, args: seq<Arg>, counter: nat)
    ensures ResolveName(PerfSelectorArgsAsWritten(name, args), counter).name == AnonymousSelector
  {
    var full := PerfSelectorArgsAsWritten(name, args);
    assert full[|full| - 1] == OptionsArg(None);
  }

  /** The forwarding evidently intended: the name as the options' own `name`. */
  function PerfSelectorArgs(name: string, args: seq<Arg>): seq<Arg> {
    args + [OptionsArg(Some(name))]
  }

  /** With the corrected forwarding a non-empty name is the selector's name
      and the anonymous counter is left alone. */
  lemma PerfSelectorNamed(name: string, args: seq<Arg>, counter: nat)
    requires name != ""
    ensures ResolveName(PerfSelectorArgs(name, args), counter) == Naming(name, counter)
  {
    var full := PerfSelectorArgs(name, args);
    assert full[|full| - 1] == OptionsArg(Some(name));
  }

  /** What the comparison of the current inputs with `lastArgs` must report:
      on the first call or a length change, a recomputation at index -1;
      otherwise a recomputation iff some input differs by reference, at the
      first such index, and -1 when nothing differs. */
  predicate IsChangeReport(lastArgs: Option<seq<Ref>>, args: seq<Ref>, recomputation: bool, changedIndex: int) {
    if lastArgs.None? || |lastArgs.value| != |args| then
      recomputation && changedIndex == -1
    else
      (recomputation <==> lastArgs.value != args)
      && (recomputation ==>
            0 <= changedIndex < |args| && args[changedIndex] != lastArgs.value[changedIndex]
            && forall j :: 0 <= j < changedIndex ==> args[j] == lastArgs.value[j])
      && (!recomputation ==> changedIndex == -1)
  }

  /** The inputs differ from the stored ones: the tracker's recomputation criterion. */
  predicate Changed(lastArgs: Option<seq<Ref>>, args: seq<Ref>) {
    lastArgs != Some(args)
  }

  /** The report is a function of the two argument lists. */
  lemma ChangeReportUnique(lastArgs: Option<seq<Ref>>, args: seq<Ref>, r1: bool, c1: int, r2: bool, c2: int)
    requires IsChangeReport(lastArgs, args, r1, c1) && IsChangeReport(lastArgs, args, r2, c2)
    ensures r1 == r2 && c1 == c2
    ensures r1 == Changed(lastArgs, args)
  {
  }

  /** The comparison loop of the tracking closure (the `for` with `break`). */
  method DetectChange(lastArgs: Option<seq<Ref>>, args: seq<Ref>) returns (recomputation: bool, changedIndex: int)
    ensures IsChangeReport(lastArgs, args, recomputation, changedIndex)
    ensures recomputation == Changed(lastArgs, args)
  {
    recomputation := false;
    changedIndex := -1;
    if lastArgs.None? || |lastArgs.value| != |args| {
      recomputation := true;
    } else {
      var last := lastArgs.value;
      var i := 0;
      while i < |args|
        invariant 0 <= i <= |args|
        invariant !recomputation && changedIndex == -1
        invariant forall j :: 0 <= j < i ==> args[j] == last[j]
      {
        if args[i] != last[i] {
          recomputation := true;
          changedIndex := i;
          break;
        }
        i := i + 1;
      }
      if !recomputation {
        assert args == last;
      }
    }
  }

  /** One selector made by `createSelector`: its name, the shared settings,
      the base memoizer, and the closure's `lastArgs`. */
  class TrackedSelector {
    const name: string
    const config: Config.PerfConfig
    const cache: LruCache
    var lastArgs: Option<seq<Ref>>

    /** The tracker's stored inputs are the base memoizer's key. */
    ghost predicate Synced()
      reads this, cache
    {
      lastArgs == cache.LastArgs()
    }

    constructor (name: string, config: Config.PerfConfig, combine: seq<Ref> -> Ref)
      ensures this.name == name && this.config == config && cache.combine == combine
      ensures fresh(cache) && cache.Valid() && cache.recomputations == 0
      ensures lastArgs == None && Synced()
    {
      this.name := name;
      this.config := config;
      cache := new LruCache(combine);
      lastArgs := None;
    }

    /** A call of the selector whose input selectors produced `args`, when
        the base memoizer takes `duration` and `Date.now()` reads
        `timestamp`. Returns the memoized value, the event it emits (only on
        a detected recomputation while tracking is on) and whether it warns
        of a slow selector. */
    method Call(args: seq<Ref>, duration: nat, timestamp: int)
      returns (result: Ref, event: Option<Payload>, slowWarning: bool)
      requires cache.Valid()
      modifies this, cache
      ensures cache.Valid()
      // The value is always the base memoizer's, which is the combiner's value.
      ensures result == cache.combine(args) && cache.entry == Some(CacheEntry(args, result))
      ensures old(cache.LastArgs()) == Some(args) ==> result == old(cache.entry).value.value
      // Tracking off: nothing but the base memoizer.
      ensures !config.selectorTrackingEnabled ==>
        event == None && !slowWarning && lastArgs == old(lastArgs)
      // Tracking on: one event per detected recomputation, none on a hit.
      ensures config.selectorTrackingEnabled ==>
        && (event.Some? <==> Changed(old(lastArgs), args))
        && lastArgs == (if Changed(old(lastArgs), args) then Some(args) else old(lastArgs))
        && (event.Some? ==>
              && event.value.SelectorPayload?
              && event.value == SelectorPayload(name, duration, true, event.value.changedIndex, timestamp)
              && IsChangeReport(old(lastArgs), args, true, event.value.changedIndex)
              && Conforms(SelectorTopic, event.value))
        && (slowWarning <==> event.Some? && duration > config.slowSelectorThreshold)
      // While the tracker and the base memoizer agree, an event is emitted
      // exactly when the combiner actually ran.
      ensures config.selectorTrackingEnabled && old(Synced()) ==>
        Synced() && (event.Some? <==> cache.recomputations == old(cache.recomputations) + 1)
      // The base memoizer recomputes exactly on a cache miss.
      ensures cache.recomputations
              == old(cache.recomputations) + (if old(cache.LastArgs()) == Some(args) then 0 else 1)
    {
      if !config.selectorTrackingEnabled {
        result := cache.Call(args);
        event := None;
        slowWarning := false;
        return;
      }
      var recomputation, changedIndex := DetectChange(lastArgs, args);
      if recomputation {
        lastArgs := Some(args);
      }
      result := cache.Call(args);
      event := None;
      slowWarning := false;
      if recomputation {
        slowWarning := duration > config.slowSelectorThreshold;
        event := Some(SelectorPayload(name, duration, true, changedIndex, timestamp));
      }
    }
  }

  /** The module-level state of selectors.ts: `anonymousSelectorCounter`,
      and the shared settings every selector reads. */
  class SelectorFactory {
    var anonymousSelectorCounter: nat
    const config: Config.PerfConfig

    constructor (config: Config.PerfConfig)
      ensures anonymousSelectorCounter == 0 && this.config == config
    {
      anonymousSelectorCounter := 0;
      this.config := config;
    }

    /** `createSelector(...args)`. reselect refuses a combiner that is not a
        function; the model returns `null` then. */
    method CreateSelector(args: seq<Arg>) returns (selector: TrackedSelector?)
      modifies this
      ensures anonymousSelectorCounter == ResolveName(args, old(anonymousSelectorCounter)).counter
      ensures var split := SplitArguments(args);
        (selector != null <==> split.combiner.Some? && split.combiner.value.FunctionArg?)
      ensures selector != null ==>
        && fresh(selector) && fresh(selector.cache)
        && selector.name == ResolveName(args, old(anonymousSelectorCounter)).name
        && selector.config == config
        && selector.cache.combine == SplitArguments(args).combiner.value.combine
        && selector.lastArgs == None && selector.cache.Valid()
        && selector.cache.recomputations == 0 && selector.Synced()
    {
      var naming := ResolveName(args, anonymousSelectorCounter);
      anonymousSelectorCounter := naming.counter;
      var split := SplitArguments(args);
      if split.combiner.Some? && split.combiner.value.FunctionArg? {
        selector := new TrackedSelector(naming.name, config, split.combiner.value.combine);
      } else {
        selector := null;
      }
    }

    /** `createPerfSelector(name, ...args)`, with the name forwarded as the
        options' `name` (the corrected forwarding). */
    method CreatePerfSelector(name: string, args: seq<Arg>) returns (selector: TrackedSelector?)
      modifies this
      ensures anonymousSelectorCounter == old(anonymousSelectorCounter)
      ensures selector != null <==> |args| > 0 && args[|args| - 1].FunctionArg?
      ensures selector != null ==>
        && fresh(selector) && selector.config == config
        && selector.name == (if name != "" then name else AnonymousSelector)
        && selector.cache.combine == args[|args| - 1].combine
        && selector.lastArgs == None && selector.cache.Valid()
        && selector.cache.recomputations == 0 && selector.Synced()
    {
      var full := PerfSelectorArgs(name, args);
      assert full[..|full| - 1] == args;
      selector := CreateSelector(full);
    }
  }
}
