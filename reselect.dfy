/** The base memoizer `lruMemoize` of the reselect library as the core uses
    it: default options, so a cache of size one keyed by the argument list
    under reference equality. This module is the model's ASSUMPTION about
    that library code, not a verification of it. References are natural
    numbers; `===` on references is `==`. */
module Reselect {
  import opened Wrappers

  type Ref = nat

  datatype CacheEntry = CacheEntry(args: seq<Ref>, value: Ref)

  /** The memoized function returned by `lruMemoize(func)`. */
  class LruCache {
    /** The wrapped function; pure, so a function of its arguments. */
    const combine: seq<Ref> -> Ref
    var entry: Option<CacheEntry>
    /** How many times `combine` has run. */
    var recomputations: nat

    /** The cached value is the value `combine` gives for the cached arguments. */
    ghost predicate Valid()
      reads this
    {
      entry.Some? ==> entry.value.value == combine(entry.value.args)
    }

    /** The argument list the cache is keyed by, `None` before the first call. */
    function LastArgs(): Option<seq<Ref>>
      reads this
    {
      if entry.Some? then Some(entry.value.args) else None
    }

    constructor (combine: seq<Ref> -> Ref)
      ensures this.combine == combine && entry == None && recomputations == 0 && Valid()
    {
      this.combine := combine;
      entry := None;
      recomputations := 0;
    }

    /** A call with argument list `args`: a hit when the arguments equal
        the cached ones element by element (same length, every element
        `===`), and then the cached value comes back and `combine` does
        not run; otherwise `combine` runs and its value replaces the entry. */
    method Call(args: seq<Ref>) returns (value: Ref)
      requires Valid()
      modifies this
      ensures Valid()
      ensures value == combine(args)
      ensures entry == Some(CacheEntry(args, value))
      ensures old(LastArgs()) == Some(args) ==>
        value == old(entry).value.value && recomputations == old(recomputations)
      ensures old(LastArgs()) != Some(args) ==> recomputations == old(recomputations) + 1
    {
      if entry.Some? && entry.value.args == args {
        value := entry.value.value;
      } else {
        value := combine(args);
        entry := Some(CacheEntry(args, value));
        recomputations := recomputations + 1;
      }
    }
  }
}
