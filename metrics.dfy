/** The running statistics of packages/core/src/analytics.ts: one `Metric`
    per key, the per-namespace tables in insertion order (the order
    `Object.entries` yields string keys in), and the ranking `getTop10`. */
module Metrics {
  import opened Wrappers

  /** `minDuration`, which starts at `Infinity`. */
  datatype Bound = Finite(value: nat) | Infinity

  datatype Metric = Metric(count: nat, totalDuration: nat, maxDuration: nat, minDuration: Bound)

  /** `{ count: 0, totalDuration: 0, maxDuration: 0, minDuration: Infinity }`. */
  const FreshMetric: Metric := Metric(0, 0, 0, Infinity)

  function Max(a: nat, b: nat): nat { if a >= b then a else b }
  function Min(a: nat, b: nat): nat { if a <= b then a else b }

  /** `Math.min(m.minDuration, d)`, with `Infinity` above every duration. */
  function MinWith(b: Bound, d: nat): Bound {
    match b
    case Infinity => Finite(d)
    case Finite(v) => Finite(Min(v, d))
  }

  /** One sample of duration `d`: `count++`, `totalDuration += d`, and the
      max and min updated by comparison. */
  function AddSample(m: Metric, d: nat): (r: Metric)
    ensures r.count == m.count + 1 && r.totalDuration == m.totalDuration + d
    ensures d <= r.maxDuration && m.maxDuration <= r.maxDuration
    ensures r.maxDuration == d || r.maxDuration == m.maxDuration
    ensures r.minDuration.Finite? && r.minDuration.value <= d
    ensures m.minDuration.Finite? ==> r.minDuration.value <= m.minDuration.value
    ensures r.minDuration.value == d || r.minDuration == m.minDuration
  {
    Metric(m.count + 1, m.totalDuration + d, Max(m.maxDuration, d), MinWith(m.minDuration, d))
  }

  /** The metric of a sequence of samples, fed one by one from a fresh metric. */
  function Accumulate(ds: seq<nat>): (r: Metric)
    ensures r.count == |ds|
    ensures ds != [] ==> r.minDuration.Finite?
    decreases |ds|
  {
    if ds == [] then FreshMetric else AddSample(Accumulate(ds[..|ds| - 1]), ds[|ds| - 1])
  }

  function Sum(ds: seq<nat>): nat
    decreases |ds|
  {
    if ds == [] then 0 else ds[0] + Sum(ds[1..])
  }

  /** The largest sample, 0 when there is none. */
  function MaxOf(ds: seq<nat>): nat
    decreases |ds|
  {
    if ds == [] then 0 else Max(ds[0], MaxOf(ds[1..]))
  }

  /** The smallest sample, `Infinity` when there is none. */
  function MinOf(ds: seq<nat>): Bound
    decreases |ds|
  {
    if ds == [] then Infinity else MinWith(MinOf(ds[1..]), ds[0])
  }

  lemma {:induction false} SumSnoc(ds: seq<nat>, d: nat)
    ensures Sum(ds + [d]) == Sum(ds) + d
    decreases |ds|
  {
    if ds == [] {
      assert ds + [d] == [d];
    } else {
      assert (ds + [d])[1..] == ds[1..] + [d];
      SumSnoc(ds[1..], d);
    }
  }

  lemma {:induction false} MaxOfSnoc(ds: seq<nat>, d: nat)
    ensures MaxOf(ds + [d]) == Max(MaxOf(ds), d)
    decreases |ds|
  {
    if ds == [] {
      assert ds + [d] == [d];
    } else {
      assert (ds + [d])[1..] == ds[1..] + [d];
      MaxOfSnoc(ds[1..], d);
    }
  }

  lemma {:induction false} MinOfSnoc(ds: seq<nat>, d: nat)
    ensures MinOf(ds + [d]) == MinWith(MinOf(ds), d)
    decreases |ds|
  {
    if ds == [] {
      assert ds + [d] == [d];
    } else {
      assert (ds + [d])[1..] == ds[1..] + [d];
      MinOfSnoc(ds[1..], d);
    }
  }

  /** The running statistics are exact: after any sequence of samples, the
      count is their number, the total their sum, the max their largest
      (0 for none) and the min their smallest (`Infinity` for none). */
  lemma {:induction false} AccumulateExact(ds: seq<nat>)
    ensures Accumulate(ds) == Metric(|ds|, Sum(ds), MaxOf(ds), MinOf(ds))
    decreases |ds|
  {
    if ds != [] {
      var init := ds[..|ds| - 1];
      var d := ds[|ds| - 1];
      assert ds == init + [d];
      AccumulateExact(init);
      SumSnoc(init, d);
      MaxOfSnoc(init, d);
      MinOfSnoc(init, d);
    }
  }

  /** The shape every metric of the aggregator keeps: the min is `Infinity`
      exactly when nothing was counted, a fresh metric has zero total and
      max, and otherwise min <= max <= total and the average
      total / count lies between min and max. */
  ghost predicate WellFormed(m: Metric) {
    && (m.count == 0 <==> m.minDuration.Infinity?)
    && (m.count == 0 ==> m.totalDuration == 0 && m.maxDuration == 0)
    && (m.count > 0 ==>
          && m.minDuration.value <= m.maxDuration <= m.totalDuration
          && m.count * m.minDuration.value <= m.totalDuration <= m.count * m.maxDuration)
  }

  lemma AddSampleWellFormed(m: Metric, d: nat)
    requires WellFormed(m)
    ensures WellFormed(AddSample(m, d))
  {
    if m.count > 0 {
      AddSampleLowerBound(m.count, m.totalDuration, m.minDuration.value, d);
      AddSampleUpperBound(m.count, m.totalDuration, m.maxDuration, d);
    }
  }

  /** The lower half of the average bound survives one more sample. */
  lemma AddSampleLowerBound(c: nat, total: nat, lo: nat, d: nat)
    requires c * lo <= total
    ensures (c + 1) * Min(lo, d) <= total + d
  {
    MulMonotone(c, Min(lo, d), lo);
    MulSucc(c, Min(lo, d));
  }

  /** The upper half of the average bound survives one more sample. */
  lemma AddSampleUpperBound(c: nat, total: nat, hi: nat, d: nat)
    requires total <= c * hi
    ensures total + d <= (c + 1) * Max(hi, d)
  {
    MulMonotone(c, hi, Max(hi, d));
    MulSucc(c, Max(hi, d));
  }

  lemma MulSucc(c: nat, a: nat)
    ensures (c + 1) * a == c * a + a
  {
  }

  lemma MulMonotone(c: nat, a: nat, b: nat)
    requires a <= b
    ensures c * a <= c * b
  {
  }

  /** A table row ("name → metric"). */
  datatype Entry = Entry(name: string, metric: Metric)

  /** A `Record<string, Metric>`, as its entries in insertion order. */
  type Table = seq<Entry>

  function Names(t: Table): seq<string>
    decreases |t|
  {
    if t == [] then [] else [t[0].name] + Names(t[1..])
  }

  predicate UniqueNames(t: Table) {
    forall i, j :: 0 <= i < j < |t| ==> t[i].name != t[j].name
  }

  /** `metrics[name]`, `None` when the key is absent. */
  function Get(t: Table, name: string): Option<Metric>
    decreases |t|
  {
    if t == [] then None else if t[0].name == name then Some(t[0].metric) else Get(t[1..], name)
  }

  lemma {:induction false} GetInNames(t: Table, name: string)
    ensures Get(t, name).Some? <==> name in Names(t)
    decreases |t|
  {
    if t != [] {
      GetInNames(t[1..], name);
    }
  }

  /** One handled event for key `name` with duration `d`: the key's metric
      is created fresh at the end of the table if missing, then updated in
      place. */
  function Record(t: Table, name: string, d: nat): (r: Table)
    ensures Get(r, name) == Some(AddSample(Get(t, name).GetOr(FreshMetric), d))
    ensures forall n :: n != name ==> Get(r, n) == Get(t, n)
    ensures Names(r) == if Get(t, name).Some? then Names(t) else Names(t) + [name]
    decreases |t|
  {
    if t == [] then [Entry(name, AddSample(FreshMetric, d))]
    else if t[0].name == name then [Entry(name, AddSample(t[0].metric, d))] + t[1..]
    else [t[0]] + Record(t[1..], name, d)
  }

  lemma {:induction false} NamesAt(t: Table)
    ensures |Names(t)| == |t| && forall i :: 0 <= i < |t| ==> Names(t)[i] == t[i].name
    decreases |t|
  {
    if t != [] {
      NamesAt(t[1..]);
    }
  }

  /** Recording keeps the keys unique. */
  lemma RecordUnique(t: Table, name: string, d: nat)
    requires UniqueNames(t)
    ensures UniqueNames(Record(t, name, d))
  {
    var r := Record(t, name, d);
    NamesAt(t);
    NamesAt(r);
    GetInNames(t, name);
    forall i, j | 0 <= i < j < |r| ensures r[i].name != r[j].name {
      assert Names(r)[i] == r[i].name && Names(r)[j] == r[j].name;
    }
  }

  /** Every metric reachable in a table is well formed. */
  ghost predicate TableWellFormed(t: Table) {
    forall i :: 0 <= i < |t| ==> WellFormed(t[i].metric)
  }

  lemma {:induction false} RecordWellFormed(t: Table, name: string, d: nat)
    requires TableWellFormed(t)
    ensures TableWellFormed(Record(t, name, d))
    decreases |t|
  {
    AddSampleWellFormed(FreshMetric, d);
    if t != [] {
      AddSampleWellFormed(t[0].metric, d);
      RecordWellFormed(t[1..], name, d);
    }
  }

  // ---------------------------------------------------------------------
  // getTop10

  /** The field `getTop10` sorts by. */
  datatype SortKey = ByCount | ByMaxDuration | ByTotalDuration

  /** A row of the summary table: name, count, max and total (the formatted
      average is presentation only). */
  datatype Row = Row(name: string, count: nat, max: nat, total: nat)

  function ToRow(e: Entry): Row {
    Row(e.name, e.metric.count, e.metric.maxDuration, e.metric.totalDuration)
  }

  /** `Object.entries(metrics).map(...)`. */
  function Rows(t: Table): (r: seq<Row>)
    ensures |r| == |t| && forall i :: 0 <= i < |t| ==> r[i] == ToRow(t[i])
    decreases |t|
  {
    if t == [] then [] else [ToRow(t[0])] + Rows(t[1..])
  }

  function KeyOf(r: Row, sortBy: SortKey): nat {
    match sortBy
    case ByCount => r.count
    case ByMaxDuration => r.max
    case ByTotalDuration => r.total
  }

  predicate SortedDesc(s: seq<Row>, sortBy: SortKey) {
    forall i, j :: 0 <= i < j < |s| ==> KeyOf(s[i], sortBy) >= KeyOf(s[j], sortBy)
  }

  /** The rows of `s` whose sort key is `k`, in their order in `s`. */
  function WithKey(s: seq<Row>, sortBy: SortKey, k: nat): seq<Row>
    decreases |s|
  {
    if s == [] then [] else (if KeyOf(s[0], sortBy) == k then [s[0]] else []) + WithKey(s[1..], sortBy, k)
  }

  lemma {:induction false} WithKeyAppend(a: seq<Row>, b: seq<Row>, sortBy: SortKey, k: nat)
    ensures WithKey(a + b, sortBy, k) == WithKey(a, sortBy, k) + WithKey(b, sortBy, k)
    decreases |a|
  {
    if a == [] {
      assert a + b == b;
    } else {
      var ab := a + b;
      assert ab[0] == a[0] && ab[1..] == a[1..] + b;
      WithKeyAppend(a[1..], b, sortBy, k);
      var head := if KeyOf(a[0], sortBy) == k then [a[0]] else [];
      assert WithKey(ab, sortBy, k) == head + WithKey(a[1..] + b, sortBy, k);
      assert WithKey(a, sortBy, k) == head + WithKey(a[1..], sortBy, k);
    }
  }

  lemma {:induction false} WithKeyNone(s: seq<Row>, sortBy: SortKey, k: nat)
    requires forall i :: 0 <= i < |s| ==> KeyOf(s[i], sortBy) < k
    ensures WithKey(s, sortBy, k) == []
    decreases |s|
  {
    if s != [] {
      WithKeyNone(s[1..], sortBy, k);
    }
  }

  /** Inserting `x` into a sorted list: after every row whose key is at
      least `x`'s, which is what makes the sort stable. */
  function Insert(x: Row, l: seq<Row>, sortBy: SortKey): (r: seq<Row>)
    ensures |r| == |l| + 1
    decreases |l|
  {
    if l == [] || KeyOf(l[0], sortBy) < KeyOf(x, sortBy) then [x] + l
    else [l[0]] + Insert(x, l[1..], sortBy)
  }

  /** Every key of `Insert(x, l)` is bounded by a bound of `x` and of `l`. */
  lemma {:induction false} InsertBounded(x: Row, l: seq<Row>, sortBy: SortKey, b: nat)
    requires KeyOf(x, sortBy) <= b
    requires forall i :: 0 <= i < |l| ==> KeyOf(l[i], sortBy) <= b
    ensures forall i :: 0 <= i < |Insert(x, l, sortBy)| ==> KeyOf(Insert(x, l, sortBy)[i], sortBy) <= b
    decreases |l|
  {
    if !(l == [] || KeyOf(l[0], sortBy) < KeyOf(x, sortBy)) {
      InsertBounded(x, l[1..], sortBy, b);
    }
  }

  lemma {:induction false} InsertSorted(x: Row, l: seq<Row>, sortBy: SortKey)
    requires SortedDesc(l, sortBy)
    ensures SortedDesc(Insert(x, l, sortBy), sortBy)
    decreases |l|
  {
    if !(l == [] || KeyOf(l[0], sortBy) < KeyOf(x, sortBy)) {
      InsertSorted(x, l[1..], sortBy);
      InsertBounded(x, l[1..], sortBy, KeyOf(l[0], sortBy));
    }
  }

  lemma {:induction false} InsertMultiset(x: Row, l: seq<Row>, sortBy: SortKey)
    ensures multiset(Insert(x, l, sortBy)) == multiset(l) + multiset{x}
    decreases |l|
  {
    if !(l == [] || KeyOf(l[0], sortBy) < KeyOf(x, sortBy)) {
      InsertMultiset(x, l[1..], sortBy);
      assert l == [l[0]] + l[1..];
    }
  }

  lemma WithKeyCons(x: Row, l: seq<Row>, sortBy: SortKey, k: nat)
    ensures WithKey([x] + l, sortBy, k) == (if KeyOf(x, sortBy) == k then [x] else []) + WithKey(l, sortBy, k)
  {
    assert ([x] + l)[0] == x && ([x] + l)[1..] == l;
  }

  lemma SortedTail(l: seq<Row>, sortBy: SortKey)
    requires l != [] && SortedDesc(l, sortBy)
    ensures SortedDesc(l[1..], sortBy)
    ensures forall i :: 0 <= i < |l| ==> KeyOf(l[i], sortBy) <= KeyOf(l[0], sortBy)
  {
    forall i, j | 0 <= i < j < |l[1..]| ensures KeyOf(l[1..][i], sortBy) >= KeyOf(l[1..][j], sortBy) {
      assert l[1..][i] == l[i + 1] && l[1..][j] == l[j + 1];
    }
  }

  /** Inserting keeps, for every key, the rows with that key in order, with
      `x` after the ones already there. */
  lemma {:induction false} InsertWithKey(x: Row, l: seq<Row>, sortBy: SortKey, k: nat)
    requires SortedDesc(l, sortBy)
    ensures WithKey(Insert(x, l, sortBy), sortBy, k)
            == WithKey(l, sortBy, k) + (if KeyOf(x, sortBy) == k then [x] else [])
    decreases |l|
  {
    if l == [] || KeyOf(l[0], sortBy) < KeyOf(x, sortBy) {
      InsertWithKeyFront(x, l, sortBy, k);
    } else {
      SortedTail(l, sortBy);
      InsertWithKey(x, l[1..], sortBy, k);
      assert Insert(x, l, sortBy) == [l[0]] + Insert(x, l[1..], sortBy);
      WithKeyCons(l[0], Insert(x, l[1..], sortBy), sortBy, k);
      WithKeyCons(l[0], l[1..], sortBy, k);
      assert l == [l[0]] + l[1..];
    }
  }

  /** The case where `x` goes in front: every row of `l` has a smaller key. */
  lemma InsertWithKeyFront(x: Row, l: seq<Row>, sortBy: SortKey, k: nat)
    requires SortedDesc(l, sortBy)
    requires l == [] || KeyOf(l[0], sortBy) < KeyOf(x, sortBy)
    ensures WithKey(Insert(x, l, sortBy), sortBy, k)
            == WithKey(l, sortBy, k) + (if KeyOf(x, sortBy) == k then [x] else [])
  {
    assert Insert(x, l, sortBy) == [x] + l;
    WithKeyCons(x, l, sortBy, k);
    if KeyOf(x, sortBy) == k {
      if l != [] {
        SortedTail(l, sortBy);
      }
      WithKeyNone(l, sortBy, k);
    }
  }

  /** A stable sort in non-increasing order of the key, one row at a time in
      table order, as `Array.prototype.sort` with `(a, b) => b.x - a.x`
      does it. */
  function StableSort(s: seq<Row>, sortBy: SortKey): (r: seq<Row>)
    ensures |r| == |s|
    decreases |s|
  {
    if s == [] then [] else Insert(s[|s| - 1], StableSort(s[..|s| - 1], sortBy), sortBy)
  }

  /** The sort orders by the key. */
  lemma {:induction false} StableSortSorted(s: seq<Row>, sortBy: SortKey)
    ensures SortedDesc(StableSort(s, sortBy), sortBy)
    decreases |s|
  {
    if s != [] {
      StableSortSorted(s[..|s| - 1], sortBy);
      InsertSorted(s[|s| - 1], StableSort(s[..|s| - 1], sortBy), sortBy);
    }
  }

  /** The sort is a permutation. */
  lemma {:induction false} StableSortPermutes(s: seq<Row>, sortBy: SortKey)
    ensures multiset(StableSort(s, sortBy)) == multiset(s)
    ensures |StableSort(s, sortBy)| == |s|
    decreases |s|
  {
    if s != [] {
      var init := s[..|s| - 1];
      assert s == init + [s[|s| - 1]];
      StableSortPermutes(init, sortBy);
      InsertMultiset(s[|s| - 1], StableSort(init, sortBy), sortBy);
      assert |multiset(StableSort(s, sortBy))| == |multiset(s)|;
    }
  }

  /** The sort is stable: the rows sharing a key keep their table order. */
  lemma {:induction false} StableSortStable(s: seq<Row>, sortBy: SortKey, k: nat)
    ensures WithKey(StableSort(s, sortBy), sortBy, k) == WithKey(s, sortBy, k)
    decreases |s|
  {
    if s != [] {
      var init := s[..|s| - 1];
      var x := s[|s| - 1];
      assert s == init + [x];
      StableSortStable(init, sortBy, k);
      StableSortSorted(init, sortBy);
      InsertWithKey(x, StableSort(init, sortBy), sortBy, k);
      WithKeyAppend(init, [x], sortBy, k);
    }
  }

  /** `getTop10(metrics, sortBy)`: sort, then keep the first ten. */
  function Top10(t: Table, sortBy: SortKey): (r: seq<Row>)
    ensures |r| == Min(10, |t|)
  {
    var sorted := StableSort(Rows(t), sortBy);
    sorted[..Min(10, |sorted|)]
  }

  predicate IsPrefix(a: seq<Row>, b: seq<Row>) {
    |a| <= |b| && b[..|a|] == a
  }

  /** `getTop10` returns `min(10, #keys)` rows, each a row of the table,
      in non-increasing key order. */
  lemma Top10Sorted(t: Table, sortBy: SortKey)
    ensures |Top10(t, sortBy)| == Min(10, |t|)
    ensures SortedDesc(Top10(t, sortBy), sortBy)
    ensures forall x :: x in Top10(t, sortBy) ==> x in Rows(t)
  {
    var sorted := StableSort(Rows(t), sortBy);
    var n := Min(10, |sorted|);
    StableSortSorted(Rows(t), sortBy);
    StableSortPermutes(Rows(t), sortBy);
    assert Top10(t, sortBy) == sorted[..n];
    PrefixOfSorted(sorted, n, sortBy);
    SameMembers(sorted, Rows(t));
  }

  lemma PrefixOfSorted(s: seq<Row>, n: nat, sortBy: SortKey)
    requires SortedDesc(s, sortBy) && n <= |s|
    ensures SortedDesc(s[..n], sortBy)
    ensures forall x :: x in s[..n] ==> x in s
  {
  }

  lemma SameMembers(a: seq<Row>, b: seq<Row>)
    requires multiset(a) == multiset(b)
    ensures forall x :: x in a ==> x in b
  {
    forall x | x in a ensures x in b {
      assert x in multiset(a);
    }
  }

  /** No row left out of `getTop10` ranks above a row it shows. */
  lemma Top10Maximal(t: Table, sortBy: SortKey, x: Row, y: Row)
    requires x in Rows(t) && x !in Top10(t, sortBy) && y in Top10(t, sortBy)
    ensures KeyOf(y, sortBy) >= KeyOf(x, sortBy)
  {
    var sorted := StableSort(Rows(t), sortBy);
    StableSortSorted(Rows(t), sortBy);
    StableSortPermutes(Rows(t), sortBy);
    assert x in multiset(sorted);
    PrefixMaximal(sorted, Min(10, |sorted|), sortBy, x, y);
  }

  /** In a sorted sequence, a row outside a prefix ranks no higher than one inside. */
  lemma PrefixMaximal(sorted: seq<Row>, n: nat, sortBy: SortKey, x: Row, y: Row)
    requires SortedDesc(sorted, sortBy) && n <= |sorted|
    requires x in sorted && x !in sorted[..n] && y in sorted[..n]
    ensures KeyOf(y, sortBy) >= KeyOf(x, sortBy)
  {
    var p :| 0 <= p < |sorted| && sorted[p] == x;
    var q :| 0 <= q < n && sorted[..n][q] == y;
    assert forall i :: 0 <= i < n ==> sorted[..n][i] == sorted[i];
    assert p >= n;
    assert sorted[q] == y;
  }

  /** The rows with a key among a prefix are a prefix of those among the whole. */
  lemma WithKeyOfPrefix(s: seq<Row>, n: nat, sortBy: SortKey, k: nat)
    requires n <= |s|
    ensures IsPrefix(WithKey(s[..n], sortBy, k), WithKey(s, sortBy, k))
  {
    assert s == s[..n] + s[n..];
    WithKeyAppend(s[..n], s[n..], sortBy, k);
  }

  /** Among rows with equal keys, those `getTop10` shows are the
      earliest-inserted ones, in insertion order. */
  lemma Top10TiesInInsertionOrder(t: Table, sortBy: SortKey, k: nat)
    ensures IsPrefix(WithKey(Top10(t, sortBy), sortBy, k), WithKey(Rows(t), sortBy, k))
  {
    var sorted := StableSort(Rows(t), sortBy);
    var n := Min(10, |sorted|);
    assert Top10(t, sortBy) == sorted[..n];
    WithKeyOfPrefix(sorted, n, sortBy, k);
    StableSortStable(Rows(t), sortBy, k);
  }

  /** The latest store size, as `logSummary` reports it. */
  function LatestSize(sizes: seq<nat>): (r: Option<nat>)
    ensures r.Some? <==> |sizes| > 0
    ensures r.Some? ==> r.value == sizes[|sizes| - 1]
  {
    if |sizes| == 0 then None else Some(sizes[|sizes| - 1])
  }
}
