/**
 * The metric instruments of the client library, reduced to what the exporter
 * relies on: a counter is a map from label-value list to a count, a histogram
 * a map from label-value list to a count, a sum and cumulative bucket counts.
 * An instrument without labels has the single series keyed by the empty list,
 * present (at zero) from construction; a labelled instrument creates a series
 * on the first use of its label values.
 */
module Instruments {

  /** A bucket upper bound: a number of milliseconds (or queue slots) or +Inf. */
  datatype Bound = Finite(n: int) | Inf

  /** An observation `v` falls at or below the bound `b` (the `le` of a bucket). */
  predicate Within(v: int, b: Bound) {
    b.Inf? || v <= b.n
  }

  predicate BoundLe(a: Bound, b: Bound) {
    b.Inf? || (a.Finite? && a.n <= b.n)
  }

  predicate BoundLt(a: Bound, b: Bound) {
    a.Finite? && (b.Inf? || a.n < b.n)
  }

  /**
   * A ladder the client library accepts, as it holds it after its own checks:
   * sorted, ending in +Inf, and at least two buckets long.
   */
  ghost predicate AcceptedLadder(bounds: seq<Bound>) {
    && |bounds| >= 2
    && bounds[|bounds| - 1] == Inf
    && forall i, j :: 0 <= i < j < |bounds| ==> BoundLe(bounds[i], bounds[j])
  }

  /** Strictly increasing, with +Inf last and only last, and at least two buckets. */
  ghost predicate StrictLadder(bounds: seq<Bound>) {
    && |bounds| >= 2
    && bounds[|bounds| - 1] == Inf
    && forall i :: 0 <= i < |bounds| - 1 ==> BoundLt(bounds[i], bounds[i + 1])
  }

  lemma {:induction false} StrictIsAccepted(bounds: seq<Bound>)
    requires StrictLadder(bounds)
    ensures AcceptedLadder(bounds)
  {
    forall i, j | 0 <= i < j < |bounds| ensures BoundLe(bounds[i], bounds[j]) {
      StrictStep(bounds, i, j);
    }
  }

  lemma {:induction false} StrictStep(bounds: seq<Bound>, i: int, j: int)
    requires StrictLadder(bounds)
    requires 0 <= i < j < |bounds|
    ensures BoundLt(bounds[i], bounds[j])
    decreases j - i
  {
    if j > i + 1 {
      StrictStep(bounds, i + 1, j);
    }
  }

  // ---------------------------------------------------------------------
  // Series values and their transitions
  // ---------------------------------------------------------------------

  /** One histogram series: observation count, observation sum, cumulative buckets. */
  datatype Series = Series(count: nat, sum: int, cumulative: seq<nat>)

  function EmptySeries(bounds: seq<Bound>): (s: Series)
    ensures s.count == 0 && s.sum == 0 && |s.cumulative| == |bounds|
    ensures forall i :: 0 <= i < |bounds| ==> s.cumulative[i] == 0
  {
    Series(0, 0, seq(|bounds|, _ => 0))
  }

  /** Adds one observation `v` to each bucket whose bound it falls within. */
  function Bump(cumulative: seq<nat>, bounds: seq<Bound>, v: int): (r: seq<nat>)
    requires |cumulative| == |bounds|
    ensures |r| == |bounds|
    ensures forall i :: 0 <= i < |bounds| ==>
      r[i] == cumulative[i] + (if Within(v, bounds[i]) then 1 else 0)
  {
    if bounds == [] then []
    else [cumulative[0] + (if Within(v, bounds[0]) then 1 else 0)]
         + Bump(cumulative[1..], bounds[1..], v)
  }

  /** `Histogram.observe(v)` on one series. */
  function Record(s: Series, bounds: seq<Bound>, v: int): (r: Series)
    requires |s.cumulative| == |bounds|
    ensures r.count == s.count + 1 && r.sum == s.sum + v
    ensures |r.cumulative| == |bounds|
    ensures forall i :: 0 <= i < |bounds| ==>
      r.cumulative[i] == s.cumulative[i] + (if Within(v, bounds[i]) then 1 else 0)
  {
    Series(s.count + 1, s.sum + v, Bump(s.cumulative, bounds, v))
  }

  /**
   * What a series of a histogram over `bounds` always satisfies: one bucket
   * per bound, cumulative counts that never decrease along the ladder, and a
   * +Inf bucket that holds every observation.
   */
  ghost predicate SeriesValid(s: Series, bounds: seq<Bound>) {
    && |s.cumulative| == |bounds|
    && (forall i, j :: 0 <= i < j < |bounds| ==> s.cumulative[i] <= s.cumulative[j])
    && (|bounds| > 0 ==> s.cumulative[|bounds| - 1] == s.count)
  }

  lemma EmptySeriesValid(bounds: seq<Bound>)
    ensures SeriesValid(EmptySeries(bounds), bounds)
  {
  }

  /** Recording an observation keeps a series valid, whatever the value. */
  lemma RecordPreservesValid(s: Series, bounds: seq<Bound>, v: int)
    requires AcceptedLadder(bounds) && SeriesValid(s, bounds)
    ensures SeriesValid(Record(s, bounds, v), bounds)
  {
    var r := Record(s, bounds, v);
    forall i, j | 0 <= i < j < |bounds| ensures r.cumulative[i] <= r.cumulative[j] {
      assert BoundLe(bounds[i], bounds[j]);
    }
  }

  /** An arbitrarily large (or small) observation always lands in the +Inf bucket. */
  lemma RecordReachesLastBucket(s: Series, bounds: seq<Bound>, v: int)
    requires AcceptedLadder(bounds) && |s.cumulative| == |bounds|
    ensures Record(s, bounds, v).cumulative[|bounds| - 1] == s.cumulative[|bounds| - 1] + 1
  {
  }

  /** The count of a counter series; an absent series reads as zero. */
  function CountOf(series: map<seq<string>, nat>, key: seq<string>): nat {
    if key in series then series[key] else 0
  }

  /** `Counter.inc()` on the series `key`: that series rises by one, no other changes. */
  function Incremented(series: map<seq<string>, nat>, key: seq<string>): (r: map<seq<string>, nat>)
    ensures r.Keys == series.Keys + {key}
    ensures CountOf(r, key) == CountOf(series, key) + 1
    ensures forall k :: k in series && k != key ==> r[k] == series[k]
  {
    series[key := CountOf(series, key) + 1]
  }

  /** The series `key` of a histogram, an empty one when not yet created. */
  function SeriesOf(series: map<seq<string>, Series>, bounds: seq<Bound>, key: seq<string>): Series {
    if key in series then series[key] else EmptySeries(bounds)
  }

  ghost predicate AllSeriesValid(series: map<seq<string>, Series>, bounds: seq<Bound>) {
    forall k :: k in series ==> SeriesValid(series[k], bounds)
  }

  /** `Histogram.observe(v)` on the series `key`: that series records `v`, no other changes. */
  function Observed(series: map<seq<string>, Series>, bounds: seq<Bound>, key: seq<string>, v: int)
    : (r: map<seq<string>, Series>)
    requires forall k :: k in series ==> |series[k].cumulative| == |bounds|
    ensures r.Keys == series.Keys + {key}
    ensures key in r && r[key].count == SeriesOf(series, bounds, key).count + 1
    ensures r[key].sum == SeriesOf(series, bounds, key).sum + v
    ensures forall k :: k in series && k != key ==> r[k] == series[k]
  {
    series[key := Record(SeriesOf(series, bounds, key), bounds, v)]
  }

  /** After observing `v` on `key`, series `k` has one more observation (and `v` more) exactly when `k` is `key`. */
  lemma ObservedSeriesOf(series: map<seq<string>, Series>, bounds: seq<Bound>, key: seq<string>, v: int, k: seq<string>)
    requires forall k :: k in series ==> |series[k].cumulative| == |bounds|
    ensures SeriesOf(Observed(series, bounds, key, v), bounds, k).count ==
      SeriesOf(series, bounds, k).count + (if k == key then 1 else 0)
    ensures SeriesOf(Observed(series, bounds, key, v), bounds, k).sum ==
      SeriesOf(series, bounds, k).sum + (if k == key then v else 0)
  {
  }

  lemma ObservedPreservesValid(series: map<seq<string>, Series>, bounds: seq<Bound>, key: seq<string>, v: int)
    requires AcceptedLadder(bounds) && AllSeriesValid(series, bounds)
    ensures AllSeriesValid(Observed(series, bounds, key, v), bounds)
  {
    EmptySeriesValid(bounds);
    RecordPreservesValid(SeriesOf(series, bounds, key), bounds, v);
  }

  // ---------------------------------------------------------------------
  // The instruments as objects
  // ---------------------------------------------------------------------

  /** A counter (prometheus_client `Counter`) under one metric name. */
  class Counter {
    const name: string
    const labelnames: seq<string>
    var series: map<seq<string>, nat>

    ghost predicate Valid()
      reads this
    {
      forall k :: k in series ==> |k| == |labelnames|
    }

    constructor (name: string, labelnames: seq<string>)
      ensures Valid()
      ensures this.name == name && this.labelnames == labelnames
      ensures series == if labelnames == [] then map[[] := 0] else map[]
    {
      this.name := name;
      this.labelnames := labelnames;
      series := if labelnames == [] then map[[] := 0] else map[];
    }

    /** `inc()` on the series with the given label values. */
    method Inc(key: seq<string>)
      requires Valid() && |key| == |labelnames|
      modifies this
      ensures Valid()
      ensures series == Incremented(old(series), key)
    {
      series := series[key := CountOf(series, key) + 1];
    }
  }

  /** A histogram (prometheus_client `Histogram`) under one metric name. */
  class Histogram {
    const name: string
    const labelnames: seq<string>
    const bounds: seq<Bound>
    var series: map<seq<string>, Series>

    ghost predicate Valid()
      reads this
    {
      && AcceptedLadder(bounds)
      && (forall k :: k in series ==> |k| == |labelnames|)
      && AllSeriesValid(series, bounds)
    }

    constructor (name: string, labelnames: seq<string>, bounds: seq<Bound>)
      requires AcceptedLadder(bounds)
      ensures Valid()
      ensures this.name == name && this.labelnames == labelnames && this.bounds == bounds
      ensures series == if labelnames == [] then map[[] := EmptySeries(bounds)] else map[]
    {
      this.name := name;
      this.labelnames := labelnames;
      this.bounds := bounds;
      series := if labelnames == [] then map[[] := EmptySeries(bounds)] else map[];
      EmptySeriesValid(bounds);
    }

    /** `observe(v)` on the series with the given label values. */
    method Observe(key: seq<string>, v: int)
      requires Valid() && |key| == |labelnames|
      modifies this
      ensures Valid()
      ensures series == Observed(old(series), bounds, key, v)
    {
      ObservedPreservesValid(series, bounds, key, v);
      series := series[key := Record(SeriesOf(series, bounds, key), bounds, v)];
    }
  }
}
