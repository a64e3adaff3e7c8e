/**
 * The metric updaters: one per enabled metric, each reading named attributes
 * off a parsed line and updating its own instruments.
 *
 * `EffectOf` says, as a value, what an updater does to its instruments for a
 * line (or that it raises); `Step` applies that to a value-level snapshot of
 * the instruments; `Updater.Apply` does it to the instrument objects and is
 * proved to agree with `Step`.
 */
module Metrics {
  import opened Wrappers
  import opened HaproxyLine
  import opened Instruments

  const Namespace: string := "haproxy_log"

  /** The exposed name of an instrument built with `namespace=NAMESPACE`. */
  function FullName(name: string): string {
    Namespace + "_" + name
  }

  /** The five timers of TIMERS, each read from one timer attribute of the line. */
  datatype TimerName =
    | RequestWait                    // Tq
    | ServerTcpConnectionEstablish   // Tc
    | RequestQueued                  // Tw
    | ResponseProcessing             // Tr
    | SessionDuration                // Tt
  {
    function Name(): string {
      match this
      case RequestWait => "request_wait_milliseconds"
      case ServerTcpConnectionEstablish => "server_tcp_connection_establish_milliseconds"
      case RequestQueued => "request_queued_milliseconds"
      case ResponseProcessing => "response_processing_milliseconds"
      case SessionDuration => "session_duration_milliseconds"
    }

    /** The raw timer attribute the histogram observes. */
    function Attribute(line: LogLine): string {
      match this
      case RequestWait => line.timeWaitRequest
      case ServerTcpConnectionEstablish => line.timeConnectServer
      case RequestQueued => line.timeWaitQueues
      case ResponseProcessing => line.timeWaitResponse
      case SessionDuration => line.totalTime
    }

    /** The paired abort counter of TIMER_ABORT_COUNTERS; the session timer has none. */
    function AbortCounterName(): string
      requires this != SessionDuration
    {
      match this
      case RequestWait => "request_abort_total"
      case ServerTcpConnectionEstablish => "request_pre_server_connection_abort"
      case RequestQueued => "request_pre_queue_abort_total"
      case ResponseProcessing => "request_response_abort_total"
    }
  }

  /** TIMERS, in declaration order. */
  const Timers: seq<TimerName> :=
    [RequestWait, ServerTcpConnectionEstablish, RequestQueued, ResponseProcessing, SessionDuration]

  /** The nine metrics that can be enabled. */
  datatype MetricName =
    | RequestsTotal
    | BytesReadTotal
    | BackendQueueLength
    | ServerQueueLength
    | Timer(timer: TimerName)
  {
    function Name(): string {
      match this
      case RequestsTotal => "requests_total"
      case BytesReadTotal => "bytes_read_total"
      case BackendQueueLength => "backend_queue_length"
      case ServerQueueLength => "server_queue_length"
      case Timer(t) => t.Name()
    }

    predicate IsCounter() {
      this == RequestsTotal || this == BytesReadTotal
    }

    predicate IsQueue() {
      this == BackendQueueLength || this == ServerQueueLength
    }

    /** Histograms take a bucket ladder; the two counters do not. */
    predicate IsHistogram() {
      !IsCounter()
    }
  }

  /** DEFAULT_TIMER_BUCKETS: the client library's default ladder, in milliseconds. */
  const DefaultTimerBuckets: seq<Bound> :=
    [Finite(5), Finite(10), Finite(25),
     Finite(50), Finite(75), Finite(100), Finite(250),
     Finite(500), Finite(750), Finite(1000), Finite(2500),
     Finite(5000), Finite(7500), Finite(10000), Inf]

  /** `range(lo, hi)` as finite bounds. */
  function Range(lo: int, hi: int): (r: seq<Bound>)
    ensures |r| == if lo < hi then hi - lo else 0
    ensures forall i :: 0 <= i < |r| ==> r[i] == Finite(lo + i)
    decreases hi - lo
  {
    if lo < hi then [Finite(lo)] + Range(lo + 1, hi) else []
  }

  /** DEFAULT_QUEUE_LENGTH_BUCKETS: `range(0, 10)` chained with 20, 30, 40, 60, 100, +Inf. */
  const DefaultQueueLengthBuckets: seq<Bound> :=
    Range(0, 10) + [Finite(20), Finite(30), Finite(40), Finite(60), Finite(100), Inf]

  /** The queue ladder is exactly 0..9, 20, 30, 40, 60, 100, +Inf. */
  lemma QueueLadderExact()
    ensures DefaultQueueLengthBuckets ==
      [Finite(0), Finite(1), Finite(2), Finite(3), Finite(4),
       Finite(5), Finite(6), Finite(7), Finite(8), Finite(9),
       Finite(20), Finite(30), Finite(40), Finite(60), Finite(100), Inf]
  {
    var r := Range(0, 10);
    assert r == [Finite(0), Finite(1), Finite(2), Finite(3), Finite(4),
                 Finite(5), Finite(6), Finite(7), Finite(8), Finite(9)];
  }

  /** Both default ladders are strictly increasing and end in +Inf. */
  lemma DefaultLaddersStrict()
    ensures StrictLadder(DefaultTimerBuckets)
    ensures StrictLadder(DefaultQueueLengthBuckets)
    ensures AcceptedLadder(DefaultTimerBuckets) && AcceptedLadder(DefaultQueueLengthBuckets)
  {
    QueueLadderExact();
    StrictIsAccepted(DefaultTimerBuckets);
    StrictIsAccepted(DefaultQueueLengthBuckets);
  }

  // ---------------------------------------------------------------------
  // What an updater does with one line
  // ---------------------------------------------------------------------

  /** What one updater does to its instruments for one line. */
  datatype Effect =
    | Count(key: seq<string>)              // inc() on the counter's series
    | Abort(key: seq<string>)              // inc() on the timer's abort counter
    | Observe(key: seq<string>, value: int) // observe(value) on the histogram's series

  /** The Python `str` of the logasap flag, which is the label value. */
  function LogasapValue(flag: bool): string {
    if flag then "True" else "False"
  }

  // ---------------------------------------------------------------------
  // Label dictionaries
  // ---------------------------------------------------------------------

  /** No label name is configured twice. */
  predicate Distinct(labelnames: seq<LabelName>) {
    forall i, j :: 0 <= i < j < |labelnames| ==> labelnames[i] != labelnames[j]
  }

  /** The dict `{label: getattr(line, label) for label in labelnames}`: one entry per distinct name. */
  function LabelDict(labelnames: seq<LabelName>, line: LogLine): map<LabelName, string> {
    map l | l in labelnames :: LabelValue(line, l)
  }

  /**
   * `labels(d)` on an instrument declared with `labelnames`: the client
   * library accepts the dict when its keys, sorted, are the declared names
   * sorted, and then keys the series by the dict's values in declared order;
   * any other dict raises. (The session timer adds `logasap` to both sides.)
   */
  function LabelsOf(labelnames: seq<LabelName>, d: map<LabelName, string>): Option<seq<string>> {
    if multiset(d.Keys) == multiset(labelnames) then
      Some(seq(|labelnames|, i requires 0 <= i < |labelnames| =>
        assert labelnames[i] in multiset(d.Keys); d[labelnames[i]]))
    else None
  }

  lemma DistinctCons(a: LabelName, rest: seq<LabelName>)
    ensures Distinct([a] + rest) <==> a !in rest && Distinct(rest)
  {
    var ls := [a] + rest;
    if a in rest {
      var j :| 0 <= j < |rest| && rest[j] == a;
      assert ls[0] == ls[j + 1];
    }
    if Distinct(rest) && a !in rest {
      forall i, j | 0 <= i < j < |ls| ensures ls[i] != ls[j] {
        assert ls[j] == rest[j - 1];
      }
    }
    if Distinct(ls) {
      forall i, j | 0 <= i < j < |rest| ensures rest[i] != rest[j] {
        assert rest[i] == ls[i + 1] && rest[j] == ls[j + 1];
      }
    }
  }

  /** Adding the same element to both sides keeps multisets equal or unequal. */
  lemma MultisetCancel(a: LabelName, m: multiset<LabelName>, n: multiset<LabelName>)
    ensures multiset{a} + m == multiset{a} + n <==> m == n
  {
    if multiset{a} + m == multiset{a} + n {
      assert m == (multiset{a} + m) - multiset{a};
      assert n == (multiset{a} + n) - multiset{a};
    }
  }

  /** A sequence is repetition-free exactly when each element occurs once in its multiset. */
  lemma {:induction false} DistinctMultiset(labelnames: seq<LabelName>)
    ensures Distinct(labelnames) <==> multiset(set l | l in labelnames) == multiset(labelnames)
  {
    if labelnames != [] {
      var a, rest := labelnames[0], labelnames[1..];
      assert labelnames == [a] + rest;
      DistinctCons(a, rest);
      DistinctMultiset(rest);
      var all, tail := set l | l in labelnames, set l | l in rest;
      assert all == {a} + tail;
      assert multiset(labelnames) == multiset{a} + multiset(rest);
      if a in rest {
        assert multiset(all)[a] != multiset(labelnames)[a] by {
          assert all == tail;
          assert a in multiset(rest);
        }
      } else {
        assert multiset(all) == multiset{a} + multiset(tail);
        MultisetCancel(a, multiset(tail), multiset(rest));
      }
    }
  }

  /**
   * The dict an updater builds passes the client library's check exactly when
   * no label name repeats (a repeated name collapses to one dict entry), and
   * then yields the line's values in configured order.
   */
  lemma LabelsOfDict(labelnames: seq<LabelName>, line: LogLine)
    ensures LabelsOf(labelnames, LabelDict(labelnames, line)) ==
      if Distinct(labelnames) then Some(LabelValues(labelnames, line)) else None
  {
    var d := LabelDict(labelnames, line);
    assert d.Keys == set l | l in labelnames;
    DistinctMultiset(labelnames);
    if Distinct(labelnames) {
      var values := LabelsOf(labelnames, d).value;
      assert values == LabelValues(labelnames, line) by {
        forall i | 0 <= i < |labelnames| ensures values[i] == LabelValue(line, labelnames[i]) {
          assert labelnames[i] in d;
        }
      }
    }
  }

  /**
   * The effect of the updater built for metric `m` with `labelnames` on `line`;
   * `None` when the updater raises: a timer attribute that does not convert,
   * or a repeated label name, whose dict `labels()` rejects (`LabelsOfDict`).
   */
  function EffectOf(m: MetricName, labelnames: seq<LabelName>, line: LogLine): Option<Effect> {
    var key := LabelValues(labelnames, line);
    if !Distinct(labelnames) then None else
    match m
    case RequestsTotal => Some(Count(key))
    case BytesReadTotal => Some(Count(key))
    case BackendQueueLength => Some(Observe(key, line.queueBackend))
    case ServerQueueLength => Some(Observe(key, line.queueServer))
    case Timer(SessionDuration) =>
      var raw := line.totalTime;
      var logasap := |raw| > 0 && raw[0] == '+';
      var value := ParseMillis(if logasap then raw[1..] else raw);
      if value.None? then None
      else Some(Observe(key + [LogasapValue(logasap)], value.value))
    case Timer(t) =>
      var value := ParseMillis(t.Attribute(line));
      if value.None? then None
      else if value.value == -1 then Some(Abort(key))
      else Some(Observe(key, value.value))
  }

  /** How an updater is configured: its metric, its label names, its bucket ladder. */
  datatype UpdaterSpec = UpdaterSpec(metric: MetricName, labelnames: seq<LabelName>, bounds: seq<Bound>)

  function Names(labelnames: seq<LabelName>): (r: seq<string>)
    ensures |r| == |labelnames|
    ensures forall i :: 0 <= i < |labelnames| ==> r[i] == labelnames[i].Name()
  {
    if labelnames == [] then [] else [labelnames[0].Name()] + Names(labelnames[1..])
  }

  /** The label names of the updater's histogram: the session timer appends `logasap`. */
  function HistogramLabelNames(spec: UpdaterSpec): seq<string> {
    if spec.metric == Timer(SessionDuration) then Names(spec.labelnames) + ["logasap"]
    else Names(spec.labelnames)
  }

  /**
   * A value-level snapshot of an updater's instruments: the series of its
   * counter (the abort counter for a timer) and of its histogram. A map the
   * updater has no instrument for stays empty.
   */
  datatype UpdaterState = UpdaterState(counter: map<seq<string>, nat>, histogram: map<seq<string>, Series>)

  /** Every histogram series has one bucket per bound. */
  ghost predicate Fits(bounds: seq<Bound>, st: UpdaterState) {
    forall k :: k in st.histogram ==> |st.histogram[k].cumulative| == |bounds|
  }

  /** The instruments as freshly built: an unlabelled instrument already has its series. */
  function Initial(spec: UpdaterSpec): UpdaterState {
    var m := spec.metric;
    UpdaterState(
      if (m.IsCounter() || (m.Timer? && m != Timer(SessionDuration))) && spec.labelnames == []
      then map[[] := 0] else map[],
      if m.IsHistogram() && HistogramLabelNames(spec) == []
      then map[[] := EmptySeries(spec.bounds)] else map[])
  }

  /** The instruments after the updater has seen `line`; `None` when it raises. */
  function Step(spec: UpdaterSpec, st: UpdaterState, line: LogLine): Option<UpdaterState>
    requires Fits(spec.bounds, st)
  {
    match EffectOf(spec.metric, spec.labelnames, line)
    case None => None
    case Some(Count(k)) => Some(st.(counter := Incremented(st.counter, k)))
    case Some(Abort(k)) => Some(st.(counter := Incremented(st.counter, k)))
    case Some(Observe(k, v)) => Some(st.(histogram := Observed(st.histogram, spec.bounds, k, v)))
  }

  /** Arity and bucket invariants of a snapshot under its updater's configuration. */
  ghost predicate StateValid(spec: UpdaterSpec, st: UpdaterState) {
    && (spec.metric.IsHistogram() ==> AcceptedLadder(spec.bounds))
    && (forall k :: k in st.counter ==> |k| == |spec.labelnames|)
    && (forall k :: k in st.histogram ==> |k| == |HistogramLabelNames(spec)|)
    && AllSeriesValid(st.histogram, spec.bounds)
  }

  lemma InitialValid(spec: UpdaterSpec)
    requires spec.metric.IsHistogram() ==> AcceptedLadder(spec.bounds)
    ensures StateValid(spec, Initial(spec))
  {
    EmptySeriesValid(spec.bounds);
  }

  /**
   * Counter increments use the updater's label arity, histogram observations
   * the histogram's (one more for the session timer); only histograms observe.
   */
  lemma EffectKeys(spec: UpdaterSpec, line: LogLine)
    ensures match EffectOf(spec.metric, spec.labelnames, line)
      case None => true
      case Some(Count(k)) => |k| == |spec.labelnames| && spec.metric.IsCounter()
      case Some(Abort(k)) => |k| == |spec.labelnames| && spec.metric.Timer?
      case Some(Observe(k, _)) => |k| == |HistogramLabelNames(spec)| && spec.metric.IsHistogram()
  {
  }

  /** Every step keeps the arity and bucket invariants. */
  lemma StepPreservesValid(spec: UpdaterSpec, st: UpdaterState, line: LogLine)
    requires StateValid(spec, st)
    ensures Fits(spec.bounds, st)
    ensures Step(spec, st, line).Some? ==> StateValid(spec, Step(spec, st, line).value)
  {
    EffectKeys(spec, line);
    match EffectOf(spec.metric, spec.labelnames, line)
    case None =>
    case Some(Count(k)) =>
    case Some(Abort(k)) =>
    case Some(Observe(k, v)) =>
      ObservedPreservesValid(st.histogram, spec.bounds, k, v);
  }

  // ---------------------------------------------------------------------
  // Properties of the updaters, one line at a time
  // ---------------------------------------------------------------------

  /**
   * Both counters count lines (bytes_read_total too): the series keyed by the
   * line's values for the label names, in configured order, rises by exactly
   * one, and every other series and the histogram are unchanged. Without label
   * names that series is the single unlabelled one. A repeated label name makes
   * every line raise.
   */
  lemma CounterAddsOne(spec: UpdaterSpec, st: UpdaterState, line: LogLine)
    requires spec.metric.IsCounter() && Fits(spec.bounds, st)
    ensures Step(spec, st, line).Some? <==> Distinct(spec.labelnames)
    ensures Distinct(spec.labelnames) ==>
      var st' := Step(spec, st, line).value;
      var key := LabelValues(spec.labelnames, line);
      && (spec.labelnames == [] ==> key == [])
      && |key| == |spec.labelnames|
      && (forall i :: 0 <= i < |key| ==> key[i] == LabelValue(line, spec.labelnames[i]))
      && CountOf(st'.counter, key) == CountOf(st.counter, key) + 1
      && (forall k :: k in st.counter && k != key ==> st'.counter[k] == st.counter[k])
      && st'.histogram == st.histogram
  {
  }

  /**
   * A non-session timer value of -1 is an abort: the paired abort counter
   * rises by one in the series the histogram would have used, and the
   * histogram is untouched; with a repeated label name the updater raises.
   */
  lemma TimerAbort(t: TimerName, labelnames: seq<LabelName>, bounds: seq<Bound>, st: UpdaterState, line: LogLine)
    requires t != SessionDuration && Fits(bounds, st)
    requires ParseMillis(t.Attribute(line)) == Some(-1)
    ensures Step(UpdaterSpec(Timer(t), labelnames, bounds), st, line).Some? <==> Distinct(labelnames)
    ensures Distinct(labelnames) ==>
      var r := Step(UpdaterSpec(Timer(t), labelnames, bounds), st, line).value;
      var key := LabelValues(labelnames, line);
      && CountOf(r.counter, key) == CountOf(st.counter, key) + 1
      && (forall k :: k in st.counter && k != key ==> r.counter[k] == st.counter[k])
      && r.histogram == st.histogram
  {
  }

  /**
   * Any other non-session timer value is observed into the histogram series
   * keyed by the label values, and the abort counter is untouched; with a
   * repeated label name the updater raises.
   */
  lemma TimerObserve(t: TimerName, labelnames: seq<LabelName>, bounds: seq<Bound>, st: UpdaterState, line: LogLine, v: int)
    requires t != SessionDuration && Fits(bounds, st)
    requires ParseMillis(t.Attribute(line)) == Some(v) && v != -1
    ensures Step(UpdaterSpec(Timer(t), labelnames, bounds), st, line).Some? <==> Distinct(labelnames)
    ensures Distinct(labelnames) ==>
      var r := Step(UpdaterSpec(Timer(t), labelnames, bounds), st, line).value;
      var key := LabelValues(labelnames, line);
      && r.histogram == Observed(st.histogram, bounds, key, v)
      && r.histogram[key].count == SeriesOf(st.histogram, bounds, key).count + 1
      && r.histogram[key].sum == SeriesOf(st.histogram, bounds, key).sum + v
      && r.counter == st.counter
  {
  }

  /** A timer attribute that does not convert makes the updater raise, for every timer. */
  lemma TimerRaises(t: TimerName, labelnames: seq<LabelName>, bounds: seq<Bound>, st: UpdaterState, line: LogLine)
    requires Fits(bounds, st)
    requires if t == SessionDuration then
               var raw := line.totalTime;
               ParseMillis(if |raw| > 0 && raw[0] == '+' then raw[1..] else raw).None?
             else ParseMillis(t.Attribute(line)).None?
    ensures Step(UpdaterSpec(Timer(t), labelnames, bounds), st, line).None?
  {
  }

  /**
   * The session duration observes every value that converts, into the series
   * whose last label value is the logasap flag: "True" exactly when the raw
   * value starts with '+', in which case the rest is observed, otherwise the
   * whole value. There is no abort counter, so -1 is observed as -1. A value
   * that does not convert, or a repeated label name, makes the updater raise.
   */
  lemma SessionObserve(labelnames: seq<LabelName>, bounds: seq<Bound>, st: UpdaterState, line: LogLine)
    requires Fits(bounds, st)
    ensures var raw := line.totalTime;
      var logasap := |raw| > 0 && raw[0] == '+';
      var value := ParseMillis(if logasap then raw[1..] else raw);
      var r := Step(UpdaterSpec(Timer(SessionDuration), labelnames, bounds), st, line);
      && (r.Some? <==> value.Some? && Distinct(labelnames))
      && (r.Some? ==>
            var key := LabelValues(labelnames, line) + [if logasap then "True" else "False"];
            && |key| == |labelnames| + 1
            && r.value.histogram == Observed(st.histogram, bounds, key, value.value)
            && r.value.counter == st.counter)
  {
  }

  /**
   * Queue histograms observe the queue depth unchanged, and raise only for a
   * repeated label name.
   */
  lemma QueueObserve(spec: UpdaterSpec, st: UpdaterState, line: LogLine)
    requires spec.metric.IsQueue() && Fits(spec.bounds, st)
    ensures Step(spec, st, line).Some? <==> Distinct(spec.labelnames)
    ensures Distinct(spec.labelnames) ==>
      var r := Step(spec, st, line).value;
      var depth := if spec.metric == BackendQueueLength then line.queueBackend else line.queueServer;
      && r.histogram == Observed(st.histogram, spec.bounds, LabelValues(spec.labelnames, line), depth)
      && r.counter == st.counter
  {
  }

  // ---------------------------------------------------------------------
  // The updaters as closures over instrument objects
  // ---------------------------------------------------------------------

  /**
   * An `observe(line)` closure returned by a builder, with the instruments it
   * closed over. The two counter builders share one shape; `timer` builds an
   * abortable timer or, for the session duration, a logasap-labelled one.
   */
  datatype Updater =
    | CounterUpdater(metric: MetricName, labelnames: seq<LabelName>, counter: Counter)
    | AbortableTimerUpdater(timer: TimerName, labelnames: seq<LabelName>, histogram: Histogram, abortCounter: Counter)
    | SessionTimerUpdater(labelnames: seq<LabelName>, histogram: Histogram)
    | QueueUpdater(metric: MetricName, labelnames: seq<LabelName>, histogram: Histogram)
  {
    function Spec(): UpdaterSpec {
      match this
      case CounterUpdater(m, ls, _) => UpdaterSpec(m, ls, [])
      case AbortableTimerUpdater(t, ls, h, _) => UpdaterSpec(Timer(t), ls, h.bounds)
      case SessionTimerUpdater(ls, h) => UpdaterSpec(Timer(SessionDuration), ls, h.bounds)
      case QueueUpdater(m, ls, h) => UpdaterSpec(m, ls, h.bounds)
    }

    function Instruments(): set<object> {
      match this
      case CounterUpdater(_, _, c) => {c}
      case AbortableTimerUpdater(_, _, h, a) => {h, a}
      case SessionTimerUpdater(_, h) => {h}
      case QueueUpdater(_, _, h) => {h}
    }

    ghost predicate Valid()
      reads Instruments()
    {
      match this
      case CounterUpdater(m, ls, c) =>
        && m.IsCounter() && c.Valid()
        && c.name == FullName(m.Name()) && c.labelnames == Names(ls)
      case AbortableTimerUpdater(t, ls, h, a) =>
        && t != SessionDuration && h.Valid() && a.Valid()
        && h.name == FullName(t.Name()) && h.labelnames == Names(ls)
        && a.name == FullName(t.AbortCounterName()) && a.labelnames == Names(ls)
      case SessionTimerUpdater(ls, h) =>
        && h.Valid()
        && h.name == FullName(SessionDuration.Name()) && h.labelnames == Names(ls) + ["logasap"]
      case QueueUpdater(m, ls, h) =>
        && m.IsQueue() && h.Valid()
        && h.name == FullName(m.Name()) && h.labelnames == Names(ls)
    }

    /** The current series of the instruments. */
    function Snapshot(): UpdaterState
      reads Instruments()
    {
      match this
      case CounterUpdater(_, _, c) => UpdaterState(c.series, map[])
      case AbortableTimerUpdater(_, _, h, a) => UpdaterState(a.series, h.series)
      case SessionTimerUpdater(_, h) => UpdaterState(map[], h.series)
      case QueueUpdater(_, _, h) => UpdaterState(map[], h.series)
    }

    lemma ValidSnapshot()
      requires Valid()
      ensures StateValid(Spec(), Snapshot())
    {
      match this
      case CounterUpdater(_, ls, c) =>
        assert |c.labelnames| == |ls|;
      case AbortableTimerUpdater(_, ls, h, a) =>
        assert |a.labelnames| == |ls| && h.labelnames == HistogramLabelNames(Spec());
      case SessionTimerUpdater(ls, h) =>
        assert h.labelnames == HistogramLabelNames(Spec());
      case QueueUpdater(_, ls, h) =>
        assert h.labelnames == HistogramLabelNames(Spec());
    }

    /**
     * `observe(line)`: updates the instruments as `Step` says; `ok` is false
     * exactly when the closure raises, and then nothing has changed.
     */
    method Apply(line: LogLine) returns (ok: bool)
      requires Valid()
      modifies Instruments()
      ensures Valid()
      ensures Fits(Spec().bounds, old(Snapshot()))
      ensures ok == Step(Spec(), old(Snapshot()), line).Some?
      ensures Snapshot() == if ok then Step(Spec(), old(Snapshot()), line).value else old(Snapshot())
    {
      ValidSnapshot();
      ghost var st := Snapshot();
      match this
      case CounterUpdater(m, ls, c) =>
        StepCounter(m, ls, st, line);
        ok := ApplyCounter(m, ls, c, line);
      case AbortableTimerUpdater(t, ls, h, a) =>
        StepAbortableTimer(t, ls, h.bounds, st, line);
        ok := ApplyAbortableTimer(t, ls, h, a, line);
      case SessionTimerUpdater(ls, h) =>
        StepSessionTimer(ls, h.bounds, st, line);
        ok := ApplySessionTimer(ls, h, line);
      case QueueUpdater(m, ls, h) =>
        StepQueue(m, ls, h.bounds, st, line);
        ok := ApplyQueue(m, ls, h, line);
    }
  }

  lemma StepCounter(m: MetricName, ls: seq<LabelName>, st: UpdaterState, line: LogLine)
    requires m.IsCounter() && Fits([], st)
    ensures Step(UpdaterSpec(m, ls, []), st, line) ==
      if Distinct(ls) then Some(st.(counter := Incremented(st.counter, LabelValues(ls, line)))) else None
  {
  }

  lemma StepAbortableTimer(t: TimerName, ls: seq<LabelName>, bounds: seq<Bound>, st: UpdaterState, line: LogLine)
    requires t != SessionDuration && Fits(bounds, st)
    ensures var value := ParseMillis(t.Attribute(line));
      var key := LabelValues(ls, line);
      Step(UpdaterSpec(Timer(t), ls, bounds), st, line) ==
        if value.None? || !Distinct(ls) then None
        else if value.value == -1 then Some(st.(counter := Incremented(st.counter, key)))
        else Some(st.(histogram := Observed(st.histogram, bounds, key, value.value)))
  {
  }

  lemma StepSessionTimer(ls: seq<LabelName>, bounds: seq<Bound>, st: UpdaterState, line: LogLine)
    requires Fits(bounds, st)
    ensures var raw := line.totalTime;
      var logasap := |raw| > 0 && raw[0] == '+';
      var value := ParseMillis(if logasap then raw[1..] else raw);
      Step(UpdaterSpec(Timer(SessionDuration), ls, bounds), st, line) ==
        if value.None? || !Distinct(ls) then None
        else Some(st.(histogram := Observed(st.histogram, bounds, LabelValues(ls, line) + [LogasapValue(logasap)], value.value)))
  {
  }

  lemma StepQueue(m: MetricName, ls: seq<LabelName>, bounds: seq<Bound>, st: UpdaterState, line: LogLine)
    requires m.IsQueue() && Fits(bounds, st)
    ensures Step(UpdaterSpec(m, ls, bounds), st, line) ==
      if !Distinct(ls) then None
      else Some(st.(histogram := Observed(st.histogram, bounds, LabelValues(ls, line),
                                          if m == BackendQueueLength then line.queueBackend else line.queueServer)))
  {
  }

  method ApplyCounter(m: MetricName, ls: seq<LabelName>, c: Counter, line: LogLine) returns (ok: bool)
    requires CounterUpdater(m, ls, c).Valid()
    modifies c
    ensures CounterUpdater(m, ls, c).Valid() && ok == Distinct(ls)
    ensures c.series == if ok then Incremented(old(c.series), LabelValues(ls, line)) else old(c.series)
  {
    if !Distinct(ls) {
      ok := false;
    } else {
      c.Inc(LabelValues(ls, line));
      ok := true;
    }
  }

  method ApplyAbortableTimer(t: TimerName, ls: seq<LabelName>, h: Histogram, a: Counter, line: LogLine)
    returns (ok: bool)
    requires AbortableTimerUpdater(t, ls, h, a).Valid()
    modifies h, a
    ensures AbortableTimerUpdater(t, ls, h, a).Valid()
    ensures var value := ParseMillis(t.Attribute(line));
      var key := LabelValues(ls, line);
      && ok == (value.Some? && Distinct(ls))
      && a.series == (if ok && value.value == -1 then Incremented(old(a.series), key) else old(a.series))
      && h.series == (if ok && value.value != -1 then Observed(old(h.series), h.bounds, key, value.value)
                      else old(h.series))
  {
    var value := ParseMillis(t.Attribute(line));
    if value.None? || !Distinct(ls) {
      ok := false;
    } else {
      var key := LabelValues(ls, line);
      if value.value == -1 {
        a.Inc(key);
      } else {
        h.Observe(key, value.value);
      }
      ok := true;
    }
  }

  method ApplySessionTimer(ls: seq<LabelName>, h: Histogram, line: LogLine) returns (ok: bool)
    requires SessionTimerUpdater(ls, h).Valid()
    modifies h
    ensures SessionTimerUpdater(ls, h).Valid()
    ensures var raw := line.totalTime;
      var logasap := |raw| > 0 && raw[0] == '+';
      var value := ParseMillis(if logasap then raw[1..] else raw);
      && ok == (value.Some? && Distinct(ls))
      && h.series == (if ok then Observed(old(h.series), h.bounds, LabelValues(ls, line) + [LogasapValue(logasap)], value.value)
                      else old(h.series))
  {
    var raw := line.totalTime;
    var key := LabelValues(ls, line);
    var value;
    if |raw| > 0 && raw[0] == '+' {
      key := key + ["True"];
      value := ParseMillis(raw[1..]);
    } else {
      key := key + ["False"];
      value := ParseMillis(raw);
    }
    if value.None? || !Distinct(ls) {
      ok := false;
    } else {
      h.Observe(key, value.value);
      ok := true;
    }
  }

  method ApplyQueue(m: MetricName, ls: seq<LabelName>, h: Histogram, line: LogLine) returns (ok: bool)
    requires QueueUpdater(m, ls, h).Valid()
    modifies h
    ensures QueueUpdater(m, ls, h).Valid() && ok == Distinct(ls)
    ensures h.series == if ok then Observed(old(h.series), h.bounds, LabelValues(ls, line),
                                            if m == BackendQueueLength then line.queueBackend else line.queueServer)
                        else old(h.series)
  {
    if !Distinct(ls) {
      ok := false;
    } else {
      var depth := if m == BackendQueueLength then line.queueBackend else line.queueServer;
      h.Observe(LabelValues(ls, line), depth);
      ok := true;
    }
  }

  // ---------------------------------------------------------------------
  // The builders
  // ---------------------------------------------------------------------

  /** `requests_total(labelnames)`. */
  method BuildRequestsTotal(labelnames: seq<LabelName>) returns (u: Updater)
    ensures u.Valid() && fresh(u.Instruments())
    ensures u.Spec() == UpdaterSpec(RequestsTotal, labelnames, [])
    ensures u.Snapshot() == Initial(u.Spec())
  {
    var c := new Counter(FullName(RequestsTotal.Name()), Names(labelnames));
    u := CounterUpdater(RequestsTotal, labelnames, c);
  }

  /** `bytes_read_total(labelnames)`: a line counter, like `requests_total`. */
  method BuildBytesReadTotal(labelnames: seq<LabelName>) returns (u: Updater)
    ensures u.Valid() && fresh(u.Instruments())
    ensures u.Spec() == UpdaterSpec(BytesReadTotal, labelnames, [])
    ensures u.Snapshot() == Initial(u.Spec())
  {
    var c := new Counter(FullName(BytesReadTotal.Name()), Names(labelnames));
    u := CounterUpdater(BytesReadTotal, labelnames, c);
  }

  /** `timer(timer_name, labelnames, buckets)`. */
  method BuildTimer(t: TimerName, labelnames: seq<LabelName>, buckets: seq<Bound>) returns (u: Updater)
    requires AcceptedLadder(buckets)
    ensures u.Valid() && fresh(u.Instruments())
    ensures u.Spec() == UpdaterSpec(Timer(t), labelnames, buckets)
    ensures u.Snapshot() == Initial(u.Spec())
  {
    if t == SessionDuration {
      u := BuildSessionTimer(labelnames, buckets);
    } else {
      u := BuildAbortableTimer(t, labelnames, buckets);
    }
  }

  /** The session-duration branch of `timer`: one histogram with the extra `logasap` label. */
  method BuildSessionTimer(labelnames: seq<LabelName>, buckets: seq<Bound>) returns (u: Updater)
    requires AcceptedLadder(buckets)
    ensures u.Valid() && fresh(u.Instruments())
    ensures u.Spec() == UpdaterSpec(Timer(SessionDuration), labelnames, buckets)
    ensures u.Snapshot() == Initial(u.Spec())
  {
    var h := new Histogram(FullName(SessionDuration.Name()), Names(labelnames) + ["logasap"], buckets);
    u := SessionTimerUpdater(labelnames, h);
  }

  /** The other branch of `timer`: a histogram and its abort counter. */
  method BuildAbortableTimer(t: TimerName, labelnames: seq<LabelName>, buckets: seq<Bound>) returns (u: Updater)
    requires t != SessionDuration && AcceptedLadder(buckets)
    ensures u.Valid() && fresh(u.Instruments())
    ensures u.Spec() == UpdaterSpec(Timer(t), labelnames, buckets)
    ensures u.Snapshot() == Initial(u.Spec())
  {
    var h := new Histogram(FullName(t.Name()), Names(labelnames), buckets);
    var a := new Counter(FullName(t.AbortCounterName()), Names(labelnames));
    u := AbortableTimerUpdater(t, labelnames, h, a);
    InitialAbortable(t, labelnames, buckets);
  }

  lemma InitialAbortable(t: TimerName, labelnames: seq<LabelName>, buckets: seq<Bound>)
    requires t != SessionDuration
    ensures Initial(UpdaterSpec(Timer(t), labelnames, buckets)) ==
      UpdaterState(
        if Names(labelnames) == [] then map[[] := 0] else map[],
        if Names(labelnames) == [] then map[[] := EmptySeries(buckets)] else map[])
  {
  }

  /** `backend_queue_length(labelnames, buckets)` and `server_queue_length(labelnames, buckets)`. */
  method BuildQueueLength(m: MetricName, labelnames: seq<LabelName>, buckets: seq<Bound>) returns (u: Updater)
    requires m.IsQueue() && AcceptedLadder(buckets)
    ensures u.Valid() && fresh(u.Instruments())
    ensures u.Spec() == UpdaterSpec(m, labelnames, buckets)
    ensures u.Snapshot() == Initial(u.Spec())
  {
    var h := new Histogram(FullName(m.Name()), Names(labelnames), buckets);
    u := QueueUpdater(m, labelnames, h);
  }
}
