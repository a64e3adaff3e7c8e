/**
 * Start-up: the option defaults of the argument parser and
 * `create_log_processor`, which builds the enabled metric updaters in a
 * fixed order (timers, then counters, then queue histograms) and picks the
 * input the processor reads from.
 *
 * `PlannedSpecs` is the value-level account of the three builder loops; the
 * lemmas below show every enabled metric gets exactly one updater, in the
 * fixed order, configured from its own options.
 */
module Cli {
  import opened Wrappers
  import opened HaproxyLine
  import opened Instruments
  import opened Metrics
  import opened LogProcessing

  /** The systemd unit `-j`/`--journal` reads when given without a value. */
  const JournalDefaultUnit: string := "haproxy.service"

  /** The timer loop's order: the keys of TIMERS. */
  const TimerMetrics: seq<MetricName> :=
    [Timer(RequestWait), Timer(ServerTcpConnectionEstablish), Timer(RequestQueued),
     Timer(ResponseProcessing), Timer(SessionDuration)]

  lemma TimerMetricsAreTimers()
    ensures |TimerMetrics| == |Timers|
    ensures forall i :: 0 <= i < |Timers| ==> TimerMetrics[i] == Timer(Timers[i])
  {
  }

  /** The counter loop's order: bytes read first, then requests. */
  const CounterMetrics: seq<MetricName> := [BytesReadTotal, RequestsTotal]

  const QueueMetrics: seq<MetricName> := [BackendQueueLength, ServerQueueLength]

  /** The order in which `create_log_processor` considers the metrics. */
  const UpdaterOrder: seq<MetricName> := TimerMetrics + CounterMetrics + QueueMetrics

  /** The choices (and the default) of `--enabled-metrics`. */
  const MetricChoices: seq<MetricName> :=
    [RequestsTotal, BytesReadTotal, BackendQueueLength, ServerQueueLength] + TimerMetrics

  /** A metric's position in `UpdaterOrder`. */
  function Rank(m: MetricName): (r: nat)
    ensures r < |UpdaterOrder| && UpdaterOrder[r] == m
  {
    match m
    case Timer(RequestWait) => 0
    case Timer(ServerTcpConnectionEstablish) => 1
    case Timer(RequestQueued) => 2
    case Timer(ResponseProcessing) => 3
    case Timer(SessionDuration) => 4
    case BytesReadTotal => 5
    case RequestsTotal => 6
    case BackendQueueLength => 7
    case ServerQueueLength => 8
  }

  /** Every metric is a choice of `--enabled-metrics` and has a place in the order. */
  lemma EveryMetricListed(m: MetricName)
    ensures m in MetricChoices && m in UpdaterOrder
  {
    assert UpdaterOrder[Rank(m)] == m;
  }

  /** The `--enabled-metrics` choice check: a name maps back to the metric it names. */
  function MetricFromName(s: string): (r: Option<MetricName>)
    ensures r.Some? ==> r.value.Name() == s && r.value in MetricChoices
    ensures r.None? ==> forall m: MetricName :: m.Name() != s
  {
    if s == "requests_total" then Some(RequestsTotal)
    else if s == "bytes_read_total" then Some(BytesReadTotal)
    else if s == "backend_queue_length" then Some(BackendQueueLength)
    else if s == "server_queue_length" then Some(ServerQueueLength)
    else if s == "request_wait_milliseconds" then Some(Timer(RequestWait))
    else if s == "server_tcp_connection_establish_milliseconds" then Some(Timer(ServerTcpConnectionEstablish))
    else if s == "request_queued_milliseconds" then Some(Timer(RequestQueued))
    else if s == "response_processing_milliseconds" then Some(Timer(ResponseProcessing))
    else if s == "session_duration_milliseconds" then Some(Timer(SessionDuration))
    else None
  }

  lemma MetricNameRoundTrip(m: MetricName)
    ensures MetricFromName(m.Name()) == Some(m)
  {
    var r := MetricFromName(m.Name());
    assert r.Some? && r.value.Name() == m.Name();
    NamesDistinct(r.value, m);
  }

  /** No two metrics share a name. */
  lemma NamesDistinct(m1: MetricName, m2: MetricName)
    ensures m1 != m2 ==> m1.Name() != m2.Name()
  {
    NameLength(m1);
    NameLength(m2);
  }

  /** The nine metric names have nine different lengths. */
  lemma NameLength(m: MetricName)
    ensures |m.Name()| == match m
      case RequestsTotal => 14
      case BytesReadTotal => 16
      case BackendQueueLength => 20
      case ServerQueueLength => 19
      case Timer(RequestWait) => 25
      case Timer(ServerTcpConnectionEstablish) => 44
      case Timer(RequestQueued) => 27
      case Timer(ResponseProcessing) => 32
      case Timer(SessionDuration) => 29
  {
  }

  /**
   * Default `--<metric>-labels`: the counters are split by status, backend and
   * server. No name repeats, so the default updaters never reject their dicts.
   */
  function DefaultLabels(m: MetricName): (r: seq<LabelName>)
    ensures Distinct(r)
    ensures m.IsCounter() ==> |r| == 3
    ensures !m.IsCounter() ==> r == []
  {
    if m.IsCounter() then [StatusCode, BackendName, ServerName] else []
  }

  /** Default `--<metric>-buckets` of the histograms. */
  function DefaultBuckets(m: MetricName): seq<Bound> {
    if m.IsQueue() then DefaultQueueLengthBuckets
    else if m.Timer? then DefaultTimerBuckets
    else []
  }

  /** The parsed options `create_log_processor` reads. */
  datatype Options = Options(
    stdin: bool,
    journal: Option<string>,
    file: Option<string>,
    kafka: Option<string>,
    kafkaTopic: Option<string>,
    kafkaGroup: Option<string>,
    enabledMetrics: seq<MetricName>,
    labels: map<MetricName, seq<LabelName>>,
    buckets: map<MetricName, seq<Bound>>)

  /**
   * `--journal` takes an optional value: absent it is unset, bare it is the
   * default unit, otherwise the unit given.
   */
  function JournalArgument(given: bool, unit: Option<string>): (r: Option<string>)
    ensures !given ==> r.None?
    ensures given && unit.None? ==> r == Some(JournalDefaultUnit)
    ensures given && unit.Some? ==> r == unit
  {
    if !given then None else if unit.None? then Some(JournalDefaultUnit) else unit
  }

  /** The options when only the input is given on the command line. */
  function Defaults(stdin: bool, journal: Option<string>, file: Option<string>, kafka: Option<string>,
                    kafkaTopic: Option<string>, kafkaGroup: Option<string>): Options
  {
    Options(stdin, journal, file, kafka, kafkaTopic, kafkaGroup, MetricChoices,
      map m | m in MetricChoices :: DefaultLabels(m),
      map m | m in MetricChoices && m.IsHistogram() :: DefaultBuckets(m))
  }

  /**
   * Every metric has its labels option and every histogram its buckets
   * option. Only the ladder of an enabled histogram reaches the client
   * library, so only that one must be a ladder the library accepts.
   */
  ghost predicate WellFormed(opts: Options) {
    forall m: MetricName ::
      && m in opts.labels
      && (m.IsHistogram() ==> m in opts.buckets && (m in opts.enabledMetrics ==> AcceptedLadder(opts.buckets[m])))
  }

  lemma DefaultsWellFormed(stdin: bool, journal: Option<string>, file: Option<string>, kafka: Option<string>,
                           kafkaTopic: Option<string>, kafkaGroup: Option<string>)
    ensures WellFormed(Defaults(stdin, journal, file, kafka, kafkaTopic, kafkaGroup))
  {
    DefaultLaddersStrict();
    forall m: MetricName ensures m in MetricChoices {
      EveryMetricListed(m);
    }
  }

  /** The updater configuration of one metric: its labels and, for a histogram, its ladder. */
  function SpecFor(opts: Options, m: MetricName): (r: UpdaterSpec)
    requires WellFormed(opts)
    ensures r.metric == m && r.labelnames == opts.labels[m]
    ensures m.IsHistogram() ==> r.bounds == opts.buckets[m]
    ensures m.IsHistogram() && m in opts.enabledMetrics ==> AcceptedLadder(r.bounds)
  {
    UpdaterSpec(m, opts.labels[m], if m.IsHistogram() then opts.buckets[m] else [])
  }

  /** One builder loop over `group`: the enabled metrics, in loop order. */
  function Planned(opts: Options, group: seq<MetricName>): (r: seq<UpdaterSpec>)
    requires WellFormed(opts)
    ensures |r| <= |group|
    decreases |group|
  {
    if group == [] then []
    else
      var m := group[|group| - 1];
      Planned(opts, group[..|group| - 1]) + (if m in opts.enabledMetrics then [SpecFor(opts, m)] else [])
  }

  /** One more metric of a group considered: planned when enabled, skipped otherwise. */
  lemma PlannedStep(opts: Options, group: seq<MetricName>, k: nat)
    requires WellFormed(opts) && k < |group|
    ensures Planned(opts, group[..k + 1]) ==
      Planned(opts, group[..k]) + (if group[k] in opts.enabledMetrics then [SpecFor(opts, group[k])] else [])
  {
    assert group[..k + 1][..k] == group[..k];
  }

  /** The three builder loops of `create_log_processor`, one after the other. */
  function PlannedSpecs(opts: Options): seq<UpdaterSpec>
    requires WellFormed(opts)
  {
    Planned(opts, TimerMetrics) + Planned(opts, CounterMetrics) + Planned(opts, QueueMetrics)
  }

  /** Two loops in a row plan what one loop over both groups plans. */
  lemma {:induction false} PlannedAppend(opts: Options, a: seq<MetricName>, b: seq<MetricName>)
    requires WellFormed(opts)
    ensures Planned(opts, a + b) == Planned(opts, a) + Planned(opts, b)
    decreases |b|
  {
    if b == [] {
      assert a + b == a;
    } else {
      var b' := b[..|b| - 1];
      assert (a + b)[..|a + b| - 1] == a + b';
      assert (a + b)[|a + b| - 1] == b[|b| - 1];
      PlannedAppend(opts, a, b');
    }
  }

  lemma PlannedInOrder(opts: Options)
    requires WellFormed(opts)
    ensures PlannedSpecs(opts) == Planned(opts, UpdaterOrder)
  {
    PlannedAppend(opts, TimerMetrics, CounterMetrics);
    PlannedAppend(opts, TimerMetrics + CounterMetrics, QueueMetrics);
  }

  /** A group in which ranks strictly increase. */
  predicate Ordered(group: seq<MetricName>) {
    forall i, j :: 0 <= i < j < |group| ==> Rank(group[i]) < Rank(group[j])
  }

  /**
   * A loop over an ordered group plans only enabled metrics of the group,
   * each with its own options, in strictly increasing order.
   */
  lemma {:induction false} PlannedSorted(opts: Options, group: seq<MetricName>)
    requires WellFormed(opts) && Ordered(group)
    ensures forall i :: 0 <= i < |Planned(opts, group)| ==>
      Planned(opts, group)[i].metric in group && Planned(opts, group)[i].metric in opts.enabledMetrics
    ensures forall i :: 0 <= i < |Planned(opts, group)| ==>
      Planned(opts, group)[i] == SpecFor(opts, Planned(opts, group)[i].metric)
    ensures forall i, j :: 0 <= i < j < |Planned(opts, group)| ==>
      Rank(Planned(opts, group)[i].metric) < Rank(Planned(opts, group)[j].metric)
    decreases |group|
  {
    if group != [] {
      var init := group[..|group| - 1];
      var m := group[|group| - 1];
      assert Ordered(init);
      PlannedSorted(opts, init);
      var p := Planned(opts, init);
      var r := Planned(opts, group);
      forall i | 0 <= i < |p| ensures p[i].metric in group && Rank(p[i].metric) < Rank(m) {
        assert p[i].metric in init;
        var k :| 0 <= k < |init| && init[k] == p[i].metric;
        assert group[k] == init[k];
      }
      if m in opts.enabledMetrics {
        assert r == p + [SpecFor(opts, m)];
        assert r[|r| - 1].metric == m;
      } else {
        assert r == p;
      }
    }
  }

  /** A loop over a group plans every enabled metric of the group. */
  lemma {:induction false} PlannedComplete(opts: Options, group: seq<MetricName>, m: MetricName)
    requires WellFormed(opts) && m in group && m in opts.enabledMetrics
    ensures exists i :: 0 <= i < |Planned(opts, group)| && Planned(opts, group)[i].metric == m
    decreases |group|
  {
    var init := group[..|group| - 1];
    var p := Planned(opts, group);
    if group[|group| - 1] == m {
      assert p[|p| - 1].metric == m;
    } else {
      assert m in init;
      PlannedComplete(opts, init, m);
      var i :| 0 <= i < |Planned(opts, init)| && Planned(opts, init)[i].metric == m;
      assert p[i] == Planned(opts, init)[i];
    }
  }

  lemma UpdaterOrderOrdered()
    ensures Ordered(UpdaterOrder)
  {
    forall i | 0 <= i < |UpdaterOrder| ensures Rank(UpdaterOrder[i]) == i {
    }
  }

  /**
   * `create_log_processor` builds one updater per enabled metric and none
   * for the others, however often a metric is repeated in
   * `--enabled-metrics`; the updaters follow `UpdaterOrder` and each is
   * configured from its metric's own options.
   */
  lemma EnabledExactlyOnce(opts: Options)
    requires WellFormed(opts)
    ensures var r := PlannedSpecs(opts);
      && (forall m :: m in opts.enabledMetrics <==> exists i :: 0 <= i < |r| && r[i].metric == m)
      && (forall i, j :: 0 <= i < j < |r| ==> Rank(r[i].metric) < Rank(r[j].metric))
      && (forall i :: 0 <= i < |r| ==> r[i] == SpecFor(opts, r[i].metric))
  {
    PlannedInOrder(opts);
    UpdaterOrderOrdered();
    PlannedSorted(opts, UpdaterOrder);
    forall m | m in opts.enabledMetrics
      ensures exists i :: 0 <= i < |PlannedSpecs(opts)| && PlannedSpecs(opts)[i].metric == m
    {
      EveryMetricListed(m);
      PlannedComplete(opts, UpdaterOrder, m);
    }
  }

  /**
   * The ladder of a histogram that is not enabled is never read: whatever it
   * is, the options stay well formed and the same updaters are planned.
   */
  lemma DisabledLadderIgnored(opts: Options, m: MetricName, bounds: seq<Bound>)
    requires WellFormed(opts) && m.IsHistogram() && m !in opts.enabledMetrics
    ensures WellFormed(opts.(buckets := opts.buckets[m := bounds]))
    ensures PlannedSpecs(opts.(buckets := opts.buckets[m := bounds])) == PlannedSpecs(opts)
  {
    var opts' := opts.(buckets := opts.buckets[m := bounds]);
    PlannedIgnores(opts, opts', m, TimerMetrics);
    PlannedIgnores(opts, opts', m, CounterMetrics);
    PlannedIgnores(opts, opts', m, QueueMetrics);
  }

  /** Options that differ only in the ladder of a disabled histogram plan the same updaters. */
  lemma {:induction false} PlannedIgnores(opts: Options, opts': Options, m: MetricName, group: seq<MetricName>)
    requires WellFormed(opts) && WellFormed(opts') && m !in opts.enabledMetrics
    requires opts' == opts.(buckets := opts'.buckets)
    requires forall n :: n != m && n.IsHistogram() ==> opts'.buckets[n] == opts.buckets[n]
    ensures Planned(opts', group) == Planned(opts, group)
    decreases |group|
  {
    if group != [] {
      PlannedIgnores(opts, opts', m, group[..|group| - 1]);
    }
  }

  /**
   * Only `requests_total` enabled, with an unsorted backend queue ladder
   * given: the options are well formed although that ladder is not one the
   * client library accepts.
   */
  lemma UnsortedDisabledLadder(stdin: bool, journal: Option<string>, file: Option<string>, kafka: Option<string>,
                               kafkaTopic: Option<string>, kafkaGroup: Option<string>)
    ensures var d := Defaults(stdin, journal, file, kafka, kafkaTopic, kafkaGroup).(enabledMetrics := [RequestsTotal]);
      var opts := d.(buckets := d.buckets[BackendQueueLength := [Finite(10), Finite(5), Inf]]);
      && WellFormed(opts)
      && !AcceptedLadder(opts.buckets[BackendQueueLength])
      && PlannedSpecs(opts) == [SpecFor(opts, RequestsTotal)]
  {
    var d := Defaults(stdin, journal, file, kafka, kafkaTopic, kafkaGroup).(enabledMetrics := [RequestsTotal]);
    DefaultsWellFormed(stdin, journal, file, kafka, kafkaTopic, kafkaGroup);
    assert WellFormed(d);
    DisabledLadderIgnored(d, BackendQueueLength, [Finite(10), Finite(5), Inf]);
    var opts := d.(buckets := d.buckets[BackendQueueLength := [Finite(10), Finite(5), Inf]]);
    assert !BoundLe(opts.buckets[BackendQueueLength][0], opts.buckets[BackendQueueLength][1]);
    RequestsTotalOnly(opts);
  }

  /** With only `requests_total` enabled, its updater is the only one built. */
  lemma RequestsTotalOnly(opts: Options)
    requires WellFormed(opts) && opts.enabledMetrics == [RequestsTotal]
    ensures PlannedSpecs(opts) == [SpecFor(opts, RequestsTotal)]
  {
    PlannedNone(opts, TimerMetrics);
    PlannedNone(opts, QueueMetrics);
    PlannedNone(opts, CounterMetrics[..1]);
    PlannedStep(opts, CounterMetrics, 1);
    assert CounterMetrics[..2] == CounterMetrics;
  }

  /** A loop over a group none of whose metrics is enabled plans nothing. */
  lemma {:induction false} PlannedNone(opts: Options, group: seq<MetricName>)
    requires WellFormed(opts)
    requires forall i :: 0 <= i < |group| ==> group[i] !in opts.enabledMetrics
    ensures Planned(opts, group) == []
    decreases |group|
  {
    if group != [] {
      PlannedNone(opts, group[..|group| - 1]);
    }
  }

  /** With the defaults, all nine metrics are built, in order, with the default labels and ladders. */
  lemma DefaultsPlanAll(stdin: bool, journal: Option<string>, file: Option<string>, kafka: Option<string>,
                        kafkaTopic: Option<string>, kafkaGroup: Option<string>)
    ensures WellFormed(Defaults(stdin, journal, file, kafka, kafkaTopic, kafkaGroup))
    ensures var r := PlannedSpecs(Defaults(stdin, journal, file, kafka, kafkaTopic, kafkaGroup));
      && |r| == |UpdaterOrder|
      && forall i :: 0 <= i < |r| ==>
           r[i] == UpdaterSpec(UpdaterOrder[i], DefaultLabels(UpdaterOrder[i]),
                               if UpdaterOrder[i].IsHistogram() then DefaultBuckets(UpdaterOrder[i]) else [])
  {
    var opts := Defaults(stdin, journal, file, kafka, kafkaTopic, kafkaGroup);
    DefaultsWellFormed(stdin, journal, file, kafka, kafkaTopic, kafkaGroup);
    forall m: MetricName ensures m in opts.enabledMetrics {
      EveryMetricListed(m);
    }
    PlannedAllEnabled(opts, UpdaterOrder);
    PlannedInOrder(opts);
  }

  /** With every metric enabled, a loop plans every metric of its group. */
  lemma {:induction false} PlannedAllEnabled(opts: Options, group: seq<MetricName>)
    requires WellFormed(opts)
    requires forall m: MetricName :: m in opts.enabledMetrics
    ensures |Planned(opts, group)| == |group|
    ensures forall i :: 0 <= i < |group| ==> Planned(opts, group)[i] == SpecFor(opts, group[i])
    decreases |group|
  {
    if group != [] {
      PlannedAllEnabled(opts, group[..|group| - 1]);
    }
  }

  // ---------------------------------------------------------------------
  // The input source
  // ---------------------------------------------------------------------

  /** Python truthiness of an optional string option. */
  predicate Given(o: Option<string>) {
    o.Some? && o.value != ""
  }

  /**
   * The if/elif chain choosing the processor: stdin, then the journal, then
   * a file, then Kafka. `None` when no branch is taken; the source then
   * fails on the unbound `log_processor`.
   */
  function ChooseSource(opts: Options): Option<Source> {
    if opts.stdin then Some(Stdin)
    else if Given(opts.journal) then Some(Journal(opts.journal.value))
    else if Given(opts.file) then Some(File(opts.file.value))
    else if Given(opts.kafka) then Some(Kafka(opts.kafka.value, opts.kafkaTopic, opts.kafkaGroup))
    else None
  }

  /** The processor options are a mutually exclusive group: exactly one is set. */
  predicate OneSource(opts: Options) {
    (if opts.stdin then 1 else 0) + (if Given(opts.journal) then 1 else 0)
      + (if Given(opts.file) then 1 else 0) + (if Given(opts.kafka) then 1 else 0) == 1
  }

  /**
   * With exactly one input option set, the processor reads from that input;
   * with none set, no processor comes out.
   */
  lemma SourceOfOneOption(opts: Options)
    ensures OneSource(opts) ==>
      && (opts.stdin ==> ChooseSource(opts) == Some(Stdin))
      && (Given(opts.journal) ==> ChooseSource(opts) == Some(Journal(opts.journal.value)))
      && (Given(opts.file) ==> ChooseSource(opts) == Some(File(opts.file.value)))
      && (Given(opts.kafka) ==> ChooseSource(opts) == Some(Kafka(opts.kafka.value, opts.kafkaTopic, opts.kafkaGroup)))
    ensures ChooseSource(opts).None? <==>
      !opts.stdin && !Given(opts.journal) && !Given(opts.file) && !Given(opts.kafka)
  {
  }

  /** A bare `-j` reads the `haproxy.service` unit. */
  lemma BareJournalFlag(opts: Options)
    requires !opts.stdin && opts.journal == JournalArgument(true, None)
    ensures ChooseSource(opts) == Some(Journal("haproxy.service"))
  {
  }

  // ---------------------------------------------------------------------
  // create_log_processor
  // ---------------------------------------------------------------------

  /** What each builder loop promises about the updaters it appends. */
  ghost predicate Extends(opts: Options, us: seq<Updater>, r: seq<Updater>, planned: seq<UpdaterSpec>)
    reads InstrumentsOf(r)
  {
    && UpdatersValid(r)
    && |r| >= |us| && r[..|us|] == us
    && SpecsOf(r) == SpecsOf(us) + planned
    && forall i :: |us| <= i < |r| ==> r[i].Snapshot() == Initial(r[i].Spec())
  }

  lemma InstrumentsOfAppend(r: seq<Updater>, u: Updater)
    ensures InstrumentsOf(r + [u]) == InstrumentsOf(r) + u.Instruments()
  {
    var r' := r + [u];
    forall o | o in InstrumentsOf(r') ensures o in InstrumentsOf(r) + u.Instruments() {
      var i :| 0 <= i < |r'| && o in r'[i].Instruments();
      if i < |r| {
        assert r'[i] == r[i];
      }
    }
    forall o | o in InstrumentsOf(r) ensures o in InstrumentsOf(r') {
      var i :| 0 <= i < |r| && o in r[i].Instruments();
      assert r'[i] == r[i];
    }
    assert forall o :: o in u.Instruments() ==> o in r'[|r|].Instruments();
  }

  lemma DisjointFromEach(r: seq<Updater>, u: Updater)
    requires u.Instruments() !! InstrumentsOf(r)
    ensures forall i :: 0 <= i < |r| ==> r[i].Instruments() !! u.Instruments()
  {
    forall i | 0 <= i < |r| ensures r[i].Instruments() !! u.Instruments() {
      assert r[i].Instruments() <= InstrumentsOf(r);
    }
  }

  /**
   * Appending a consistent updater at its initial state, whose instruments no
   * updater of the list holds, extends the list by its configuration.
   */
  lemma ExtendsOne(opts: Options, us: seq<Updater>, r: seq<Updater>, planned: seq<UpdaterSpec>, u: Updater)
    requires Extends(opts, us, r, planned)
    requires u.Valid() && u.Snapshot() == Initial(u.Spec())
    requires u.Instruments() !! InstrumentsOf(r)
    ensures Extends(opts, us, r + [u], planned + [u.Spec()])
    ensures InstrumentsOf(r + [u]) == InstrumentsOf(r) + u.Instruments()
  {
    ValidAppend(r, u);
    InstrumentsOfAppend(r, u);
    SpecsAppend(us, r, planned, u);
    SnapshotsAppend(|us|, r, u);
  }

  lemma SpecsAppend(us: seq<Updater>, r: seq<Updater>, planned: seq<UpdaterSpec>, u: Updater)
    requires |r| >= |us| && r[..|us|] == us && SpecsOf(r) == SpecsOf(us) + planned
    ensures (r + [u])[..|us|] == us
    ensures SpecsOf(r + [u]) == SpecsOf(us) + (planned + [u.Spec()])
  {
    assert (r + [u])[..|us|] == r[..|us|];
    assert SpecsOf(r + [u]) == SpecsOf(r) + [u.Spec()];
    SpecsChain(SpecsOf(us), SpecsOf(r), SpecsOf(r + [u]), planned, [u.Spec()]);
  }

  lemma SnapshotsAppend(n: nat, r: seq<Updater>, u: Updater)
    requires forall i :: n <= i < |r| ==> r[i].Snapshot() == Initial(r[i].Spec())
    requires u.Snapshot() == Initial(u.Spec())
    ensures forall i :: n <= i < |r + [u]| ==> (r + [u])[i].Snapshot() == Initial((r + [u])[i].Spec())
  {
    forall i | n <= i < |r + [u]| ensures (r + [u])[i].Snapshot() == Initial((r + [u])[i].Spec()) {
      if i < |r| {
        assert (r + [u])[i] == r[i];
      }
    }
  }

  /** A consistent updater with instruments of its own keeps a list consistent. */
  lemma ValidAppend(r: seq<Updater>, u: Updater)
    requires UpdatersValid(r) && u.Valid()
    requires u.Instruments() !! InstrumentsOf(r)
    ensures UpdatersValid(r + [u])
  {
    var r' := r + [u];
    DisjointFromEach(r, u);
    forall i | 0 <= i < |r'| ensures r'[i].Valid() {
      if i < |r| {
        assert r'[i] == r[i];
      }
    }
  }

  /** The builder a loop calls for metric `m`, on the metric's own options. */
  method BuildFor(opts: Options, m: MetricName) returns (u: Updater)
    requires WellFormed(opts) && m in opts.enabledMetrics
    ensures u.Valid() && fresh(u.Instruments())
    ensures u.Spec() == SpecFor(opts, m)
    ensures u.Snapshot() == Initial(u.Spec())
  {
    match m
    case Timer(t) => u := BuildTimer(t, opts.labels[m], opts.buckets[m]);
    case BytesReadTotal => u := BuildBytesReadTotal(opts.labels[m]);
    case RequestsTotal => u := BuildRequestsTotal(opts.labels[m]);
    case BackendQueueLength => u := BuildQueueLength(m, opts.labels[m], opts.buckets[m]);
    case ServerQueueLength => u := BuildQueueLength(m, opts.labels[m], opts.buckets[m]);
  }

  /**
   * One iteration of a builder loop: the updater of `m` is built and appended
   * when `m` is enabled. `seen` names the instruments the list already holds.
   */
  method AppendEnabled(opts: Options, r: seq<Updater>, ghost seen: set<object>, ghost planned: seq<UpdaterSpec>,
                       m: MetricName)
    returns (r': seq<Updater>, ghost added: set<object>)
    requires WellFormed(opts) && Extends(opts, [], r, planned) && seen == InstrumentsOf(r)
    ensures Extends(opts, [], r', planned + (if m in opts.enabledMetrics then [SpecFor(opts, m)] else []))
    ensures InstrumentsOf(r') == seen + added && fresh(added)
  {
    if m !in opts.enabledMetrics {
      assert planned + [] == planned;
      return r, {};
    }
    var u := BuildFor(opts, m);
    assert u.Instruments() !! seen;
    ExtendsOne(opts, [], r, planned, u);
    r', added := r + [u], u.Instruments();
  }

  /**
   * A builder loop over `group`: appends the updaters `Planned` says, all
   * with newly allocated instruments.
   */
  method AppendGroup(opts: Options, group: seq<MetricName>) returns (r: seq<Updater>)
    requires WellFormed(opts)
    ensures Extends(opts, [], r, Planned(opts, group))
    ensures fresh(InstrumentsOf(r))
  {
    r := [];
    ghost var seen: set<object> := {};
    assert InstrumentsOf(r) == seen;
    for k := 0 to |group|
      invariant Extends(opts, [], r, Planned(opts, group[..k]))
      invariant seen == InstrumentsOf(r) && fresh(seen)
    {
      PlannedStep(opts, group, k);
      ghost var added;
      r, added := AppendEnabled(opts, r, seen, Planned(opts, group[..k]), group[k]);
      seen := seen + added;
    }
    assert group[..|group|] == group;
  }

  /** The snapshots of freshly built updaters. */
  function InitialStates(specs: seq<UpdaterSpec>): (r: seq<UpdaterState>)
    ensures |r| == |specs|
    ensures forall i :: 0 <= i < |specs| ==> r[i] == Initial(specs[i])
  {
    seq(|specs|, i requires 0 <= i < |specs| => Initial(specs[i]))
  }

  lemma SpecsChain(sa: seq<UpdaterSpec>, sb: seq<UpdaterSpec>, sc: seq<UpdaterSpec>, p1: seq<UpdaterSpec>, p2: seq<UpdaterSpec>)
    requires sb == sa + p1 && sc == sb + p2
    ensures sc == sa + (p1 + p2)
  {
  }

  /**
   * The three builder loops of `create_log_processor`, one after the other:
   * over TIMERS, the two counters and the two queue histograms, which is one
   * loop over `UpdaterOrder` (`PlannedInOrder`).
   */
  method BuildUpdaters(opts: Options) returns (us: seq<Updater>)
    requires WellFormed(opts)
    ensures Extends(opts, [], us, PlannedSpecs(opts))
    ensures fresh(InstrumentsOf(us))
  {
    us := AppendGroup(opts, UpdaterOrder);
    PlannedInOrder(opts);
  }

  /** A processor over freshly built updaters, before any line is read. */
  method NewProcessor(opts: Options, us: seq<Updater>, src: Source) returns (p: LogProcessor)
    requires WellFormed(opts) && Extends(opts, [], us, PlannedSpecs(opts))
    ensures fresh(p) && p.Valid() && p.updaters == us && p.source == src && p.processingErrors == 0
    ensures p.Specs() == PlannedSpecs(opts)
    ensures p.Snapshots() == InitialStates(PlannedSpecs(opts))
  {
    assert SpecsOf(us) == [] + PlannedSpecs(opts);
    p := new LogProcessor(us, src);
    InitialSnapshots(p, PlannedSpecs(opts));
  }

  lemma InitialSnapshots(p: LogProcessor, planned: seq<UpdaterSpec>)
    requires p.Specs() == planned
    requires forall i :: 0 <= i < |p.updaters| ==> p.updaters[i].Snapshot() == Initial(p.updaters[i].Spec())
    ensures p.Snapshots() == InitialStates(planned)
  {
  }

  /**
   * `create_log_processor(options)`: the planned updaters, freshly built,
   * behind the processor for the chosen input; `null` where the source
   * fails because no input option is set.
   */
  method CreateLogProcessor(opts: Options) returns (p: LogProcessor?)
    requires WellFormed(opts)
    ensures p == null <==> ChooseSource(opts).None?
    ensures p != null ==>
      && fresh(p) && fresh(p.Repr()) && p.Valid()
      && p.source == ChooseSource(opts).value
      && p.Specs() == PlannedSpecs(opts)
      && p.Snapshots() == InitialStates(PlannedSpecs(opts))
      && p.processingErrors == 0
  {
    var us := BuildUpdaters(opts);
    if opts.stdin {
      p := NewProcessor(opts, us, Stdin);
    } else if Given(opts.journal) {
      p := NewProcessor(opts, us, Journal(opts.journal.value));
    } else if Given(opts.file) {
      p := NewProcessor(opts, us, File(opts.file.value));
    } else if Given(opts.kafka) {
      p := NewProcessor(opts, us, Kafka(opts.kafka.value, opts.kafkaTopic, opts.kafkaGroup));
    } else {
      p := null;
    }
  }
}
