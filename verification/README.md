# HAProxy log exporter: a Dafny model of its core

prometheus-haproxy-log-exporter reads HAProxy log lines from one input, such
as a file, the systemd journal, standard input or Kafka. It parses each line
and updates Prometheus counters and histograms under the `haproxy_log`
namespace.

This project models three parts of that program:

- **The metric updaters** (`metrics.py`). Each builder creates its
  instruments and returns an `observe(line)` closure:
  - `requests_total` and `bytes_read_total` are line counters;
  - `timer` covers the five timers, with an abort counter for a `-1` value
    and a `logasap` label for the session duration;
  - `backend_queue_length` and `server_queue_length` are histograms of the
    queue depth.
- **The line dispatcher** (`log_processing.py`). `update_metrics` trims the
  raw text and strips a journal/syslog preamble (`JOURNAL_REGEX`). It trims
  again, parses the line and runs every updater in order. It counts one
  processing error for a parse exception, for an invalid line, or when an
  updater raises.
- **Start-up** (`cli.py`). This covers the option defaults and
  `create_log_processor`. That function builds the updaters of the enabled
  metrics in a fixed order and picks the processor for the input given.

Files:

- `wrappers.dfy`: `Option`.
- `haproxy_line.dfy`: the parsed-line record, the label names and the
  timer-string conversion.
- `instruments.dfy`: the client library's `Counter` and `Histogram`, as
  classes over series maps. Their value-level transitions are `Incremented`
  and `Observed`.
- `metrics.dfy`:
  - `EffectOf` and `Step` say what an updater does to a snapshot of its
    instruments;
  - the `Updater` datatype holds the closures;
  - `Updater.Apply` is proved equal to `Step`;
  - the builders are methods that allocate the instruments.
- `journal_preamble.dfy`:
  - `str.strip()`;
  - `JOURNAL_REGEX` as a token pattern, with a language (`Matches`) and a
    greedy scanner. The scanner is proved to remove exactly the longest
    matching prefix.
- `log_processing.dfy`:
  - `ProcessLine`, the value-level account of one `update_metrics` call;
  - `ProcessAll`, a stream of lines;
  - the `LogProcessor` class, whose `UpdateMetrics` method is proved
    against `ProcessLine`.
- `cli.dfy`:
  - the options and their defaults;
  - `PlannedSpecs`, the value-level account of the three builder loops;
  - `CreateLogProcessor`, which runs the loops as methods and chooses the
    source. The three loops run back to back, so the model runs one loop over
    their concatenated metric lists.
- `fixture.dfy`: the test suite's 23-line log and what its two tests expect
  of it.

Notes on the code's behaviour:

- Timer values are converted with `float`, not checked against an integer
  grammar.
- The session duration has no abort counter. A `-1` session duration is
  observed as `-1`.
- `bytes_read_total` counts lines, as `requests_total` does. It does not sum
  the bytes read.
- The label options accept a name more than once (`choices` checks each word).
  The dict the closures build then has fewer keys than the instrument has
  label names, so `labels()` rejects it and the closure raises on every line.
- Instruments are named under the `haproxy_log` namespace, for example
  `haproxy_log_requests_total`.

## Model

| member | source | states |
|---|---|---|
| Metrics.Range | prometheus_haproxy_log_exporter/metrics.py:87-90 | `range(lo, hi)` yields `hi - lo` consecutive finite bounds starting at `lo` (none when `lo >= hi`) |
| Metrics.QueueLadderExact | prometheus_haproxy_log_exporter/metrics.py:87-90 | DEFAULT_QUEUE_LENGTH_BUCKETS is exactly 0..9, 20, 30, 40, 60, 100, +Inf |
| Metrics.DefaultLaddersStrict | prometheus_haproxy_log_exporter/metrics.py:79-90 | both default ladders are strictly increasing and end in +Inf, so the histogram accepts them |
| Metrics.LabelsOfDict | prometheus_haproxy_log_exporter/metrics.py:106-109 | the dict `{label: getattr(line, label) ...}` passes `labels()` (keys, sorted, equal to the declared names, sorted) exactly when no label name repeats, and then keys the series by the line's values in configured order |
| Metrics.DistinctMultiset | prometheus_haproxy_log_exporter/metrics.py:106-109 | label names are repetition-free exactly when the dict's key set, as a multiset, equals the list of names |
| Metrics.InitialValid | prometheus_haproxy_log_exporter/metrics.py:122-128 | freshly built instruments satisfy the arity and bucket invariants of their updater |
| Metrics.EffectKeys | prometheus_haproxy_log_exporter/metrics.py:117-128 | counters are incremented with one value per label name; only histograms observe, with one more label (`logasap`) for the session duration |
| Metrics.StepPreservesValid | prometheus_haproxy_log_exporter/metrics.py:114-244 | every updater step keeps series arities and cumulative bucket counts consistent |
| Metrics.CounterAddsOne | prometheus_haproxy_log_exporter/metrics.py:93-200 | `requests_total` and `bytes_read_total` (which adds one per line, not the bytes read) raise the series keyed by the line's label values (the unlabelled series without label names) by exactly one; no other series changes. They raise exactly when a label name repeats |
| Metrics.TimerAbort | prometheus_haproxy_log_exporter/metrics.py:157-177 | a non-session timer value of -1 raises the abort counter's series by one and leaves the histogram unchanged; the closure raises instead exactly when a label name repeats |
| Metrics.TimerObserve | prometheus_haproxy_log_exporter/metrics.py:157-177 | any other converted value is observed in the histogram series keyed by the label values (count +1, sum +v); the abort counter is unchanged; the closure raises instead exactly when a label name repeats |
| Metrics.TimerRaises | prometheus_haproxy_log_exporter/metrics.py:130-177 | a timer attribute that `float` rejects makes every timer's closure raise |
| Metrics.SessionObserve | prometheus_haproxy_log_exporter/metrics.py:130-146 | the session duration observes exactly when its value converts and no label name repeats. The key is the label values plus `logasap`, which is "True" iff the raw value starts with '+'. The '+' is dropped before conversion. There is no abort counter |
| Metrics.QueueObserve | prometheus_haproxy_log_exporter/metrics.py:203-244 | `backend_queue_length` observes `queue_backend` (and `server_queue_length` `queue_server`) unchanged in the series of the label values; it raises exactly when a label name repeats |
| Metrics.Updater.ValidSnapshot | prometheus_haproxy_log_exporter/metrics.py:122-155 | the instruments a closure holds satisfy its configuration's invariants |
| Metrics.Updater.Apply | prometheus_haproxy_log_exporter/metrics.py:93-244 | calling a closure changes its instruments exactly as `Step` says; it reports a raise exactly when `Step` has none, and then nothing changed |
| Metrics.StepCounter | prometheus_haproxy_log_exporter/metrics.py:101-109 | a counter step is an increment of the label-value series, or a raise when a label name repeats |
| Metrics.StepAbortableTimer | prometheus_haproxy_log_exporter/metrics.py:157-177 | an abortable timer step raises (value does not convert, or a label name repeats), increments the abort counter, or observes, by the converted value |
| Metrics.StepSessionTimer | prometheus_haproxy_log_exporter/metrics.py:131-146 | a session timer step raises (value does not convert, or a label name repeats) or observes under the `logasap`-extended key |
| Metrics.StepQueue | prometheus_haproxy_log_exporter/metrics.py:212-242 | a queue step observes the queue depth, or raises when a label name repeats |
| Metrics.ApplyCounter | prometheus_haproxy_log_exporter/metrics.py:101-109 | the counter closure increments the series of the label values; it raises, with nothing changed, exactly when a label name repeats |
| Metrics.ApplyAbortableTimer | prometheus_haproxy_log_exporter/metrics.py:157-177 | the abortable timer closure: conversion failure or a repeated label name raises with nothing changed, -1 increments the abort counter, anything else is observed |
| Metrics.ApplySessionTimer | prometheus_haproxy_log_exporter/metrics.py:131-146 | the session closure strips a leading '+', sets `logasap` accordingly and observes, or raises with nothing changed when the value does not convert or a label name repeats |
| Metrics.ApplyQueue | prometheus_haproxy_log_exporter/metrics.py:212-242 | the queue closure observes the backend or server queue depth; it raises, with nothing changed, exactly when a label name repeats |
| Metrics.BuildRequestsTotal | prometheus_haproxy_log_exporter/metrics.py:93-111 | builds a fresh `haproxy_log_requests_total` counter over the label names; an unlabelled counter starts with its single series at 0 |
| Metrics.BuildBytesReadTotal | prometheus_haproxy_log_exporter/metrics.py:182-200 | builds a fresh `bytes_read_total` counter, as for requests |
| Metrics.BuildTimer | prometheus_haproxy_log_exporter/metrics.py:114-179 | builds the timer's fresh instruments under its configuration |
| Metrics.BuildSessionTimer | prometheus_haproxy_log_exporter/metrics.py:117-146 | the session duration gets one histogram whose label names end in `logasap`, and no abort counter |
| Metrics.BuildAbortableTimer | prometheus_haproxy_log_exporter/metrics.py:122-177 | the other timers get a histogram and the paired abort counter of TIMER_ABORT_COUNTERS, both over the same label names |
| Metrics.InitialAbortable | prometheus_haproxy_log_exporter/metrics.py:148-164 | an unlabelled abortable timer starts with an empty series in both instruments, a labelled one with none |
| Metrics.BuildQueueLength | prometheus_haproxy_log_exporter/metrics.py:203-244 | builds a fresh queue-depth histogram under the metric's name, label names and ladder |
| Instruments.StrictIsAccepted | prometheus_haproxy_log_exporter/metrics.py:79-90 | a strictly increasing ladder of at least two bounds ending in +Inf is sorted, as the histogram requires |
| Instruments.EmptySeriesValid | prometheus_haproxy_log_exporter/metrics.py:122-128 | a new histogram series satisfies the bucket invariants |
| Instruments.RecordPreservesValid | prometheus_haproxy_log_exporter/metrics.py:164 | an observation keeps cumulative bucket counts non-decreasing along the ladder and the +Inf bucket equal to the count |
| Instruments.RecordReachesLastBucket | prometheus_haproxy_log_exporter/metrics.py:83 | any value, however large, lands in the +Inf bucket |
| Instruments.Record | prometheus_haproxy_log_exporter/metrics.py:164 | an observation adds one to the count, `v` to the sum, and one to exactly the buckets whose bound `v` falls within |
| Instruments.Incremented | prometheus_haproxy_log_exporter/metrics.py:104-109 | `labels(...).inc()` creates the series if needed, raises it by one and changes no other series |
| Instruments.Observed | prometheus_haproxy_log_exporter/metrics.py:165-177 | `labels(...).observe(v)` creates the series if needed, records `v` in it and changes no other series |
| Instruments.ObservedSeriesOf | prometheus_haproxy_log_exporter/metrics.py:146 | after an observation, a series' count and sum rise by 1 and `v` exactly when it is the observed key |
| Instruments.ObservedPreservesValid | prometheus_haproxy_log_exporter/metrics.py:165-177 | observations keep every series of a histogram valid |
| Instruments.Counter.constructor | prometheus_haproxy_log_exporter/metrics.py:94-99 | a new counter has its name and label names; an unlabelled one has its single series at 0 |
| Instruments.Counter.Inc | prometheus_haproxy_log_exporter/metrics.py:101-103 | `inc()` updates the series map as `Incremented` |
| Instruments.Histogram.constructor | prometheus_haproxy_log_exporter/metrics.py:122-128 | a new histogram over an accepted ladder (sorted, ending in +Inf, at least two buckets); an unlabelled one has its single empty series |
| Instruments.Histogram.Observe | prometheus_haproxy_log_exporter/metrics.py:157-164 | `observe(v)` updates the series map as `Observed` and keeps the histogram valid |
| HaproxyLine.LabelValues | prometheus_haproxy_log_exporter/metrics.py:106-109 | the series key has one value per configured label name, each the line's attribute of that name, in configured order (the key `labels()` derives from the dict when no name repeats; see `Metrics.LabelsOfDict`) |
| HaproxyLine.LabelFromName | prometheus_haproxy_log_exporter/metrics.py:66-75 | a string is accepted as a label exactly when it is the name of one of REQUEST_LABELS |
| HaproxyLine.LabelNameRoundTrip | prometheus_haproxy_log_exporter/cli.py:149-162 | every REQUEST_LABELS name passes the `choices` check and maps back to itself |
| HaproxyLine.ParseMillis | prometheus_haproxy_log_exporter/metrics.py:159 | conversion succeeds exactly on an optionally signed non-empty digit string; the sign decides the sign of the value |
| HaproxyLine.ParseNumeral | prometheus_haproxy_log_exporter/metrics.py:159-161 | converting the decimal text of any value, including -1, gives back that value |
| HaproxyLine.ParsePlus | prometheus_haproxy_log_exporter/metrics.py:139-144 | a leading '+' does not change the converted value |
| JournalPreamble.Scan | prometheus_haproxy_log_exporter/log_processing.py:23-30 | the greedy scan of the pattern matches a prefix of the text, if any |
| JournalPreamble.ScanSound | prometheus_haproxy_log_exporter/log_processing.py:23-30 | what the scanner matches is in the regular expression's language |
| JournalPreamble.ScanComplete | prometheus_haproxy_log_exporter/log_processing.py:23-30 | on a separated pattern the scanner finds every matching prefix: it matches at least as much, and exactly that much when the last run cannot continue |
| JournalPreamble.ScanLongest | prometheus_haproxy_log_exporter/log_processing.py:23-30 | the scanner returns the longest matching prefix, and fails only when no prefix matches |
| JournalPreamble.JournalPatternSeparated | prometheus_haproxy_log_exporter/log_processing.py:23-30 | in JOURNAL_REGEX no run's class contains a character that can start the next token |
| JournalPreamble.StripPrefixSpec | prometheus_haproxy_log_exporter/log_processing.py:47 | substitution by '' at the start removes the longest match and leaves unmatched text unchanged |
| JournalPreamble.JournalStripSpec | prometheus_haproxy_log_exporter/log_processing.py:23-30 | `JOURNAL_REGEX.sub('', s)` yields a suffix of `s`; it removes the longest preamble prefix when there is one, and nothing otherwise |
| JournalPreamble.WellFormedFields | prometheus_haproxy_log_exporter/log_processing.py:24-29 | a preamble fits the pattern exactly when month, day, time fields, host, tag and pid are runs of their classes and the separators are whitespace |
| JournalPreamble.PreambleMatches | prometheus_haproxy_log_exporter/log_processing.py:23-30 | every well-formed preamble is in the pattern's language |
| JournalPreamble.StripPreamble | prometheus_haproxy_log_exporter/log_processing.py:47 | a preamble followed by text that does not start with whitespace loses exactly the preamble |
| JournalPreamble.StripOnlyOnce | prometheus_haproxy_log_exporter/log_processing.py:25 | the pattern is anchored with `\A`: of two preambles in a row only the first is removed |
| JournalPreamble.Trim | prometheus_haproxy_log_exporter/log_processing.py:47-48 | `strip()` returns a middle slice of its input with only whitespace (Python's whitespace set, `str.isspace`) cut off either end, and neither end of the result is whitespace |
| JournalPreamble.TrimTrimmed | prometheus_haproxy_log_exporter/log_processing.py:48 | stripping text without outer whitespace changes nothing |
| LogProcessing.ParserInput | prometheus_haproxy_log_exporter/log_processing.py:47-48 | the text handed to the parser never starts or ends with whitespace |
| LogProcessing.FirstFailure | prometheus_haproxy_log_exporter/log_processing.py:59-64 | the index of the first updater that raises: none before it raises, and it does unless it is past the end |
| LogProcessing.StepsUnlessRaises | prometheus_haproxy_log_exporter/log_processing.py:59-64 | an updater steps exactly when it does not raise |
| LogProcessing.ProcessParsed | prometheus_haproxy_log_exporter/log_processing.py:46-64 | one line keeps one snapshot per updater and adds at most one processing error |
| LogProcessing.RejectedLine | prometheus_haproxy_log_exporter/log_processing.py:46-57 | a parse exception or an invalid line counts exactly one error and runs no updater |
| LogProcessing.AcceptedLine | prometheus_haproxy_log_exporter/log_processing.py:59-61 | a valid line no updater raises on steps every updater once and counts no error |
| LogProcessing.RaisingUpdater | prometheus_haproxy_log_exporter/log_processing.py:59-64 | when updater k raises first, updaters before k have stepped, k and later are untouched, and one error is counted |
| LogProcessing.ProcessParsedValid | prometheus_haproxy_log_exporter/log_processing.py:45-64 | dispatching a line keeps every snapshot consistent with its updater |
| LogProcessing.ProcessAll | prometheus_haproxy_log_exporter/log_processing.py:45-64 | a stream of lines counts at most one error per line |
| LogProcessing.ProcessAllValid | prometheus_haproxy_log_exporter/log_processing.py:45-64 | consistency holds after any number of lines |
| LogProcessing.SingleUpdaterLine | prometheus_haproxy_log_exporter/log_processing.py:45-64 | with one updater a line either steps it or counts one error, never both |
| LogProcessing.CountingUpdaterLine | prometheus_haproxy_log_exporter/log_processing.py:45-64 | an unlabelled line counter as only updater counts a line iff it parsed valid, else one error |
| LogProcessing.CountingUpdater | prometheus_haproxy_log_exporter/log_processing.py:45-64 | over a stream, such a counter rises by the number of valid lines and the errors are all the other lines |
| LogProcessing.SessionTimerLine | prometheus_haproxy_log_exporter/metrics.py:130-146 | a session timer alone: per key, count and sum change by exactly what the line records under that key |
| LogProcessing.SessionTally | prometheus_haproxy_log_exporter/metrics.py:130-146 | over a stream, per key, the session histogram's count and sum rise by the number and total of durations recorded under the key |
| LogProcessing.LogProcessor.constructor | prometheus_haproxy_log_exporter/log_processing.py:34-43 | a processor holds its updaters and source, with the error counter at 0 |
| LogProcessing.LogProcessor.ApplyAt | prometheus_haproxy_log_exporter/log_processing.py:60-61 | calling one updater steps it and leaves every other updater's instruments unchanged |
| LogProcessing.LogProcessor.ValidStates | prometheus_haproxy_log_exporter/log_processing.py:37 | the instrument snapshots of a valid processor fit their updaters |
| LogProcessing.LogProcessor.RunAll | prometheus_haproxy_log_exporter/log_processing.py:59-64 | the loop leaves the instruments as `RunUpdaters` says, stopping at the first raise, and reports whether one raised |
| LogProcessing.LogProcessor.CountError | prometheus_haproxy_log_exporter/log_processing.py:50 | `processing_errors.inc()` adds one and touches no instrument |
| LogProcessing.LogProcessor.Dispatch | prometheus_haproxy_log_exporter/log_processing.py:46-61 | parse the cleaned-up text and run the updaters, as `ProcessLine` says |
| LogProcessing.LogProcessor.UpdateMetrics | prometheus_haproxy_log_exporter/log_processing.py:45-64 | `update_metrics` changes the instruments exactly as `ProcessLine` and raises `processing_errors_total` by its error count |
| Cli.TimerMetricsAreTimers | prometheus_haproxy_log_exporter/cli.py:211 | the timer loop visits the five timers in TIMERS order |
| Cli.Rank | prometheus_haproxy_log_exporter/cli.py:208-243 | every metric has a position in the fixed builder order |
| Cli.EveryMetricListed | prometheus_haproxy_log_exporter/cli.py:124-147 | every metric is a choice of `--enabled-metrics` and has a builder |
| Cli.MetricFromName | prometheus_haproxy_log_exporter/cli.py:136-144 | a string is accepted by `--enabled-metrics` exactly when it names a metric |
| Cli.MetricNameRoundTrip | prometheus_haproxy_log_exporter/cli.py:136-144 | every metric name is accepted and maps back to its metric |
| Cli.NameLength | prometheus_haproxy_log_exporter/cli.py:136-144 | the length of each of the nine metric names; no two lengths are equal |
| Cli.NamesDistinct | prometheus_haproxy_log_exporter/cli.py:136-144 | two different metrics never share a name |
| Cli.JournalArgument | prometheus_haproxy_log_exporter/cli.py:86-95 | `--journal` is unset when absent, `haproxy.service` when given bare, the unit otherwise |
| Cli.DefaultLabels | prometheus_haproxy_log_exporter/cli.py:149-203 | the counters default to three label names, every other metric to none, and no default repeats a name, so no default closure rejects its dict |
| Cli.DefaultsWellFormed | prometheus_haproxy_log_exporter/cli.py:124-203 | the defaults give every metric labels and every histogram a ladder, each one the client library accepts |
| Cli.SpecFor | prometheus_haproxy_log_exporter/cli.py:215-216 | each updater is configured from its own metric's labels and buckets options; the ladder of an enabled histogram is one the client library accepts |
| Cli.Planned | prometheus_haproxy_log_exporter/cli.py:211-243 | a builder loop builds at most one updater per metric of its group |
| Cli.PlannedStep | prometheus_haproxy_log_exporter/cli.py:212-220 | one loop iteration appends the metric's updater when enabled, and skips it otherwise |
| Cli.PlannedAppend | prometheus_haproxy_log_exporter/cli.py:211-243 | two loops in a row build what one loop over both groups builds |
| Cli.PlannedInOrder | prometheus_haproxy_log_exporter/cli.py:208-243 | the three loops build what one loop over timers, counters, queues builds |
| Cli.PlannedSorted | prometheus_haproxy_log_exporter/cli.py:211-243 | a loop builds only enabled metrics of its group, each from its own options, in group order |
| Cli.PlannedComplete | prometheus_haproxy_log_exporter/cli.py:211-243 | a loop builds every enabled metric of its group |
| Cli.UpdaterOrderOrdered | prometheus_haproxy_log_exporter/cli.py:208-243 | timers, then bytes_read/requests, then backend/server queue is a strict order |
| Cli.EnabledExactlyOnce | prometheus_haproxy_log_exporter/cli.py:208-243 | there is an updater for a metric iff it is enabled, exactly one however often it is listed, in the fixed order, each from its own options |
| Cli.DisabledLadderIgnored | prometheus_haproxy_log_exporter/cli.py:211-243 | the buckets option of a histogram that is not enabled is never read: whatever ladder it holds, the options are acceptable and the same updaters are built |
| Cli.PlannedIgnores | prometheus_haproxy_log_exporter/cli.py:211-243 | a builder loop builds the same updaters for options that differ only in the ladder of a disabled histogram |
| Cli.PlannedNone | prometheus_haproxy_log_exporter/cli.py:211-243 | a builder loop over metrics none of which is enabled builds nothing |
| Cli.RequestsTotalOnly | prometheus_haproxy_log_exporter/cli.py:208-243 | with `--enabled-metrics requests_total` only the requests counter is built |
| Cli.UnsortedDisabledLadder | prometheus_haproxy_log_exporter/cli.py:208-243 | `--enabled-metrics requests_total --backend-queue-length-buckets 10 5` is accepted and builds only the requests counter, although that ladder is unsorted |
| Cli.DefaultsPlanAll | prometheus_haproxy_log_exporter/cli.py:124-203 | with the defaults all nine updaters are built, in order, with default labels and ladders |
| Cli.PlannedAllEnabled | prometheus_haproxy_log_exporter/cli.py:211-243 | with every metric enabled a loop builds its whole group, in order |
| Cli.SourceOfOneOption | prometheus_haproxy_log_exporter/cli.py:245-271 | with exactly one input option set (the mutually exclusive group) the processor reads that input; none is chosen iff no option is set |
| Cli.BareJournalFlag | prometheus_haproxy_log_exporter/cli.py:86-95 | a bare `-j` reads the `haproxy.service` unit |
| Cli.BuildFor | prometheus_haproxy_log_exporter/cli.py:209-241 | each loop's builder call makes a consistent updater with newly allocated instruments at their initial state, configured from the metric's own labels and buckets options |
| Cli.AppendEnabled | prometheus_haproxy_log_exporter/cli.py:209-241 | one loop iteration appends the metric's updater when it is enabled and nothing otherwise; the instruments it adds are newly allocated |
| Cli.AppendGroup | prometheus_haproxy_log_exporter/cli.py:209-241 | a builder loop appends valid updaters at their initial state exactly for the planned metrics of its group, in order; all their instruments are newly allocated |
| Cli.ExtendsOne | prometheus_haproxy_log_exporter/cli.py:216-218 | appending a consistent updater at its initial state, whose instruments no updater of the list holds, keeps the list consistent and extends its configurations by one |
| Cli.BuildUpdaters | prometheus_haproxy_log_exporter/cli.py:207-241 | the three loops, run back to back, build consistent updaters whose configurations are `PlannedSpecs`; all their instruments are newly allocated |
| Cli.InitialStates | prometheus_haproxy_log_exporter/cli.py:209-243 | the snapshots of freshly built updaters, one per configuration |
| Cli.NewProcessor | prometheus_haproxy_log_exporter/cli.py:245-271 | a processor over exactly the built updaters, with no line seen and no error counted |
| Cli.CreateLogProcessor | prometheus_haproxy_log_exporter/cli.py:208-273 | returns a processor iff an input is chosen. It reads from the chosen source over the planned updaters, whose instruments are all newly allocated, with no line seen and no error counted |
| Fixture.LogTally | tests/conftest.py:5-29 | the 23-line log has 13 valid lines: 11 cache requests of 19 ms in all and 2 statistics requests of 0 ms |
| Fixture.SessionTimerCounts | tests/test_metrics.py:22-27 | a session timer labelled by frontend and backend, fed a log, counts each backend's requests and durations as the log's tallies say |
| Fixture.TimerTest | tests/test_metrics.py:11-31 | on the test log the session timer records count 11 and sum 19 for the cache backend, count 2 and sum 0 for statistics |
| Fixture.FollowTest | tests/test_file_processor.py:17-33 | on the test log a single line counter sees 13 lines and the other 10 are processing errors |
| Fixture.FirstPreambleStripped | tests/conftest.py:6 | the first log line's preamble is one JOURNAL_REGEX matches, and stripping it leaves the HAProxy text |

## Left out

- The HAProxy log parser (`haproxy.line.Line`, an external package) is not
  part of this model. `update_metrics` takes it as a parameter `parse`. The
  test log appears as the records it yields: for the 23 lines, the 10
  TCP-mode lines are invalid.
- HaproxyLine.ParseMillis: timer values are `float` in the source. The model
  converts them to integer milliseconds: an optional sign and ASCII decimal
  digits. Fractions, exponents, `inf`/`nan`, surrounding whitespace,
  `_`-grouped digits and non-ASCII digits, all of which `float` also accepts,
  count as conversion errors.
- Queue depths are integers on the record. The parser's conversion of them is
  not modelled.
- `\w` and `\d` in JOURNAL_REGEX are modelled on ASCII: Unicode letters and
  digits are not. `\s` and `str.strip()` use Python's whitespace set.
- The client library's internals are reduced to series maps:
  - the client API assumed is the older prometheus_client one that the code
    and tests/test_metrics.py are written against. In that API, `labels()`
    takes one dict as its only positional argument and raises unless the
    dict's sorted keys equal the sorted label names. Samples are
    (name, labels, value) triples, as the test reads them. Newer releases
    take label values or keyword arguments instead, and the model does not
    follow them;
  - label dictionaries are checked as that `labels()` checks them
    (`LabelsOf`), then become value lists in label-name order;
  - there is no registry, so duplicate registration is not modelled;
  - exposition and the `_created` samples are not modelled.
- Instruments.Histogram.constructor: the client library's own checks on the
  ladder are a precondition. The library appends +Inf when it is missing,
  then rejects unsorted ladders and ladders of fewer than two buckets. The
  model requires a ladder as it stands after that: sorted, ending in +Inf,
  at least two buckets. A ladder without +Inf is not taken as input. Only
  the ladders of enabled histograms are held to this; the ladder of a
  disabled histogram can be anything, as `Cli.DisabledLadderIgnored` shows.
- Bucket and label options given as strings on the command line, and their
  conversion, are not modelled. The argument parser is reduced to the option
  defaults, the `--enabled-metrics` and label `choices`, and `--journal`'s
  constant. Environment variables and configuration files are not modelled.
- `create_log_processor` with no input option set fails on an unbound
  `log_processor`. The model returns `null`. The argument parser's
  mutually exclusive, required group prevents this case.
- The input processors' `run` loops are threads reading a file, the journal,
  standard input or Kafka. Like `main`, the HTTP exposition server and
  logging, they are I/O and are not part of this model. The processor keeps
  only which source it was built for.
- `processing_errors_total` is a plain counter field of the processor, not a
  client-library counter.
- Concurrency is not modelled: the processor thread and the exposition
  thread read and update the same instruments.
