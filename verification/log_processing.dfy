/**
 * The line dispatcher (`AbstractLogProcessor.update_metrics`): trim, strip
 * the journal preamble, trim again, parse, and run every updater in order
 * until one raises. Parse failures, invalid lines and a raising updater each
 * add one to `processing_errors_total`; nothing reaches the caller.
 *
 * `ProcessLine` is the value-level specification of one call; the method
 * `LogProcessor.UpdateMetrics` is proved to agree with it.
 */
module LogProcessing {
  import opened Wrappers
  import opened HaproxyLine
  import opened Instruments
  import opened Metrics
  import opened JournalPreamble

  /** What the external parser does with a text: raise, or yield a record. */
  datatype ParseResult = Raised | Parsed(line: LogLine)

  /**
   * The text handed to the parser: trimmed, stripped of a preamble, trimmed
   * again. It never starts or ends with whitespace.
   */
  function ParserInput(raw: string): (r: string)
    ensures Trimmed(r)
  {
    Trim(JournalStrip(Trim(raw)))
  }

  /** The updater raises on this line. */
  predicate Raises(spec: UpdaterSpec, line: LogLine) {
    EffectOf(spec.metric, spec.labelnames, line).None?
  }

  /** The position of the first updater that raises, or the number of updaters. */
  function FirstFailure(specs: seq<UpdaterSpec>, line: LogLine): (k: nat)
    ensures k <= |specs|
    ensures forall i :: 0 <= i < k ==> !Raises(specs[i], line)
    ensures k < |specs| ==> Raises(specs[k], line)
  {
    if specs == [] then 0
    else if Raises(specs[0], line) then 0
    else 1 + FirstFailure(specs[1..], line)
  }

  ghost predicate StatesFit(specs: seq<UpdaterSpec>, states: seq<UpdaterState>) {
    |specs| == |states| && forall i :: 0 <= i < |specs| ==> Fits(specs[i].bounds, states[i])
  }

  /** The snapshots after a line, and how much `processing_errors_total` rose. */
  datatype LineOutcome = LineOutcome(states: seq<UpdaterState>, errors: nat)

  /** An updater steps exactly when it does not raise. */
  lemma StepsUnlessRaises(spec: UpdaterSpec, st: UpdaterState, line: LogLine)
    requires Fits(spec.bounds, st)
    ensures Step(spec, st, line).Some? <==> !Raises(spec, line)
  {
  }

  /** The first `n` updaters have stepped on `line`; the others are untouched. */
  function StepFirst(specs: seq<UpdaterSpec>, states: seq<UpdaterState>, line: LogLine, n: nat): (r: seq<UpdaterState>)
    requires StatesFit(specs, states) && n <= |specs|
    requires forall i :: 0 <= i < n ==> !Raises(specs[i], line)
    ensures |r| == |states|
  {
    seq(|states|, i requires 0 <= i < |states| =>
      if i < n then StepsUnlessRaises(specs[i], states[i], line); Step(specs[i], states[i], line).value
      else states[i])
  }

  /**
   * The updater loop inside its try block: every updater before the first
   * one that raises has stepped, the rest are untouched, and a raise counts
   * one error.
   */
  function RunUpdaters(specs: seq<UpdaterSpec>, states: seq<UpdaterState>, line: LogLine): (r: LineOutcome)
    requires StatesFit(specs, states)
    ensures |r.states| == |states|
  {
    var k := FirstFailure(specs, line);
    LineOutcome(StepFirst(specs, states, line, k), if k < |specs| then 1 else 0)
  }

  /** Everything after the parse: an exception or an invalid line counts one error. */
  function ProcessParsed(specs: seq<UpdaterSpec>, states: seq<UpdaterState>, parsed: ParseResult): (r: LineOutcome)
    requires StatesFit(specs, states)
    ensures |r.states| == |states|
    ensures r.errors <= 1
  {
    match parsed
    case Raised => LineOutcome(states, 1)
    case Parsed(line) =>
      if !line.valid then LineOutcome(states, 1) else RunUpdaters(specs, states, line)
  }

  /** `update_metrics(raw_line)` on snapshots, with the parser as a parameter. */
  function ProcessLine(specs: seq<UpdaterSpec>, states: seq<UpdaterState>, raw: string,
                       parse: string -> ParseResult): (r: LineOutcome)
    requires StatesFit(specs, states)
    ensures |r.states| == |states|
  {
    ProcessParsed(specs, states, parse(ParserInput(raw)))
  }

  // ---------------------------------------------------------------------
  // Properties of one line
  // ---------------------------------------------------------------------

  /** A parse failure or an invalid line counts one error and runs no updater. */
  lemma RejectedLine(specs: seq<UpdaterSpec>, states: seq<UpdaterState>, parsed: ParseResult)
    requires StatesFit(specs, states)
    requires parsed.Raised? || !parsed.line.valid
    ensures ProcessParsed(specs, states, parsed) == LineOutcome(states, 1)
  {
  }

  /**
   * A valid line that no updater raises on steps every updater exactly once,
   * in list order, and leaves the error count alone.
   */
  lemma AcceptedLine(specs: seq<UpdaterSpec>, states: seq<UpdaterState>, line: LogLine)
    requires StatesFit(specs, states) && line.valid
    requires forall i :: 0 <= i < |specs| ==> !Raises(specs[i], line)
    ensures var r := ProcessParsed(specs, states, Parsed(line));
      && r.errors == 0
      && forall i :: 0 <= i < |states| ==>
           Step(specs[i], states[i], line).Some? && r.states[i] == Step(specs[i], states[i], line).value
  {
    assert FirstFailure(specs, line) == |specs|;
  }

  /**
   * When updater `k` raises on a valid line and none before it does, the
   * updaters before it have stepped, it and the ones after it are skipped,
   * and exactly one error is counted.
   */
  lemma RaisingUpdater(specs: seq<UpdaterSpec>, states: seq<UpdaterState>, line: LogLine, k: nat)
    requires StatesFit(specs, states) && line.valid
    requires k < |specs| && Raises(specs[k], line)
    requires forall i :: 0 <= i < k ==> !Raises(specs[i], line)
    ensures var r := ProcessParsed(specs, states, Parsed(line));
      && r.errors == 1
      && (forall i :: 0 <= i < k ==> r.states[i] == Step(specs[i], states[i], line).value)
      && (forall i :: k <= i < |states| ==> r.states[i] == states[i])
  {
    assert FirstFailure(specs, line) == k;
  }

  // ---------------------------------------------------------------------
  // A stream of lines
  // ---------------------------------------------------------------------

  /** Every snapshot is consistent with its updater's configuration. */
  ghost predicate AllValid(specs: seq<UpdaterSpec>, states: seq<UpdaterState>) {
    |specs| == |states| && forall i :: 0 <= i < |specs| ==> StateValid(specs[i], states[i])
  }

  /** Consistent snapshots fit their ladders. */
  lemma ValidStatesFit(specs: seq<UpdaterSpec>, states: seq<UpdaterState>)
    requires AllValid(specs, states)
    ensures StatesFit(specs, states)
  {
    forall i | 0 <= i < |specs| ensures Fits(specs[i].bounds, states[i]) {
      StepPreservesValid(specs[i], states[i], LogLine(false, "", "", "", "", "", "", "", "", "", "", "", "", "", 0, 0));
    }
  }

  /** Dispatching a line keeps every snapshot consistent with its updater. */
  lemma ProcessParsedValid(specs: seq<UpdaterSpec>, states: seq<UpdaterState>, parsed: ParseResult)
    requires AllValid(specs, states)
    ensures StatesFit(specs, states)
    ensures AllValid(specs, ProcessParsed(specs, states, parsed).states)
  {
    ValidStatesFit(specs, states);
    forall i | 0 <= i < |specs| ensures StateValid(specs[i], ProcessParsed(specs, states, parsed).states[i]) {
      if parsed.Parsed? {
        StepPreservesValid(specs[i], states[i], parsed.line);
      }
    }
  }

  /**
   * Dispatching a sequence of parse results, one after the other. Snapshots
   * that do not fit their ladders cannot arise from consistent ones
   * (`ProcessAllValid`); the guard only keeps the definition total.
   */
  ghost function ProcessAll(specs: seq<UpdaterSpec>, states: seq<UpdaterState>, parsed: seq<ParseResult>): (r: LineOutcome)
    ensures |r.states| == |states|
    ensures r.errors <= |parsed|
    decreases |parsed|
  {
    if parsed == [] || !StatesFit(specs, states) then LineOutcome(states, 0)
    else
      var first := ProcessParsed(specs, states, parsed[0]);
      var rest := ProcessAll(specs, first.states, parsed[1..]);
      LineOutcome(rest.states, first.errors + rest.errors)
  }

  /** Consistent snapshots stay consistent however many lines are dispatched. */
  lemma {:induction false} ProcessAllValid(specs: seq<UpdaterSpec>, states: seq<UpdaterState>, parsed: seq<ParseResult>)
    requires AllValid(specs, states)
    ensures AllValid(specs, ProcessAll(specs, states, parsed).states)
    decreases |parsed|
  {
    if parsed != [] {
      ProcessParsedValid(specs, states, parsed[0]);
      ProcessAllValid(specs, ProcessParsed(specs, states, parsed[0]).states, parsed[1..]);
    }
  }

  /** The parse results that reach the updaters: valid records. */
  function ValidCount(parsed: seq<ParseResult>): nat {
    if parsed == [] then 0
    else (if parsed[0].Parsed? && parsed[0].line.valid then 1 else 0) + ValidCount(parsed[1..])
  }

  /** With a single updater, a line either steps it or counts one error. */
  lemma SingleUpdaterLine(spec: UpdaterSpec, st: UpdaterState, parsed: ParseResult)
    requires Fits(spec.bounds, st)
    ensures StatesFit([spec], [st])
    ensures var stepped := parsed.Parsed? && parsed.line.valid && Step(spec, st, parsed.line).Some?;
      ProcessParsed([spec], [st], parsed) ==
        if stepped then LineOutcome([Step(spec, st, parsed.line).value], 0) else LineOutcome([st], 1)
  {
    assert StatesFit([spec], [st]);
    if parsed.Parsed? && parsed.line.valid {
      StepsUnlessRaises(spec, st, parsed.line);
      if Step(spec, st, parsed.line).Some? {
        assert FirstFailure([spec], parsed.line) == 1;
        assert StepFirst([spec], [st], parsed.line, 1) == [Step(spec, st, parsed.line).value];
      } else {
        assert FirstFailure([spec], parsed.line) == 0;
        assert StepFirst([spec], [st], parsed.line, 0) == [st];
      }
    }
  }

  /** One line seen by a single unlabelled line counter. */
  lemma CountingUpdaterLine(m: MetricName, counted: nat, parsed: ParseResult)
    requires m.IsCounter()
    ensures var spec := UpdaterSpec(m, [], []);
      var reached := parsed.Parsed? && parsed.line.valid;
      && StatesFit([spec], [UpdaterState(map[[] := counted], map[])])
      && ProcessParsed([spec], [UpdaterState(map[[] := counted], map[])], parsed) ==
         if reached then LineOutcome([UpdaterState(map[[] := counted + 1], map[])], 0)
         else LineOutcome([UpdaterState(map[[] := counted], map[])], 1)
  {
    var spec := UpdaterSpec(m, [], []);
    var st := UpdaterState(map[[] := counted], map[]);
    assert StatesFit([spec], [st]);
    if parsed.Parsed? && parsed.line.valid {
      var line := parsed.line;
      assert LabelValues([], line) == [];
      assert FirstFailure([spec], line) == 1;
      StepCounter(m, [], st, line);
      var next := UpdaterState(map[[] := counted + 1], map[]);
      assert Incremented(st.counter, []) == next.counter;
      assert ProcessParsed([spec], [st], parsed).states[0] == next;
    }
  }

  /**
   * With a single unlabelled line counter as the only updater, the counter
   * ends up counting exactly the lines that reached the updaters, and every
   * other line is one processing error.
   */
  lemma {:induction false} CountingUpdater(m: MetricName, counted: nat, parsed: seq<ParseResult>)
    requires m.IsCounter()
    ensures var spec := UpdaterSpec(m, [], []);
      var r := ProcessAll([spec], [UpdaterState(map[[] := counted], map[])], parsed);
      && r.states == [UpdaterState(map[[] := counted + ValidCount(parsed)], map[])]
      && r.errors == |parsed| - ValidCount(parsed)
    decreases |parsed|
  {
    if parsed != [] {
      var spec := UpdaterSpec(m, [], []);
      var st := UpdaterState(map[[] := counted], map[]);
      CountingUpdaterLine(m, counted, parsed[0]);
      var first := ProcessParsed([spec], [st], parsed[0]);
      var rest := ProcessAll([spec], first.states, parsed[1..]);
      var reached := parsed[0].Parsed? && parsed[0].line.valid;
      var now := if reached then counted + 1 else counted;
      assert first.states == [UpdaterState(map[[] := now], map[])];
      assert ValidCount(parsed) == (if reached then 1 else 0) + ValidCount(parsed[1..]);
      CountingUpdater(m, now, parsed[1..]);
      assert ProcessAll([spec], [st], parsed) == LineOutcome(rest.states, first.errors + rest.errors);
      assert now + ValidCount(parsed[1..]) == counted + ValidCount(parsed);
    }
  }

  /**
   * What the session-duration timer records for one parse result: the label
   * values with `logasap` appended, and the duration; `None` when the line
   * does not reach it, its duration does not convert or a label name repeats.
   */
  function SessionObservation(labelnames: seq<LabelName>, parsed: ParseResult): Option<(seq<string>, int)> {
    if parsed.Raised? || !parsed.line.valid || !Distinct(labelnames) then None
    else
      var raw := parsed.line.totalTime;
      var logasap := |raw| > 0 && raw[0] == '+';
      match ParseMillis(if logasap then raw[1..] else raw)
      case None => None
      case Some(v) => Some((LabelValues(labelnames, parsed.line) + [if logasap then "True" else "False"], v))
  }

  /** How many of the lines the session timer records under `key`. */
  function KeyCount(labelnames: seq<LabelName>, parsed: seq<ParseResult>, key: seq<string>): nat
    decreases |parsed|
  {
    if parsed == [] then 0
    else
      var o := SessionObservation(labelnames, parsed[0]);
      (if o.Some? && o.value.0 == key then 1 else 0) + KeyCount(labelnames, parsed[1..], key)
  }

  /** The sum of the durations the session timer records under `key`. */
  function KeySum(labelnames: seq<LabelName>, parsed: seq<ParseResult>, key: seq<string>): int
    decreases |parsed|
  {
    if parsed == [] then 0
    else
      var o := SessionObservation(labelnames, parsed[0]);
      (if o.Some? && o.value.0 == key then o.value.1 else 0) + KeySum(labelnames, parsed[1..], key)
  }

  /** One line seen by the session-duration timer alone. */
  lemma SessionTimerLine(labelnames: seq<LabelName>, bounds: seq<Bound>, st: UpdaterState, parsed: ParseResult)
    requires StateValid(UpdaterSpec(Timer(SessionDuration), labelnames, bounds), st)
    ensures StatesFit([UpdaterSpec(Timer(SessionDuration), labelnames, bounds)], [st])
    ensures forall key ::
      var o := SessionObservation(labelnames, parsed);
      var after := ProcessParsed([UpdaterSpec(Timer(SessionDuration), labelnames, bounds)], [st], parsed).states[0];
      && SeriesOf(after.histogram, bounds, key).count ==
           SeriesOf(st.histogram, bounds, key).count + (if o.Some? && o.value.0 == key then 1 else 0)
      && SeriesOf(after.histogram, bounds, key).sum ==
           SeriesOf(st.histogram, bounds, key).sum + (if o.Some? && o.value.0 == key then o.value.1 else 0)
  {
    var spec := UpdaterSpec(Timer(SessionDuration), labelnames, bounds);
    StepPreservesValid(spec, st, LogLine(false, "", "", "", "", "", "", "", "", "", "", "", "", "", 0, 0));
    SingleUpdaterLine(spec, st, parsed);
    var after := ProcessParsed([spec], [st], parsed).states[0];
    var o := SessionObservation(labelnames, parsed);
    if parsed.Parsed? && parsed.line.valid {
      SessionObserve(labelnames, bounds, st, parsed.line);
    }
    if parsed.Parsed? && parsed.line.valid && Step(spec, st, parsed.line).Some? {
      assert o.Some? && after.histogram == Observed(st.histogram, bounds, o.value.0, o.value.1);
      forall key ensures
        && SeriesOf(after.histogram, bounds, key).count == SeriesOf(st.histogram, bounds, key).count + (if key == o.value.0 then 1 else 0)
        && SeriesOf(after.histogram, bounds, key).sum == SeriesOf(st.histogram, bounds, key).sum + (if key == o.value.0 then o.value.1 else 0)
      {
        ObservedSeriesOf(st.histogram, bounds, o.value.0, o.value.1, key);
      }
    } else {
      assert o.None? && after == st;
    }
  }

  /**
   * The session-duration timer as the only updater: for every label key, the
   * histogram's count rises by the number of lines recorded under that key
   * and its sum by their durations.
   */
  lemma {:induction false} SessionTally(labelnames: seq<LabelName>, bounds: seq<Bound>, st: UpdaterState, parsed: seq<ParseResult>)
    requires StateValid(UpdaterSpec(Timer(SessionDuration), labelnames, bounds), st)
    ensures forall key ::
      && SeriesOf(ProcessAll([UpdaterSpec(Timer(SessionDuration), labelnames, bounds)], [st], parsed).states[0].histogram, bounds, key).count ==
           SeriesOf(st.histogram, bounds, key).count + KeyCount(labelnames, parsed, key)
      && SeriesOf(ProcessAll([UpdaterSpec(Timer(SessionDuration), labelnames, bounds)], [st], parsed).states[0].histogram, bounds, key).sum ==
           SeriesOf(st.histogram, bounds, key).sum + KeySum(labelnames, parsed, key)
    decreases |parsed|
  {
    if parsed != [] {
      var spec := UpdaterSpec(Timer(SessionDuration), labelnames, bounds);
      SessionTimerLine(labelnames, bounds, st, parsed[0]);
      ProcessParsedValid([spec], [st], parsed[0]);
      var first := ProcessParsed([spec], [st], parsed[0]);
      assert StateValid(spec, first.states[0]);
      assert [first.states[0]] == first.states;
      SessionTally(labelnames, bounds, first.states[0], parsed[1..]);
      assert ProcessAll([spec], [st], parsed).states == ProcessAll([spec], first.states, parsed[1..]).states;
    }
  }

  // ---------------------------------------------------------------------
  // The processor object
  // ---------------------------------------------------------------------

  /** Where the processor reads its lines from (the subclass chosen at startup). */
  datatype Source =
    | Stdin
    | Journal(unit: string)
    | File(path: string)
    | Kafka(brokers: string, topic: Option<string>, group: Option<string>)

  /** The instruments of a list of updaters. */
  ghost function InstrumentsOf(us: seq<Updater>): set<object> {
    set i, o | 0 <= i < |us| && o in us[i].Instruments() :: o
  }

  /** Every updater is consistent and no two share an instrument. */
  ghost predicate UpdatersValid(us: seq<Updater>)
    reads InstrumentsOf(us)
  {
    && (forall i :: 0 <= i < |us| ==> us[i].Valid())
    && (forall i, j :: 0 <= i < j < |us| ==> us[i].Instruments() !! us[j].Instruments())
  }

  /** The configurations of a list of updaters. */
  function SpecsOf(us: seq<Updater>): (r: seq<UpdaterSpec>)
    ensures |r| == |us|
    ensures forall i :: 0 <= i < |us| ==> r[i] == us[i].Spec()
  {
    seq(|us|, i requires 0 <= i < |us| => us[i].Spec())
  }

  /** An `AbstractLogProcessor`: its updaters, its input source and its error counter. */
  class LogProcessor {
    const updaters: seq<Updater>
    const source: Source
    var processingErrors: nat

    /** The instruments of all updaters. */
    ghost function Repr(): set<object> {
      InstrumentsOf(updaters)
    }

    /** The updaters are valid and the processor is not one of the instruments. */
    ghost predicate Valid()
      reads Repr()
    {
      this !in Repr() && UpdatersValid(updaters)
    }

    function Specs(): (r: seq<UpdaterSpec>)
      ensures |r| == |updaters|
      ensures forall i :: 0 <= i < |updaters| ==> r[i] == updaters[i].Spec()
    {
      SpecsOf(updaters)
    }

    ghost function Snapshots(): (r: seq<UpdaterState>)
      reads Repr()
      ensures |r| == |updaters|
      ensures forall i :: 0 <= i < |updaters| ==> r[i] == updaters[i].Snapshot()
    {
      seq(|updaters|, i requires 0 <= i < |updaters| reads Repr() => updaters[i].Snapshot())
    }

    constructor (updaters: seq<Updater>, source: Source)
      requires UpdatersValid(updaters)
      ensures Valid()
      ensures this.updaters == updaters && this.source == source && processingErrors == 0
    {
      this.updaters := updaters;
      this.source := source;
      processingErrors := 0;
    }

    /**
     * One pass of the loop body: updater `i` observes `line`; the other
     * updaters' instruments are disjoint from its own and do not change.
     */
    method ApplyAt(i: nat, line: LogLine) returns (ok: bool)
      requires Valid() && i < |updaters|
      modifies updaters[i].Instruments()
      ensures Valid()
      ensures Fits(updaters[i].Spec().bounds, old(updaters[i].Snapshot()))
      ensures ok == Step(updaters[i].Spec(), old(updaters[i].Snapshot()), line).Some?
      ensures updaters[i].Snapshot() ==
        if ok then Step(updaters[i].Spec(), old(updaters[i].Snapshot()), line).value else old(updaters[i].Snapshot())
      ensures forall j :: 0 <= j < |updaters| && j != i ==> updaters[j].Snapshot() == old(updaters[j].Snapshot())
    {
      ok := updaters[i].Apply(line);
      forall j | 0 <= j < |updaters| && j != i
        ensures updaters[j].Valid() && updaters[j].Snapshot() == old(updaters[j].Snapshot())
      {
        assert updaters[i].Instruments() !! updaters[j].Instruments() by {
          if i < j {} else {}
        }
      }
    }

    /** The snapshots are consistent with the updaters' configurations. */
    lemma ValidStates()
      requires Valid()
      ensures StatesFit(Specs(), Snapshots())
    {
      forall i | 0 <= i < |updaters| ensures StateValid(Specs()[i], Snapshots()[i]) {
        updaters[i].ValidSnapshot();
      }
      ValidStatesFit(Specs(), Snapshots());
    }

    /**
     * The loop over the updaters inside the try block: it stops at the first
     * updater that raises and reports whether one did.
     */
    method RunAll(line: LogLine) returns (raised: bool)
      requires Valid()
      modifies Repr()
      ensures Valid()
      ensures StatesFit(Specs(), old(Snapshots()))
      ensures var out := RunUpdaters(Specs(), old(Snapshots()), line);
        && Snapshots() == out.states
        && raised == (out.errors == 1)
    {
      ValidStates();
      ghost var specs := Specs();
      ghost var before := Snapshots();
      var i := 0;
      raised := false;
      while i < |updaters|
        invariant i <= |updaters|
        invariant Valid()
        invariant forall j :: 0 <= j < i ==> !Raises(specs[j], line)
        invariant forall j :: 0 <= j < |updaters| ==>
          Fits(specs[j].bounds, before[j]) &&
          updaters[j].Snapshot() == if j < i then Step(specs[j], before[j], line).value else before[j]
        invariant !raised
      {
        var ok := ApplyAt(i, line);
        StepsUnlessRaises(specs[i], before[i], line);
        if !ok {
          raised := true;
          break;
        }
        i := i + 1;
      }
      assert FirstFailure(specs, line) == i;
      assert Snapshots() == StepFirst(specs, before, line, i);
    }

    /** `processing_errors.inc()`. */
    method CountError()
      requires Valid()
      modifies this
      ensures Valid() && Snapshots() == old(Snapshots())
      ensures processingErrors == old(processingErrors) + 1
    {
      processingErrors := processingErrors + 1;
    }

    /**
     * The body of `update_metrics` apart from the error counter: parse the
     * cleaned-up text and run the updaters; `failed` says whether the line
     * counts as a processing error.
     */
    method Dispatch(raw: string, parse: string -> ParseResult) returns (failed: bool)
      requires Valid()
      modifies Repr()
      ensures Valid()
      ensures StatesFit(Specs(), old(Snapshots()))
      ensures var out := ProcessLine(Specs(), old(Snapshots()), raw, parse);
        && Snapshots() == out.states
        && failed == (out.errors == 1)
    {
      ValidStates();
      var stripped := JournalStrip(Trim(raw));
      var parsed := parse(Trim(stripped));
      if parsed.Raised? {
        failed := true;
      } else if !parsed.line.valid {
        failed := true;
      } else {
        failed := RunAll(parsed.line);
      }
    }

    /** `update_metrics(raw_line)`, with the external parser as `parse`. */
    method UpdateMetrics(raw: string, parse: string -> ParseResult)
      requires Valid()
      modifies this, Repr()
      ensures Valid()
      ensures StatesFit(Specs(), old(Snapshots()))
      ensures var out := ProcessLine(Specs(), old(Snapshots()), raw, parse);
        && Snapshots() == out.states
        && processingErrors == old(processingErrors) + out.errors
    {
      var failed := Dispatch(raw, parse);
      if failed {
        CountError();
      }
    }
  }
}
