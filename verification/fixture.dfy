/**
 * The test suite's log (tests/conftest.py, LOG_CONTENT) and what its tests
 * expect of it, stated on the model.
 *
 * The log has 23 journal lines: 11 HTTP requests to the cache backend, 2 to
 * the statistics page, and 10 TCP-mode lines, which the HTTP log parser
 * marks invalid. The parser is not modelled, so each line appears here as
 * the record it yields; only the journal preamble is checked on text.
 */
module Fixture {
  import opened Wrappers
  import opened HaproxyLine
  import opened Instruments
  import opened Metrics
  import opened JournalPreamble
  import opened LogProcessing

  /** An HTTP-mode line: Tq/Tw/Tc/Tr/Tt as logged, no queueing. */
  function Http(frontend: string, backend: string, server: string, port: string, path: string,
                tq: string, tw: string, tc: string, tr: string, tt: string): ParseResult
  {
    Parsed(LogLine(true, "200", frontend, backend, server, path, "GET", "127.0.0.1", port,
                   tq, tc, tw, tr, tt, 0, 0))
  }

  const CacheFrontend: string := "cache.api.finn.no-tls"
  const CacheBackend: string := "cache.api.finn.no-backend"
  const StatsProxy: string := "statistics"

  /** A request to the cache backend through the TLS frontend. */
  function Cache(server: string, port: string, tq: string, tw: string, tc: string, tr: string, tt: string): ParseResult {
    Http(CacheFrontend, CacheBackend, server, port, "/", tq, tw, tc, tr, tt)
  }

  /** A request for the statistics page, answered by HAProxy itself. */
  function Stats(port: string): ParseResult {
    Http(StatsProxy, StatsProxy, "<STATS>", port, "/statistics;csv", "0", "0", "0", "0", "0")
  }

  /** A TCP-mode line of the TLS termination frontend: not an HTTP log line. */
  const Tcp: ParseResult :=
    Parsed(LogLine(false, "", "", "", "", "", "", "", "", "", "", "", "", "", 0, 0))

  /** The log's HTTP requests, in order. */
  const Request1: ParseResult := Cache("apicache3.finn.no", "42563", "0", "0", "1", "1", "2")
  const Request2: ParseResult := Cache("apicache4.finn.no", "55104", "0", "0", "1", "0", "1")
  const Request3: ParseResult := Cache("apicache4.finn.no", "42568", "0", "0", "0", "2", "2")
  const Request4: ParseResult := Cache("apicache3.finn.no", "55111", "0", "0", "0", "1", "1")
  const Request5: ParseResult := Cache("apicache3.finn.no", "42573", "0", "0", "1", "1", "2")
  const Request6: ParseResult := Cache("apicache4.finn.no", "55116", "0", "0", "1", "1", "2")
  const Request7: ParseResult := Cache("apicache4.finn.no", "42578", "0", "0", "1", "1", "2")
  const Request8: ParseResult := Cache("apicache3.finn.no", "55121", "0", "0", "0", "2", "2")
  const Request9: ParseResult := Stats("50672")
  const Request10: ParseResult := Cache("apicache3.finn.no", "42585", "0", "0", "0", "1", "1")
  const Request11: ParseResult := Stats("33906")
  const Request12: ParseResult := Cache("apicache4.finn.no", "55128", "0", "0", "1", "1", "2")
  const Request13: ParseResult := Cache("apicache4.finn.no", "42592", "0", "0", "1", "1", "2")

  /** A request line, followed in the log by a TCP-mode line. */
  function Served(request: ParseResult): seq<ParseResult> {
    [request] + [Tcp]
  }

  /** Lines 1-8, 9-16 and 17-23 of LOG_CONTENT. */
  const FirstLines: seq<ParseResult> :=
    Served(Request1) + Served(Request2) + Served(Request3) + Served(Request4)
  const MiddleLines: seq<ParseResult> :=
    Served(Request5) + Served(Request6) + Served(Request7) + Served(Request8)
  const LastLines: seq<ParseResult> :=
    [Request9] + Served(Request10) + [Request11] + Served(Request12) + [Request13]

  /** LOG_CONTENT, line by line, as the parser sees it. */
  const LogContent: seq<ParseResult> := FirstLines + MiddleLines + LastLines

  const TestLabels: seq<LabelName> := [FrontendName, BackendName]

  const CacheKey: seq<string> := [CacheFrontend, CacheBackend, "False"]

  const StatsKey: seq<string> := [StatsProxy, StatsProxy, "False"]

  /** What the tests count in a stretch of the log. */
  datatype Tally = Tally(valid: int, cacheCount: int, cacheSum: int, statsCount: int, statsSum: int)
  {
    function Plus(other: Tally): Tally {
      Tally(valid + other.valid, cacheCount + other.cacheCount, cacheSum + other.cacheSum,
            statsCount + other.statsCount, statsSum + other.statsSum)
    }
  }

  function TallyOf(lines: seq<ParseResult>): Tally {
    Tally(ValidCount(lines),
          KeyCount(TestLabels, lines, CacheKey), KeySum(TestLabels, lines, CacheKey),
          KeyCount(TestLabels, lines, StatsKey), KeySum(TestLabels, lines, StatsKey))
  }

  lemma {:induction false} ValidCountAppend(a: seq<ParseResult>, b: seq<ParseResult>)
    ensures ValidCount(a + b) == ValidCount(a) + ValidCount(b)
    decreases |a|
  {
    if a != [] {
      assert (a + b)[1..] == a[1..] + b;
      ValidCountAppend(a[1..], b);
    } else {
      assert a + b == b;
    }
  }

  lemma {:induction false} KeyTallyAppend(labelnames: seq<LabelName>, a: seq<ParseResult>, b: seq<ParseResult>, key: seq<string>)
    ensures KeyCount(labelnames, a + b, key) == KeyCount(labelnames, a, key) + KeyCount(labelnames, b, key)
    ensures KeySum(labelnames, a + b, key) == KeySum(labelnames, a, key) + KeySum(labelnames, b, key)
    decreases |a|
  {
    if a != [] {
      assert (a + b)[1..] == a[1..] + b;
      KeyTallyAppend(labelnames, a[1..], b, key);
    } else {
      assert a + b == b;
    }
  }

  lemma TallyAppend(a: seq<ParseResult>, b: seq<ParseResult>)
    ensures TallyOf(a + b) == TallyOf(a).Plus(TallyOf(b))
  {
    ValidCountAppend(a, b);
    KeyTallyAppend(TestLabels, a, b, CacheKey);
    KeyTallyAppend(TestLabels, a, b, StatsKey);
  }

  lemma SingleLine(x: ParseResult)
    ensures var o := SessionObservation(TestLabels, x);
      TallyOf([x]) == Tally(
        if x.Parsed? && x.line.valid then 1 else 0,
        if o.Some? && o.value.0 == CacheKey then 1 else 0,
        if o.Some? && o.value.0 == CacheKey then o.value.1 else 0,
        if o.Some? && o.value.0 == StatsKey then 1 else 0,
        if o.Some? && o.value.0 == StatsKey then o.value.1 else 0)
  {
    assert [x][0] == x;
    assert [x][1..] == [];
    assert ValidCount([x]) == if x.Parsed? && x.line.valid then 1 else 0;
    var o := SessionObservation(TestLabels, x);
    assert KeyCount(TestLabels, [x], CacheKey) == if o.Some? && o.value.0 == CacheKey then 1 else 0;
    assert KeySum(TestLabels, [x], CacheKey) == if o.Some? && o.value.0 == CacheKey then o.value.1 else 0;
    assert KeyCount(TestLabels, [x], StatsKey) == if o.Some? && o.value.0 == StatsKey then 1 else 0;
    assert KeySum(TestLabels, [x], StatsKey) == if o.Some? && o.value.0 == StatsKey then o.value.1 else 0;
  }

  lemma KeysDiffer()
    ensures CacheKey != StatsKey
  {
    assert CacheFrontend[0] != StatsProxy[0];
  }

  /** What the session timer records for a cache request. */
  lemma CacheObservation(request: ParseResult, ms: int)
    requires request.Parsed? && request.line.valid
    requires request.line.frontendName == CacheFrontend
    requires request.line.backendName == CacheBackend
    requires request.line.totalTime == "1" || request.line.totalTime == "2"
    requires ms == if request.line.totalTime == "1" then 1 else 2
    ensures SessionObservation(TestLabels, request) == Some((CacheKey, ms))
  {
    assert ParseMillis("1") == Some(1);
    assert ParseMillis("2") == Some(2);
    assert LabelValues(TestLabels, request.line) + ["False"] == CacheKey;
  }

  /** A cache request taking `ms` milliseconds in all, with its TCP line. */
  lemma CacheTally(request: ParseResult, ms: int)
    requires request.Parsed? && request.line.valid
    requires request.line.frontendName == CacheFrontend
    requires request.line.backendName == CacheBackend
    requires request.line.totalTime == "1" || request.line.totalTime == "2"
    requires ms == if request.line.totalTime == "1" then 1 else 2
    ensures TallyOf(Served(request)) == Tally(1, 1, ms, 0, 0)
  {
    CacheObservation(request, ms);
    KeysDiffer();
    SingleLine(request);
    assert TallyOf([request]) == Tally(1, 1, ms, 0, 0);
    SingleLine(Tcp);
    assert TallyOf([Tcp]) == Tally(0, 0, 0, 0, 0);
    TallyAppend([request], [Tcp]);
  }

  /** A request for the statistics page. */
  lemma StatsTally(request: ParseResult)
    requires request.Parsed? && request.line.valid
    requires request.line.frontendName == StatsProxy && request.line.backendName == StatsProxy
    requires request.line.totalTime == "0"
    ensures TallyOf([request]) == Tally(1, 0, 0, 1, 0)
  {
    assert ParseMillis("0") == Some(0);
    assert LabelValues(TestLabels, request.line) + ["False"] == StatsKey;
    assert SessionObservation(TestLabels, request) == Some((StatsKey, 0));
    KeysDiffer();
    SingleLine(request);
  }

  lemma FirstLinesTally()
    ensures TallyOf(FirstLines) == Tally(4, 4, 6, 0, 0)
  {
    var s1 := Served(Request1);
    var s2 := s1 + Served(Request2);
    var s3 := s2 + Served(Request3);
    assert TallyOf(s1) == Tally(1, 1, 2, 0, 0) by { CacheTally(Request1, 2); }
    assert TallyOf(s2) == Tally(2, 2, 3, 0, 0) by { CacheTally(Request2, 1); TallyAppend(s1, Served(Request2)); }
    assert TallyOf(s3) == Tally(3, 3, 5, 0, 0) by { CacheTally(Request3, 2); TallyAppend(s2, Served(Request3)); }
    CacheTally(Request4, 1);
    TallyAppend(s3, Served(Request4));
  }

  lemma MiddleLinesTally()
    ensures TallyOf(MiddleLines) == Tally(4, 4, 8, 0, 0)
  {
    var s1 := Served(Request5);
    var s2 := s1 + Served(Request6);
    var s3 := s2 + Served(Request7);
    assert TallyOf(s1) == Tally(1, 1, 2, 0, 0) by { CacheTally(Request5, 2); }
    assert TallyOf(s2) == Tally(2, 2, 4, 0, 0) by { CacheTally(Request6, 2); TallyAppend(s1, Served(Request6)); }
    assert TallyOf(s3) == Tally(3, 3, 6, 0, 0) by { CacheTally(Request7, 2); TallyAppend(s2, Served(Request7)); }
    CacheTally(Request8, 2);
    TallyAppend(s3, Served(Request8));
  }

  lemma LastLinesTally()
    ensures TallyOf(LastLines) == Tally(5, 3, 5, 2, 0)
  {
    var s1 := [Request9];
    var s2 := s1 + Served(Request10);
    var s3 := s2 + [Request11];
    var s4 := s3 + Served(Request12);
    assert TallyOf(s1) == Tally(1, 0, 0, 1, 0) by { StatsTally(Request9); }
    assert TallyOf(s2) == Tally(2, 1, 1, 1, 0) by { CacheTally(Request10, 1); TallyAppend(s1, Served(Request10)); }
    assert TallyOf(s3) == Tally(3, 1, 1, 2, 0) by { StatsTally(Request11); TallyAppend(s2, [Request11]); }
    assert TallyOf(s4) == Tally(4, 2, 3, 2, 0) by { CacheTally(Request12, 2); TallyAppend(s3, Served(Request12)); }
    assert TallyOf([Request13]) == Tally(1, 1, 2, 0, 0) by {
      CacheTally(Request13, 2);
      SingleLine(Tcp);
      TallyAppend([Request13], [Tcp]);
    }
    TallyAppend(s4, [Request13]);
  }

  /** Counts of the whole log, from counts of its pieces. */
  lemma LogTally()
    ensures TallyOf(LogContent) == Tally(13, 11, 19, 2, 0)
  {
    FirstLinesTally();
    MiddleLinesTally();
    LastLinesTally();
    TallyAppend(FirstLines, MiddleLines);
    TallyAppend(FirstLines + MiddleLines, LastLines);
  }

  /** A labelled session timer fed `parsed` from its initial state, by the tallies of `parsed`. */
  lemma SessionTimerCounts(parsed: seq<ParseResult>, t: Tally)
    requires TallyOf(parsed) == t
    ensures var spec := UpdaterSpec(Timer(SessionDuration), TestLabels, DefaultTimerBuckets);
      var h := ProcessAll([spec], [Initial(spec)], parsed).states[0].histogram;
      && SeriesOf(h, DefaultTimerBuckets, CacheKey).count == t.cacheCount
      && SeriesOf(h, DefaultTimerBuckets, CacheKey).sum == t.cacheSum
      && SeriesOf(h, DefaultTimerBuckets, StatsKey).count == t.statsCount
      && SeriesOf(h, DefaultTimerBuckets, StatsKey).sum == t.statsSum
  {
    var spec := UpdaterSpec(Timer(SessionDuration), TestLabels, DefaultTimerBuckets);
    var st := Initial(spec);
    assert StateValid(spec, st) by {
      DefaultLaddersStrict();
      InitialValid(spec);
    }
    assert st.histogram == map[] by {
      assert |HistogramLabelNames(spec)| > 0;
    }
    SessionTally(TestLabels, DefaultTimerBuckets, st, parsed);
  }

  /**
   * `test_timer`: a session-duration timer labelled by frontend and backend,
   * fed every valid line, records 11 requests taking 19 ms in all for the
   * cache backend and 2 taking 0 ms for the statistics page.
   */
  lemma TimerTest()
    ensures var spec := UpdaterSpec(Timer(SessionDuration), TestLabels, DefaultTimerBuckets);
      var h := ProcessAll([spec], [Initial(spec)], LogContent).states[0].histogram;
      && SeriesOf(h, DefaultTimerBuckets, CacheKey).count == 11
      && SeriesOf(h, DefaultTimerBuckets, CacheKey).sum == 19
      && SeriesOf(h, DefaultTimerBuckets, StatsKey).count == 2
      && SeriesOf(h, DefaultTimerBuckets, StatsKey).sum == 0
  {
    LogTally();
    SessionTimerCounts(LogContent, Tally(13, 11, 19, 2, 0));
  }

  /**
   * `test_follow`: of the 23 lines, 13 reach the updaters; an unlabelled
   * line counter as the only updater ends at 13 and the other 10 lines are
   * processing errors.
   */
  lemma FollowTest()
    ensures var r := ProcessAll([UpdaterSpec(RequestsTotal, [], [])], [UpdaterState(map[[] := 0], map[])], LogContent);
      && r.states == [UpdaterState(map[[] := 13], map[])]
      && r.errors == 10
  {
    CountingUpdater(RequestsTotal, 0, LogContent);
    LogTally();
  }

  /** The preamble of the first line: `Jun  9 12:31:39 softwarelb1-prod1.z01.finn.no haproxy[11058]: `. */
  const FirstPreamble: Preamble :=
    Preamble("Jun", "  ", "9", " ", "12", "31", "39", " ", "softwarelb1-prod1.z01.finn.no", " ", "haproxy", "11058", " ")

  /** The first line's preamble is one JOURNAL_REGEX matches, and stripping it leaves the HAProxy text. */
  lemma FirstPreambleHost()
    ensures TokenFits(Run(Host), FirstPreamble.host)
  {
    assert AllIn(Host, "softwarelb1-prod1.z01.finn.no");
  }

  lemma FirstPreambleFields()
    ensures FirstPreamble.FieldsFit()
  {
    var pre := FirstPreamble;
    FirstPreambleHost();
    assert TokenFits(Run(Word), pre.month) && TokenFits(Run(Word), pre.tag);
    assert TokenFits(Run(Digit), pre.day) && TokenFits(Run(Digit), pre.pid);
    assert TokenFits(Run(Digit), pre.hour) && TokenFits(Run(Digit), pre.minute) && TokenFits(Run(Digit), pre.second);
    assert TokenFits(Run(Space), pre.sp1) && TokenFits(Run(Space), pre.sp2);
  }

  lemma FirstPreambleStripped(rest: string)
    requires rest == [] || !IsSpace(rest[0])
    ensures FirstPreamble.WellFormed()
    ensures JournalStrip(FirstPreamble.Text() + rest) == rest
  {
    FirstPreambleFields();
    WellFormedFields(FirstPreamble);
    StripPreamble(FirstPreamble, rest);
  }
}
