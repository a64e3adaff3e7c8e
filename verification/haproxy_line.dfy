/**
 * The parsed HAProxy log line, as seen by the metric updaters.
 *
 * The parser itself (the external haproxy-log-analysis package) is not part of
 * this model: it appears only as the record it yields.  Timer fields stay raw
 * strings, as the parser leaves them, and are converted when observed.
 */
module HaproxyLine {
  import opened Wrappers

  /** The attributes of a parsed line that the updaters read. */
  datatype LogLine = LogLine(
    valid: bool,
    statusCode: string,
    frontendName: string,
    backendName: string,
    serverName: string,
    httpRequestPath: string,
    httpRequestMethod: string,
    clientIp: string,
    clientPort: string,
    timeWaitRequest: string,     // Tq
    timeConnectServer: string,   // Tc
    timeWaitQueues: string,      // Tw
    timeWaitResponse: string,    // Tr
    totalTime: string,           // Tt, possibly prefixed with '+'
    queueBackend: int,
    queueServer: int)

  /** The eight attributes that may be configured as labels (REQUEST_LABELS). */
  datatype LabelName =
    | StatusCode
    | FrontendName
    | BackendName
    | ServerName
    | HttpRequestPath
    | HttpRequestMethod
    | ClientIp
    | ClientPort
  {
    /** The attribute name, which is also the label name. */
    function Name(): string {
      match this
      case StatusCode => "status_code"
      case FrontendName => "frontend_name"
      case BackendName => "backend_name"
      case ServerName => "server_name"
      case HttpRequestPath => "http_request_path"
      case HttpRequestMethod => "http_request_method"
      case ClientIp => "client_ip"
      case ClientPort => "client_port"
    }
  }

  /** REQUEST_LABELS, in declaration order. */
  const RequestLabels: seq<LabelName> :=
    [StatusCode, FrontendName, BackendName, ServerName,
     HttpRequestPath, HttpRequestMethod, ClientIp, ClientPort]

  /** The value of a label attribute on a line (the `getattr(line, label)` lookup). */
  function LabelValue(line: LogLine, name: LabelName): string {
    match name
    case StatusCode => line.statusCode
    case FrontendName => line.frontendName
    case BackendName => line.backendName
    case ServerName => line.serverName
    case HttpRequestPath => line.httpRequestPath
    case HttpRequestMethod => line.httpRequestMethod
    case ClientIp => line.clientIp
    case ClientPort => line.clientPort
  }

  /**
   * The label value list for the configured label names, in configured order:
   * the series key of a labelled instrument.
   */
  function LabelValues(labelnames: seq<LabelName>, line: LogLine): (r: seq<string>)
    ensures |r| == |labelnames|
    ensures forall i :: 0 <= i < |labelnames| ==> r[i] == LabelValue(line, labelnames[i])
  {
    if labelnames == [] then []
    else [LabelValue(line, labelnames[0])] + LabelValues(labelnames[1..], line)
  }

  /**
   * The command-line `choices` check for a label option: a string is accepted
   * exactly when it names one of the eight request labels.
   */
  function LabelFromName(s: string): (r: Option<LabelName>)
    ensures r.Some? ==> r.value.Name() == s && r.value in RequestLabels
    ensures r.None? ==> forall l: LabelName :: l.Name() != s
  {
    if s == "status_code" then Some(StatusCode)
    else if s == "frontend_name" then Some(FrontendName)
    else if s == "backend_name" then Some(BackendName)
    else if s == "server_name" then Some(ServerName)
    else if s == "http_request_path" then Some(HttpRequestPath)
    else if s == "http_request_method" then Some(HttpRequestMethod)
    else if s == "client_ip" then Some(ClientIp)
    else if s == "client_port" then Some(ClientPort)
    else None
  }

  /** Every label name is accepted by the choices check and maps back to itself. */
  lemma LabelNameRoundTrip(l: LabelName)
    ensures LabelFromName(l.Name()) == Some(l)
    ensures l in RequestLabels
  {
  }

  // ---------------------------------------------------------------------
  // Numeric conversion of timer strings (`float(...)` in the exporter),
  // modelled on integer milliseconds.
  // ---------------------------------------------------------------------

  predicate IsDigit(c: char) {
    '0' <= c <= '9'
  }

  predicate AllDigits(s: string) {
    forall i :: 0 <= i < |s| ==> IsDigit(s[i])
  }

  /** An optionally signed, non-empty run of decimal digits. */
  predicate IsNumeral(s: string) {
    |s| > 0 &&
    if s[0] == '-' || s[0] == '+' then |s| > 1 && AllDigits(s[1..]) else AllDigits(s)
  }

  /** The value of a run of decimal digits, most significant first. */
  function DigitsValue(ds: string): nat
    requires AllDigits(ds)
  {
    if ds == [] then 0
    else DigitsValue(ds[..|ds| - 1]) * 10 + (ds[|ds| - 1] - '0') as nat
  }

  /**
   * Converts a timer string to milliseconds; `None` is the conversion error
   * that makes an updater raise.
   */
  function ParseMillis(s: string): (r: Option<int>)
    ensures r.Some? <==> IsNumeral(s)
    ensures r.Some? && s[0] == '-' ==> r.value <= 0
    ensures r.Some? && s[0] != '-' ==> r.value >= 0
  {
    if |s| > 1 && s[0] == '-' && AllDigits(s[1..]) then Some(-(DigitsValue(s[1..]) as int))
    else if |s| > 1 && s[0] == '+' && AllDigits(s[1..]) then Some(DigitsValue(s[1..]))
    else if |s| > 0 && s[0] != '-' && s[0] != '+' && AllDigits(s) then Some(DigitsValue(s))
    else None
  }

  function DigitChar(d: nat): char
    requires d < 10
  {
    ('0' as int + d) as char
  }

  /** The decimal text of a natural number, as HAProxy writes it. */
  function Decimal(n: nat): (r: string)
    ensures |r| > 0 && AllDigits(r)
    decreases n
  {
    if n < 10 then [DigitChar(n)] else Decimal(n / 10) + [DigitChar(n % 10)]
  }

  /** The decimal text of a timer value, with a leading '-' when negative. */
  function Numeral(i: int): string {
    if i < 0 then "-" + Decimal(-i) else Decimal(i)
  }

  lemma {:induction false} DecimalValue(n: nat)
    ensures DigitsValue(Decimal(n)) == n
    decreases n
  {
    if n >= 10 {
      var d := Decimal(n / 10);
      DecimalValue(n / 10);
      assert (d + [DigitChar(n % 10)])[..|d|] == d;
    }
  }

  /** Converting the text HAProxy writes for a timer value gives back that value. */
  lemma ParseNumeral(i: int)
    ensures ParseMillis(Numeral(i)) == Some(i)
  {
    if i < 0 {
      DecimalValue(-i);
      assert ("-" + Decimal(-i))[1..] == Decimal(-i);
    } else {
      DecimalValue(i);
    }
  }

  /** A leading '+' does not change the converted value, as for `float`. */
  lemma ParsePlus(s: string)
    requires |s| > 0 && s[0] != '-' && s[0] != '+'
    ensures ParseMillis("+" + s) == ParseMillis(s)
  {
    assert ("+" + s)[1..] == s;
  }
}
