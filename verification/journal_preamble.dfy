/**
 * Text handling ahead of the parser: whitespace trimming (`str.strip`) and
 * removal of the journal/syslog preamble `Mon DD HH:MM:SS host tag[pid]: `
 * (JOURNAL_REGEX, substituted by the empty string).
 *
 * The regular expression is a fixed chain of one-or-more runs of a character
 * class and literal characters, anchored at the start. It is modelled as a
 * token pattern with two readings: `Matches`, the language of the pattern, and
 * `Scan`, a greedy left-to-right scanner. Because each run's class excludes
 * every character that can start the token after it, the scanner finds the
 * longest matching prefix, which is the match the regex engine reports.
 * `\s` and `str.strip()` use Python's full whitespace set; its Unicode `\w` and
 * `\d` are approximated by their ASCII classes.
 */
module JournalPreamble {
  import opened Wrappers

  /**
   * Python's whitespace (`str.isspace`): what `\s` matches in a text pattern
   * and what `str.strip()` removes. Tab to carriage return, the four
   * information separators, space, and the Unicode separators.
   */
  predicate IsSpace(c: char) {
    ('\t' <= c <= '\r') || ('\U{001C}' <= c <= ' ')
    || c == '\U{0085}' || c == '\U{00A0}' || c == '\U{1680}'
    || ('\U{2000}' <= c <= '\U{200A}')
    || c == '\U{2028}' || c == '\U{2029}' || c == '\U{202F}' || c == '\U{205F}' || c == '\U{3000}'
  }

  predicate IsDigitChar(c: char) {
    '0' <= c <= '9'
  }

  predicate IsWordChar(c: char) {
    ('a' <= c <= 'z') || ('A' <= c <= 'Z') || IsDigitChar(c) || c == '_'
  }

  /** `[\.a-zA-Z0-9_-]`, the host name class. */
  predicate IsHostChar(c: char) {
    IsWordChar(c) || c == '.' || c == '-'
  }

  datatype CharClass = Word | Space | Digit | Host

  predicate InClass(cls: CharClass, c: char) {
    match cls
    case Word => IsWordChar(c)
    case Space => IsSpace(c)
    case Digit => IsDigitChar(c)
    case Host => IsHostChar(c)
  }

  predicate AllIn(cls: CharClass, s: string) {
    forall i :: 0 <= i < |s| ==> InClass(cls, s[i])
  }

  /** One element of the pattern: a run of one or more class characters, or a literal. */
  datatype Token = Run(cls: CharClass) | Lit(c: char)

  /** JOURNAL_REGEX: `\w+\s+\d+\s+\d+:\d+:\d+\s+[\.a-zA-Z0-9_-]+\s+\w+\[\d+\]:\s+`. */
  const JournalPattern: seq<Token> :=
    [Run(Word), Run(Space), Run(Digit), Run(Space),
     Run(Digit), Lit(':'), Run(Digit), Lit(':'), Run(Digit), Run(Space),
     Run(Host), Run(Space), Run(Word), Lit('['), Run(Digit), Lit(']'), Lit(':'), Run(Space)]

  predicate CanStart(t: Token, c: char) {
    match t
    case Run(cls) => InClass(cls, c)
    case Lit(d) => c == d
  }

  /** Two classes share no character: whitespace shares none with the others. */
  predicate ClassesDisjoint(a: CharClass, b: CharClass) {
    a != b && (a == Space || b == Space)
  }

  /** A run of `cls` cannot swallow the first character of token `t`. */
  predicate StopsBefore(cls: CharClass, t: Token) {
    match t
    case Run(other) => ClassesDisjoint(cls, other)
    case Lit(d) => !InClass(cls, d)
  }

  lemma StopsBeforeSound(cls: CharClass, t: Token, c: char)
    requires StopsBefore(cls, t) && CanStart(t, c)
    ensures !InClass(cls, c)
  {
  }

  /** No run can swallow the first character of the token after it. */
  predicate Separated(p: seq<Token>) {
    forall i :: 0 <= i < |p| - 1 && p[i].Run? ==> StopsBefore(p[i].cls, p[i + 1])
  }

  /** The language of a pattern: `s` is entirely matched by `p`. */
  ghost predicate Matches(p: seq<Token>, s: string)
    decreases |p|
  {
    if p == [] then s == []
    else match p[0]
      case Lit(c) => |s| > 0 && s[0] == c && Matches(p[1..], s[1..])
      case Run(cls) => exists k :: 1 <= k <= |s| && AllIn(cls, s[..k]) && Matches(p[1..], s[k..])
  }

  /** The length of the longest prefix of `s` inside `cls`. */
  function RunLength(cls: CharClass, s: string): (n: nat)
    ensures n <= |s| && AllIn(cls, s[..n])
    ensures n < |s| ==> !InClass(cls, s[n])
  {
    if |s| > 0 && InClass(cls, s[0]) then
      var n := 1 + RunLength(cls, s[1..]);
      assert forall i :: 1 <= i < n ==> s[..n][i] == s[1..][..n - 1][i - 1];
      n
    else 0
  }

  /** The greedy scanner: the length of the prefix it matches, if any. */
  function Scan(p: seq<Token>, s: string): (r: Option<nat>)
    ensures r.Some? ==> r.value <= |s|
    decreases |p|
  {
    if p == [] then Some(0)
    else match p[0]
      case Lit(c) =>
        if |s| > 0 && s[0] == c then
          match Scan(p[1..], s[1..])
          case None => None
          case Some(n) => Some(1 + n)
        else None
      case Run(cls) =>
        var k := RunLength(cls, s);
        if k == 0 then None
        else
          match Scan(p[1..], s[k..])
          case None => None
          case Some(n) => Some(k + n)
  }

  /** The matched prefix cannot be extended by the pattern's last run. */
  ghost predicate StopsAt(p: seq<Token>, s: string, m: nat)
    requires m <= |s|
  {
    m == |s| || p == [] || !(p[|p| - 1].Run? && InClass(p[|p| - 1].cls, s[m]))
  }

  /** What the scanner matches is in the pattern's language. */
  lemma {:induction false} ScanSound(p: seq<Token>, s: string)
    requires Scan(p, s).Some?
    ensures Matches(p, s[..Scan(p, s).value])
    decreases |p|
  {
    var n := Scan(p, s).value;
    if p != [] {
      match p[0]
      case Lit(c) =>
        ScanSound(p[1..], s[1..]);
        assert s[..n][1..] == s[1..][..n - 1];
      case Run(cls) =>
        var k := RunLength(cls, s);
        ScanSound(p[1..], s[k..]);
        assert s[..n][..k] == s[..k];
        assert s[..n][k..] == s[k..][..n - k];
    }
  }

  lemma RunLengthExact(cls: CharClass, s: string, k: nat)
    requires k <= |s| && AllIn(cls, s[..k])
    ensures k <= RunLength(cls, s)
    ensures k < |s| && !InClass(cls, s[k]) ==> RunLength(cls, s) == k
  {
    var n := RunLength(cls, s);
    assert forall i :: 0 <= i < k ==> InClass(cls, s[..k][i]);
    assert forall i :: 0 <= i < n ==> InClass(cls, s[..n][i]);
  }

  lemma MatchesStart(p: seq<Token>, s: string)
    requires p != [] && Matches(p, s)
    ensures |s| > 0 && CanStart(p[0], s[0])
  {
    match p[0]
    case Lit(c) =>
    case Run(cls) =>
      var k :| 1 <= k <= |s| && AllIn(cls, s[..k]) && Matches(p[1..], s[k..]);
      assert s[..k][0] == s[0];
  }

  /**
   * On a separated pattern the scanner finds every match: it returns the
   * longest matching prefix, and exactly a match that the last run cannot
   * extend.
   */
  lemma {:induction false} ScanComplete(p: seq<Token>, s: string, m: nat)
    requires Separated(p) && m <= |s| && Matches(p, s[..m])
    ensures Scan(p, s).Some? && m <= Scan(p, s).value
    ensures StopsAt(p, s, m) ==> Scan(p, s).value == m
    decreases |p|
  {
    if p != [] {
      var q := p[1..];
      SeparatedTail(p);
      match p[0]
      case Lit(c) =>
        assert |s[..m]| > 0 && s[..m][0] == c && Matches(q, s[..m][1..]);
        DropOfTake(s, 1, m);
        ScanComplete(q, s[1..], m - 1);
        LitStep(p, s, m);
      case Run(cls) =>
        var k :| 1 <= k <= m && AllIn(cls, s[..m][..k]) && Matches(q, s[..m][k..]);
        if q == [] {
          assert s[..m][..k] == s[..k] && s[..m][k..] == [];
          RunLengthExact(cls, s, k);
        } else {
          RunBoundary(p, s, m, k);
          ScanComplete(q, s[k..], m - k);
          RunStep(p, s, m, k);
        }
    }
  }

  /** Dropping from a prefix is taking from a suffix. */
  lemma DropOfTake(s: string, a: nat, m: nat)
    requires a <= m <= |s|
    ensures s[..m][a..] == s[a..][..m - a]
  {
  }

  lemma SeparatedTail(p: seq<Token>)
    requires p != [] && Separated(p)
    ensures Separated(p[1..])
  {
    var q := p[1..];
    forall i | 0 <= i < |q| - 1 && q[i].Run?
      ensures StopsBefore(q[i].cls, q[i + 1])
    {
      assert q[i] == p[i + 1] && q[i + 1] == p[i + 2];
    }
  }

  /** A literal matched at the start: the scanner takes it and goes on with the rest. */
  lemma LitStep(p: seq<Token>, s: string, m: nat)
    requires p != [] && p[0].Lit? && 1 <= m <= |s| && s[0] == p[0].c
    requires Scan(p[1..], s[1..]).Some? && m - 1 <= Scan(p[1..], s[1..]).value
    requires StopsAt(p[1..], s[1..], m - 1) ==> Scan(p[1..], s[1..]).value == m - 1
    ensures Scan(p, s).Some? && m <= Scan(p, s).value
    ensures StopsAt(p, s, m) ==> Scan(p, s).value == m
  {
    var q := p[1..];
    if StopsAt(p, s, m) && q != [] && m < |s| {
      assert q[|q| - 1] == p[|p| - 1] && s[1..][m - 1] == s[m];
    }
  }

  /** A run matched with length `k`: the next token cannot continue it, so the scanner's run is exactly `k` long. */
  lemma RunBoundary(p: seq<Token>, s: string, m: nat, k: nat)
    requires Separated(p) && |p| >= 2 && p[0].Run?
    requires 1 <= k <= m <= |s| && AllIn(p[0].cls, s[..m][..k]) && Matches(p[1..], s[..m][k..])
    ensures RunLength(p[0].cls, s) == k
    ensures Matches(p[1..], s[k..][..m - k])
  {
    var cls, q := p[0].cls, p[1..];
    assert s[..m][..k] == s[..k];
    MatchesStart(q, s[..m][k..]);
    assert s[..m][k..][0] == s[k];
    StopsBeforeSound(cls, q[0], s[k]);
    RunLengthExact(cls, s, k);
    assert s[..m][k..] == s[k..][..m - k];
  }

  /** A run matched with length `k`: the scanner takes the run and goes on with the rest. */
  lemma RunStep(p: seq<Token>, s: string, m: nat, k: nat)
    requires p != [] && p[0].Run? && 1 <= k <= m <= |s|
    requires RunLength(p[0].cls, s) == k
    requires Scan(p[1..], s[k..]).Some? && m - k <= Scan(p[1..], s[k..]).value
    requires StopsAt(p[1..], s[k..], m - k) ==> Scan(p[1..], s[k..]).value == m - k
    ensures Scan(p, s).Some? && m <= Scan(p, s).value
    ensures StopsAt(p, s, m) ==> Scan(p, s).value == m
  {
    var q := p[1..];
    if StopsAt(p, s, m) && q != [] && m < |s| {
      assert q[|q| - 1] == p[|p| - 1] && s[k..][m - k] == s[m];
    }
  }

  lemma JournalPatternSeparated()
    ensures Separated(JournalPattern)
  {
    var p := JournalPattern;
    forall i | 0 <= i < |p| - 1 && p[i].Run? ensures StopsBefore(p[i].cls, p[i + 1]) {
      if i < 9 {
        if i < 4 {
          assert i == 0 || i == 1 || i == 2 || i == 3;
        } else {
          assert i == 4 || i == 6 || i == 8;
        }
      } else {
        if i < 12 {
          assert i == 9 || i == 10 || i == 11;
        } else {
          assert i == 12 || i == 14;
        }
      }
    }
  }

  // ---------------------------------------------------------------------
  // The substitution
  // ---------------------------------------------------------------------

  /** A pattern's substitution by the empty string at the start of `s`, when it matches there. */
  function StripPrefix(p: seq<Token>, s: string): string {
    match Scan(p, s)
    case Some(n) => s[n..]
    case None => s
  }

  /** `JOURNAL_REGEX.sub('', s)`: drop the preamble at the start, if there is one. */
  function JournalStrip(s: string): string {
    StripPrefix(JournalPattern, s)
  }

  /** `n` is the length of the longest prefix of `s` that `p` matches. */
  ghost predicate LongestMatch(p: seq<Token>, s: string, n: nat) {
    && n <= |s|
    && Matches(p, s[..n])
    && forall m :: n < m <= |s| ==> !Matches(p, s[..m])
  }

  /**
   * The substitution removes exactly the longest preamble prefix, including
   * all whitespace after the colon, and leaves a line without one unchanged.
   */
  lemma JournalStripSpec(s: string)
    ensures |JournalStrip(s)| <= |s| && JournalStrip(s) == s[|s| - |JournalStrip(s)|..]
    ensures forall m :: 0 <= m <= |s| && Matches(JournalPattern, s[..m]) ==>
      LongestMatch(JournalPattern, s, |s| - |JournalStrip(s)|)
    ensures (forall m :: 0 <= m <= |s| ==> !Matches(JournalPattern, s[..m])) ==>
      JournalStrip(s) == s
  {
    JournalPatternSeparated();
    StripPrefixSpec(JournalPattern, s, JournalStrip(s));
  }

  /** On a separated pattern, the substitution `r` removes the longest match, if any. */
  lemma StripPrefixSpec(p: seq<Token>, s: string, r: string)
    requires Separated(p) && r == StripPrefix(p, s)
    ensures |r| <= |s| && r == s[|s| - |r|..]
    ensures forall m :: 0 <= m <= |s| && Matches(p, s[..m]) ==> LongestMatch(p, s, |s| - |r|)
    ensures (forall m :: 0 <= m <= |s| ==> !Matches(p, s[..m])) ==> r == s
  {
    ScanLongest(p, s);
  }

  /** On a separated pattern the scanner finds the longest match, or none when there is none. */
  lemma ScanLongest(p: seq<Token>, s: string)
    requires Separated(p)
    ensures Scan(p, s).Some? ==>
      && Matches(p, s[..Scan(p, s).value])
      && forall m :: Scan(p, s).value < m <= |s| ==> !Matches(p, s[..m])
    ensures Scan(p, s).None? ==> forall m :: 0 <= m <= |s| ==> !Matches(p, s[..m])
  {
    if Scan(p, s).Some? {
      ScanSound(p, s);
    }
    forall m | 0 <= m <= |s| && Matches(p, s[..m]) ensures Scan(p, s).Some? && m <= Scan(p, s).value {
      ScanComplete(p, s, m);
    }
  }

  // ---------------------------------------------------------------------
  // Preambles by their parts
  // ---------------------------------------------------------------------

  /** A preamble, such as `Jun  9 12:31:39 softwarelb1-prod1.z01.finn.no haproxy[11058]: `. */
  datatype Preamble = Preamble(
    month: string, sp1: string, day: string, sp2: string,
    hour: string, minute: string, second: string, sp3: string,
    host: string, sp4: string, tag: string, pid: string, sp5: string)
  {
    /** The pieces of the text, one per token of the pattern. */
    function Parts(): seq<string> {
      [month, sp1, day, sp2, hour, ":", minute, ":", second, sp3,
       host, sp4, tag, "[", pid, "]", ":", sp5]
    }

    /** Every piece is what its token of the pattern admits. */
    predicate WellFormed() {
      PartsFit(JournalPattern, Parts())
    }

    function Text(): string {
      Concat(Parts())
    }

    /** What `WellFormed` asks of each field on its own. */
    predicate FieldsFit() {
      && TokenFits(Run(Word), month) && TokenFits(Run(Space), sp1)
      && TokenFits(Run(Digit), day) && TokenFits(Run(Space), sp2)
      && TokenFits(Run(Digit), hour) && TokenFits(Run(Digit), minute)
      && TokenFits(Run(Digit), second) && TokenFits(Run(Space), sp3)
      && TokenFits(Run(Host), host) && TokenFits(Run(Space), sp4)
      && TokenFits(Run(Word), tag) && TokenFits(Run(Digit), pid) && TokenFits(Run(Space), sp5)
    }
  }

  function Concat(parts: seq<string>): string {
    if parts == [] then [] else parts[0] + Concat(parts[1..])
  }

  /** A piece of text one token admits on its own. */
  predicate TokenFits(t: Token, w: string) {
    match t
    case Lit(c) => w == [c]
    case Run(cls) => w != [] && AllIn(cls, w)
  }

  predicate PartsFit(p: seq<Token>, parts: seq<string>) {
    |p| == |parts| && forall i :: 0 <= i < |p| ==> TokenFits(p[i], parts[i])
  }

  lemma {:induction false} PartsMatch(p: seq<Token>, parts: seq<string>)
    requires PartsFit(p, parts)
    ensures Matches(p, Concat(parts))
    decreases |p|
  {
    if p != [] {
      var w, t := parts[0], Concat(parts[1..]);
      assert PartsFit(p[1..], parts[1..]) by {
        forall i | 0 <= i < |p| - 1 ensures TokenFits(p[1..][i], parts[1..][i]) {
          assert TokenFits(p[i + 1], parts[i + 1]);
        }
      }
      PartsMatch(p[1..], parts[1..]);
      assert TokenFits(p[0], w);
      var s := w + t;
      match p[0]
      case Lit(c) =>
        assert s[1..] == t;
      case Run(cls) =>
        assert s[..|w|] == w && s[|w|..] == t;
    }
  }

  /** A preamble is well formed exactly when each field is a run of its class. */
  lemma WellFormedFields(pre: Preamble)
    ensures pre.WellFormed() <==> pre.FieldsFit()
  {
    var p, parts := JournalPattern, pre.Parts();
    if pre.FieldsFit() {
      forall i | 0 <= i < |p| ensures TokenFits(p[i], parts[i]) {
        if i < 9 {
          assert TokenFits(p[i], parts[i]);
        } else {
          assert TokenFits(p[i], parts[i]);
        }
      }
    }
    if pre.WellFormed() {
      assert TokenFits(p[0], parts[0]) && TokenFits(p[1], parts[1]) && TokenFits(p[2], parts[2]);
      assert TokenFits(p[3], parts[3]) && TokenFits(p[4], parts[4]) && TokenFits(p[6], parts[6]);
      assert TokenFits(p[8], parts[8]) && TokenFits(p[9], parts[9]) && TokenFits(p[10], parts[10]);
      assert TokenFits(p[11], parts[11]) && TokenFits(p[12], parts[12]) && TokenFits(p[14], parts[14]);
      assert TokenFits(p[17], parts[17]);
    }
  }

  lemma PreambleMatches(pre: Preamble)
    requires pre.WellFormed()
    ensures Matches(JournalPattern, pre.Text())
  {
    PartsMatch(JournalPattern, pre.Parts());
  }

  /**
   * A line made of a preamble and a rest that does not start with whitespace
   * loses exactly the preamble.
   */
  lemma StripPreamble(pre: Preamble, rest: string)
    requires pre.WellFormed()
    requires rest == [] || !IsSpace(rest[0])
    ensures JournalStrip(pre.Text() + rest) == rest
  {
    var s := pre.Text() + rest;
    var m := |pre.Text()|;
    assert s[..m] == pre.Text();
    PreambleMatches(pre);
    JournalPatternSeparated();
    ScanComplete(JournalPattern, s, m);
    if m < |s| {
      assert s[m] == rest[0];
      assert JournalPattern[|JournalPattern| - 1] == Run(Space);
    }
    assert StopsAt(JournalPattern, s, m);
    assert s[m..] == rest;
  }

  /**
   * The pattern is anchored at the start, so at most one preamble is removed:
   * of two in a row, the second stays.
   */
  lemma StripOnlyOnce(pre: Preamble, rest: string)
    requires pre.WellFormed()
    ensures JournalStrip(pre.Text() + (pre.Text() + rest)) == pre.Text() + rest
  {
    assert TokenFits(JournalPattern[0], pre.Parts()[0]);
    assert pre.Text() == pre.month + Concat(pre.Parts()[1..]);
    assert (pre.Text() + rest)[0] == pre.month[0];
    StripPreamble(pre, pre.Text() + rest);
  }

  // ---------------------------------------------------------------------
  // Trimming
  // ---------------------------------------------------------------------

  predicate AllSpace(s: string) {
    forall i :: 0 <= i < |s| ==> IsSpace(s[i])
  }

  /** No whitespace at either end. */
  predicate Trimmed(s: string) {
    s == [] || (!IsSpace(s[0]) && !IsSpace(s[|s| - 1]))
  }

  function LeadingSpace(s: string): (n: nat)
    ensures n <= |s| && AllSpace(s[..n])
    ensures n < |s| ==> !IsSpace(s[n])
  {
    if |s| > 0 && IsSpace(s[0]) then
      var n := 1 + LeadingSpace(s[1..]);
      assert forall i :: 1 <= i < n ==> s[..n][i] == s[1..][..n - 1][i - 1];
      n
    else 0
  }

  function TrailingSpace(s: string): (n: nat)
    ensures n <= |s| && forall i :: |s| - n <= i < |s| ==> IsSpace(s[i])
    ensures n < |s| ==> !IsSpace(s[|s| - n - 1])
  {
    if |s| > 0 && IsSpace(s[|s| - 1]) then
      var t := s[..|s| - 1];
      var n := 1 + TrailingSpace(t);
      assert forall i :: |s| - n <= i < |s| - 1 ==> s[i] == t[i];
      n
    else 0
  }

  /**
   * `str.strip()`: the result is a middle slice of `s`, everything cut off at
   * either end is whitespace, and the result neither starts nor ends with it.
   */
  function Trim(s: string): (r: string)
    ensures Trimmed(r)
    ensures exists i :: 0 <= i <= |s| - |r| && r == s[i..i + |r|] && AllSpace(s[..i]) && AllSpace(s[i + |r|..])
  {
    var i := LeadingSpace(s);
    var n := TrailingSpace(s[i..]);
    TrimCut(s, i, s[i..], n);
    s[i..|s| - n]
  }

  /** Cutting the leading and the trailing whitespace leaves a trimmed middle slice. */
  lemma TrimCut(s: string, i: nat, t: string, n: nat)
    requires i <= |s| && t == s[i..] && AllSpace(s[..i]) && (i < |s| ==> !IsSpace(s[i]))
    requires n <= |t| && (forall k :: |t| - n <= k < |t| ==> IsSpace(t[k])) && (n < |t| ==> !IsSpace(t[|t| - n - 1]))
    ensures Trimmed(s[i..|s| - n])
    ensures AllSpace(s[i + |s[i..|s| - n]|..])
  {
    SpaceSuffix(t, n);
    var j := |t| - n;
    var r := t[..j];
    assert r == s[i..|s| - n];
    assert s[i + j..] == t[j..];
    assert j > 0 ==> r[0] == s[i] && r[j - 1] == t[j - 1];
  }

  lemma SpaceSuffix(t: string, n: nat)
    requires n <= |t| && forall k :: |t| - n <= k < |t| ==> IsSpace(t[k])
    ensures AllSpace(t[|t| - n..])
  {
    var u := t[|t| - n..];
    forall k | 0 <= k < |u| ensures IsSpace(u[k]) {
      assert u[k] == t[|t| - n + k];
    }
  }

  /** Trimming text that has no outer whitespace changes nothing. */
  lemma TrimTrimmed(s: string)
    requires Trimmed(s)
    ensures Trim(s) == s
  {
    assert s[0..] == s;
    assert s[..|s|] == s;
  }
}
