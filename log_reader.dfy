/** The log search over SSH servers: reading `grep -H -n` output into log
    entries, summarising a server's entries, and collecting one result per
    server. The connections and the remote commands are left out; what they
    return is a parameter. */
module LogReader {
  import opened Wrappers
  import opened Text
  import opened Sequences
  import opened Sorting
  import opened Dicts

  /** One log line found on a server. Timestamps are ints; the `context`
      dictionary holds only `raw_line`, kept here as its own field. */
  datatype LogEntry = LogEntry(
    timestamp: int, aware: bool, server: string, logFile: string, level: string, message: string, rawLine: string)

  /** A `datetime` as an integer time and whether it carries a UTC offset:
      a parsed ISO timestamp is aware, the `datetime.now()` a line without
      one gets is naive. */
  datatype Stamp = Stamp(aware: bool, time: int)

  datatype LogSearchResult = LogSearchResult(
    server: string, totalEntries: int, entries: seq<LogEntry>, searchSummary: string, errors: seq<string>)

  // ------------------------------------------------------------ log level

  const Levels: seq<string> := ["DEBUG", "INFO", "WARN", "WARNING", "ERROR", "FATAL", "CRITICAL"]

  /** `\w` for ASCII text. */
  predicate WordChar(c: char) {
    ('a' <= c <= 'z') || ('A' <= c <= 'Z') || ('0' <= c <= '9') || c == '_'
  }

  /** `k` occurs at `i`, ignoring case, as a whole word (`\b` on both sides). */
  predicate WordAt(s: string, i: nat, k: string) {
    && i + |k| <= |s|
    && (forall j :: 0 <= j < |k| ==> LowerChar(s[i + j]) == LowerChar(k[j]))
    && (i == 0 || !WordChar(s[i - 1]))
    && (i + |k| == |s| || !WordChar(s[i + |k|]))
  }

  /** The first of the alternatives `ks` that matches at `i`. */
  function FirstWordAt(s: string, i: nat, ks: seq<string>): (r: Option<string>)
    ensures r.Some? ==> r.value in ks && WordAt(s, i, r.value)
    ensures r.None? ==> forall k :: k in ks ==> !WordAt(s, i, k)
  {
    if |ks| == 0 then None
    else if WordAt(s, i, ks[0]) then Some(ks[0])
    else FirstWordAt(s, i, ks[1..])
  }

  /** The level keyword matching at `i`, if any. */
  function KeywordAt(s: string, i: nat): Option<string> {
    FirstWordAt(s, i, Levels)
  }

  /** `re.search(level_pattern, s, re.IGNORECASE)` from `i` on, upper-cased,
      or `INFO` when nothing matches. */
  function LevelFrom(s: string, i: nat): (r: string)
    ensures r in Levels
    decreases |s| - i
  {
    if i >= |s| then "INFO"
    else match KeywordAt(s, i)
      case Some(k) => k
      case None => LevelFrom(s, i + 1)
  }

  /** The level found from `i` on is the keyword at the first position that
      has one, or `INFO` when none has. */
  lemma {:induction false} LevelFromFirst(s: string, i: nat)
    ensures || (exists p :: i <= p < |s| && KeywordAt(s, p) == Some(LevelFrom(s, i))
                  && (forall q :: i <= q < p ==> KeywordAt(s, q).None?))
            || (LevelFrom(s, i) == "INFO" && forall p :: i <= p < |s| ==> KeywordAt(s, p).None?)
    decreases |s| - i
  {
    hide KeywordAt;
    if i < |s| && KeywordAt(s, i).None? {
      LevelFromFirst(s, i + 1);
      if p :| i + 1 <= p < |s| && KeywordAt(s, p) == Some(LevelFrom(s, i + 1))
               && (forall q :: i + 1 <= q < p ==> KeywordAt(s, q).None?) {
        assert forall q :: i <= q < p ==> KeywordAt(s, q).None?;
      }
    }
  }

  /** The level of a log line: the leftmost keyword, in upper case, else
      `INFO`. The matched text is the keyword up to case, so its upper-case
      form is the keyword itself. */
  function LevelOf(s: string): string {
    LevelFrom(s, 0)
  }

  lemma LowerWord(c: char)
    ensures WordChar(LowerChar(c)) == WordChar(c) && LowerChar(LowerChar(c)) == LowerChar(c)
  {
  }

  lemma {:induction false} FirstWordLower(s: string, i: nat, ks: seq<string>)
    ensures FirstWordAt(Lower(s), i, ks) == FirstWordAt(s, i, ks)
  {
    var t := Lower(s);
    forall j | 0 <= j < |s| ensures WordChar(t[j]) == WordChar(s[j]) && LowerChar(t[j]) == LowerChar(s[j]) {
      LowerWord(s[j]);
    }
    if |ks| > 0 {
      FirstWordLower(s, i, ks[1..]);
      var k := ks[0];
      if i + |k| <= |s| {
        assert (forall j :: 0 <= j < |k| ==> LowerChar(t[i + j]) == LowerChar(k[j]))
           <==> (forall j :: 0 <= j < |k| ==> LowerChar(s[i + j]) == LowerChar(k[j]));
      }
      assert WordAt(t, i, k) == WordAt(s, i, k);
    }
  }

  lemma {:induction false} LevelFromLower(s: string, i: nat)
    ensures LevelFrom(Lower(s), i) == LevelFrom(s, i)
    decreases |s| - i
  {
    hide FirstWordAt, Lower;
    FirstWordLower(s, i, Levels);
    assert KeywordAt(Lower(s), i) == KeywordAt(s, i);
    if i < |s| {
      LevelFromLower(s, i + 1);
    }
  }

  /** The level does not depend on the case of the line. */
  lemma LevelIgnoresCase(s: string)
    ensures LevelOf(Lower(s)) == LevelOf(s)
  {
    LevelFromLower(s, 0);
  }

  // ------------------------------------------------------------ _parse_log_output

  /** One line of `grep -H -n` output: `<file>:<line number>:<content>`.
      Blank lines and lines with fewer than two colons give no entry; the
      content is everything after the second colon, later colons included.
      The timestamp extraction (an ISO date in the content, else the time of
      parsing) is the parameter `timeOf`. */
  function LineEntry(line: string, server: string, timeOf: string -> Stamp): (r: Option<LogEntry>)
    ensures r.Some? ==> && r.value.server == server && ':' !in r.value.logFile
                        && r.value.level in Levels && r.value.message == Strip(r.value.rawLine)
  {
    if Strip(line) == "" then None else GrepEntry(line, server, timeOf)
  }

  /** The file (before the first colon) and the content (after the second)
      of a line, when it has two colons. */
  function FileAndContent(line: string): (r: Option<(string, string)>)
    ensures r.Some? ==> ':' !in r.value.0
  {
    var k1 := Find(line, ':');
    if k1 < 0 then None
    else
      var k2 := Find(line[k1 + 1..], ':');
      if k2 < 0 then None else Some((line[..k1], line[k1 + 1 + k2 + 1..]))
  }

  /** The entry of a non-blank line, when it has two colons. */
  function GrepEntry(line: string, server: string, timeOf: string -> Stamp): (r: Option<LogEntry>)
    ensures r.Some? ==> && r.value.server == server && ':' !in r.value.logFile
                        && r.value.level in Levels && r.value.message == Strip(r.value.rawLine)
  {
    match FileAndContent(line)
    case None => None
    case Some((file, content)) =>
      Some(LogEntry(timeOf(content).time, timeOf(content).aware, server, file, LevelOf(content), Strip(content), content))
  }

  /** The `try` block of one line: split at the first two colons and read
      the level and message from the content. */
  method ParseGrepLine(line: string, server: string, timeOf: string -> Stamp) returns (r: Option<LogEntry>)
    ensures r == GrepEntry(line, server, timeOf)
  {
    hide LevelOf, Strip, Find;
    r := None;
    var k1 := Find(line, ':');
    if k1 >= 0 {
      var k2 := Find(line[k1 + 1..], ':');
      if k2 >= 0 {
        var content := line[k1 + 1 + k2 + 1..];
        r := Some(LogEntry(timeOf(content).time, timeOf(content).aware, server, line[..k1], LevelOf(content), Strip(content), content));
      }
    }
  }

  /** The entries of the lines that parse, in order. */
  function ParsedEntries(lines: seq<string>, server: string, timeOf: string -> Stamp): (r: seq<LogEntry>)
    ensures |r| <= |lines|
    ensures forall e :: e in r ==> && e.server == server && ':' !in e.logFile
                                   && e.level in Levels && e.message == Strip(e.rawLine)
  {
    if |lines| == 0 then []
    else
      var init := ParsedEntries(lines[..|lines| - 1], server, timeOf);
      match LineEntry(lines[|lines| - 1], server, timeOf)
      case None => init
      case Some(e) => init + [e]
  }

  /** One more line adds its entry, if it has one. */
  lemma ParsedStep(lines: seq<string>, i: nat, server: string, timeOf: string -> Stamp)
    requires i < |lines|
    ensures ParsedEntries(lines[..i + 1], server, timeOf)
            == ParsedEntries(lines[..i], server, timeOf)
               + (match LineEntry(lines[i], server, timeOf) case None => [] case Some(e) => [e])
  {
    hide LineEntry;
    assert lines[..i + 1][..i] == lines[..i];
  }

  method ParseLogOutput(output: string, server: string, timeOf: string -> Stamp) returns (entries: seq<LogEntry>)
    ensures entries == ParsedEntries(Split(Strip(output), '\n'), server, timeOf)
  {
    hide GrepEntry, Split, ParsedEntries, Strip;
    var lines := Split(Strip(output), '\n');
    entries := [];
    for i := 0 to |lines|
      invariant entries == ParsedEntries(lines[..i], server, timeOf)
    {
      ParsedStep(lines, i, server, timeOf);
      var line := lines[i];
      if Strip(line) == "" {
        continue;
      }
      var entry := ParseGrepLine(line, server, timeOf);
      if entry.Some? {
        entries := entries + [entry.value];
      }
    }
    assert lines[..|lines|] == lines;
  }

  /** A line as `grep -H -n` writes it gives back the file and the content. */
  lemma GrepLineParses(file: string, number: string, content: string, server: string, timeOf: string -> Stamp)
    requires ':' !in file && ':' !in number
    ensures var e := LineEntry(file + ":" + number + ":" + content, server, timeOf);
      && e.Some? && e.value.logFile == file && e.value.rawLine == content
      && e.value.level == LevelOf(content) && e.value.timestamp == timeOf(content).time && e.value.aware == timeOf(content).aware
  {
    hide LevelOf, Strip, Find;
    var line := file + ":" + number + ":" + content;
    assert line[|file|] == ':' && !IsSpace(':');
    assert line[..|file|] == file;
    var rest := line[|file| + 1..];
    assert rest == number + ":" + content;
    assert rest[..|number|] == number && rest[|number|] == ':';
    assert Find(line, ':') == |file|;
    assert Find(rest, ':') == |number|;
    assert line[|file| + 1 + |number| + 1..] == content;
    assert FileAndContent(line) == Some((file, content));
  }

  /** `s.split(c)` at the first `c`. */
  lemma SplitAtFind(s: string, c: char)
    ensures Find(s, c) < 0 ==> Split(s, c) == [s]
    ensures Find(s, c) >= 0 ==> Split(s, c) == [s[..Find(s, c)]] + Split(s[Find(s, c) + 1..], c)
  {
  }

  /** The colon positions agree with Python's `line.split(':', 3)`: a line
      has two colons exactly when it has at least three parts; the file is
      the first part and the content the later parts joined by `:`. */
  lemma ColonsAgreeWithSplit(line: string)
    ensures var parts := Split(line, ':');
      && (FileAndContent(line).Some? <==> |parts| >= 3)
      && (FileAndContent(line).Some? ==> FileAndContent(line).value == (parts[0], Join(":", parts[2..])))
  {
    hide Split, Join, Find;
    var parts := Split(line, ':');
    var k1 := Find(line, ':');
    SplitAtFind(line, ':');
    if k1 < 0 {
      assert |parts| == 1;
    } else {
      var t := line[k1 + 1..];
      var k2 := Find(t, ':');
      SplitAtFind(t, ':');
      var tail := Split(t, ':');
      assert parts == [line[..k1]] + tail;
      if k2 < 0 {
        assert |parts| == 2;
      } else {
        var u := t[k2 + 1..];
        assert tail == [t[..k2]] + Split(u, ':');
        assert u == line[k1 + 1 + k2 + 1..];
        assert FileAndContent(line) == Some((line[..k1], u));
        assert parts[2..] == Split(u, ':');
        assert ":" == [':'];
      }
    }
  }

  /** There is an entry exactly when a non-blank line splits into at least
      three parts; the file is the first part and the content the later
      parts joined by `:`. */
  lemma LineEntryAgreesWithSplit(line: string, server: string, timeOf: string -> Stamp)
    ensures var parts := Split(line, ':');
      && (LineEntry(line, server, timeOf).Some? <==> Strip(line) != "" && |parts| >= 3)
      && (LineEntry(line, server, timeOf).Some? ==>
            LineEntry(line, server, timeOf).value.logFile == parts[0]
            && LineEntry(line, server, timeOf).value.rawLine == Join(":", parts[2..]))
  {
    hide Split, Strip, LevelOf, Join;
    ColonsAgreeWithSplit(line);
  }

  // ------------------------------------------------------------ _generate_search_summary

  /** How many entries have level `l`. */
  function Count(es: seq<LogEntry>, l: string): nat {
    if |es| == 0 then 0 else Count(es[..|es| - 1], l) + (if es[|es| - 1].level == l then 1 else 0)
  }

  /** `level_counts[level] = level_counts.get(level, 0) + 1` */
  function Bump(counts: Dict<nat>, level: string): Dict<nat> {
    Put(counts, level, Get(counts, level).GetOr(0) + 1)
  }

  /** `level_counts` after all the entries, levels in order of first appearance. */
  function LevelCounts(es: seq<LogEntry>): Dict<nat> {
    if |es| == 0 then [] else Bump(LevelCounts(es[..|es| - 1]), es[|es| - 1].level)
  }

  /** The sum of the counts. */
  function Total(d: Dict<nat>): nat {
    if |d| == 0 then 0 else d[0].1 + Total(d[1..])
  }

  lemma {:induction false} TotalPut(d: Dict<nat>, k: string, v: nat)
    ensures Total(Put(d, k, v)) + Get(d, k).GetOr(0) == Total(d) + v
  {
    if |d| > 0 && d[0].0 != k {
      TotalPut(d[1..], k, v);
    }
  }

  /** Each level seen is counted once, with the number of its entries, and
      the counts add up to the number of entries. */
  lemma {:induction false} LevelCountsCorrect(es: seq<LogEntry>)
    ensures NoDuplicates(Keys(LevelCounts(es)))
    ensures forall l :: Get(LevelCounts(es), l) == if Count(es, l) > 0 then Some(Count(es, l)) else None
    ensures Total(LevelCounts(es)) == |es|
  {
    if |es| > 0 {
      var init, level := es[..|es| - 1], es[|es| - 1].level;
      var c := LevelCounts(init);
      LevelCountsCorrect(init);
      PutDistinct(c, level, Get(c, level).GetOr(0) + 1);
      TotalPut(c, level, Get(c, level).GetOr(0) + 1);
      forall l ensures Get(LevelCounts(es), l) == if Count(es, l) > 0 then Some(Count(es, l)) else None {
        GetPut(c, level, Get(c, level).GetOr(0) + 1, l);
      }
    }
  }

  function MinStamp(es: seq<LogEntry>): (m: int)
    requires |es| > 0
    ensures (exists i :: 0 <= i < |es| && es[i].timestamp == m) && forall i :: 0 <= i < |es| ==> m <= es[i].timestamp
  {
    if |es| == 1 then es[0].timestamp
    else
      var m := MinStamp(es[..|es| - 1]);
      assert forall i :: 0 <= i < |es| - 1 ==> es[..|es| - 1][i] == es[i];
      if es[|es| - 1].timestamp < m then es[|es| - 1].timestamp else m
  }

  function MaxStamp(es: seq<LogEntry>): (m: int)
    requires |es| > 0
    ensures (exists i :: 0 <= i < |es| && es[i].timestamp == m) && forall i :: 0 <= i < |es| ==> es[i].timestamp <= m
  {
    if |es| == 1 then es[0].timestamp
    else
      var m := MaxStamp(es[..|es| - 1]);
      assert forall i :: 0 <= i < |es| - 1 ==> es[..|es| - 1][i] == es[i];
      if es[|es| - 1].timestamp > m then es[|es| - 1].timestamp else m
  }

  const NoEntries := "No log entries found matching search terms"

  /** `f'{level}({count})'` for each level. */
  function LevelTexts(counts: Dict<nat>): (r: seq<string>)
    ensures |r| == |counts|
  {
    seq(|counts|, i requires 0 <= i < |counts| => counts[i].0 + "(" + NatToString(counts[i].1) + ")")
  }

  /** The summary: the number of entries, the time range (`render` is
      `str()` of a timestamp) and the count of each level. */
  function SearchSummary(es: seq<LogEntry>, render: int -> string): string {
    if |es| == 0 then NoEntries
    else
      Join(" | ", [
        "Found " + NatToString(|es|) + " log entries",
        "Time range: " + render(MinStamp(es)) + " to " + render(MaxStamp(es)),
        "Log levels: " + Join(", ", LevelTexts(LevelCounts(es)))])
  }

  method GenerateSearchSummary(es: seq<LogEntry>, render: int -> string) returns (summary: string)
    ensures summary == SearchSummary(es, render)
  {
    hide Join, NatToString, LevelTexts, MinStamp, MaxStamp, Put, Get;
    if |es| == 0 {
      return NoEntries;
    }
    var counts: Dict<nat> := [];
    for i := 0 to |es|
      invariant counts == LevelCounts(es[..i])
    {
      assert es[..i + 1][..i] == es[..i];
      var level := es[i].level;
      var current := Get(counts, level).GetOr(0);
      counts := Put(counts, level, current + 1);
    }
    assert es[..|es|] == es;
    var first, last := MinStamp(es), MaxStamp(es);
    summary := Join(" | ", [
      "Found " + NatToString(|es|) + " log entries",
      "Time range: " + render(first) + " to " + render(last),
      "Log levels: " + Join(", ", LevelTexts(counts))]);
  }

  /** The empty-search message is given exactly when nothing was found. */
  lemma SummaryEmptyIff(es: seq<LogEntry>, render: int -> string)
    ensures SearchSummary(es, render) == NoEntries <==> |es| == 0
  {
    if |es| > 0 {
      var found := "Found " + NatToString(|es|) + " log entries";
      var s := SearchSummary(es, render);
      assert s[0] == found[0] == 'F';
    }
  }

  // ------------------------------------------------------------ _build_date_filter

  /** `grep -E "(<start>|<end>)" || true`, the dates rendered `%Y-%m-%d`. */
  function DateFilter(start: int, end: int, renderDate: int -> string): string {
    "grep -E \"(" + renderDate(start) + "|" + renderDate(end) + ")\" || true"
  }

  /** The pattern's alternatives are the two dates, when neither holds a `|`. */
  lemma DateFilterAlternatives(start: int, end: int, renderDate: int -> string)
    requires '|' !in renderDate(start) && '|' !in renderDate(end)
    ensures var f := DateFilter(start, end, renderDate);
      var inner := renderDate(start) + "|" + renderDate(end);
      && f == "grep -E \"(" + inner + ")\" || true"
      && Split(inner, '|') == [renderDate(start), renderDate(end)]
  {
    var d1, d2 := renderDate(start), renderDate(end);
    var parts := [d1, d2];
    assert Join("|", parts) == d1 + "|" + d2 by {
      assert parts[1..] == [d2];
    }
    assert "|" == ['|'];
    SplitJoin(parts, '|');
  }

  // ------------------------------------------------------------ _search_server_logs

  const LogPaths: seq<string> := [
    "/var/log/application/*.log", "/var/log/app/*.log", "/opt/app/logs/*.log",
    "/home/app/logs/*.log", "/var/log/syslog", "/var/log/messages"]

  /** What searching one log path gave: its entries, or the error raised. */
  datatype PathOutcome = PathEntries(entries: seq<LogEntry>) | PathError(message: string)

  function Gathered(outcomes: seq<PathOutcome>): seq<LogEntry> {
    if |outcomes| == 0 then []
    else Gathered(outcomes[..|outcomes| - 1])
         + (match outcomes[|outcomes| - 1] case PathEntries(es) => es case PathError(_) => [])
  }

  function PathErrors(paths: seq<string>, outcomes: seq<PathOutcome>): seq<string>
    requires |paths| == |outcomes|
  {
    if |outcomes| == 0 then []
    else PathErrors(paths[..|paths| - 1], outcomes[..|outcomes| - 1])
         + (match outcomes[|outcomes| - 1]
            case PathEntries(_) => []
            case PathError(m) => ["Error searching " + paths[|paths| - 1] + ": " + m])
  }

  function StampOf(e: LogEntry): int {
    e.timestamp
  }

  const CompareError := "can't compare offset-naive and offset-aware datetimes"

  /** Some entries carry a UTC offset and some do not. Sorting such a list
      has to compare the two kinds at least once, and that comparison
      raises `TypeError`. */
  predicate MixedStamps(es: seq<LogEntry>) {
    (exists i :: 0 <= i < |es| && es[i].aware) && (exists j :: 0 <= j < |es| && !es[j].aware)
  }

  /** What searching one reachable server gives: every path's entries sorted
      by time, one error per failed path, and the summary; or, when the
      entries mix the two kinds of time, the `TypeError` of the sort, which
      the server search re-raises. */
  function ServerResult(host: string, paths: seq<string>, outcomes: seq<PathOutcome>, render: int -> string)
    : ServerOutcome
    requires |paths| == |outcomes|
  {
    var found := Gathered(outcomes);
    if MixedStamps(found) then Failed(CompareError)
    else
      var sorted := SortBy(found, StampOf);
      Searched(LogSearchResult(host, |sorted|, sorted, SearchSummary(sorted, render), PathErrors(paths, outcomes)))
  }

  method SearchServer(host: string, paths: seq<string>, outcomes: seq<PathOutcome>, render: int -> string)
    returns (r: ServerOutcome)
    requires |paths| == |outcomes|
    ensures r == ServerResult(host, paths, outcomes, render)
  {
    var entries: seq<LogEntry> := [];
    var errors: seq<string> := [];
    for i := 0 to |paths|
      invariant entries == Gathered(outcomes[..i])
      invariant errors == PathErrors(paths[..i], outcomes[..i])
    {
      assert outcomes[..i + 1][..i] == outcomes[..i] && paths[..i + 1][..i] == paths[..i];
      match outcomes[i]
      case PathEntries(es) =>
        entries := entries + es;
      case PathError(m) =>
        errors := errors + ["Error searching " + paths[i] + ": " + m];
    }
    assert outcomes[..|outcomes|] == outcomes && paths[..|paths|] == paths;
    if MixedStamps(entries) {
      return Failed(CompareError);
    }
    entries := SortBy(entries, StampOf);
    var summary := GenerateSearchSummary(entries, render);
    r := Searched(LogSearchResult(host, |entries|, entries, summary, errors));
  }

  /** A server fails exactly when its entries mix the two kinds of time.
      Otherwise its result counts its entries, holds every entry found on
      any path in time order (ties in the order found), and one error per
      failed path. */
  lemma ServerResultSound(host: string, paths: seq<string>, outcomes: seq<PathOutcome>, render: int -> string)
    requires |paths| == |outcomes|
    ensures ServerResult(host, paths, outcomes, render).Failed? <==> MixedStamps(Gathered(outcomes))
    ensures ServerResult(host, paths, outcomes, render).Failed? ==>
      ServerResult(host, paths, outcomes, render).message == CompareError
    ensures ServerResult(host, paths, outcomes, render).Searched? ==>
      var r := ServerResult(host, paths, outcomes, render).result;
      && r.totalEntries == |r.entries|
      && SortedBy(r.entries, StampOf)
      && multiset(r.entries) == multiset(Gathered(outcomes))
      && (forall t :: WithKey(r.entries, StampOf, t) == WithKey(Gathered(outcomes), StampOf, t))
      && (r.searchSummary == NoEntries <==> Gathered(outcomes) == [])
      && r.errors == PathErrors(paths, outcomes)
  {
    var g := Gathered(outcomes);
    if !MixedStamps(g) {
      SortByCorrect(g, StampOf);
      SummaryEmptyIff(SortBy(g, StampOf), render);
    }
  }

  /** A server whose log lines mix times with and without an offset ends up
      in the results as an error, with no entries at all. */
  lemma MixedServerIsError(host: string, paths: seq<string>, outcomes: seq<PathOutcome>, render: int -> string)
    requires |paths| == |outcomes| && MixedStamps(Gathered(outcomes))
    ensures var r := OutcomeResult(host, ServerResult(host, paths, outcomes, render));
      r.totalEntries == 0 && r.entries == [] && r.errors == [CompareError]
      && r.searchSummary == "Error: " + CompareError
  {
  }

  // ------------------------------------------------------------ search_logs

  /** What searching a whole server gave: its result, or the exception
      `asyncio.gather` returned in its place. */
  datatype ServerOutcome = Searched(result: LogSearchResult) | Failed(message: string)

  function OutcomeResult(host: string, o: ServerOutcome): LogSearchResult {
    match o
    case Searched(r) => r
    case Failed(m) => LogSearchResult(host, 0, [], "Error: " + m, [m])
  }

  /** `search_results`, keyed by host; a host listed twice keeps its last
      result in its first place. */
  function SearchResults(hosts: seq<string>, outcomes: seq<ServerOutcome>): Dict<LogSearchResult>
    requires |hosts| == |outcomes|
  {
    if |hosts| == 0 then []
    else
      var n := |hosts| - 1;
      Put(SearchResults(hosts[..n], outcomes[..n]), hosts[n], OutcomeResult(hosts[n], outcomes[n]))
  }

  method SearchLogs(hosts: seq<string>, outcomes: seq<ServerOutcome>) returns (results: Dict<LogSearchResult>)
    requires |hosts| == |outcomes|
    ensures results == SearchResults(hosts, outcomes)
  {
    results := [];
    for i := 0 to |hosts|
      invariant results == SearchResults(hosts[..i], outcomes[..i])
    {
      assert hosts[..i + 1][..i] == hosts[..i] && outcomes[..i + 1][..i] == outcomes[..i];
      var host := hosts[i];
      match outcomes[i]
      case Failed(m) =>
        results := Put(results, host, LogSearchResult(host, 0, [], "Error: " + m, [m]));
      case Searched(r) =>
        results := Put(results, host, r);
    }
    assert hosts[..|hosts|] == hosts && outcomes[..|outcomes|] == outcomes;
  }

  /** Every host has exactly one result. */
  lemma {:induction false} ResultKeys(hosts: seq<string>, outcomes: seq<ServerOutcome>)
    requires |hosts| == |outcomes|
    ensures NoDuplicates(Keys(SearchResults(hosts, outcomes)))
    ensures forall h :: h in Keys(SearchResults(hosts, outcomes)) <==> h in hosts
  {
    hide Put, OutcomeResult;
    if |hosts| > 0 {
      var n := |hosts| - 1;
      var d := SearchResults(hosts[..n], outcomes[..n]);
      ResultKeys(hosts[..n], outcomes[..n]);
      PutDistinct(d, hosts[n], OutcomeResult(hosts[n], outcomes[n]));
      PutKeys(d, hosts[n], OutcomeResult(hosts[n], outcomes[n]));
      assert hosts == hosts[..n] + [hosts[n]];
    }
  }

  /** The result of a host is the outcome of its last search. */
  lemma {:induction false} LastSearchWins(hosts: seq<string>, outcomes: seq<ServerOutcome>, i: nat)
    requires |hosts| == |outcomes| && i < |hosts|
    requires forall j :: i < j < |hosts| ==> hosts[j] != hosts[i]
    ensures Get(SearchResults(hosts, outcomes), hosts[i]) == Some(OutcomeResult(hosts[i], outcomes[i]))
  {
    hide Put, Get, OutcomeResult;
    var n := |hosts| - 1;
    var d := SearchResults(hosts[..n], outcomes[..n]);
    GetPut(d, hosts[n], OutcomeResult(hosts[n], outcomes[n]), hosts[i]);
    if i < n {
      LastSearchWins(hosts[..n], outcomes[..n], i);
    }
  }

  /** A failed server's result. */
  lemma FailedServerResult(host: string, m: string)
    ensures var r := OutcomeResult(host, Failed(m));
      r.server == host && r.totalEntries == 0 && r.entries == [] && r.errors == [m]
      && StartsWith(r.searchSummary, "Error: ")
  {
    StartsWithConcat("Error: ", m);
  }
}
