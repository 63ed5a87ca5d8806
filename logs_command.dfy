/** The `logs` command: the `ssh <server> '<journalctl ...> | <filters>'`
    line it runs to fetch a service's journal from a server, and the time
    window it asks for. The clock and the timestamp formatting are
    parameters; running the command is left out. */
module LogsCommand {
  import opened Wrappers
  import opened Text
  import opened RelativeTime

  /** The parsed command line. The optional strings are `""` when absent:
      the command only tests them for truth. `--tail` is `type=int`. */
  datatype Args = Args(
    server: string, since: string, last: string, until: string,
    service: string, userId: string, grep: string, output: string,
    tail: Option<int>, follow: bool)

  // ------------------------------------------------------------ _format_time

  /** `\d{4}-\d{2}-\d{2}` on exactly ten characters. */
  predicate DateShape(t: string) {
    && |t| == 10
    && IsDigit(t[0]) && IsDigit(t[1]) && IsDigit(t[2]) && IsDigit(t[3]) && t[4] == '-'
    && IsDigit(t[5]) && IsDigit(t[6]) && t[7] == '-' && IsDigit(t[8]) && IsDigit(t[9])
  }

  /** `re.match(r'^\d{4}-\d{2}-\d{2}$', s)`: the final `$` also matches in
      front of one trailing newline. */
  predicate DateMatch(s: string) {
    DateShape(s) || (|s| == 11 && s[10] == '\n' && DateShape(s[..10]))
  }

  /** `_format_time`: a bare date gets midnight appended, anything else is
      passed through as it is. */
  function FormatTime(s: string): (r: string)
    ensures StartsWith(r, s)
    ensures r != s <==> DateMatch(s)
    ensures r != s ==> r == s + " 00:00:00"
  {
    if DateMatch(s) then s + " 00:00:00" else s
  }

  /** Every `YYYY-MM-DD` date gets midnight, and a formatted time is left
      alone when formatted again. */
  lemma DateGetsMidnight(y: string, m: string, d: string)
    requires |y| == 4 && |m| == 2 && |d| == 2 && AllDigits(y) && AllDigits(m) && AllDigits(d)
    ensures FormatTime(y + "-" + m + "-" + d) == y + "-" + m + "-" + d + " 00:00:00"
    ensures FormatTime(FormatTime(y + "-" + m + "-" + d)) == FormatTime(y + "-" + m + "-" + d)
  {
    var s := y + "-" + m + "-" + d;
    assert s[0] == y[0] && s[1] == y[1] && s[2] == y[2] && s[3] == y[3];
    assert s[5] == m[0] && s[6] == m[1] && s[8] == d[0] && s[9] == d[1];
    assert DateShape(s);
    var r := s + " 00:00:00";
    assert r[10] == ' ' && |r| == 19;
  }

  // ------------------------------------------------------------ _parse_time_args

  /** `_parse_time_args`: `(since_time, until_time)`, `""` standing for
      `None`. `--since` wins over `--last`; `--until` counts only beside
      `--since`, and the window otherwise ends now. */
  function TimeArgs(a: Args, now: int, render: int -> string): (r: Result<(string, string)>)
    ensures r.Err? <==> a.since == "" && a.last != "" && RelativeSeconds(a.last).None?
    ensures r.Err? ==> r.error == "Invalid time format: " + a.last + ". Use format like 24h, 7d, 30m"
    ensures r.Ok? && a.since != "" ==> StartsWith(r.value.0, a.since)
    ensures r.Ok? && a.since == "" && a.last == "" ==> r.value == ("", "")
  {
    if a.since != "" then
      Ok((FormatTime(a.since), if a.until != "" then FormatTime(a.until) else render(now)))
    else if a.last != "" then
      match ParseRelativeTime(a.last, now, render)
      case Err(e) => Err(e)
      case Ok(t) => Ok((t, render(now)))
    else Ok(("", ""))
  }

  /** Without `--since`, `--until` changes nothing; with it, `--last`
      changes nothing. */
  lemma TimeArgsPrecedence(a: Args, now: int, render: int -> string, other: string)
    ensures a.since == "" ==> TimeArgs(a.(until := other), now, render) == TimeArgs(a, now, render)
    ensures a.since != "" ==> TimeArgs(a.(last := other), now, render) == TimeArgs(a, now, render)
  {
  }

  /** A window given by its start only, or by `--last`, ends at `now`; the
      start of a `--last` window is the count of units before `now`. */
  lemma WindowEndsNow(a: Args, now: int, render: int -> string, n: nat, u: char)
    requires IsUnit(u)
    ensures a.since != "" && a.until == "" ==>
      TimeArgs(a, now, render) == Ok((FormatTime(a.since), render(now)))
    ensures a.since == "" && a.last == NatToString(n) + [u] ==>
      TimeArgs(a, now, render) == Ok((render(now - n * UnitSeconds(u)), render(now)))
  {
    RelativeRoundTrip(n, u);
  }

  // ------------------------------------------------------------ escaping

  /** `s.replace(c, w)` for a one-character `c`, character by character. */
  function MapChar(s: string, c: char, w: string): string {
    if |s| == 0 then "" else (if s[0] == c then w else [s[0]]) + MapChar(s[1..], c, w)
  }

  lemma {:induction false} ReplaceOneChar(s: string, c: char, w: string)
    ensures Replace(s, [c], w) == MapChar(s, c, w)
  {
    if |s| > 0 {
      ReplaceOneChar(s[1..], c, w);
    }
  }

  lemma {:induction false} MapCharAppend(x: string, y: string, c: char, w: string)
    ensures MapChar(x + y, c, w) == MapChar(x, c, w) + MapChar(y, c, w)
  {
    if |x| > 0 {
      var head := if x[0] == c then w else [x[0]];
      assert (x + y)[0] == x[0] && (x + y)[1..] == x[1..] + y;
      MapCharAppend(x[1..], y, c, w);
      calc {
        MapChar(x + y, c, w);
        head + MapChar(x[1..] + y, c, w);
        head + (MapChar(x[1..], c, w) + MapChar(y, c, w));
        (head + MapChar(x[1..], c, w)) + MapChar(y, c, w);
      }
    } else {
      assert x + y == y;
    }
  }

  predicate Special(c: char) {
    c == '"' || c == '$'
  }

  /** A backslash in front of every `"` and `$`, and nothing else changed:
      inside the remote shell's double quotes neither can end the pattern or
      expand a variable. */
  function Escape(s: string): (r: string)
    ensures |r| >= |s|
    ensures |s| > 0 ==> !Special(r[0])
    ensures forall i :: 0 <= i < |r| && Special(r[i]) ==> i > 0 && r[i - 1] == '\\'
  {
    if |s| == 0 then ""
    else
      var head := if Special(s[0]) then ['\\', s[0]] else [s[0]];
      var rest := Escape(s[1..]);
      assert forall i :: |head| <= i < |head + rest| ==> (head + rest)[i] == rest[i - |head|];
      head + rest
  }

  /** `grep.replace('"', '\\"').replace('$', '\\$')` */
  function Escaped(grep: string): string {
    Replace(Replace(grep, "\"", "\\\""), "$", "\\$")
  }

  /** The two replacements escape the pattern, one character at a time. */
  lemma {:induction false} EscapedIsEscape(s: string)
    ensures Escaped(s) == Escape(s)
  {
    ReplaceOneChar(s, '"', "\\\"");
    ReplaceOneChar(MapChar(s, '"', "\\\""), '$', "\\$");
    EscapeByMaps(s);
  }

  lemma {:induction false} EscapeByMaps(s: string)
    ensures MapChar(MapChar(s, '"', "\\\""), '$', "\\$") == Escape(s)
  {
    if |s| > 0 {
      var once := if s[0] == '"' then "\\\"" else [s[0]];
      MapCharAppend(once, MapChar(s[1..], '"', "\\\""), '$', "\\$");
      EscapeByMaps(s[1..]);
    }
  }

  /** The characters a backslash escapes inside bash's double quotes. */
  predicate QuoteEscapable(c: char) {
    c == '$' || c == '`' || c == '"' || c == '\\' || c == '\n'
  }

  function Prepend(c: char, rest: Option<string>): Option<string> {
    if rest.None? then None else Some([c] + rest.value)
  }

  /** What bash makes of the text between the double quotes of `grep "..."`:
      a backslash before `$`, a backquote, `"`, a backslash or a newline is
      dropped (before a newline, both go), any other backslash stays. An
      unescaped `$` or backquote starts an expansion or a command
      substitution, an unescaped `"` ends the quoting, and a final backslash
      escapes the closing quote; the model gives `None` for all four, as the
      text is then not passed on literally. */
  function DoubleQuoted(e: string): (r: Option<string>)
    ensures r.Some? ==> |r.value| <= |e|
    decreases |e|
  {
    if |e| == 0 then Some("")
    else if e[0] == '\\' then
      if |e| == 1 then None
      else if e[1] == '\n' then DoubleQuoted(e[2..])
      else if QuoteEscapable(e[1]) then Prepend(e[1], DoubleQuoted(e[2..]))
      else Prepend('\\', DoubleQuoted(e[1..]))
    else if e[0] == '$' || e[0] == '`' || e[0] == '"' then None
    else Prepend(e[0], DoubleQuoted(e[1..]))
  }

  /** A pattern with no backslash and no backquote: the only characters
      bash treats specially inside double quotes that the escaping leaves alone. */
  predicate PlainPattern(s: string) {
    forall i :: 0 <= i < |s| ==> s[i] != '\\' && s[i] != '`'
  }

  /** For such a pattern the remote shell hands grep exactly the user's pattern. */
  lemma {:induction false} UnescapeEscaped(s: string)
    requires PlainPattern(s)
    ensures DoubleQuoted(Escaped(s)) == Some(s)
  {
    EscapedIsEscape(s);
    UnescapeEscape(s);
  }

  lemma {:induction false} UnescapeEscape(s: string)
    requires PlainPattern(s)
    ensures DoubleQuoted(Escape(s)) == Some(s)
  {
    if |s| > 0 {
      var e, rest := Escape(s), Escape(s[1..]);
      assert PlainPattern(s[1..]) by {
        forall i | 0 <= i < |s[1..]| ensures s[1..][i] != '\\' && s[1..][i] != '`' {
          assert s[1..][i] == s[i + 1];
        }
      }
      UnescapeEscape(s[1..]);
      if Special(s[0]) {
        assert e == ['\\', s[0]] + rest;
        assert e[2..] == rest;
      } else {
        assert e == [s[0]] + rest;
        assert e[1..] == rest;
      }
      assert [s[0]] + s[1..] == s;
    }
  }

  /** A pattern without `"` and `$` is sent as it is. */
  lemma {:induction false} EscapedUnchanged(s: string)
    requires forall i :: 0 <= i < |s| ==> !Special(s[i])
    ensures Escaped(s) == s
  {
    EscapedIsEscape(s);
    EscapeUnchanged(s);
  }

  lemma {:induction false} EscapeUnchanged(s: string)
    requires forall i :: 0 <= i < |s| ==> !Special(s[i])
    ensures Escape(s) == s
  {
    if |s| > 0 {
      assert forall i :: 0 <= i < |s[1..]| ==> s[1..][i] == s[i + 1];
      EscapeUnchanged(s[1..]);
      assert [s[0]] + s[1..] == s;
    }
  }

  /** Only `"` and `$` are escaped, so a doubled backslash in the pattern
      reaches grep as a single one. */
  lemma BackslashesHalved()
    ensures DoubleQuoted(Escaped("a\\\\b")) == Some("a\\b")
  {
    var p := "a\\\\b";
    EscapedUnchanged(p);
    var tail := p[1..];
    assert tail[0] == '\\' && tail[1] == '\\' && tail[2..] == "b";
    assert DoubleQuoted("b") == Some("b");
    assert DoubleQuoted(tail) == Prepend('\\', DoubleQuoted("b"));
    assert DoubleQuoted(p) == Prepend('a', DoubleQuoted(tail));
    assert [p[0]] + "\\b" == "a\\b";
  }

  /** A backquoted command in the pattern runs on the server. */
  lemma BackquoteSubstitutes()
    ensures DoubleQuoted(Escaped("x`id`")).None?
  {
    var p := "x`id`";
    EscapedUnchanged(p);
    assert p[1..][0] == '`';
    assert DoubleQuoted(p[1..]).None?;
  }

  /** A pattern ending in a backslash escapes the closing quote. */
  lemma TrailingBackslashOpensQuote()
    ensures DoubleQuoted(Escaped("a\\")).None?
  {
    var p := "a\\";
    EscapedUnchanged(p);
    assert p[1..] == "\\";
    assert DoubleQuoted(p[1..]).None?;
  }

  // ------------------------------------------------------------ _build_ssh_command

  function Quoted(t: string): string {
    "\"" + t + "\""
  }

  function When(b: bool, parts: seq<string>): seq<string> {
    if b then parts else []
  }

  /** `elif args.tail:` -- a tail of 0 is false. */
  predicate TailGiven(tail: Option<int>) {
    tail.Some? && tail.value != 0
  }

  /** `-f` when following, else `-n <tail>` when a tail is given. */
  function TailParts(a: Args): seq<string> {
    if a.follow then ["-f"]
    else if TailGiven(a.tail) then ["-n", IntToString(a.tail.value)]
    else []
  }

  /** `journalctl_parts` for the time window `(since, until)`. */
  function JournalctlParts(a: Args, since: string, until: string): seq<string> {
    ["sudo", "journalctl", "-u", a.service]
    + When(since != "", ["--since", Quoted(since)])
    + When(until != "", ["--until", Quoted(until)])
    + TailParts(a)
  }

  function UserFilter(userId: string): string {
    "grep \"/" + userId + "/\""
  }

  function GrepFilter(grep: string): string {
    "grep \"" + Escaped(grep) + "\""
  }

  /** `filters`: the user filter, then the extra pattern, each when given. */
  function Filters(a: Args): seq<string> {
    When(a.userId != "", [UserFilter(a.userId)]) + When(a.grep != "", [GrepFilter(a.grep)])
  }

  function Remote(a: Args, since: string, until: string): string {
    Join(" | ", [Join(" ", JournalctlParts(a, since, until))] + Filters(a))
  }

  /** ` > <output>` when an output file is given and the log is not followed. */
  function Redirect(a: Args): string {
    if a.output != "" && !a.follow then " > " + a.output else ""
  }

  function SshLine(a: Args, since: string, until: string): string {
    "ssh " + a.server + " '" + Remote(a, since, until) + "'" + Redirect(a)
  }

  /** The command `_build_ssh_command` returns, or the error it raises. */
  function SshCommand(a: Args, now: int, render: int -> string): Result<string> {
    match TimeArgs(a, now, render)
    case Err(e) => Err(e)
    case Ok((since, until)) => Ok(SshLine(a, since, until))
  }

  /** The `journalctl_parts` list, extended option by option. */
  method BuildJournalctl(a: Args, since: string, until: string) returns (parts: seq<string>)
    ensures parts == JournalctlParts(a, since, until)
  {
    hide IntToString, Quoted;
    var head := ["sudo", "journalctl", "-u", a.service];
    parts := head;
    if since != "" {
      parts := parts + ["--since", Quoted(since)];
    }
    assert parts == head + When(since != "", ["--since", Quoted(since)]);
    ghost var timed := parts;
    if until != "" {
      parts := parts + ["--until", Quoted(until)];
    }
    assert parts == timed + When(until != "", ["--until", Quoted(until)]);
    timed := parts;
    if a.follow {
      parts := parts + ["-f"];
    } else if a.tail.Some? && a.tail.value != 0 {
      parts := parts + ["-n", IntToString(a.tail.value)];
    }
    assert parts == timed + TailParts(a);
  }

  /** The `filters` list, then the remote command joined from the journal
      command and the filters. */
  method BuildRemote(a: Args, since: string, until: string) returns (remote: string)
    ensures remote == Remote(a, since, until)
  {
    hide Join, Replace, JournalctlParts;
    var journalctl := BuildJournalctl(a, since, until);
    var filters: seq<string> := [];
    if a.userId != "" {
      filters := filters + ["grep \"/" + a.userId + "/\""];
    }
    if a.grep != "" {
      var escaped := Replace(Replace(a.grep, "\"", "\\\""), "$", "\\$");
      filters := filters + ["grep \"" + escaped + "\""];
    }
    assert filters == Filters(a);
    var commandParts := [Join(" ", journalctl)];
    if |filters| > 0 {
      commandParts := commandParts + filters;
    }
    assert commandParts == [Join(" ", journalctl)] + filters;
    remote := Join(" | ", commandParts);
  }

  method BuildSshCommand(a: Args, now: int, render: int -> string) returns (r: Result<string>)
    ensures r == SshCommand(a, now, render)
  {
    hide Remote;
    var times := TimeArgs(a, now, render);
    if times.Err? {
      return Err(times.error);
    }
    var (since, until) := times.value;
    var remote := BuildRemote(a, since, until);
    var ssh := "ssh " + a.server + " '" + remote + "'";
    if a.output != "" && !a.follow {
      ssh := ssh + " > " + a.output;
    }
    assert ssh == SshLine(a, since, until);
    r := Ok(ssh);
  }

  // ------------------------------------------------------------ properties

  /** `sep` in front of each part: what the parts after the first add to a
      join. */
  function Prefixed(sep: string, q: seq<string>): string {
    if |q| == 0 then "" else Prefixed(sep, q[..|q| - 1]) + sep + q[|q| - 1]
  }

  lemma {:induction false} JoinThen(sep: string, p: seq<string>, q: seq<string>)
    requires |p| > 0
    ensures Join(sep, p + q) == Join(sep, p) + Prefixed(sep, q)
  {
    if |q| > 0 {
      var init := q[..|q| - 1];
      JoinThen(sep, p, init);
      assert p + q == (p + init) + [q[|q| - 1]];
      JoinAppend(sep, p + init, q[|q| - 1]);
    } else {
      assert p + q == p;
    }
  }

  lemma PrefixedOne(sep: string, x: string)
    ensures Prefixed(sep, [x]) == sep + x
  {
    var q := [x];
    assert q[..|q| - 1] == [];
    assert Prefixed(sep, q) == Prefixed(sep, []) + sep + x;
    assert "" + sep == sep;
  }

  lemma PrefixedPair(sep: string, x: string, y: string)
    ensures Prefixed(sep, [x, y]) == sep + x + sep + y
  {
    assert [x, y][..1] == [x] && [x, y][1] == y;
    PrefixedOne(sep, x);
  }

  lemma PrefixedWhen(sep: string, b: bool, x: string, y: string)
    ensures Prefixed(sep, When(b, [x, y])) == if b then sep + x + sep + y else ""
    ensures Prefixed(sep, When(b, [x])) == if b then sep + x else ""
  {
    PrefixedOne(sep, x);
    PrefixedPair(sep, x, y);
  }

  /** The journal command, written out: the service, then the quoted start
      and end when there are any, then `-f` or `-n <tail>`. */
  function JournalLine(a: Args, since: string, until: string): string {
    "sudo journalctl -u " + a.service + JournalOptions(a, since, until)
  }

  function JournalOptions(a: Args, since: string, until: string): string {
    SincePiece(since) + UntilPiece(until) + TailPiece(a)
  }

  function SincePiece(since: string): string {
    if since != "" then " --since " + Quoted(since) else ""
  }

  function UntilPiece(until: string): string {
    if until != "" then " --until " + Quoted(until) else ""
  }

  function TailPiece(a: Args): string {
    if a.follow then " -f" else if TailGiven(a.tail) then " -n " + IntToString(a.tail.value) else ""
  }

  /** The filters, written out: each after a ` | `, the user filter first. */
  function FilterText(a: Args): string {
    (if a.userId != "" then " | " + UserFilter(a.userId) else "")
    + (if a.grep != "" then " | " + GrepFilter(a.grep) else "")
  }

  lemma JoinSingle(sep: string, x: string)
    ensures Join(sep, [x]) == x
  {
  }

  lemma JoinFour(sep: string, w: string, x: string, y: string, z: string)
    ensures Join(sep, [w, x, y, z]) == w + sep + x + sep + y + sep + z
  {
    assert [w, x, y, z][1..] == [x, y, z] && [x, y, z][1..] == [y, z] && [y, z][1..] == [z];
    assert Join(sep, [y, z]) == y + sep + z;
    assert Join(sep, [x, y, z]) == x + sep + (y + sep + z);
  }

  lemma JoinHead(service: string)
    ensures Join(" ", ["sudo", "journalctl", "-u", service]) == "sudo journalctl -u " + service
  {
    JoinFour(" ", "sudo", "journalctl", "-u", service);
    assert "sudo" + " " + "journalctl" + " " + "-u" + " " == "sudo journalctl -u ";
  }

  lemma OptionPieces(a: Args, since: string, until: string)
    ensures Prefixed(" ", When(since != "", ["--since", Quoted(since)])) == SincePiece(since)
    ensures Prefixed(" ", When(until != "", ["--until", Quoted(until)])) == UntilPiece(until)
    ensures Prefixed(" ", TailParts(a)) == TailPiece(a)
  {
    hide Quoted, IntToString;
    PrefixedWhen(" ", since != "", "--since", Quoted(since));
    PrefixedWhen(" ", until != "", "--until", Quoted(until));
    assert " " + "--since" + " " == " --since " && " " + "--until" + " " == " --until ";
    if a.follow {
      PrefixedWhen(" ", true, "-f", "");
      assert " " + "-f" == " -f";
    } else if TailGiven(a.tail) {
      PrefixedWhen(" ", true, "-n", IntToString(a.tail.value));
      assert " " + "-n" + " " == " -n ";
    }
  }

  lemma JournalLineJoins(a: Args, since: string, until: string)
    ensures Join(" ", JournalctlParts(a, since, until)) == JournalLine(a, since, until)
  {
    hide Join, Prefixed, SincePiece, UntilPiece, TailPiece, TailParts, Quoted;
    var head := ["sudo", "journalctl", "-u", a.service];
    var s, u := When(since != "", ["--since", Quoted(since)]), When(until != "", ["--until", Quoted(until)]);
    var t := TailParts(a);
    JoinHead(a.service);
    JoinThen(" ", head, s);
    JoinThen(" ", head + s, u);
    JoinThen(" ", head + s + u, t);
    OptionPieces(a, since, until);
  }

  lemma FiltersJoin(a: Args)
    ensures Prefixed(" | ", Filters(a)) == FilterText(a)
  {
    hide UserFilter, GrepFilter;
    var f1 := When(a.userId != "", [UserFilter(a.userId)]);
    PrefixedWhen(" | ", a.userId != "", UserFilter(a.userId), "");
    if a.grep != "" {
      assert (f1 + [GrepFilter(a.grep)])[..|f1|] == f1;
    } else {
      assert f1 + [] == f1;
    }
  }

  lemma RemoteJoins(a: Args, since: string, until: string)
    ensures Remote(a, since, until) == JournalLine(a, since, until) + FilterText(a)
  {
    hide Join, Prefixed, JournalLine, JournalctlParts, Filters, FilterText;
    JournalLineJoins(a, since, until);
    var j := Join(" ", JournalctlParts(a, since, until));
    JoinSingle(" | ", j);
    JoinThen(" | ", [j], Filters(a));
    FiltersJoin(a);
  }

  /** The whole command: `ssh <server> '`, the journal command, its filters in
      order, the closing quote and, when saving and not following, the
      redirection. */
  lemma CommandLine(a: Args, since: string, until: string)
    ensures SshLine(a, since, until)
         == "ssh " + a.server + " '" + JournalLine(a, since, until) + FilterText(a) + "'" + Redirect(a)
    ensures StartsWith(SshLine(a, since, until), "ssh " + a.server + " '" + "sudo journalctl -u " + a.service)
  {
    hide Remote, JournalOptions, FilterText, Redirect;
    RemoteJoins(a, since, until);
    var head := "ssh " + a.server + " '" + "sudo journalctl -u " + a.service;
    var rest := JournalOptions(a, since, until) + FilterText(a) + "'" + Redirect(a);
    assert SshLine(a, since, until) == head + rest;
    StartsWithConcat(head, rest);
  }

  /** Following takes precedence: with `--follow` neither `--tail` nor
      `--output` changes the command, and it ends with the closing quote. */
  lemma FollowIgnoresTailAndOutput(a: Args, now: int, render: int -> string, tail: Option<int>, output: string)
    requires a.follow
    ensures SshCommand(a.(tail := tail, output := output), now, render) == SshCommand(a, now, render)
    ensures SshCommand(a, now, render).Ok? ==> EndsWith(SshCommand(a, now, render).value, "'")
  {
  }

  /** The output is redirected exactly when a file is given and the log is
      not followed. */
  lemma RedirectOnlyWhenSaving(a: Args, since: string, until: string)
    ensures a.output != "" && !a.follow ==> EndsWith(SshLine(a, since, until), " > " + a.output)
    ensures !(a.output != "" && !a.follow) ==> EndsWith(SshLine(a, since, until), "'")
  {
  }
}
