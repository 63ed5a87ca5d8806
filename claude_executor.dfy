/** The investigation step: the prompt handed to the coding agent's command
    line, the decision on what the finished command reports, the result record
    the pipeline receives, and the pull-request links read back from the
    transcript. The subprocess, the files and the clock are inputs. */
module ClaudeExecutor {
  import opened Wrappers
  import opened Text
  import opened Sequences
  import opened TicketProcessor
  import opened DeepSeekClient
  import FileDataStorage

  /** `ClaudeExecutionResult`, without the measured execution time. */
  datatype ClaudeExecutionResult = ClaudeExecutionResult(
    success: bool, logFilePath: string, exitCode: int, errorMessage: Option<string>,
    prUrls: seq<string>)

  /** The argument list of the agent's command line; `cliPath` is configured. */
  function CommandArgs(cliPath: string): (r: seq<string>)
    ensures |r| == 5 && r[0] == cliPath
    ensures r[1..] == ["--dangerously-skip-permissions", "--print", "--model", "claude-4"]
  {
    [cliPath, "--dangerously-skip-permissions", "--print", "--model", "claude-4"]
  }

  // ------------------------------------------------------------ running the command

  /** How the command ran: it completed with an exit code and its decoded
      output, or something inside the `try` (starting it, talking to it,
      writing its log) raised. */
  datatype ProcessOutcome = Completed(returnCode: int, output: string) | Raised(error: string)

  const NoOutputMessage := "No meaningful output from Claude execution - marking as failed"
  const CommandFailedPrefix := "Failed to execute Claude command: "
  const NonZeroMessage := "Non-zero exit code"

  /** `_run_claude_command`: the (exit code, error message) pair. Output of
      fewer than 50 characters once stripped is a failure whatever the exit
      code; an exception becomes exit code -1 unless writing the error log
      raises too (`errorLogFailure`), in which case that exception escapes. */
  function RunCommand(outcome: ProcessOutcome, errorLogFailure: Option<string>)
    : (r: Result<(int, Option<string>)>)
    ensures outcome.Completed? ==> r.Ok?
    ensures outcome.Completed? && |Strip(outcome.output)| < 50 ==> r == Ok((-1, Some(NoOutputMessage)))
    ensures outcome.Completed? && |Strip(outcome.output)| >= 50 ==>
      && r.value.0 == outcome.returnCode
      && (r.value.1.None? <==> outcome.returnCode == 0)
      && (r.value.1.Some? ==> r.value.1.value == NonZeroMessage)
    ensures outcome.Raised? ==> (r.Err? <==> errorLogFailure.Some?)
    ensures outcome.Raised? && r.Ok? ==> r.value == (-1, Some(CommandFailedPrefix + outcome.error))
    ensures r.Ok? ==> (r.value.0 != 0 ==> r.value.1.Some?)
  {
    match outcome
    case Completed(code, output) =>
      if |Strip(output)| < 50 then Ok((-1, Some(NoOutputMessage)))
      else Ok((code, if code == 0 then None else Some(NonZeroMessage)))
    case Raised(e) =>
      if errorLogFailure.Some? then Err(errorLogFailure.value)
      else Ok((-1, Some(CommandFailedPrefix + e)))
  }

  /** The command reports exit code 0 exactly when the process exited with 0
      and printed at least 50 characters that are not surrounding whitespace. */
  lemma RunCommandSucceeds(outcome: ProcessOutcome, errorLogFailure: Option<string>)
    ensures RunCommand(outcome, errorLogFailure).Ok? && RunCommand(outcome, errorLogFailure).value.0 == 0
       <==> outcome.Completed? && outcome.returnCode == 0 && |Strip(outcome.output)| >= 50
  {
  }

  /** What the log file holds after the command: its output, or the error
      line followed by the prompt. */
  function LogContents(outcome: ProcessOutcome, prompt: string): (r: string)
    ensures outcome.Completed? ==> r == outcome.output
    ensures outcome.Raised? ==> StartsWith(r, "ERROR: " + CommandFailedPrefix + outcome.error + "\n")
  {
    match outcome
    case Completed(_, output) => output
    case Raised(e) => "ERROR: " + CommandFailedPrefix + e + "\n" + "Original prompt:\n" + prompt + "\n"
  }

  // ------------------------------------------------------------ pull-request links

  /** The four link patterns, searched case-insensitively: a GitHub pull
      request URL, and any `https://` link after one of three labels (kept
      here in lower case). */
  datatype UrlPattern = GithubPull | Labelled(tag: string)

  const PrPatterns: seq<UrlPattern> :=
    [GithubPull, Labelled("pull request: "), Labelled("pr created: "), Labelled("created pull request: ")]

  const GithubPrefix := "https://github.com/"
  const HttpsPrefix := "https://"

  /** `lit` (lower case) occurs at `i` in `s`, ignoring the case of ASCII letters. */
  predicate LiteralAt(s: string, i: nat, lit: string) {
    i + |lit| <= |s| && forall k :: 0 <= k < |lit| ==> LowerChar(s[i + k]) == lit[k]
  }

  /** The end of the longest run from `i` of characters that are not `stop`. */
  function RunEnd(s: string, i: nat, stop: char -> bool): (e: nat)
    requires i <= |s|
    ensures i <= e <= |s|
    ensures forall k :: i <= k < e ==> !stop(s[k])
    ensures e < |s| ==> stop(s[e])
    decreases |s| - i
  {
    if i == |s| || stop(s[i]) then i else RunEnd(s, i + 1, stop)
  }

  predicate IsSlash(c: char) {
    c == '/'
  }

  predicate NotDigit(c: char) {
    !IsDigit(c)
  }

  /** A link starts, ignoring case, with `https://` and has more after it. */
  predicate LooksLikeLink(u: string) {
    |u| > |HttpsPrefix| && LiteralAt(u, 0, HttpsPrefix)
  }

  /** The match of a pattern starting at `i`, if any: where it ends and what
      `findall` reports (the whole match, or the captured link). Each `+` of
      the patterns is greedy over a class that excludes what follows it, so
      the longest run is the only candidate. */
  function MatchAt(s: string, i: nat, p: UrlPattern): (r: Option<(nat, string)>)
    requires i <= |s|
    ensures r.Some? ==> i < r.value.0 <= |s|
    ensures r.Some? ==> exists a :: i <= a <= r.value.0 && r.value.1 == s[a..r.value.0]
    ensures r.Some? ==> LooksLikeLink(r.value.1)
  {
    match p
    case GithubPull => GithubPullAt(s, i)
    case Labelled(tag) => LabelledAt(s, i, tag)
  }

  /** `https://github.com/<owner>/<repo>/pull/<digits>` at `i`. */
  function GithubPullAt(s: string, i: nat): (r: Option<(nat, string)>)
    requires i <= |s|
    ensures r.Some? ==> i < r.value.0 <= |s| && r.value.1 == s[i..r.value.0]
    ensures r.Some? ==> LooksLikeLink(r.value.1)
  {
    if !LiteralAt(s, i, GithubPrefix) then None
    else
      var a := i + |GithubPrefix|;
      var owner := RunEnd(s, a, IsSlash);
      if owner == a || owner == |s| then None
      else
        var repo := RunEnd(s, owner + 1, IsSlash);
        if repo == owner + 1 || !LiteralAt(s, repo, "/pull/") then None
        else
          var digits := RunEnd(s, repo + 6, NotDigit);
          if digits == repo + 6 then None
          else
            var u := s[i..digits];
            assert forall k :: 0 <= k < |HttpsPrefix| ==> u[k] == s[i + k] && HttpsPrefix[k] == GithubPrefix[k];
            Some((digits, u))
  }

  /** `<tag>https://<non-space run>` at `i`, reporting the link after the tag. */
  function LabelledAt(s: string, i: nat, tag: string): (r: Option<(nat, string)>)
    requires i <= |s|
    ensures r.Some? ==> i + |tag| <= r.value.0 <= |s| && r.value.1 == s[i + |tag|..r.value.0]
    ensures r.Some? ==> i < r.value.0 && LooksLikeLink(r.value.1)
  {
    if !LiteralAt(s, i, tag) || !LiteralAt(s, i + |tag|, HttpsPrefix) then None
    else
      var a := i + |tag|;
      var e := RunEnd(s, a + |HttpsPrefix|, IsSpace);
      if e == a + |HttpsPrefix| then None
      else
        var u := s[a..e];
        assert forall k :: 0 <= k < |HttpsPrefix| ==> u[k] == s[a + k];
        Some((e, u))
  }

  /** `re.findall` of one pattern from position `i`: matches do not overlap
      and the scan resumes where a match ends. */
  function FindAllFrom(s: string, p: UrlPattern, i: nat): (r: seq<string>)
    requires i <= |s|
    decreases |s| - i
  {
    hide MatchAt, Contains, LooksLikeLink;
    match MatchAt(s, i, p)
    case Some(m) => [m.1] + FindAllFrom(s, p, m.0)
    case None => if i == |s| then [] else FindAllFrom(s, p, i + 1)
  }

  /** The matches of the first patterns, in pattern order. */
  function AllMatches(s: string, patterns: seq<UrlPattern>): seq<string> {
    if |patterns| == 0 then []
    else AllMatches(s, patterns[..|patterns| - 1]) + FindAllFrom(s, patterns[|patterns| - 1], 0)
  }

  /** `list(set(matches))`, with the unspecified order of the set fixed to
      first occurrence. */
  function PrUrls(s: string): seq<string> {
    Dedup(AllMatches(s, PrPatterns))
  }

  lemma ContainsSlice(s: string, a: nat, e: nat)
    requires a <= e <= |s|
    ensures Contains(s, s[a..e])
  {
    assert s == s[..a] + s[a..e] + s[e..];
    ContainsMiddle(s[..a], s[a..e], s[e..]);
  }

  /** Every match of a pattern is a piece of the text that looks like a link. */
  lemma {:induction false} FindAllSound(s: string, p: UrlPattern, i: nat)
    requires i <= |s|
    ensures forall u :: u in FindAllFrom(s, p, i) ==> Contains(s, u) && LooksLikeLink(u)
    decreases |s| - i
  {
    hide MatchAt, Contains, LooksLikeLink;
    match MatchAt(s, i, p)
    case Some(m) =>
      FindAllSound(s, p, m.0);
      var a :| i <= a <= m.0 && m.1 == s[a..m.0];
      ContainsSlice(s, a, m.0);
    case None =>
      if i < |s| {
        FindAllSound(s, p, i + 1);
      }
  }

  lemma {:induction false} AllMatchesSound(s: string, patterns: seq<UrlPattern>)
    ensures forall u :: u in AllMatches(s, patterns) ==> Contains(s, u) && LooksLikeLink(u)
    decreases |patterns|
  {
    if |patterns| > 0 {
      AllMatchesSound(s, patterns[..|patterns| - 1]);
      FindAllSound(s, patterns[|patterns| - 1], 0);
    }
  }

  /** The extracted links are exactly the matches of the patterns, without
      repetition, and each is a piece of the transcript that starts with
      `https://`. */
  lemma PrUrlsCorrect(s: string)
    ensures NoDuplicates(PrUrls(s))
    ensures forall u :: u in PrUrls(s) <==> u in AllMatches(s, PrPatterns)
    ensures forall u :: u in PrUrls(s) ==> Contains(s, u) && LooksLikeLink(u)
  {
    AllMatchesSound(s, PrPatterns);
  }

  /** A match at `j` with none between `i` and `j` is reported by the scan from `i`. */
  lemma {:induction false} FindAllFromFirst(s: string, p: UrlPattern, i: nat, j: nat)
    requires i <= j <= |s|
    requires MatchAt(s, j, p).Some?
    requires forall k :: i <= k < j ==> MatchAt(s, k, p).None?
    ensures MatchAt(s, j, p).value.1 in FindAllFrom(s, p, i)
    decreases j - i
  {
    hide MatchAt;
    if i < j {
      FindAllFromFirst(s, p, i + 1, j);
    }
  }

  /** The matches of each pattern are among those of any longer pattern list. */
  lemma {:induction false} AllMatchesGrow(s: string, patterns: seq<UrlPattern>, n: nat)
    requires n <= |patterns|
    ensures forall u :: u in AllMatches(s, patterns[..n]) ==> u in AllMatches(s, patterns)
    decreases |patterns| - n
  {
    if n < |patterns| {
      AllMatchesGrow(s, patterns, n + 1);
      assert patterns[..n + 1][..n] == patterns[..n];
    } else {
      assert patterns[..n] == patterns;
    }
  }

  /** No GitHub pull-request link can start at a character other than `h` or `H`. */
  lemma NoPullWithoutH(s: string, k: nat)
    requires k < |s| && s[k] != 'h' && s[k] != 'H'
    ensures MatchAt(s, k, GithubPull).None?
  {
    assert LowerChar(s[k]) != GithubPrefix[0];
  }

  predicate NoLetterH(t: string) {
    forall k :: 0 <= k < |t| ==> t[k] != 'h' && t[k] != 'H'
  }

  lemma NoLetterHJoin(a: string, b: string)
    requires NoLetterH(a) && NoLetterH(b)
    ensures NoLetterH(a + b)
  {
    forall k | 0 <= k < |a + b| ensures (a + b)[k] != 'h' && (a + b)[k] != 'H' {
      if k < |a| {
        assert (a + b)[k] == a[k];
      } else {
        assert (a + b)[k] == b[k - |a|];
      }
    }
  }

  const EchoedLink := "https://github.com/a/b/pull/1"

  /** The log of a command that raised `x`, up to the echoed prompt. */
  const FailureHead := "ERROR: " + CommandFailedPrefix + "x" + "\n" + "Original prompt:\n"

  lemma FailureHeadHasNoH()
    ensures NoLetterH(FailureHead)
  {
    assert NoLetterH("ERROR: ");
    PrefixHasNoH();
    assert NoLetterH("x");
    assert NoLetterH("\n");
    assert NoLetterH("Original prompt:\n");
    NoLetterHJoin("ERROR: ", CommandFailedPrefix);
    NoLetterHJoin("ERROR: " + CommandFailedPrefix, "x");
    NoLetterHJoin("ERROR: " + CommandFailedPrefix + "x", "\n");
    NoLetterHJoin("ERROR: " + CommandFailedPrefix + "x" + "\n", "Original prompt:\n");
  }

  lemma PrefixHasNoH()
    ensures NoLetterH(CommandFailedPrefix)
  {
  }

  /** The echoed link is matched where it starts. */
  lemma EchoedLinkMatches(head: string)
    ensures MatchAt(head + EchoedLink + "\n", |head|, GithubPull)
         == Some((|head| + |EchoedLink|, EchoedLink))
  {
    var s := head + EchoedLink + "\n";
    var i := |head|;
    forall k | 0 <= k < |EchoedLink| + 1 ensures s[i + k] == (EchoedLink + "\n")[k] {
    }
    assert LiteralAt(s, i, GithubPrefix);
    assert RunEnd(s, i + 19, IsSlash) == i + 20;
    assert RunEnd(s, i + 21, IsSlash) == i + 22;
    assert LiteralAt(s, i + 22, "/pull/");
    assert RunEnd(s, i + 28, NotDigit) == i + 29;
    assert s[i..i + 29] == EchoedLink;
  }

  /** When the command raises, the log holds the prompt, so a pull-request
      link quoted in the prompt (from the ticket's conversation, say) comes
      back as a link the run created, although the run failed. */
  lemma FailedRunReportsPromptLinks()
    ensures RunCommand(Raised("x"), None) == Ok((-1, Some(CommandFailedPrefix + "x")))
    ensures EchoedLink in PrUrls(LogContents(Raised("x"), EchoedLink))
  {
    hide MatchAt, FindAllFrom;
    var s := LogContents(Raised("x"), EchoedLink);
    assert s == FailureHead + EchoedLink + "\n";
    var j := |FailureHead|;
    FailureHeadHasNoH();
    forall k | 0 <= k < j ensures MatchAt(s, k, GithubPull).None? {
      assert s[k] == FailureHead[k];
      NoPullWithoutH(s, k);
    }
    EchoedLinkMatches(FailureHead);
    FindAllFromFirst(s, GithubPull, 0, j);
    assert PrPatterns[..1] == [GithubPull];
    assert AllMatches(s, PrPatterns[..1]) == FindAllFrom(s, GithubPull, 0);
    AllMatchesGrow(s, PrPatterns, 1);
    PrUrlsCorrect(s);
  }

  /** `_extract_pr_urls_from_logs`: every pattern's matches are collected in
      turn and then de-duplicated; an unreadable log yields no links. */
  method ExtractPrUrls(content: Option<string>) returns (urls: seq<string>)
    ensures content.None? ==> urls == []
    ensures content.Some? ==> urls == PrUrls(content.value)
  {
    urls := [];
    if content.Some? {
      var s := content.value;
      var found: seq<string> := [];
      var i := 0;
      while i < |PrPatterns|
        invariant 0 <= i <= |PrPatterns|
        invariant found == AllMatches(s, PrPatterns[..i])
      {
        assert PrPatterns[..i + 1][..i] == PrPatterns[..i];
        found := found + FindAllFrom(s, PrPatterns[i], 0);
        i := i + 1;
      }
      assert PrPatterns[..|PrPatterns|] == PrPatterns;
      urls := Dedup(found);
    }
  }

  // ------------------------------------------------------------ the prompt

  const DefaultInstructions :=
    "You are a senior software engineer. Analyze the customer support ticket and resolve the issue."

  /** `_read_claude_instructions`: the instructions file when it could be
      read, the built-in instructions otherwise. */
  function ReadInstructions(claudeMd: Option<string>): (r: string)
    ensures claudeMd.Some? ==> r == claudeMd.value
    ensures claudeMd.None? ==> r == DefaultInstructions
  {
    claudeMd.GetOr(DefaultInstructions)
  }

  /** How an f-string shows an optional string. */
  function Show(value: Option<string>): string {
    if value.Some? then value.value else "None"
  }

  /** One entry of the conversation in the prompt. */
  function EntryBlock(e: ConversationEntry, strftime: int -> string): string {
    "[" + strftime(e.timestamp) + "] " + e.author + " (" + e.entryType + "):\n" + e.content + "\n\n"
  }

  function ConversationText(entries: seq<ConversationEntry>, strftime: int -> string): string {
    if |entries| == 0 then ""
    else ConversationText(entries[..|entries| - 1], strftime) + EntryBlock(entries[|entries| - 1], strftime)
  }

  const EmailLabel := "Primary Email: "
  const AlpacaLabel := "Alpaca ID: "
  const BankLabel := "Bank Relationship Code: "
  const NoCustomerText := "No specific customer information extracted"

  function FieldLine(heading: string, value: string): string {
    if value == "" then "" else heading + value + "\n"
  }

  /** The customer section: a line for each non-empty identifier, nothing
      for an empty one. */
  function CustomerSection(c: CustomerInfo): (r: string)
    ensures r == "" <==> c.primaryEmail == "" && c.alpacaId == "" && c.bankRelationshipCode == ""
    ensures c.primaryEmail != "" ==> StartsWith(r, EmailLabel + c.primaryEmail + "\n")
    ensures c.alpacaId != "" ==> Contains(r, AlpacaLabel + c.alpacaId + "\n")
    ensures c.bankRelationshipCode != "" ==> EndsWith(r, BankLabel + c.bankRelationshipCode + "\n")
    ensures r != "" ==> r[0] == 'P' || r[0] == 'A' || r[0] == 'B'
  {
    var email := FieldLine(EmailLabel, c.primaryEmail);
    var alpaca := FieldLine(AlpacaLabel, c.alpacaId);
    var bank := FieldLine(BankLabel, c.bankRelationshipCode);
    ThreePieces(email, alpaca, bank);
    email + alpaca + bank
  }

  /** Where each of three concatenated pieces sits, and which one supplies
      the first character. */
  lemma ThreePieces(a: string, b: string, c: string)
    ensures StartsWith(a + b + c, a) && EndsWith(a + b + c, c)
    ensures Contains(a + b + c, b)
    ensures a + b + c == "" <==> a == "" && b == "" && c == ""
    ensures a + b + c != "" ==>
      (a + b + c)[0] == (if a != "" then a[0] else if b != "" then b[0] else c[0])
  {
    var r := a + b + c;
    assert r[..|a|] == a;
    ContainsMiddle(a, b, c);
    assert r[|r| - |c|..] == c;
  }

  /** What the prompt shows under the customer heading. */
  function CustomerBlock(c: CustomerInfo): (r: string)
    ensures r == NoCustomerText <==> c.primaryEmail == "" && c.alpacaId == "" && c.bankRelationshipCode == ""
    ensures r != NoCustomerText ==> r == CustomerSection(c)
  {
    var section := CustomerSection(c);
    assert section != "" ==> section[0] != NoCustomerText[0];
    if section != "" then section else NoCustomerText
  }

  /** The timeframe section; every key is present once the analysis is mapped,
      so none of the lookups' own defaults applies. */
  function TimeframeSection(t: IssueTimeframe): string {
    "\nIssue Likely Occurred Between:\n- Start: " + t.estimatedStartDate
    + "\n- End: " + t.estimatedEndDate + "\n- Reasoning: " + t.reasoning + "\n"
  }

  /** `', '.join` raises on `None`: the prompt cannot be built when one of the
      joined lists is missing from the analysis. */
  predicate JoinBlocked(a: IssueAnalysis) {
    || a.technicalDetails.errorMessages.None? || a.technicalDetails.affectedFeatures.None?
    || a.affectedComponents.None? || a.errorPatterns.None?
  }

  const JoinError := "can only join an iterable"

  const FinalMarker := "=== FINAL ANALYSIS ==="

  const RequirementHead :=
    "\n\n=== CRITICAL REQUIREMENT ===\n"
    + "You MUST provide a comprehensive final analysis at the end of your response that includes:\n"
    + "1. Summary of findings from your investigation\n2. Root cause analysis (if identified)\n"
    + "3. Actions taken or recommended resolution steps\n4. Customer communication recommendations\n"
    + "5. Any PRs created or code changes made\n6. Follow-up actions needed\n\n"
    + "This final analysis section is mandatory and must be clearly marked with \""

  const RequirementTail :=
    "\" header.\n\nPlease proceed with your analysis and resolution according to the instructions above.\n"

  /** The closing requirement, naming the marker the final analysis must carry. */
  const Requirement := RequirementHead + FinalMarker + RequirementTail

  lemma RequirementHasMarker()
    ensures Contains(Requirement, FinalMarker)
  {
    ContainsMiddle(RequirementHead, FinalMarker, RequirementTail);
  }

  /** Everything up to the customer block: instructions, ticket and analysis. */
  function PromptHead(t: TicketData, a: IssueAnalysis, instructions: string, strDate: int -> string): string {
    Opening(instructions) + TicketBlock(t, a, strDate)
  }

  function Opening(instructions: string): string {
    "\n" + instructions + "\n\n"
  }

  const TicketHeading := "TICKET INFORMATION:\n===================\nTicket ID: "
  const TitleLabel := "\nTitle: "
  const StatusLabel := "\nStatus: "
  const PriorityLabel := "\nPriority: "
  const ReporterLabel := "\nReporter: "
  const CreatedLabel := "\nCreated: "
  const AnalysisHeading := "\n\nISSUE ANALYSIS:\n===============\nCategory: "
  const SeverityLabel := "\nSeverity: "
  const SummaryLabel := "\nSummary: "
  const CustomerHeading := "\n\nCUSTOMER INFORMATION:\n====================\n"
  const TimeframeHeading := "\n\nTIMEFRAME ANALYSIS:\n==================\n"
  const TechnicalHeading := "\n\nTECHNICAL DETAILS:\n==================\nError Messages: "
  const FeaturesLabel := "\nAffected Features: "
  const EnvironmentLabel := "\nUser Environment: "
  const ComponentsLabel := "\nAffected Components: "
  const PatternsHeading := "\n\nERROR PATTERNS FOR LOG SEARCH:\n==============================\n"
  const ConversationHeading := "\n\nFULL CONVERSATION HISTORY:\n==========================\n"
  const ListSeparator := ", "

  function TicketBlock(t: TicketData, a: IssueAnalysis, strDate: int -> string): string {
    TicketHeading + t.ticketId + TitleLabel + t.title + StatusLabel + t.status
    + PriorityLabel + t.priority + ReporterLabel + t.reporter + CreatedLabel + strDate(t.createdDate)
    + AnalysisHeading + Show(a.issueCategory) + SeverityLabel + Show(a.severity)
    + SummaryLabel + Show(a.issueSummary) + CustomerHeading
  }

  /** From the timeframe to the conversation heading. */
  function PromptMiddle(a: IssueAnalysis): string
    requires !JoinBlocked(a)
  {
    TimeframeHeading + TimeframeSection(a.issueTimeframe)
    + TechnicalHeading + Join(ListSeparator, a.technicalDetails.errorMessages.value)
    + FeaturesLabel + Join(ListSeparator, a.technicalDetails.affectedFeatures.value)
    + EnvironmentLabel + Show(a.technicalDetails.userEnvironment)
    + ComponentsLabel + Join(ListSeparator, a.affectedComponents.value)
    + PatternsHeading + Join(ListSeparator, a.errorPatterns.value)
    + ConversationHeading
  }

  /** The whole prompt. */
  function PromptText(t: TicketData, a: IssueAnalysis, instructions: string,
                      strftime: int -> string, strDate: int -> string): string
    requires !JoinBlocked(a)
  {
    PromptHead(t, a, instructions, strDate) + CustomerBlock(a.customerInfo) + PromptMiddle(a)
    + ConversationText(t.conversation, strftime) + Requirement
  }

  lemma FivePieces(h: string, b: string, m: string, c: string, q: string, part: string)
    ensures Contains(h + b + m + c + q, b)
    ensures Contains(h + b + m + c + q, c)
    ensures Contains(q, part) ==> Contains(h + b + m + c + q, part)
    ensures StartsWith(h + b + m + c + q, h)
  {
    assert h + b + m + c + q == h + b + (m + c + q);
    ContainsMiddle(h, b, m + c + q);
    assert h + b + m + c + q == (h + b + m) + c + q;
    ContainsMiddle(h + b + m, c, q);
    if Contains(q, part) {
      ContainsWithin(h + b + m + c, q, "", part);
      assert h + b + m + c + q + "" == h + b + m + c + q;
    }
    assert (h + b + m + c + q)[..|h|] == h;
  }

  /** The prompt always asks for the marked final analysis, carries the
      customer block (the placeholder exactly when no identifier is known)
      and the whole conversation, and opens with the instructions. */
  lemma PromptContents(t: TicketData, a: IssueAnalysis, instructions: string,
                       strftime: int -> string, strDate: int -> string)
    requires !JoinBlocked(a)
    ensures Contains(PromptText(t, a, instructions, strftime, strDate), FinalMarker)
    ensures Contains(PromptText(t, a, instructions, strftime, strDate), CustomerBlock(a.customerInfo))
    ensures Contains(PromptText(t, a, instructions, strftime, strDate), ConversationText(t.conversation, strftime))
    ensures StartsWith(PromptText(t, a, instructions, strftime, strDate), Opening(instructions))
  {
    var head := PromptHead(t, a, instructions, strDate);
    RequirementHasMarker();
    FivePieces(head, CustomerBlock(a.customerInfo), PromptMiddle(a),
               ConversationText(t.conversation, strftime), Requirement, FinalMarker);
    StartsWithConcat(Opening(instructions), TicketBlock(t, a, strDate));
    StartsWithChain(PromptText(t, a, instructions, strftime, strDate), head, Opening(instructions));
  }

  /** A well-formed analysis never blocks the prompt. */
  lemma WellFormedBuildsPrompt(a: IssueAnalysis)
    requires WellFormed(a)
    ensures !JoinBlocked(a)
  {
  }

  /** The conversation as the prompt shows it, accumulated entry by entry. */
  method FormatPromptConversation(entries: seq<ConversationEntry>, strftime: int -> string)
    returns (text: string)
    ensures text == ConversationText(entries, strftime)
  {
    text := "";
    var i := 0;
    while i < |entries|
      invariant 0 <= i <= |entries|
      invariant text == ConversationText(entries[..i], strftime)
    {
      assert entries[..i + 1][..i] == entries[..i];
      text := text + EntryBlock(entries[i], strftime);
      i := i + 1;
    }
    assert entries[..|entries|] == entries;
  }

  /** The customer block, accumulated one identifier at a time. */
  method FormatCustomerBlock(c: CustomerInfo) returns (block: string)
    ensures block == CustomerBlock(c)
  {
    hide StartsWith, EndsWith, Contains;
    var section := "";
    if c.primaryEmail != "" {
      section := section + EmailLabel + c.primaryEmail + "\n";
    }
    assert section == FieldLine(EmailLabel, c.primaryEmail);
    if c.alpacaId != "" {
      section := section + AlpacaLabel + c.alpacaId + "\n";
    }
    assert section == FieldLine(EmailLabel, c.primaryEmail) + FieldLine(AlpacaLabel, c.alpacaId);
    if c.bankRelationshipCode != "" {
      section := section + BankLabel + c.bankRelationshipCode + "\n";
    }
    assert section == CustomerSection(c);
    block := if section != "" then section else NoCustomerText;
  }

  /** `_build_claude_prompt`: the conversation and the customer section are
      accumulated, then placed in the template; a missing list to join raises. */
  method BuildClaudePrompt(t: TicketData, a: IssueAnalysis, claudeMd: Option<string>,
                           strftime: int -> string, strDate: int -> string) returns (r: Result<string>)
    ensures r.Err? <==> JoinBlocked(a)
    ensures r.Err? ==> r.error == JoinError
    ensures r.Ok? ==> r.value == PromptText(t, a, ReadInstructions(claudeMd), strftime, strDate)
  {
    var instructions := ReadInstructions(claudeMd);
    var conversation := FormatPromptConversation(t.conversation, strftime);
    var block := FormatCustomerBlock(a.customerInfo);
    if JoinBlocked(a) {
      return Err(JoinError);
    }
    r := Ok(PromptHead(t, a, instructions, strDate) + block + PromptMiddle(a) + conversation + Requirement);
  }

  // ------------------------------------------------------------ the result

  const LogCategory := "claude_logs"
  const LogFileName := "claude_execution.log"

  /** The `try` block of `execute_claude_analysis`, once the prompt exists:
      run the command, read the links back, build the result. Every exception
      becomes a failed result with exit code -1 and no links. */
  method RunAndReport(prompt: string, logPath: string, outcome: ProcessOutcome,
                      errorLogFailure: Option<string>, logReadable: bool)
    returns (res: ClaudeExecutionResult)
    ensures res.logFilePath == logPath
    ensures res.success <==> res.exitCode == 0
    ensures res.errorMessage.Some? <==> res.exitCode != 0
    ensures res.success <==> outcome.Completed? && outcome.returnCode == 0 && |Strip(outcome.output)| >= 50
    ensures outcome.Raised? && errorLogFailure.Some? ==>
      res == ClaudeExecutionResult(false, logPath, -1, errorLogFailure, [])
    ensures outcome.Completed? ==> res.prUrls == (if logReadable then PrUrls(outcome.output) else [])
    ensures RunCommand(outcome, errorLogFailure).Ok? ==>
      && res.exitCode == RunCommand(outcome, errorLogFailure).value.0
      && res.errorMessage == (if res.exitCode != 0 then RunCommand(outcome, errorLogFailure).value.1 else None)
      && res.prUrls == (if logReadable then PrUrls(LogContents(outcome, prompt)) else [])
    ensures NoDuplicates(res.prUrls)
  {
    var command := RunCommand(outcome, errorLogFailure);
    if command.Err? {
      return ClaudeExecutionResult(false, logPath, -1, Some(command.error), []);
    }
    var code := command.value.0;
    var message := command.value.1;
    RunCommandSucceeds(outcome, errorLogFailure);
    var content := if logReadable then Some(LogContents(outcome, prompt)) else None;
    var urls := ExtractPrUrls(content);
    if content.Some? {
      PrUrlsCorrect(content.value);
    }
    res := ClaudeExecutionResult(code == 0, logPath, code, if code != 0 then message else None, urls);
  }

  /** `execute_claude_analysis`. Building the prompt is outside the `try`, so
      a failure there propagates (`Err`). */
  method ExecuteAnalysis(t: TicketData, a: IssueAnalysis, claudeMd: Option<string>,
                         strftime: int -> string, strDate: int -> string,
                         outcome: ProcessOutcome, errorLogFailure: Option<string>, logReadable: bool)
    returns (r: Result<ClaudeExecutionResult>)
    ensures r.Err? <==> JoinBlocked(a)
    ensures r.Ok? ==> r.value.logFilePath == FileDataStorage.DataPath(t.ticketId, LogCategory, LogFileName)
    ensures r.Ok? ==> (r.value.success <==> r.value.exitCode == 0)
    ensures r.Ok? ==> (r.value.errorMessage.Some? <==> r.value.exitCode != 0)
    ensures r.Ok? ==> (r.value.success <==>
      outcome.Completed? && outcome.returnCode == 0 && |Strip(outcome.output)| >= 50)
    ensures r.Ok? && outcome.Raised? && errorLogFailure.Some? ==>
      r.value == ClaudeExecutionResult(false, r.value.logFilePath, -1, errorLogFailure, [])
    ensures r.Ok? && outcome.Completed? ==>
      r.value.prUrls == (if logReadable then PrUrls(outcome.output) else [])
    ensures r.Ok? && !JoinBlocked(a) && RunCommand(outcome, errorLogFailure).Ok? ==>
      && r.value.exitCode == RunCommand(outcome, errorLogFailure).value.0
      && r.value.errorMessage
         == (if r.value.exitCode != 0 then RunCommand(outcome, errorLogFailure).value.1 else None)
      && r.value.prUrls
         == (if logReadable
             then PrUrls(LogContents(outcome, PromptText(t, a, ReadInstructions(claudeMd), strftime, strDate)))
             else [])
    ensures r.Ok? ==> NoDuplicates(r.value.prUrls)
  {
    hide PromptText;
    var logPath := FileDataStorage.DataPath(t.ticketId, LogCategory, LogFileName);
    var prompt := BuildClaudePrompt(t, a, claudeMd, strftime, strDate);
    if prompt.Err? {
      return Err(prompt.error);
    }
    var res := RunAndReport(prompt.value, logPath, outcome, errorLogFailure, logReadable);
    r := Ok(res);
  }
}
