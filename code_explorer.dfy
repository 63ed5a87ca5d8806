/** The codebase explorer: the analysis prompt handed to the coding agent's
    command line for a search term, the reading of its reply into a
    `CodeAnalysisResult`, and the per-term result dictionary. Running the
    command and `json.loads` are parameters. */
module CodeExplorer {
  import opened Wrappers
  import opened Text
  import opened Sequences
  import opened Dicts
  import opened Values

  /** `CodeAnalysisResult`. The fields read from the reply's JSON keep
      whatever value the JSON held, as the source does not check them. */
  datatype CodeAnalysisResult = CodeAnalysisResult(
    searchTerm: string, analysisSummary: Value, relevantFiles: Value, codeInsights: Value,
    potentialIssues: Value, recommendedFixes: Value, confidenceScore: Value)

  // ------------------------------------------------------------ _build_analysis_prompt

  const IntroText := "You are analyzing a codebase to understand issues related to the term: \""
  const FormatText := "\"\n\nPlease analyze the codebase and provide insights in JSON format:\n\n{\n"
    + "    \"analysis_summary\": \"Brief summary of what you found related to the search term\",\n"
    + "    \"relevant_files\": [\"list of files that are most relevant to this term\"],\n"
    + "    \"code_insights\": \"Detailed insights about how this term is used in the code\",\n"
    + "    \"potential_issues\": [\"list of potential issues or bugs you identified\"],\n"
    + "    \"recommended_fixes\": [\"list of specific recommendations to address issues\"],\n"
    + "    \"confidence_score\": 0.85\n}\n\nFocus on:\n1. Finding where \""
  const FocusText := "\" appears in the code\n2. Understanding the context and functionality\n"
    + "3. Identifying potential bugs or issues\n4. Suggesting specific fixes or improvements\n\n"
  const FilesIntro := "\nPay special attention to these files: "
  const ClosingText := "\nPlease search the codebase thoroughly and provide actionable insights that would help "
    + "resolve customer support issues related to this term.\n"

  /** The fixed part of the prompt, naming the term twice. */
  function PromptHead(term: string): string {
    IntroText + term + FormatText + term + FocusText
  }

  /** The line naming the files to check; `None` and `[]` both leave it out. */
  function FilesNote(files: seq<string>): string {
    if |files| == 0 then "" else FilesIntro + Join(", ", files) + "\n"
  }

  function Prompt(term: string, files: seq<string>): string {
    PromptHead(term) + FilesNote(files) + ClosingText
  }

  method BuildAnalysisPrompt(term: string, files: seq<string>) returns (prompt: string)
    ensures prompt == Prompt(term, files)
  {
    hide PromptHead, Join;
    prompt := PromptHead(term);
    if |files| > 0 {
      prompt := prompt + (FilesIntro + Join(", ", files) + "\n");
    }
    prompt := prompt + ClosingText;
  }

  /** The files are named exactly when there are some. */
  lemma FilesNamedIff(term: string, files: seq<string>)
    ensures Prompt(term, files) == PromptHead(term) + ClosingText <==> |files| == 0
  {
    hide PromptHead;
    if |files| > 0 {
      assert |FilesNote(files)| >= |FilesIntro| > 0;
      assert |Prompt(term, files)| > |PromptHead(term) + ClosingText|;
    }
  }

  /** `sep.join(parts)` contains every part. */
  lemma {:induction false} JoinContains(sep: string, parts: seq<string>, i: nat)
    requires i < |parts|
    ensures Contains(Join(sep, parts), parts[i])
  {
    if |parts| == 1 {
      ContainsMiddle("", parts[0], "");
      assert "" + parts[0] + "" == parts[0];
    } else if i == 0 {
      ContainsMiddle("", parts[0], sep + Join(sep, parts[1..]));
      assert "" + parts[0] + (sep + Join(sep, parts[1..])) == parts[0] + sep + Join(sep, parts[1..]);
    } else {
      JoinContains(sep, parts[1..], i - 1);
      ContainsAfter(parts[0] + sep, Join(sep, parts[1..]), parts[i]);
    }
  }

  /** The prompt names the term. */
  lemma PromptNamesTerm(term: string, files: seq<string>)
    ensures Contains(Prompt(term, files), term)
  {
    hide FilesNote;
    var rest := FormatText + term + FocusText + FilesNote(files) + ClosingText;
    ContainsMiddle(IntroText, term, rest);
    PromptRegroup(IntroText, term, FormatText, term, FocusText, FilesNote(files), ClosingText);
  }

  lemma PromptRegroup(a: string, b: string, c: string, d: string, e: string, f: string, g: string)
    ensures a + b + c + d + e + f + g == a + b + (c + d + e + f + g)
  {
  }

  /** The prompt names every file to check. */
  lemma PromptNamesFiles(term: string, files: seq<string>)
    ensures forall i :: 0 <= i < |files| ==> Contains(Prompt(term, files), files[i])
  {
    hide Join, PromptHead;
    forall i | 0 <= i < |files| ensures Contains(Prompt(term, files), files[i]) {
      JoinContains(", ", files, i);
      ContainsWithin(FilesIntro, Join(", ", files), "\n", files[i]);
      ContainsWithin(PromptHead(term), FilesNote(files), ClosingText, files[i]);
    }
  }

  // ------------------------------------------------------------ _parse_claude_response

  /** Some `{` comes before some `}`. */
  predicate HasBracePair(response: string) {
    exists i, j :: 0 <= i < j < |response| && response[i] == '{' && response[j] == '}'
  }

  /** `json_start` and `json_end`: from the first `{` to just after the last
      `}`, when they come in that order. */
  function JsonBounds(response: string): (r: Option<(nat, nat)>)
    ensures r.None? <==> !HasBracePair(response)
    ensures r.Some? ==> var (p, q) := r.value;
      && p < q <= |response| && response[p] == '{' && response[q - 1] == '}'
      && '{' !in response[..p] && '}' !in response[q..]
  {
    var start := Find(response, '{');
    var end := RFind(response, '}') + 1;
    if start != -1 && end > start then Some((start, end))
    else None
  }

  /** The text handed to `json.loads`. */
  function JsonCandidate(response: string): (r: Option<string>)
    ensures r.Some? ==> |r.value| >= 2 && r.value[0] == '{' && r.value[|r.value| - 1] == '}'
    ensures r.None? <==> !HasBracePair(response)
  {
    match JsonBounds(response)
    case None => None
    case Some((p, q)) => Some(response[p..q])
  }

  const NoJsonConfidence := 0.7
  const BadJsonConfidence := 0.6
  const DefaultConfidence := 0.5

  /** Without a brace pair, the whole stripped reply is the summary. */
  function PlainResult(term: string, response: string): CodeAnalysisResult {
    CodeAnalysisResult(term, Str(Strip(response)), List([]), Str(Strip(response)), List([]), List([]),
                       Float(NoJsonConfidence))
  }

  /** `response.strip()[:200] + "..." if len(response) > 200 else
      response.strip()`: the length compared is that of the raw reply. */
  function ShortSummary(response: string): (r: string)
    ensures |response| <= 200 ==> r == Strip(response)
    ensures |response| > 200 ==> |r| <= 203 && EndsWith(r, "...") && StartsWith(Strip(response), r[..|r| - 3])
    ensures |response| > 200 ==> |r| == 3 + (if |Strip(response)| < 200 then |Strip(response)| else 200)
  {
    if |response| > 200 then
      var t := Take(Strip(response), 200);
      assert (t + "...")[..|t|] == t;
      EndsWithConcat(t, "...");
      t + "..."
    else Strip(response)
  }

  /** When the candidate does not decode. */
  function BadJsonResult(term: string, response: string): CodeAnalysisResult {
    CodeAnalysisResult(term, Str(ShortSummary(response)), List([]), Str(Strip(response)), List([]), List([]),
                       Float(BadJsonConfidence))
  }

  /** `data.get(key, default)` */
  function Field(data: Dict<Value>, key: string, default: Value): Value {
    Get(data, key).GetOr(default)
  }

  /** When the candidate decodes to a dictionary. */
  function JsonResult(term: string, data: Dict<Value>): CodeAnalysisResult {
    CodeAnalysisResult(
      term,
      Field(data, "analysis_summary", Str("")),
      Field(data, "relevant_files", List([])),
      Field(data, "code_insights", Str("")),
      Field(data, "potential_issues", List([])),
      Field(data, "recommended_fixes", List([])),
      Field(data, "confidence_score", Float(DefaultConfidence)))
  }

  /** `_parse_claude_response`. A candidate that decodes to something other
      than a dictionary makes `data.get` raise `AttributeError`, which the
      `except json.JSONDecodeError` does not catch. */
  function ParseClaudeResponse(term: string, response: string, loads: string -> Decoded)
    : (r: Result<CodeAnalysisResult>)
    ensures r.Ok? ==> r.value.searchTerm == term
  {
    match JsonCandidate(response)
    case None => Ok(PlainResult(term, response))
    case Some(candidate) =>
      match loads(candidate)
      case DecodeError(_) => Ok(BadJsonResult(term, response))
      case Decoded(Object(data)) => Ok(JsonResult(term, data))
      case Decoded(v) => Err("'" + TypeName(v) + "' object has no attribute 'get'")
  }

  /** A reply without a `{` before a `}` is taken whole as the summary and
      the insights, with confidence 0.7; the decoder is not consulted. */
  lemma NoJsonFallback(term: string, response: string, loads: string -> Decoded)
    requires !HasBracePair(response)
    ensures var r := ParseClaudeResponse(term, response, loads);
      && r.Ok? && r.value.analysisSummary == Str(Strip(response)) && r.value.codeInsights == Str(Strip(response))
      && r.value.relevantFiles == List([]) && r.value.potentialIssues == List([])
      && r.value.recommendedFixes == List([]) && r.value.confidenceScore == Float(0.7)
  {
  }

  /** A candidate that does not decode gives confidence 0.6, the stripped
      reply as insights, and the summary cut to 200 characters plus `...`
      when the raw reply is longer than 200. */
  lemma BadJsonFallback(term: string, response: string, loads: string -> Decoded)
    requires HasBracePair(response) && loads(JsonCandidate(response).value).DecodeError?
    ensures var r := ParseClaudeResponse(term, response, loads);
      && r.Ok? && r.value.codeInsights == Str(Strip(response)) && r.value.confidenceScore == Float(0.6)
      && r.value.relevantFiles == List([]) && r.value.potentialIssues == List([])
      && r.value.recommendedFixes == List([])
      && r.value.analysisSummary == Str(ShortSummary(response))
      && (|response| <= 200 ==> r.value.analysisSummary == Str(Strip(response)))
      && (|response| > 200 ==> r.value.analysisSummary.Str? && |r.value.analysisSummary.s| <= 203
                               && EndsWith(r.value.analysisSummary.s, "..."))
  {
  }

  /** A decoded dictionary gives each key's value, and the defaults `""`,
      `[]` and 0.5 for the keys it lacks. */
  lemma JsonFieldsRead(term: string, response: string, loads: string -> Decoded, key: string)
    requires HasBracePair(response) && loads(JsonCandidate(response).value).Decoded?
    requires loads(JsonCandidate(response).value).data.Object?
    ensures var data := loads(JsonCandidate(response).value).data.fields;
      var r := ParseClaudeResponse(term, response, loads);
      && r.Ok?
      && r.value.analysisSummary == Get(data, "analysis_summary").GetOr(Str(""))
      && r.value.relevantFiles == Get(data, "relevant_files").GetOr(List([]))
      && r.value.codeInsights == Get(data, "code_insights").GetOr(Str(""))
      && r.value.potentialIssues == Get(data, "potential_issues").GetOr(List([]))
      && r.value.recommendedFixes == Get(data, "recommended_fixes").GetOr(List([]))
      && ("confidence_score" !in Keys(data) ==> r.value.confidenceScore == Float(0.5))
      && ("confidence_score" in Keys(data) ==> r.value.confidenceScore == Get(data, "confidence_score").value)
  {
  }

  /** Anything but a dictionary decoded from the candidate raises. */
  lemma NonObjectRaises(term: string, response: string, loads: string -> Decoded)
    requires HasBracePair(response) && loads(JsonCandidate(response).value).Decoded?
    ensures ParseClaudeResponse(term, response, loads).Err?
            <==> !loads(JsonCandidate(response).value).data.Object?
  {
  }

  /** The candidate is the reply from its first `{` through its last `}`:
      a reply made of text without braces around a JSON text hands exactly
      that JSON text to the decoder. */
  lemma CandidateOfWrapped(before: string, json: string, after: string)
    requires '{' !in before && '}' !in after && '{' !in after && '}' !in before
    requires |json| >= 2 && json[0] == '{' && json[|json| - 1] == '}'
    ensures JsonCandidate(before + json + after) == Some(json)
  {
    var s := before + json + after;
    var p, q := |before|, |before| + |json|;
    assert s[p] == '{' && s[q - 1] == '}';
    assert s[..p] == before && s[q..] == after;
    assert s[p..q] == json;
    assert HasBracePair(s);
    var (p', q') := JsonBounds(s).value;
    assert p' == p;
    assert q' == q;
  }

  /** The length compared is the raw reply's: a reply of 199 letters and two
      trailing spaces is not cut, yet its summary gains `...`. */
  lemma EllipsisWithoutCut()
    ensures var response := Repeat('a', 199) + "  ";
      && Strip(response) == Repeat('a', 199)
      && ShortSummary(response) == Strip(response) + "..."
  {
    var a := Repeat('a', 199);
    var response := a + "  ";
    assert !IsSpace('a');
    assert LStrip(response) == response;
    assert response[..|a| + 1] == a + " ";
    assert RStrip(response[..|a| + 1]) == RStrip(a) by {
      assert (a + " ")[..|a|] == a;
    }
    assert RStrip(response) == RStrip(response[..|a| + 1]);
    assert RStrip(a) == a;
  }

  // ------------------------------------------------------------ search_codebase

  /** How the agent's command line ran on a prompt: it finished with an exit
      code and its decoded output and error streams, or starting it raised. */
  datatype CliRun = Finished(returnCode: int, stdout: string, stderr: string) | Raised(message: string)

  /** `_analyze_with_claude`: a non-zero exit raises with the error stream. */
  function AnalyzeWithClaude(term: string, files: seq<string>, cli: string -> CliRun, loads: string -> Decoded)
    : (r: Result<CodeAnalysisResult>)
    ensures r.Ok? ==> r.value.searchTerm == term
    ensures cli(Prompt(term, files)).Raised? ==> r.Err?
    ensures var run := cli(Prompt(term, files));
      run.Finished? && run.returnCode != 0 ==> r == Err("Claude CLI failed: " + run.stderr)
  {
    match cli(Prompt(term, files))
    case Raised(m) => Err(m)
    case Finished(code, out, err) =>
      if code != 0 then Err("Claude CLI failed: " + err) else ParseClaudeResponse(term, out, loads)
  }

  /** The result recorded for a term whose analysis raised. */
  function FailedAnalysis(term: string, message: string): CodeAnalysisResult {
    CodeAnalysisResult(term, Str("Analysis failed: " + message), List([]), Str(""), List([]), List([]), Float(0.0))
  }

  function TermResult(term: string, files: seq<string>, cli: string -> CliRun, loads: string -> Decoded)
    : CodeAnalysisResult
  {
    match AnalyzeWithClaude(term, files, cli, loads)
    case Ok(a) => a
    case Err(m) => FailedAnalysis(term, m)
  }

  /** `results` after the loop over the terms. */
  function SearchResults(terms: seq<string>, files: seq<string>, cli: string -> CliRun, loads: string -> Decoded)
    : Dict<CodeAnalysisResult>
  {
    if |terms| == 0 then []
    else
      var n := |terms| - 1;
      Put(SearchResults(terms[..n], files, cli, loads), terms[n], TermResult(terms[n], files, cli, loads))
  }

  method SearchCodebase(terms: seq<string>, files: seq<string>, cli: string -> CliRun, loads: string -> Decoded)
    returns (results: Dict<CodeAnalysisResult>)
    ensures results == SearchResults(terms, files, cli, loads)
  {
    hide Put, AnalyzeWithClaude;
    results := [];
    for i := 0 to |terms|
      invariant results == SearchResults(terms[..i], files, cli, loads)
    {
      assert terms[..i + 1][..i] == terms[..i];
      var term := terms[i];
      var analysis := AnalyzeWithClaude(term, files, cli, loads);
      match analysis
      case Ok(a) =>
        results := Put(results, term, a);
      case Err(m) =>
        results := Put(results, term, FailedAnalysis(term, m));
    }
    assert terms[..|terms|] == terms;
  }

  /** The keys are the search terms, each once, in order of first appearance. */
  lemma {:induction false} ResultsKeyedByTerm(terms: seq<string>, files: seq<string>, cli: string -> CliRun,
                                               loads: string -> Decoded)
    ensures Keys(SearchResults(terms, files, cli, loads)) == Dedup(terms)
  {
    if |terms| > 0 {
      var n := |terms| - 1;
      ResultsKeyedByTerm(terms[..n], files, cli, loads);
      assert terms[..n] == terms[..|terms| - 1];
    }
  }

  /** Every term holds the result of its analysis. */
  lemma {:induction false} TermHoldsResult(terms: seq<string>, files: seq<string>, cli: string -> CliRun,
                                           loads: string -> Decoded, t: string)
    requires t in terms
    ensures Get(SearchResults(terms, files, cli, loads), t) == Some(TermResult(t, files, cli, loads))
  {
    hide Put, Get, TermResult;
    var n := |terms| - 1;
    var d := SearchResults(terms[..n], files, cli, loads);
    GetPut(d, terms[n], TermResult(terms[n], files, cli, loads), t);
    if terms[n] != t {
      assert t in terms[..n] by {
        assert terms == terms[..n] + [terms[n]];
      }
      TermHoldsResult(terms[..n], files, cli, loads, t);
    }
  }

  /** Every term has its own analysis, or the failure it raised with
      confidence 0.0. */
  lemma ResultPerTerm(terms: seq<string>, files: seq<string>, cli: string -> CliRun,
                      loads: string -> Decoded, t: string)
    requires t in terms
    ensures var r := Get(SearchResults(terms, files, cli, loads), t);
      && r.Some? && r.value.searchTerm == t
      && (AnalyzeWithClaude(t, files, cli, loads).Ok? ==> r.value == AnalyzeWithClaude(t, files, cli, loads).value)
      && (AnalyzeWithClaude(t, files, cli, loads).Err? ==>
            r.value.confidenceScore == Float(0.0)
            && r.value.analysisSummary == Str("Analysis failed: " + AnalyzeWithClaude(t, files, cli, loads).error))
  {
    hide SearchResults;
    TermHoldsResult(terms, files, cli, loads, t);
  }
}
