/** The ticket analyzer: the schema the language model's reply is declared to
    follow, the mapping of a parsed reply to an `IssueAnalysis` with its
    defaults, the checks on the chat-completion envelope, and the text the
    conversation is given to the model as. The HTTP exchange and the JSON
    parser are inputs. */
module DeepSeekClient {
  import opened Wrappers
  import opened Text
  import opened TicketProcessor

  /** `technical_details`; a key the reply lacks is `None`. */
  datatype TechnicalDetails = TechnicalDetails(
    errorMessages: Option<seq<string>>, affectedFeatures: Option<seq<string>>,
    userEnvironment: Option<string>, reproductionSteps: Option<seq<string>>)

  datatype ParsedCustomer = ParsedCustomer(
    primaryEmail: Option<string>, allEmails: Option<seq<string>>, alpacaId: Option<string>,
    bankRelationshipCode: Option<string>, confidenceLevel: Option<string>)

  datatype ParsedTimeframe = ParsedTimeframe(
    estimatedStartDate: Option<string>, estimatedEndDate: Option<string>,
    confidenceLevel: Option<string>, reasoning: Option<string>, timeIndicators: Option<seq<string>>)

  /** The dictionary the output parser returns; every key may be missing, and
      the model may add a `ticket_id` of its own. */
  datatype ParsedAnalysis = ParsedAnalysis(
    ticketId: Option<string>, issueSummary: Option<string>, issueCategory: Option<string>,
    severity: Option<string>, technicalDetails: Option<TechnicalDetails>,
    affectedComponents: Option<seq<string>>, userActions: Option<seq<string>>,
    errorPatterns: Option<seq<string>>, customerInfo: Option<ParsedCustomer>,
    issueTimeframe: Option<ParsedTimeframe>, confidenceScore: Option<real>)

  datatype CustomerInfo = CustomerInfo(
    primaryEmail: string, allEmails: seq<string>, alpacaId: string,
    bankRelationshipCode: string, confidenceLevel: string)

  datatype IssueTimeframe = IssueTimeframe(
    estimatedStartDate: string, estimatedEndDate: string, confidenceLevel: string,
    reasoning: string, timeIndicators: seq<string>)

  /** The analysis handed to the rest of the pipeline. Fields mapped without a
      default are `None` when the reply lacks them. */
  datatype IssueAnalysis = IssueAnalysis(
    ticketId: string, issueSummary: Option<string>, issueCategory: Option<string>,
    severity: Option<string>, technicalDetails: TechnicalDetails,
    affectedComponents: Option<seq<string>>, userActions: Option<seq<string>>,
    errorPatterns: Option<seq<string>>, confidenceScore: Option<real>,
    customerInfo: CustomerInfo, issueTimeframe: IssueTimeframe)

  // ------------------------------------------------------------ the schema

  predicate IsCategory(c: string) {
    c == "bug" || c == "feature_request" || c == "configuration" || c == "user_error" || c == "system_error"
  }

  predicate IsSeverity(s: string) {
    s == "low" || s == "medium" || s == "high" || s == "critical"
  }

  predicate IsConfidenceLevel(c: string) {
    c == "high" || c == "medium" || c == "low"
  }

  /** The declared reply schema: required keys present, the closed string
      enumerations respected, the confidence score in [0, 1]. Customer keys
      and the time indicators have defaults and may be missing. */
  predicate SchemaAdmits(p: ParsedAnalysis) {
    && p.issueSummary.Some?
    && p.issueCategory.Some? && IsCategory(p.issueCategory.value)
    && p.severity.Some? && IsSeverity(p.severity.value)
    && p.technicalDetails.Some?
    && p.technicalDetails.value.errorMessages.Some? && p.technicalDetails.value.affectedFeatures.Some?
    && p.technicalDetails.value.userEnvironment.Some? && p.technicalDetails.value.reproductionSteps.Some?
    && p.affectedComponents.Some? && p.userActions.Some? && p.errorPatterns.Some?
    && p.customerInfo.Some?
    && (p.customerInfo.value.confidenceLevel.Some? ==> IsConfidenceLevel(p.customerInfo.value.confidenceLevel.value))
    && p.issueTimeframe.Some?
    && p.issueTimeframe.value.estimatedStartDate.Some? && p.issueTimeframe.value.estimatedEndDate.Some?
    && p.issueTimeframe.value.confidenceLevel.Some? && IsConfidenceLevel(p.issueTimeframe.value.confidenceLevel.value)
    && p.issueTimeframe.value.reasoning.Some?
    && p.confidenceScore.Some? && 0.0 <= p.confidenceScore.value <= 1.0
  }

  /** What a mapped analysis satisfies when the reply met the schema. */
  predicate WellFormed(a: IssueAnalysis) {
    && a.issueSummary.Some?
    && a.issueCategory.Some? && IsCategory(a.issueCategory.value)
    && a.severity.Some? && IsSeverity(a.severity.value)
    && a.technicalDetails.errorMessages.Some? && a.technicalDetails.affectedFeatures.Some?
    && a.affectedComponents.Some? && a.errorPatterns.Some?
    && IsConfidenceLevel(a.customerInfo.confidenceLevel)
    && IsConfidenceLevel(a.issueTimeframe.confidenceLevel)
    && a.confidenceScore.Some? && 0.0 <= a.confidenceScore.value <= 1.0
  }

  // ------------------------------------------------------------ the mapping

  const NoDetails := TechnicalDetails(None, None, None, None)
  const NoCustomer := ParsedCustomer(None, None, None, None, None)
  const NoTimeframe := ParsedTimeframe(None, None, None, None, None)

  function MapCustomer(c: ParsedCustomer): (r: CustomerInfo)
    ensures r.primaryEmail == c.primaryEmail.GetOr("") && r.allEmails == c.allEmails.GetOr([])
    ensures r.alpacaId == c.alpacaId.GetOr("") && r.bankRelationshipCode == c.bankRelationshipCode.GetOr("")
    ensures r.confidenceLevel == c.confidenceLevel.GetOr("low")
  {
    CustomerInfo(c.primaryEmail.GetOr(""), c.allEmails.GetOr([]), c.alpacaId.GetOr(""),
                 c.bankRelationshipCode.GetOr(""), c.confidenceLevel.GetOr("low"))
  }

  function MapTimeframe(t: ParsedTimeframe): (r: IssueTimeframe)
    ensures r.estimatedStartDate == t.estimatedStartDate.GetOr("")
    ensures r.estimatedEndDate == t.estimatedEndDate.GetOr("")
    ensures r.confidenceLevel == t.confidenceLevel.GetOr("low")
    ensures r.reasoning == t.reasoning.GetOr("") && r.timeIndicators == t.timeIndicators.GetOr([])
  {
    IssueTimeframe(t.estimatedStartDate.GetOr(""), t.estimatedEndDate.GetOr(""),
                   t.confidenceLevel.GetOr("low"), t.reasoning.GetOr(""), t.timeIndicators.GetOr([]))
  }

  /** The mapping of a parsed reply in `analyze_ticket`. The ticket id is the
      ticket's own, whatever the reply says; a missing customer or timeframe
      block maps to its defaults. */
  function MapAnalysis(ticket: TicketData, p: ParsedAnalysis): (r: IssueAnalysis)
    ensures r.ticketId == ticket.ticketId
    ensures p.customerInfo.None? ==> r.customerInfo == CustomerInfo("", [], "", "", "low")
    ensures p.issueTimeframe.None? ==> r.issueTimeframe == IssueTimeframe("", "", "low", "", [])
    ensures p.technicalDetails.None? ==> r.technicalDetails == NoDetails
    ensures r.issueSummary == p.issueSummary && r.issueCategory == p.issueCategory
    ensures r.severity == p.severity && r.confidenceScore == p.confidenceScore
  {
    IssueAnalysis(
      ticket.ticketId, p.issueSummary, p.issueCategory, p.severity,
      p.technicalDetails.GetOr(NoDetails),
      p.affectedComponents, p.userActions, p.errorPatterns, p.confidenceScore,
      MapCustomer(p.customerInfo.GetOr(NoCustomer)),
      MapTimeframe(p.issueTimeframe.GetOr(NoTimeframe)))
  }

  /** A reply the schema admits maps to a well-formed analysis: the enums and
      the score range carry over, and the defaulted confidence levels are
      within their enumeration too. */
  lemma MapAdmitted(ticket: TicketData, p: ParsedAnalysis)
    requires SchemaAdmits(p)
    ensures WellFormed(MapAnalysis(ticket, p))
  {
  }

  // ------------------------------------------------------------ the envelope

  /** The first choice's `message.content`: a missing key, a JSON null, or text. */
  datatype ChoiceContent = MissingKey(key: string) | Null | Content(text: string)

  /** The body of a chat-completion reply as decoded JSON (`None` when it is
      not JSON); `choices` is `None` when the key is absent. */
  datatype ApiReply = ApiReply(statusCode: int, text: string, json: Option<Option<seq<ChoiceContent>>>)

  /** `_call_deepseek_api` once the reply has arrived: only a 200 reply whose
      JSON has a non-empty `choices` list with non-empty first content is
      accepted, and that content is returned. */
  function CallApi(reply: ApiReply): (r: Result<string>)
    ensures r.Ok? <==> (reply.statusCode == 200 && reply.json.Some? && reply.json.value.Some?
      && |reply.json.value.value| > 0 && reply.json.value.value[0].Content?
      && reply.json.value.value[0].text != "")
    ensures r.Ok? ==> r.value == reply.json.value.value[0].text && r.value != ""
    ensures reply.statusCode != 200 ==>
      r == Err("DeepSeek API error: " + IntToString(reply.statusCode) + " - " + reply.text)
  {
    if reply.statusCode != 200 then
      Err("DeepSeek API error: " + IntToString(reply.statusCode) + " - " + reply.text)
    else if reply.json.None? then
      Err("Invalid JSON response from DeepSeek API: " + reply.text)
    else if reply.json.value.None? || |reply.json.value.value| == 0 then
      Err("Invalid response from DeepSeek API - no choices field")
    else
      match reply.json.value.value[0]
      case MissingKey(key) => Err("'" + key + "'")
      case Null => Err("Empty content in DeepSeek API response")
      case Content(text) =>
        if text == "" then Err("Empty content in DeepSeek API response") else Ok(text)
  }

  /** `analyze_ticket` once the model has answered: any failure of the call or
      of the parser is raised unchanged, without a retry; otherwise the parsed
      reply is mapped. */
  function AnalyzeTicket(ticket: TicketData, reply: ApiReply,
                         parse: string -> Result<ParsedAnalysis>): (r: Result<IssueAnalysis>)
    ensures CallApi(reply).Err? ==> r == Err(CallApi(reply).error)
    ensures CallApi(reply).Ok? && parse(CallApi(reply).value).Err? ==> r == Err(parse(CallApi(reply).value).error)
    ensures r.Ok? ==>
      && r.value.ticketId == ticket.ticketId
      && r.value == MapAnalysis(ticket, parse(CallApi(reply).value).value)
  {
    match CallApi(reply)
    case Err(e) => Err(e)
    case Ok(content) =>
      match parse(content)
      case Err(e) => Err(e)
      case Ok(parsed) => Ok(MapAnalysis(ticket, parsed))
  }

  // ------------------------------------------------------------ the conversation text

  /** The first of an entry's three lines: timestamp, upper-cased type, author. */
  function EntryHeader(e: ConversationEntry, render: int -> string): string {
    render(e.timestamp) + " [" + Upper(e.entryType) + "] " + e.author + ":"
  }

  /** Three lines per entry, in conversation order. */
  function ConversationLines(entries: seq<ConversationEntry>, render: int -> string): (lines: seq<string>)
    ensures |lines| == 3 * |entries|
    ensures forall i :: 0 <= i < |entries| ==>
      && lines[3 * i] == EntryHeader(entries[i], render)
      && lines[3 * i + 1] == entries[i].content
      && lines[3 * i + 2] == ""
  {
    if |entries| == 0 then []
    else
      var init := ConversationLines(entries[..|entries| - 1], render);
      var e := entries[|entries| - 1];
      var lines := init + [EntryHeader(e, render), e.content, ""];
      assert forall i :: 0 <= i < |entries| - 1 ==> entries[..|entries| - 1][i] == entries[i];
      lines
  }

  /** `_format_conversation`: the lines joined with newlines. */
  method FormatConversation(conversation: seq<ConversationEntry>, render: int -> string) returns (text: string)
    ensures text == Join("\n", ConversationLines(conversation, render))
  {
    hide EntryHeader, Join;
    var lines: seq<string> := [];
    var i := 0;
    while i < |conversation|
      invariant 0 <= i <= |conversation|
      invariant lines == ConversationLines(conversation[..i], render)
    {
      var entry := conversation[i];
      assert conversation[..i + 1][..i] == conversation[..i];
      ghost var next := lines + [EntryHeader(entry, render), entry.content, ""];
      assert next == ConversationLines(conversation[..i + 1], render);
      lines := lines + [EntryHeader(entry, render)];
      lines := lines + [entry.content];
      lines := lines + [""];
      assert lines == next;
      i := i + 1;
    }
    assert conversation[..|conversation|] == conversation;
    text := Join("\n", lines);
  }
}
