/** The response step: the investigation transcript read back for the
    language model, the final message with its pull-request list, the
    fallback message built from the analysis, and the choice between the
    model's reply and the fallback. The language-model call is an input. */
module ClaudeLogProcessor {
  import opened Wrappers
  import opened Text
  import opened DeepSeekClient
  import opened ClaudeExecutor

  /** `JiraResponse` */
  datatype JiraResponse = JiraResponse(
    message: string, resolutionType: string, confidenceLevel: string, nextSteps: seq<string>,
    technicalSummary: string, prUrls: seq<string>)

  // ------------------------------------------------------------ the transcript

  const MaxLogLength := 50000
  const TruncationNotice := "\n\n[LOG TRUNCATED - Content too long]"
  const ReadErrorPrefix := "ERROR: Could not read Claude logs from "

  /** `_read_claude_logs`: the transcript (`None` when it cannot be read),
      cut to its first 50000 characters and marked when it is longer. */
  function ReadClaudeLogs(logPath: string, content: Option<string>): (r: string)
    ensures content.Some? && |content.value| <= MaxLogLength ==> r == content.value
    ensures content.Some? && |content.value| > MaxLogLength ==>
      && |r| == MaxLogLength + |TruncationNotice|
      && r[..MaxLogLength] == content.value[..MaxLogLength]
      && EndsWith(r, TruncationNotice)
    ensures content.None? ==> r == ReadErrorPrefix + logPath
  {
    if content.None? then ReadErrorPrefix + logPath
    else if |content.value| > MaxLogLength then
      var r := content.value[..MaxLogLength] + TruncationNotice;
      assert r[|r| - |TruncationNotice|..] == TruncationNotice;
      r
    else content.value
  }

  // ------------------------------------------------------------ the final message

  const AiPrefix := "AI Generated Message:"
  const AiOpening := "AI Generated Message:\n\n"
  const PrSectionHeading := "\n\n**Pull Requests Created:**\n"

  /** The message with the generated-message marker in front, added only
      when it is not there yet. */
  function WithAiPrefix(base: string): (r: string)
    ensures StartsWith(r, AiPrefix)
    ensures StartsWith(base, AiPrefix) ==> r == base
    ensures !StartsWith(base, AiPrefix) ==> r == AiOpening + base
  {
    if StartsWith(base, AiPrefix) then base
    else
      assert AiOpening[..|AiPrefix|] == AiPrefix;
      assert (AiOpening + base)[..|AiPrefix|] == AiOpening[..|AiPrefix|];
      AiOpening + base
  }

  /** `f"{i}. {url}\n"` */
  function NumberLine(i: nat, url: string): string {
    NatToString(i) + ". " + url + "\n"
  }

  /** The links numbered from 1 in their order, one per line. */
  function NumberedList(urls: seq<string>): string {
    if |urls| == 0 then ""
    else NumberedList(urls[..|urls| - 1]) + NumberLine(|urls|, urls[|urls| - 1])
  }

  /** The list of the first `k` links is the start of the list of all of them. */
  lemma {:induction false} NumberedListPrefix(urls: seq<string>, k: nat)
    requires k <= |urls|
    ensures StartsWith(NumberedList(urls), NumberedList(urls[..k]))
    decreases |urls|
  {
    if k < |urls| {
      var init := urls[..|urls| - 1];
      NumberedListPrefix(init, k);
      assert init[..k] == urls[..k];
      StartsWithConcat(NumberedList(init), NumberLine(|urls|, urls[|urls| - 1]));
      StartsWithChain(NumberedList(urls), NumberedList(init), NumberedList(urls[..k]));
    } else {
      assert urls[..k] == urls;
    }
  }

  /** Link `i` appears as line `i + 1` of the list. */
  lemma {:induction false} NumberedListLine(urls: seq<string>, i: nat)
    requires i < |urls|
    ensures Contains(NumberedList(urls), NumberLine(i + 1, urls[i]))
    decreases |urls|
  {
    var init := urls[..|urls| - 1];
    var line := NumberLine(i + 1, urls[i]);
    var last := NumberLine(|urls|, urls[|urls| - 1]);
    if i + 1 == |urls| {
      ContainsMiddle(NumberedList(init), line, "");
      assert NumberedList(init) + line + "" == NumberedList(urls);
    } else {
      NumberedListLine(init, i);
      assert init[i] == urls[i];
      ContainsPrefix(NumberedList(init), line, last);
    }
  }

  /** What `_format_final_message` returns: the marked message, then the
      numbered links when there are any. */
  function FinalMessage(base: string, prUrls: seq<string>): (r: string)
    ensures StartsWith(r, AiPrefix)
    ensures StartsWith(r, WithAiPrefix(base))
    ensures |prUrls| == 0 ==> r == WithAiPrefix(base)
    ensures |prUrls| > 0 ==> EndsWith(r, PrSectionHeading + NumberedList(prUrls))
  {
    var marked := WithAiPrefix(base);
    if |prUrls| == 0 then
      assert marked[..|marked|] == marked;
      marked
    else
      var section := PrSectionHeading + NumberedList(prUrls);
      StartsWithConcat(marked, section);
      StartsWithChain(marked + section, marked, AiPrefix);
      assert (marked + section)[|marked + section| - |section|..] == section;
      marked + section
  }

  /** Every link is listed under its number in the final message. */
  lemma FinalMessageListsLinks(base: string, prUrls: seq<string>, i: nat)
    requires i < |prUrls|
    ensures Contains(FinalMessage(base, prUrls), NumberLine(i + 1, prUrls[i]))
  {
    NumberedListLine(prUrls, i);
    ContainsAfter(PrSectionHeading, NumberedList(prUrls), NumberLine(i + 1, prUrls[i]));
    ContainsAfter(WithAiPrefix(base), PrSectionHeading + NumberedList(prUrls), NumberLine(i + 1, prUrls[i]));
    assert WithAiPrefix(base) + (PrSectionHeading + NumberedList(prUrls)) == FinalMessage(base, prUrls);
  }

  /** The numbered list, built one line at a time. */
  method NumberPullRequests(urls: seq<string>) returns (text: string)
    ensures text == NumberedList(urls)
  {
    text := "";
    var i := 0;
    while i < |urls|
      invariant 0 <= i <= |urls|
      invariant text == NumberedList(urls[..i])
    {
      assert urls[..i + 1][..i] == urls[..i];
      text := text + NumberLine(i + 1, urls[i]);
      i := i + 1;
    }
    assert urls[..|urls|] == urls;
  }

  /** `_format_final_message`. The transcript it is handed does not affect
      the message: the raw-log section is disabled. */
  method FormatFinalMessage(base: string, prUrls: seq<string>, claudeLogs: Option<string>)
    returns (message: string)
    ensures message == FinalMessage(base, prUrls)
  {
    message := base;
    if !StartsWith(message, AiPrefix) {
      message := AiOpening + message;
    }
    if |prUrls| > 0 {
      var list := NumberPullRequests(prUrls);
      message := message + (PrSectionHeading + list);
    }
  }

  // ------------------------------------------------------------ the fallback message

  /** The paragraphs the fallback message is made of, in the order it
      appends them. */
  datatype Paragraph =
    | Intro(category: string, title: Option<string>)
    | IssueSummary(summary: Option<string>)
    | ErrorDetails(shown: seq<string>)
    | AffectedAreas(features: seq<string>)
    | Account(email: string)
    | PriorityNote
    | Completion(withPrs: bool)
    | PrList(urls: seq<string>)
    | GeneralIntro
    | FollowUp
    | Unable

  const FollowUpText := "A customer support representative will follow up with additional details if needed."
  const UnableText :=
    "I was unable to complete the automated analysis of your ticket. A human agent will review "
    + "this manually and provide assistance. Thank you for your patience."
  const GeneralIntroText := "I have completed the analysis of your support request.\n\n"
  const CompletedSentence := "I have completed the initial analysis and investigation. "
  const CodeFixes := "Code fixes have been implemented and pull requests have been created.\n\n"
  const ManualReview :=
    "Based on my analysis, this issue may require manual review or additional investigation.\n\n"
  const PriorityText :=
    "**Priority:** This issue has been marked as high priority and requires immediate attention.\n\n"
  const FallbackPrHeading := "**Pull Requests Created:**\n"
  const IntroStart := "I have analyzed your "
  const IntroMiddle := " issue regarding "
  const IssueSummaryLabel := "**Issue Summary:** "
  const ErrorLabel := "**Error Details:** "
  const AreasLabel := "**Affected Areas:** "
  const AccountLabel := "**Account:** "
  const ParagraphEnd := "\n\n"
  const NoLowerError := "'NoneType' object has no attribute 'lower'"

  /** The text of one paragraph. */
  function Render(p: Paragraph): string {
    match p
    case Intro(category, title) =>
      IntroStart + Lower(category) + IntroMiddle + title.GetOr("your request") + "." + ParagraphEnd
    case IssueSummary(summary) => IssueSummaryLabel + Show(summary) + ParagraphEnd
    case ErrorDetails(shown) => ErrorLabel + Join(ListSeparator, shown) + ParagraphEnd
    case AffectedAreas(features) => AreasLabel + Join(ListSeparator, features) + ParagraphEnd
    case Account(email) => AccountLabel + email + ParagraphEnd
    case PriorityNote => PriorityText
    case Completion(withPrs) => CompletedSentence + (if withPrs then CodeFixes else ManualReview)
    case PrList(urls) => FallbackPrHeading + NumberedList(urls) + "\n"
    case GeneralIntro => GeneralIntroText
    case FollowUp => FollowUpText
    case Unable => UnableText
  }

  function RenderAll(ps: seq<Paragraph>): string {
    if |ps| == 0 then "" else RenderAll(ps[..|ps| - 1]) + Render(ps[|ps| - 1])
  }

  lemma RenderAppend(ps: seq<Paragraph>, p: Paragraph)
    ensures RenderAll(ps + [p]) == RenderAll(ps) + Render(p)
  {
    assert (ps + [p])[..|ps|] == ps;
  }

  /** The rendering of a non-empty list ends with its last paragraph. */
  lemma RenderLast(ps: seq<Paragraph>)
    requires |ps| > 0
    ensures RenderAll(ps) == RenderAll(ps[..|ps| - 1]) + Render(ps[|ps| - 1])
  {
  }

  /** The rendering of a list ends with its last two paragraphs. */
  lemma RenderLastTwo(ps: seq<Paragraph>, p: Paragraph, q: Paragraph)
    ensures RenderAll(ps + [p, q]) == RenderAll(ps) + Render(p) + Render(q)
  {
    RenderAppend(ps, p);
    RenderAppend(ps + [p], q);
    assert ps + [p] + [q] == ps + [p, q];
  }

  lemma RenderSingle(p: Paragraph)
    ensures RenderAll([p]) == Render(p)
  {
    assert [p][..0] == [];
  }

  /** One more paragraph appended to a message that already holds some. */
  lemma RenderStep(start: string, ps: seq<Paragraph>, p: Paragraph)
    ensures start + RenderAll(ps + [p]) == start + RenderAll(ps) + Render(p)
  {
    RenderAppend(ps, p);
    ConcatAssoc(start, RenderAll(ps), Render(p));
  }

  /** The error messages the fallback names: the first two at most. */
  function ShownErrors(errors: seq<string>): (r: seq<string>)
    ensures |r| <= 2 && |r| <= |errors| && r == errors[..|r|]
    ensures |errors| > 0 ==> |r| > 0
  {
    if |errors| <= 2 then errors else errors[..2]
  }

  /** A list Python treats as true: present and not empty. */
  predicate NonEmpty(list: Option<seq<string>>) {
    list.Some? && |list.value| > 0
  }

  predicate HighSeverity(severity: Option<string>) {
    severity == Some("high") || severity == Some("critical")
  }

  /** A paragraph that is there only when `present` holds. */
  function Optional(present: bool, p: Paragraph): (r: seq<Paragraph>)
    ensures p in r <==> present
    ensures |r| <= 1
  {
    if present then [p] else []
  }

  /** A message that holds the rendering of `ps` still does after the
      rendering of one more paragraph is appended to it. */
  lemma AppendStep(message: string, start: string, ps: seq<Paragraph>, p: Paragraph, piece: string)
    requires message == start + RenderAll(ps)
    requires piece == Render(p)
    ensures message + piece == start + RenderAll(ps + [p])
  {
    RenderStep(start, ps, p);
  }

  /** Paragraphs appended under a condition are the optional paragraph. */
  lemma AppendedOptional(before: seq<Paragraph>, after: seq<Paragraph>, present: bool, p: Paragraph)
    requires present ==> after == before + [p]
    requires !present ==> after == before
    ensures after == before + Optional(present, p)
  {
    if !present {
      assert before + Optional(present, p) == before;
    }
  }

  /** The opening of the analysis: the category and title, then the summary. */
  function LeadParagraphs(a: IssueAnalysis, title: Option<string>): seq<Paragraph>
    requires a.issueCategory.Some?
  {
    [Intro(a.issueCategory.value, title), IssueSummary(a.issueSummary)]
  }

  /** The error messages the fallback names, if any. */
  function ShownOf(a: IssueAnalysis): seq<string> {
    var errors := a.technicalDetails.errorMessages;
    if errors.Some? then ShownErrors(errors.value) else []
  }

  /** The affected features, if any. */
  function FeaturesOf(a: IssueAnalysis): seq<string> {
    var features := a.technicalDetails.affectedFeatures;
    if features.Some? then features.value else []
  }

  /** What the analysis found: its errors and the affected features, each
      only when listed. */
  function FindingParagraphs(a: IssueAnalysis): seq<Paragraph> {
    Optional(NonEmpty(a.technicalDetails.errorMessages), ErrorDetails(ShownOf(a)))
    + Optional(NonEmpty(a.technicalDetails.affectedFeatures), AffectedAreas(FeaturesOf(a)))
  }

  /** The customer's address when known, and the priority note for a high
      or critical severity. */
  function AccountParagraphs(a: IssueAnalysis): seq<Paragraph> {
    Optional(a.customerInfo.primaryEmail != "", Account(a.customerInfo.primaryEmail))
    + Optional(HighSeverity(a.severity), PriorityNote)
  }

  /** The paragraphs for a successful investigation with an analysis. */
  function AnalysisParagraphs(a: IssueAnalysis, title: Option<string>, prUrls: seq<string>): seq<Paragraph>
    requires a.issueCategory.Some?
  {
    LeadParagraphs(a, title) + FindingParagraphs(a) + AccountParagraphs(a) + [Completion(|prUrls| > 0)]
  }

  /** The link list, when there are links, and the follow-up sentence that
      close a successful investigation's message. */
  function ClosingParagraphs(prUrls: seq<string>): seq<Paragraph> {
    Optional(|prUrls| > 0, PrList(prUrls)) + [FollowUp]
  }

  /** The paragraphs of `_generate_fallback_response` after the marker.
      Lower-casing a missing category raises. */
  function FallbackParagraphs(success: bool, prUrls: seq<string>, title: Option<string>,
                              analysis: Option<IssueAnalysis>): (r: Result<seq<Paragraph>>)
    ensures r.Err? <==> success && analysis.Some? && analysis.value.issueCategory.None?
  {
    if !success then Ok([Unable])
    else if analysis.None? then Ok([GeneralIntro] + ClosingParagraphs(prUrls))
    else if analysis.value.issueCategory.None? then Err(NoLowerError)
    else Ok(AnalysisParagraphs(analysis.value, title, prUrls) + ClosingParagraphs(prUrls))
  }

  /** No analysis paragraph is a link list, the follow-up or the apology,
      and an error paragraph names one or two messages. */
  lemma AnalysisKinds(a: IssueAnalysis, title: Option<string>, prUrls: seq<string>, p: Paragraph)
    requires a.issueCategory.Some? && p in AnalysisParagraphs(a, title, prUrls)
    ensures !p.PrList? && !p.FollowUp? && !p.Unable?
    ensures p.ErrorDetails? ==> 1 <= |p.shown| <= 2 && NonEmpty(a.technicalDetails.errorMessages)
    ensures p.PriorityNote? ==> HighSeverity(a.severity)
  {
    var lead := LeadParagraphs(a, title);
    var finding := FindingParagraphs(a);
    var account := AccountParagraphs(a);
    assert AnalysisParagraphs(a, title, prUrls) == lead + finding + account + [Completion(|prUrls| > 0)];
    if p in finding {
      var errors := Optional(NonEmpty(a.technicalDetails.errorMessages), ErrorDetails(ShownOf(a)));
      var areas := Optional(NonEmpty(a.technicalDetails.affectedFeatures), AffectedAreas(FeaturesOf(a)));
      assert finding == errors + areas;
      if p in errors {
        assert p == ErrorDetails(ShownOf(a));
      } else {
        assert p in areas;
      }
    } else if p in account {
      var email := Optional(a.customerInfo.primaryEmail != "", Account(a.customerInfo.primaryEmail));
      var priority := Optional(HighSeverity(a.severity), PriorityNote);
      assert account == email + priority;
      if p in email {
        assert p.Account?;
      } else {
        assert p in priority;
      }
    } else {
      assert p in lead || p == Completion(|prUrls| > 0);
    }
  }

  /** A failed investigation's fallback is the apology alone. A successful
      one ends with the follow-up sentence, right after the link list when
      there are links, lists the links nowhere else, and names one or two
      error messages in its error paragraph. */
  lemma FallbackShape(success: bool, prUrls: seq<string>, title: Option<string>,
                      analysis: Option<IssueAnalysis>)
    requires FallbackParagraphs(success, prUrls, title, analysis).Ok?
    ensures !success ==> FallbackParagraphs(success, prUrls, title, analysis).value == [Unable]
    ensures success ==>
      var ps := FallbackParagraphs(success, prUrls, title, analysis).value;
      && |ps| >= 2 && ps[|ps| - 1] == FollowUp
      && (|prUrls| > 0 ==> ps[|ps| - 2] == PrList(prUrls))
      && (PrList(prUrls) in ps <==> |prUrls| > 0)
      && Unable !in ps
      && (forall p :: p in ps && p.ErrorDetails? ==> 1 <= |p.shown| <= 2)
  {
    hide Render, RenderAll, LeadParagraphs, FindingParagraphs, AccountParagraphs, NumberedList, Join, Lower;
    if success {
      var ps := FallbackParagraphs(success, prUrls, title, analysis).value;
      var body := if analysis.None? then [GeneralIntro] else AnalysisParagraphs(analysis.value, title, prUrls);
      var closing := ClosingParagraphs(prUrls);
      assert ps == body + closing;
      forall p | p in body
        ensures !p.PrList? && !p.Unable? && (p.ErrorDetails? ==> 1 <= |p.shown| <= 2)
      {
        if analysis.Some? {
          AnalysisKinds(analysis.value, title, prUrls, p);
        }
      }
      if |prUrls| > 0 {
        assert closing == [PrList(prUrls), FollowUp];
      } else {
        assert closing == [FollowUp];
      }
    }
  }

  /** The priority paragraph is there exactly for a high or critical
      severity, and the error paragraph exactly when the analysis lists
      errors, naming the first two at most. */
  lemma FallbackSections(prUrls: seq<string>, title: Option<string>, a: IssueAnalysis)
    requires a.issueCategory.Some?
    ensures FallbackParagraphs(true, prUrls, title, Some(a)).Ok?
    ensures PriorityNote in FallbackParagraphs(true, prUrls, title, Some(a)).value
        <==> HighSeverity(a.severity)
    ensures NonEmpty(a.technicalDetails.errorMessages) ==>
      ErrorDetails(ShownErrors(a.technicalDetails.errorMessages.value))
        in FallbackParagraphs(true, prUrls, title, Some(a)).value
    ensures !NonEmpty(a.technicalDetails.errorMessages) ==>
      forall p :: p in FallbackParagraphs(true, prUrls, title, Some(a)).value ==> !p.ErrorDetails?
  {
    var ps := FallbackParagraphs(true, prUrls, title, Some(a)).value;
    var analysisPart := AnalysisParagraphs(a, title, prUrls);
    var closing := ClosingParagraphs(prUrls);
    assert ps == analysisPart + closing;
    assert forall p :: p in closing ==> p.PrList? || p.FollowUp?;
    var lead := LeadParagraphs(a, title);
    var finding := FindingParagraphs(a);
    var account := AccountParagraphs(a);
    assert analysisPart == lead + finding + account + [Completion(|prUrls| > 0)];
    if HighSeverity(a.severity) {
      assert account[|account| - 1] == PriorityNote;
      assert PriorityNote in account;
    } else if PriorityNote in ps {
      AnalysisKinds(a, title, prUrls, PriorityNote);
    }
    if NonEmpty(a.technicalDetails.errorMessages) {
      assert finding[0] == ErrorDetails(ShownOf(a));
      assert ErrorDetails(ShownOf(a)) in finding;
    } else {
      forall p | p in ps ensures !p.ErrorDetails? {
        if p in analysisPart {
          AnalysisKinds(a, title, prUrls, p);
        }
      }
    }
  }

  /** The text of the fallback message. */
  function FallbackText(success: bool, prUrls: seq<string>, title: Option<string>,
                        analysis: Option<IssueAnalysis>): (r: Result<string>)
    ensures r.Err? <==> FallbackParagraphs(success, prUrls, title, analysis).Err?
    ensures r.Ok? ==> StartsWith(r.value, AiOpening)
  {
    var paras := FallbackParagraphs(success, prUrls, title, analysis);
    if paras.Err? then Err(paras.error)
    else
      StartsWithConcat(AiOpening, RenderAll(paras.value));
      Ok(AiOpening + RenderAll(paras.value))
  }

  /** A successful investigation's fallback ends with the follow-up
      sentence; a failed one's is the fixed apology. */
  lemma FallbackEnding(success: bool, prUrls: seq<string>, title: Option<string>,
                       analysis: Option<IssueAnalysis>)
    requires FallbackText(success, prUrls, title, analysis).Ok?
    ensures success ==> EndsWith(FallbackText(success, prUrls, title, analysis).value, FollowUpText)
    ensures !success ==> FallbackText(success, prUrls, title, analysis).value == AiOpening + UnableText
  {
    hide FallbackParagraphs, RenderAll, AnalysisParagraphs, ClosingParagraphs, NumberedList, Join, Lower;
    var paras := FallbackParagraphs(success, prUrls, title, analysis).value;
    FallbackShape(success, prUrls, title, analysis);
    if success {
      var init := paras[..|paras| - 1];
      RenderLast(paras);
      ConcatAssoc(AiOpening, RenderAll(init), FollowUpText);
      EndsWithConcat(AiOpening + RenderAll(init), FollowUpText);
    } else {
      RenderSingle(Unable);
    }
  }

  /** `_generate_fallback_response`, appending paragraph by paragraph as
      the source does. */
  method GenerateFallbackResponse(success: bool, prUrls: seq<string>, title: Option<string>,
                                  analysis: Option<IssueAnalysis>) returns (r: Result<string>)
    ensures r == FallbackText(success, prUrls, title, analysis)
  {
    var message := AiOpening;
    ghost var paras: seq<Paragraph> := [];
    assert AiOpening == AiOpening + RenderAll(paras);
    if !success {
      AppendStep(message, AiOpening, paras, Unable, UnableText);
      message, paras := message + UnableText, paras + [Unable];
      assert paras == [Unable];
      return Ok(message);
    }
    if analysis.Some? {
      var a := analysis.value;
      if a.issueCategory.None? {
        return Err(NoLowerError);
      }
      message := AppendAnalysis(message, a, title, prUrls);
      paras := AnalysisParagraphs(a, title, prUrls);
    } else {
      AppendStep(message, AiOpening, paras, GeneralIntro, GeneralIntroText);
      message, paras := message + GeneralIntroText, paras + [GeneralIntro];
    }
    message := AppendClosing(message, AiOpening, paras, prUrls);
    paras := paras + ClosingParagraphs(prUrls);
    r := Ok(message);
  }

  /** The numbered links under their heading when there are any, then the
      follow-up sentence. */
  method AppendClosing(message: string, ghost start: string, ghost ps: seq<Paragraph>, prUrls: seq<string>)
    returns (r: string)
    requires message == start + RenderAll(ps)
    ensures r == start + RenderAll(ps + ClosingParagraphs(prUrls))
  {
    hide RenderAll, NumberedList, Join, Lower;
    r := message;
    ghost var paras := ps;
    if |prUrls| > 0 {
      var list := NumberPullRequests(prUrls);
      var section := FallbackPrHeading + list + "\n";
      AppendStep(r, start, paras, PrList(prUrls), section);
      r, paras := r + section, paras + [PrList(prUrls)];
    }
    AppendedOptional(ps, paras, |prUrls| > 0, PrList(prUrls));
    AppendStep(r, start, paras, FollowUp, FollowUpText);
    r, paras := r + FollowUpText, paras + [FollowUp];
    assert paras == ps + ClosingParagraphs(prUrls);
  }

  /** The analysis paragraphs of the fallback, appended in order. */
  method AppendAnalysis(start: string, a: IssueAnalysis, title: Option<string>, prUrls: seq<string>)
    returns (message: string)
    requires a.issueCategory.Some?
    ensures message == start + RenderAll(AnalysisParagraphs(a, title, prUrls))
  {
    hide RenderAll, FindingParagraphs, AccountParagraphs, NumberedList, Join, Lower;
    var category := a.issueCategory.value;
    var intro := IntroStart + Lower(category) + IntroMiddle + title.GetOr("your request") + "." + ParagraphEnd;
    RenderSingle(Intro(category, title));
    message := start + intro;
    ghost var paras: seq<Paragraph> := [Intro(category, title)];
    var summary := IssueSummaryLabel + Show(a.issueSummary) + ParagraphEnd;
    AppendStep(message, start, paras, IssueSummary(a.issueSummary), summary);
    message, paras := message + summary, paras + [IssueSummary(a.issueSummary)];
    assert paras == LeadParagraphs(a, title);
    message := AppendFindings(message, start, paras, a);
    paras := paras + FindingParagraphs(a);
    message := AppendAccount(message, start, paras, a);
    paras := paras + AccountParagraphs(a);
    var withPrs := |prUrls| > 0;
    var closing := CompletedSentence + (if withPrs then CodeFixes else ManualReview);
    AppendStep(message, start, paras, Completion(withPrs), closing);
    message, paras := message + closing, paras + [Completion(withPrs)];
  }

  /** The error and affected-area paragraphs, each appended only when the
      analysis lists something. */
  method AppendFindings(message: string, ghost start: string, ghost ps: seq<Paragraph>, a: IssueAnalysis)
    returns (r: string)
    requires message == start + RenderAll(ps)
    ensures r == start + RenderAll(ps + FindingParagraphs(a))
  {
    hide RenderAll, NumberedList, Join, Lower;
    r := message;
    ghost var paras := ps;
    var errors := a.technicalDetails.errorMessages;
    var shown := if errors.Some? then ShownErrors(errors.value) else [];
    if NonEmpty(errors) {
      var details := ErrorLabel + Join(ListSeparator, shown) + ParagraphEnd;
      AppendStep(r, start, paras, ErrorDetails(shown), details);
      r, paras := r + details, paras + [ErrorDetails(shown)];
    }
    AppendedOptional(ps, paras, NonEmpty(errors), ErrorDetails(shown));
    ghost var mid := paras;
    var features := a.technicalDetails.affectedFeatures;
    var listed := if features.Some? then features.value else [];
    if NonEmpty(features) {
      var areas := AreasLabel + Join(ListSeparator, listed) + ParagraphEnd;
      AppendStep(r, start, paras, AffectedAreas(listed), areas);
      r, paras := r + areas, paras + [AffectedAreas(listed)];
    }
    AppendedOptional(mid, paras, NonEmpty(features), AffectedAreas(listed));
    assert paras == ps + FindingParagraphs(a);
  }

  /** The account and priority paragraphs, each appended only when it
      applies. */
  method AppendAccount(message: string, ghost start: string, ghost ps: seq<Paragraph>, a: IssueAnalysis)
    returns (r: string)
    requires message == start + RenderAll(ps)
    ensures r == start + RenderAll(ps + AccountParagraphs(a))
  {
    hide RenderAll, NumberedList, Join, Lower;
    r := message;
    ghost var paras := ps;
    var email := a.customerInfo.primaryEmail;
    if email != "" {
      var account := AccountLabel + email + ParagraphEnd;
      AppendStep(r, start, paras, Account(email), account);
      r, paras := r + account, paras + [Account(email)];
    }
    AppendedOptional(ps, paras, email != "", Account(email));
    ghost var mid := paras;
    if HighSeverity(a.severity) {
      AppendStep(r, start, paras, PriorityNote, PriorityText);
      r, paras := r + PriorityText, paras + [PriorityNote];
    }
    AppendedOptional(mid, paras, HighSeverity(a.severity), PriorityNote);
    assert paras == ps + AccountParagraphs(a);
  }

  // ------------------------------------------------------------ choosing the response

  /** The dictionary the reply parser returns, key by key (`None`: missing). */
  datatype ReplyFields = ReplyFields(
    responseMessage: Option<string>, resolutionType: Option<string>, confidenceLevel: Option<string>,
    nextSteps: Option<seq<string>>, technicalSummary: Option<string>)

  const FallbackNextSteps := ["Follow up with customer if needed"]
  const ProcessingFailedPrefix := "Analysis completed but response processing failed: "
  const NoUpdatePrefix := "Claude execution failed, no JIRA update needed: "
  const AttributeError := "'dict' object has no attribute 'response_message'"

  /** The `except` branch of `generate_jira_response`: after a successful
      investigation the fallback message, marked as investigated with medium
      confidence; otherwise an error, so that no response is produced. */
  function FallbackResponse(title: Option<string>, analysis: Option<IssueAnalysis>,
                            claude: ClaudeExecutionResult, error: string): (r: Result<JiraResponse>)
    ensures !claude.success ==> r == Err(NoUpdatePrefix + error)
    ensures claude.success ==> (r.Err? <==> FallbackText(true, claude.prUrls, title, analysis).Err?)
    ensures r.Ok? ==>
      && r.value.resolutionType == "investigated" && r.value.confidenceLevel == "medium"
      && r.value.nextSteps == FallbackNextSteps && r.value.prUrls == claude.prUrls
      && r.value.technicalSummary == ProcessingFailedPrefix + error
      && r.value.message == FinalMessage(FallbackText(true, claude.prUrls, title, analysis).value, claude.prUrls)
  {
    if !claude.success then Err(NoUpdatePrefix + error)
    else
      var text := FallbackText(true, claude.prUrls, title, analysis);
      if text.Err? then Err(text.error)
      else
        Ok(JiraResponse(FinalMessage(text.value, claude.prUrls), "investigated", "medium",
                        FallbackNextSteps, ProcessingFailedPrefix + error, claude.prUrls))
  }

  /** `generate_jira_response` as written: the parser hands back a
      dictionary, and reading `response_message` off it as an attribute
      raises, so every reply ends in the `except` branch. */
  function GenerateResponseAsWritten(title: Option<string>, analysis: Option<IssueAnalysis>,
                                     claude: ClaudeExecutionResult, reply: Result<ReplyFields>)
    : (r: Result<JiraResponse>)
    ensures reply.Err? ==> r == FallbackResponse(title, analysis, claude, reply.error)
    ensures reply.Ok? ==> r == FallbackResponse(title, analysis, claude, AttributeError)
  {
    if reply.Err? then FallbackResponse(title, analysis, claude, reply.error)
    else FallbackResponse(title, analysis, claude, AttributeError)
  }

  /** The reply names the three fields without a default. */
  predicate Complete(f: ReplyFields) {
    f.responseMessage.Some? && f.resolutionType.Some? && f.confidenceLevel.Some?
  }

  /** The key a `data['...']` lookup misses first, as `str(KeyError)` shows it. */
  function MissingKey(f: ReplyFields): string
    requires !Complete(f)
  {
    if f.responseMessage.None? then "'response_message'"
    else if f.resolutionType.None? then "'resolution_type'"
    else "'confidence_level'"
  }

  /** `generate_jira_response` reading the reply's keys: a complete reply
      becomes the response, its message marked and followed by the links;
      the optional keys take their declared defaults. Any failure takes the
      `except` branch. */
  function GenerateResponse(title: Option<string>, analysis: Option<IssueAnalysis>,
                            claude: ClaudeExecutionResult, reply: Result<ReplyFields>)
    : (r: Result<JiraResponse>)
    ensures reply.Ok? && Complete(reply.value) ==>
      && r.Ok?
      && r.value.message == FinalMessage(reply.value.responseMessage.value, claude.prUrls)
      && r.value.resolutionType == reply.value.resolutionType.value
      && r.value.confidenceLevel == reply.value.confidenceLevel.value
      && r.value.nextSteps == reply.value.nextSteps.GetOr([])
      && r.value.technicalSummary == reply.value.technicalSummary.GetOr("")
    ensures reply.Err? ==> r == FallbackResponse(title, analysis, claude, reply.error)
    ensures reply.Ok? && !Complete(reply.value) ==>
      r == FallbackResponse(title, analysis, claude, MissingKey(reply.value))
    ensures r.Ok? ==> StartsWith(r.value.message, AiPrefix) && r.value.prUrls == claude.prUrls
  {
    if reply.Err? then FallbackResponse(title, analysis, claude, reply.error)
    else if !Complete(reply.value) then FallbackResponse(title, analysis, claude, MissingKey(reply.value))
    else
      var f := reply.value;
      Ok(JiraResponse(FinalMessage(f.responseMessage.value, claude.prUrls), f.resolutionType.value,
                      f.confidenceLevel.value, f.nextSteps.GetOr([]), f.technicalSummary.GetOr(""),
                      claude.prUrls))
  }

  /** As written, the model's reply is never used: a complete reply that
      reports a fix still yields the investigated fallback, where reading
      its keys yields the fix. */
  lemma AsWrittenDiscardsReply(title: Option<string>, analysis: Option<IssueAnalysis>,
                               claude: ClaudeExecutionResult, f: ReplyFields)
    requires Complete(f) && f.resolutionType == Some("fixed") && claude.success
    requires FallbackText(true, claude.prUrls, title, analysis).Ok?
    ensures GenerateResponseAsWritten(title, analysis, claude, Ok(f)).Ok?
    ensures GenerateResponseAsWritten(title, analysis, claude, Ok(f)).value.resolutionType == "investigated"
    ensures GenerateResponse(title, analysis, claude, Ok(f)).value.resolutionType == "fixed"
  {
  }

  /** The fallback text of an investigation that opened pull requests
      lists them, numbered, just before the follow-up sentence. */
  lemma FallbackTextListsLinks(prUrls: seq<string>, title: Option<string>, analysis: Option<IssueAnalysis>)
    returns (before: string)
    requires |prUrls| > 0 && FallbackText(true, prUrls, title, analysis).Ok?
    ensures FallbackText(true, prUrls, title, analysis).value
         == before + NumberedList(prUrls) + ("\n" + FollowUpText)
  {
    FallbackShape(true, prUrls, title, analysis);
    var paras := FallbackParagraphs(true, prUrls, title, analysis).value;
    LastTwo(paras, PrList(prUrls), FollowUp);
    before := ListThenFollowUp(paras[..|paras| - 2], prUrls);
  }

  lemma LastTwo(ps: seq<Paragraph>, p: Paragraph, q: Paragraph)
    requires |ps| >= 2 && ps[|ps| - 2] == p && ps[|ps| - 1] == q
    ensures ps == ps[..|ps| - 2] + [p, q]
  {
  }

  /** Paragraphs ending with the list of links and the follow-up. */
  lemma ListThenFollowUp(init: seq<Paragraph>, prUrls: seq<string>) returns (before: string)
    ensures AiOpening + RenderAll(init + [PrList(prUrls), FollowUp])
         == before + NumberedList(prUrls) + ("\n" + FollowUpText)
  {
    RenderLastTwo(init, PrList(prUrls), FollowUp);
    var earlier := RenderAll(init);
    Regroup(AiOpening, earlier, FallbackPrHeading, NumberedList(prUrls), "\n", FollowUpText);
    before := AiOpening + earlier + FallbackPrHeading;
  }

  /** In the fallback the numbered links are written twice: once in the
      fallback text and once more by the final formatting. */
  lemma FallbackListsLinksTwice(prUrls: seq<string>, title: Option<string>, analysis: Option<IssueAnalysis>)
    requires |prUrls| > 0 && FallbackText(true, prUrls, title, analysis).Ok?
    ensures var m := FinalMessage(FallbackText(true, prUrls, title, analysis).value, prUrls);
      exists a, b, c :: m == a + NumberedList(prUrls) + b + NumberedList(prUrls) + c
  {
    var text := FallbackText(true, prUrls, title, analysis).value;
    var before := FallbackTextListsLinks(prUrls, title, analysis);
    FinalMessageSplit(text, prUrls);
    StartsWithPrefix(text);
    TwiceIn(before, NumberedList(prUrls), "\n" + FollowUpText, PrSectionHeading);
  }

  /** A message that opens with the marker paragraph carries the marker. */
  lemma StartsWithPrefix(text: string)
    requires StartsWith(text, AiOpening)
    ensures StartsWith(text, AiPrefix)
  {
    assert AiOpening[..|AiPrefix|] == AiPrefix;
    StartsWithChain(text, AiOpening, AiPrefix);
  }

  lemma FinalMessageSplit(base: string, prUrls: seq<string>)
    requires |prUrls| > 0
    ensures FinalMessage(base, prUrls) == WithAiPrefix(base) + (PrSectionHeading + NumberedList(prUrls))
  {
  }

  lemma Regroup(o: string, r: string, h: string, l: string, n: string, f: string)
    ensures o + (r + (h + l + n) + f) == (o + r + h) + l + (n + f)
  {
  }

  lemma TwiceIn(before: string, list: string, after: string, heading: string)
    ensures exists a, b, c :: before + list + after + (heading + list) == a + list + b + list + c
  {
    assert before + list + after + (heading + list) == before + list + (after + heading) + list + "";
  }
}
