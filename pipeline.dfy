/** The command-line entry point: one ticket goes through fetch, analysis,
    investigation, response and update, each stage able to raise; a batch
    processes the tickets in argument order and reports through its exit
    status. What each collaborator returns is an input. */
module Pipeline {
  import opened Wrappers
  import opened TicketProcessor
  import opened DeepSeekClient
  import opened ClaudeExecutor
  import opened ClaudeLogProcessor

  /** The stages of `process_ticket`, in the order they are attempted. */
  datatype Stage = Fetch | Analyze | Execute | Respond | Update

  const AllStages: seq<Stage> := [Fetch, Analyze, Execute, Respond, Update]

  /** What the collaborators answer for one ticket: the fetched ticket, the
      analysis, the investigation (`Err` when one of them raises), the
      transcript as the entry point reads it back (`None` when opening the
      file raises), the reply the response parser hands back, and how JIRA
      behaves during the update. */
  datatype TicketWorld = TicketWorld(
    ticket: Result<TicketData>, analysis: Result<IssueAnalysis>,
    execution: Result<ClaudeExecutionResult>, transcript: Option<string>,
    reply: Result<ReplyFields>, server: JiraServer)

  /** Which program the entry point runs. As written, the response generator
      reads the parser's dictionary as an object, so every reply ends in its
      fallback, and a short transcript is handed to the update as plain text.
      Corrected, the reply's keys are read and the short transcript is
      wrapped in a response. */
  datatype Variant = AsWritten | Corrected

  /** Transcripts up to this many characters are posted without the model. */
  const MaxTranscript := 50000

  /** The stages attempted and the value `process_ticket` returns. */
  datatype Outcome = Outcome(stages: seq<Stage>, success: bool)

  /** What the update is handed for a transcript short enough to be posted
      as it is. */
  function ShortTranscriptArg(content: string, claude: ClaudeExecutionResult, v: Variant): (r: ResponseArg)
    ensures v == AsWritten ==> r == PlainText(content)
    ensures v == Corrected ==> r.ResponseObject? && r.message == content && r.prUrls == claude.prUrls
  {
    match v
    case AsWritten => PlainText(content)
    case Corrected => ResponseObject(content, "investigated", "medium", claude.prUrls)
  }

  /** The response object `generate_jira_response` returns, as the update reads it. */
  function ResponseOf(r: JiraResponse): ResponseArg {
    ResponseObject(r.message, r.resolutionType, r.confidenceLevel, r.prUrls)
  }

  /** The update runs to its end without raising. */
  predicate UpdateCompletes(arg: ResponseArg, server: JiraServer) {
    arg.ResponseObject? && !server.commentFails && server.issueLabels.Ok? && !server.updateFails
  }

  /** `generate_jira_response` in the chosen program. */
  function GenerateFor(v: Variant, t: TicketData, a: IssueAnalysis, claude: ClaudeExecutionResult,
                       reply: Result<ReplyFields>): Result<JiraResponse> {
    match v
    case AsWritten => GenerateResponseAsWritten(Some(t.title), Some(a), claude, reply)
    case Corrected => GenerateResponse(Some(t.title), Some(a), claude, reply)
  }

  /** The response and update stages of `process_ticket`, after a
      successful investigation whose transcript reads `content`. */
  function RespondAndUpdate(t: TicketData, a: IssueAnalysis, claude: ClaudeExecutionResult, content: string,
                            reply: Result<ReplyFields>, server: JiraServer, v: Variant): Outcome {
    if |content| > MaxTranscript then
      var response := GenerateFor(v, t, a, claude, reply);
      if response.Err? then Outcome([Respond], false)
      else Outcome([Respond, Update], UpdateCompletes(ResponseOf(response.value), server))
    else
      Outcome([Update], UpdateCompletes(ShortTranscriptArg(content, claude, v), server))
  }

  /** `process_ticket`: each stage runs only when every earlier one returned;
      the first exception ends the run with `False`. The update is skipped
      when the investigation failed; the response generator runs only for a
      transcript longer than `MaxTranscript`. */
  function TicketOutcome(w: TicketWorld, v: Variant): Outcome {
    if w.ticket.Err? then Outcome([Fetch], false)
    else if w.analysis.Err? then Outcome([Fetch, Analyze], false)
    else if w.execution.Err? || !w.execution.value.success || w.transcript.None? then
      Outcome([Fetch, Analyze, Execute], false)
    else
      var later := RespondAndUpdate(w.ticket.value, w.analysis.value, w.execution.value, w.transcript.value,
                                    w.reply, w.server, v);
      Outcome([Fetch, Analyze, Execute] + later.stages, later.success)
  }

  /** The stages after the investigation in the chosen program; `calls` are
      the JIRA calls the update makes. */
  method FinishTicket(t: TicketData, a: IssueAnalysis, claude: ClaudeExecutionResult, content: string,
                      reply: Result<ReplyFields>, server: JiraServer, v: Variant)
    returns (success: bool, stages: seq<Stage>, calls: seq<JiraCall>)
    ensures Outcome(stages, success) == RespondAndUpdate(t, a, claude, content, reply, server, v)
    ensures Update !in stages ==> calls == []
    ensures Update in stages ==> (calls == [] <==> v == AsWritten && |content| <= MaxTranscript)
    ensures calls != [] ==> calls[0].AddComment?
  {
    hide FinalMessage, FallbackResponse, Complete, ClaudeLabels, TargetStatus, GenerateResponse,
         GenerateResponseAsWritten;
    stages := [];
    calls := [];
    var arg;
    if |content| > MaxTranscript {
      stages := stages + [Respond];
      var response := GenerateFor(v, t, a, claude, reply);
      if response.Err? {
        return false, stages, calls;
      }
      arg := ResponseOf(response.value);
    } else {
      arg := ShortTranscriptArg(content, claude, v);
    }
    stages := stages + [Update];
    var raised;
    calls, raised := UpdateWithClaudeResponse(arg, server);
    success := !raised;
  }

  /** `process_ticket` step by step in the chosen program; `calls` are the
      JIRA calls the update makes. */
  method ProcessTicket(w: TicketWorld, v: Variant) returns (success: bool, stages: seq<Stage>, calls: seq<JiraCall>)
    ensures Outcome(stages, success) == TicketOutcome(w, v)
    ensures Update !in stages ==> calls == []
    ensures Update in stages ==> (calls == [] <==> v == AsWritten && |w.transcript.value| <= MaxTranscript)
    ensures calls != [] ==> calls[0].AddComment?
  {
    hide RespondAndUpdate;
    stages := [Fetch];
    calls := [];
    if w.ticket.Err? {
      return false, stages, calls;
    }
    var t := w.ticket.value;
    stages := stages + [Analyze];
    if w.analysis.Err? {
      return false, stages, calls;
    }
    var a := w.analysis.value;
    stages := stages + [Execute];
    if w.execution.Err? {
      return false, stages, calls;
    }
    var claude := w.execution.value;
    if !claude.success || w.transcript.None? {
      return false, stages, calls;
    }
    var later;
    success, later, calls := FinishTicket(t, a, claude, w.transcript.value, w.reply, w.server, v);
    assert Update !in stages;
    stages := stages + later;
  }

  /** The stages attempted are always the first stages of the fixed order,
      with the response step possibly skipped, and the update comes last. */
  lemma StagesInOrder(w: TicketWorld, v: Variant)
    ensures var s := TicketOutcome(w, v).stages;
      && 1 <= |s| <= 5 && s[0] == Fetch
      && (|s| >= 2 ==> s[1] == Analyze)
      && (|s| >= 3 ==> s[2] == Execute)
      && (forall i :: 0 <= i < |s| - 1 ==> s[i] != Update)
      && (Respond in s ==> s[3] == Respond)
  {
  }

  /** A failed investigation never reaches the update and ends in `False`. */
  lemma FailedInvestigationSkipsUpdate(w: TicketWorld, v: Variant)
    requires w.ticket.Ok? && w.analysis.Ok? && w.execution.Ok? && !w.execution.value.success
    ensures Update !in TicketOutcome(w, v).stages && Respond !in TicketOutcome(w, v).stages
    ensures !TicketOutcome(w, v).success
  {
  }

  /** `True` only once the update has run, after a successful investigation. */
  lemma SuccessNeedsUpdate(w: TicketWorld, v: Variant)
    requires TicketOutcome(w, v).success
    ensures Update in TicketOutcome(w, v).stages
    ensures w.ticket.Ok? && w.analysis.Ok? && w.execution.Ok? && w.execution.value.success
    ensures w.transcript.Some?
    ensures !w.server.commentFails && w.server.issueLabels.Ok? && !w.server.updateFails
  {
  }

  /** The response generator is called exactly when the transcript of a
      successful investigation is longer than `MaxTranscript`. */
  lemma RespondOnlyForLongTranscripts(w: TicketWorld, v: Variant)
    ensures Respond in TicketOutcome(w, v).stages <==>
      && w.ticket.Ok? && w.analysis.Ok? && w.execution.Ok? && w.execution.value.success
      && w.transcript.Some? && |w.transcript.value| > MaxTranscript
  {
  }

  /** As written, a successful investigation with a short transcript never
      updates the ticket: the plain text has no `message`, the update raises
      before its first call, and the ticket counts as failed. */
  lemma ShortTranscriptFails(w: TicketWorld)
    requires w.ticket.Ok? && w.analysis.Ok? && w.execution.Ok? && w.execution.value.success
    requires w.transcript.Some? && |w.transcript.value| <= MaxTranscript
    ensures !TicketOutcome(w, AsWritten).success
  {
  }

  /** Corrected, the short transcript is posted, and the ticket succeeds
      whenever JIRA accepts the comment and the labels. */
  lemma ShortTranscriptPosted(w: TicketWorld)
    requires w.ticket.Ok? && w.analysis.Ok? && w.execution.Ok? && w.execution.value.success
    requires w.transcript.Some? && |w.transcript.value| <= MaxTranscript
    ensures TicketOutcome(w, Corrected).success <==>
      !w.server.commentFails && w.server.issueLabels.Ok? && !w.server.updateFails
  {
  }

  // ------------------------------------------------------------ the batch

  /** How many tickets of the batch end in `True`. */
  function SuccessCount(ws: seq<TicketWorld>, v: Variant): (n: nat)
    ensures n <= |ws|
  {
    if |ws| == 0 then 0
    else SuccessCount(ws[..|ws| - 1], v) + (if Succeeds(ws[|ws| - 1], v) then 1 else 0)
  }

  predicate Succeeds(w: TicketWorld, v: Variant) {
    TicketOutcome(w, v).success
  }

  /** The positions of the tickets that end in `True`. */
  function Succeeded(ws: seq<TicketWorld>, v: Variant): set<nat> {
    set i: nat | i < |ws| && Succeeds(ws[i], v)
  }

  /** The count is the number of tickets that end in `True`. */
  lemma {:induction false} SuccessCountExact(ws: seq<TicketWorld>, v: Variant)
    ensures SuccessCount(ws, v) == |Succeeded(ws, v)|
  {
    hide TicketOutcome, Succeeds;
    if |ws| > 0 {
      var init := ws[..|ws| - 1];
      var last := |ws| - 1;
      SuccessCountExact(init, v);
      var before, now := Succeeded(init, v), Succeeded(ws, v);
      assert forall i :: i in now <==> i in before || (i == last && Succeeds(ws[last], v)) by {
        assert forall i :: 0 <= i < |init| ==> init[i] == ws[i];
      }
      assert last !in before;
      if Succeeds(ws[last], v) {
        assert now == before + {last};
      } else {
        assert now == before;
      }
    }
  }

  /** Every ticket of the batch succeeded exactly when the count reaches the
      number of tickets. */
  lemma {:induction false} AllSucceed(ws: seq<TicketWorld>, v: Variant)
    ensures SuccessCount(ws, v) == |ws| <==> forall i :: 0 <= i < |ws| ==> TicketOutcome(ws[i], v).success
  {
    hide TicketOutcome;
    if |ws| > 0 {
      var init := ws[..|ws| - 1];
      AllSucceed(init, v);
      assert forall i :: 0 <= i < |init| ==> init[i] == ws[i];
    }
  }

  /** As written, a batch whose investigations all succeed with short
      transcripts ends with every ticket counted as failed. */
  lemma {:induction false} ShortTranscriptsFailBatch(ws: seq<TicketWorld>)
    requires forall i :: 0 <= i < |ws| ==> var w := ws[i];
      && w.ticket.Ok? && w.analysis.Ok? && w.execution.Ok? && w.execution.value.success
      && w.transcript.Some? && |w.transcript.value| <= MaxTranscript
    ensures SuccessCount(ws, AsWritten) == 0
  {
    if |ws| > 0 {
      var init := ws[..|ws| - 1];
      ShortTranscriptsFailBatch(init);
      ShortTranscriptFails(ws[|ws| - 1]);
    }
  }

  /** The loop of `main`: the tickets one after the other in argument order,
      counting those that end in `True`. */
  method RunBatch(ws: seq<TicketWorld>, v: Variant) returns (results: seq<bool>, successCount: nat)
    ensures |results| == |ws|
    ensures forall i :: 0 <= i < |ws| ==> results[i] == TicketOutcome(ws[i], v).success
    ensures successCount == SuccessCount(ws, v)
  {
    hide TicketOutcome;
    results := [];
    successCount := 0;
    var i := 0;
    while i < |ws|
      invariant 0 <= i <= |ws|
      invariant |results| == i
      invariant forall j :: 0 <= j < i ==> results[j] == TicketOutcome(ws[j], v).success
      invariant successCount == SuccessCount(ws[..i], v)
    {
      var ok, _, _ := ProcessTicket(ws[i], v);
      assert ws[..i + 1][..i] == ws[..i];
      results := results + [ok];
      if ok {
        successCount := successCount + 1;
      }
      i := i + 1;
    }
    assert ws[..i] == ws;
  }

  /** How `main` ends: its exit status, the tickets processed and how many failed. */
  datatype Exit = Exit(status: int, processed: nat, failed: nat)

  /** `main`: argument parsing rejects an empty ticket list with status 2; a
      configuration that fails to load ends with 1 before any ticket;
      otherwise 0 exactly when every ticket succeeded, and 1 otherwise. */
  method RunMain(ws: seq<TicketWorld>, configLoads: bool, v: Variant) returns (e: Exit)
    ensures |ws| == 0 ==> e == Exit(2, 0, 0)
    ensures |ws| > 0 && !configLoads ==> e == Exit(1, 0, 0)
    ensures |ws| > 0 && configLoads ==>
      && e.processed == |ws| && e.failed == |ws| - SuccessCount(ws, v)
      && (e.status == 0 <==> forall i :: 0 <= i < |ws| ==> TicketOutcome(ws[i], v).success)
      && (e.status == 0 || e.status == 1)
  {
    if |ws| == 0 {
      return Exit(2, 0, 0);
    }
    if !configLoads {
      return Exit(1, 0, 0);
    }
    var _, successCount := RunBatch(ws, v);
    AllSucceed(ws, v);
    var failed := |ws| - successCount;
    e := Exit(if successCount == |ws| then 0 else 1, |ws|, failed);
  }
}
