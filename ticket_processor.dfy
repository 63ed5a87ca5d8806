/** The JIRA side of the pipeline: assembling a ticket's conversation from the
    issue JIRA returns, and the comment, label and status-transition rules of
    the three update operations. The JIRA server appears only through the
    values it returns and through which of its calls fail. */
module TicketProcessor {
  import opened Wrappers
  import opened Text
  import opened Sorting
  import opened Sequences

  /** One line of a ticket's history; `entryType` is `comment`,
      `status_change` or `assignment`. Timestamps are seconds. */
  datatype ConversationEntry = ConversationEntry(author: string, timestamp: int, content: string,
                                                 entryType: string)

  /** The value of a JIRA custom field. */
  datatype FieldValue = Number(n: int) | TextValue(s: string) | Structured(repr: string)

  datatype TicketData = TicketData(
    ticketId: string, title: string, description: string, priority: string, status: string,
    createdDate: int, updatedDate: int, reporter: string, assignee: Option<string>,
    conversation: seq<ConversationEntry>, labels: seq<string>, components: seq<string>,
    customFields: seq<(string, FieldValue)>)

  datatype JiraComment = JiraComment(author: string, created: int, body: string)

  /** One field change of a changelog history; a missing value is `None`. */
  datatype ChangeItem = ChangeItem(field: string, fromString: Option<string>, toString: Option<string>)

  datatype ChangeHistory = ChangeHistory(author: string, created: int, items: seq<ChangeItem>)

  /** What `jira.issue(id, expand='comments,changelog,history')` returns, with
      its timestamps already parsed. `fields` holds the issue's custom-field
      attributes: an absent key is a missing attribute, `None` a null value. */
  datatype JiraIssue = JiraIssue(
    summary: string, description: Option<string>, priorityName: Option<string>, status: string,
    created: int, updated: int, reporter: Option<string>, assignee: Option<string>,
    labels: Option<seq<string>>, components: seq<string>, comments: seq<JiraComment>,
    changelog: Option<seq<ChangeHistory>>, fields: map<string, Option<FieldValue>>)

  // ---------------------------------------------------------------- fetching

  function TimestampOf(e: ConversationEntry): int {
    e.timestamp
  }

  function ReporterOf(issue: JiraIssue): string {
    issue.reporter.GetOr("Unknown")
  }

  function DescriptionOf(issue: JiraIssue): string {
    issue.description.GetOr("")
  }

  /** The synthesized first entry: present exactly when the description is
      non-empty, written by the reporter at creation time. */
  function DescriptionEntry(issue: JiraIssue): (r: seq<ConversationEntry>)
    ensures |r| <= 1
    ensures |r| == 1 <==> DescriptionOf(issue) != ""
    ensures |r| == 1 ==>
      && r[0].author == ReporterOf(issue) && r[0].timestamp == issue.created
      && r[0].entryType == "comment"
      && r[0].content == "[Initial Description]\n" + DescriptionOf(issue)
  {
    var description := DescriptionOf(issue);
    if description == "" then []
    else [ConversationEntry(ReporterOf(issue), issue.created, "[Initial Description]\n" + description, "comment")]
  }

  function CommentEntries(comments: seq<JiraComment>): (r: seq<ConversationEntry>)
    ensures |r| == |comments|
    ensures forall i :: 0 <= i < |r| ==>
      r[i] == ConversationEntry(comments[i].author, comments[i].created, comments[i].body, "comment")
  {
    if |comments| == 0 then []
    else
      var c := comments[|comments| - 1];
      CommentEntries(comments[..|comments| - 1]) + [ConversationEntry(c.author, c.created, c.body, "comment")]
  }

  /** Only status, assignee and priority changes enter the conversation. */
  predicate Tracked(item: ChangeItem) {
    item.field == "status" || item.field == "assignee" || item.field == "priority"
  }

  /** `value or 'None'` */
  function OrNone(value: Option<string>): (r: string)
    ensures r != ""
    ensures value.Some? && value.value != "" ==> r == value.value
  {
    if value.Some? && value.value != "" then value.value else "None"
  }

  /** `str.capitalize()` for ASCII text. */
  function Capitalize(s: string): (r: string)
    ensures |r| == |s|
    ensures |s| > 0 ==> r[0] == UpperChar(s[0])
    ensures forall i :: 1 <= i < |s| ==> r[i] == LowerChar(s[i])
  {
    if |s| == 0 then "" else [UpperChar(s[0])] + Lower(s[1..])
  }

  /** The tracked fields appear in the conversation as `Status`, `Assignee`
      and `Priority`. */
  lemma TrackedFieldNames()
    ensures Capitalize("status") == "Status"
    ensures Capitalize("assignee") == "Assignee"
    ensures Capitalize("priority") == "Priority"
  {
    CapitalizeLowercase("status");
    CapitalizeLowercase("assignee");
    CapitalizeLowercase("priority");
  }

  /** A lower-case word only gets its first letter upper-cased. */
  lemma CapitalizeLowercase(s: string)
    requires |s| > 0 && forall i :: 0 <= i < |s| ==> 'a' <= s[i] <= 'z'
    ensures Capitalize(s) == [UpperChar(s[0])] + s[1..]
  {
    assert Lower(s[1..]) == s[1..];
  }

  function ChangeEntry(history: ChangeHistory, item: ChangeItem): ConversationEntry {
    ConversationEntry(history.author, history.created,
      Capitalize(item.field) + " changed from '" + OrNone(item.fromString) + "' to '" + OrNone(item.toString) + "'",
      if item.field == "status" then "status_change" else "assignment")
  }

  /** The entries one history contributes: one per tracked item, in order. */
  function ItemEntries(history: ChangeHistory, items: seq<ChangeItem>): (r: seq<ConversationEntry>)
    ensures |r| <= |items|
    ensures forall e :: e in r ==>
      e.author == history.author && e.timestamp == history.created
      && (e.entryType == "status_change" || e.entryType == "assignment")
    ensures (forall i :: 0 <= i < |items| ==> !Tracked(items[i])) ==> r == []
    ensures (forall i :: 0 <= i < |items| ==> Tracked(items[i])) ==> |r| == |items|
  {
    if |items| == 0 then []
    else
      var item := items[|items| - 1];
      ItemEntries(history, items[..|items| - 1]) + (if Tracked(item) then [ChangeEntry(history, item)] else [])
  }

  /** One more item of the history, entered when it is tracked. */
  lemma ItemEntriesStep(history: ChangeHistory, items: seq<ChangeItem>, k: nat)
    requires k < |items|
    ensures ItemEntries(history, items[..k + 1])
      == ItemEntries(history, items[..k]) + (if Tracked(items[k]) then [ChangeEntry(history, items[k])] else [])
  {
    assert items[..k + 1][..k] == items[..k];
  }

  function ChangelogEntries(histories: seq<ChangeHistory>): (r: seq<ConversationEntry>)
    ensures forall e :: e in r ==> e.entryType == "status_change" || e.entryType == "assignment"
  {
    if |histories| == 0 then []
    else
      var h := histories[|histories| - 1];
      ChangelogEntries(histories[..|histories| - 1]) + ItemEntries(h, h.items)
  }

  /** Everything collected before the sort: the description entry, every
      comment, then the tracked changelog items. */
  function CollectedEntries(issue: JiraIssue): seq<ConversationEntry> {
    DescriptionEntry(issue) + CommentEntries(issue.comments)
      + (if issue.changelog.Some? then ChangelogEntries(issue.changelog.value) else [])
  }

  const CustomFieldNames: seq<(string, string)> :=
    [("customfield_10000", "epic_link"), ("customfield_10001", "story_points"),
     ("customfield_10002", "team"), ("customfield_10003", "customer_impact")]

  /** The mapped custom fields the issue has with a non-null value, in mapping order. */
  function CustomFieldsOf(fields: map<string, Option<FieldValue>>, mappings: seq<(string, string)>)
    : seq<(string, FieldValue)>
  {
    if |mappings| == 0 then []
    else
      var (id, name) := mappings[|mappings| - 1];
      CustomFieldsOf(fields, mappings[..|mappings| - 1])
        + (if id in fields && fields[id].Some? then [(name, fields[id].value)] else [])
  }

  /** `_extract_custom_fields`: only the four mapped names appear, each with
      the issue's value, and only when that value is not null. */
  method ExtractCustomFields(fields: map<string, Option<FieldValue>>) returns (r: seq<(string, FieldValue)>)
    ensures r == CustomFieldsOf(fields, CustomFieldNames)
    ensures |r| <= 4
    ensures forall p :: p in r ==> exists i :: (0 <= i < 4 && p.0 == CustomFieldNames[i].1
      && CustomFieldNames[i].0 in fields && fields[CustomFieldNames[i].0] == Some(p.1))
  {
    r := [];
    var i := 0;
    while i < |CustomFieldNames|
      invariant 0 <= i <= |CustomFieldNames|
      invariant r == CustomFieldsOf(fields, CustomFieldNames[..i])
      invariant |r| <= i
      invariant forall p :: p in r ==> exists j :: (0 <= j < i && p.0 == CustomFieldNames[j].1
        && CustomFieldNames[j].0 in fields && fields[CustomFieldNames[j].0] == Some(p.1))
    {
      var (id, name) := CustomFieldNames[i];
      assert CustomFieldNames[..i + 1][..i] == CustomFieldNames[..i];
      if id in fields && fields[id].Some? {
        r := r + [(name, fields[id].value)];
      }
      i := i + 1;
    }
    assert CustomFieldNames[..4] == CustomFieldNames;
  }

  /** The changelog loop of `fetch_ticket` for one history. */
  method CollectChanges(history: ChangeHistory) returns (entries: seq<ConversationEntry>)
    ensures entries == ItemEntries(history, history.items)
  {
    hide ChangeEntry, ItemEntries;
    entries := [];
    var k := 0;
    assert history.items[..0] == [];
    while k < |history.items|
      invariant 0 <= k <= |history.items|
      invariant entries == ItemEntries(history, history.items[..k])
    {
      var item := history.items[k];
      ItemEntriesStep(history, history.items, k);
      if item.field == "status" || item.field == "assignee" || item.field == "priority" {
        entries := entries + [ChangeEntry(history, item)];
      }
      k := k + 1;
    }
    assert history.items[..|history.items|] == history.items;
  }

  /** The changelog loop of `fetch_ticket`, over every history in order. */
  method CollectChangelog(histories: seq<ChangeHistory>) returns (entries: seq<ConversationEntry>)
    ensures entries == ChangelogEntries(histories)
  {
    entries := [];
    var h := 0;
    while h < |histories|
      invariant 0 <= h <= |histories|
      invariant entries == ChangelogEntries(histories[..h])
    {
      var changes := CollectChanges(histories[h]);
      assert histories[..h + 1][..h] == histories[..h];
      entries := entries + changes;
      h := h + 1;
    }
    assert histories[..|histories|] == histories;
  }

  /** `fetch_ticket` once JIRA has answered: the basic fields with their
      defaults, and the conversation in chronological order. */
  method FetchTicket(ticketId: string, issue: JiraIssue) returns (t: TicketData)
    ensures t.ticketId == ticketId && t.title == issue.summary && t.status == issue.status
    ensures t.description == DescriptionOf(issue) && t.reporter == ReporterOf(issue)
    ensures t.priority == issue.priorityName.GetOr("Unknown") && t.assignee == issue.assignee
    ensures t.createdDate == issue.created && t.updatedDate == issue.updated
    ensures t.labels == issue.labels.GetOr([]) && t.components == issue.components
    ensures t.customFields == CustomFieldsOf(issue.fields, CustomFieldNames)
    ensures t.conversation == SortBy(CollectedEntries(issue), TimestampOf)
  {
    var reporter := issue.reporter.GetOr("Unknown");
    var description := issue.description.GetOr("");
    var customFields := ExtractCustomFields(issue.fields);

    var conversation: seq<ConversationEntry> := [];
    if description != "" {
      conversation := conversation
        + [ConversationEntry(reporter, issue.created, "[Initial Description]\n" + description, "comment")];
    }
    var prefix := conversation;
    var i := 0;
    while i < |issue.comments|
      invariant 0 <= i <= |issue.comments|
      invariant prefix == DescriptionEntry(issue)
      invariant conversation == prefix + CommentEntries(issue.comments[..i])
    {
      var c := issue.comments[i];
      assert issue.comments[..i + 1][..i] == issue.comments[..i];
      conversation := conversation + [ConversationEntry(c.author, c.created, c.body, "comment")];
      i := i + 1;
    }
    assert issue.comments[..|issue.comments|] == issue.comments;

    if issue.changelog.Some? {
      var changes := CollectChangelog(issue.changelog.value);
      conversation := conversation + changes;
    }
    assert conversation == CollectedEntries(issue);

    conversation := SortBy(conversation, TimestampOf);
    t := TicketData(ticketId, issue.summary, description, issue.priorityName.GetOr("Unknown"),
      issue.status, issue.created, issue.updated, reporter, issue.assignee, conversation,
      issue.labels.GetOr([]), issue.components, customFields);
  }

  /** The fetched conversation is chronological, holds exactly the collected
      entries, and keeps the collection order among entries with equal
      timestamps (the sort is stable). */
  lemma ConversationChronological(issue: JiraIssue)
    ensures SortedBy(SortBy(CollectedEntries(issue), TimestampOf), TimestampOf)
    ensures multiset(SortBy(CollectedEntries(issue), TimestampOf)) == multiset(CollectedEntries(issue))
    ensures forall k :: WithKey(SortBy(CollectedEntries(issue), TimestampOf), TimestampOf, k)
                     == WithKey(CollectedEntries(issue), TimestampOf, k)
  {
    SortByCorrect(CollectedEntries(issue), TimestampOf);
  }

  /** Description entry placement after the sort. */
  lemma DescriptionStaysFirst(issue: JiraIssue)
    requires DescriptionOf(issue) != ""
    requires forall e :: e in CollectedEntries(issue) ==> issue.created <= e.timestamp
    ensures var c := SortBy(CollectedEntries(issue), TimestampOf);
      |c| > 0 && c[0] == DescriptionEntry(issue)[0]
  {
    var s := CollectedEntries(issue);
    assert s[0] == DescriptionEntry(issue)[0];
    forall i | 0 <= i < |s| ensures TimestampOf(s[0]) <= TimestampOf(s[i]) {
      assert s[i] in s;
    }
    StableFirst(s, TimestampOf);
  }

  // ---------------------------------------------------------------- updates

  /** The calls an update makes on the JIRA client, in order. */
  datatype JiraCall = AddComment(body: string) | UpdateLabels(labels: seq<string>)
                    | TransitionIssue(transitionId: string)

  /** A workflow transition offered for the issue: its id and target status name. */
  datatype Transition = Transition(id: string, toName: string)

  /** How the JIRA server answers during one update: whether adding the
      comment fails, the labels `jira.issue` reports (`Err` when fetching the
      issue fails, `None` for a null label list), whether the label update
      fails, and the transitions offered (`Err` when listing them fails). */
  datatype JiraServer = JiraServer(commentFails: bool, issueLabels: Result<Option<seq<string>>>,
                                   updateFails: bool, transitions: Result<seq<Transition>>)

  datatype ResolutionResult = ResolutionResult(
    success: bool, resolutionType: string, solutionSummary: string, detailedFindings: string,
    prLink: Option<string>, error: Option<string>)

  /** What `update_ticket_with_claude_response` is handed. It reads the
      attributes of a generated response; it may also be handed plain text,
      which has none of them. */
  datatype ResponseArg =
    | ResponseObject(message: string, resolutionType: string, confidenceLevel: string, prUrls: seq<string>)
    | PlainText(text: string)

  predicate Matches(t: Transition, target: string) {
    Lower(t.toName) == Lower(target)
  }

  /** The id of the first transition whose target name equals `target`
      ignoring case. */
  function FirstMatch(transitions: seq<Transition>, target: string): (r: Option<string>)
    ensures r.None? <==> forall i :: 0 <= i < |transitions| ==> !Matches(transitions[i], target)
    ensures r.Some? ==> exists i :: (0 <= i < |transitions| && Matches(transitions[i], target)
      && r.value == transitions[i].id && forall j :: 0 <= j < i ==> !Matches(transitions[j], target))
  {
    if |transitions| == 0 then None
    else if Matches(transitions[0], target) then Some(transitions[0].id)
    else
      var r := FirstMatch(transitions[1..], target);
      assert forall i :: 1 <= i < |transitions| ==> transitions[1..][i - 1] == transitions[i];
      if r.Some? then
        ghost var i :| 0 <= i < |transitions| - 1 && Matches(transitions[1..][i], target)
          && r.value == transitions[1..][i].id && forall j :: 0 <= j < i ==> !Matches(transitions[1..][j], target);
        assert Matches(transitions[i + 1], target) && r.value == transitions[i + 1].id;
        r
      else r
  }

  /** The transition calls `_transition_ticket` makes: one, to the first
      matching transition, when the transitions could be listed. */
  function Transitioned(server: JiraServer, target: string): seq<JiraCall> {
    if server.transitions.Err? then []
    else
      match FirstMatch(server.transitions.value, target)
      case None => []
      case Some(id) => [TransitionIssue(id)]
  }

  /** The transition search of `_transition_ticket`: the loop with `break`
      finds the first matching transition. */
  method FindTransition(transitions: seq<Transition>, target: string) returns (r: Option<string>)
    ensures r == FirstMatch(transitions, target)
  {
    r := None;
    var i := 0;
    while i < |transitions|
      invariant 0 <= i <= |transitions|
      invariant FirstMatch(transitions[i..], target) == FirstMatch(transitions, target)
    {
      assert transitions[i..][1..] == transitions[i + 1..];
      if Lower(transitions[i].toName) == Lower(target) {
        r := Some(transitions[i].id);
        return;
      }
      i := i + 1;
    }
  }

  /** `_transition_ticket`: at most one transition call, to the first match;
      a failure to list the transitions, or no match, leaves the ticket
      untouched, and nothing is raised either way. */
  method TransitionTicket(server: JiraServer, target: string) returns (calls: seq<JiraCall>)
    ensures calls == Transitioned(server, target)
    ensures |calls| <= 1
    ensures server.transitions.Err? ==> calls == []
    ensures server.transitions.Ok? ==>
      (calls == [] <==> forall i :: 0 <= i < |server.transitions.value| ==> !Matches(server.transitions.value[i], target))
    ensures calls != [] ==>
      && calls[0].TransitionIssue? && server.transitions.Ok?
      && exists i :: (0 <= i < |server.transitions.value| && Matches(server.transitions.value[i], target)
        && calls[0].transitionId == server.transitions.value[i].id
        && forall j :: 0 <= j < i ==> !Matches(server.transitions.value[j], target))
  {
    calls := [];
    if server.transitions.Ok? {
      var found := FindTransition(server.transitions.value, target);
      if found.Some? {
        calls := [TransitionIssue(found.value)];
      }
    }
  }

  /** The labels a generated response adds: always `claude-analyzed`, then
      `auto-resolved` for a fix, or else `pr-created` when pull requests exist. */
  function ClaudeLabels(resolutionType: string, prUrls: seq<string>): (r: seq<string>)
    ensures 1 <= |r| <= 2 && r[0] == "claude-analyzed"
    ensures "auto-resolved" in r <==> resolutionType == "fixed"
    ensures "pr-created" in r <==> resolutionType != "fixed" && |prUrls| > 0
    ensures NoDuplicates(r)
  {
    if resolutionType == "fixed" then ["claude-analyzed", "auto-resolved"]
    else if |prUrls| > 0 then ["claude-analyzed", "pr-created"]
    else ["claude-analyzed"]
  }

  /** The status a generated response moves the ticket to: `Resolved` for a
      high-confidence fix, `In Progress` while investigated or guided. */
  function TargetStatus(resolutionType: string, confidenceLevel: string): (r: Option<string>)
    ensures r == Some("Resolved") <==> resolutionType == "fixed" && confidenceLevel == "high"
    ensures r == Some("In Progress") <==> resolutionType == "investigated" || resolutionType == "guidance"
    ensures r.None? <==> (!(resolutionType == "fixed" && confidenceLevel == "high")
                       && resolutionType != "investigated" && resolutionType != "guidance")
  {
    if resolutionType == "fixed" && confidenceLevel == "high" then Some("Resolved")
    else if resolutionType == "investigated" || resolutionType == "guidance" then Some("In Progress")
    else None
  }

  /** The label loop: each label is appended only when absent. */
  method AddLabels(current: seq<string>, toAdd: seq<string>) returns (labels: seq<string>)
    ensures labels == AppendAbsent(current, toAdd)
  {
    labels := current;
    var i := 0;
    while i < |toAdd|
      invariant 0 <= i <= |toAdd|
      invariant labels == AppendAbsent(current, toAdd[..i])
    {
      assert toAdd[..i + 1][..i] == toAdd[..i];
      if toAdd[i] !in labels {
        labels := labels + [toAdd[i]];
      }
      i := i + 1;
    }
    assert toAdd[..|toAdd|] == toAdd;
  }

  /** `update_ticket_with_claude_response`: comment with the message, add the
      missing labels in one update, then move the ticket. Any failure before
      the transition is raised; plain text fails at once, before any call. */
  method UpdateWithClaudeResponse(response: ResponseArg, server: JiraServer)
    returns (calls: seq<JiraCall>, raised: bool)
    ensures response.PlainText? ==> raised && calls == []
    ensures !raised <==> (response.ResponseObject? && !server.commentFails
                        && server.issueLabels.Ok? && !server.updateFails)
    ensures response.ResponseObject? ==> |calls| >= 1 && calls[0] == AddComment(response.message)
    ensures !raised ==>
      && |calls| >= 2
      && calls[1] == UpdateLabels(AppendAbsent(server.issueLabels.value.GetOr([]),
                                               ClaudeLabels(response.resolutionType, response.prUrls)))
      && (TargetStatus(response.resolutionType, response.confidenceLevel).None? ==> |calls| == 2)
      && (TargetStatus(response.resolutionType, response.confidenceLevel).Some? ==>
            calls[2..] == Transitioned(server, TargetStatus(response.resolutionType, response.confidenceLevel).value))
    ensures raised ==> forall c :: c in calls ==> !c.TransitionIssue?
  {
    hide AppendAbsent, ClaudeLabels, TargetStatus;
    if response.PlainText? {
      return [], true;
    }
    calls := [AddComment(response.message)];
    if server.commentFails {
      return calls, true;
    }
    if server.issueLabels.Err? {
      return calls, true;
    }
    var current := server.issueLabels.value.GetOr([]);
    var labels := AddLabels(current, ClaudeLabels(response.resolutionType, response.prUrls));
    calls := calls + [UpdateLabels(labels)];
    if server.updateFails {
      return calls, true;
    }
    var target := TargetStatus(response.resolutionType, response.confidenceLevel);
    if target.Some? {
      var moved := TransitionTicket(server, target.value);
      calls := calls + moved;
    }
    raised := false;
  }

  /** Adding a generated response never duplicates a label and never drops
      or reorders an existing one. */
  lemma ClaudeLabelsNoDuplicates(current: seq<string>, resolutionType: string, prUrls: seq<string>)
    requires NoDuplicates(current)
    ensures var r := AppendAbsent(current, ClaudeLabels(resolutionType, prUrls));
      NoDuplicates(r) && r[..|current|] == current && "claude-analyzed" in r
      && (resolutionType == "fixed" ==> "auto-resolved" in r)
      && (resolutionType != "fixed" && |prUrls| > 0 ==> "pr-created" in r)
  {
  }

  /** Handling the same response twice leaves the labels as after the first time. */
  lemma ClaudeLabelsIdempotent(current: seq<string>, resolutionType: string, prUrls: seq<string>)
    ensures var add := ClaudeLabels(resolutionType, prUrls);
      AppendAbsent(AppendAbsent(current, add), add) == AppendAbsent(current, add)
  {
    AppendAbsentIdempotent(current, ClaudeLabels(resolutionType, prUrls));
  }

  const FindingsNextSteps: string :=
    "\n\n**Recommended Next Steps:**\n- Review the findings above\n- Consider the suggested approach\n- Implement or modify as needed\n\n*This analysis was generated automatically by the CS Automation System.*\n"

  /** The findings comment opens with its heading and the issue analysis. */
  function FindingsComment(resolution: ResolutionResult): (r: string)
    ensures StartsWith(r, "\U{1F50D} **Automated Investigation Results**\n\n**Issue Analysis:** " + resolution.solutionSummary)
    ensures EndsWith(r, FindingsNextSteps)
  {
    var head := "\U{1F50D} **Automated Investigation Results**\n\n**Issue Analysis:** " + resolution.solutionSummary;
    var middle := "\n\n**Investigation Findings:**\n" + resolution.detailedFindings;
    var r := head + middle + FindingsNextSteps;
    assert r[..|head|] == head;
    assert r[|r| - |FindingsNextSteps|..] == FindingsNextSteps;
    r
  }

  /** `update_ticket_with_findings`: comment, then add `automated-analysis`
      only if it is absent, updating the labels only in that case. */
  method UpdateWithFindings(resolution: ResolutionResult, server: JiraServer)
    returns (calls: seq<JiraCall>, raised: bool)
    ensures |calls| >= 1 && calls[0] == AddComment(FindingsComment(resolution))
    ensures !raised <==> (!server.commentFails && server.issueLabels.Ok?
      && !(server.updateFails && "automated-analysis" !in server.issueLabels.value.GetOr([])))
    ensures !raised ==> var current := server.issueLabels.value.GetOr([]);
      if "automated-analysis" in current then calls == [calls[0]]
      else calls == [calls[0], UpdateLabels(current + ["automated-analysis"])]
  {
    calls := [AddComment(FindingsComment(resolution))];
    if server.commentFails || server.issueLabels.Err? {
      return calls, true;
    }
    var current := server.issueLabels.value.GetOr([]);
    raised := false;
    if "automated-analysis" !in current {
      current := current + ["automated-analysis"];
      calls := calls + [UpdateLabels(current)];
      raised := server.updateFails;
    }
  }

  const SolutionHeading := "\U{1F916} **Automated Resolution**\n\n**Issue Summary:** "
  const SolutionFooter := "\n\n*This resolution was generated automatically by the CS Automation System.*"
  const PullRequestLabel := "\n**Pull Request:** "

  /** The link line, only for a non-empty link. */
  function PullRequestLine(link: Option<string>): string {
    if link.Some? && link.value != "" then PullRequestLabel + link.value else ""
  }

  /** The resolution type and the findings, between the summary and the link. */
  function SolutionDetails(resolution: ResolutionResult): string {
    "\n\n**Resolution Type:** " + resolution.resolutionType
    + "\n\n**Solution Details:**\n" + resolution.detailedFindings + "\n"
  }

  /** The comment `update_ticket_with_solution` posts. */
  function SolutionComment(resolution: ResolutionResult): string {
    SolutionHeading + resolution.solutionSummary + SolutionDetails(resolution)
    + PullRequestLine(resolution.prLink) + SolutionFooter
  }

  /** The comment opens with the heading and the summary, closes with the
      footer, and names a non-empty pull-request link. */
  lemma SolutionCommentShape(resolution: ResolutionResult)
    ensures StartsWith(SolutionComment(resolution), SolutionHeading + resolution.solutionSummary)
    ensures EndsWith(SolutionComment(resolution), SolutionFooter)
    ensures resolution.prLink.Some? && resolution.prLink.value != "" ==>
      Contains(SolutionComment(resolution), PullRequestLabel + resolution.prLink.value)
  {
    hide StartsWith, EndsWith, Contains, SolutionDetails;
    var head := SolutionHeading + resolution.solutionSummary;
    var details := SolutionDetails(resolution);
    var link := PullRequestLine(resolution.prLink);
    var r := SolutionComment(resolution);
    assert r == head + details + link + SolutionFooter;
    ConcatAssoc(head, details, link);
    ConcatAssoc(head, details + link, SolutionFooter);
    StartsWithConcat(head, details + link + SolutionFooter);
    EndsWithConcat(head + details + link, SolutionFooter);
    ContainsMiddle(head + details, link, SolutionFooter);
  }

  /** `update_ticket_with_solution`: comment, then an automatic fix moves the
      ticket to `Resolved`; only the comment can fail the update. */
  method UpdateWithSolution(resolution: ResolutionResult, server: JiraServer)
    returns (calls: seq<JiraCall>, raised: bool)
    ensures |calls| >= 1 && calls[0] == AddComment(SolutionComment(resolution))
    ensures raised <==> server.commentFails
    ensures raised || resolution.resolutionType != "auto_fix" ==> calls == [calls[0]]
    ensures !raised && resolution.resolutionType == "auto_fix" ==> calls[1..] == Transitioned(server, "Resolved")
  {
    calls := [AddComment(SolutionComment(resolution))];
    if server.commentFails {
      return calls, true;
    }
    raised := false;
    if resolution.resolutionType == "auto_fix" {
      var moved := TransitionTicket(server, "Resolved");
      calls := calls + moved;
    }
  }
}
