/** Where fetched pipeline data is written: a category per kind of record and
    the directory `fetched_data/tickets/<identifier>/<category>`. */
module FileDataStorage {
  import opened Wrappers
  import opened Text

  /** The kinds of value the pipeline saves; any other class is known by its name. */
  datatype DataKind = TicketDataKind | IssueAnalysisKind | OtherClass(className: string)

  /** The sub-directory a value is saved under: the three known record kinds
      have their own, everything else goes to `no_category`. */
  function DataCategory(d: DataKind): (r: string)
    ensures r == "ticket_data" <==> d.TicketDataKind?
    ensures r == "issue_analysis" <==> d.IssueAnalysisKind?
    ensures r == "claude_code_results" <==> d == OtherClass("ClaudeExecutionResult")
    ensures r == "no_category" <==> d.OtherClass? && d.className != "ClaudeExecutionResult"
  {
    match d
    case TicketDataKind => "ticket_data"
    case IssueAnalysisKind => "issue_analysis"
    case OtherClass(name) =>
      if name == "ClaudeExecutionResult" then "claude_code_results" else "no_category"
  }

  /** The segments `pathlib` keeps of a relative POSIX path: empty and `.`
      components vanish. */
  function KeepSegments(parts: seq<string>): (r: seq<string>)
    ensures forall i :: 0 <= i < |r| ==> r[i] != "" && r[i] != "."
    ensures |r| <= |parts|
  {
    if |parts| == 0 then []
    else if parts[0] == "" || parts[0] == "." then KeepSegments(parts[1..])
    else [parts[0]] + KeepSegments(parts[1..])
  }

  /** `str(Path(s))` for a relative path with at least one real segment. */
  function PathString(s: string): string {
    Join("/", KeepSegments(Split(s, '/')))
  }

  /** A path component that `pathlib` keeps as written. */
  predicate PlainSegment(p: string) {
    p != "" && p != "." && '/' !in p
  }

  /** `fetched_data/tickets/<identifier>/<category>` before `pathlib` reads it. */
  function DataDirectory(identifier: string, category: string): string {
    Join("/", ["fetched_data", "tickets", identifier, category])
  }

  /** `str(build_data_file_path(identifier, category) / fileName)` */
  function DataPath(identifier: string, category: string, fileName: string): string {
    PathString(DataDirectory(identifier, category) + "/" + fileName)
  }

  function DataFilePath(identifier: string, category: string): string {
    DataPath(identifier, category, "data.txt")
  }

  /** What a successful `log_data_to_file` leaves behind: the path of the file
      (which is also the value returned) and the text written to it. */
  datatype SavedFile = SavedFile(path: string, contents: string)

  /** `log_data_to_file`: an explicit non-empty category wins over the detected
      one; the file holds the JSON rendering of the value when `asdict` and
      `json.dumps` succeed (`json`) and `str` of the value (`strForm`) when they
      raise; on success the path of `data.txt` in the data directory is
      returned, after any failure of the write nothing is. */
  function LogDataToFile(kind: DataKind, identifier: string, category: Option<string>,
                         json: Option<string>, strForm: string,
                         writeSucceeds: bool): (r: Option<SavedFile>)
    ensures r.Some? <==> writeSucceeds
    ensures r.Some? && category.Some? && category.value != "" ==>
      r.value.path == DataFilePath(identifier, category.value)
    ensures r.Some? && (category.None? || category == Some("")) ==>
      r.value.path == DataFilePath(identifier, DataCategory(kind))
    ensures r.Some? && json.Some? ==> r.value.contents == json.value
    ensures r.Some? && json.None? ==> r.value.contents == strForm
  {
    var cat := if category.Some? && category.value != "" then category.value else DataCategory(kind);
    if writeSucceeds then Some(SavedFile(DataFilePath(identifier, cat), json.GetOr(strForm))) else None
  }

  lemma {:induction false} KeepPlain(parts: seq<string>)
    requires forall i :: 0 <= i < |parts| ==> PlainSegment(parts[i])
    ensures KeepSegments(parts) == parts
  {
    if |parts| > 0 {
      KeepPlain(parts[1..]);
    }
  }

  /** For an identifier, a category and a file name that are single path
      components, the path is `fetched_data/tickets/<identifier>/<category>/<fileName>`
      exactly as written. */
  lemma PlainDataPath(identifier: string, category: string, fileName: string)
    requires PlainSegment(identifier) && PlainSegment(category) && PlainSegment(fileName)
    ensures DataPath(identifier, category, fileName)
         == Join("/", ["fetched_data", "tickets", identifier, category, fileName])
  {
    hide Split, KeepSegments;
    var dir := ["fetched_data", "tickets", identifier, category];
    var parts := dir + [fileName];
    assert "/" == ['/'];
    JoinAppend("/", dir, fileName);
    var path := DataDirectory(identifier, category) + "/" + fileName;
    assert path == Join("/", parts);
    assert PlainSegment("fetched_data") && PlainSegment("tickets");
    forall i | 0 <= i < |parts| ensures PlainSegment(parts[i]) {
      assert parts[i] in {"fetched_data", "tickets", identifier, category, fileName};
    }
    SplitJoin(parts, '/');
    assert Split(path, '/') == parts;
    KeepPlain(parts);
    assert PathString(path) == path;
    assert parts == ["fetched_data", "tickets", identifier, category, fileName];
  }

  /** The saved file of a plain identifier and category. */
  lemma PlainDataFilePath(identifier: string, category: string)
    requires PlainSegment(identifier) && PlainSegment(category)
    ensures DataFilePath(identifier, category)
         == Join("/", ["fetched_data", "tickets", identifier, category, "data.txt"])
  {
    assert PlainSegment("data.txt");
    PlainDataPath(identifier, category, "data.txt");
  }

  /** The saved path depends on the category and identifier only: two values
      of different kinds given the same explicit category land in the same file. */
  lemma OverrideIgnoresKind(k1: DataKind, k2: DataKind, identifier: string, category: string)
    requires category != ""
    ensures forall json: Option<string>, strForm: string ::
      LogDataToFile(k1, identifier, Some(category), json, strForm, true)
      == LogDataToFile(k2, identifier, Some(category), json, strForm, true)
  {
  }
}
