/** The `alpaca-ach-relationships` command: it asks the Alpaca broker API for
    the bank connections (ACH relationships) of one account and prints them
    as a table or as JSON. The environment file, the environment it loads,
    base64, the HTTP call and the JSON printers are parameters. */
module AlpacaAch {
  import opened Wrappers
  import opened Text
  import opened Dicts
  import opened Values
  import TableFormat

  /** How the command turns decoded values into text: `str()`, the
      `--format json` printer (`json.dumps(.., indent=2, ensure_ascii=False)`)
      and the table's fallback printer (`json.dumps(.., indent=2)`). */
  datatype Printers = Printers(str: Value -> string, json: Value -> string, asciiJson: Value -> string)

  /** `Colors.BOLD` and `Colors.NC`; `--no-color` empties them. */
  datatype Palette = Palette(bold: string, reset: string)

  function Colors(noColor: bool): Palette {
    if noColor then Palette("", "") else Palette("\U{1B}[1m", "\U{1B}[0m")
  }

  /** Python's truth test: `not v`. */
  predicate Falsy(v: Value) {
    match v
    case Null => true
    case Bool(b) => !b
    case Int(i) => i == 0
    case Float(r) => r == 0.0
    case Str(s) => s == ""
    case List(items) => items == []
    case Object(fields) => fields == []
  }

  /** `str(v)`: a string is shown as it is. */
  function Display(v: Value, p: Printers): string {
    if v.Str? then v.s else p.str(v)
  }

  /** `str(relationship.get(field, ''))` */
  function CellText(relationship: Dict<Value>, field: string, p: Printers): string {
    Display(Get(relationship, field).GetOr(Str("")), p)
  }

  // ------------------------------------------------------------ the table

  const NoneFound := "No ACH relationships found"

  /** The message of the `AttributeError` that `.get` on a non-dictionary raises. */
  function NoAttribute(v: Value): string {
    "'" + TypeName(v) + "' object has no attribute 'get'"
  }

  /** The relationships the table lists: a dictionary on its own, or the
      elements of a list; anything else is not a table. */
  function Relationships(data: Value): Option<seq<Value>> {
    match data
    case Object(_) => Some([data])
    case List(items) => Some(items)
    case _ => None
  }

  /** The row the table reads from one relationship: every key with `str()`
      of its value (nothing for a value that is not a dictionary). */
  function Cells(v: Value, p: Printers): (row: TableFormat.Record)
    ensures v.Object? ==> |row| == |v.fields|
  {
    if v.Object? then seq(|v.fields|, i requires 0 <= i < |v.fields| => (v.fields[i].0, Display(v.fields[i].1, p)))
    else []
  }

  function Rows(rels: seq<Value>, p: Printers): (rows: seq<TableFormat.Record>)
    ensures |rows| == |rels|
  {
    seq(|rels|, i requires 0 <= i < |rels| => Cells(rels[i], p))
  }

  /** The position of the first relationship that is not a dictionary. */
  function FirstNonDict(rels: seq<Value>): (r: Option<nat>)
    ensures r.None? <==> forall i :: 0 <= i < |rels| ==> rels[i].Object?
    ensures r.Some? ==> r.value < |rels| && !rels[r.value].Object?
                        && forall i :: 0 <= i < r.value ==> rels[i].Object?
  {
    if |rels| == 0 then None
    else if !rels[0].Object? then Some(0)
    else
      match FirstNonDict(rels[1..])
      case None => None
      case Some(k) => Some(k + 1)
  }

  /** `_format_table`: nothing for an empty reply; a table of the first
      relationship's keys when it is a dictionary; its JSON when it is not;
      `str()` of a reply that is neither list nor dictionary. Reading a cell
      of an element that is not a dictionary raises, which only happens when
      there is at least one column. */
  function TableText(data: Value, p: Printers, c: Palette): Result<string> {
    if Falsy(data) then Ok("")
    else
      match Relationships(data)
      case None => Ok(Display(data, p))
      case Some(rels) =>
        if |rels| == 0 then Ok(NoneFound)
        else if !rels[0].Object? then Ok(p.asciiJson(List(rels)))
        else
          var fields := Keys(rels[0].fields);
          var bad := FirstNonDict(rels);
          if |fields| > 0 && bad.Some? then Err(NoAttribute(rels[bad.value]))
          else Ok(TableFormat.Table(Rows(rels, p), fields, None, c.bold, c.reset))
  }

  /** `_format_table` as the command runs it: the input is normalised to a
      list, each relationship is read in turn, then the widths and the lines
      are laid out. */
  method FormatTable(data: Value, p: Printers, c: Palette) returns (r: Result<string>)
    ensures r == TableText(data, p, c)
  {
    if Falsy(data) {
      return Ok("");
    }
    var rels: seq<Value>;
    if data.Object? {
      rels := [data];
    } else if data.List? {
      rels := data.items;
    } else {
      return Ok(Display(data, p));
    }
    if |rels| == 0 {
      return Ok(NoneFound);
    }
    if !rels[0].Object? {
      return Ok(p.asciiJson(List(rels)));
    }
    var fields := Keys(rels[0].fields);
    var rows: seq<TableFormat.Record> := [];
    for j := 0 to |rels|
      invariant rows == Rows(rels[..j], p)
      invariant |fields| > 0 ==> forall i :: 0 <= i < j ==> rels[i].Object?
    {
      if |fields| > 0 && !rels[j].Object? {
        assert FirstNonDict(rels) == Some(j);
        return Err(NoAttribute(rels[j]));
      }
      rows := rows + [Cells(rels[j], p)];
    }
    assert rels[..|rels|] == rels;
    var text := TableFormat.Layout(rows, fields, None, c.bold, c.reset);
    return Ok(text);
  }

  // ------------------------------------------------------ table properties

  /** A row looks a column up the way the command does:
      `str(relationship.get(field, ''))`. */
  lemma {:induction false} CellsLookup(fields: Dict<Value>, field: string, p: Printers)
    ensures TableFormat.Lookup(Cells(Object(fields), p), field) == CellText(fields, field, p)
  {
    if |fields| > 0 {
      CellsLookup(fields[1..], field, p);
      assert Cells(Object(fields), p)[1..] == Cells(Object(fields[1..]), p);
    }
  }

  /** An empty reply gives no text, a single dictionary is the table of a
      one-element list, anything but a list or a dictionary prints as
      `str()`, and a list whose first element is not a dictionary prints as
      JSON. A reply that is not empty always has a relationship, so the
      "none found" text is never produced. */
  lemma InputNormalised(data: Value, p: Printers, c: Palette)
    ensures Falsy(data) ==> TableText(data, p, c) == Ok("")
    ensures !Falsy(data) && data.Object? ==> TableText(data, p, c) == TableText(List([data]), p, c)
    ensures !Falsy(data) && !data.Object? && !data.List? ==> TableText(data, p, c) == Ok(Display(data, p))
    ensures data.Str? && data.s != "" ==> TableText(data, p, c) == Ok(data.s)
    ensures data.List? && |data.items| > 0 && !data.items[0].Object? ==> TableText(data, p, c) == Ok(p.asciiJson(data))
    ensures TableText(data, p, c) != Ok(NoneFound) || Display(data, p) == NoneFound || p.asciiJson(data) == NoneFound
  {
    if !Falsy(data) && data.List? && |data.items| > 0 && data.items[0].Object? {
      var rels := data.items;
      var fields := Keys(rels[0].fields);
      if !(|fields| > 0 && FirstNonDict(rels).Some?) {
        TableFormat.TableLineCount(Rows(rels, p), fields, None, c.bold, c.reset);
        TableNotNoneFound(Rows(rels, p), fields, c);
      }
    } else if !Falsy(data) && data.Object? {
      TableFormat.TableLineCount(Rows([data], p), Keys(data.fields), None, c.bold, c.reset);
      TableNotNoneFound(Rows([data], p), Keys(data.fields), c);
    }
  }

  /** A table has a line break in it, which the "none found" text has not. */
  lemma TableNotNoneFound(rows: seq<TableFormat.Record>, fields: seq<string>, c: Palette)
    requires |rows| > 0
    ensures TableFormat.Table(rows, fields, None, c.bold, c.reset) != NoneFound
  {
    hide TableFormat.HeaderLine, TableFormat.Separator, TableFormat.RowLines;
    var lines := TableFormat.TableLines(rows, fields, None, c.bold, c.reset);
    TableFormat.TableLineCount(rows, fields, None, c.bold, c.reset);
    var t := Join("\n", lines);
    assert Join("\n", lines) == lines[0] + "\n" + Join("\n", lines[1..]);
    assert t[|lines[0]|] == '\n';
    assert '\n' !in NoneFound;
  }

  /** Formatting fails exactly when the first relationship is a dictionary
      with at least one key and a later element is not a dictionary; the
      error names the type of the first such element. */
  lemma RaisesIff(data: Value, p: Printers, c: Palette)
    ensures TableText(data, p, c).Err? <==>
      && data.List? && |data.items| > 0 && data.items[0].Object? && |data.items[0].fields| > 0
      && exists i :: 0 <= i < |data.items| && !data.items[i].Object?
    ensures TableText(data, p, c).Err? ==>
      exists k :: 0 < k < |data.items| && !data.items[k].Object?
        && (forall i :: 0 <= i < k ==> data.items[i].Object?)
        && TableText(data, p, c).error == NoAttribute(data.items[k])
  {
    if data.List? && |data.items| > 0 {
      var rels := data.items;
      match FirstNonDict(rels)
      case None =>
      case Some(k) =>
        assert !rels[k].Object?;
    }
    if data.Object? {
      assert FirstNonDict([data]) == None;
    }
  }

  /** The columns of a table of dictionaries: each is as wide as its name
      and every cell under it, and exactly as wide as the longest of them;
      a row shows each value left-aligned in its column. */
  lemma ColumnWidths(rels: seq<Value>, p: Printers, field: string, k: nat)
    requires k < |rels| && rels[k].Object?
    ensures var w := TableFormat.ColumnWidth(Rows(rels, p), field, None);
      && |field| <= w
      && (forall i :: 0 <= i < |rels| && rels[i].Object? ==> |CellText(rels[i].fields, field, p)| <= w)
      && (w == |field| || exists i :: 0 <= i < |rels| && |TableFormat.Lookup(Rows(rels, p)[i], field)| == w)
      && TableFormat.Cell(Rows(rels, p)[k], field, w, false) == PadRight(CellText(rels[k].fields, field, p), w)
  {
    var rows := Rows(rels, p);
    TableFormat.WidthBounds(rows, field, None);
    forall i | 0 <= i < |rels| && rels[i].Object?
      ensures TableFormat.Lookup(rows[i], field) == CellText(rels[i].fields, field, p)
    {
      CellsLookup(rels[i].fields, field, p);
    }
  }

  /** A table of dictionaries has a header, a separator and one line per
      relationship; every line is as long as the separator, the header once
      its colour codes are taken off. */
  lemma TableAligned(rels: seq<Value>, p: Printers, c: Palette, k: nat)
    requires k < |rels|
    ensures var rows := Rows(rels, p);
      var fields := if rels[0].Object? then Keys(rels[0].fields) else [];
      var ws := TableFormat.Widths(rows, fields, None);
      var lines := TableFormat.TableLines(rows, fields, None, c.bold, c.reset);
      && |lines| == 2 + |rels|
      && lines[0] == c.bold + Join(" | ", TableFormat.HeaderCells(fields, ws)) + c.reset
      && |Join(" | ", TableFormat.HeaderCells(fields, ws))| == |lines[1]|
      && |lines[2 + k]| == |lines[1]|
  {
    var rows := Rows(rels, p);
    var fields := if rels[0].Object? then Keys(rels[0].fields) else [];
    TableFormat.TableLineCount(rows, fields, None, c.bold, c.reset);
    TableFormat.RowsAligned(rows, fields, None, k);
    TableFormat.HeaderAligned(rows, fields, None);
  }

  // ------------------------------------------------------------ the request

  const UserVariable := "ALPACA_BROKER_USERNAME"
  const PasswordVariable := "ALPACA_BROKER_PASSWORD"
  const MissingCredentials := "Missing ALPACA_BROKER_USERNAME or ALPACA_BROKER_PASSWORD in environment file"
  const ExecutePrefix := "Failed to execute request: "
  const RequestPrefix := "Request failed: "

  function RequestUrl(accountId: string): string {
    "https://broker-api.alpaca.markets/v1/accounts/" + accountId + "/ach_relationships"
  }

  /** The request headers, with `encoded` the base64 of `user:password`. */
  function Headers(encoded: string): Dict<string> {
    [("accept", "application/json"), ("authorization", "Basic " + encoded)]
  }

  /** The headers as `--verbose` prints them. */
  function Masked(headers: Dict<string>): (r: Dict<string>)
    ensures Keys(r) == Keys(headers)
  {
    seq(|headers|, i requires 0 <= i < |headers| =>
      (headers[i].0, if headers[i].0 == "authorization" then "Basic ***" else headers[i].1))
  }

  /** The printed headers keep every name and the `accept` value but never
      show the credentials: they are the same whatever the credentials are. */
  lemma MaskHidesCredentials(encoded: string, other: string)
    ensures Masked(Headers(encoded)) == Masked(Headers(other))
    ensures Keys(Masked(Headers(encoded))) == ["accept", "authorization"]
    ensures Get(Masked(Headers(encoded)), "authorization") == Some("Basic ***")
    ensures Get(Masked(Headers(encoded)), "accept") == Some("application/json")
    ensures Get(Headers(encoded), "authorization") == Some("Basic " + encoded)
  {
    var m := Masked(Headers(encoded));
    assert m == [("accept", "application/json"), ("authorization", "Basic ***")];
  }

  /** The error text for a reply other than 200: the `message` of a JSON
      object (`Unknown error` without one), else the body, else the status. */
  function ErrorText(status: int, body: Decoded, text: string, p: Printers): string {
    match body
    case Decoded(Object(fields)) => Display(Get(fields, "message").GetOr(Str("Unknown error")), p)
    case _ => if text != "" then text else "HTTP " + IntToString(status)
  }

  /** Which of the three sources the error text comes from; it is empty
      only when the server's own message is. */
  lemma ErrorTextChoice(status: int, body: Decoded, text: string, p: Printers)
    ensures body.Decoded? && body.data.Object? && "message" in Keys(body.data.fields) ==>
      ErrorText(status, body, text, p) == Display(Get(body.data.fields, "message").value, p)
    ensures body.Decoded? && body.data.Object? && "message" !in Keys(body.data.fields) ==>
      ErrorText(status, body, text, p) == "Unknown error"
    ensures !(body.Decoded? && body.data.Object?) && text != "" ==> ErrorText(status, body, text, p) == text
    ensures !(body.Decoded? && body.data.Object?) && text == "" ==>
      ErrorText(status, body, text, p) == "HTTP " + IntToString(status)
    ensures ErrorText(status, body, text, p) == "" ==>
      body.Decoded? && body.data.Object? && "message" in Keys(body.data.fields)
  {
  }

  datatype Format = Table | Json

  /** The command line: `--account-id`, `--format`, `--output` (empty when
      not given), `--no-color`, `--env-file`. */
  datatype Args = Args(accountId: string, format: Format, output: string, noColor: bool, envFile: string)

  /** What `requests.get` did: a reply, or a `RequestException`. */
  datatype Sent =
    | Received(status: int, body: Decoded, text: string)
    | RequestError(message: string)

  /** How the command ends: the text printed or written to the `--output`
      file, the warning for an empty reply, or an error (exit status 1). */
  datatype Outcome =
    | Shown(text: string, file: Option<string>)
    | NothingFound
    | Failed(message: string)

  function ExitCode(o: Outcome): int {
    if o.Failed? then 1 else 0
  }

  /** `_output_results` */
  function Output(data: Value, args: Args, p: Printers): Result<Outcome> {
    if Falsy(data) then Ok(NothingFound)
    else
      var text := if args.format == Json then Ok(p.json(data)) else TableText(data, p, Colors(args.noColor));
      match text
      case Err(e) => Err(e)
      case Ok(t) => Ok(Shown(t, if args.output == "" then None else Some(args.output)))
  }

  /** `execute` around `_execute_request`: `envFound` says whether the
      environment file exists, `getenv` reads the environment after it is
      loaded, `base64` encodes the credentials and `get` performs the call. */
  function Execute(args: Args, envFound: bool, getenv: string -> Option<string>, base64: string -> string,
                   get: (string, Dict<string>) -> Sent, p: Printers): Outcome
  {
    if !envFound then Failed(ExecutePrefix + "Environment file not found: " + args.envFile)
    else
      var user, password := getenv(UserVariable), getenv(PasswordVariable);
      if user.None? || user.value == "" || password.None? || password.value == "" then
        Failed(ExecutePrefix + MissingCredentials)
      else
        match get(RequestUrl(args.accountId), Headers(base64(user.value + ":" + password.value)))
        case RequestError(e) => Failed(RequestPrefix + e)
        case Received(status, body, text) =>
          if status != 200 then
            Failed(ExecutePrefix + "API request failed (HTTP " + IntToString(status) + "): "
                   + ErrorText(status, body, text, p))
          else
            match body
            case DecodeError(e) => Failed(ExecutePrefix + "Failed to parse JSON response: " + e)
            case Decoded(data) =>
              match Output(data, args, p)
              case Err(e) => Failed(ExecutePrefix + e)
              case Ok(o) => o
  }

  /** Without a user name or a password the command fails before it sends
      anything: the outcome is the same whatever the network would do. */
  lemma MissingCredentialsNoRequest(args: Args, getenv: string -> Option<string>, base64: string -> string,
                                    get: (string, Dict<string>) -> Sent, other: (string, Dict<string>) -> Sent,
                                    p: Printers)
    requires getenv(UserVariable) in {None, Some("")} || getenv(PasswordVariable) in {None, Some("")}
    ensures Execute(args, true, getenv, base64, get, p) == Failed(ExecutePrefix + MissingCredentials)
    ensures Execute(args, true, getenv, base64, get, p) == Execute(args, true, getenv, base64, other, p)
  {
  }

  /** With both credentials the command sends exactly one request, to the
      account's URL with their base64 in the authorization header: two
      networks that answer that request alike give the same outcome. */
  lemma OneRequest(args: Args, getenv: string -> Option<string>, base64: string -> string,
                   get: (string, Dict<string>) -> Sent, other: (string, Dict<string>) -> Sent, p: Printers)
    requires getenv(UserVariable).Some? && getenv(UserVariable).value != ""
    requires getenv(PasswordVariable).Some? && getenv(PasswordVariable).value != ""
    requires var headers := Headers(base64(getenv(UserVariable).value + ":" + getenv(PasswordVariable).value));
      get(RequestUrl(args.accountId), headers) == other(RequestUrl(args.accountId), headers)
    ensures Execute(args, true, getenv, base64, get, p) == Execute(args, true, getenv, base64, other, p)
  {
  }

  /** Every failure is reported as a failed request or a failed execution,
      and a reply other than 200 always fails with its status and error text. */
  lemma FailuresPrefixed(args: Args, envFound: bool, getenv: string -> Option<string>, base64: string -> string,
                         get: (string, Dict<string>) -> Sent, p: Printers)
    ensures var o := Execute(args, envFound, getenv, base64, get, p);
      o.Failed? ==> StartsWith(o.message, ExecutePrefix) || StartsWith(o.message, RequestPrefix)
    ensures var o := Execute(args, envFound, getenv, base64, get, p);
      var user, password := getenv(UserVariable), getenv(PasswordVariable);
      envFound && user.Some? && user.value != "" && password.Some? && password.value != "" ==>
      var sent := get(RequestUrl(args.accountId), Headers(base64(user.value + ":" + password.value)));
      sent.Received? && sent.status != 200 ==>
        o == Failed(ExecutePrefix + "API request failed (HTTP " + IntToString(sent.status) + "): "
                    + ErrorText(sent.status, sent.body, sent.text, p))
  {
  }
}
