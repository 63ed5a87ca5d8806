/** The `user` command's query builder and table: the users found by email
    pattern, by id or by Alpaca account id, whichever is given first. */
module UserCommand {
  import opened Wrappers
  import opened Text
  import opened SqlQuery
  import opened TableFormat

  /** The parsed command line; a search argument is `""` when absent. The
      command line admits at most one of the three. */
  datatype Args = Args(email: string, userId: string, alpacaId: string, table: string, limit: int, fields: string)

  const EmailLike := Condition("email_address", "ILIKE")
  const IdEquals := Condition("id", "=")
  const AlpacaIdEquals := Condition("alpaca_id", "=")

  const ById := " ORDER BY id"

  /** The one condition of the first search argument given (none when all
      are empty), or the `ValueError` of `int(user_id)`. */
  function UserFilters(a: Args): Result<seq<Filter>> {
    if a.email != "" then Ok([Filter(EmailLike, TextParam(a.email))])
    else if a.userId != "" then
      match ParseInt(a.userId)
      case None => Err(IntError(a.userId))
      case Some(id) => Ok([Filter(IdEquals, IntParam(id))])
    else if a.alpacaId != "" then Ok([Filter(AlpacaIdEquals, TextParam(a.alpacaId))])
    else Ok([])
  }

  function UserQuery(a: Args): Result<Query> {
    match UserFilters(a)
    case Err(e) => Err(e)
    case Ok(fs) => Ok(Assemble(SelectHead(a.fields, a.table), fs, ById + LimitClause(a.limit)))
  }

  /** `_build_query`. */
  method BuildQuery(a: Args) returns (r: Result<Query>)
    ensures r == UserQuery(a)
  {
    hide ParseInt, Strip, Join, IntToString, Numbered, ParamsOf, StartsWith;
    NoFilters();
    var fields := if a.fields != "" then Strip(a.fields) else "*";
    var query := "SELECT " + fields + " FROM " + a.table;
    var params: seq<Param> := [];
    var whereConditions: seq<string> := [];
    var paramCount := 1;
    ghost var fs: seq<Filter> := [];
    if a.email != "" {
      whereConditions, params, paramCount, fs := Append(whereConditions, params, paramCount, fs, Filter(EmailLike, TextParam(a.email)));
    } else if a.userId != "" {
      var id := ParseInt(a.userId);
      if id.None? {
        return Err(IntError(a.userId));
      }
      whereConditions, params, paramCount, fs := Append(whereConditions, params, paramCount, fs, Filter(IdEquals, IntParam(id.value)));
    } else if a.alpacaId != "" {
      whereConditions, params, paramCount, fs := Append(whereConditions, params, paramCount, fs, Filter(AlpacaIdEquals, TextParam(a.alpacaId)));
    }
    assert fs == UserFilters(a).value;

    ghost var head := query;
    assert head == SelectHead(a.fields, a.table);
    if |whereConditions| > 0 {
      query := query + " WHERE " + Join(" AND ", whereConditions);
    }
    assert query == head + WhereClause(Numbered(fs));
    query := query + ById;
    query := query + " LIMIT " + IntToString(a.limit);
    assert query == head + WhereClause(Numbered(fs)) + (ById + LimitClause(a.limit));
    r := Ok(Query(query, params));
  }

  // ------------------------------------------------------------ the query's properties

  /** At most one condition: exactly one when a search argument is given,
      chosen email first, then user id, then Alpaca id; it is `... $1`,
      filled by the one parameter. Only a user id that is not an integer,
      and is not overridden by an email, is an error. */
  lemma OneCondition(a: Args)
    ensures UserFilters(a).Err? <==> a.email == "" && a.userId != "" && ParseInt(a.userId).None?
    ensures UserFilters(a).Ok? ==>
      var fs := UserFilters(a).value;
      && |fs| <= 1 && |ParamsOf(fs)| == |fs|
      && (|fs| == 1 <==> a.email != "" || a.userId != "" || a.alpacaId != "")
      && (|fs| == 1 ==> Numbered(fs) == [Rendered(fs[0].condition, 1)] && EndsWith(Numbered(fs)[0], "$1"))
      && (a.email != "" ==> fs == [Filter(EmailLike, TextParam(a.email))])
      && (a.email == "" && a.userId != "" ==> fs == [Filter(IdEquals, IntParam(ParseInt(a.userId).value))])
  {
    hide ParseInt;
    if UserFilters(a).Ok? {
      var fs := UserFilters(a).value;
      PlaceholdersMatchParams(fs);
      if |fs| == 1 {
        assert Placeholder(1) == "$1" by {
          assert NatToString(1) == "1";
        }
      }
    }
  }

  /** The email pattern is passed on as it is, with its `%` wildcards. */
  lemma EmailPatternUnchanged(a: Args)
    requires a.email != ""
    ensures UserQuery(a).Ok? && UserQuery(a).value.params == [TextParam(a.email)]
    ensures Numbered(UserFilters(a).value) == ["email_address ILIKE $1"]
  {
    var f := Filter(EmailLike, TextParam(a.email));
    NoFilters();
    AppendFilter([], f);
    assert [] + [f] == [f];
    assert Placeholder(1) == "$1" by {
      assert NatToString(1) == "1";
    }
    assert Rendered(EmailLike, 1) == "email_address ILIKE $1";
  }

  /** The query selects from the table and always ends with the order by id
      and the limit. */
  lemma QueryShape(a: Args)
    requires UserQuery(a).Ok?
    ensures var q := UserQuery(a).value;
      && StartsWith(q.sql, "SELECT ")
      && EndsWith(q.sql, " ORDER BY id LIMIT " + IntToString(a.limit))
  {
    hide UserFilters, SelectHead, WhereClause, Numbered, ParamsOf;
    var fs := UserFilters(a).value;
    var head := SelectHead(a.fields, a.table);
    var tail := ById + LimitClause(a.limit);
    StartsWithConcat(head, WhereClause(Numbered(fs)) + tail);
    assert head + WhereClause(Numbered(fs)) + tail == head + (WhereClause(Numbered(fs)) + tail);
    StartsWithChain(head + (WhereClause(Numbered(fs)) + tail), head, "SELECT ");
    assert tail == " ORDER BY id LIMIT " + IntToString(a.limit);
    EndsWithConcat(head + WhereClause(Numbered(fs)), tail);
  }

  // ------------------------------------------------------------ the table

  /** `_format_table`: nothing for no results, otherwise the table of the
      first result's columns, each as wide as its name and its longest cell. */
  method FormatTable(results: seq<Record>, bold: string, nc: string) returns (text: string)
    ensures |results| == 0 ==> text == ""
    ensures |results| > 0 ==> text == Table(results, Keys(results[0]), None, bold, nc)
  {
    if |results| == 0 {
      return "";
    }
    text := Layout(results, Keys(results[0]), None, bold, nc);
  }

  /** The table has `2 + len(results)` lines, and the result lines and the
      header (without its colour codes) are as long as the separator. */
  lemma TableAligned(results: seq<Record>, k: nat)
    requires k < |results|
    ensures var fields := Keys(results[0]);
      var ws := Widths(results, fields, None);
      && |TableLines(results, fields, None, "", "")| == 2 + |results|
      && |RowLine(results[k], fields, ws, false)| == |Separator(ws)|
      && |HeaderLine(fields, ws, "", "")| == |Separator(ws)|
  {
    var fields := Keys(results[0]);
    RowsAligned(results, fields, None, k);
    HeaderAligned(results, fields, None);
    var ws := Widths(results, fields, None);
    assert HeaderLine(fields, ws, "", "") == Join(" | ", HeaderCells(fields, ws));
  }
}
