/** The `cashtransfers` command's query builder and table: a user's cash
    transfers, optionally narrowed by status, type and the accounts at
    either end, newest first. */
module CashTransfers {
  import opened Wrappers
  import opened Text
  import opened SqlQuery
  import opened TableFormat

  /** The parsed command line; the optional filters are `""` when absent. */
  datatype Args = Args(
    userId: string, status: string, transferType: string,
    originAccountId: string, destinationAccountId: string,
    table: string, limit: int, fields: string)

  const UserIdEquals := Condition("user_id", "=")
  const StatusEquals := Condition("status", "=")
  const TypeEquals := Condition("type", "=")
  const OriginEquals := Condition("origin_account_id", "=")
  const DestinationEquals := Condition("destination_account_id", "=")

  /** The order the optional filters are appended in. */
  const OptionalOrder: seq<Condition> := [StatusEquals, TypeEquals, OriginEquals, DestinationEquals]

  /** Newest first, whatever else is asked. */
  const NewestFirst := " ORDER BY created_at DESC"

  /** The filter each optional argument asks for, given or not. */
  function StatusFilter(a: Args): Filter { Filter(StatusEquals, TextParam(a.status)) }
  function TypeFilter(a: Args): Filter { Filter(TypeEquals, TextParam(a.transferType)) }
  function OriginFilter(a: Args): Filter { Filter(OriginEquals, TextParam(a.originAccountId)) }
  function DestinationFilter(a: Args): Filter { Filter(DestinationEquals, TextParam(a.destinationAccountId)) }

  /** The optional filters, each when given, after the filters `fs`. */
  function OptionalFilters(a: Args, fs: seq<Filter>): (r: seq<Filter>)
    ensures |fs| <= |r| <= |fs| + 4 && r[..|fs|] == fs
  {
    var fs := AddIf(fs, a.status != "", StatusFilter(a));
    var fs := AddIf(fs, a.transferType != "", TypeFilter(a));
    var fs := AddIf(fs, a.originAccountId != "", OriginFilter(a));
    AddIf(fs, a.destinationAccountId != "", DestinationFilter(a))
  }

  /** The conditions in the order `_build_query` appends them, or the
      `ValueError` of `int(user_id)`. */
  function CashTransferFilters(a: Args): Result<seq<Filter>> {
    match ParseInt(a.userId)
    case None => Err(IntError(a.userId))
    case Some(uid) => Ok(OptionalFilters(a, [Filter(UserIdEquals, IntParam(uid))]))
  }

  function CashTransfersQuery(a: Args): Result<Query> {
    match CashTransferFilters(a)
    case Err(e) => Err(e)
    case Ok(fs) => Ok(Assemble(SelectHead(a.fields, a.table), fs, NewestFirst + LimitClause(a.limit)))
  }

  /** The optional-filter section of `_build_query`, appending to the
      conditions `fs` already collected. */
  method AddOptionalConditions(a: Args, conds: seq<string>, params: seq<Param>, count: nat, ghost fs: seq<Filter>)
    returns (conds': seq<string>, params': seq<Param>, count': nat)
    requires conds == Numbered(fs) && params == ParamsOf(fs) && count == |fs| + 1
    ensures var fs' := OptionalFilters(a, fs);
      conds' == Numbered(fs') && params' == ParamsOf(fs') && count' == |fs'| + 1
  {
    hide Numbered, ParamsOf, StatusFilter, TypeFilter, OriginFilter, DestinationFilter;
    conds', params', count' := conds, params, count;
    ghost var chosen := fs;
    if a.status != "" {
      conds', params', count', chosen := Append(conds', params', count', chosen, StatusFilter(a));
    }
    assert chosen == AddIf(fs, a.status != "", StatusFilter(a));
    ghost var before := chosen;
    if a.transferType != "" {
      conds', params', count', chosen := Append(conds', params', count', chosen, TypeFilter(a));
    }
    assert chosen == AddIf(before, a.transferType != "", TypeFilter(a));
    before := chosen;
    if a.originAccountId != "" {
      conds', params', count', chosen := Append(conds', params', count', chosen, OriginFilter(a));
    }
    assert chosen == AddIf(before, a.originAccountId != "", OriginFilter(a));
    before := chosen;
    if a.destinationAccountId != "" {
      conds', params', count', chosen := Append(conds', params', count', chosen, DestinationFilter(a));
    }
    assert chosen == AddIf(before, a.destinationAccountId != "", DestinationFilter(a));
  }

  /** `_build_query`: `user_id` first, the optional filters, then the
      conditions joined under `WHERE`, newest first and the limit. */
  method BuildQuery(a: Args) returns (r: Result<Query>)
    ensures r == CashTransfersQuery(a)
  {
    hide ParseInt, Strip, Join, IntToString, Numbered, ParamsOf, StartsWith, OptionalFilters;
    NoFilters();
    var fields := if a.fields != "" then Strip(a.fields) else "*";
    var query := "SELECT " + fields + " FROM " + a.table;
    var uid := ParseInt(a.userId);
    if uid.None? {
      return Err(IntError(a.userId));
    }
    var user := Filter(UserIdEquals, IntParam(uid.value));
    var whereConditions, params, paramCount, fs := Append([], [], 1, [], user);
    assert fs == [user];
    whereConditions, params, paramCount := AddOptionalConditions(a, whereConditions, params, paramCount, fs);
    fs := CashTransferFilters(a).value;

    ghost var head := query;
    assert head == SelectHead(a.fields, a.table);
    if |whereConditions| > 0 {
      query := query + " WHERE " + Join(" AND ", whereConditions);
    }
    assert query == head + WhereClause(Numbered(fs));
    query := query + NewestFirst;
    query := query + " LIMIT " + IntToString(a.limit);
    assert query == head + WhereClause(Numbered(fs)) + (NewestFirst + LimitClause(a.limit));
    r := Ok(Query(query, params));
  }

  // ------------------------------------------------------------ the query's properties

  /** The position of a condition among the optional filters. */
  function Rank(c: Condition): nat {
    if c == StatusEquals then 0
    else if c == TypeEquals then 1
    else if c == OriginEquals then 2
    else if c == DestinationEquals then 3
    else 4
  }

  /** The first condition is always `user_id = $1`, filled by `int(user_id)`;
      a user id that is not an integer is the error. */
  lemma UserIdFirst(a: Args)
    ensures ParseInt(a.userId).None? <==> CashTransferFilters(a).Err?
    ensures CashTransferFilters(a).Err? ==> CashTransferFilters(a).error == IntError(a.userId)
    ensures CashTransferFilters(a).Ok? ==>
      var fs := CashTransferFilters(a).value;
      && |fs| >= 1 && Numbered(fs)[0] == "user_id = $1"
      && ParamsOf(fs)[0] == IntParam(ParseInt(a.userId).value)
  {
    hide ParseInt, OptionalFilters, Numbered, ParamsOf;
    if CashTransferFilters(a).Ok? {
      var user := Filter(UserIdEquals, IntParam(ParseInt(a.userId).value));
      var fs := CashTransferFilters(a).value;
      assert fs[0] == fs[..1][0] == user;
      PlaceholdersMatchParams(fs);
      assert NatToString(1) == "1";
    }
  }

  /** Equality tests only, and after the `user_id` condition the ranks rise
      strictly and stay below `k`. */
  predicate RankedBelow(fs: seq<Filter>, k: nat) {
    && |fs| >= 1 && fs[0].condition == UserIdEquals
    && (forall i :: 0 <= i < |fs| ==> fs[i].condition.op == "=")
    && (forall i :: 1 <= i < |fs| ==> Rank(fs[i].condition) < k)
    && (forall i, j :: 1 <= i < j < |fs| ==> Rank(fs[i].condition) < Rank(fs[j].condition))
  }

  /** Appending the filter of rank `k`, when given, keeps the ranks rising;
      the filter was not there before. */
  lemma AddIfRanked(fs: seq<Filter>, given: bool, f: Filter, k: nat)
    requires RankedBelow(fs, k) && Rank(f.condition) == k < 4 && f.condition.op == "="
    ensures RankedBelow(AddIf(fs, given, f), k + 1)
    ensures f !in fs
  {
    if f in fs {
      var i :| 0 <= i < |fs| && fs[i] == f;
    }
  }

  /** Each optional filter is there exactly when its argument is given. */
  lemma FiltersPresentIffGiven(a: Args)
    requires CashTransferFilters(a).Ok?
    ensures var fs := CashTransferFilters(a).value;
      && (StatusFilter(a) in fs <==> a.status != "")
      && (TypeFilter(a) in fs <==> a.transferType != "")
      && (OriginFilter(a) in fs <==> a.originAccountId != "")
      && (DestinationFilter(a) in fs <==> a.destinationAccountId != "")
  {
    hide ParseInt, AddIf;
    var f0 := [Filter(UserIdEquals, IntParam(ParseInt(a.userId).value))];
    var f1 := AddIf(f0, a.status != "", StatusFilter(a));
    var f2 := AddIf(f1, a.transferType != "", TypeFilter(a));
    var f3 := AddIf(f2, a.originAccountId != "", OriginFilter(a));
    var fs := AddIf(f3, a.destinationAccountId != "", DestinationFilter(a));
    assert fs == CashTransferFilters(a).value;
  }

  /** Every condition is an equality, and the optional ones follow `user_id`
      in the fixed order status, type, origin account, destination account. */
  lemma FixedFilterOrder(a: Args)
    requires CashTransferFilters(a).Ok?
    ensures var fs := CashTransferFilters(a).value;
      && (forall i :: 0 <= i < |fs| ==> fs[i].condition.op == "=")
      && (forall i, j :: 1 <= i < j < |fs| ==> Rank(fs[i].condition) < Rank(fs[j].condition))
  {
    hide ParseInt, AddIf;
    var f0 := [Filter(UserIdEquals, IntParam(ParseInt(a.userId).value))];
    var f1 := AddIf(f0, a.status != "", StatusFilter(a));
    var f2 := AddIf(f1, a.transferType != "", TypeFilter(a));
    var f3 := AddIf(f2, a.originAccountId != "", OriginFilter(a));
    var fs := AddIf(f3, a.destinationAccountId != "", DestinationFilter(a));
    assert fs == CashTransferFilters(a).value;
    AddIfRanked(f0, a.status != "", StatusFilter(a), 0);
    AddIfRanked(f1, a.transferType != "", TypeFilter(a), 1);
    AddIfRanked(f2, a.originAccountId != "", OriginFilter(a), 2);
    AddIfRanked(f3, a.destinationAccountId != "", DestinationFilter(a), 3);
  }

  /** The query selects from the table, numbers its placeholders `$1 .. $n`
      for its `n` parameters, and always ends with newest-first and the limit. */
  lemma QueryShape(a: Args)
    requires CashTransfersQuery(a).Ok?
    ensures var q := CashTransfersQuery(a).value;
      var fs := CashTransferFilters(a).value;
      && StartsWith(q.sql, "SELECT ")
      && EndsWith(q.sql, " ORDER BY created_at DESC LIMIT " + IntToString(a.limit))
      && q.params == ParamsOf(fs) && |Numbered(fs)| == |q.params|
      && (forall i :: 0 <= i < |q.params| ==> EndsWith(Numbered(fs)[i], Placeholder(i + 1)))
  {
    hide CashTransferFilters, SelectHead, WhereClause, Numbered, ParamsOf;
    var fs := CashTransferFilters(a).value;
    var head := SelectHead(a.fields, a.table);
    var tail := NewestFirst + LimitClause(a.limit);
    PlaceholdersMatchParams(fs);
    StartsWithConcat(head, WhereClause(Numbered(fs)) + tail);
    assert head + WhereClause(Numbered(fs)) + tail == head + (WhereClause(Numbered(fs)) + tail);
    StartsWithChain(head + (WhereClause(Numbered(fs)) + tail), head, "SELECT ");
    assert tail == " ORDER BY created_at DESC LIMIT " + IntToString(a.limit);
    EndsWithConcat(head + WhereClause(Numbered(fs)), tail);
  }

  // ------------------------------------------------------------ the table

  /** `_format_table`: nothing for no results, otherwise the table of the
      first result's columns, each as wide as its name and its longest cell. */
  method FormatTable(results: seq<Record>, bold: string, nc: string) returns (text: string)
    ensures |results| == 0 ==> text == ""
    ensures |results| > 0 ==> text == Table(results, Keys(results[0]), None, bold, nc)
  {
    if |results| == 0 {
      return "";
    }
    text := Layout(results, Keys(results[0]), None, bold, nc);
  }

  /** The uncapped table has a header, a separator and one line per result,
      and every line (the header without its colour codes) is as long as the
      separator. */
  lemma TableAligned(results: seq<Record>, k: nat)
    requires k < |results|
    ensures var fields := Keys(results[0]);
      var ws := Widths(results, fields, None);
      && |TableLines(results, fields, None, "", "")| == 2 + |results|
      && |RowLine(results[k], fields, ws, false)| == |Separator(ws)|
      && |HeaderLine(fields, ws, "", "")| == |Separator(ws)|
  {
    var fields := Keys(results[0]);
    RowsAligned(results, fields, None, k);
    HeaderAligned(results, fields, None);
    var ws := Widths(results, fields, None);
    assert HeaderLine(fields, ws, "", "") == Join(" | ", HeaderCells(fields, ws));
  }
}
