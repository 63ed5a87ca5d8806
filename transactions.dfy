/** The `txn` command's query builder and table: a user's transactions,
    filtered by time, type, status, symbol and amount. The clock and the
    timestamp formatting are parameters. */
module Transactions {
  import opened Wrappers
  import opened Text
  import opened Sequences
  import opened SqlQuery
  import opened RelativeTime
  import opened TableFormat

  /** The parsed command line. The optional string arguments are `""` when
      absent: the builder only tests them for truth, for which `None` and
      `""` are alike. The amounts are compared with `None`. */
  datatype Args = Args(
    userId: string, since: string, until: string, last: string,
    txnType: string, status: string, symbol: string,
    amountMin: Option<real>, amountMax: Option<real>,
    table: string, limit: int, fields: string, orderBy: string)

  /** `_format_time`: a string of ten characters with a dash is taken for a
      date and gets midnight appended; anything else is passed through. */
  function FormatTime(s: string): (r: string)
    ensures StartsWith(r, s)
    ensures r != s <==> |s| == 10 && '-' in s
  {
    if |s| == 10 && '-' in s then s + " 00:00:00" else s
  }

  /** Formatting a formatted time changes nothing more. */
  lemma FormatTimeIdempotent(s: string)
    ensures FormatTime(FormatTime(s)) == FormatTime(s)
  {
  }

  const UserIdEquals := Condition("user_id", "=")
  const CreatedFrom := Condition("created_at", ">=")
  const CreatedUntil := Condition("created_at", "<=")
  const TypeLike := Condition("transaction_type", "ILIKE")
  const StatusLike := Condition("status", "ILIKE")
  const SymbolLike := Condition("symbol", "ILIKE")

  function When(b: bool, f: Filter): seq<Filter> {
    if b then [f] else []
  }

  /** `if <amount> is not None: <append the amount filter>` */
  function AddAmount(fs: seq<Filter>, amount: Option<real>, op: string): seq<Filter> {
    match amount
    case None => fs
    case Some(v) => fs + [Filter(Condition("amount", op), AmountParam(v))]
  }

  /** The time conditions: `--since` (with `--until` only beside it), else
      `--last` measured back from `now`. */
  function TimeFilters(a: Args, now: int, render: int -> string): (r: Result<seq<Filter>>)
    ensures r.Err? <==> a.since == "" && a.last != "" && RelativeSeconds(a.last).None?
    ensures r.Ok? ==> forall i :: 0 <= i < |r.value| ==> r.value[i].condition.column == "created_at"
    ensures r.Ok? ==> (CreatedUntil in ConditionsOf(r.value) <==> a.since != "" && a.until != "")
  {
    if a.since != "" then
      var fs := [Filter(CreatedFrom, TextParam(FormatTime(a.since)))]
                + When(a.until != "", Filter(CreatedUntil, TextParam(FormatTime(a.until))));
      assert a.until != "" ==> ConditionsOf(fs)[1] == CreatedUntil;
      Ok(fs)
    else if a.last != "" then
      match ParseRelativeTime(a.last, now, render)
      case Err(e) => Err(e)
      case Ok(t) => Ok([Filter(CreatedFrom, TextParam(t))])
    else Ok([])
  }

  /** The type, status, symbol and amount conditions, each when given, after
      the conditions `fs` already chosen. */
  function AttributeFilters(a: Args, fs: seq<Filter>): (r: seq<Filter>)
    ensures |fs| <= |r| <= |fs| + 5 && r[..|fs|] == fs
    ensures forall i :: |fs| <= i < |r| ==> r[i].condition.column !in {"created_at", "user_id"}
  {
    var fs := AddIf(fs, a.txnType != "", Filter(TypeLike, TextParam(a.txnType)));
    var fs := AddIf(fs, a.status != "", Filter(StatusLike, TextParam(a.status)));
    var fs := AddIf(fs, a.symbol != "", Filter(SymbolLike, TextParam(Upper(a.symbol))));
    var fs := AddAmount(fs, a.amountMin, ">=");
    AddAmount(fs, a.amountMax, "<=")
  }

  /** The conditions in the order `_build_query` appends them, or the
      `ValueError` of `int(user_id)` or of the relative time, in that order. */
  function TransactionFilters(a: Args, now: int, render: int -> string): Result<seq<Filter>> {
    var uid := ParseInt(a.userId);
    if uid.None? then Err(IntError(a.userId))
    else
      match TimeFilters(a, now, render)
      case Err(e) => Err(e)
      case Ok(time) => Ok(AttributeFilters(a, [Filter(UserIdEquals, IntParam(uid.value))] + time))
  }

  /** `ORDER BY` with every `created_at` read as `time`, when an order is given. */
  function OrderClause(orderBy: string): string {
    if orderBy != "" then " ORDER BY " + Replace(orderBy, "created_at", "time") else ""
  }

  function TransactionsQuery(a: Args, now: int, render: int -> string): Result<Query> {
    match TransactionFilters(a, now, render)
    case Err(e) => Err(e)
    case Ok(fs) => Ok(Assemble(SelectHead(a.fields, a.table), fs, OrderClause(a.orderBy) + LimitClause(a.limit)))
  }

  /** The time section of `_build_query`, appending to the conditions `fs`
      already collected. */
  method AddTimeConditions(a: Args, now: int, render: int -> string,
                           conds: seq<string>, params: seq<Param>, count: nat, ghost fs: seq<Filter>)
    returns (r: Result<(seq<string>, seq<Param>, nat)>)
    requires conds == Numbered(fs) && params == ParamsOf(fs) && count == |fs| + 1
    ensures TimeFilters(a, now, render).Err? ==> r == Err(TimeFilters(a, now, render).error)
    ensures TimeFilters(a, now, render).Ok? ==>
      var fs' := fs + TimeFilters(a, now, render).value;
      r == Ok((Numbered(fs'), ParamsOf(fs'), |fs'| + 1))
  {
    hide FormatTime, ParseRelativeTime, Numbered, ParamsOf;
    var whereConditions, params, paramCount := conds, params, count;
    ghost var chosen := fs;
    if a.since != "" {
      var f := Filter(CreatedFrom, TextParam(FormatTime(a.since)));
      whereConditions, params, paramCount, chosen := Append(whereConditions, params, paramCount, chosen, f);
      if a.until != "" {
        f := Filter(CreatedUntil, TextParam(FormatTime(a.until)));
        whereConditions, params, paramCount, chosen := Append(whereConditions, params, paramCount, chosen, f);
      }
    } else if a.last != "" {
      var since := ParseRelativeTime(a.last, now, render);
      if since.Err? {
        return Err(since.error);
      }
      var f := Filter(CreatedFrom, TextParam(since.value));
      whereConditions, params, paramCount, chosen := Append(whereConditions, params, paramCount, chosen, f);
    }
    assert chosen == fs + TimeFilters(a, now, render).value;
    r := Ok((whereConditions, params, paramCount));
  }

  /** The type, status, symbol and amount section of `_build_query`. */
  method AddAttributeConditions(a: Args, conds: seq<string>, params: seq<Param>, count: nat, ghost fs: seq<Filter>)
    returns (conds': seq<string>, params': seq<Param>, count': nat)
    requires conds == Numbered(fs) && params == ParamsOf(fs) && count == |fs| + 1
    ensures var fs' := AttributeFilters(a, fs);
      conds' == Numbered(fs') && params' == ParamsOf(fs') && count' == |fs'| + 1
  {
    hide Upper, Numbered, ParamsOf;
    conds', params', count' := conds, params, count;
    ghost var chosen := fs;
    if a.txnType != "" {
      var f := Filter(TypeLike, TextParam(a.txnType));
      conds', params', count', chosen := Append(conds', params', count', chosen, f);
    }
    assert chosen == AddIf(fs, a.txnType != "", Filter(TypeLike, TextParam(a.txnType)));
    ghost var before := chosen;
    if a.status != "" {
      var f := Filter(StatusLike, TextParam(a.status));
      conds', params', count', chosen := Append(conds', params', count', chosen, f);
    }
    assert chosen == AddIf(before, a.status != "", Filter(StatusLike, TextParam(a.status)));
    before := chosen;
    if a.symbol != "" {
      var f := Filter(SymbolLike, TextParam(Upper(a.symbol)));
      conds', params', count', chosen := Append(conds', params', count', chosen, f);
    }
    assert chosen == AddIf(before, a.symbol != "", Filter(SymbolLike, TextParam(Upper(a.symbol))));
    before := chosen;
    if a.amountMin.Some? {
      var f := Filter(Condition("amount", ">="), AmountParam(a.amountMin.value));
      conds', params', count', chosen := Append(conds', params', count', chosen, f);
    }
    assert chosen == AddAmount(before, a.amountMin, ">=");
    before := chosen;
    if a.amountMax.Some? {
      var f := Filter(Condition("amount", "<="), AmountParam(a.amountMax.value));
      conds', params', count', chosen := Append(conds', params', count', chosen, f);
    }
    assert chosen == AddAmount(before, a.amountMax, "<=");
  }

  /** The conditions and parameters `_build_query` collects, with the
      counter of the next placeholder, or the error that stops it. */
  method CollectFilters(a: Args, now: int, render: int -> string)
    returns (r: Result<(seq<string>, seq<Param>, nat)>)
    ensures TransactionFilters(a, now, render).Err? ==> r == Err(TransactionFilters(a, now, render).error)
    ensures TransactionFilters(a, now, render).Ok? ==>
      var fs := TransactionFilters(a, now, render).value;
      r == Ok((Numbered(fs), ParamsOf(fs), |fs| + 1))
  {
    hide ParseInt, TimeFilters, AttributeFilters, Numbered, ParamsOf;
    NoFilters();
    var uid := ParseInt(a.userId);
    if uid.None? {
      return Err(IntError(a.userId));
    }
    var f := Filter(UserIdEquals, IntParam(uid.value));
    var whereConditions, params, paramCount, fs := Append([], [], 1, [], f);
    assert fs == [f];
    var timed := AddTimeConditions(a, now, render, whereConditions, params, paramCount, fs);
    if timed.Err? {
      return Err(timed.error);
    }
    fs := fs + TimeFilters(a, now, render).value;
    assert TransactionFilters(a, now, render) == Ok(AttributeFilters(a, fs));
    whereConditions, params, paramCount := AddAttributeConditions(a, timed.value.0, timed.value.1, timed.value.2, fs);
    r := Ok((whereConditions, params, paramCount));
  }

  /** `_build_query`: the collected conditions joined under `WHERE`, then the
      order and the limit. */
  method BuildQuery(a: Args, now: int, render: int -> string) returns (r: Result<Query>)
    ensures r == TransactionsQuery(a, now, render)
  {
    hide Strip, Replace, Numbered, ParamsOf, Join, IntToString, TransactionFilters, StartsWith;
    var fields := if a.fields != "" then Strip(a.fields) else "*";
    var query := "SELECT " + fields + " FROM " + a.table;
    var collected := CollectFilters(a, now, render);
    if collected.Err? {
      return Err(collected.error);
    }
    var (whereConditions, params, _) := collected.value;
    ghost var fs := TransactionFilters(a, now, render).value;
    ghost var head := query;
    assert head == SelectHead(a.fields, a.table);
    if |whereConditions| > 0 {
      query := query + " WHERE " + Join(" AND ", whereConditions);
    }
    assert query == head + WhereClause(Numbered(fs));
    head := query;
    if a.orderBy != "" {
      var orderClause := Replace(a.orderBy, "created_at", "time");
      query := query + " ORDER BY " + orderClause;
    }
    assert query == head + OrderClause(a.orderBy);
    query := query + " LIMIT " + IntToString(a.limit);
    assert query == SelectHead(a.fields, a.table) + WhereClause(Numbered(fs)) + (OrderClause(a.orderBy) + LimitClause(a.limit));
    r := Ok(Query(query, params));
  }

  // ------------------------------------------------------------ the query's properties

  /** The first condition is always `user_id = $1`, filled by `int(user_id)`;
      a user id that is not an integer is the error whatever else is wrong. */
  lemma UserIdFirst(a: Args, now: int, render: int -> string)
    ensures ParseInt(a.userId).None? ==> TransactionFilters(a, now, render) == Err(IntError(a.userId))
    ensures TransactionFilters(a, now, render).Ok? ==>
      var fs := TransactionFilters(a, now, render).value;
      && |fs| >= 1 && Numbered(fs)[0] == "user_id = $1"
      && ParamsOf(fs)[0] == IntParam(ParseInt(a.userId).value)
  {
    hide ParseInt, TimeFilters, AttributeFilters, Numbered, ParamsOf;
    if TransactionFilters(a, now, render).Ok? {
      var user := Filter(UserIdEquals, IntParam(ParseInt(a.userId).value));
      var prefix := [user] + TimeFilters(a, now, render).value;
      var fs := TransactionFilters(a, now, render).value;
      assert fs == AttributeFilters(a, prefix);
      assert fs[0] == fs[..|prefix|][0] == user;
      PlaceholdersMatchParams(fs);
      assert NatToString(1) == "1";
    }
  }

  /** `--until` counts only beside `--since`, and `--last` only without it. */
  lemma TimeArgumentsPrecedence(a: Args, now: int, render: int -> string)
    ensures a.since != "" ==> TransactionFilters(a, now, render) == TransactionFilters(a.(last := ""), now, render)
    ensures a.since == "" ==> TransactionFilters(a, now, render) == TransactionFilters(a.(until := ""), now, render)
  {
    hide ParseInt, Upper, FormatTime, ParseRelativeTime, Strip, Replace;
  }

  /** The range is closed by an upper bound exactly when both `--since` and
      `--until` are given. */
  lemma UpperBoundOnlyWithUntil(a: Args, now: int, render: int -> string)
    requires TransactionFilters(a, now, render).Ok?
    ensures CreatedUntil in ConditionsOf(TransactionFilters(a, now, render).value) <==> a.since != "" && a.until != ""
  {
    hide ParseInt, TimeFilters, AttributeFilters, ConditionsOf;
    var time := TimeFilters(a, now, render).value;
    var prefix := [Filter(UserIdEquals, IntParam(ParseInt(a.userId).value))] + time;
    var fs := TransactionFilters(a, now, render).value;
    assert fs == AttributeFilters(a, prefix);
    assert forall i :: 0 <= i < |prefix| ==> fs[i] == fs[..|prefix|][i] == prefix[i];
    if a.since != "" && a.until != "" {
      var j :| 0 <= j < |time| && ConditionsOf(time)[j] == CreatedUntil;
      assert ConditionsOf(fs)[j + 1] == CreatedUntil;
    } else {
      forall i | 0 <= i < |fs|
        ensures ConditionsOf(fs)[i] != CreatedUntil
      {
        if 1 <= i < |prefix| {
          assert prefix[i] == time[i - 1] && ConditionsOf(time)[i - 1] == time[i - 1].condition;
        }
      }
    }
  }

  /** The symbol is matched upper-cased. */
  lemma SymbolUpperCased(a: Args, now: int, render: int -> string)
    requires TransactionFilters(a, now, render).Ok? && a.symbol != ""
    ensures Filter(SymbolLike, TextParam(Upper(a.symbol))) in TransactionFilters(a, now, render).value
  {
    hide ParseInt, Upper, FormatTime, ParseRelativeTime, Strip, Replace;
  }

  /** The query selects from the table, numbers its placeholders `$1 .. $n`
      for its `n` parameters, and always ends with the limit. */
  lemma QueryShape(a: Args, now: int, render: int -> string)
    requires TransactionsQuery(a, now, render).Ok?
    ensures var q := TransactionsQuery(a, now, render).value;
      var fs := TransactionFilters(a, now, render).value;
      && StartsWith(q.sql, "SELECT ")
      && EndsWith(q.sql, LimitClause(a.limit))
      && q.params == ParamsOf(fs) && |Numbered(fs)| == |q.params|
      && (forall i :: 0 <= i < |q.params| ==> EndsWith(Numbered(fs)[i], Placeholder(i + 1)))
  {
    hide TransactionFilters, SelectHead, WhereClause, OrderClause, LimitClause, Numbered, ParamsOf;
    var fs := TransactionFilters(a, now, render).value;
    var head := SelectHead(a.fields, a.table);
    var tail := OrderClause(a.orderBy) + LimitClause(a.limit);
    PlaceholdersMatchParams(fs);
    StartsWithConcat(head, WhereClause(Numbered(fs)) + tail);
    assert head + WhereClause(Numbered(fs)) + tail == head + (WhereClause(Numbered(fs)) + tail);
    StartsWithChain(head + (WhereClause(Numbered(fs)) + tail), head, "SELECT ");
    EndsWithConcat(head + WhereClause(Numbered(fs)) + OrderClause(a.orderBy), LimitClause(a.limit));
    assert head + WhereClause(Numbered(fs)) + tail == head + WhereClause(Numbered(fs)) + OrderClause(a.orderBy) + LimitClause(a.limit);
  }

  // ------------------------------------------------------------ the table

  /** The columns shown first, when the results have them. */
  const Priority: seq<string> := ["id", "created_at", "transaction_type", "symbol", "amount", "status"]

  /** At most this many columns are shown. */
  const MaxColumns := 8

  /** At most this wide a column is shown. */
  const MaxWidth := 30

  /** The names of `wanted` that are among `fields`, in the order of `wanted`. */
  function Present(wanted: seq<string>, fields: seq<string>): (r: seq<string>)
    ensures forall x :: x in r <==> x in wanted && x in fields
    ensures NoDuplicates(wanted) ==> NoDuplicates(r)
  {
    if |wanted| == 0 then []
    else
      var r0 := Present(wanted[..|wanted| - 1], fields);
      var x := wanted[|wanted| - 1];
      assert forall y :: y in wanted <==> y in wanted[..|wanted| - 1] || y == x;
      if x in fields then r0 + [x] else r0
  }

  /** The columns shown: the priority fields there are, then the others,
      without repetition, cut to `MaxColumns`. */
  function DisplayFields(fields: seq<string>): seq<string> {
    var all := AppendAbsent(Present(Priority, fields), fields);
    if |all| > MaxColumns then all[..MaxColumns] else all
  }

  /** The two loops choosing the columns, then the cut. */
  method ChooseColumns(fields: seq<string>) returns (display: seq<string>)
    ensures display == DisplayFields(fields)
  {
    display := [];
    for k := 0 to |Priority|
      invariant display == Present(Priority[..k], fields)
    {
      assert Priority[..k + 1][..k] == Priority[..k];
      if Priority[k] in fields {
        display := display + [Priority[k]];
      }
    }
    assert Priority[..|Priority|] == Priority;
    ghost var first := display;
    for k := 0 to |fields|
      invariant display == AppendAbsent(first, fields[..k])
    {
      assert fields[..k + 1][..k] == fields[..k];
      if fields[k] !in display {
        display := display + [fields[k]];
      }
    }
    assert fields[..|fields|] == fields;
    if |display| > MaxColumns {
      display := display[..MaxColumns];
    }
  }

  lemma {:induction false} WithoutAlike(s: seq<string>, e1: seq<string>, e2: seq<string>)
    requires forall x :: x in s ==> (x in e1 <==> x in e2)
    ensures Without(s, e1) == Without(s, e2)
    decreases |s|
  {
    if |s| > 0 {
      assert forall x :: x in s[..|s| - 1] ==> x in s;
      WithoutAlike(s[..|s| - 1], e1, e2);
      assert s[|s| - 1] in s;
    }
  }

  /** The shown columns never repeat, come from the results, number at most
      eight; the priority fields present lead in their fixed order and the
      other fields follow in their own order. */
  lemma ColumnOrder(fields: seq<string>)
    requires NoDuplicates(fields)
    ensures var d := DisplayFields(fields);
      && NoDuplicates(d) && |d| <= MaxColumns
      && (forall x :: x in d ==> x in fields)
      && var all := Present(Priority, fields) + Without(fields, Priority);
         d == if |all| > MaxColumns then all[..MaxColumns] else all
  {
    var p := Present(Priority, fields);
    assert NoDuplicates(Priority);
    var all := AppendAbsent(p, fields);
    AppendAbsentDistinct(p, fields);
    WithoutAlike(fields, p, Priority);
    var d := DisplayFields(fields);
    if |all| > MaxColumns {
      assert forall i, j :: 0 <= i < j < |d| ==> d[i] == all[i] && d[j] == all[j];
      assert forall x :: x in d ==> x in all;
    }
  }

  /** `_format_table`: nothing for no results, otherwise the table of the
      chosen columns, capped at `MaxWidth` with longer cells cut. */
  method FormatTable(results: seq<Record>, bold: string, nc: string) returns (text: string)
    ensures |results| == 0 ==> text == ""
    ensures |results| > 0 ==>
      text == Table(results, DisplayFields(Keys(results[0])), Some(MaxWidth), bold, nc)
  {
    if |results| == 0 {
      return "";
    }
    var fields := Keys(results[0]);
    var display := ChooseColumns(fields);
    text := Layout(results, display, Some(MaxWidth), bold, nc);
  }

  /** Every line of a transactions table but the header is as long as the
      separator; the header too, unless a shown column's name is longer than
      the cap. */
  lemma TableAligned(results: seq<Record>, k: nat)
    requires k < |results|
    ensures var fields := DisplayFields(Keys(results[0]));
      var ws := Widths(results, fields, Some(MaxWidth));
      && |RowLine(results[k], fields, ws, true)| == |Separator(ws)|
      && (|Join(" | ", HeaderCells(fields, ws))| == |Separator(ws)| <==>
            forall i :: 0 <= i < |fields| ==> |fields[i]| <= MaxWidth)
  {
    var fields := DisplayFields(Keys(results[0]));
    RowsAligned(results, fields, Some(MaxWidth), k);
    HeaderAligned(results, fields, Some(MaxWidth));
  }
}
