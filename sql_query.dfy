/** The parametrised SQL the command-line queries send: conditions joined by
    `AND`, each with a `$n` placeholder numbered from 1 in the order the
    parameters are appended. */
module SqlQuery {
  import opened Wrappers
  import opened Text

  /** A query parameter: `int(...)` of an argument, an argument string as it
      is, or an amount argparse has already converted. */
  datatype Param = IntParam(i: int) | TextParam(s: string) | AmountParam(amount: real)

  /** A WHERE condition before its placeholder is numbered. */
  datatype Condition = Condition(column: string, op: string)

  /** A condition with the parameter that fills its placeholder. */
  datatype Filter = Filter(condition: Condition, param: Param)

  /** The `(query, params)` pair a builder returns. */
  datatype Query = Query(sql: string, params: seq<Param>)

  function Placeholder(n: nat): string {
    "$" + NatToString(n)
  }

  /** The f-string `"<column> <op> ${param_count}"`. */
  function Rendered(c: Condition, n: nat): string {
    c.column + " " + c.op + " " + Placeholder(n)
  }

  /** The conditions in the order they were appended, the n-th carrying `$n`. */
  function Numbered(fs: seq<Filter>): seq<string> {
    if |fs| == 0 then [] else Numbered(fs[..|fs| - 1]) + [Rendered(fs[|fs| - 1].condition, |fs|)]
  }

  function ParamsOf(fs: seq<Filter>): seq<Param> {
    if |fs| == 0 then [] else ParamsOf(fs[..|fs| - 1]) + [fs[|fs| - 1].param]
  }

  /** `SELECT <fields> FROM <table>`: the stripped `--fields` when one is
      given, `*` otherwise. */
  function SelectHead(fields: string, table: string): (r: string)
    ensures StartsWith(r, "SELECT ")
  {
    "SELECT " + (if fields != "" then Strip(fields) else "*") + " FROM " + table
  }

  function WhereClause(conds: seq<string>): string {
    if |conds| == 0 then "" else " WHERE " + Join(" AND ", conds)
  }

  function LimitClause(limit: int): string {
    " LIMIT " + IntToString(limit)
  }

  /** The query text and parameter list for the chosen filters. */
  function Assemble(head: string, fs: seq<Filter>, tail: string): Query {
    Query(head + WhereClause(Numbered(fs)) + tail, ParamsOf(fs))
  }

  /** The conditions of the filters, in their order. */
  function ConditionsOf(fs: seq<Filter>): (cs: seq<Condition>)
    ensures |cs| == |fs| && forall i :: 0 <= i < |fs| ==> cs[i] == fs[i].condition
  {
    seq(|fs|, i requires 0 <= i < |fs| => fs[i].condition)
  }

  /** `if <argument>: <append the filter>` */
  function AddIf(fs: seq<Filter>, given: bool, f: Filter): (r: seq<Filter>)
    ensures |r| == |fs| + (if given then 1 else 0) && r[..|fs|] == fs
    ensures forall x :: x in r <==> x in fs || (given && x == f)
  {
    if given then fs + [f] else fs
  }

  /** Before the first filter there are no conditions and no parameters. */
  lemma NoFilters()
    ensures Numbered([]) == [] && ParamsOf([]) == []
  {
  }

  /** Appending one more filter numbers it after all the earlier ones: the
      `where_conditions.append(...); params.append(...); param_count += 1`
      step of every builder. */
  lemma AppendFilter(fs: seq<Filter>, f: Filter)
    ensures Numbered(fs + [f]) == Numbered(fs) + [Rendered(f.condition, |fs| + 1)]
    ensures ParamsOf(fs + [f]) == ParamsOf(fs) + [f.param]
  {
    assert (fs + [f])[..|fs|] == fs;
  }

  /** The append step itself, on the builder's lists and counter: the new
      condition carries the counter as its placeholder. `fs` records the
      filters appended so far. */
  method Append(conds: seq<string>, params: seq<Param>, count: nat, ghost fs: seq<Filter>, f: Filter)
    returns (conds': seq<string>, params': seq<Param>, count': nat, ghost fs': seq<Filter>)
    requires conds == Numbered(fs) && params == ParamsOf(fs) && count == |fs| + 1
    ensures fs' == fs + [f]
    ensures conds' == Numbered(fs') && params' == ParamsOf(fs') && count' == |fs'| + 1
  {
    AppendFilter(fs, f);
    conds', params', count', fs' := conds + [Rendered(f.condition, count)], params + [f.param], count + 1, fs + [f];
  }

  /** A rendered condition ends with its placeholder. */
  lemma RenderedEndsWith(c: Condition, n: nat)
    ensures EndsWith(Rendered(c, n), Placeholder(n))
  {
    assert Rendered(c, n) == (c.column + " " + c.op + " ") + Placeholder(n);
  }

  /** The placeholders run `$1 .. $n` in order, and `n` is the number of
      parameters, the i-th condition being filled by the i-th parameter. */
  lemma {:induction false} PlaceholdersMatchParams(fs: seq<Filter>)
    ensures |Numbered(fs)| == |ParamsOf(fs)| == |fs|
    ensures forall i :: 0 <= i < |fs| ==>
      && Numbered(fs)[i] == Rendered(fs[i].condition, i + 1)
      && EndsWith(Numbered(fs)[i], Placeholder(i + 1))
      && ParamsOf(fs)[i] == fs[i].param
  {
    hide Rendered, EndsWith;
    if |fs| > 0 {
      var init := fs[..|fs| - 1];
      PlaceholdersMatchParams(init);
      forall i | 0 <= i < |fs|
        ensures EndsWith(Numbered(fs)[i], Placeholder(i + 1))
      {
        RenderedEndsWith(fs[i].condition, i + 1);
      }
    }
  }

  // ------------------------------------------------------------ int(...)

  /** Python's `int(s)` on a string: surrounding whitespace, an optional
      sign and at least one ASCII digit; anything else is `None` (the
      `ValueError`). */
  function ParseInt(s: string): Option<int> {
    var t := Strip(s);
    if |t| > 1 && (t[0] == '-' || t[0] == '+') && AllDigits(t[1..]) then
      var v: int := DigitsValue(t[1..]);
      Some(if t[0] == '-' then -v else v)
    else if |t| > 0 && AllDigits(t) then Some(DigitsValue(t))
    else None
  }

  /** The message of the `ValueError` `int(s)` raises. */
  function IntError(s: string): string {
    "invalid literal for int() with base 10: '" + s + "'"
  }

  /** `int(str(i)) == i`. */
  lemma ParseIntRoundTrip(i: int)
    ensures ParseInt(IntToString(i)) == Some(i)
  {
    var t := IntToString(i);
    if i < 0 {
      var d := NatToString(-i);
      assert t == "-" + d && t[1..] == d;
      assert !IsSpace(t[|t| - 1]);
    } else {
      assert !IsSpace(t[0]) && !IsSpace(t[|t| - 1]);
    }
    assert Strip(t) == t;
  }

  /** A string without a digit is never an integer. */
  lemma ParseIntNeedsDigit(s: string)
    requires forall i :: 0 <= i < |s| ==> !IsDigit(s[i])
    ensures ParseInt(s) == None
  {
    var t := Strip(s);
    var l := LStrip(s);
    assert t == l[..|t|] && l == s[|s| - |l|..];
    if |t| > 0 {
      assert t[0] == s[|s| - |l|];
      assert !IsDigit(t[0]);
    }
    if |t| > 1 {
      assert t[1] == s[|s| - |l| + 1];
      assert !IsDigit(t[1..][0]);
    }
  }
}
