/** The fixed-width text tables the query commands print: a header of the
    column names, a separator of dashes joined by `-+-`, then one line per
    result, each cell left-aligned in its column and joined by ` | `. The
    transactions command caps the width at 30 and cuts longer cells; the
    others never cap. */
module TableFormat {
  import opened Wrappers
  import opened Text

  /** A result row as the formatter reads it: the column names in the order
      the dictionary keeps them, each with `str()` of its value. */
  type Record = seq<(string, string)>

  function Keys(row: Record): (ks: seq<string>)
    ensures |ks| == |row| && forall i :: 0 <= i < |row| ==> ks[i] == row[i].0
  {
    if |row| == 0 then [] else [row[0].0] + Keys(row[1..])
  }

  /** `str(row.get(field, ''))` */
  function Lookup(row: Record, field: string): string {
    if |row| == 0 then "" else if row[0].0 == field then row[0].1 else Lookup(row[1..], field)
  }

  function Max(a: nat, b: nat): nat {
    if a < b then b else a
  }

  /** `max(len(str(row.get(field, ''))) for row in rows)`: the longest cell of
      the column (0 for no rows). */
  function CellWidth(rows: seq<Record>, field: string): (w: nat)
    ensures forall i :: 0 <= i < |rows| ==> |Lookup(rows[i], field)| <= w
    ensures |rows| > 0 ==> exists i :: 0 <= i < |rows| && |Lookup(rows[i], field)| == w
  {
    if |rows| == 0 then 0
    else
      var init := rows[..|rows| - 1];
      var w0 := CellWidth(init, field);
      var w := Max(w0, |Lookup(rows[|rows| - 1], field)|);
      assert forall i :: 0 <= i < |init| ==> rows[i] == init[i];
      w
  }

  /** `widths[field]`: the longer of the name and the longest cell, cut to
      the cap when there is one. */
  function ColumnWidth(rows: seq<Record>, field: string, cap: Option<nat>): nat {
    var full := Max(|field|, CellWidth(rows, field));
    if cap.Some? && cap.value < full then cap.value else full
  }

  function Widths(rows: seq<Record>, fields: seq<string>, cap: Option<nat>): (ws: seq<nat>)
    ensures |ws| == |fields|
    ensures forall i :: 0 <= i < |fields| ==> ws[i] == ColumnWidth(rows, fields[i], cap)
  {
    seq(|fields|, i requires 0 <= i < |fields| => ColumnWidth(rows, fields[i], cap))
  }

  /** `f"{field:<{widths[field]}}"` for each column. */
  function HeaderCells(fields: seq<string>, ws: seq<nat>): (cells: seq<string>)
    requires |ws| == |fields|
    ensures |cells| == |fields|
  {
    seq(|fields|, i requires 0 <= i < |fields| => PadRight(fields[i], ws[i]))
  }

  /** `"-" * widths[field]` for each column. */
  function Dashes(ws: seq<nat>): (cells: seq<string>)
    ensures |cells| == |ws|
  {
    seq(|ws|, i requires 0 <= i < |ws| => Repeat('-', ws[i]))
  }

  /** One cell of a result line: the value, cut to the width when cells are
      cut, left-aligned in the width. */
  function Cell(row: Record, field: string, w: nat, cut: bool): string {
    PadRight(if cut then Take(Lookup(row, field), w) else Lookup(row, field), w)
  }

  function RowCells(row: Record, fields: seq<string>, ws: seq<nat>, cut: bool): (cells: seq<string>)
    requires |ws| == |fields|
    ensures |cells| == |fields|
  {
    seq(|fields|, i requires 0 <= i < |fields| => Cell(row, fields[i], ws[i], cut))
  }

  function RowLine(row: Record, fields: seq<string>, ws: seq<nat>, cut: bool): string
    requires |ws| == |fields|
  {
    Join(" | ", RowCells(row, fields, ws, cut))
  }

  /** The result lines, in the order of the results. */
  function RowLines(rows: seq<Record>, fields: seq<string>, ws: seq<nat>, cut: bool): (lines: seq<string>)
    requires |ws| == |fields|
    ensures |lines| == |rows|
    ensures forall i :: 0 <= i < |rows| ==> lines[i] == RowLine(rows[i], fields, ws, cut)
  {
    if |rows| == 0 then []
    else
      var init := rows[..|rows| - 1];
      assert forall i :: 0 <= i < |init| ==> rows[i] == init[i];
      RowLines(init, fields, ws, cut) + [RowLine(rows[|rows| - 1], fields, ws, cut)]
  }

  function HeaderLine(fields: seq<string>, ws: seq<nat>, bold: string, nc: string): string
    requires |ws| == |fields|
  {
    bold + Join(" | ", HeaderCells(fields, ws)) + nc
  }

  function Separator(ws: seq<nat>): string {
    Join("-+-", Dashes(ws))
  }

  /** The lines of the table; a capped table also cuts its cells. */
  function TableLines(rows: seq<Record>, fields: seq<string>, cap: Option<nat>, bold: string, nc: string): seq<string> {
    var ws := Widths(rows, fields, cap);
    [HeaderLine(fields, ws, bold, nc), Separator(ws)] + RowLines(rows, fields, ws, cap.Some?)
  }

  /** `"\n".join(output)` */
  function Table(rows: seq<Record>, fields: seq<string>, cap: Option<nat>, bold: string, nc: string): string {
    Join("\n", TableLines(rows, fields, cap, bold, nc))
  }

  /** The body the table formatters share: the width of every column, then
      the header, the separator and the result lines. */
  method Layout(rows: seq<Record>, fields: seq<string>, cap: Option<nat>, bold: string, nc: string)
    returns (text: string)
    ensures text == Table(rows, fields, cap, bold, nc)
  {
    hide Join, HeaderLine, Separator, RowLine, Lookup;
    var widths: seq<nat> := [];
    for k := 0 to |fields|
      invariant |widths| == k
      invariant forall i :: 0 <= i < k ==> widths[i] == ColumnWidth(rows, fields[i], cap)
    {
      var field := fields[k];
      var longest := 0;
      for j := 0 to |rows|
        invariant longest == CellWidth(rows[..j], field)
      {
        assert rows[..j + 1][..j] == rows[..j];
        longest := Max(longest, |Lookup(rows[j], field)|);
      }
      assert rows[..|rows|] == rows;
      var w := Max(|field|, longest);
      if cap.Some? && cap.value < w {
        w := cap.value;
      }
      widths := widths + [w];
    }
    assert widths == Widths(rows, fields, cap);
    var output := [HeaderLine(fields, widths, bold, nc), Separator(widths)];
    for j := 0 to |rows|
      invariant output == [HeaderLine(fields, widths, bold, nc), Separator(widths)]
                          + RowLines(rows[..j], fields, widths, cap.Some?)
    {
      assert rows[..j + 1][..j] == rows[..j];
      output := output + [RowLine(rows[j], fields, widths, cap.Some?)];
    }
    assert rows[..|rows|] == rows;
    text := Join("\n", output);
  }

  // ------------------------------------------------------------ properties

  /** A header, a separator, and one line per result. */
  lemma TableLineCount(rows: seq<Record>, fields: seq<string>, cap: Option<nat>, bold: string, nc: string)
    ensures |TableLines(rows, fields, cap, bold, nc)| == 2 + |rows|
    ensures TableLines(rows, fields, cap, bold, nc)[0] == HeaderLine(fields, Widths(rows, fields, cap), bold, nc)
  {
  }

  /** Without a cap a column is as wide as its name and every cell, and no
      wider than the longest of them; with one it is the cap or that width,
      whichever is smaller. */
  lemma WidthBounds(rows: seq<Record>, field: string, cap: Option<nat>)
    requires |rows| > 0
    ensures var w := ColumnWidth(rows, field, cap);
      && (cap.None? ==> |field| <= w && (forall i :: 0 <= i < |rows| ==> |Lookup(rows[i], field)| <= w)
                        && (w == |field| || exists i :: 0 <= i < |rows| && |Lookup(rows[i], field)| == w))
      && (cap.Some? ==> w <= cap.value && (w < cap.value ==> w == ColumnWidth(rows, field, None)))
  {
  }

  /** The total length of a list of strings. */
  function TotalLength(parts: seq<string>): nat {
    if |parts| == 0 then 0 else |parts[0]| + TotalLength(parts[1..])
  }

  /** The length of `sep.join(parts)`. */
  lemma {:induction false} JoinLength(sep: string, parts: seq<string>)
    ensures |Join(sep, parts)| == TotalLength(parts) + (if |parts| == 0 then 0 else |sep| * (|parts| - 1))
  {
    if |parts| > 1 {
      JoinLength(sep, parts[1..]);
    }
  }

  /** Lists of strings that are at least as long place by place are at least
      as long in total, and strictly longer when one place is. */
  lemma {:induction false} TotalLengthCompare(a: seq<string>, b: seq<string>)
    requires |a| == |b| && forall i :: 0 <= i < |a| ==> |a[i]| >= |b[i]|
    ensures TotalLength(a) >= TotalLength(b)
    ensures (exists i :: 0 <= i < |a| && |a[i]| > |b[i]|) ==> TotalLength(a) > TotalLength(b)
    ensures (forall i :: 0 <= i < |a| ==> |a[i]| == |b[i]|) ==> TotalLength(a) == TotalLength(b)
  {
    if |a| > 0 {
      TotalLengthCompare(a[1..], b[1..]);
      assert forall i :: 1 <= i < |a| ==> a[1..][i - 1] == a[i] && b[1..][i - 1] == b[i];
    }
  }

  /** Every cell of a result line fills its column exactly, so each result
      line is as long as the separator. */
  lemma RowsAligned(rows: seq<Record>, fields: seq<string>, cap: Option<nat>, k: nat)
    requires k < |rows|
    ensures var ws := Widths(rows, fields, cap);
      |RowLine(rows[k], fields, ws, cap.Some?)| == |Separator(ws)|
  {
    hide Join, PadRight, Repeat, Take;
    var ws := Widths(rows, fields, cap);
    var cells, dashes := RowCells(rows[k], fields, ws, cap.Some?), Dashes(ws);
    forall i | 0 <= i < |fields|
      ensures |cells[i]| == |dashes[i]|
    {
      assert |Lookup(rows[k], fields[i])| <= CellWidth(rows, fields[i]);
    }
    TotalLengthCompare(cells, dashes);
    JoinLength(" | ", cells);
    JoinLength("-+-", dashes);
  }

  /** The header (without its colour codes) is as long as the separator
      exactly when no column name is longer than the cap; a longer name is
      padded but never cut, and pushes the header out of line. */
  lemma HeaderAligned(rows: seq<Record>, fields: seq<string>, cap: Option<nat>)
    ensures var ws := Widths(rows, fields, cap);
      |Join(" | ", HeaderCells(fields, ws))| == |Separator(ws)| <==>
        (cap.None? || forall i :: 0 <= i < |fields| ==> |fields[i]| <= cap.value)
  {
    hide Join, PadRight, Repeat, Lookup, CellWidth;
    var ws := Widths(rows, fields, cap);
    var cells, dashes := HeaderCells(fields, ws), Dashes(ws);
    assert forall i :: 0 <= i < |fields| ==> |cells[i]| >= |dashes[i]|;
    TotalLengthCompare(cells, dashes);
    JoinLength(" | ", cells);
    JoinLength("-+-", dashes);
    if cap.Some? && !(forall i :: 0 <= i < |fields| ==> |fields[i]| <= cap.value) {
      var i :| 0 <= i < |fields| && |fields[i]| > cap.value;
      assert |cells[i]| > |dashes[i]|;
    }
  }
}
