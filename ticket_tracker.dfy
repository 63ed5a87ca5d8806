/** The audit table of processed tickets: rows are only ever inserted, each
    under a fresh id, and the readers filter, order and count them. The
    table lives in memory; the clock reading that stamps a row is an input. */
module TicketTracker {
  import opened Wrappers
  import opened Sorting
  import opened Sequences

  /** One row of `processed_tickets`, without the measured execution time.
      The two list columns hold the decoded list, or `None` for NULL. */
  datatype Row = Row(
    id: nat, ticketId: string, user: string, processedAt: int, success: bool,
    prUrls: Option<seq<string>>, errorMessage: Option<string>,
    deepseekAnalysis: Option<string>, claudeAnalysisPath: Option<string>,
    jiraCommentAdded: bool, labelsAdded: Option<seq<string>>)

  /** A list column: an absent or empty list is stored as NULL, any other
      list as its JSON text, which the readers decode back into the list. */
  function StoredList(list: Option<seq<string>>): (r: Option<seq<string>>)
    ensures r.None? <==> list.None? || list.value == []
    ensures r.Some? ==> r == list
  {
    if list.Some? && list.value != [] then list else None
  }


  /** The rows of one ticket, in table order. */
  function RowsOf(rows: seq<Row>, ticketId: string): (r: seq<Row>)
    ensures forall x :: x in r <==> x in rows && x.ticketId == ticketId
    ensures |r| <= |rows|
  {
    if |rows| == 0 then []
    else RowsOf(rows[..|rows| - 1], ticketId)
         + (if rows[|rows| - 1].ticketId == ticketId then [rows[|rows| - 1]] else [])
  }

  /** The rows a user filter keeps: an empty or missing user keeps all. */
  function RowsFor(rows: seq<Row>, user: Option<string>): (r: seq<Row>)
    ensures forall x :: x in r <==> x in rows && (user.None? || user.value == "" || x.user == user.value)
    ensures |r| <= |rows|
  {
    if |rows| == 0 then []
    else
      var last := rows[|rows| - 1];
      RowsFor(rows[..|rows| - 1], user)
      + (if user.None? || user.value == "" || last.user == user.value then [last] else [])
  }

  /** `ORDER BY processed_at DESC`: a smaller key is a later time. */
  function NewestFirst(r: Row): int {
    -r.processedAt
  }

  /** The newest rows first; rows stamped alike keep table order. */
  function ByTimeDesc(rows: seq<Row>): seq<Row> {
    SortBy(rows, NewestFirst)
  }

  /** `LIMIT n`; SQLite reads a negative limit as no limit. */
  function Limit(rows: seq<Row>, limit: int): (r: seq<Row>)
    ensures limit < 0 ==> r == rows
    ensures 0 <= limit ==> |r| == if limit < |rows| then limit else |rows|
    ensures r == rows[..|r|]
  {
    if limit < 0 || limit >= |rows| then rows else rows[..limit]
  }

  /** Rows with rising ids are all different. */
  lemma {:induction false} RowsOfDistinct(rows: seq<Row>, ticketId: string)
    requires forall i, j :: 0 <= i < j < |rows| ==> rows[i].id < rows[j].id
    ensures NoDuplicates(RowsOf(rows, ticketId))
    decreases |rows|
  {
    if |rows| > 0 {
      var init, last := rows[..|rows| - 1], rows[|rows| - 1];
      RowsOfDistinct(init, ticketId);
      forall x | x in RowsOf(init, ticketId) ensures x != last {
        var k :| 0 <= k < |init| && init[k] == x;
        assert rows[k] == x;
      }
    }
  }

  /** The history holds exactly the ticket's rows, each once, and since no
      two of them share a processing time it is strictly newest first. */
  lemma HistoryExact(rows: seq<Row>, nextId: nat, ticketId: string)
    requires WellFormedTable(rows, nextId)
    ensures var h := ByTimeDesc(RowsOf(rows, ticketId));
      && multiset(h) == multiset(RowsOf(rows, ticketId))
      && (forall x :: x in h <==> x in rows && x.ticketId == ticketId)
      && (forall i, j :: 0 <= i < j < |h| ==> h[i].processedAt > h[j].processedAt)
  {
    var m := RowsOf(rows, ticketId);
    var h := ByTimeDesc(m);
    SortByCorrect(m, NewestFirst);
    RowsOfDistinct(rows, ticketId);
    PermutationDistinct(m, h);
    forall x | x in h ensures x in m {
      assert x in multiset(h);
    }
    forall x | x in m ensures x in h {
      assert x in multiset(m);
    }
    forall i, j | 0 <= i < j < |h| ensures h[i].processedAt > h[j].processedAt {
      assert NewestFirst(h[i]) <= NewestFirst(h[j]);
      assert h[i] in m && h[j] in m;
      SameTimeSameRow(rows, nextId, ticketId, h[i], h[j]);
    }
  }

  /** Within one ticket, the processing time identifies the row. */
  lemma SameTimeSameRow(rows: seq<Row>, nextId: nat, ticketId: string, x: Row, y: Row)
    requires WellFormedTable(rows, nextId)
    requires x in rows && y in rows && x.ticketId == ticketId && y.ticketId == ticketId
    ensures x.processedAt == y.processedAt ==> x == y
  {
    var a :| 0 <= a < |rows| && rows[a] == x;
    var b :| 0 <= b < |rows| && rows[b] == y;
    if a < b {
      assert !(rows[a].ticketId == rows[b].ticketId && rows[a].processedAt == rows[b].processedAt);
    } else if b < a {
      assert !(rows[b].ticketId == rows[a].ticketId && rows[b].processedAt == rows[a].processedAt);
    }
  }

  /** The recent rows are at most `limit` (when it is not negative), all
      pass the user filter, and come newest first. */
  lemma RecentNewestFirst(rows: seq<Row>, limit: int, user: Option<string>)
    ensures var r := Limit(ByTimeDesc(RowsFor(rows, user)), limit);
      && (0 <= limit ==> |r| <= limit)
      && (forall x :: x in r ==> x in rows && (user.None? || user.value == "" || x.user == user.value))
      && (forall i, j :: 0 <= i < j < |r| ==> r[i].processedAt >= r[j].processedAt)
  {
    var m := RowsFor(rows, user);
    var sorted := ByTimeDesc(m);
    var r := Limit(sorted, limit);
    SortByCorrect(m, NewestFirst);
    forall x | x in r ensures x in m {
      assert x in sorted;
      assert x in multiset(sorted);
    }
    forall i, j | 0 <= i < j < |r| ensures r[i].processedAt >= r[j].processedAt {
      assert r[i] == sorted[i] && r[j] == sorted[j];
      assert NewestFirst(sorted[i]) <= NewestFirst(sorted[j]);
    }
  }

  // ------------------------------------------------------------ statistics

  function CountUser(rows: seq<Row>, user: string): (n: nat)
    ensures n <= |rows|
  {
    if |rows| == 0 then 0
    else CountUser(rows[..|rows| - 1], user) + (if rows[|rows| - 1].user == user then 1 else 0)
  }

  function CountSuccess(rows: seq<Row>, user: string, success: bool): (n: nat)
    ensures n <= |rows|
  {
    if |rows| == 0 then 0
    else
      var last := rows[|rows| - 1];
      CountSuccess(rows[..|rows| - 1], user, success)
      + (if last.user == user && last.success == success then 1 else 0)
  }

  function CountWithPrs(rows: seq<Row>, user: string): (n: nat)
    ensures n <= |rows|
  {
    if |rows| == 0 then 0
    else
      var last := rows[|rows| - 1];
      CountWithPrs(rows[..|rows| - 1], user) + (if last.user == user && last.prUrls.Some? then 1 else 0)
  }

  /** The ticket ids a user's rows mention. */
  function TicketsOf(rows: seq<Row>, user: string): (s: set<string>)
    ensures forall t :: t in s <==> exists x :: x in rows && x.user == user && x.ticketId == t
  {
    if |rows| == 0 then {}
    else
      var last := rows[|rows| - 1];
      var init := rows[..|rows| - 1];
      var s := TicketsOf(init, user) + (if last.user == user then {last.ticketId} else {});
      assert forall x :: x in rows <==> x in init || x == last;
      s
  }

  /** `get_user_statistics` without the average execution time. */
  datatype UserStatistics = UserStatistics(
    user: string, totalProcessed: nat, successful: nat, failed: nat, uniqueTickets: nat,
    ticketsWithPrs: nat)

  /** Each of a user's rows is either a success or a failure. */
  lemma {:induction false} SuccessPlusFailed(rows: seq<Row>, user: string)
    ensures CountSuccess(rows, user, true) + CountSuccess(rows, user, false) == CountUser(rows, user)
  {
    if |rows| > 0 {
      SuccessPlusFailed(rows[..|rows| - 1], user);
    }
  }

  /** A user has no more distinct tickets, and no more rows with links, than rows. */
  lemma {:induction false} CountsBounded(rows: seq<Row>, user: string)
    ensures |TicketsOf(rows, user)| <= CountUser(rows, user)
    ensures CountWithPrs(rows, user) <= CountUser(rows, user)
  {
    if |rows| > 0 {
      CountsBounded(rows[..|rows| - 1], user);
    }
  }

  /** A user with no rows has all-zero statistics. */
  lemma {:induction false} NoRowsNoStatistics(rows: seq<Row>, user: string)
    requires forall x :: x in rows ==> x.user != user
    ensures CountUser(rows, user) == 0 && CountWithPrs(rows, user) == 0
    ensures CountSuccess(rows, user, true) == 0 && CountSuccess(rows, user, false) == 0
    ensures TicketsOf(rows, user) == {}
  {
    if |rows| > 0 {
      assert rows[|rows| - 1] in rows;
      assert forall x :: x in rows[..|rows| - 1] ==> x in rows;
      NoRowsNoStatistics(rows[..|rows| - 1], user);
    }
  }

  // ------------------------------------------------------------ the table

  /** Ids rise with table order and stay below the next one; no two rows
      share a ticket id and a processing time. */
  predicate WellFormedTable(rows: seq<Row>, nextId: nat) {
    && nextId >= 1
    && (forall i :: 0 <= i < |rows| ==> 1 <= rows[i].id < nextId)
    && (forall i, j :: 0 <= i < j < |rows| ==> rows[i].id < rows[j].id)
    && (forall i, j :: 0 <= i < j < |rows| ==>
          !(rows[i].ticketId == rows[j].ticketId && rows[i].processedAt == rows[j].processedAt))
  }

  /** A row under the next id, for a ticket and time not yet stored, keeps
      the table well formed. */
  lemma InsertKeepsWellFormed(rows: seq<Row>, nextId: nat, row: Row)
    requires WellFormedTable(rows, nextId) && row.id == nextId
    requires !Clashes(rows, row.ticketId, row.processedAt)
    ensures WellFormedTable(rows + [row], nextId + 1)
  {
    var r := rows + [row];
    forall i, j | 0 <= i < j < |r|
      ensures r[i].id < r[j].id
      ensures !(r[i].ticketId == r[j].ticketId && r[i].processedAt == r[j].processedAt)
    {
      assert r[i] == rows[i];
      if j == |rows| {
        assert r[j] == row;
      } else {
        assert r[j] == rows[j];
      }
    }
  }

  /** Whether a row with this ticket id and time is already stored. */
  predicate Clashes(rows: seq<Row>, ticketId: string, at: int) {
    exists i :: 0 <= i < |rows| && rows[i].ticketId == ticketId && rows[i].processedAt == at
  }

  class TicketTracker {
    var rows: seq<Row>
    /** The id `AUTOINCREMENT` hands out next. */
    var nextId: nat

    ghost predicate Valid()
      reads this
    {
      WellFormedTable(rows, nextId)
    }

    /** A freshly created database: the empty table. */
    constructor ()
      ensures Valid() && rows == [] && nextId == 1
    {
      rows := [];
      nextId := 1;
    }

    /** `log_ticket_processing`: inserts exactly one row stamped `now` and
        returns its id; empty lists are stored as NULL. A second row for the
        same ticket and time violates the table's uniqueness constraint: the
        insert raises and the table is unchanged. */
    method LogTicketProcessing(ticketId: string, user: string, success: bool,
                               prUrls: Option<seq<string>>, errorMessage: Option<string>,
                               deepseekAnalysis: Option<string>, claudeAnalysisPath: Option<string>,
                               jiraCommentAdded: bool, labelsAdded: Option<seq<string>>, now: int)
      returns (r: Result<nat>)
      requires Valid()
      modifies this
      ensures Valid()
      ensures Clashes(old(rows), ticketId, now) ==> r.Err? && rows == old(rows) && nextId == old(nextId)
      ensures !Clashes(old(rows), ticketId, now) ==>
        && r == Ok(old(nextId))
        && nextId == old(nextId) + 1
        && rows == old(rows) + [Row(old(nextId), ticketId, user, now, success, StoredList(prUrls),
                                    errorMessage, deepseekAnalysis, claudeAnalysisPath,
                                    jiraCommentAdded, StoredList(labelsAdded))]
    {
      var i := 0;
      while i < |rows|
        invariant 0 <= i <= |rows|
        invariant forall j :: 0 <= j < i ==> !(rows[j].ticketId == ticketId && rows[j].processedAt == now)
      {
        if rows[i].ticketId == ticketId && rows[i].processedAt == now {
          assert Clashes(rows, ticketId, now);
          return Err("UNIQUE constraint failed: processed_tickets.ticket_id, processed_tickets.processed_at");
        }
        i := i + 1;
      }
      var row := Row(nextId, ticketId, user, now, success, StoredList(prUrls), errorMessage,
                     deepseekAnalysis, claudeAnalysisPath, jiraCommentAdded, StoredList(labelsAdded));
      assert !Clashes(rows, ticketId, now);
      InsertKeepsWellFormed(rows, nextId, row);
      rows := rows + [row];
      r := Ok(nextId);
      nextId := nextId + 1;
    }

    /** `get_ticket_history`: the ticket's rows, newest first. */
    method GetTicketHistory(ticketId: string) returns (history: seq<Row>)
      requires Valid()
      ensures history == ByTimeDesc(RowsOf(rows, ticketId))
    {
      var matching := [];
      var i := 0;
      while i < |rows|
        invariant 0 <= i <= |rows|
        invariant matching == RowsOf(rows[..i], ticketId)
      {
        assert rows[..i + 1][..i] == rows[..i];
        if rows[i].ticketId == ticketId {
          matching := matching + [rows[i]];
        }
        i := i + 1;
      }
      assert rows[..i] == rows;
      history := ByTimeDesc(matching);
    }

    /** `get_recent_tickets`: at most `limit` rows, newest first, of the
        given user when one is named. */
    method GetRecentTickets(limit: int, user: Option<string>) returns (recent: seq<Row>)
      requires Valid()
      ensures recent == Limit(ByTimeDesc(RowsFor(rows, user)), limit)
    {
      var matching := [];
      var i := 0;
      while i < |rows|
        invariant 0 <= i <= |rows|
        invariant matching == RowsFor(rows[..i], user)
      {
        assert rows[..i + 1][..i] == rows[..i];
        if user.None? || user.value == "" || rows[i].user == user.value {
          matching := matching + [rows[i]];
        }
        i := i + 1;
      }
      assert rows[..i] == rows;
      recent := Limit(ByTimeDesc(matching), limit);
    }

    /** `get_user_statistics`, counting over the user's rows. */
    method GetUserStatistics(user: string) returns (stats: UserStatistics)
      requires Valid()
      ensures stats == UserStatistics(user, CountUser(rows, user), CountSuccess(rows, user, true),
                                      CountSuccess(rows, user, false), |TicketsOf(rows, user)|,
                                      CountWithPrs(rows, user))
    {
      var total, successful, failed, withPrs := 0, 0, 0, 0;
      var tickets: set<string> := {};
      var i := 0;
      while i < |rows|
        invariant 0 <= i <= |rows|
        invariant total == CountUser(rows[..i], user)
        invariant successful == CountSuccess(rows[..i], user, true)
        invariant failed == CountSuccess(rows[..i], user, false)
        invariant withPrs == CountWithPrs(rows[..i], user)
        invariant tickets == TicketsOf(rows[..i], user)
      {
        assert rows[..i + 1][..i] == rows[..i];
        var row := rows[i];
        if row.user == user {
          total := total + 1;
          if row.success {
            successful := successful + 1;
          } else {
            failed := failed + 1;
          }
          if row.prUrls.Some? {
            withPrs := withPrs + 1;
          }
          tickets := tickets + {row.ticketId};
        }
        i := i + 1;
      }
      assert rows[..i] == rows;
      stats := UserStatistics(user, total, successful, failed, |tickets|, withPrs);
    }
  }
}
