/** The callback `_exec` gives the driver's `Request`: it turns the driver's
    raw `(err, count, results)` and the statement text into the shape the
    caller's callback receives. */
module ResultNormalizer {
  import opened JsValues

  /** One column of a driver row: `col.metadata.colName` and `col.value`. */
  datatype Column = Column(name: string, value: Value)

  type Row = seq<Column>

  /** A flattened row: column name to value. */
  type Record = map<string, Value>

  /** A failure reported by the driver; its content is not inspected. */
  datatype DriverError = DriverError(id: nat)

  /** What the driver hands the request callback. `rows` is None when the
      driver passes no row array (`undefined`). */
  datatype DriverReply = DriverReply(err: Option<DriverError>, count: Option<int>, rows: Option<seq<Row>>)

  /** What `results` holds when the caller's callback runs. */
  datatype Results =
    /** The driver's own `results`, not normalised. */
    | Untouched(raw: Option<seq<Row>>)
    /** `{insert_id, affected_rows, changed_rows}`; `insert_id` None is `null`. */
    | Summary(insertId: Option<seq<Record>>, affectedRows: int, changedRows: int)
    /** The flattened rows of a statement that is not an insert. */
    | Records(records: seq<Record>)

  /** The arguments `(err, results)` of the caller's callback. */
  datatype Reply = Reply(err: Option<DriverError>, results: Results)

  datatype ExecOutcome =
    | Delivered(reply: Reply)
    /** A row with no columns: `reduce` without an initial value throws a
        TypeError inside the driver callback, and the caller's callback never runs. */
    | ReduceOfEmptyRow

  /** `count ? count : 0` */
  function CountOrZero(count: Option<int>): int {
    match count
    case None => 0
    case Some(n) => n
  }

  function AsciiLower(c: char): char {
    if 'A' <= c <= 'Z' then (c as int + 32) as char else c
  }

  /** `/^kw\s/i.test(sql)` for a lower-case ASCII keyword: the `i` flag folds
      ASCII letters only. */
  predicate StartsWithKeyword(sql: string, kw: string) {
    && |sql| > |kw|
    && (forall i :: 0 <= i < |kw| ==> AsciiLower(sql[i]) == kw[i])
    && IsJsSpace(sql[|kw|])
  }

  /** Two texts that differ at most in the case of ASCII letters. */
  predicate SameIgnoringCase(s: string, t: string) {
    |s| == |t| && forall i :: 0 <= i < |s| ==> AsciiLower(s[i]) == AsciiLower(t[i])
  }

  /** `/^update\s/i.test(sql)`: the text opens with "update" in any mix of
      ASCII case, then one white-space character. */
  predicate IsUpdate(sql: string)
    ensures IsUpdate(sql) <==> |sql| > 6 && SameIgnoringCase(sql[..6], "UPDATE") && IsJsSpace(sql[6])
  {
    StartsWithKeyword(sql, "update")
  }

  /** `/^insert\s/i.test(sql)`, likewise for "insert". */
  predicate IsInsert(sql: string)
    ensures IsInsert(sql) <==> |sql| > 6 && SameIgnoringCase(sql[..6], "INSERT") && IsJsSpace(sql[6])
  {
    StartsWithKeyword(sql, "insert")
  }

  /** The statement kind does not depend on letter case. */
  lemma KindIgnoresCase(s: string, t: string)
    requires SameIgnoringCase(s, t)
    ensures IsUpdate(s) <==> IsUpdate(t)
    ensures IsInsert(s) <==> IsInsert(t)
  {
    forall i | 0 <= i < |s| ensures IsJsSpace(s[i]) <==> IsJsSpace(t[i]) {
      assert AsciiLower(s[i]) == AsciiLower(t[i]);
    }
  }

  /** No statement is both an update and an insert. */
  lemma KindsExclusive(sql: string)
    ensures !(IsUpdate(sql) && IsInsert(sql))
  {
    if IsUpdate(sql) {
      assert AsciiLower(sql[0]) == 'u';
    }
  }

  /** `row.map(col => ({[name]: value})).reduce((l, r) => Object.assign(l, r))`
      for a row with at least one column: a left-to-right merge. */
  function MergeColumns(cols: seq<Column>): Record
    requires cols != []
  {
    if |cols| == 1 then map[cols[0].name := cols[0].value]
    else MergeColumns(cols[..|cols| - 1])[cols[|cols| - 1].name := cols[|cols| - 1].value]
  }

  /** The reference reading of a flattened row: a column name maps to the value
      of the last column that carries it. */
  ghost predicate LastWriterWins(cols: seq<Column>, r: Record) {
    && (forall k :: k in r <==> exists i :: 0 <= i < |cols| && cols[i].name == k)
    && (forall i :: 0 <= i < |cols| && (forall j :: i < j < |cols| ==> cols[j].name != cols[i].name)
          ==> cols[i].name in r && r[cols[i].name] == cols[i].value)
  }

  lemma {:induction false} MergeColumnsKeys(cols: seq<Column>, k: string)
    requires cols != []
    ensures k in MergeColumns(cols) <==> exists i :: 0 <= i < |cols| && cols[i].name == k
  {
    if |cols| > 1 {
      var init, last := cols[..|cols| - 1], cols[|cols| - 1];
      MergeColumnsKeys(init, k);
      if k in MergeColumns(cols) && k != last.name {
        var i :| 0 <= i < |init| && init[i].name == k;
        assert cols[i].name == k;
      }
      if exists i :: 0 <= i < |cols| && cols[i].name == k {
        var i :| 0 <= i < |cols| && cols[i].name == k;
        if i < |init| { assert init[i].name == k; }
      }
    }
  }

  lemma {:induction false} MergeColumnsValue(cols: seq<Column>, i: nat)
    requires i < |cols|
    requires forall j :: i < j < |cols| ==> cols[j].name != cols[i].name
    ensures cols[i].name in MergeColumns(cols) && MergeColumns(cols)[cols[i].name] == cols[i].value
  {
    if i < |cols| - 1 {
      var init := cols[..|cols| - 1];
      assert init[i] == cols[i];
      assert forall j :: i < j < |init| ==> init[j] == cols[j];
      MergeColumnsValue(init, i);
    }
  }

  lemma MergeColumnsLastWriterWins(cols: seq<Column>)
    requires cols != []
    ensures LastWriterWins(cols, MergeColumns(cols))
  {
    forall k ensures k in MergeColumns(cols) <==> exists i :: 0 <= i < |cols| && cols[i].name == k {
      MergeColumnsKeys(cols, k);
    }
    forall i | 0 <= i < |cols| && (forall j :: i < j < |cols| ==> cols[j].name != cols[i].name)
      ensures cols[i].name in MergeColumns(cols) && MergeColumns(cols)[cols[i].name] == cols[i].value
    {
      MergeColumnsValue(cols, i);
    }
  }

  /** A row flattened into one record; None when the row has no columns. */
  function FlattenRow(row: Row): (r: Option<Record>)
    ensures r.None? <==> row == []
    ensures r.Some? ==> LastWriterWins(row, r.value)
  {
    if row == [] then None
    else
      MergeColumnsLastWriterWins(row);
      Some(MergeColumns(row))
  }

  /** `results.map(...)`: one record per row, in row order; None as soon as a
      row has no columns. */
  function FlattenRows(rows: seq<Row>): (r: Option<seq<Record>>)
    ensures r.None? <==> exists i :: 0 <= i < |rows| && rows[i] == []
    ensures r.Some? ==> |r.value| == |rows|
    ensures r.Some? ==> forall i :: 0 <= i < |rows| ==> FlattenRow(rows[i]) == Some(r.value[i])
  {
    if rows == [] then Some([])
    else
      match FlattenRow(rows[0])
      case None => None
      case Some(first) =>
        match FlattenRows(rows[1..])
        case None => None
        case Some(rest) => Some([first] + rest)
  }

  /** The driver callback of `_exec`. */
  function Normalize(sql: string, reply: DriverReply): (o: ExecOutcome)
    // An error or a missing row array: both handed on untouched.
    ensures reply.err.Some? || reply.rows.None? ==> o == Delivered(Reply(reply.err, Untouched(reply.rows)))
    // No rows: a summary; changed_rows is the count for an update only.
    ensures reply.err.None? && reply.rows == Some([]) ==>
      o == Delivered(Reply(None, Summary(None, CountOrZero(reply.count),
                                         if IsUpdate(sql) then CountOrZero(reply.count) else 0)))
    // Some rows: the callback never runs exactly when a row has no columns.
    ensures reply.err.None? && reply.rows.Some? && reply.rows.value != [] ==>
      (o.ReduceOfEmptyRow? <==> exists i :: 0 <= i < |reply.rows.value| && reply.rows.value[i] == [])
    // Insert with rows: the records go to insert_id; anything else gets the records.
    ensures o.Delivered? && reply.err.None? && reply.rows.Some? && reply.rows.value != [] ==>
      var rows := reply.rows.value;
      && o.reply.err.None?
      && (if IsInsert(sql)
          then o.reply.results.Summary? && o.reply.results.insertId.Some?
               && o.reply.results.affectedRows == CountOrZero(reply.count)
               && o.reply.results.changedRows == 0
          else o.reply.results.Records?)
      && var recs := if IsInsert(sql) then o.reply.results.insertId.value else o.reply.results.records;
         |recs| == |rows| && forall i :: 0 <= i < |rows| ==> LastWriterWins(rows[i], recs[i])
  {
    if reply.err.None? && reply.rows.Some? then
      var rows := reply.rows.value;
      if rows == [] then
        var changed := if IsUpdate(sql) then CountOrZero(reply.count) else 0;
        Delivered(Reply(None, Summary(None, CountOrZero(reply.count), changed)))
      else
        match FlattenRows(rows)
        case None => ReduceOfEmptyRow
        case Some(data) =>
          if IsInsert(sql) then Delivered(Reply(None, Summary(Some(data), CountOrZero(reply.count), 0)))
          else Delivered(Reply(None, Records(data)))
    else
      Delivered(Reply(reply.err, Untouched(reply.rows)))
  }

  /** changed_rows can only be non-zero for an update, and then it equals affected_rows. */
  lemma ChangedRowsOnlyOnUpdate(sql: string, reply: DriverReply)
    requires Normalize(sql, reply).Delivered? && Normalize(sql, reply).reply.results.Summary?
    ensures var s := Normalize(sql, reply).reply.results;
      s.changedRows != 0 ==> IsUpdate(sql) && s.changedRows == s.affectedRows == CountOrZero(reply.count)
  {
    var s := Normalize(sql, reply).reply.results;
    if s.changedRows != 0 && s.insertId.Some? {
      KindsExclusive(sql);
    }
  }

  /** A successful update that returns no rows reports its count twice. */
  lemma UpdateWithoutRowsIsSummary(sql: string, count: Option<int>)
    requires IsUpdate(sql)
    ensures Normalize(sql, DriverReply(None, count, Some([])))
         == Delivered(Reply(None, Summary(None, CountOrZero(count), CountOrZero(count))))
  {
  }
}
