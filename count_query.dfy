/** The callback `count` passes to `_exec`: it reads `numrows` from the first
    record of the normalised results. */
module CountQuery {
  import opened JsValues
  import opened ResultNormalizer

  datatype CountOutcome =
    /** `cb(err, row[0].numrows)` with a falsy `err`. */
    | Counted(numrows: Value)
    /** `cb(err, row)`: a driver error and the results, handed on. */
    | Forwarded(err: DriverError, results: Results)
    /** A defined error: the results hold no first record to read. */
    | NoCountRow
    /** `row[0].numrows` threw a TypeError inside the callback. */
    | CallbackThrew

  /** `row[0].numrows`; None when JavaScript throws because `row[0]` is undefined. */
  function FirstNumrows(results: Results): Option<Value> {
    match results
    case Records(data) =>
      if data == [] then None
      else Some(if "numrows" in data[0] then data[0]["numrows"] else Undefined)
    // A summary is a plain object: it has no element 0.
    case Summary(_, _, _) => None
    case Untouched(None) => None
    // A raw row is an array of columns, which has no `numrows` property.
    case Untouched(Some(rows)) => if rows == [] then None else Some(Undefined)
  }

  /** The count callback as written: it indexes `row[0]` unchecked. */
  function CountReplyAsWritten(reply: Reply): CountOutcome {
    if reply.err.None? then
      match FirstNumrows(reply.results)
      case None => CallbackThrew
      case Some(v) => Counted(v)
    else Forwarded(reply.err.value, reply.results)
  }

  /** An aggregate that returns no rows is normalised to a summary, and the
      callback as written then throws instead of reporting. */
  lemma CountOfNoRowsThrows()
    ensures var o := Normalize("select count(*) as numrows from t", DriverReply(None, Some(0), Some([])));
      && o == Delivered(Reply(None, Summary(None, 0, 0)))
      && CountReplyAsWritten(o.reply) == CallbackThrew
      && CountReply(o.reply) == NoCountRow
  {
  }

  /** The count callback with the missing row reported as an error. */
  function CountReply(reply: Reply): (c: CountOutcome)
    ensures c != CallbackThrew
    // Wherever the code as written does not throw, the two agree.
    ensures CountReplyAsWritten(reply) != CallbackThrew ==> c == CountReplyAsWritten(reply)
    ensures c == NoCountRow <==> reply.err.None? && FirstNumrows(reply.results).None?
    ensures reply.err.Some? ==> c == Forwarded(reply.err.value, reply.results)
  {
    if reply.err.None? then
      match FirstNumrows(reply.results)
      case None => NoCountRow
      case Some(v) => Counted(v)
    else Forwarded(reply.err.value, reply.results)
  }

  /** A count statement whose single row holds `numrows` reports that value. */
  lemma CountReadsFirstRow(sql: string, count: Option<int>, cols: seq<Column>, n: Value)
    requires !IsInsert(sql)
    requires cols != [] && cols[|cols| - 1] == Column("numrows", n)
    ensures var o := Normalize(sql, DriverReply(None, count, Some([cols])));
      o.Delivered? && CountReply(o.reply) == Counted(n)
  {
    var o := Normalize(sql, DriverReply(None, count, Some([cols])));
    assert o.Delivered?;
    assert LastWriterWins(cols, o.reply.results.records[0]);
  }
}
