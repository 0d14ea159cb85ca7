/** The statement loop of `update_batch`: the statements the SQL builder
    produced are taken from the front of a queue one at a time; each one's
    outcome arrives before the next starts. Failures are collected and the
    loop goes on. The first success becomes the accumulated result, and
    later successes add their row counts to it. The driver is not modelled:
    `replies[i]` is what `_exec` hands the callback of the i-th statement. */
module UpdateBatch {
  import opened JsValues
  import opened ResultNormalizer

  /** The arguments `(errors, results)` of the caller's callback; results None is `null`. */
  datatype Report = Report(errors: seq<DriverError>, results: Option<Results>)

  /** The statements the loop executes. The loop shifts before it tests the
      queue, so an empty queue still executes one `undefined` statement. */
  function Statements(sqls: seq<string>): (s: seq<Option<string>>)
    ensures |s| == if sqls == [] then 1 else |sqls|
    ensures sqls == [] ==> s == [None]
    ensures forall i :: 0 <= i < |sqls| ==> s[i] == Some(sqls[i])
  {
    if sqls == [] then [None] else seq(|sqls|, i requires 0 <= i < |sqls| => Some(sqls[i]))
  }

  /** `results.affected_rows += res.affected_rows; results.changed_rows += res.changed_rows`.
      Only two summaries are added; other shapes are excluded by Summable. */
  function AddCounts(acc: Results, res: Results): Results {
    if acc.Summary? && res.Summary? then
      Summary(acc.insertId, acc.affectedRows + res.affectedRows, acc.changedRows + res.changedRows)
    else acc
  }

  /** What one statement's callback does to `errors` and `results`. */
  function Absorb(rep: Report, r: Reply): Report {
    if r.err.Some? then Report(rep.errors + [r.err.value], rep.results)
    else if rep.results.None? then Report(rep.errors, Some(r.results))
    else Report(rep.errors, Some(AddCounts(rep.results.value, r.results)))
  }

  /** The state after the callbacks of all the given replies, in order. */
  function Fold(replies: seq<Reply>): Report {
    if replies == [] then Report([], None)
    else Absorb(Fold(replies[..|replies| - 1]), replies[|replies| - 1])
  }

  /** The errors of the failing statements, in statement order. */
  function Failures(replies: seq<Reply>): seq<DriverError> {
    if replies == [] then []
    else (if replies[0].err.Some? then [replies[0].err.value] else []) + Failures(replies[1..])
  }

  /** The results of the successful statements, in statement order. */
  function Successes(replies: seq<Reply>): seq<Results> {
    if replies == [] then []
    else (if replies[0].err.None? then [replies[0].results] else []) + Successes(replies[1..])
  }

  function SumAffected(rs: seq<Results>): int {
    if rs == [] then 0 else (if rs[0].Summary? then rs[0].affectedRows else 0) + SumAffected(rs[1..])
  }

  function SumChanged(rs: seq<Results>): int {
    if rs == [] then 0 else (if rs[0].Summary? then rs[0].changedRows else 0) + SumChanged(rs[1..])
  }

  /** The counts are only ever added when every success is a row-count
      summary: with two or more successes, all of them are summaries. (In
      JavaScript, `+=` on a missing count gives NaN, and on an undefined
      result it throws.) */
  predicate Summable(replies: seq<Reply>) {
    var s := Successes(replies);
    |s| >= 2 ==> forall k :: 0 <= k < |s| ==> s[k].Summary?
  }

  lemma {:induction false} FailuresSnoc(init: seq<Reply>, r: Reply)
    ensures Failures(init + [r]) == Failures(init) + (if r.err.Some? then [r.err.value] else [])
  {
    if init != [] {
      assert (init + [r])[1..] == init[1..] + [r];
      FailuresSnoc(init[1..], r);
    }
  }

  lemma {:induction false} SuccessesSnoc(init: seq<Reply>, r: Reply)
    ensures Successes(init + [r]) == Successes(init) + (if r.err.None? then [r.results] else [])
  {
    if init != [] {
      assert (init + [r])[1..] == init[1..] + [r];
      SuccessesSnoc(init[1..], r);
    }
  }

  lemma {:induction false} SumsSnoc(rs: seq<Results>, x: Results)
    requires x.Summary?
    ensures SumAffected(rs + [x]) == SumAffected(rs) + x.affectedRows
    ensures SumChanged(rs + [x]) == SumChanged(rs) + x.changedRows
  {
    if rs != [] {
      assert (rs + [x])[1..] == rs[1..] + [x];
      SumsSnoc(rs[1..], x);
    }
  }

  /** `errors` receives every failure, in order, and nothing else. */
  lemma {:induction false} FoldErrors(replies: seq<Reply>)
    ensures Fold(replies).errors == Failures(replies)
  {
    if replies != [] {
      var init, last := replies[..|replies| - 1], replies[|replies| - 1];
      assert replies == init + [last];
      FoldErrors(init);
      FailuresSnoc(init, last);
    }
  }

  /** The reference value of `results` for the given successes, in order:
      null with none, the one result with one, and with more the first
      result's insert_id carrying the sums of all row counts. */
  function Expected(s: seq<Results>): Option<Results> {
    if s == [] then None
    else if |s| == 1 then Some(s[0])
    else Some(Summary(if s[0].Summary? then s[0].insertId else None, SumAffected(s), SumChanged(s)))
  }

  lemma ExpectedSnoc(s0: seq<Results>, x: Results)
    requires s0 != [] && s0[0].Summary? && x.Summary?
    ensures Expected(s0 + [x]) == Some(AddCounts(Expected(s0).value, x))
  {
    var s := s0 + [x];
    assert s[0] == s0[0];
    SumsSnoc(s0, x);
    if |s0| == 1 {
      assert s0[1..] == [];
    }
  }

  /** `results` follows the reference reading of the successes. */
  lemma {:induction false} FoldResults(replies: seq<Reply>)
    requires Summable(replies)
    ensures Fold(replies).results == Expected(Successes(replies))
  {
    if replies != [] {
      var init, last := replies[..|replies| - 1], replies[|replies| - 1];
      assert replies == init + [last];
      SuccessesSnoc(init, last);
      var s0, s := Successes(init), Successes(replies);
      assert Summable(init) by {
        if |s0| >= 2 {
          forall k | 0 <= k < |s0| ensures s0[k].Summary? {
            assert s[k] == s0[k];
          }
        }
      }
      FoldResults(init);
      if last.err.None? && s0 != [] {
        assert s == s0 + [last.results];
        assert s[|s0|] == last.results && s[0] == s0[0] && |s| >= 2;
        ExpectedSnoc(s0, last.results);
        assert Fold(replies) == Absorb(Fold(init), last);
      } else if last.err.None? {
        assert s == [last.results];
      } else {
        assert s == s0;
      }
    }
  }

  /** What the callback receives after all the given replies: the failures'
      errors in order, and the results the successes add up to. */
  lemma FoldReport(replies: seq<Reply>)
    requires Summable(replies)
    ensures Fold(replies).errors == Failures(replies)
    ensures Fold(replies).results.None? <==> Successes(replies) == []
    ensures |Successes(replies)| == 1 ==> Fold(replies).results == Some(Successes(replies)[0])
    ensures |Successes(replies)| >= 2 ==>
      var s := Successes(replies);
      Fold(replies).results == Some(Summary(s[0].insertId, SumAffected(s), SumChanged(s)))
  {
    FoldErrors(replies);
    FoldResults(replies);
  }

  /** One invocation of the caller's callback, with how many statements had
      been executed when it ran. */
  datatype Call = Call(afterStatements: nat, report: Report)

  /** The loop of `update_batch`, with `results` assignable and `next_batch`
      running with the query object as `this`. `executed` lists the statements
      in the order they run and `calls` the invocations of the caller's callback. */
  method RunBatch(sqls: seq<string>, replies: seq<Reply>) returns (executed: seq<Option<string>>, calls: seq<Call>)
    requires |replies| == |Statements(sqls)|
    requires Summable(replies)
    // Every statement runs, in queue order, whatever failed before it.
    ensures executed == Statements(sqls)
    // The callback runs exactly once, after the last statement.
    ensures calls == [Call(|executed|, Fold(replies))]
    ensures calls[0].report.errors == Failures(replies)
    // results: null with no success, the one result with one success, and
    // with more the first success's result carrying the summed row counts.
    ensures calls[0].report.results.None? <==> Successes(replies) == []
    ensures |Successes(replies)| == 1 ==> calls[0].report.results == Some(Successes(replies)[0])
    ensures |Successes(replies)| >= 2 ==>
      var s := Successes(replies);
      calls[0].report.results == Some(Summary(s[0].insertId, SumAffected(s), SumChanged(s)))
  {
    var queue := sqls;
    var errors: seq<DriverError> := [];
    var results: Option<Results> := None;
    executed, calls := [], [];
    var pending := true;
    while pending
      invariant |executed| <= |replies|
      invariant executed == Statements(sqls)[..|executed|]
      invariant pending ==> |executed| < |replies| && queue == sqls[|executed|..]
      invariant Report(errors, results) == Fold(replies[..|executed|])
      invariant pending ==> calls == []
      invariant !pending ==> |executed| == |replies| && calls == [Call(|executed|, Report(errors, results))]
      decreases |queue| + (if pending then 1 else 0)
    {
      var sql: Option<string> := None;
      if queue != [] {
        sql := Some(queue[0]);
        queue := queue[1..];
      }
      var reply := replies[|executed|];
      assert replies[..|executed| + 1] == replies[..|executed|] + [reply];
      executed := executed + [sql];
      if reply.err.Some? {
        errors := errors + [reply.err.value];
      } else if results.None? {
        results := Some(reply.results);
      } else {
        results := Some(AddCounts(results.value, reply.results));
      }
      if queue == [] {
        pending := false;
        calls := calls + [Call(|executed|, Report(errors, results))];
      }
    }
    assert replies[..|executed|] == replies;
    FoldReport(replies);
  }

  /** A batch of three updates whose second fails. */
  lemma ThreeStatementExample()
    ensures Fold([Reply(None, Summary(None, 5, 2)),
                  Reply(Some(DriverError(2)), Untouched(None)),
                  Reply(None, Summary(None, 3, 1))])
         == Report([DriverError(2)], Some(Summary(None, 8, 3)))
  {
    var rs := [Reply(None, Summary(None, 5, 2)), Reply(Some(DriverError(2)), Untouched(None)),
               Reply(None, Summary(None, 3, 1))];
    assert rs[..2][..1] == rs[..1] && rs[..1][..0] == [];
    assert Fold(rs[..1]) == Report([], Some(Summary(None, 5, 2)));
    assert Fold(rs[..2]) == Report([DriverError(2)], Some(Summary(None, 5, 2)));
    assert rs[..3] == rs;
  }

  // ---------------------------------------------------- the code as written

  datatype BatchEnd =
    | Completed(report: Report)
    /** A TypeError is thrown before the statement of this index runs. */
    | ThrewBeforeStatement(index: nat)
    /** A TypeError is thrown inside the callback of this statement; the
        caller's callback is never invoked. */
    | ThrewInCallback(index: nat)

  /** `update_batch` as written: `next_batch` is a plain function expression
      invoked with no receiver inside class code, which is strict, so `this` is
      undefined and `this.reset_query(sql)` throws before any statement runs. */
  function RunBatchAsWritten(sqls: seq<string>, replies: seq<Reply>): BatchEnd {
    ThrewBeforeStatement(0)
  }

  /** A one-statement batch that would succeed never gets started. */
  lemma RunBatchAsWrittenNeverStarts()
    ensures RunBatchAsWritten(["update t set a = 1"], [Reply(None, Summary(None, 1, 1))]) == ThrewBeforeStatement(0)
    ensures Fold([Reply(None, Summary(None, 1, 1))]) == Report([], Some(Summary(None, 1, 1)))
  {
  }

  /** The index of the first successful statement. */
  function FirstSuccess(replies: seq<Reply>): (i: Option<nat>)
    ensures i.Some? ==> i.value < |replies| && replies[i.value].err.None?
    ensures i.None? <==> Successes(replies) == []
  {
    if replies == [] then None
    else if replies[0].err.None? then Some(0)
    else match FirstSuccess(replies[1..])
      case None => None
      case Some(j) => Some(j + 1)
  }

  /** The loop with `this` bound but `results` still declared `const`: the
      first success assigns to a constant and throws. */
  function RunBatchConstAsWritten(replies: seq<Reply>): BatchEnd {
    match FirstSuccess(replies)
    case Some(i) => ThrewInCallback(i)
    case None => Completed(Report(Failures(replies), None))
  }

  /** With `const results`, the batch reports only when no statement succeeds;
      then it agrees with the intended loop. */
  lemma RunBatchConstAsWrittenCompletesOnlyOnFailure(replies: seq<Reply>)
    ensures RunBatchConstAsWritten(replies).Completed? <==> Successes(replies) == []
    ensures RunBatchConstAsWritten(replies).Completed? ==> RunBatchConstAsWritten(replies).report == Fold(replies)
  {
    FoldErrors(replies);
    if Successes(replies) == [] {
      FoldResults(replies);
    }
  }
}
