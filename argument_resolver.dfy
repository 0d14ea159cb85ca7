/** How each overloaded public method of the query-execution layer decides
    which trailing argument is its callback, which optional arguments take a
    default, and when it throws before any SQL is built. An argument the
    caller leaves out is `Undefined`. */
module ArgumentResolver {
  import opened JsValues

  datatype UsageError =
    | GetNoCallback
    | GetWhereBadTable
    | GetWhereBadWhere
    | InsertIgnoreUnsupported
    | InsertBatchIgnoreUnsupported
    | InsertBatchOnDupeUnsupported
    | UpdateNoCallback
    | UpdateBatchNoCallback
    | DeleteNoCallback

  /** The text of the `Error` each usage error throws. */
  function Message(e: UsageError): string {
    match e
    case GetNoCallback => "No cb function has been provided in your 'get' call!"
    case GetWhereBadTable => "First parameter of get_where() must be a string or an array of strings."
    case GetWhereBadWhere => "Second parameter of get_where() must be an object with key:value pairs."
    case InsertIgnoreUnsupported => "insert_ignore(): This feature is currently unsupported in the MSSQL driver."
    case InsertBatchIgnoreUnsupported => "QE insert_batch(): INSERT IGNORE is currently unsupported on the MSSQL driver."
    case InsertBatchOnDupeUnsupported =>
      "QE insert_batch(): 'on_dupe' string (4th parameter) is currently unsupported on the MSSQL driver."
    case UpdateNoCallback => "No cb function has been provided in your update call!"
    case UpdateBatchNoCallback => "No cb function has been provided in your update_batch call!"
    case DeleteNoCallback => "delete(): No callback function has been provided!"
  }

  datatype Thrown =
    | Usage(error: UsageError)
    /** Reading an identifier that is declared nowhere. */
    | ReferenceError(identifier: string)

  /** The undeclared identifier the `insert_batch` checks read. */
  const Suffix: string := "suffix"

  datatype Resolution<T> = Resolved(args: T) | Threw(thrown: Thrown)

  // ---------------------------------------------------------------- get

  datatype GetArgs = GetArgs(table: Value, cb: Value)

  /** `get(table, cb)`: the table may be left out and the callback passed first. */
  function ResolveGet(table: Value, cb: Value): (r: Resolution<GetArgs>)
    ensures r.Threw? <==> table == Undefined && !IsFunction(cb)
    ensures r.Threw? ==> r.thrown == Usage(GetNoCallback)
    // The table is handed on as given, even when it was taken as the callback.
    ensures r.Resolved? ==> r.args.table == table
    // A function callback wins; otherwise a function table becomes the callback.
    ensures r.Resolved? && IsFunction(cb) ==> r.args.cb == cb
    ensures r.Resolved? && !IsFunction(cb) ==> r.args.cb == (if IsFunction(table) then table else cb)
  {
    if IsFunction(table) && !IsFunction(cb) then Resolved(GetArgs(table, table))
    else if table == Undefined && !IsFunction(cb) then Threw(Usage(GetNoCallback))
    else Resolved(GetArgs(table, cb))
  }

  lemma ResolveGetIdempotent(table: Value, cb: Value)
    requires ResolveGet(table, cb).Resolved?
    ensures var a := ResolveGet(table, cb).args; ResolveGet(a.table, a.cb) == Resolved(a)
  {
  }

  // ---------------------------------------------------------- get_where

  datatype GetWhereArgs = GetWhereArgs(table: Value, where: Value, cb: Value)

  /** `get_where(table, where, cb)`: the table must be a string or an array and
      `where` a plain object; the table is checked first. */
  function ResolveGetWhere(table: Value, where: Value, cb: Value): (r: Resolution<GetWhereArgs>)
    ensures r == Threw(Usage(GetWhereBadTable)) <==> !table.Str? && !table.Arr?
    ensures r == Threw(Usage(GetWhereBadWhere)) <==> (table.Str? || table.Arr?) && !IsPlainObject(where)
    // Every other input resolves, with its arguments unchanged.
    ensures r.Resolved? <==> (table.Str? || table.Arr?) && IsPlainObject(where)
    ensures r.Threw? ==> r.thrown.Usage?
    ensures r.Resolved? ==> r.args == GetWhereArgs(table, where, cb)
  {
    if TypeOf(table) != StringType && !table.Arr? then Threw(Usage(GetWhereBadTable))
    else if !IsPlainObject(where) then Threw(Usage(GetWhereBadWhere))
    else Resolved(GetWhereArgs(table, where, cb))
  }

  // ------------------------------------------------------- insert_ignore

  /** `insert_ignore(table, payload, on_dupe, cb)` is unsupported by this driver. */
  function ResolveInsertIgnore(table: Value, payload: Value, onDupe: Value, cb: Value): (r: Resolution<()>)
    ensures r == Threw(Usage(InsertIgnoreUnsupported))
  {
    Threw(Usage(InsertIgnoreUnsupported))
  }

  // -------------------------------------------------------- insert_batch

  datatype InsertBatchArgs = InsertBatchArgs(table: Value, payload: Value, ignore: Value, onDupe: Value, cb: Value)

  /** The callback shuffle of `insert_batch(table, payload, ignore, on_dupe, cb)`:
      a function `ignore`, or else a function `on_dupe`, is the callback, and
      the slot it came from becomes null. */
  function ShiftInsertBatchCallback(table: Value, payload: Value, ignore: Value, onDupe: Value, cb: Value): InsertBatchArgs {
    if IsFunction(ignore) then InsertBatchArgs(table, payload, Null, onDupe, ignore)
    else if IsFunction(onDupe) then InsertBatchArgs(table, payload, ignore, Null, onDupe)
    else InsertBatchArgs(table, payload, ignore, onDupe, cb)
  }

  /** The argument checks of `insert_batch` as the code is written: after the
      `ignore` check it tests `suffix`, an identifier declared nowhere. */
  function ResolveInsertBatchAsWritten(table: Value, payload: Value, ignore: Value, onDupe: Value, cb: Value)
    : Resolution<InsertBatchArgs>
  {
    var a := ShiftInsertBatchCallback(table, payload, ignore, onDupe, cb);
    if Truthy(a.ignore) then Threw(Usage(InsertBatchIgnoreUnsupported))
    else Threw(ReferenceError(Suffix))
  }

  /** As written, `insert_batch` never reaches the SQL builder. */
  lemma InsertBatchAsWrittenNeverResolves(table: Value, payload: Value, ignore: Value, onDupe: Value, cb: Value)
    ensures ResolveInsertBatchAsWritten(table, payload, ignore, onDupe, cb).Threw?
  {
  }

  /** Whenever the `ignore` check passes, the `suffix` test throws. */
  lemma InsertBatchAsWrittenReadsSuffix(table: Value, payload: Value, ignore: Value, onDupe: Value, cb: Value)
    requires !Truthy(ignore) || IsFunction(ignore)
    ensures ResolveInsertBatchAsWritten(table, payload, ignore, onDupe, cb) == Threw(ReferenceError(Suffix))
  {
    var a := ShiftInsertBatchCallback(table, payload, ignore, onDupe, cb);
    if IsFunction(ignore) {
      assert a == InsertBatchArgs(table, payload, Null, onDupe, ignore);
    } else if IsFunction(onDupe) {
      assert a == InsertBatchArgs(table, payload, ignore, Null, onDupe);
    } else {
      assert a == InsertBatchArgs(table, payload, ignore, onDupe, cb);
    }
  }

  /** The plainest call, `insert_batch(table, rows, cb)`, throws as written and
      resolves once the test reads `on_dupe`. */
  lemma InsertBatchPlainCallThrows()
    ensures ResolveInsertBatchAsWritten(Str("t"), Arr([]), Func(0), Undefined, Undefined)
         == Threw(ReferenceError(Suffix))
    ensures ResolveInsertBatch(Str("t"), Arr([]), Func(0), Undefined, Undefined)
         == Resolved(InsertBatchArgs(Str("t"), Arr([]), Null, Undefined, Func(0)))
  {
  }

  /** `insert_batch` with its second check reading `on_dupe`, as its message says. */
  function ResolveInsertBatch(table: Value, payload: Value, ignore: Value, onDupe: Value, cb: Value)
    : (r: Resolution<InsertBatchArgs>)
    // A truthy `ignore` that is not the callback is refused.
    ensures r == Threw(Usage(InsertBatchIgnoreUnsupported)) <==> !IsFunction(ignore) && Truthy(ignore)
    // So is a truthy `on_dupe` that is not the callback.
    ensures r == Threw(Usage(InsertBatchOnDupeUnsupported)) <==>
      (IsFunction(ignore) || !Truthy(ignore)) && Truthy(onDupe) && (IsFunction(ignore) || !IsFunction(onDupe))
    // Every input that meets neither refusal resolves.
    ensures r.Resolved? <==>
      (IsFunction(ignore) || !Truthy(ignore)) && !(Truthy(onDupe) && (IsFunction(ignore) || !IsFunction(onDupe)))
    ensures r.Threw? ==> r.thrown.Usage?
    ensures r.Resolved? ==> r.args.table == table && r.args.payload == payload
    ensures r.Resolved? ==> !Truthy(r.args.ignore) && !Truthy(r.args.onDupe)
    // The callback is the first function among ignore, on_dupe, else cb.
    ensures r.Resolved? ==>
      r.args.cb == (if IsFunction(ignore) then ignore else if IsFunction(onDupe) then onDupe else cb)
  {
    var a := ShiftInsertBatchCallback(table, payload, ignore, onDupe, cb);
    if Truthy(a.ignore) then Threw(Usage(InsertBatchIgnoreUnsupported))
    else if Truthy(a.onDupe) then Threw(Usage(InsertBatchOnDupeUnsupported))
    else Resolved(a)
  }

  lemma ResolveInsertBatchIdempotent(table: Value, payload: Value, ignore: Value, onDupe: Value, cb: Value)
    requires ResolveInsertBatch(table, payload, ignore, onDupe, cb).Resolved?
    ensures var a := ResolveInsertBatch(table, payload, ignore, onDupe, cb).args;
      ResolveInsertBatch(a.table, a.payload, a.ignore, a.onDupe, a.cb) == Resolved(a)
  {
  }

  // ------------------------------------------------- update, update_batch

  /** A `where` that update and update_batch replace by null: undefined,
      false, or an object whose `length` is loosely 0. */
  predicate IsEmptyWhere(where: Value) {
    || where == Undefined
    || where == Bool(false)
    || (where != Null && TypeOf(where) == ObjectType && LengthLooselyZero(where))
  }

  datatype WhereAndCallback = WhereAndCallback(where: Value, cb: Value)

  /** The optional-`where` rule shared by update and update_batch. None: no
      callback was given. */
  function ResolveOptionalWhere(where: Value, cb: Value): (r: Option<WhereAndCallback>)
    ensures r.None? <==> where == Undefined && !IsFunction(cb)
    // A function in the where slot is the callback when cb is not one.
    ensures IsFunction(where) && !IsFunction(cb) ==> r == Some(WhereAndCallback(Null, where))
    // Otherwise the callback stays, and an empty where becomes null.
    ensures r.Some? && !(IsFunction(where) && !IsFunction(cb)) ==>
      r.value.cb == cb && r.value.where == (if IsEmptyWhere(where) then Null else where)
    // The where handed to the builder is never undefined, false or of length 0.
    ensures r.Some? ==> !IsEmptyWhere(r.value.where)
  {
    if IsFunction(where) && !IsFunction(cb) then Some(WhereAndCallback(Null, where))
    else if TypeOf(where) == UndefinedType && !IsFunction(cb) then None
    else if IsEmptyWhere(where) then Some(WhereAndCallback(Null, cb))
    else Some(WhereAndCallback(where, cb))
  }

  lemma ResolveOptionalWhereIdempotent(where: Value, cb: Value)
    requires ResolveOptionalWhere(where, cb).Some?
    ensures var a := ResolveOptionalWhere(where, cb).value; ResolveOptionalWhere(a.where, a.cb) == Some(a)
  {
  }

  datatype UpdateArgs = UpdateArgs(table: Value, payload: Value, where: Value, cb: Value)

  /** `update(table, payload, where, cb)` */
  function ResolveUpdate(table: Value, payload: Value, where: Value, cb: Value): (r: Resolution<UpdateArgs>)
    ensures r.Threw? <==> where == Undefined && !IsFunction(cb)
    ensures r.Threw? ==> r.thrown == Usage(UpdateNoCallback)
    ensures r.Resolved? ==> r.args.table == table && r.args.payload == payload
    ensures r.Resolved? ==> Some(WhereAndCallback(r.args.where, r.args.cb)) == ResolveOptionalWhere(where, cb)
  {
    match ResolveOptionalWhere(where, cb)
    case None => Threw(Usage(UpdateNoCallback))
    case Some(wc) => Resolved(UpdateArgs(table, payload, wc.where, wc.cb))
  }

  datatype UpdateBatchArgs = UpdateBatchArgs(table: Value, payload: Value, index: Value, where: Value, cb: Value)

  /** `update_batch(table, payload, index, where, cb)` */
  function ResolveUpdateBatch(table: Value, payload: Value, index: Value, where: Value, cb: Value)
    : (r: Resolution<UpdateBatchArgs>)
    ensures r.Threw? <==> where == Undefined && !IsFunction(cb)
    ensures r.Threw? ==> r.thrown == Usage(UpdateBatchNoCallback)
    ensures r.Resolved? ==> r.args.table == table && r.args.payload == payload && r.args.index == index
    ensures r.Resolved? ==> Some(WhereAndCallback(r.args.where, r.args.cb)) == ResolveOptionalWhere(where, cb)
  {
    match ResolveOptionalWhere(where, cb)
    case None => Threw(Usage(UpdateBatchNoCallback))
    case Some(wc) => Resolved(UpdateBatchArgs(table, payload, index, wc.where, wc.cb))
  }

  // -------------------------------------------------------------- delete

  datatype DeleteArgs = DeleteArgs(table: Value, where: Value, cb: Value)

  /** `delete(table, where, cb)`: both the table and where may be left out. */
  function ResolveDelete(table: Value, where: Value, cb: Value): (r: Resolution<DeleteArgs>)
    // It throws exactly when no argument is a function.
    ensures r.Threw? <==> !IsFunction(table) && !IsFunction(where) && !IsFunction(cb)
    ensures r.Threw? ==> r.thrown == Usage(DeleteNoCallback)
    // The callback is the last function argument; the slots before it keep
    // their values, and the where slot is cleared when the callback came from
    // the where or table slot.
    ensures IsFunction(cb) ==> r == Resolved(DeleteArgs(table, where, cb))
    ensures !IsFunction(cb) && IsFunction(where) ==> r == Resolved(DeleteArgs(table, Undefined, where))
    ensures !IsFunction(cb) && !IsFunction(where) && IsFunction(table) ==>
      r == Resolved(DeleteArgs(Undefined, Undefined, table))
    ensures r.Resolved? ==> IsFunction(r.args.cb)
  {
    var (w1, c1) := if IsFunction(where) && !IsFunction(cb) then (Undefined, where) else (where, cb);
    var (t2, w2, c2) := if IsFunction(table) && !IsFunction(c1) then (Undefined, Undefined, table) else (table, w1, c1);
    if !IsFunction(c2) then Threw(Usage(DeleteNoCallback))
    else Resolved(DeleteArgs(t2, w2, c2))
  }

  lemma ResolveDeleteIdempotent(table: Value, where: Value, cb: Value)
    requires ResolveDelete(table, where, cb).Resolved?
    ensures var a := ResolveDelete(table, where, cb).args; ResolveDelete(a.table, a.where, a.cb) == Resolved(a)
  {
  }

  // --------------------------------------------------------------- count

  datatype CountArgs = CountArgs(table: Value, cb: Value)

  /** `count(table, cb)` as written: `table = null` runs before `cb = table`. */
  function ResolveCountAsWritten(table: Value, cb: Value): CountArgs {
    if IsFunction(table) && !IsFunction(cb) then
      var table' := Null;
      CountArgs(table', table')
    else CountArgs(table, cb)
  }

  /** As written, `count(cb)` drops the callback it was given. */
  lemma CountAsWrittenLosesCallback(f: nat)
    ensures ResolveCountAsWritten(Func(f), Undefined) == CountArgs(Null, Null)
    ensures ResolveCount(Func(f), Undefined) == CountArgs(Null, Func(f))
  {
  }

  /** `count(table, cb)` with the two assignments in the intended order. */
  function ResolveCount(table: Value, cb: Value): (r: CountArgs)
    // Whenever a function is passed, the resolved callback is a function.
    ensures IsFunction(r.cb) <==> IsFunction(table) || IsFunction(cb)
    ensures IsFunction(cb) ==> r == CountArgs(table, cb)
    ensures IsFunction(table) && !IsFunction(cb) ==> r == CountArgs(Null, table)
    ensures !IsFunction(table) ==> r == CountArgs(table, cb)
  {
    if IsFunction(table) && !IsFunction(cb) then CountArgs(Null, table)
    else CountArgs(table, cb)
  }
}
