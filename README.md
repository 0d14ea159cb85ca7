# Query execution for the MSSQL driver of node-querybuilder, in Dafny

This project models the query-execution layer of the `mssql` driver
(`drivers/mssql/query_exec.js`). That layer sits between the SQL text built by
the query builder and one live `tedious` connection. The model has five
modules:

- `JsValues` (`js_values.dfy`) models the JavaScript values the layer looks at.
  It covers `typeof`, truthiness, the plain-object test, `where.length == 0`
  under loose equality, and the white space `\s` matches.
- `ResultNormalizer` (`result_normalizer.dfy`) models the callback `_exec`
  gives the driver's `Request`. It turns the driver's `(err, count, results)`
  and the statement text into what the caller's callback receives:
  - an error, or a missing row array, is handed on untouched;
  - an empty row list becomes `{insert_id: null, affected_rows, changed_rows}`;
  - otherwise each row is flattened into one column-name-to-value record, and
    for an insert the records go into `insert_id`.
- `ArgumentResolver` (`argument_resolver.dfy`) models how `get`, `get_where`,
  `insert_ignore`, `insert_batch`, `update`, `update_batch`, `delete` and
  `count` pick their callback among the trailing arguments, fill defaults, or
  throw before any SQL is built. `Message` gives the exact text of each usage
  error.
- `UpdateBatch` (`update_batch.dfy`) models the statement loop of
  `update_batch` as a method with a `while` loop. The loop takes statements
  from the front of the queue one at a time and collects every error without
  stopping. The first success becomes the result, and later successes add
  their `affected_rows` and `changed_rows` to it. The callback runs once, when
  the queue is empty. The method is proved against the reference functions
  `Fold`, `Failures`, `Successes` and `Expected`.
- `CountQuery` (`count_query.dfy`) models the callback `count` hands to
  `_exec`. It exists only for the findings below.

The driver, the connection and the SQL builder are not modelled. The statement
texts and the per-statement outcomes are inputs. Outcome `i` arrives before
statement `i + 1` starts, which is how `setTimeout` chains the statements.

Points where the code behaves differently from what its names suggest; the
model follows the code:

- `get(cb)` leaves `table` equal to the callback function, not null.
- `update_batch` shifts a statement from the queue before it tests whether the
  queue is empty. So an empty queue still executes one `undefined` statement;
  it does not complete at once.
- `get_where` checks only `Array.isArray(table)`. It does not check that the
  elements are strings.
- `_exec` works out the statement kind from the text itself, with
  `/^update\s/i` and `/^insert\s/i`, not from how the statement was built.
- `delete` clears `where` to `undefined`, not to null.

## Model

| member | source | states |
|---|---|---|
| `ResultNormalizer.Normalize` | drivers/mssql/query_exec.js:14-37 | An error or a missing row array reaches the callback unchanged. An empty row list gives `{insert_id: null, affected_rows: count or 0, changed_rows}`, where `changed_rows` is the count for an update and 0 otherwise. With rows, the callback never runs exactly when some row has no columns. Otherwise there is one record per row, each the last-writer-wins flattening of its row. An insert puts the records in `insert_id` with `affected_rows` = count or 0 and `changed_rows` 0. Any other statement delivers the records themselves. |
| `ResultNormalizer.FlattenRows` | drivers/mssql/query_exec.js:27 | `results.map(...)` gives one record per row, in row order. It fails exactly when some row has no columns. |
| `ResultNormalizer.FlattenRow` | drivers/mssql/query_exec.js:27 | A row's `reduce` with `Object.assign` fails exactly on a row with no columns. Otherwise the record holds every column name of the row and maps it to the value of its last column. |
| `ResultNormalizer.MergeColumnsLastWriterWins` | drivers/mssql/query_exec.js:27 | The left-to-right merge satisfies the last-writer-wins reading: its keys are exactly the row's column names, and a later duplicate name overwrites an earlier one. |
| `ResultNormalizer.MergeColumnsKeys` | drivers/mssql/query_exec.js:27 | A name is a key of the merged record if and only if some column carries it. |
| `ResultNormalizer.MergeColumnsValue` | drivers/mssql/query_exec.js:27 | A column that no later column shadows gives its value to the merged record. |
| `ResultNormalizer.IsUpdate` | drivers/mssql/query_exec.js:24 | `/^update\s/i` holds exactly when the first six characters equal "UPDATE" up to the case of ASCII letters and the seventh is a JavaScript white-space or line-terminator character (via `StartsWithKeyword`, which folds ASCII letters only). |
| `ResultNormalizer.IsInsert` | drivers/mssql/query_exec.js:28 | `/^insert\s/i` holds exactly when the first six characters equal "INSERT" up to the case of ASCII letters and the seventh is a JavaScript white-space or line-terminator character. |
| `ResultNormalizer.KindIgnoresCase` | drivers/mssql/query_exec.js:24 | The `/^update\s/i` and `/^insert\s/i` tests give the same answer for two texts that differ only in the case of ASCII letters. |
| `ResultNormalizer.KindsExclusive` | drivers/mssql/query_exec.js:28 | No statement text is both an update and an insert. |
| `ResultNormalizer.ChangedRowsOnlyOnUpdate` | drivers/mssql/query_exec.js:17-29 | In any summary the normaliser produces, a non-zero `changed_rows` means the statement is an update, and then it equals `affected_rows` and the driver's count. |
| `ResultNormalizer.UpdateWithoutRowsIsSummary` | drivers/mssql/query_exec.js:17-25 | A successful update with no rows returns `{insert_id: null}` with both counts equal to the driver's count or 0. |
| `ArgumentResolver.ResolveGet` | drivers/mssql/query_exec.js:76-84 | `get` throws exactly when the table is undefined and `cb` is not a function. The table is passed on unchanged. A function `cb` stays the callback. Otherwise a function table becomes the callback. |
| `ArgumentResolver.ResolveGetIdempotent` | drivers/mssql/query_exec.js:76-84 | Resolving `get`'s resolved arguments again changes nothing. |
| `ArgumentResolver.ResolveGetWhere` | drivers/mssql/query_exec.js:90-96 | `get_where` rejects a table that is neither a string nor an array. Given a good table, it rejects a `where` that is not a plain object. It resolves exactly when the table is a string or an array and `where` is a plain object, and then passes all three arguments on unchanged; it throws no other error. |
| `ArgumentResolver.ResolveInsertIgnore` | drivers/mssql/query_exec.js:108-109 | `insert_ignore` throws its unsupported-feature error on every input. |
| `ArgumentResolver.ResolveInsertBatch` | drivers/mssql/query_exec.js:119-134 | A truthy `ignore` that is not the callback is refused, and so is a truthy `on_dupe` that is not the callback. Every input that meets neither refusal resolves, and no other error is thrown. On success, table and rows are unchanged and neither option is truthy. The callback is `ignore` if it is a function, else `on_dupe` if it is one, else `cb`. |
| `ArgumentResolver.ResolveInsertBatchIdempotent` | drivers/mssql/query_exec.js:119-127 | Resolving `insert_batch`'s resolved arguments again changes nothing. |
| `ArgumentResolver.InsertBatchAsWrittenNeverResolves` | drivers/mssql/query_exec.js:119-130 | As written, `insert_batch` throws on every input. |
| `ArgumentResolver.InsertBatchAsWrittenReadsSuffix` | drivers/mssql/query_exec.js:119-130 | As written, every call whose `ignore` is falsy or is the callback throws a ReferenceError for `suffix`. |
| `ArgumentResolver.InsertBatchPlainCallThrows` | drivers/mssql/query_exec.js:119-130 | `insert_batch('t', [], cb)` throws a ReferenceError as written. Once line 130 tests `on_dupe`, the same call resolves with `cb` as the callback. |
| `ArgumentResolver.ResolveOptionalWhere` | drivers/mssql/query_exec.js:139-148 | There is no resolution exactly when `where` is undefined and `cb` is not a function. A function `where` with no function `cb` becomes the callback, and `where` becomes null. Otherwise `cb` stays and an undefined, `false` or zero-length `where` becomes null. The resolved `where` is never undefined, `false` or of length 0. |
| `ArgumentResolver.ResolveOptionalWhereIdempotent` | drivers/mssql/query_exec.js:139-148 | Resolving the resolved `where` and callback again changes nothing. |
| `ArgumentResolver.ResolveUpdate` | drivers/mssql/query_exec.js:137-150 | `update` throws its no-callback error exactly when `where` is undefined and `cb` is not a function. Table and payload pass unchanged, and `where` and the callback follow the optional-where rule. |
| `ArgumentResolver.ResolveUpdateBatch` | drivers/mssql/query_exec.js:156-169 | `update_batch` throws its own no-callback error exactly when `where` is undefined and `cb` is not a function. Table, payload and index pass unchanged, and `where` and the callback follow the optional-where rule. |
| `ArgumentResolver.ResolveDelete` | drivers/mssql/query_exec.js:199-215 | `delete` throws exactly when none of its three arguments is a function. The callback is the last function argument. The `where` slot is cleared when the callback came from the `where` or table slot, and the table slot when it came from the table. |
| `ArgumentResolver.ResolveDeleteIdempotent` | drivers/mssql/query_exec.js:199-213 | Resolving `delete`'s resolved arguments again changes nothing. |
| `ArgumentResolver.ResolveCount` | drivers/mssql/query_exec.js:57-63 | With the two assignments in the intended order, the resolved callback is a function exactly when the table or `cb` is one. A function table with no function `cb` becomes the callback, and the table becomes null. |
| `ArgumentResolver.CountAsWrittenLosesCallback` | drivers/mssql/query_exec.js:57-61 | As written, `count(f)` resolves to table null and callback null. The corrected order keeps `f` as the callback. |
| `UpdateBatch.FoldReport` | drivers/mssql/query_exec.js:178-193 | After all statements, `errors` holds the failures' errors in order. `results` is null with no success, the one result with one success, and with more the first success's `insert_id` carrying the summed counts. |
| `UpdateBatch.RunBatch` | drivers/mssql/query_exec.js:169-196 | Every statement runs, in queue order, whatever failed before it; an empty queue runs one `undefined` statement. The callback is invoked exactly once, and the invocation records that every statement had already been executed when it ran. Its `errors` are the failures' errors in order. Its `results` is null with no success, the one result with one success, and with more the first success's `insert_id` carrying the summed counts. |
| `UpdateBatch.FoldErrors` | drivers/mssql/query_exec.js:178-188 | Step by step, `errors` receives exactly the errors of the failing statements, in order. |
| `UpdateBatch.FoldResults` | drivers/mssql/query_exec.js:179-185 | `results` stays null until the first success and then takes that result. From the second success on, it keeps the first success's `insert_id` and carries the sums of all successes' counts. |
| `UpdateBatch.ThreeStatementExample` | drivers/mssql/query_exec.js:178-194 | For updates (5, 2), a failure, then (3, 1), the batch reports the one error and the counts (8, 3). |
| `UpdateBatch.RunBatchAsWrittenNeverStarts` | drivers/mssql/query_exec.js:174-176 | As written, a one-statement batch that would succeed throws before its statement runs. The intended loop reports that statement's result. |
| `UpdateBatch.RunBatchConstAsWrittenCompletesOnlyOnFailure` | drivers/mssql/query_exec.js:170-193 | With `results` declared `const`, the batch reports only when no statement succeeds, and then it agrees with the intended loop. |
| `CountQuery.CountReply` | drivers/mssql/query_exec.js:65-73 | The count callback never throws. Wherever the code as written does not throw, the two give the same result. A missing first record becomes a defined error, and a driver error is forwarded with the results. |
| `CountQuery.CountOfNoRowsThrows` | drivers/mssql/query_exec.js:65-68 | An aggregate that returns no rows is normalised to a summary. The callback as written then throws at `row[0].numrows`, and the corrected one reports a missing row. |
| `CountQuery.CountReadsFirstRow` | drivers/mssql/query_exec.js:65-68 | A non-insert statement whose single row ends with a `numrows` column makes `count` report that column's value. |

## Left out

- The `tedious` `Request`, `connect` and `execSql` (lines 1, 14, 39-47) are foreign driver calls and network I/O. The model takes each statement's outcome as an input instead.
- The connection guard at line 39 is inverted (`!this._connection` after line 13 found an object), so the connect path cannot be reached. It is not modelled.
- The connection-shape check at line 13 and the throw at line 49 are not modelled. All operations assume a connection object is present.
- The `setTimeout` scheduling at line 191 is event-loop concurrency. The model runs the statements as a plain sequential loop.
- SQL generation (`_count`, `_get`, `_get_where`, `_insert`, `_insert_batch`, `_update`, `_update_batch`, `_delete`, `_empty_table`, `_truncate`) and `reset_query` come from `query_builder.js`, which is not part of this model. Statement texts are inputs, and the "last statement" that `reset_query` records is not kept.
- `query`, `insert`, `empty_table` and `truncate` only pass their arguments on to the builder and `_exec`. They have no logic of their own.
- `get`'s third parameter `conn` is never used by the source.
- Reentrant calls on one object while a statement is in flight are not modelled.
- Numbers are integers. NaN, infinities and floating-point counts are not represented.
- The driver's `results` is either a row array or absent. Other non-array values are not represented; the source hands them on untouched like an absent one.
- Records are unordered maps: object key order is not modelled.
- A column named `__proto__` is stored as an ordinary key. That is what the code does when the row's first column has that name: later `__proto__` columns then overwrite it. When the first column has another name, every `__proto__` column goes through the prototype setter instead: an object or null value replaces the record's prototype, and any other value is dropped.
- `JsValues.StringIsZero`: it decides `Number(s) === 0` by the spelling of a zero literal. A non-zero literal that underflows to 0, such as `1e-400`, is not recognised.
- `UpdateBatch.RunBatch`: it requires that the counts are only added between row-count summaries. With two or more successes, every success must be an `{insert_id, affected_rows, changed_rows}` object. Otherwise JavaScript's `+=` produces NaN or throws, and the model does not say what happens.
- `UpdateBatch.RunBatch`: its inputs are what `_exec` hands each statement's callback. A statement whose rows make the normaliser throw (a row with no columns) would stop the batch. That case is covered by `ResultNormalizer.Normalize`, not by the loop.
- `UpdateBatch.RunBatch` models the loop as intended. The code as written does not run, for the two reasons under Findings.

## Findings

| source | as written | input that shows it | evidently intended | confidence | as-written member | corrected member |
|---|---|---|---|---|---|---|
| drivers/mssql/query_exec.js:130 | Line 130 tests `suffix`, which is not declared anywhere, so every call that gets past the `ignore` check throws a ReferenceError. | `insert_batch('t', [], cb)` | Test the 4th parameter `on_dupe`, as the error message says. | high, not executed (assumes no global named `suffix`) | `ArgumentResolver.ResolveInsertBatchAsWritten` with `ArgumentResolver.InsertBatchPlainCallThrows` | `ArgumentResolver.ResolveInsertBatch` |
| drivers/mssql/query_exec.js:174-176 | `next_batch` is a plain function expression called with no receiver. Class code is strict, so `this` is undefined, and `this.reset_query(sql)` throws a TypeError before the first statement runs. | `update_batch('t', rows, 'id', cb)`, with any rows | Run the loop with the query object as `this` (an arrow function, or a bound function that is also what `setTimeout` receives at line 191). | high, not executed | `UpdateBatch.RunBatchAsWritten` with `UpdateBatch.RunBatchAsWrittenNeverStarts` | `UpdateBatch.RunBatch` |
| drivers/mssql/query_exec.js:170 | `results` is declared `const`, so `results = res` at line 181 throws a TypeError in the first successful statement's callback, and the caller's callback never runs. | Any batch with a successful statement, once `this` is bound | Declare `results` with `let`. | high, not executed | `UpdateBatch.RunBatchConstAsWritten` with `UpdateBatch.RunBatchConstAsWrittenCompletesOnlyOnFailure` | `UpdateBatch.RunBatch` |
| drivers/mssql/query_exec.js:58-61 | `table = null` runs before `cb = table`, so `count(f)` loses its callback. The callback is then null when the result arrives. | `count(f)` | Assign `cb = table` first, then `table = null`. | high, not executed | `ArgumentResolver.ResolveCountAsWritten` with `ArgumentResolver.CountAsWrittenLosesCallback` | `ArgumentResolver.ResolveCount` |
| drivers/mssql/query_exec.js:68 | `row[0].numrows` is read unchecked. A zero-row result is normalised to a summary object (or arrives undefined), so `row[0]` is undefined and the callback throws a TypeError. | A count whose driver reply has no error and an empty row list | Report a defined error when there is no first record. | high, not executed | `CountQuery.CountReplyAsWritten` with `CountQuery.CountOfNoRowsThrows` | `CountQuery.CountReply` |
