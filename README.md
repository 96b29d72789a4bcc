# multi_insert in Dafny

A model of `MultiInsert`, a Ruby bulk-insert engine for ActiveRecord. Given a list of
record hashes and options, it:

1. fills in missing `created_at` / `updated_at` fields with a single timestamp;
2. works out the column list: the model's attribute names minus `ignore_attributes`;
3. splits the records into batches of `batch_size`, popping them off the end of the list;
4. for each batch, builds one multi-row `INSERT … VALUES (…),(…) <sql_append> returning <spec>`
   statement, runs it, and merges the i-th returned row into the i-th record of the batch;
5. returns the merged records, or the record list when no row came back, or `false` for an
   empty request; an exception goes to the error reporter instead.

The modules follow those stages:

- `Records`: field values and `merge!`.
- `Timestamps`: `with_timestamps!`.
- `Text`: `Array#join`, a splitter that reads a join back, and `String#blank?`.
- `Columns`: `attribute_names`.
- `Batching`: `batches`, `records.pop(batch_size)`, and the batch plan of `write_batches!`.
- `Statements`: `get_values`, `returning_ids_text`, `build_sql`.
- `Pipeline`: one `write!` as a function, the run over all batches, and what `call` returns.
- `Engine`: the `MultiInsert` object. It is a class whose `records`, `results` and `sent` fields its methods change in place. Each method is proved against the `Pipeline` functions.

The database is a parameter: a function from the statement's ordinal within the request and
its SQL text to either a list of returned rows or an exception. The class field `sent`
records the statements handed to the database, in order.

Two behaviours worth knowing, where the code does something other than what one would expect:

- **Batch order.** Batches are taken from the END of the list (`records.pop`), not from its
  front, although a front-to-back split would be the natural reading. The first write therefore gets the last `batch_size` records, and the short batch
  holds the front of the list. The merged records come back batch by batch in that reversed
  order, while each batch keeps its own internal order (`Pipeline.PopOrder`,
  `Batching.PopsPartition`).
- **Result when nothing came back.** Without returned rows, line 25 reads as handing back the
  record list, i.e. the records the caller gave, timestamped. What the caller actually receives is
  an empty array (see Findings).

## Model

| member | source | states |
|---|---|---|
| `Records.Merge` | lib/multi_insert.rb:133 | `merge!` keeps every key of both sides; the returned row's value wins where both have the key, the record's value stays elsewhere |
| `Timestamps.Stamp` | lib/multi_insert.rb:33-38 | after stamping, both timestamp fields hold a value; a field that already held one keeps it; no other field changes; any field that changed was nil and now holds the request's single `now` |
| `Timestamps.StampIdempotent` | lib/multi_insert.rb:35-36 | stamping a record a second time changes nothing |
| `Timestamps.StampAllIdempotent` | lib/multi_insert.rb:33-38 | running `with_timestamps!` twice gives the same records as running it once |
| `Timestamps.StampAllShared` | lib/multi_insert.rb:33-38 | every stamped record has both fields, each being either its own earlier non-nil value or the shared timestamp |
| `Text.SplitJoin` | lib/multi_insert.rb:124 | joining pieces with a separator that occurs in none of them is undone by splitting at that separator |
| `Columns.DeleteSpec` | lib/multi_insert.rb:91 | `Array#delete` removes every occurrence of the name; every other name keeps its multiplicity and relative order |
| `Columns.ResolveSpec` | lib/multi_insert.rb:86-95 | the columns are exactly the declared names that are not ignored, each as often as declared, in declared order |
| `Columns.DeleteResolve` | lib/multi_insert.rb:90-92 | deleting one more ignored name equals resolving against the ignore list extended by that name: the step of the loop |
| `Columns.IgnoreUndeclared` | lib/multi_insert.rb:90-92 | ignoring names the model does not declare leaves the column list unchanged |
| `Columns.NothingIgnored` | lib/multi_insert.rb:89-94 | when no declared name is ignored, the column list is the model's attribute list itself |
| `Batching.BatchCount` | lib/multi_insert.rb:56-60 | the count is 0 for batch size 0, non-negative for a positive size, non-positive for a negative one |
| `Batching.BatchCountIsCeiling` | lib/multi_insert.rb:59 | the count is the ceiling of records / batch size: the least `k` with `n <= k*b` when `b > 0`; for `b < 0` it satisfies `k*b <= n < (k-1)*b` |
| `Batching.BatchCountStep` | lib/multi_insert.rb:59 | with more records than one batch holds, the count is one more than the count for the records left after one batch |
| `Batching.BatchCountOne` | lib/multi_insert.rb:59 | between 1 and `b` records make exactly one batch |
| `Batching.NegativeBatchCount` | lib/multi_insert.rb:56-60 | with a negative batch size the count is 0 exactly when there are fewer than `-b` records, otherwise negative |
| `Batching.Pops` | lib/multi_insert.rb:107 | `k` successive pops hand out exactly `k` subsets |
| `Batching.PopsAt` | lib/multi_insert.rb:107 | the `i`-th pop takes the last `b` records (all of them when fewer) of what the first `i` pops left |
| `Batching.AfterPopsStep` | lib/multi_insert.rb:107 | each pop leaves the list without its last `b` records |
| `Batching.AfterPopsEmpty` | lib/multi_insert.rb:107 | `k` pops empty the list once `k*b` covers it |
| `Batching.PopsPartition` | lib/multi_insert.rb:103-109 | the popped subsets, concatenated in reverse pop order, are exactly the original list: nothing dropped, nothing written twice, order within the list kept |
| `Batching.PopsSizes` | lib/multi_insert.rb:107 | with `k` the batch count, every subset but the last is full and the last holds the 1 to `b` records at the front of the list |
| `Batching.PlanShape` | lib/multi_insert.rb:103-109 | batch size 0 gives one write of everything; a negative size gives one write of everything for fewer than `-b` records and no write otherwise; a positive size gives `ceil(n/b)` non-empty subsets of at most `b` records, all full but the last, partitioning the list |
| `Statements.ValueListAligned` | lib/multi_insert.rb:119-127 | a value list is parenthesised; when no sanitised literal contains a comma, its inside splits back into one literal per column, the `i`-th being the sanitised value of column `i` |
| `Statements.ReturningText` | lib/multi_insert.rb:137-139 | the clause is empty exactly when the spec is blank, otherwise it is `returning ` followed by the spec |
| `Statements.BuildSqlLayout` | lib/multi_insert.rb:141-143 | the statement is the INSERT prefix, ` VALUES `, the comma-joined value lists, a space, the fragment and a space, then `returning <spec>` exactly when the spec is not blank |
| `Pipeline.WriteStepReconciles` | lib/multi_insert.rb:111-135 | a blank subset sends nothing; otherwise one statement is sent; an exception fails the write; no rows means `:nothing_returned`; the outcome is `Zipped` exactly when at least one and at most as many rows as records came back; merged record `i` is `Merge(subset[i], rows[i])`, holding the keys of both, row values winning; more rows than records fails the write after merging one row per record |
| `Pipeline.RunPlan` | lib/multi_insert.rb:103-109 | the run attempts at most the planned writes, and all of them unless a write failed; a failed run attempted at least one write; at most one statement is sent per attempted write |
| `Pipeline.RunPlanStep` | lib/multi_insert.rb:107 | one more write extends the run of the writes before it, unless that run has already failed |
| `Pipeline.RunPlanStops` | lib/multi_insert.rb:26 | no write runs after a failed one: the exception leaves the batch loop |
| `Pipeline.RunPlanSingle` | lib/multi_insert.rb:105 | the run of a single write is that write's effect |
| `Pipeline.RunSendsOnePerWrite` | lib/multi_insert.rb:111-115 | when no subset is blank, the run sends exactly one statement per attempted write |
| `Pipeline.RunSilent` | lib/multi_insert.rb:130 | a database that returns no rows and never raises lets every write run and produces no merged record |
| `Pipeline.WriteAnswered` | lib/multi_insert.rb:129-134 | a write answered with one row per record succeeds and appends every record merged with its row |
| `Pipeline.RunReconcilesAll` | lib/multi_insert.rb:129-135 | when every write gets one row per record, the run succeeds with one statement per batch, and the results are the plan's records in plan order, each merged with the row at its position |
| `Pipeline.EmptyCall` | lib/multi_insert.rb:19 | an empty record list gives `false`, whatever the options |
| `Pipeline.AsWrittenLosesRecords` | lib/multi_insert.rb:18-31 | as written, a non-empty request whose inserts return no rows hands back an empty array, not its timestamped records |
| `Pipeline.IntendedKeepsRecords` | lib/multi_insert.rb:18-31 | corrected, the same request hands back exactly `StampAll(rs, now)`: the records it was given, in the order given, each carrying both timestamps |
| `Pipeline.PopOrder` | lib/multi_insert.rb:107 | for every non-empty list and positive batch size, the first write receives the last `b` records of the list (all when fewer) and the last write the records at its front |
| `Engine.MultiInsert.constructor` | lib/multi_insert.rb:6-12 | the object starts with the given records, no results, no statements sent, and one captured `now` |
| `Engine.MultiInsert.WithTimestamps` | lib/multi_insert.rb:33-38 | the record list becomes the stamped list, record by record |
| `Engine.MultiInsert.AttributeNames` | lib/multi_insert.rb:86-95 | deleting the ignored names one at a time yields the resolved column set |
| `Engine.MultiInsert.GetValues` | lib/multi_insert.rb:119-127 | one parenthesised value list per record, in subset order, of the sanitised column values |
| `Engine.MultiInsert.ZipperReturningIds` | lib/multi_insert.rb:129-135 | `results` grows by the merged records and the outcome is the reconciliation outcome, the surplus-row failure included |
| `Engine.MultiInsert.Write` | lib/multi_insert.rb:111-117 | `results` and `sent` change by exactly the effect of one write of the subset |
| `Engine.MultiInsert.WriteNextBatch` | lib/multi_insert.rb:107 | one pop leaves the kept records, and the popped subset is written |
| `Engine.MultiInsert.WriteBatchAt` | lib/multi_insert.rb:107 | one iteration of the batch loop turns the state after `i-1` batches into the state after `i` |
| `Engine.MultiInsert.WriteEachBatch` | lib/multi_insert.rb:107 | the loop's effect is the run of the popped subsets, stopping after a failure; the records left are those after the attempted pops |
| `Engine.MultiInsert.WriteBatches` | lib/multi_insert.rb:103-109 | the object's results and statements are those of the run of the batch plan; for a positive count the records left are those after the attempted pops, none when no write failed; for a zero count the single write was handed `@records` itself, so its first records now read as the merged records (`merge!` in place); for a negative count the records are untouched |
| `Engine.MultiInsert.Call` | lib/multi_insert.rb:18-31 | `call` as written: its result is `Pipeline.CallAsWritten`, the record list ends empty, and the results and statements are those of the run |
| `Engine.MultiInsert.CallKeepingRecords` | lib/multi_insert.rb:18-31 | the corrected `call`: its result is `Pipeline.CallIntended`, with the same effects |

## Left out

- The database connection and the Octopus shard routing (`run_insert!`, `shard`). The
  database is a function of the statement's ordinal and its text, and the shard is not
  modelled.
- The error reporter (`notify`), its printed report, and its re-raise in the test
  environment. A failed request returns `Reported`.
- ActiveRecord and Arel: `insert_manager`, `manager`, `table`, `inject_attribute_names_into_manager!`
  and the Rails version checks. The INSERT prefix they render (`manager.to_sql`) is an opaque
  string parameter, which is also why the "ActiveRecord versions 4 or 5" error is not modelled.
- The model's `attribute_names` and `sanitize` are parameters.
- `Time.zone.now` is a parameter.
- The `ArgumentError` for a missing model is not modelled: the collaborators are always given.
- `with_indifferent_access`: record and option keys are plain strings. A symbol hash key counts
  as already converted; this covers hash keys only, not values.
- Symbol entries in `ignore_attributes`: the model's `Options.ignoreAttributes` holds strings. `with_indifferent_access` at line 8
  converts the option keys but not the symbols inside the `ignore_attributes` array, and
  `Array#delete` at line 91 compares with `==`, so a symbol entry such as `:id` removes nothing
  from the string list `model.attribute_names`. Such an entry behaves as an ignored name the
  model does not declare (`Columns.IgnoreUndeclared`), not as the string `"id"`.
- Memoisation of `attribute_names`, `batch_size` and the other readers. The readers are
  evaluated once per request, as memoisation gives.
- `Array.wrap`: `ignore_attributes` is always a list.
- The defaults for absent options (`batch_size` 0, `""` for `returning` and `sql_append`) are
  supplied by the caller. A `nil` value for an option that is present is not modelled.
- `Batching.BatchCount`: the source computes the ceiling in floating point. The model uses
  the exact integer ceiling, which agrees with it at least for counts below 2^53.
- Aliasing beyond `@records`: line 7 copies every caller hash, so the caller's records are
  never changed. `merge!` at line 133 changes the engine's own copies, which the model shows
  only where they stay visible: in `@records` after the single write of a zero batch count
  (`Engine.MultiInsert.WriteBatches`). Popped batches are no longer reachable from `@records`,
  and the hashes in `results` are copies (`with_indifferent_access`).
- Exceptions raised by anything other than the database or surplus rows are not modelled.
- `Text.IsSpace`: the whitespace set is the Unicode space characters; encoding errors are not modelled.

## Findings

| source | as written | input that shows it | evidently intended | confidence | as-written member | corrected member |
|---|---|---|---|---|---|---|
| lib/multi_insert.rb:25 | when no row comes back, `call` returns `records`, the `@records` array itself. The batch pops have already emptied it for a positive batch size, and the `ensure` clause at line 30 clears that same array otherwise, so the caller gets `[]` | 5 records, batch size 2, no RETURNING, and a database that returns no rows | return the records it was given, timestamped | not executed; high | `Pipeline.AsWrittenLosesRecords` | `Pipeline.IntendedKeepsRecords` |
