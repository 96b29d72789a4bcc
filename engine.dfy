/** The `MultiInsert` object: its record list and results list change in place
    as `call` runs the pipeline. */
module Engine {
  import opened Records
  import opened Timestamps
  import opened Columns
  import opened Batching
  import opened Statements
  import opened Pipeline

  class MultiInsert {
    /** `@records`: the working list, emptied as batches are popped off it. */
    var records: seq<Record>
    /** `@results`: the merged records, in the order they were reconciled. */
    var results: seq<Record>
    /** The statements handed to the database so far, in order: the effect of
        `run_insert!` that the rest of the request can observe. */
    var sent: seq<string>
    /** Every subset handed to `write!`, blank ones included, in call order. */
    ghost var writes: seq<seq<Record>>

    const opts: Options
    const collaborators: Collaborators
    /** The single timestamp captured when the object is built. */
    const now: int

    constructor (records: seq<Record>, opts: Options, collaborators: Collaborators, now: int)
      ensures this.records == records && results == [] && sent == [] && writes == []
      ensures this.opts == opts && this.collaborators == collaborators && this.now == now
    {
      this.records := records;
      this.opts := opts;
      this.collaborators := collaborators;
      this.now := now;
      results := [];
      sent := [];
      writes := [];
    }

    /** `with_timestamps!`: fill the missing timestamps of every record in place. */
    method WithTimestamps()
      modifies this`records
      ensures records == StampAll(old(records), now)
    {
      var i := 0;
      while i < |records|
        invariant 0 <= i <= |records| == |old(records)|
        invariant forall j :: 0 <= j < i ==> records[j] == Stamp(old(records)[j], now)
        invariant forall j :: i <= j < |records| ==> records[j] == old(records)[j]
      {
        var record := records[i];
        if Get(record, CreatedAt) == Nil {
          record := record[CreatedAt := Time(now)];
        }
        if Get(record, UpdatedAt) == Nil {
          record := record[UpdatedAt := Time(now)];
        }
        records := records[i := record];
        i := i + 1;
      }
    }

    /** `attribute_names`: copy the model's attribute list, then delete each
        ignored name from it in turn. */
    method AttributeNames() returns (names: seq<string>)
      ensures names == ColumnSet(opts, collaborators)
    {
      var attributes, ignore := collaborators.attributeNames, opts.ignoreAttributes;
      names := attributes;
      NothingIgnored(attributes, []);
      var i := 0;
      while i < |ignore|
        invariant 0 <= i <= |ignore|
        invariant names == Resolve(attributes, ignore[..i])
      {
        DeleteResolve(attributes, ignore[..i], ignore[i]);
        assert ignore[..i + 1] == ignore[..i] + [ignore[i]];
        names := Delete(names, ignore[i]);
        i := i + 1;
      }
      assert ignore[..i] == ignore;
    }

    /** `get_values(subset)`: one parenthesised value list per record. */
    method GetValues(subset: seq<Record>, columns: seq<string>) returns (arr: seq<string>)
      ensures arr == ValueLists(subset, columns, collaborators.sanitize)
    {
      var sanitize := collaborators.sanitize;
      arr := [];
      var i := 0;
      while i < |subset|
        invariant 0 <= i <= |subset| && |arr| == i
        invariant forall k :: 0 <= k < i ==> arr[k] == ValueList(subset[k], columns, sanitize)
      {
        var record := subset[i];
        var values := [];
        var j := 0;
        while j < |columns|
          invariant 0 <= j <= |columns| && |values| == j
          invariant forall k :: 0 <= k < j ==> values[k] == sanitize(Get(record, columns[k]))
        {
          values := values + [sanitize(Get(record, columns[j]))];
          j := j + 1;
        }
        assert values == Sanitized(record, columns, sanitize);
        arr := arr + ["(" + Text.Join(",", values) + ")"];
        i := i + 1;
      }
    }

    /** `zipper_returning_ids(subset, rows)`: append record `i` merged with row `i`
        to `results`, for every returned row. */
    method ZipperReturningIds(subset: seq<Record>, rows: seq<Record>) returns (outcome: WriteOutcome)
      modifies this`results
      ensures outcome == ZipOutcome(subset, rows)
      ensures results == old(results) + Zip(subset, rows)
    {
      if |rows| == 0 {
        return NothingReturned;
      }
      var index := 0;
      while index < |rows|
        invariant 0 <= index <= |rows| && index <= |subset|
        invariant results == old(results) + Zip(subset, rows[..index])
      {
        if index == |subset| {
          // `subset[index]` is nil here and `merge!` raises
          assert Zip(subset, rows) == Zip(subset, rows[..index]);
          return Failed;
        }
        assert Zip(subset, rows[..index + 1]) == Zip(subset, rows[..index]) + [Merge(subset[index], rows[index])];
        results := results + [Merge(subset[index], rows[index])];
        index := index + 1;
      }
      assert rows[..index] == rows;
      return Zipped;
    }

    /** `write!(subset)`: skip a blank subset; otherwise build the statement, send
        it as the request's next statement, and reconcile the answer. */
    method Write(subset: seq<Record>, columns: seq<string>) returns (outcome: WriteOutcome)
      modifies this`results, this`sent, this`writes
      ensures var step := WriteStep(opts, collaborators, columns, subset, |old(sent)|);
        && outcome == step.outcome
        && results == old(results) + step.appended
        && sent == old(sent) + step.statements
      ensures writes == old(writes) + [subset]
    {
      writes := writes + [subset];
      if subset == [] {
        return Blank;
      }
      var values := GetValues(subset, columns);
      var sql := BuildSql(collaborators.insertPrefix, values, opts.sqlAppend, opts.returning);
      var response := collaborators.execute(|sent|, sql);
      sent := sent + [sql];
      match response
      case Raised =>
        outcome := Failed;
      case Tuples(rows) =>
        outcome := ZipperReturningIds(subset, rows);
    }

    /** `write!(records.pop(batch_size))`: the loop body of `write_batches!`;
        `step` names the effect of that write. */
    method WriteNextBatch(columns: seq<string>, ghost subset: seq<Record>, ghost step: Step) returns (outcome: WriteOutcome)
      requires opts.batchSize > 0
      requires subset == Popped(records, opts.batchSize)
      requires step == WriteStep(opts, collaborators, columns, subset, |sent|)
      modifies this`records, this`results, this`sent, this`writes
      ensures records == Kept(old(records), opts.batchSize)
      ensures outcome == step.outcome
      ensures results == old(results) + step.appended
      ensures sent == old(sent) + step.statements
      ensures writes == old(writes) + [subset]
    {
      var n := PopSize(records, opts.batchSize);
      var subset := records[|records| - n..];
      records := records[..|records| - n];
      outcome := Write(subset, columns);
    }

    /** `write_batches!`: one write of every record when the batch count is zero,
        otherwise `1.upto(batches)` writes of `records.pop(batch_size)`. A failed
        write ends the loop, as the exception does in the source. The single write
        is handed `@records` itself, so `merge!` rewrites its records in place: the
        first ones read as the merged records the write appended to `results`. */
    method WriteBatches(columns: seq<string>) returns (failed: bool)
      modifies this`records, this`results, this`sent, this`writes
      ensures var plan := Plan(old(records), opts.batchSize);
        var run := RunPlan(opts, collaborators, columns, plan, |old(sent)|);
        var k := BatchCount(|old(records)|, opts.batchSize);
        && failed == run.failed
        && results == old(results) + run.results
        && sent == old(sent) + run.statements
        && writes == old(writes) + plan[..run.attempted]
        && (k > 0 ==> records == AfterPops(old(records), opts.batchSize, run.attempted))
        && (k > 0 && !failed ==> records == [])
        && (k == 0 ==> |run.results| <= |old(records)|
                       && records == run.results + old(records)[|run.results|..])
        && (k < 0 ==> records == old(records))
    {
      var k := BatchCount(|records|, opts.batchSize);
      ghost var plan := Plan(records, opts.batchSize);
      if k == 0 {
        ghost var step := WriteStep(opts, collaborators, columns, records, |sent|);
        RunPlanSingle(opts, collaborators, columns, records, |sent|, step);
        var before := |results|;
        var outcome := Write(records, columns);
        failed := outcome == Failed;
        assert plan[..1] == plan;
        var merged := results[before..];
        assert merged == step.appended;
        records := merged + records[|merged|..];
      } else if k < 0 {
        // `1.upto(batches)` runs no iteration
        failed := false;
      } else {
        BatchCountIsCeiling(|records|, opts.batchSize);
        AfterPopsEmpty(records, opts.batchSize, k);
        failed := WriteEachBatch(columns, k);
      }
    }

    /** The `1.upto(batches) { write!(records.pop(batch_size)) }` loop. */
    method WriteEachBatch(columns: seq<string>, k: nat) returns (failed: bool)
      requires opts.batchSize > 0
      modifies this`records, this`results, this`sent, this`writes
      ensures var plan := Pops(old(records), opts.batchSize, k);
        var run := RunPlan(opts, collaborators, columns, plan, |old(sent)|);
        && failed == run.failed
        && results == old(results) + run.results
        && sent == old(sent) + run.statements
        && writes == old(writes) + plan[..run.attempted]
        && records == AfterPops(old(records), opts.batchSize, run.attempted)
    {
      ghost var rs := records;
      ghost var run := RunPlan(opts, collaborators, columns, Pops(rs, opts.batchSize, k)[..0], |sent|);
      failed := false;
      var i := 1;
      while i <= k && !failed
        invariant 1 <= i <= k + 1
        invariant Progress(columns, rs, k, i - 1, run, old(results), old(sent), old(writes))
        invariant failed == run.failed
      {
        var outcome;
        outcome, run := WriteBatchAt(columns, rs, k, i, run, old(results), old(sent), old(writes));
        failed := outcome == Failed;
        i := i + 1;
      }
      RunPlanComplete(opts, collaborators, columns, Pops(rs, opts.batchSize, k), |old(sent)|, i - 1, run);
    }

    /** After `j` iterations of the batch loop, started on `rs` with `results`,
        `sent` and `writes` at `results0`, `sent0` and `writes0`: `run` is the run
        of the first `j` batches, and the object shows exactly its effects. */
    ghost predicate Progress(columns: seq<string>, rs: seq<Record>, k: nat, j: nat, run: Run,
                             results0: seq<Record>, sent0: seq<string>, writes0: seq<seq<Record>>)
      reads this
    {
      && opts.batchSize > 0 && j <= k
      && var plan := Pops(rs, opts.batchSize, k);
      && records == AfterPops(rs, opts.batchSize, j)
      && run == RunPlan(opts, collaborators, columns, plan[..j], |sent0|)
      && run.attempted == j
      && results == results0 + run.results
      && sent == sent0 + run.statements && |sent| == |sent0| + |run.statements|
      && writes == writes0 + plan[..j]
    }

    /** Iteration `i` of the batch loop: pop the next batch and write it. */
    method WriteBatchAt(columns: seq<string>, ghost rs: seq<Record>, ghost k: nat, i: nat, ghost prior: Run,
                        ghost results0: seq<Record>, ghost sent0: seq<string>, ghost writes0: seq<seq<Record>>)
      returns (outcome: WriteOutcome, ghost run: Run)
      requires 1 <= i <= k && !prior.failed
      requires Progress(columns, rs, k, i - 1, prior, results0, sent0, writes0)
      modifies this`records, this`results, this`sent, this`writes
      ensures Progress(columns, rs, k, i, run, results0, sent0, writes0)
      ensures run.failed == (outcome == Failed)
    {
      var b := opts.batchSize;
      ghost var plan := Pops(rs, b, k);
      PopsAt(rs, b, k, i - 1);
      AfterPopsStep(rs, b, i - 1);
      PrefixStep(plan, i - 1);
      ghost var step := WriteStep(opts, collaborators, columns, plan[i - 1], |sent|);
      RunPlanExtend(opts, collaborators, columns, plan, |sent0|, i - 1, prior, |sent|, step);
      AppendAssociative(results0, prior.results, step.appended);
      AppendAssociative(sent0, prior.statements, step.statements);
      AppendAssociative(writes0, plan[..i - 1], [plan[i - 1]]);
      outcome := WriteNextBatch(columns, plan[i - 1], step);
      run := Extend(prior, step);
    }

    /** `call`, as written. */
    method Call() returns (r: CallResult)
      modifies this
      ensures r == CallAsWritten(old(records), opts, collaborators, now, old(results), |old(sent)|)
      ensures records == []
      ensures old(records) == [] ==> results == old(results) && sent == old(sent) && writes == old(writes)
      ensures old(records) != [] ==>
        var plan := Plan(StampAll(old(records), now), opts.batchSize);
        var run := RunPlan(opts, collaborators, ColumnSet(opts, collaborators), plan, |old(sent)|);
        && results == old(results) + run.results
        && sent == old(sent) + run.statements
        && writes == old(writes) + plan[..run.attempted]
    {
      if records == [] {
        return NoRecords;
      }
      WithTimestamps();
      var columns := AttributeNames();
      var failed := WriteBatches(columns);
      // line 25 hands back `@records` itself when there are no results
      var returnsRecordsArray := !failed && results == [];
      records := [];  // the `ensure` clause clears `@records`
      if failed {
        r := Reported;
      } else if returnsRecordsArray {
        r := Returned(records);
      } else {
        r := Returned(results);
      }
    }

    /** `call`, corrected to hand back the timestamped records it inserted when
        no row came back. */
    method CallKeepingRecords() returns (r: CallResult)
      modifies this
      ensures r == CallIntended(old(records), opts, collaborators, now, old(results), |old(sent)|)
      ensures records == []
      ensures old(records) == [] ==> results == old(results) && sent == old(sent) && writes == old(writes)
      ensures old(records) != [] ==>
        var plan := Plan(StampAll(old(records), now), opts.batchSize);
        var run := RunPlan(opts, collaborators, ColumnSet(opts, collaborators), plan, |old(sent)|);
        && results == old(results) + run.results
        && sent == old(sent) + run.statements
        && writes == old(writes) + plan[..run.attempted]
    {
      if records == [] {
        return NoRecords;
      }
      WithTimestamps();
      var stamped := records;  // kept apart from the list the batches consume
      var columns := AttributeNames();
      var failed := WriteBatches(columns);
      records := [];
      if failed {
        r := Reported;
      } else if results == [] {
        r := Returned(stamped);
      } else {
        r := Returned(results);
      }
    }
  }
}
