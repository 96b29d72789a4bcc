/** The pipeline that `call` runs, as functions of the request: the result of one
    `write!`, the run over every batch, and the value `call` returns. */
module Pipeline {
  import opened Records
  import opened Timestamps
  import opened Columns
  import opened Batching
  import opened Statements

  /** The request options, with the source's defaults (`batch_size` 0, no ignored
      attributes, empty `returning` and `sql_append`) filled in by the caller. */
  datatype Options = Options(batchSize: int, ignoreAttributes: seq<string>, returning: string, sqlAppend: string)

  /** What the database gives back for one statement: its tuples, or an exception. */
  datatype Response = Tuples(rows: seq<Record>) | Raised

  /** The collaborators the engine consults: the model's declared attribute names
      and its `sanitize`, the INSERT prefix the ORM renders (`manager.to_sql`), and
      the database, which answers the `n`-th statement of the request. */
  datatype Collaborators = Collaborators(
    attributeNames: seq<string>,
    sanitize: Value -> string,
    insertPrefix: string,
    execute: (nat, string) -> Response)

  /** What one `write!` comes to: `:blank`, `:nothing_returned`, rows merged, or an
      exception that aborts the remaining batches. */
  datatype WriteOutcome = Blank | NothingReturned | Zipped | Failed

  /** The merged records `zipper_returning_ids` appends to `results`. Row `i` goes
      onto record `i`; a row with no record at its index makes the source raise
      (it calls `merge!` on nil), after the rows before it have been appended. */
  function Zip(subset: seq<Record>, rows: seq<Record>): seq<Record>
  {
    var n := if |rows| <= |subset| then |rows| else |subset|;
    seq(n, i requires 0 <= i < n => Merge(subset[i], rows[i]))
  }

  function ZipOutcome(subset: seq<Record>, rows: seq<Record>): WriteOutcome
  {
    if rows == [] then NothingReturned
    else if |rows| <= |subset| then Zipped
    else Failed
  }

  /** The effect of one `write!`: its outcome, the records it appends to
      `results`, and the statements it sends to the database. */
  datatype Step = Step(outcome: WriteOutcome, appended: seq<Record>, statements: seq<string>)

  function ColumnSet(o: Options, c: Collaborators): seq<string>
  {
    Resolve(c.attributeNames, o.ignoreAttributes)
  }

  function SqlFor(o: Options, c: Collaborators, columns: seq<string>, subset: seq<Record>): string
  {
    BuildSql(c.insertPrefix, ValueLists(subset, columns, c.sanitize), o.sqlAppend, o.returning)
  }

  /** `write!(subset)` as the request's `ordinal`-th statement. */
  function WriteStep(o: Options, c: Collaborators, columns: seq<string>, subset: seq<Record>, ordinal: nat): Step
  {
    if subset == [] then Step(Blank, [], [])
    else
      var sql := SqlFor(o, c, columns, subset);
      match c.execute(ordinal, sql)
      case Raised => Step(Failed, [], [sql])
      case Tuples(rows) => Step(ZipOutcome(subset, rows), Zip(subset, rows), [sql])
  }

  /** What a write does with the database's answer: skip a blank subset, leave
      `results` alone when nothing came back, otherwise merge row `i` into record
      `i` (row fields win, other record fields stay), and fail on surplus rows. */
  lemma WriteStepReconciles(o: Options, c: Collaborators, columns: seq<string>, subset: seq<Record>, ordinal: nat)
    ensures subset == [] ==> WriteStep(o, c, columns, subset, ordinal) == Step(Blank, [], [])
    ensures subset != [] ==> var s := WriteStep(o, c, columns, subset, ordinal);
      && s.statements == [SqlFor(o, c, columns, subset)]
      && match c.execute(ordinal, SqlFor(o, c, columns, subset))
         case Raised => s.outcome == Failed && s.appended == []
         case Tuples(rows) =>
           && (rows == [] <==> s.outcome == NothingReturned)
           && (rows == [] ==> s.appended == [])
           && (|rows| > |subset| <==> s.outcome == Failed)
           && (0 < |rows| <= |subset| <==> s.outcome == Zipped)
           && |s.appended| == (if |rows| <= |subset| then |rows| else |subset|)
           && (forall i :: 0 <= i < |s.appended| ==> s.appended[i] == Merge(subset[i], rows[i]))
           && (forall i :: 0 <= i < |s.appended| ==> s.appended[i].Keys == subset[i].Keys + rows[i].Keys)
           && forall i, k :: 0 <= i < |s.appended| && k in s.appended[i] ==>
                s.appended[i][k] == if k in rows[i] then rows[i][k] else subset[i][k]
  {
  }

  /** The effect of running a list of writes: merged records, statements sent,
      how many writes were attempted, and whether one failed. */
  datatype Run = Run(results: seq<Record>, statements: seq<string>, attempted: nat, failed: bool)

  /** The writes of `plan` in order, stopping after the first that fails. */
  function RunPlan(o: Options, c: Collaborators, columns: seq<string>, plan: seq<seq<Record>>, ordinal: nat): (run: Run)
    ensures run.attempted <= |plan|
    ensures run.failed ==> run.attempted >= 1
    ensures !run.failed ==> run.attempted == |plan|
    ensures |run.statements| <= run.attempted
    decreases |plan|
  {
    if plan == [] then Run([], [], 0, false)
    else
      var prior := RunPlan(o, c, columns, plan[..|plan| - 1], ordinal);
      if prior.failed then prior
      else Extend(prior, WriteStep(o, c, columns, plan[|plan| - 1], ordinal + |prior.statements|))
  }

  /** A run followed by one more write. */
  function Extend(prior: Run, s: Step): Run
  {
    Run(prior.results + s.appended, prior.statements + s.statements, prior.attempted + 1, s.outcome == Failed)
  }

  /** Running one more write of a plan extends the run of the writes before it. */
  lemma RunPlanStep(o: Options, c: Collaborators, columns: seq<string>, plan: seq<seq<Record>>, ordinal: nat, j: nat)
    requires j < |plan|
    ensures var prior := RunPlan(o, c, columns, plan[..j], ordinal);
      RunPlan(o, c, columns, plan[..j + 1], ordinal) ==
        if prior.failed then prior
        else Extend(prior, WriteStep(o, c, columns, plan[j], ordinal + |prior.statements|))
  {
    var grown := plan[..j + 1];
    assert grown[..|grown| - 1] == plan[..j];
    assert grown[|grown| - 1] == plan[j];
  }

  /** The same step, with the write's effect given by name. */
  lemma RunPlanExtend(o: Options, c: Collaborators, columns: seq<string>, plan: seq<seq<Record>>, ordinal: nat, j: nat, prior: Run, n: nat, s: Step)
    requires j < |plan|
    requires prior == RunPlan(o, c, columns, plan[..j], ordinal) && !prior.failed
    requires n == ordinal + |prior.statements|
    requires s == WriteStep(o, c, columns, plan[j], n)
    ensures RunPlan(o, c, columns, plan[..j + 1], ordinal) == Extend(prior, s)
  {
    RunPlanStep(o, c, columns, plan, ordinal, j);
  }

  /** Nothing runs after a failed write: the run of the whole plan is the run
      up to and including the write that failed. */
  lemma {:induction false} RunPlanStops(o: Options, c: Collaborators, columns: seq<string>, plan: seq<seq<Record>>, ordinal: nat, j: nat)
    requires j <= |plan|
    requires RunPlan(o, c, columns, plan[..j], ordinal).failed
    ensures RunPlan(o, c, columns, plan, ordinal) == RunPlan(o, c, columns, plan[..j], ordinal)
    decreases |plan| - j
  {
    if j < |plan| {
      RunPlanStep(o, c, columns, plan, ordinal, j);
      RunPlanStops(o, c, columns, plan, ordinal, j + 1);
    } else {
      assert plan[..j] == plan;
    }
  }

  /** The run of a single write is that write's step. */
  lemma RunPlanSingle(o: Options, c: Collaborators, columns: seq<string>, subset: seq<Record>, ordinal: nat, s: Step)
    requires s == WriteStep(o, c, columns, subset, ordinal)
    ensures RunPlan(o, c, columns, [subset], ordinal) == Run(s.appended, s.statements, 1, s.outcome == Failed)
    ensures |s.appended| <= |subset|
  {
    assert [subset][..0] == [];
  }

  /** A run that has failed, or has attempted every write, is the run of the whole plan. */
  lemma RunPlanComplete(o: Options, c: Collaborators, columns: seq<string>, plan: seq<seq<Record>>, ordinal: nat, j: nat, run: Run)
    requires j <= |plan|
    requires run == RunPlan(o, c, columns, plan[..j], ordinal)
    requires run.failed || j == |plan|
    ensures RunPlan(o, c, columns, plan, ordinal) == run
  {
    if run.failed {
      RunPlanStops(o, c, columns, plan, ordinal, j);
    } else {
      assert plan[..j] == plan;
    }
  }

  /** Every non-blank write sends exactly one statement. */
  lemma {:induction false} RunSendsOnePerWrite(o: Options, c: Collaborators, columns: seq<string>, plan: seq<seq<Record>>, ordinal: nat)
    requires forall j :: 0 <= j < |plan| ==> plan[j] != []
    ensures |RunPlan(o, c, columns, plan, ordinal).statements| == RunPlan(o, c, columns, plan, ordinal).attempted
    decreases |plan|
  {
    if plan != [] {
      RunSendsOnePerWrite(o, c, columns, plan[..|plan| - 1], ordinal);
    }
  }

  /** A database that never returns rows nor raises: every write runs, and no
      merged record is produced. */
  lemma {:induction false} RunSilent(o: Options, c: Collaborators, columns: seq<string>, plan: seq<seq<Record>>, ordinal: nat)
    requires forall n, sql :: c.execute(n, sql) == Tuples([])
    ensures !RunPlan(o, c, columns, plan, ordinal).failed
    ensures RunPlan(o, c, columns, plan, ordinal).results == []
    decreases |plan|
  {
    if plan != [] {
      RunSilent(o, c, columns, plan[..|plan| - 1], ordinal);
    }
  }

  /** The answer the database gives to write `j` of `plan` when every earlier
      write sent one statement. */
  function RowsAnswered(o: Options, c: Collaborators, columns: seq<string>, subset: seq<Record>, n: nat): seq<Record>
  {
    match c.execute(n, SqlFor(o, c, columns, subset))
    case Raised => []
    case Tuples(rows) => rows
  }

  /** The database answers write `j` with exactly one row per record. */
  ghost predicate AnswersEveryRecord(o: Options, c: Collaborators, columns: seq<string>, plan: seq<seq<Record>>, ordinal: nat)
  {
    forall j :: 0 <= j < |plan| ==>
      && plan[j] != []
      && c.execute(ordinal + j, SqlFor(o, c, columns, plan[j])).Tuples?
      && |RowsAnswered(o, c, columns, plan[j], ordinal + j)| == |plan[j]|
  }

  function AllRows(o: Options, c: Collaborators, columns: seq<string>, plan: seq<seq<Record>>, ordinal: nat): seq<Record>
    decreases |plan|
  {
    if plan == [] then []
    else AllRows(o, c, columns, plan[..|plan| - 1], ordinal)
         + RowsAnswered(o, c, columns, plan[|plan| - 1], ordinal + |plan| - 1)
  }

  lemma ZipAppend(a: seq<Record>, r: seq<Record>, b: seq<Record>, s: seq<Record>)
    requires |a| == |r| && |b| == |s|
    ensures Zip(a + b, r + s) == Zip(a, r) + Zip(b, s)
  {
  }

  /** A write answered with one row per record merges every record and succeeds. */
  lemma WriteAnswered(o: Options, c: Collaborators, columns: seq<string>, subset: seq<Record>, n: nat)
    requires Answered(o, c, columns, subset, n)
    ensures WriteStep(o, c, columns, subset, n)
         == Step(Zipped, Zip(subset, RowsAnswered(o, c, columns, subset, n)), [SqlFor(o, c, columns, subset)])
  {
  }

  /** What reconciliation promises of the run of `plan`. */
  ghost predicate Reconciled(o: Options, c: Collaborators, columns: seq<string>, plan: seq<seq<Record>>, ordinal: nat)
  {
    var run := RunPlan(o, c, columns, plan, ordinal);
    && !run.failed
    && |run.statements| == |plan|
    && |AllRows(o, c, columns, plan, ordinal)| == |Flatten(plan)|
    && run.results == Zip(Flatten(plan), AllRows(o, c, columns, plan, ordinal))
  }

  lemma AnswersPrefix(o: Options, c: Collaborators, columns: seq<string>, plan: seq<seq<Record>>, ordinal: nat)
    requires plan != [] && AnswersEveryRecord(o, c, columns, plan, ordinal)
    ensures AnswersEveryRecord(o, c, columns, plan[..|plan| - 1], ordinal)
  {
    var front := plan[..|plan| - 1];
    forall j | 0 <= j < |front| ensures front[j] == plan[j] { }
  }

  /** The database answers a write of `subset` as its `n`-th statement with
      one row per record. */
  ghost predicate Answered(o: Options, c: Collaborators, columns: seq<string>, subset: seq<Record>, n: nat)
  {
    && subset != []
    && c.execute(n, SqlFor(o, c, columns, subset)).Tuples?
    && |RowsAnswered(o, c, columns, subset, n)| == |subset|
  }

  lemma AnswerAt(o: Options, c: Collaborators, columns: seq<string>, plan: seq<seq<Record>>, ordinal: nat, j: nat)
    requires j < |plan| && AnswersEveryRecord(o, c, columns, plan, ordinal)
    ensures Answered(o, c, columns, plan[j], ordinal + j)
  {
  }

  /** The run of a plan whose last write is answered with one row per record. */
  lemma RunPlanAnswered(o: Options, c: Collaborators, columns: seq<string>, plan: seq<seq<Record>>, ordinal: nat)
    requires plan != [] && Answered(o, c, columns, plan[|plan| - 1], ordinal + |plan| - 1)
    requires var prior := RunPlan(o, c, columns, plan[..|plan| - 1], ordinal);
      !prior.failed && |prior.statements| == |plan| - 1
    ensures var prior := RunPlan(o, c, columns, plan[..|plan| - 1], ordinal);
      var last, n := plan[|plan| - 1], ordinal + |plan| - 1;
      RunPlan(o, c, columns, plan, ordinal)
        == Run(prior.results + Zip(last, RowsAnswered(o, c, columns, last, n)),
               prior.statements + [SqlFor(o, c, columns, last)], prior.attempted + 1, false)
  {
    WriteAnswered(o, c, columns, plan[|plan| - 1], ordinal + |plan| - 1);
  }

  /** Reconciling one more fully answered write. */
  lemma ReconcileLast(o: Options, c: Collaborators, columns: seq<string>, plan: seq<seq<Record>>, ordinal: nat)
    requires plan != [] && Answered(o, c, columns, plan[|plan| - 1], ordinal + |plan| - 1)
    requires Reconciled(o, c, columns, plan[..|plan| - 1], ordinal)
    ensures Reconciled(o, c, columns, plan, ordinal)
  {
    var front, last := plan[..|plan| - 1], plan[|plan| - 1];
    RunPlanAnswered(o, c, columns, plan, ordinal);
    FrontLast(plan);
    FlattenSnoc(front, last);
    ZipAppend(Flatten(front), AllRows(o, c, columns, front, ordinal), last,
              RowsAnswered(o, c, columns, last, ordinal + |plan| - 1));
  }

  /** Reconciliation: when every write gets one row per record, the run succeeds
      and its results are the records of the plan, in plan order, each merged
      with the row at its position. */
  lemma {:induction false} RunReconcilesAll(o: Options, c: Collaborators, columns: seq<string>, plan: seq<seq<Record>>, ordinal: nat)
    requires AnswersEveryRecord(o, c, columns, plan, ordinal)
    ensures var run := RunPlan(o, c, columns, plan, ordinal);
      && !run.failed
      && |run.statements| == |plan|
      && |AllRows(o, c, columns, plan, ordinal)| == |Flatten(plan)|
      && run.results == Zip(Flatten(plan), AllRows(o, c, columns, plan, ordinal))
    decreases |plan|
  {
    if plan != [] {
      AnswersPrefix(o, c, columns, plan, ordinal);
      RunReconcilesAll(o, c, columns, plan[..|plan| - 1], ordinal);
      AnswerAt(o, c, columns, plan, ordinal, |plan| - 1);
      ReconcileLast(o, c, columns, plan, ordinal);
    }
  }

  /** The timestamped records, batched as `write_batches!` does, run in turn. */
  function RunCall(rs: seq<Record>, o: Options, c: Collaborators, now: int, ordinal: nat): Run
  {
    RunPlan(o, c, ColumnSet(o, c), Plan(StampAll(rs, now), o.batchSize), ordinal)
  }

  /** What `call` returns: `false`, an array of records, or whatever the error
      report returns after an exception. */
  datatype CallResult = NoRecords | Returned(rows: seq<Record>) | Reported

  /** `call` as written. When no row came back, line 25 returns the `@records`
      array itself; the pops have emptied it when the batch size is positive, and
      the `ensure` clause clears it otherwise, so the caller receives it empty. */
  function CallAsWritten(rs: seq<Record>, o: Options, c: Collaborators, now: int, results0: seq<Record>, ordinal: nat): CallResult
  {
    if rs == [] then NoRecords
    else
      var run := RunCall(rs, o, c, now, ordinal);
      if run.failed then Reported
      else if results0 + run.results == [] then Returned([])
      else Returned(results0 + run.results)
  }

  /** A `call` that hands back the records it was given when no row comes back:
      those records, timestamped. */
  function CallIntended(rs: seq<Record>, o: Options, c: Collaborators, now: int, results0: seq<Record>, ordinal: nat): CallResult
  {
    if rs == [] then NoRecords
    else
      var run := RunCall(rs, o, c, now, ordinal);
      if run.failed then Reported
      else if results0 + run.results == [] then Returned(StampAll(rs, now))
      else Returned(results0 + run.results)
  }

  /** An empty record list is answered with `false` whatever the options. */
  lemma EmptyCall(o: Options, c: Collaborators, now: int, results0: seq<Record>, ordinal: nat)
    ensures CallAsWritten([], o, c, now, results0, ordinal) == NoRecords
    ensures CallIntended([], o, c, now, results0, ordinal) == NoRecords
  {
  }

  /** As written, a request whose inserts return no rows hands back an empty
      array although it inserted every one of its records. */
  lemma AsWrittenLosesRecords(rs: seq<Record>, o: Options, c: Collaborators, now: int, ordinal: nat)
    requires rs != []
    requires forall n, sql :: c.execute(n, sql) == Tuples([])
    ensures CallAsWritten(rs, o, c, now, [], ordinal) == Returned([])
    ensures CallAsWritten(rs, o, c, now, [], ordinal) != Returned(StampAll(rs, now))
  {
    RunSilent(o, c, ColumnSet(o, c), Plan(StampAll(rs, now), o.batchSize), ordinal);
  }

  /** Corrected, the same request hands back every record it was given, in the
      order given, each carrying both timestamps. */
  lemma IntendedKeepsRecords(rs: seq<Record>, o: Options, c: Collaborators, now: int, ordinal: nat)
    requires rs != []
    requires forall n, sql :: c.execute(n, sql) == Tuples([])
    ensures CallIntended(rs, o, c, now, [], ordinal) == Returned(StampAll(rs, now))
    ensures var out := CallIntended(rs, o, c, now, [], ordinal).rows;
      && |out| == |rs|
      && forall i :: 0 <= i < |out| ==>
           Get(out[i], CreatedAt) != Nil && Get(out[i], UpdatedAt) != Nil
  {
    RunSilent(o, c, ColumnSet(o, c), Plan(StampAll(rs, now), o.batchSize), ordinal);
  }

  /** Batches leave from the end: for a positive batch size the first write
      receives the last `b` records of the list (all of them when fewer), and the
      last write receives the records at its front. */
  lemma PopOrder<T>(rs: seq<T>, b: int)
    requires rs != [] && b > 0
    ensures var ps := Plan(rs, b);
      && ps != []
      && ps[0] == rs[|rs| - PopSize(rs, b)..]
      && |ps[|ps| - 1]| <= |rs| && ps[|ps| - 1] == rs[..|ps[|ps| - 1]|]
  {
    PlanShape(rs, b);
    PopsSizes(rs, b, BatchCount(|rs|, b));
  }
}
