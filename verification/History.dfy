/** The history of all committed log rows, and what every reachable database
    owes it: the log explains the data, seqs are gap-free, trims lose only a
    prefix, and unique indexes hold. */
module History {
  import opened Prelude
  import opened Sql
  import opened Store
  import opened Writer
  import opened GroupCommit

  // ---- Replaying a history --------------------------------------------------

  function AbsorbRow(rows: Table, row: LogRow): Table {
    var c := row.change;
    if c.op.Delete? || c.doc.None? then rows - {c.id}
    else if c.op.Update? && c.id in rows then rows[c.id := Row(c.doc.value, rows[c.id].created, row.ts)]
    else rows[c.id := Row(c.doc.value, row.ts, row.ts)]
  }

  /** The rows of one collection after a history, from nothing. */
  function Replay(h: seq<LogRow>, coll: string): Table {
    if h == [] then map[]
    else
      var before := Replay(h[..|h| - 1], coll);
      var last := h[|h| - 1];
      if last.change.coll == coll then AbsorbRow(before, last) else before
  }

  /** A row's op says what it did: it inserts an absent id, updates or deletes a
      present one, and carries a document unless it deletes. */
  predicate Fits(before: Table, c: Change) {
    && (c.op.Insert? <==> c.id !in before)
    && (c.op.Delete? <==> c.doc.None?)
  }

  predicate FitsAt(h: seq<LogRow>, i: nat)
    requires i < |h|
  {
    Fits(Replay(h[..i], h[i].change.coll), h[i].change)
  }

  ghost predicate WellTyped(h: seq<LogRow>) {
    forall i :: 0 <= i < |h| ==> FitsAt(h, i)
  }

  /** Sequence numbers count the committed changes from 1, without gaps. */
  ghost predicate Gapless(h: seq<LogRow>) {
    forall i :: 0 <= i < |h| ==> h[i].change.seqno == i + 1
  }

  ghost predicate Explained(h: seq<LogRow>, tables: map<string, Table>) {
    forall coll :: Rows(tables, coll) == Replay(h, coll)
  }

  /** The log is the end of the history, and never empty once anything happened. */
  ghost predicate Retains(h: seq<LogRow>, log: seq<LogRow>) {
    && |log| <= |h|
    && log == h[|h| - |log|..]
    && (h != [] ==> log != [])
  }

  ghost predicate Unique(cfg: Config, db: Db) {
    forall name :: name in db.indexes && db.indexes[name].unique ==>
      !Repeats(cfg.render, Rows(db.tables, db.indexes[name].coll), db.indexes[name])
  }

  ghost predicate Consistent(cfg: Config, h: seq<LogRow>, db: Db) {
    && Gapless(h) && WellTyped(h)
    && Explained(h, db.tables)
    && Retains(h, db.log)
    && Unique(cfg, db)
  }

  lemma ReplayGrows(h: seq<LogRow>, row: LogRow, coll: string)
    ensures Replay(h + [row], coll) ==
            if row.change.coll == coll then AbsorbRow(Replay(h, coll), row) else Replay(h, coll)
  {
    assert (h + [row])[..|h|] == h;
  }

  lemma TypingGrows(h: seq<LogRow>, row: LogRow)
    requires WellTyped(h) && Fits(Replay(h, row.change.coll), row.change)
    ensures WellTyped(h + [row])
  {
    var g := h + [row];
    forall i | 0 <= i < |g|
      ensures FitsAt(g, i)
    {
      assert g[..i] == h[..i];
      if i < |h| {
        assert FitsAt(h, i);
      } else {
        assert h[..i] == h;
      }
    }
  }

  // ---- The log as the end of the history ------------------------------------

  lemma {:induction false} SuffixMax(h: seq<LogRow>, k: nat)
    requires Gapless(h) && k < |h|
    ensures MaxSeq(h[k..]) == |h|
    decreases |h|
  {
    var log := h[k..];
    if |log| > 1 {
      var n := |h| - 1;
      assert log[..|log| - 1] == h[..n][k..];
      SuffixMax(h[..n], k);
    }
  }

  lemma {:induction false} SuffixAfter(h: seq<LogRow>, k: nat, bound: int)
    requires Gapless(h) && k <= |h|
    ensures After(h[k..], bound) == h[Min(|h|, Max(k, bound))..]
    decreases |h|
  {
    if k < |h| {
      var log, n := h[k..], |h| - 1;
      assert log[..|log| - 1] == h[..n][k..];
      SuffixAfter(h[..n], k, bound);
      var c := Min(n, Max(k, bound));
      assert log[|log| - 1] == h[n];
      if bound < n + 1 {
        assert h[..n][c..] + [h[n]] == h[c..];
      }
    }
  }

  lemma RetainedNext(h: seq<LogRow>, log: seq<LogRow>)
    requires Gapless(h) && Retains(h, log)
    ensures MaxSeq(log) == |h| && NextSeq(log) == |h| + 1
  {
    if h != [] {
      SuffixMax(h, |h| - |log|);
    }
  }

  /** A trim keeps exactly the last `retention` rows. */
  lemma TrimRetains(h: seq<LogRow>, log: seq<LogRow>, retention: int)
    requires Gapless(h) && Retains(h, log)
    ensures Retains(h, Trim(log, retention))
    ensures |Trim(log, retention)| == if retention <= 0 then |log| else Min(|log|, retention)
  {
    RetainedNext(h, log);
    if retention > 0 {
      SuffixAfter(h, |h| - |log|, |h| - retention);
    }
  }

  lemma RetainsGrows(h: seq<LogRow>, log: seq<LogRow>, row: LogRow)
    requires Retains(h, log)
    ensures Retains(h + [row], log + [row])
  {
  }

  // ---- Operations keep consistency ------------------------------------------

  lemma SameFacts(a: Value, b: Value)
    ensures Same(a, b) == Same(b, a)
    ensures Same(a, b) ==> (a == NULL <==> b == NULL)
  {
  }

  lemma UniqueAfterWrite(cfg: Config, db: Db, coll: string, id: string, row: Row)
    requires Unique(cfg, db)
    requires !Clashes(cfg.render, db.indexes, coll, Rows(db.tables, coll), id, row.doc)
    ensures Unique(cfg, WithRow(db, coll, id, row))
  {
    var after := WithRow(db, coll, id, row);
    forall name | name in after.indexes && after.indexes[name].unique
      ensures !Repeats(cfg.render, Rows(after.tables, after.indexes[name].coll), after.indexes[name])
    {
      var index := after.indexes[name];
      var was, now := Rows(db.tables, index.coll), Rows(after.tables, index.coll);
      if index.coll == coll {
        forall a, b | a in now && b in now && a != b && Key(cfg.render, now[a].doc, index) != NULL
          ensures !Same(Key(cfg.render, now[a].doc, index), Key(cfg.render, now[b].doc, index))
        {
          SameFacts(Key(cfg.render, now[a].doc, index), Key(cfg.render, now[b].doc, index));
          assert !Repeats(cfg.render, was, index);
        }
      }
    }
  }

  /** A write is refused for a clash exactly when it would break a unique index. */
  lemma ClashesExactlyWhenBroken(cfg: Config, db: Db, coll: string, id: string, row: Row)
    requires Unique(cfg, db)
    ensures Clashes(cfg.render, db.indexes, coll, Rows(db.tables, coll), id, row.doc) <==> !Unique(cfg, WithRow(db, coll, id, row))
  {
    var rows := Rows(db.tables, coll);
    if Clashes(cfg.render, db.indexes, coll, rows, id, row.doc) {
      var name, other :| && name in db.indexes && db.indexes[name].unique && db.indexes[name].coll == coll
                         && other in rows && other != id
                         && Key(cfg.render, row.doc, db.indexes[name]) != NULL
                         && Same(Key(cfg.render, row.doc, db.indexes[name]), Key(cfg.render, rows[other].doc, db.indexes[name]));
      var after := WithRow(db, coll, id, row);
      var now := Rows(after.tables, coll);
      assert now == rows[id := row] && id in now && other in now && now[id] == row && now[other] == rows[other];
      assert Repeats(cfg.render, Rows(after.tables, after.indexes[name].coll), after.indexes[name]);
    } else {
      UniqueAfterWrite(cfg, db, coll, id, row);
    }
  }

  lemma UniqueAfterRemoval(cfg: Config, db: Db, coll: string, id: string)
    requires Unique(cfg, db)
    ensures Unique(cfg, WithoutRow(db, coll, id))
  {
    var after := WithoutRow(db, coll, id);
    forall name | name in after.indexes && after.indexes[name].unique
      ensures !Repeats(cfg.render, Rows(after.tables, after.indexes[name].coll), after.indexes[name])
    {
      var index := after.indexes[name];
      assert !Repeats(cfg.render, Rows(db.tables, index.coll), index);
    }
  }

  lemma GaplessGrows(h: seq<LogRow>, row: LogRow)
    requires Gapless(h) && row.change.seqno == |h| + 1
    ensures Gapless(h + [row])
  {
  }

  lemma ExplainedGrows(h: seq<LogRow>, row: LogRow, before: map<string, Table>, after: map<string, Table>)
    requires Explained(h, before)
    requires Rows(after, row.change.coll) == AbsorbRow(Rows(before, row.change.coll), row)
    requires forall other :: other != row.change.coll ==> Rows(after, other) == Rows(before, other)
    ensures Explained(h + [row], after)
  {
    hide AbsorbRow, Rows, Replay;
    forall coll
      ensures Rows(after, coll) == Replay(h + [row], coll)
    {
      ReplayGrows(h, row, coll);
      assert Rows(before, coll) == Replay(h, coll);
    }
  }

  /** An operation that wrote extends the history by its row. */
  lemma ApplyConsistent(cfg: Config, h: seq<LogRow>, db: Db, job: Job)
    requires Batchable(job.cmd) && Consistent(cfg, h, db)
    ensures var x := Apply(cfg, db, job);
            if x.outcome.Wrote? then Consistent(cfg, h + [LogRow(x.outcome.change, job.env.now)], x.db)
            else x.db == db
  {
    hide Apply, Gapless, Retains, Unique, WellTyped, AbsorbRow, NextSeq;
    var x := Apply(cfg, db, job);
    ApplyLogs(cfg, db, job);
    if x.outcome.Wrote? {
      var row := LogRow(x.outcome.change, job.env.now);
      RetainedNext(h, db.log);
      RetainsGrows(h, db.log, row);
      GaplessGrows(h, row);
      WrittenRow(cfg, db, job);
      assert Rows(db.tables, row.change.coll) == Replay(h, row.change.coll);
      TypingGrows(h, row);
      ExplainedGrows(h, row, db.tables, x.db.tables);
    }
  }

  /** What an operation that wrote did to the tables and the indexes. */
  lemma WrittenRow(cfg: Config, db: Db, job: Job)
    requires Batchable(job.cmd) && Unique(cfg, db) && Apply(cfg, db, job).outcome.Wrote?
    ensures var x := Apply(cfg, db, job);
            var c := x.outcome.change;
            && Fits(Rows(db.tables, c.coll), c)
            && Rows(x.db.tables, c.coll) == AbsorbRow(Rows(db.tables, c.coll), LogRow(c, job.env.now))
            && (forall other :: other != c.coll ==> Rows(x.db.tables, other) == Rows(db.tables, other))
            && Unique(cfg, x.db)
  {
    var now := job.env.now;
    match job.cmd {
      case Create(coll, doc) =>
        UniqueAfterWrite(cfg, db, coll, job.env.newId, Row(doc, now, now));
      case Replace(coll, id, doc) =>
        var existing := Existing(db, coll, id, job.env);
        UniqueAfterWrite(cfg, db, coll, id, Row(doc, if existing.Some? then existing.value else now, now));
      case Delete(coll, id) =>
        UniqueAfterRemoval(cfg, db, coll, id);
    }
  }

  /** The statements an operation reaches before it writes: a failed lookup of a
      replaced document counts as none. */
  predicate Reaches(job: Job) {
    job.env.savepointOk && job.env.fault !in {SizeRead, Prepare, Write}
  }

  /** A create or replace has a row to store; whether that keeps ids and unique
      indexes intact. */
  ghost predicate Storable(cfg: Config, db: Db, job: Job)
    requires job.cmd.Create? || job.cmd.Replace?
  {
    var now := job.env.now;
    match job.cmd
    case Create(coll, doc) =>
      job.env.newId !in Rows(db.tables, coll) && Unique(cfg, WithRow(db, coll, job.env.newId, Row(doc, now, now)))
    case Replace(coll, id, doc) =>
      && (job.env.fault == Select ==> id !in Rows(db.tables, coll))
      && Unique(cfg, WithRow(db, coll, id, Row(doc, now, now)))
  }

  /** What decides an operation's outcome, in terms of what the write would do. */
  lemma OutcomeExactlyWhen(cfg: Config, db: Db, job: Job)
    requires Batchable(job.cmd) && Unique(cfg, db)
    ensures var o, fault := Apply(cfg, db, job).outcome, job.env.fault;
            if job.cmd.Delete? then
              var found := job.cmd.id in Rows(db.tables, job.cmd.coll);
              && (o.Wrote? <==> job.env.savepointOk && fault !in {Prepare, Write, Append} && found)
              && (o.NotFound? <==> job.env.savepointOk && fault != Prepare && !found && (fault == Write ==> job.cmd.coll !in db.tables))
            else
              && (o.Wrote? <==> Reaches(job) && job.env.sizeOk && fault != Append && Storable(cfg, db, job))
              && (o == Rejected(Conflict) <==> Reaches(job) && job.env.sizeOk && !Storable(cfg, db, job))
              && (o == Rejected(TooLarge) <==> job.env.savepointOk && fault != SizeRead && !job.env.sizeOk)
  {
    hide Unique, Clashes;
    var now := job.env.now;
    match job.cmd {
      case Create(coll, doc) =>
        ClashesExactlyWhenBroken(cfg, db, coll, job.env.newId, Row(doc, now, now));
      case Replace(coll, id, doc) =>
        ClashesExactlyWhenBroken(cfg, db, coll, id, Row(doc, now, now));
      case Delete(_, _) =>
    }
  }

  lemma AdministerConsistent(cfg: Config, h: seq<LogRow>, db: Db, cmd: Command)
    requires !Batchable(cmd) && Consistent(cfg, h, db)
    ensures Consistent(cfg, h, Administer(cfg, db, cmd))
    ensures Administer(cfg, db, cmd).log == db.log
  {
    var after := Administer(cfg, db, cmd);
    assert forall coll :: Rows(after.tables, coll) == Rows(db.tables, coll);
    forall name | name in after.indexes && after.indexes[name].unique
      ensures !Repeats(cfg.render, Rows(after.tables, after.indexes[name].coll), after.indexes[name])
    {
      if name in db.indexes && after.indexes[name] == db.indexes[name] {
        assert !Repeats(cfg.render, Rows(db.tables, db.indexes[name].coll), db.indexes[name]);
      }
    }
  }

  /** A unique index is created exactly if its name is free and the stored rows
      allow it; a dropped one is gone, and no other changes. */
  lemma IndexesExactlyWhen(cfg: Config, db: Db, name: string, index: Index)
    requires Unique(cfg, db)
    ensures var wanted := db.(indexes := db.indexes[name := index]);
            var after := Administer(cfg, db, CreateIndex(name, index.coll, index.path, index.unique));
            after.indexes == if name !in db.indexes && Unique(cfg, wanted) then wanted.indexes else db.indexes
    ensures var left := Administer(cfg, db, DropIndex(name)).indexes;
            name !in left && forall other :: other != name ==>
              (other in left <==> other in db.indexes) && (other in left ==> left[other] == db.indexes[other])
  {
    var wanted := db.(indexes := db.indexes[name := index]);
    if name !in db.indexes {
      assert wanted.indexes[name] == index;
      if !(index.unique && Repeats(cfg.render, Rows(db.tables, index.coll), index)) {
        forall other | other in wanted.indexes && wanted.indexes[other].unique
          ensures !Repeats(cfg.render, Rows(wanted.tables, wanted.indexes[other].coll), wanted.indexes[other])
        {
          if other != name {
            assert other in db.indexes && wanted.indexes[other] == db.indexes[other];
          }
        }
      }
    }
  }

  // ---- Batches --------------------------------------------------------------

  /** The log rows a batch appends. */
  function Committed(cfg: Config, db: Db, batch: seq<Job>): seq<LogRow>
    requires AllBatchable(batch)
  {
    if batch == [] then []
    else
      var n := |batch| - 1;
      var outcome := Apply(cfg, RunOps(cfg, db, batch[..n]).db, batch[n]).outcome;
      Committed(cfg, db, batch[..n]) + if outcome.Wrote? then [LogRow(outcome.change, batch[n].env.now)] else []
  }

  function ChangesOf(rows: seq<LogRow>): (r: seq<Change>)
    ensures |r| == |rows| && forall i :: 0 <= i < |r| ==> r[i] == rows[i].change
  {
    seq(|rows|, i requires 0 <= i < |rows| => rows[i].change)
  }

  /** A batch cut before its last operation. */
  lemma BatchCut(cfg: Config, db: Db, batch: seq<Job>)
    requires AllBatchable(batch) && batch != []
    ensures var n := |batch| - 1;
            var run, rows := RunOps(cfg, db, batch[..n]), Committed(cfg, db, batch[..n]);
            var x := Apply(cfg, run.db, batch[n]);
            && RunOps(cfg, db, batch) == Run(x.db, run.outcomes + [x.outcome])
            && (if x.outcome.Wrote? then
                  && Committed(cfg, db, batch) == rows + [LogRow(x.outcome.change, batch[n].env.now)]
                  && Changes(run.outcomes + [x.outcome]) == Changes(run.outcomes) + [x.outcome.change]
                  && x.db.log == run.db.log + [LogRow(x.outcome.change, batch[n].env.now)]
                else
                  && Committed(cfg, db, batch) == rows
                  && Changes(run.outcomes + [x.outcome]) == Changes(run.outcomes)
                  && x.db == run.db)
  {
    var n := |batch| - 1;
    assert batch[..n] + [batch[n]] == batch;
    CommittedCut(cfg, db, batch);
    hide RunOps, Apply, Committed, Changes;
    RunSnoc(cfg, db, batch[..n], batch[n]);
    ApplyLogs(cfg, RunOps(cfg, db, batch[..n]).db, batch[n]);
  }

  lemma CommittedCut(cfg: Config, db: Db, batch: seq<Job>)
    requires AllBatchable(batch) && batch != []
    ensures var n := |batch| - 1;
            var outcome := Apply(cfg, RunOps(cfg, db, batch[..n]).db, batch[n]).outcome;
            Committed(cfg, db, batch) == if outcome.Wrote? then Committed(cfg, db, batch[..n]) + [LogRow(outcome.change, batch[n].env.now)]
                                         else Committed(cfg, db, batch[..n])
  {
    hide Apply, RunOps;
  }

  /** A batch's working database is explained by the history with its rows, and
      the events it will broadcast are those rows' changes, in seq order. */
  lemma {:induction false} BatchConsistent(cfg: Config, h: seq<LogRow>, db: Db, batch: seq<Job>)
    requires AllBatchable(batch) && Consistent(cfg, h, db)
    ensures BatchExplained(cfg, h, db, batch)
  {
    if batch == [] {
      assert h + [] == h;
    } else {
      hide *;
      var n := |batch| - 1;
      BatchConsistent(cfg, h, db, batch[..n]) by {
        AllFront(batch);
      }
      BatchExplainedStep(cfg, h, db, batch);
    }
  }

  ghost predicate BatchExplained(cfg: Config, h: seq<LogRow>, db: Db, batch: seq<Job>)
    requires AllBatchable(batch)
  {
    var run, rows := RunOps(cfg, db, batch), Committed(cfg, db, batch);
    && Consistent(cfg, h + rows, run.db)
    && Changes(run.outcomes) == ChangesOf(rows)
    && |run.db.log| == |db.log| + |rows|
  }

  lemma BatchExplainedParts(cfg: Config, h: seq<LogRow>, db: Db, batch: seq<Job>)
    requires AllBatchable(batch) && BatchExplained(cfg, h, db, batch)
    ensures var run, rows := RunOps(cfg, db, batch), Committed(cfg, db, batch);
            && Consistent(cfg, h + rows, run.db)
            && Changes(run.outcomes) == ChangesOf(rows)
            && |run.db.log| == |db.log| + |rows|
  {
    hide Consistent, RunOps, Committed, Changes;
  }

  lemma AllFront(batch: seq<Job>)
    requires AllBatchable(batch) && batch != []
    ensures AllBatchable(batch[..|batch| - 1]) && Batchable(batch[|batch| - 1].cmd)
  {
  }

  lemma ChangesOfGrows(rows: seq<LogRow>, row: LogRow)
    ensures ChangesOf(rows + [row]) == ChangesOf(rows) + [row.change]
  {
  }

  lemma BatchExplainedStep(cfg: Config, h: seq<LogRow>, db: Db, batch: seq<Job>)
    requires AllBatchable(batch) && batch != []
    requires BatchExplained(cfg, h, db, batch[..|batch| - 1])
    ensures BatchExplained(cfg, h, db, batch)
  {
    AllFront(batch);
    BatchCut(cfg, db, batch);
    hide RunOps, Apply, Committed, Changes, Consistent, ChangesOf;
    var front, last := batch[..|batch| - 1], batch[|batch| - 1];
    var run, rows := RunOps(cfg, db, front), Committed(cfg, db, front);
    var x := Apply(cfg, run.db, last);
    ApplyConsistent(cfg, h + rows, run.db, last);
    if x.outcome.Wrote? {
      var row := LogRow(x.outcome.change, last.env.now);
      Assoc(h, rows, [row]);
      ChangesOfGrows(rows, row);
    }
  }

  // ---- Honest replies -------------------------------------------------------

  /** The committed row that a successful reply to a command reports. */
  predicate Reports(cmd: Command, reply: Reply, row: LogRow) {
    var c := row.change;
    match reply
    case Created(rec) =>
      && cmd.Create? && c.coll == cmd.coll && c.op == Insert && c.id == rec.id
      && c.doc == Some(cmd.doc) && rec.doc == cmd.doc && rec.created == rec.updated == row.ts
    case Replaced(rec, created) =>
      && cmd.Replace? && c.coll == cmd.coll && c.op == (if created then Insert else Update)
      && c.id == cmd.id == rec.id && c.doc == Some(cmd.doc) && rec.doc == cmd.doc && rec.updated == row.ts
    case Deleted(found) => found && cmd.Delete? && c.coll == cmd.coll && c.op == Op.Delete && c.id == cmd.id
    case Failed(_) => false
  }

  predicate Success(reply: Reply) {
    !reply.Failed? && reply != Deleted(false)
  }

  /** A success was only told if the row at its place reports it. */
  predicate Backed(h: seq<LogRow>, cmd: Command, reply: Reply, at: nat) {
    Success(reply) ==> at < |h| && Reports(cmd, reply, h[at])
  }

  lemma ApplyReports(cfg: Config, db: Db, job: Job)
    requires Batchable(job.cmd)
    ensures var o := Apply(cfg, db, job).outcome;
            o.Wrote? ==> Success(o.reply) && Reports(job.cmd, o.reply, LogRow(o.change, job.env.now))
  {
  }

  /** The outcome of an operation within its batch. */
  function OutcomeAt(cfg: Config, db: Db, batch: seq<Job>, i: nat): Outcome
    requires AllBatchable(batch) && i < |batch|
  {
    RunOps(cfg, db, batch).outcomes[i]
  }

  /** The place of an operation among the rows of its batch: how many the ones
      before it wrote. */
  function RowAt(cfg: Config, db: Db, batch: seq<Job>, i: nat): nat
    requires AllBatchable(batch) && i <= |batch|
  {
    |Committed(cfg, db, batch[..i])|
  }

  lemma OutcomeCut(cfg: Config, db: Db, batch: seq<Job>, i: nat)
    requires AllBatchable(batch) && i < |batch|
    ensures var n := |batch| - 1;
            var rows := Committed(cfg, db, batch);
            && Committed(cfg, db, batch[..n]) <= rows
            && (if i < n then OutcomeAt(cfg, db, batch, i) == OutcomeAt(cfg, db, batch[..n], i)
                else
                  var o := OutcomeAt(cfg, db, batch, n);
                  if !o.Wrote? then rows == Committed(cfg, db, batch[..n])
                  else
                    && Success(o.reply)
                    && rows == Committed(cfg, db, batch[..n]) + [LogRow(o.change, batch[n].env.now)]
                    && Reports(batch[n].cmd, o.reply, LogRow(o.change, batch[n].env.now)))
  {
    var n := |batch| - 1;
    BatchCut(cfg, db, batch);
    ApplyReports(cfg, RunOps(cfg, db, batch[..n]).db, batch[n]);
    hide RunOps, Apply, Committed, Reports, Changes, Success;
  }

  /** What an operation does to the rows of its batch: it adds one, which reports
      it, if and only if it wrote. */
  lemma {:induction false} OwnRow(cfg: Config, db: Db, batch: seq<Job>, i: nat)
    requires AllBatchable(batch) && i < |batch|
    ensures var o, rows, at := OutcomeAt(cfg, db, batch, i), Committed(cfg, db, batch), RowAt(cfg, db, batch, i);
            if o.Wrote? then
              && RowAt(cfg, db, batch, i + 1) == at + 1 <= |rows|
              && Success(o.reply) && Reports(batch[i].cmd, o.reply, rows[at])
            else RowAt(cfg, db, batch, i + 1) == at <= |rows|
  {
    var n := |batch| - 1;
    OutcomeCut(cfg, db, batch, i);
    hide OutcomeAt, Committed, Reports, Success;
    if i < n {
      OwnRow(cfg, db, batch[..n], i);
      assert batch[..n][..i] == batch[..i] && batch[..n][..i + 1] == batch[..i + 1];
    } else {
      assert batch[..i + 1] == batch;
    }
  }

  lemma SuccessWhen(outcome: Outcome)
    requires outcome.Wrote? ==> Success(outcome.reply)
    ensures Success(Settle(outcome, true)) <==> outcome.Wrote?
  {
  }

  /** Once committed, every operation's success is backed by its own row of the
      batch; a batch that failed to commit tells no success. */
  lemma RepliesBacked(cfg: Config, db: Db, batch: seq<Job>, committed: bool, i: nat)
    requires AllBatchable(batch) && i < |batch|
    ensures var reply := Settle(OutcomeAt(cfg, db, batch, i), committed);
            if committed then Backed(Committed(cfg, db, batch), batch[i].cmd, reply, RowAt(cfg, db, batch, i)) else !Success(reply)
  {
    OwnRow(cfg, db, batch, i);
    hide OutcomeAt, Committed, Reports, RowAt;
    SuccessWhen(OutcomeAt(cfg, db, batch, i));
  }

  /** Different successes have different rows. */
  lemma {:induction false} OwnRowsDiffer(cfg: Config, db: Db, batch: seq<Job>, i: nat, j: nat)
    requires AllBatchable(batch) && i < j < |batch| && Success(Settle(OutcomeAt(cfg, db, batch, i), true))
    ensures RowAt(cfg, db, batch, i) < RowAt(cfg, db, batch, j)
    decreases j
  {
    hide OutcomeAt, Committed, Reports, RowAt, Success, Settle;
    OwnRow(cfg, db, batch, i);
    OwnRow(cfg, db, batch, j - 1);
    SuccessWhen(OutcomeAt(cfg, db, batch, i));
    if i < j - 1 {
      OwnRowsDiffer(cfg, db, batch, i, j - 1);
    }
  }

  /** Conversely, every row of the batch was told as a success to its command. */
  lemma {:induction false} RowsReported(cfg: Config, db: Db, batch: seq<Job>, k: nat) returns (i: nat)
    requires AllBatchable(batch) && k < |Committed(cfg, db, batch)|
    ensures i < |batch| && RowAt(cfg, db, batch, i) == k
    ensures var reply := Settle(OutcomeAt(cfg, db, batch, i), true);
            Success(reply) && Reports(batch[i].cmd, reply, Committed(cfg, db, batch)[k])
  {
    assert batch != [];
    var n := |batch| - 1;
    OutcomeCut(cfg, db, batch, n);
    if k < |Committed(cfg, db, batch[..n])| {
      i := RowsReported(cfg, db, batch[..n], k);
      assert batch[..n][..i] == batch[..i];
      OutcomeCut(cfg, db, batch, i);
    } else {
      i := n;
    }
    hide Committed, OutcomeAt, Reports;
    OwnRow(cfg, db, batch, i);
  }

  // ---- Timestamps -----------------------------------------------------------

  /** The position of the last row of a document in a history. */
  ghost predicate LastTouch(h: seq<LogRow>, coll: string, id: string, i: nat) {
    && i < |h| && h[i].change.coll == coll && h[i].change.id == id
    && forall j :: i < j < |h| ==> !(h[j].change.coll == coll && h[j].change.id == id)
  }

  lemma WellTypedFront(h: seq<LogRow>)
    requires WellTyped(h) && h != []
    ensures WellTyped(h[..|h| - 1])
    ensures var row := h[|h| - 1]; Fits(Replay(h[..|h| - 1], row.change.coll), row.change)
  {
    hide Fits, Replay;
    assert FitsAt(h, |h| - 1);
    var g := h[..|h| - 1];
    forall i | 0 <= i < |g|
      ensures FitsAt(g, i)
    {
      assert g[..i] == h[..i] && FitsAt(h, i);
    }
  }

  /** The row at `c` inserted the document, and only updates came after. */
  ghost predicate LastInsert(h: seq<LogRow>, coll: string, id: string, c: nat) {
    && c < |h| && h[c].change.coll == coll && h[c].change.id == id && h[c].change.op == Insert
    && forall j :: c < j < |h| && h[j].change.coll == coll && h[j].change.id == id ==> h[j].change.op == Update
  }

  ghost predicate Timed(h: seq<LogRow>, coll: string, id: string, row: Row, c: nat, u: nat) {
    && c <= u && LastInsert(h, coll, id, c) && LastTouch(h, coll, id, u)
    && h[u].change.doc == Some(row.doc) && row.created == h[c].ts && row.updated == h[u].ts
  }

  lemma TimedGrows(g: seq<LogRow>, row: LogRow, coll: string, id: string, before: Row, c: nat, u: nat)
    requires Timed(g, coll, id, before, c, u)
    ensures row.change.coll != coll || row.change.id != id ==> Timed(g + [row], coll, id, before, c, u)
    ensures row.change.coll == coll && row.change.id == id && row.change.op == Update && row.change.doc.Some? ==>
              Timed(g + [row], coll, id, Row(row.change.doc.value, before.created, row.ts), c, |g|)
  {
    var h := g + [row];
    assert forall j :: 0 <= j < |g| ==> h[j] == g[j];
  }

  /** A document was created by its last insert and updated by its last row: a
      replace moves `updated` and keeps `created`. */
  lemma {:induction false} Timestamps(h: seq<LogRow>, coll: string, id: string) returns (c: nat, u: nat)
    requires WellTyped(h) && id in Replay(h, coll)
    ensures Timed(h, coll, id, Replay(h, coll)[id], c, u)
  {
    var g, row := h[..|h| - 1], h[|h| - 1];
    assert g + [row] == h;
    ReplayGrows(g, row, coll);
    WellTypedFront(h);
    hide Replay, WellTyped, Timed;
    if row.change.coll == coll && row.change.id == id && row.change.op == Insert {
      c, u := |g|, |g|;
      FirstTouch(g, row, Replay(g, coll));
    } else {
      c, u := Timestamps(g, coll, id);
      TimedGrows(g, row, coll, id, Replay(g, coll)[id], c, u);
      if row.change.coll == coll && row.change.id == id {
        u := |g|;
      }
    }
  }

  lemma FirstTouch(g: seq<LogRow>, row: LogRow, before: Table)
    requires row.change.op == Insert && Fits(before, row.change)
    ensures Timed(g + [row], row.change.coll, row.change.id, AbsorbRow(before, row)[row.change.id], |g|, |g|)
  {
  }
}
