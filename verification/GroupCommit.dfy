/** Group commit is invisible: whatever batches the writer forms, the database,
    the retained log, the replies and the broadcast are those of running every
    command alone, in order of arrival. */
module GroupCommit {
  import opened Prelude
  import opened Store
  import opened Writer

  const ALL_OK := Infra(true, true, true)

  /** One command by itself: a data operation in a transaction of its own. */
  function Alone(job: Job): Step {
    if Batchable(job.cmd) then Grouped([job], ALL_OK) else Lone(job)
  }

  function Serial(cfg: Config, s: Server, jobs: seq<Job>): Server {
    if jobs == [] then s
    else
      var job := jobs[|jobs| - 1];
      SoloAdmissible(cfg, job);
      Perform(cfg, Serial(cfg, s, jobs[..|jobs| - 1]), Alone(job))
  }

  lemma SoloAdmissible(cfg: Config, job: Job)
    ensures Admissible(cfg, Alone(job))
  {
  }

  // ---- Trimming once is trimming every time ---------------------------------

  lemma {:induction false} AfterBound(log: seq<LogRow>, bound: int)
    ensures log != [] && bound < MaxSeq(log) ==>
              After(log, bound) != [] && MaxSeq(After(log, bound)) == MaxSeq(log)
    ensures log != [] && bound >= MaxSeq(log) ==> After(log, bound) == []
  {
    if |log| > 1 {
      AfterBound(log[..|log| - 1], bound);
      var kept, last := After(log[..|log| - 1], bound), log[|log| - 1];
      if last.change.seqno > bound {
        assert (kept + [last])[..|kept|] == kept;
      }
    }
  }

  lemma {:induction false} AfterTwice(log: seq<LogRow>, a: int, b: int)
    requires a <= b
    ensures After(After(log, a), b) == After(log, b)
  {
    if log != [] {
      AfterTwice(log[..|log| - 1], a, b);
      var kept, last := After(log[..|log| - 1], a), log[|log| - 1];
      if last.change.seqno > a {
        assert (kept + [last])[..|kept|] == kept;
      }
    }
  }

  /** Trimming keeps the next seq, because it never deletes the maximum row. */
  lemma TrimKeepsMax(log: seq<LogRow>, retention: int)
    ensures MaxSeq(Trim(log, retention)) == MaxSeq(log)
    ensures Trim(log, retention) == [] <==> log == []
    ensures NextSeq(Trim(log, retention)) == NextSeq(log)
  {
    AfterBound(log, MaxSeq(log) - retention);
  }

  lemma AppendMax(log: seq<LogRow>, row: LogRow)
    requires row.change.seqno == NextSeq(log)
    ensures MaxSeq(log + [row]) == row.change.seqno
    ensures log != [] ==> row.change.seqno == MaxSeq(log) + 1
  {
    assert (log + [row])[..|log|] == log;
  }

  lemma TrimThenAppend(log: seq<LogRow>, row: LogRow, retention: int)
    requires row.change.seqno == NextSeq(log)
    ensures Trim(Trim(log, retention) + [row], retention) == Trim(log + [row], retention)
  {
    if retention > 0 {
      var trimmed := Trim(log, retention);
      TrimKeepsMax(log, retention);
      AppendMax(log, row);
      AppendMax(trimmed, row);
      var b := row.change.seqno - retention;
      assert (trimmed + [row])[..|trimmed|] == trimmed;
      assert (log + [row])[..|log|] == log;
      if log != [] {
        AfterTwice(log, MaxSeq(log) - retention, b);
      }
    }
  }

  // ---- One operation on a trimmed log ---------------------------------------

  /** The log does not influence an operation except through the next seq. */
  lemma ApplyIgnoresOldRows(cfg: Config, a: Db, b: Db, job: Job)
    requires Batchable(job.cmd)
    requires a.tables == b.tables && a.indexes == b.indexes && NextSeq(a.log) == NextSeq(b.log)
    ensures var x, y := Apply(cfg, a, job), Apply(cfg, b, job);
            && x.outcome == y.outcome
            && x.db.tables == y.db.tables && x.db.indexes == y.db.indexes
  {
    hide Clashes, NextSeq, Rows;
  }

  lemma ApplyLogs(cfg: Config, db: Db, job: Job)
    requires Batchable(job.cmd)
    ensures var x := Apply(cfg, db, job);
            if x.outcome.Wrote? then
              && x.outcome.change.seqno == NextSeq(db.log)
              && x.db.log == db.log + [LogRow(x.outcome.change, job.env.now)]
            else x.db == db
  {
    hide Clashes, NextSeq, Rows;
  }

  lemma OneOperation(cfg: Config, db: Db, job: Job)
    requires Batchable(job.cmd)
    ensures var x := Apply(cfg, db, job);
            && RunOps(cfg, db, [job]) == Run(x.db, [x.outcome])
            && Changes([x.outcome]) == (if x.outcome.Wrote? then [x.outcome.change] else [])
            && Replies([x.outcome], true) == [Settle(x.outcome, true)]
  {
    hide Apply, Settle;
    var x := Apply(cfg, db, job);
    assert [job][..0] == [];
    assert RunOps(cfg, db, []) == Run(db, []);
    assert [x.outcome][..0] == [];
  }

  /** The effect of a batch of one, with every statement succeeding. */
  lemma SoloEffect(cfg: Config, db: Db, job: Job)
    requires Batchable(job.cmd)
    ensures var x, e := Apply(cfg, db, job), BatchEffect(cfg, db, [job], ALL_OK);
            && e.replies == [Settle(x.outcome, true)]
            && if x.outcome.Wrote? then e.events == [x.outcome.change] && e.db == x.db.(log := Trim(x.db.log, cfg.retention))
               else e.events == [] && e.db == db
  {
    hide Apply, RunOps, Changes, Replies, Settle, Trim;
    OneOperation(cfg, db, job);
    ApplyLogs(cfg, db, job);
  }

  // ---- A batch is its operations one by one ---------------------------------

  lemma SerialGrows(cfg: Config, s: Server, jobs: seq<Job>, job: Job)
    ensures Admissible(cfg, Alone(job))
    ensures Serial(cfg, s, jobs + [job]) == Perform(cfg, Serial(cfg, s, jobs), Alone(job))
  {
    assert (jobs + [job])[..|jobs|] == jobs;
  }

  lemma AnswersOfOne(job: Job, reply: Reply)
    ensures Answers([job], [reply]) == map[job.token := reply]
  {
    assert [job][..0] == [] && [reply][..0] == [];
  }

  /** A batch so far, and the same operations committed one by one: equal but
      for the rows that the trims in between have already taken. */
  ghost predicate Matches(cfg: Config, s: Server, batch: seq<Job>)
    requires AllBatchable(batch)
  {
    var run, solo := RunOps(cfg, s.db, batch), Serial(cfg, s, batch);
    && solo.db.tables == run.db.tables
    && solo.db.indexes == run.db.indexes
    && solo.db.log == (if Changes(run.outcomes) == [] then run.db.log else Trim(run.db.log, cfg.retention))
    && solo.channel == s.channel + Changes(run.outcomes)
    && solo.answered == s.answered + Answers(batch, Replies(run.outcomes, true))
  }

  /** One more operation, in the batch and alone, with the same outcome. */
  lemma SameOutcome(cfg: Config, s: Server, batch: seq<Job>, job: Job)
    requires AllBatchable(batch) && Batchable(job.cmd) && Matches(cfg, s, batch)
    ensures var run, solo := RunOps(cfg, s.db, batch), Serial(cfg, s, batch);
            var x, y := Apply(cfg, run.db, job), Apply(cfg, solo.db, job);
            && x.outcome == y.outcome
            && x.db.tables == y.db.tables && x.db.indexes == y.db.indexes
            && if x.outcome.Wrote? then
                 var row := LogRow(x.outcome.change, job.env.now);
                 && row.change.seqno == NextSeq(run.db.log)
                 && x.db.log == run.db.log + [row] && y.db.log == solo.db.log + [row]
               else x.db == run.db && y.db == solo.db
  {
    var run, solo := RunOps(cfg, s.db, batch), Serial(cfg, s, batch);
    TrimKeepsMax(run.db.log, cfg.retention);
    ApplyIgnoresOldRows(cfg, solo.db, run.db, job);
    ApplyLogs(cfg, run.db, job);
    ApplyLogs(cfg, solo.db, job);
    hide *;
  }

  /** What the operation alone does to the server. */
  lemma AloneEffect(cfg: Config, s: Server, job: Job)
    requires Batchable(job.cmd)
    ensures Admissible(cfg, Alone(job))
    ensures var y, t := Apply(cfg, s.db, job), Perform(cfg, s, Alone(job));
            && t.answered == s.answered + map[job.token := Settle(y.outcome, true)]
            && if y.outcome.Wrote? then
                 && t.channel == s.channel + [y.outcome.change]
                 && t.db == y.db.(log := Trim(y.db.log, cfg.retention))
               else t.channel == s.channel && t.db == s.db
  {
    SoloEffect(cfg, s.db, job);
    AnswersOfOne(job, Settle(Apply(cfg, s.db, job).outcome, true));
    assert s.channel + [] == s.channel;
  }

  lemma AnswersStep(answered: map<nat, Reply>, batch: seq<Job>, outcomes: seq<Outcome>, job: Job, outcome: Outcome)
    requires |batch| == |outcomes|
    ensures answered + Answers(batch, Replies(outcomes, true)) + map[job.token := Settle(outcome, true)] ==
            answered + Answers(batch + [job], Replies(outcomes + [outcome], true))
  {
    var replies := Replies(outcomes, true);
    assert Replies(outcomes + [outcome], true) == replies + [Settle(outcome, true)];
    AnswersSnoc(batch, replies, job, Settle(outcome, true));
    MapSingle(answered, Answers(batch, replies), job.token, Settle(outcome, true));
  }

  lemma LogStep(log: seq<LogRow>, soloLog: seq<LogRow>, row: LogRow, quiet: bool, retention: int)
    requires soloLog == (if quiet then log else Trim(log, retention))
    requires row.change.seqno == NextSeq(log)
    ensures Trim(soloLog + [row], retention) == Trim(log + [row], retention)
  {
    TrimThenAppend(log, row, retention);
  }

  lemma MatchesStep(cfg: Config, s: Server, batch: seq<Job>, job: Job)
    requires AllBatchable(batch) && Batchable(job.cmd) && Matches(cfg, s, batch)
    ensures Matches(cfg, s, batch + [job])
  {
    hide RunOps, Apply, Serial, Perform, Alone, Changes, Trim, Answers, NextSeq, Settle, Replies, Admissible;
    var run, solo := RunOps(cfg, s.db, batch), Serial(cfg, s, batch);
    var x := Apply(cfg, run.db, job);
    RunSnoc(cfg, s.db, batch, job);
    SerialGrows(cfg, s, batch, job);
    SameOutcome(cfg, s, batch, job);
    AloneEffect(cfg, solo, job);
    AnswersStep(s.answered, batch, run.outcomes, job, x.outcome);
    if x.outcome.Wrote? {
      LogStep(run.db.log, solo.db.log, LogRow(x.outcome.change, job.env.now), Changes(run.outcomes) == [], cfg.retention);
      Assoc(s.channel, Changes(run.outcomes), [x.outcome.change]);
    }
  }

  lemma MapSingle(a: map<nat, Reply>, b: map<nat, Reply>, t: nat, r: Reply)
    ensures (a + b) + map[t := r] == a + b[t := r]
  {
  }

  lemma AnswersSnoc(batch: seq<Job>, replies: seq<Reply>, job: Job, reply: Reply)
    requires |batch| == |replies|
    ensures Answers(batch + [job], replies + [reply]) == Answers(batch, replies)[job.token := reply]
  {
    assert (batch + [job])[..|batch|] == batch && (replies + [reply])[..|batch|] == replies;
  }

  lemma RunSnoc(cfg: Config, db: Db, batch: seq<Job>, job: Job)
    requires AllBatchable(batch) && Batchable(job.cmd)
    ensures var run := RunOps(cfg, db, batch);
            var x := Apply(cfg, run.db, job);
            && RunOps(cfg, db, batch + [job]) == Run(x.db, run.outcomes + [x.outcome])
            && Changes(run.outcomes + [x.outcome]) ==
               Changes(run.outcomes) + if x.outcome.Wrote? then [x.outcome.change] else []
  {
    assert (batch + [job])[..|batch|] == batch;
    var outcomes := RunOps(cfg, db, batch).outcomes;
    assert forall o: Outcome :: (outcomes + [o])[..|outcomes|] == outcomes;
  }

  lemma {:induction false} MatchesAll(cfg: Config, s: Server, batch: seq<Job>)
    requires AllBatchable(batch)
    ensures Matches(cfg, s, batch)
  {
    if batch == [] {
      assert Replies([], true) == [];
      assert s.answered + map[] == s.answered && s.channel + [] == s.channel;
    } else {
      var n := |batch| - 1;
      assert batch[..n] + [batch[n]] == batch;
      hide Matches;
      MatchesAll(cfg, s, batch[..n]);
      MatchesStep(cfg, s, batch[..n], batch[n]);
    }
  }

  lemma {:induction false} BatchIsSerial(cfg: Config, s: Server, batch: seq<Job>)
    requires Admissible(cfg, Grouped(batch, ALL_OK))
    ensures Perform(cfg, s, Grouped(batch, ALL_OK)) == Serial(cfg, s, batch)
  {
    MatchesAll(cfg, s, batch);
  }

  lemma {:induction false} SerialConcat(cfg: Config, s: Server, a: seq<Job>, b: seq<Job>)
    ensures Serial(cfg, s, a + b) == Serial(cfg, Serial(cfg, s, a), b)
    decreases |b|
  {
    if b == [] {
      assert a + b == a;
    } else {
      hide Serial, Perform, Alone, Admissible;
      var front, last := b[..|b| - 1], b[|b| - 1];
      SerialConcat(cfg, s, a, front);
      SerialGrows(cfg, s, a + front, last);
      SerialGrows(cfg, Serial(cfg, s, a), front, last);
      assert front + [last] == b;
      Assoc(a, front, [last]);
    }
  }

  /** The whole loop: with every transaction statement succeeding, any way of
      batching the arrivals ends exactly as running each command alone. */
  lemma {:induction false} GroupCommitInvisible(cfg: Config, s: Server, steps: seq<Step>)
    requires AllAdmissible(cfg, steps)
    requires forall i :: 0 <= i < |steps| && steps[i].Grouped? ==> steps[i].infra == ALL_OK
    ensures PerformAll(cfg, s, steps) == Serial(cfg, s, Jobs(steps))
  {
    if steps != [] {
      var n := |steps| - 1;
      GroupCommitInvisible(cfg, s, steps[..n]);
      var before := Serial(cfg, s, Jobs(steps[..n]));
      match steps[n] {
        case Grouped(batch, _) => BatchIsSerial(cfg, before, batch);
        case Lone(job) => SerialGrows(cfg, before, [], job); assert [] + [job] == [job];
      }
      SerialConcat(cfg, s, Jobs(steps[..n]), StepJobs(steps[n]));
    }
  }
}
