/** The writer actor: one connection, batches in one transaction with a
    savepoint per operation, deferred replies, broadcast after commit, trim. */
module Writer {
  import opened Prelude
  import opened JsonValues
  import opened Store

  /** How the transaction statements of one batch turn out. */
  datatype Infra = Infra(beginOk: bool, commitOk: bool, trimOk: bool)

  predicate AllBatchable(batch: seq<Job>) {
    forall i :: 0 <= i < |batch| ==> Batchable(batch[i].cmd)
  }

  // ---- A batch as a function ------------------------------------------------

  datatype Run = Run(db: Db, outcomes: seq<Outcome>)

  /** The operations of a batch, each on what the ones before it left. */
  function RunOps(cfg: Config, db: Db, batch: seq<Job>): (r: Run)
    requires AllBatchable(batch)
    ensures |r.outcomes| == |batch|
  {
    if batch == [] then Run(db, [])
    else
      var before := RunOps(cfg, db, batch[..|batch| - 1]);
      var last := Apply(cfg, before.db, batch[|batch| - 1]);
      Run(last.db, before.outcomes + [last.outcome])
  }

  /** The reply an operation's finisher sends once the transaction resolved. */
  function Settle(outcome: Outcome, committed: bool): Reply {
    match outcome
    case Wrote(reply, _) => if committed then reply else Failed(Internal)
    case NotFound => Deleted(false)
    case Rejected(err) => Failed(err)
    case NoSavepoint => Failed(Internal)
  }

  function Replies(outcomes: seq<Outcome>, committed: bool): (r: seq<Reply>)
    ensures |r| == |outcomes|
    ensures forall i :: 0 <= i < |r| ==> r[i] == Settle(outcomes[i], committed)
  {
    seq(|outcomes|, i requires 0 <= i < |outcomes| => Settle(outcomes[i], committed))
  }

  /** The changes of the operations that wrote, in order. */
  function Changes(outcomes: seq<Outcome>): seq<Change> {
    if outcomes == [] then []
    else
      var last := outcomes[|outcomes| - 1];
      Changes(outcomes[..|outcomes| - 1]) + if last.Wrote? then [last.change] else []
  }

  datatype Effect = Effect(db: Db, replies: seq<Reply>, events: seq<Change>)

  function BatchEffect(cfg: Config, db: Db, batch: seq<Job>, infra: Infra): (r: Effect)
    requires AllBatchable(batch)
    ensures |r.replies| == |batch|
  {
    if !infra.beginOk then Effect(db, seq(|batch|, _ => Failed(Internal)), [])
    else
      var run := RunOps(cfg, db, batch);
      var replies := Replies(run.outcomes, infra.commitOk);
      if !infra.commitOk then Effect(db, replies, [])
      else
        var events := Changes(run.outcomes);
        if events == [] || !infra.trimOk then Effect(run.db, replies, events)
        else Effect(run.db.(log := Trim(run.db.log, cfg.retention)), replies, events)
  }

  /** Each job's reply under the job's reply channel. */
  function Answers(batch: seq<Job>, replies: seq<Reply>): (r: map<nat, Reply>)
    requires |batch| == |replies|
    ensures r.Keys == set j | j in batch :: j.token
  {
    if batch == [] then map[]
    else
      var n := |batch| - 1;
      assert batch == batch[..n] + [batch[n]];
      Answers(batch[..n], replies[..n])[batch[n].token := replies[n]]
  }

  predicate Fresh(jobs: seq<Job>, answered: map<nat, Reply>) {
    forall i :: 0 <= i < |jobs| ==> jobs[i].token !in answered
  }

  predicate DistinctTokens(batch: seq<Job>) {
    forall i, j :: 0 <= i < j < |batch| ==> batch[i].token != batch[j].token
  }

  /** With distinct reply channels, each job finds exactly its own reply. */
  lemma {:induction false} AnswersByToken(batch: seq<Job>, replies: seq<Reply>, i: nat)
    requires |batch| == |replies| && DistinctTokens(batch) && i < |batch|
    ensures batch[i].token in Answers(batch, replies) && Answers(batch, replies)[batch[i].token] == replies[i]
  {
    var n := |batch| - 1;
    if i < n {
      AnswersByToken(batch[..n], replies[..n], i);
    }
  }

  // ---- Deferred finishers ---------------------------------------------------

  datatype Finish = Finish(token: nat, outcome: Outcome)

  function Deferred(batch: seq<Job>, outcomes: seq<Outcome>): seq<Finish>
    requires |batch| == |outcomes|
  {
    if batch == [] then []
    else
      var n := |batch| - 1;
      Deferred(batch[..n], outcomes[..n]) +
      if outcomes[n].NoSavepoint? then [] else [Finish(batch[n].token, outcomes[n])]
  }

  /** The replies sent while the batch still runs. */
  function Early(batch: seq<Job>, outcomes: seq<Outcome>): map<nat, Reply>
    requires |batch| == |outcomes|
  {
    if batch == [] then map[]
    else
      var n := |batch| - 1;
      var before := Early(batch[..n], outcomes[..n]);
      if outcomes[n].NoSavepoint? then before[batch[n].token := Failed(Internal)] else before
  }

  /** The replies the finishers send. */
  function Late(finishes: seq<Finish>, committed: bool): map<nat, Reply> {
    if finishes == [] then map[]
    else
      var n := |finishes| - 1;
      Late(finishes[..n], committed)[finishes[n].token := Settle(finishes[n].outcome, committed)]
  }

  function FinishChanges(finishes: seq<Finish>): seq<Change> {
    if finishes == [] then []
    else
      var last := finishes[|finishes| - 1];
      FinishChanges(finishes[..|finishes| - 1]) + if last.outcome.Wrote? then [last.outcome.change] else []
  }

  lemma FinishGrows(finishes: seq<Finish>, f: Finish, committed: bool)
    ensures Late(finishes + [f], committed) == Late(finishes, committed)[f.token := Settle(f.outcome, committed)]
    ensures FinishChanges(finishes + [f]) ==
            FinishChanges(finishes) + if f.outcome.Wrote? then [f.outcome.change] else []
  {
    assert (finishes + [f])[..|finishes|] == finishes;
  }

  lemma DeferredStep(batch: seq<Job>, outcomes: seq<Outcome>)
    requires |batch| == |outcomes| && batch != []
    ensures var n := |batch| - 1;
            Deferred(batch, outcomes) ==
            if outcomes[n].NoSavepoint? then Deferred(batch[..n], outcomes[..n])
            else Deferred(batch[..n], outcomes[..n]) + [Finish(batch[n].token, outcomes[n])]
  {
  }

  lemma {:induction false} DeferredChanges(batch: seq<Job>, outcomes: seq<Outcome>)
    requires |batch| == |outcomes|
    ensures FinishChanges(Deferred(batch, outcomes)) == Changes(outcomes)
  {
    if batch != [] {
      var n := |batch| - 1;
      DeferredChanges(batch[..n], outcomes[..n]);
      DeferredStep(batch, outcomes);
      if !outcomes[n].NoSavepoint? {
        FinishGrows(Deferred(batch[..n], outcomes[..n]), Finish(batch[n].token, outcomes[n]), true);
      }
    }
  }

  lemma UpdateRight(early: map<nat, Reply>, late: map<nat, Reply>, t: nat, r: Reply)
    requires t !in early && t !in late
    ensures (early + late)[t := r] == early + late[t := r] == early[t := r] + late
  {
  }

  /** Replies sent early and replies sent late make up one reply per job. */
  lemma {:induction false} EarlyAndLate(batch: seq<Job>, outcomes: seq<Outcome>, committed: bool)
    requires |batch| == |outcomes| && DistinctTokens(batch)
    ensures Answers(batch, Replies(outcomes, committed)) ==
            Early(batch, outcomes) + Late(Deferred(batch, outcomes), committed)
    ensures Early(batch, outcomes).Keys !! Late(Deferred(batch, outcomes), committed).Keys
  {
    if batch != [] {
      var n := |batch| - 1;
      EarlyAndLate(batch[..n], outcomes[..n], committed);
      assert Replies(outcomes, committed)[..n] == Replies(outcomes[..n], committed);
      var token := batch[n].token;
      var early, late := Early(batch[..n], outcomes[..n]), Deferred(batch[..n], outcomes[..n]);
      assert token !in Answers(batch[..n], Replies(outcomes[..n], committed));
      UpdateRight(early, Late(late, committed), token, Settle(outcomes[n], committed));
      FinishGrows(late, Finish(token, outcomes[n]), committed);
      DeferredStep(batch, outcomes);
    }
  }

  lemma AnswersGrow(batch: seq<Job>, replies: seq<Reply>, i: nat)
    requires |batch| == |replies| && i < |batch|
    ensures Answers(batch[..i + 1], replies[..i + 1]) == Answers(batch[..i], replies[..i])[batch[i].token := replies[i]]
    ensures DistinctTokens(batch) ==> batch[i].token !in Answers(batch[..i], replies[..i])
  {
    assert batch[..i + 1][..i] == batch[..i] && replies[..i + 1][..i] == replies[..i];
  }

  lemma MapGrows(a: map<nat, Reply>, b: map<nat, Reply>, t: nat, r: Reply)
    ensures a + b[t := r] == (a + b)[t := r]
  {
  }

  lemma MapJoin(a: map<nat, Reply>, b: map<nat, Reply>, c: map<nat, Reply>)
    ensures a + b + c == a + (b + c)
  {
  }

  lemma ApplyShape(cfg: Config, db: Db, job: Job)
    requires Batchable(job.cmd)
    ensures Apply(cfg, db, job).outcome.NoSavepoint? <==> !job.env.savepointOk
    ensures !Apply(cfg, db, job).outcome.Wrote? ==> Apply(cfg, db, job).db == db
  {
  }

  /** The effect of a batch in terms of what its phases compute. */
  lemma BatchParts(cfg: Config, db: Db, batch: seq<Job>, infra: Infra, answered: map<nat, Reply>)
    requires AllBatchable(batch) && DistinctTokens(batch) && infra.beginOk
    ensures var run, e := RunOps(cfg, db, batch), BatchEffect(cfg, db, batch, infra);
            var finishes := Deferred(batch, run.outcomes);
            && e.events == (if infra.commitOk then FinishChanges(finishes) else [])
            && e.db == (if !infra.commitOk then db
                        else if e.events == [] || !infra.trimOk then run.db
                        else run.db.(log := Trim(run.db.log, cfg.retention)))
            && answered + Early(batch, run.outcomes) + Late(finishes, infra.commitOk) ==
               answered + Answers(batch, e.replies)
  {
    var run := RunOps(cfg, db, batch);
    hide RunOps, Deferred, Early, Late, Changes, FinishChanges, Trim, Answers, DistinctTokens;
    EarlyAndLate(batch, run.outcomes, infra.commitOk);
    DeferredChanges(batch, run.outcomes);
    MapJoin(answered, Early(batch, run.outcomes), Late(Deferred(batch, run.outcomes), infra.commitOk));
  }

  lemma RunGrows(cfg: Config, db: Db, batch: seq<Job>, i: nat)
    requires AllBatchable(batch) && i < |batch|
    ensures var before, after := RunOps(cfg, db, batch[..i]), RunOps(cfg, db, batch[..i + 1]);
            var last := Apply(cfg, before.db, batch[i]);
            && after == Run(last.db, before.outcomes + [last.outcome])
            && Deferred(batch[..i + 1], after.outcomes) ==
               Deferred(batch[..i], before.outcomes) +
               (if last.outcome.NoSavepoint? then [] else [Finish(batch[i].token, last.outcome)])
            && Early(batch[..i + 1], after.outcomes) ==
               if last.outcome.NoSavepoint? then Early(batch[..i], before.outcomes)[batch[i].token := Failed(Internal)]
               else Early(batch[..i], before.outcomes)
  {
    var before, after := RunOps(cfg, db, batch[..i]), RunOps(cfg, db, batch[..i + 1]);
    assert batch[..i + 1][..i] == batch[..i];
    assert after.outcomes[..i] == before.outcomes;
  }

  lemma {:induction false} EarlyTokens(batch: seq<Job>, outcomes: seq<Outcome>)
    requires |batch| == |outcomes|
    ensures forall t :: t in Early(batch, outcomes) ==> exists j :: 0 <= j < |batch| && batch[j].token == t
  {
    if batch != [] {
      var n := |batch| - 1;
      EarlyTokens(batch[..n], outcomes[..n]);
    }
  }

  lemma {:induction false} LateTokens(finishes: seq<Finish>, committed: bool)
    ensures forall t :: t in Late(finishes, committed) ==> exists j :: 0 <= j < |finishes| && finishes[j].token == t
  {
    if finishes != [] {
      LateTokens(finishes[..|finishes| - 1], committed);
    }
  }

  /** The finishers' reply channels are distinct, and none has replied early. */
  lemma {:induction false} DeferredTokens(batch: seq<Job>, outcomes: seq<Outcome>, committed: bool)
    requires |batch| == |outcomes| && DistinctTokens(batch)
    ensures var fs := Deferred(batch, outcomes);
            && (forall i, j :: 0 <= i < j < |fs| ==> fs[i].token != fs[j].token)
            && (forall i :: 0 <= i < |fs| ==> fs[i].token !in Early(batch, outcomes))
            && (forall i :: 0 <= i < |fs| ==> exists j :: 0 <= j < |batch| && batch[j].token == fs[i].token)
  {
    if batch != [] {
      var n := |batch| - 1;
      DeferredTokens(batch[..n], outcomes[..n], committed);
      DeferredStep(batch, outcomes);
      EarlyTokens(batch[..n], outcomes[..n]);
    }
  }

  // ---- Runs of the loop -----------------------------------------------------

  datatype Step = Grouped(batch: seq<Job>, infra: Infra) | Lone(job: Job)

  function StepJobs(step: Step): seq<Job> {
    match step
    case Grouped(batch, _) => batch
    case Lone(job) => [job]
  }

  function Jobs(steps: seq<Step>): seq<Job> {
    if steps == [] then [] else Jobs(steps[..|steps| - 1]) + StepJobs(steps[|steps| - 1])
  }

  /** A batch holds only data operations, at least one and at most the
      configured number; everything else runs alone. */
  predicate Admissible(cfg: Config, step: Step) {
    match step
    case Grouped(batch, _) =>
      && AllBatchable(batch)
      && 1 <= |batch| <= Max(1, cfg.maxBatch)
      && (!cfg.groupCommit ==> |batch| == 1)
    case Lone(job) => !Batchable(job.cmd)
  }

  /** The database, everything broadcast, and every reply sent. */
  datatype Server = Server(db: Db, channel: seq<Change>, answered: map<nat, Reply>)

  function Perform(cfg: Config, s: Server, step: Step): Server
    requires Admissible(cfg, step)
  {
    match step
    case Grouped(batch, infra) =>
      var e := BatchEffect(cfg, s.db, batch, infra);
      Server(e.db, s.channel + e.events, s.answered + Answers(batch, e.replies))
    case Lone(job) => s.(db := Administer(cfg, s.db, job.cmd))
  }

  predicate AllAdmissible(cfg: Config, steps: seq<Step>) {
    forall i :: 0 <= i < |steps| ==> Admissible(cfg, steps[i])
  }

  function PerformAll(cfg: Config, s: Server, steps: seq<Step>): Server
    requires AllAdmissible(cfg, steps)
  {
    if steps == [] then s
    else Perform(cfg, PerformAll(cfg, s, steps[..|steps| - 1]), steps[|steps| - 1])
  }

  function Waiting(pending: Option<Job>): seq<Job> {
    if pending.Some? then [pending.value] else []
  }

  lemma StepTakes(cfg: Config, s: Server, step: Step, rest: seq<Job>)
    requires Admissible(cfg, step)
    requires DistinctTokens(StepJobs(step) + rest) && Fresh(StepJobs(step) + rest, s.answered)
    ensures DistinctTokens(StepJobs(step)) && Fresh(StepJobs(step), s.answered)
    ensures DistinctTokens(rest) && Fresh(rest, Perform(cfg, s, step).answered)
    ensures |StepJobs(step)| > 0
  {
    var jobs := StepJobs(step);
    assert forall i :: 0 <= i < |jobs| ==> (jobs + rest)[i] == jobs[i];
    assert forall i :: 0 <= i < |rest| ==> (jobs + rest)[|jobs| + i] == rest[i];
    hide BatchEffect, Administer;
  }

  /** The reply channels of the data operations among some commands. */
  function DataTokens(jobs: seq<Job>): set<nat> {
    set j | j in jobs && Batchable(j.cmd) :: j.token
  }

  lemma StepTokens(cfg: Config, step: Step)
    requires Admissible(cfg, step)
    ensures DataTokens(StepJobs(step)) == if step.Grouped? then set j | j in step.batch :: j.token else {}
  {
    if step.Lone? {
      assert forall j :: j in StepJobs(step) ==> j == step.job;
    }
  }

  lemma TokensJoin(a: seq<Job>, b: seq<Job>)
    ensures DataTokens(a + b) == DataTokens(a) + DataTokens(b)
  {
  }

  /** Every data operation is answered, however its batch ends, and nothing else is. */
  lemma {:induction false} EveryDataCommandAnswered(cfg: Config, s: Server, steps: seq<Step>)
    requires AllAdmissible(cfg, steps)
    ensures PerformAll(cfg, s, steps).answered.Keys == s.answered.Keys + DataTokens(Jobs(steps))
  {
    if steps != [] {
      var n := |steps| - 1;
      EveryDataCommandAnswered(cfg, s, steps[..n]);
      hide DataTokens, BatchEffect, Administer, Answers, Admissible;
      StepTokens(cfg, steps[n]);
      TokensJoin(Jobs(steps[..n]), StepJobs(steps[n]));
    }
  }

  lemma PerformGrows(cfg: Config, s: Server, steps: seq<Step>, step: Step)
    requires AllAdmissible(cfg, steps) && Admissible(cfg, step)
    ensures AllAdmissible(cfg, steps + [step])
    ensures PerformAll(cfg, s, steps + [step]) == Perform(cfg, PerformAll(cfg, s, steps), step)
    ensures Jobs(steps + [step]) == Jobs(steps) + StepJobs(step)
  {
    assert (steps + [step])[..|steps|] == steps;
  }

  // ---- The actor ------------------------------------------------------------

  /** The loop so far: the steps taken and the commands still to come are the
      arrivals, and the server is where the steps leave it. */
  ghost predicate LoopInv(cfg: Config, start: Server, now: Server, arrivals: seq<Job>, steps: seq<Step>, todo: seq<Job>) {
    && AllAdmissible(cfg, steps)
    && Jobs(steps) + todo == arrivals
    && DistinctTokens(todo) && Fresh(todo, now.answered)
    && now == PerformAll(cfg, start, steps)
  }

  lemma LoopStarts(cfg: Config, start: Server, arrivals: seq<Job>)
    requires DistinctTokens(arrivals) && Fresh(arrivals, start.answered)
    ensures LoopInv(cfg, start, start, arrivals, [], Waiting(None) + arrivals)
  {
    assert Waiting(None) + arrivals == arrivals && Jobs([]) + arrivals == arrivals;
  }

  lemma LoopSteps(cfg: Config, start: Server, now: Server, arrivals: seq<Job>, steps: seq<Step>, step: Step, rest: seq<Job>)
    requires Admissible(cfg, step)
    requires LoopInv(cfg, start, now, arrivals, steps, StepJobs(step) + rest)
    ensures DistinctTokens(StepJobs(step)) && Fresh(StepJobs(step), now.answered) && |StepJobs(step)| > 0
    ensures LoopInv(cfg, start, Perform(cfg, now, step), arrivals, steps + [step], rest)
  {
    hide AllAdmissible, Admissible, Jobs, StepJobs, DistinctTokens, Fresh, PerformAll, Perform;
    StepTakes(cfg, now, step, rest);
    PerformGrows(cfg, start, steps, step);
    Assoc(Jobs(steps), StepJobs(step), rest);
  }

  lemma LoopEnds(cfg: Config, start: Server, now: Server, arrivals: seq<Job>, steps: seq<Step>, pending: Option<Job>, rx: seq<Job>)
    requires LoopInv(cfg, start, now, arrivals, steps, Waiting(pending) + rx) && pending.None? && rx == []
    ensures Jobs(steps) == arrivals && AllAdmissible(cfg, steps) && now == PerformAll(cfg, start, steps)
  {
    hide AllAdmissible, Jobs, PerformAll;
    assert Jobs(steps) + [] == Jobs(steps);
  }

  class Actor {
    const cfg: Config
    var committed: Db              // what readers of the database see
    var working: Db                // what this connection sees
    var channel: seq<Change>       // everything broadcast so far
    var answered: map<nat, Reply>  // the replies sent, by reply channel

    constructor (cfg: Config, db: Db)
      ensures this.cfg == cfg && committed == working == db && channel == [] && answered == map[]
    {
      this.cfg := cfg;
      committed, working := db, db;
      channel, answered := [], map[];
    }

    /** A reply channel takes one reply. */
    method Send(token: nat, reply: Reply)
      requires token !in answered
      modifies `answered
      ensures answered == old(answered)[token := reply]
    {
      answered := answered[token := reply];
    }

    method InsertChangelog(op: Op, coll: string, id: string, doc: Option<Json>, ts: int) returns (seqno: int)
      modifies `working
      ensures working.tables == old(working).tables && working.indexes == old(working).indexes
      ensures working.log == old(working).log + [LogRow(Change(seqno, coll, op, id, doc), ts)]
      ensures forall i :: 0 <= i < |old(working).log| ==> old(working).log[i].change.seqno < seqno
      ensures if old(working).log == [] then seqno == 1
              else exists i :: 0 <= i < |old(working).log| && old(working).log[i].change.seqno == seqno - 1
      ensures working == Logged(old(working), op, coll, id, doc, ts) && seqno == NextSeq(old(working).log)
    {
      NextSeqIsNew(working.log);
      seqno := NextSeq(working.log);
      working := working.(log := working.log + [LogRow(Change(seqno, coll, op, id, doc), ts)]);
    }

    method DoCreate(coll: string, doc: Json, env: Env) returns (r: Outcome)
      modifies `working
      ensures r == ApplyCreate(cfg, old(working), coll, doc, env).outcome
      ensures r.Wrote? ==> working == ApplyCreate(cfg, old(working), coll, doc, env).db
    {
      hide Clashes, MaxSeq, NextSeq;
      if env.fault == SizeRead {
        return Rejected(Internal);
      }
      if !env.sizeOk {
        return Rejected(TooLarge);
      }
      if env.fault == Prepare {
        return Rejected(Internal);
      }
      working := WithTable(working, coll);
      var id, now := env.newId, env.now;
      if env.fault == Write {
        return Rejected(Internal);
      }
      if InsertRefused(cfg, working, coll, id, doc) {
        return Rejected(Conflict);
      }
      working := WithRow(working, coll, id, Row(doc, now, now));
      if env.fault == Append {
        return Rejected(Internal);
      }
      var seqno := InsertChangelog(Insert, coll, id, Some(doc), now);
      return Wrote(Created(Record(id, now, now, doc)), Change(seqno, coll, Insert, id, Some(doc)));
    }

    method DoReplace(coll: string, id: string, doc: Json, env: Env) returns (r: Outcome)
      modifies `working
      ensures r == ApplyReplace(cfg, old(working), coll, id, doc, env).outcome
      ensures r.Wrote? ==> working == ApplyReplace(cfg, old(working), coll, id, doc, env).db
    {
      hide Clashes, MaxSeq, NextSeq;
      if env.fault == SizeRead {
        return Rejected(Internal);
      }
      if !env.sizeOk {
        return Rejected(TooLarge);
      }
      if env.fault == Prepare {
        return Rejected(Internal);
      }
      working := WithTable(working, coll);
      var now := env.now;
      var existing := Existing(working, coll, id, env);
      var created, createdAt, op;
      if existing.Some? {
        if env.fault == Write {
          return Rejected(Internal);
        }
        if Clashes(cfg.render, working.indexes, coll, Rows(working.tables, coll), id, doc) {
          return Rejected(Conflict);
        }
        working := WithRow(working, coll, id, Row(doc, Rows(working.tables, coll)[id].created, now));
        created, createdAt, op := false, existing.value, Update;
      } else {
        if env.fault == Write {
          return Rejected(Internal);
        }
        if InsertRefused(cfg, working, coll, id, doc) {
          return Rejected(Conflict);
        }
        working := WithRow(working, coll, id, Row(doc, now, now));
        created, createdAt, op := true, now, Insert;
      }
      if env.fault == Append {
        return Rejected(Internal);
      }
      var seqno := InsertChangelog(op, coll, id, Some(doc), now);
      return Wrote(Replaced(Record(id, createdAt, now, doc), created), Change(seqno, coll, op, id, Some(doc)));
    }

    method DoDelete(coll: string, id: string, env: Env) returns (r: Outcome)
      modifies `working
      ensures r == ApplyDelete(old(working), coll, id, env).outcome
      ensures r.Wrote? || r.NotFound? ==> working == ApplyDelete(old(working), coll, id, env).db
    {
      if env.fault == Prepare {
        return Rejected(Internal);
      }
      if coll !in working.tables {
        return NotFound;
      }
      if env.fault == Write {
        return Rejected(Internal);
      }
      var changed := if id in Rows(working.tables, coll) then 1 else 0;
      if changed == 0 {
        return NotFound;
      }
      working := WithoutRow(working, coll, id);
      if env.fault == Append {
        return Rejected(Internal);
      }
      var seqno := InsertChangelog(Op.Delete, coll, id, None, env.now);
      return Wrote(Deleted(true), Change(seqno, coll, Op.Delete, id, None));
    }

    method ApplyOp(job: Job) returns (r: Outcome)
      requires Batchable(job.cmd) && job.env.savepointOk
      modifies `working
      ensures r == Apply(cfg, old(working), job).outcome
      ensures r.Wrote? || r.NotFound? ==> working == Apply(cfg, old(working), job).db
    {
      match job.cmd {
        case Create(coll, doc) => r := DoCreate(coll, doc, job.env);
        case Replace(coll, id, doc) => r := DoReplace(coll, id, doc, job.env);
        case Delete(coll, id) => r := DoDelete(coll, id, job.env);
      }
    }

    /** BEGIN failed: every operation is answered with an error. */
    method FailAll(batch: seq<Job>)
      requires DistinctTokens(batch)
      requires Fresh(batch, answered)
      modifies `answered
      ensures answered == old(answered) + Answers(batch, seq(|batch|, _ => Failed(Internal)))
    {
      ghost var replies := seq(|batch|, _ => Failed(Internal));
      assert Answers(batch[..0], replies[..0]) == map[];
      hide Answers, DistinctTokens;
      for i := 0 to |batch|
        invariant answered == old(answered) + Answers(batch[..i], replies[..i])
      {
        AnswersGrow(batch, replies, i);
        MapGrows(old(answered), Answers(batch[..i], replies[..i]), batch[i].token, replies[i]);
        assert batch[i].token !in answered;
        Send(batch[i].token, Failed(Internal));
      }
      assert batch[..|batch|] == batch && replies[..|batch|] == replies;
    }

    /** The operations, each in its savepoint, collecting what to finish later. */
    method RunAll(batch: seq<Job>) returns (finishes: seq<Finish>)
      requires AllBatchable(batch) && DistinctTokens(batch)
      requires Fresh(batch, answered)
      modifies `working, `answered
      ensures var run := RunOps(cfg, old(working), batch);
              && working == run.db
              && finishes == Deferred(batch, run.outcomes)
              && answered == old(answered) + Early(batch, run.outcomes)
    {
      finishes := [];
      ghost var start := working;
      assert RunOps(cfg, start, batch[..0]) == Run(start, []);
      hide RunOps, Apply, Deferred, Early;
      for i := 0 to |batch|
        invariant working == RunOps(cfg, start, batch[..i]).db
        invariant finishes == Deferred(batch[..i], RunOps(cfg, start, batch[..i]).outcomes)
        invariant answered == old(answered) + Early(batch[..i], RunOps(cfg, start, batch[..i]).outcomes)
      {
        var job := batch[i];
        RunGrows(cfg, start, batch, i);
        ghost var early := Early(batch[..i], RunOps(cfg, start, batch[..i]).outcomes);
        EarlyTokens(batch[..i], RunOps(cfg, start, batch[..i]).outcomes);
        ApplyShape(cfg, working, job);
        if !job.env.savepointOk {
          MapGrows(old(answered), early, job.token, Failed(Internal));
          Send(job.token, Failed(Internal));
        } else {
          var saved := working;
          var outcome := ApplyOp(job);
          if outcome.Rejected? {
            working := saved;
          }
          finishes := finishes + [Finish(job.token, outcome)];
        }
      }
      assert batch[..|batch|] == batch;
    }

    /** Runs the finishers once the transaction is resolved. */
    method Resolve(finishes: seq<Finish>, ok: bool) returns (events: seq<Change>)
      requires forall i, j :: 0 <= i < j < |finishes| ==> finishes[i].token != finishes[j].token
      requires forall i :: 0 <= i < |finishes| ==> finishes[i].token !in answered
      modifies `answered
      ensures events == if ok then FinishChanges(finishes) else []
      ensures answered == old(answered) + Late(finishes, ok)
    {
      events := [];
      assert Late(finishes[..0], ok) == map[] && FinishChanges(finishes[..0]) == [];
      hide Late, FinishChanges, Settle;
      for i := 0 to |finishes|
        invariant events == if ok then FinishChanges(finishes[..i]) else []
        invariant answered == old(answered) + Late(finishes[..i], ok)
      {
        var f := finishes[i];
        assert finishes[..i + 1] == finishes[..i] + [f];
        FinishGrows(finishes[..i], f, ok);
        LateTokens(finishes[..i], ok);
        MapGrows(old(answered), Late(finishes[..i], ok), f.token, Settle(f.outcome, ok));
        Send(f.token, Settle(f.outcome, ok));
        if ok && f.outcome.Wrote? {
          events := events + [f.outcome.change];
        }
      }
      assert finishes[..|finishes|] == finishes;
    }

    method Broadcast(events: seq<Change>)
      modifies `channel
      ensures channel == old(channel) + events
    {
      for i := 0 to |events|
        invariant channel == old(channel) + events[..i]
      {
        channel := channel + [events[i]];
      }
    }

    /** One batch: begin, run, commit, reply, broadcast, trim. */
    method ProcessBatch(batch: seq<Job>, infra: Infra)
      requires AllBatchable(batch) && DistinctTokens(batch)
      requires working == committed
      requires Fresh(batch, answered)
      modifies this
      ensures var e := BatchEffect(cfg, old(committed), batch, infra);
              && committed == e.db
              && channel == old(channel) + e.events
              && answered == old(answered) + Answers(batch, e.replies)
      ensures working == committed
    {
      if !infra.beginOk {
        FailAll(batch);
        return;
      }
      var finishes := RunAll(batch);
      ghost var run := RunOps(cfg, old(committed), batch);
      BatchParts(cfg, old(committed), batch, infra, old(answered));
      DeferredTokens(batch, run.outcomes, infra.commitOk);
      hide *;
      if infra.commitOk {
        committed := working;
      } else {
        working := committed;
      }
      var events := Resolve(finishes, infra.commitOk);
      if infra.commitOk && events != [] {
        Broadcast(events);
        if infra.trimOk {
          working := working.(log := Trim(working.log, cfg.retention));
          committed := working;
        }
      }
    }

    /** Draws companions for a data operation. `try_recv` may find the channel
        empty although more is to come, so the batch may end at any point; a
        command that may not join it goes to `pending`. */
    method Gather(job: Job, queue: seq<Job>) returns (batch: seq<Job>, pending: Option<Job>, rx: seq<Job>)
      requires Batchable(job.cmd)
      ensures batch + (Waiting(pending) + rx) == [job] + queue
      ensures AllBatchable(batch) && 1 <= |batch| <= Max(1, cfg.maxBatch)
      ensures !cfg.groupCommit ==> |batch| == 1
      ensures pending.Some? ==> !Batchable(pending.value.cmd)
    {
      batch, pending, rx := [job], None, queue;
      if cfg.groupCommit {
        while |batch| < cfg.maxBatch
          invariant batch + rx == [job] + queue
          invariant AllBatchable(batch)
          invariant 1 <= |batch| <= Max(1, cfg.maxBatch)
        {
          var empty: bool := *;
          if empty || rx == [] {
            break;
          }
          var next := rx[0];
          rx := rx[1..];
          if Batchable(next.cmd) {
            batch := batch + [next];
          } else {
            pending := Some(next);
            break;
          }
        }
      }
    }

    method Process(step: Step)
      requires Admissible(cfg, step)
      requires DistinctTokens(StepJobs(step)) && Fresh(StepJobs(step), answered)
      requires working == committed
      modifies this
      ensures Server(committed, channel, answered) == Perform(cfg, Server(old(committed), old(channel), old(answered)), step)
      ensures working == committed
    {
      match step {
        case Grouped(batch, infra) => ProcessBatch(batch, infra);
        case Lone(job) =>
          working := Administer(cfg, working, job.cmd);
          committed := working;
      }
    }

    /** The next command, with the companions it may draw. */
    method Take(waiting: Option<Job>, queue: seq<Job>) returns (step: Step, pending: Option<Job>, rx: seq<Job>)
      requires waiting.Some? || queue != []
      requires waiting.Some? ==> !Batchable(waiting.value.cmd)
      ensures Admissible(cfg, step)
      ensures StepJobs(step) + (Waiting(pending) + rx) == Waiting(waiting) + queue
      ensures pending.Some? ==> !Batchable(pending.value.cmd)
    {
      var job;
      if waiting.Some? {
        job, rx := waiting.value, queue;
      } else {
        job, rx := queue[0], queue[1..];
      }
      assert [job] + rx == Waiting(waiting) + queue;
      if Batchable(job.cmd) {
        var batch;
        batch, pending, rx := Gather(job, rx);
        var infra: Infra := *;
        step := Grouped(batch, infra);
      } else {
        step, pending := Lone(job), None;
      }
    }

    /** The writer's loop over everything it will ever be sent. */
    method RunLoop(arrivals: seq<Job>) returns (steps: seq<Step>)
      requires DistinctTokens(arrivals) && Fresh(arrivals, answered)
      requires working == committed
      modifies this
      ensures Jobs(steps) == arrivals
      ensures AllAdmissible(cfg, steps)
      ensures Server(committed, channel, answered) ==
              PerformAll(cfg, Server(old(committed), old(channel), old(answered)), steps)
      ensures working == committed
    {
      steps := [];
      var rx := arrivals;
      var pending: Option<Job> := None;
      ghost var start := Server(committed, channel, answered);
      LoopStarts(cfg, start, arrivals);
      hide *;
      while pending.Some? || rx != []
        invariant LoopInv(cfg, start, Server(committed, channel, answered), arrivals, steps, Waiting(pending) + rx)
        invariant pending.Some? ==> !Batchable(pending.value.cmd)
        invariant working == committed
        decreases |Waiting(pending) + rx|
      {
        ghost var now := Server(committed, channel, answered);
        var step;
        step, pending, rx := Take(pending, rx);
        LoopSteps(cfg, start, now, arrivals, steps, step, Waiting(pending) + rx);
        Process(step);
        steps := steps + [step];
      }
      LoopEnds(cfg, start, Server(committed, channel, answered), arrivals, steps, pending, rx);
    }
  }
}
