/** What holds on every run of the protocol. */
module ProtocolTheorems {
  import opened Prelude
  import opened Store
  import opened Writer
  import opened JsonValues
  import opened JsonPaths
  import opened FilterMeaning
  import opened History
  import opened UniqueKeys
  import opened Realtime
  import opened Protocol
  import opened ProtocolInvariant

  // ---- The writer -----------------------------------------------------------

  /** Sequence numbers count committed changes from 1 without gaps, and the next
      one is always the number of changes ever committed plus one, whatever was
      rolled back, refused or trimmed. */
  lemma SequenceNumbers(cfg: Config, cap: nat, run: seq<Action>)
    requires Exec(cfg, cap, run).Some?
    ensures var w := Exec(cfg, cap, run).value;
            && Gapless(w.history)
            && NextSeq(w.db.log) == |w.history| + 1
            && forall i :: 0 <= i < |w.db.log| ==> w.db.log[i].change.seqno == |w.history| - |w.db.log| + i + 1
  {
    RunsKeep(cfg, cap, run);
    var w := Exec(cfg, cap, run).value;
    RetainedNext(w.history, w.db.log);
  }

  /** History only grows: a committed change keeps its seq for good, and what a
      command was told stays as it was. */
  lemma {:induction false} NothingForgotten(cfg: Config, cap: nat, run: seq<Action>, k: nat)
    requires Exec(cfg, cap, run).Some? && k <= |run|
    ensures Exec(cfg, cap, run[..k]).Some?
    ensures Exec(cfg, cap, run[..k]).value.history <= Exec(cfg, cap, run).value.history
    ensures KeepsAnswers(Exec(cfg, cap, run[..k]).value.answered, Exec(cfg, cap, run).value.answered)
  {
    if k == |run| {
      assert run[..k] == run;
    } else {
      var front := run[..|run| - 1];
      NothingForgotten(cfg, cap, front, k);
      assert front[..k] == run[..k];
      StepRemembers(cfg, cap, Exec(cfg, cap, front).value, run[|run| - 1]);
    }
  }

  ghost predicate KeepsAnswers(before: map<nat, Answer>, after: map<nat, Answer>) {
    forall t :: t in before ==> t in after && after[t] == before[t]
  }

  lemma StepRemembers(cfg: Config, cap: nat, w: World, a: Action)
    requires Enabled(w, a)
    ensures w.history <= Next(cfg, cap, w, a).history
    ensures KeepsAnswers(w.answered, Next(cfg, cap, w, a).answered)
  {
    if a.Batch? {
      BatchAnswersAll(cfg, w, a.batch, a.infra);
    }
    hide Told, RunOps, Changes, Committed, Replies, Settle, OutcomeAt, RowAt;
  }

  /** The log explains the data: replaying every committed change from nothing
      gives exactly the stored rows; each row's op says whether its id existed;
      the retained log is the end of the history, and when the last due trim
      succeeded it is exactly its last `retention` rows. */
  lemma LogExplainsData(cfg: Config, cap: nat, run: seq<Action>)
    requires Exec(cfg, cap, run).Some?
    ensures var w := Exec(cfg, cap, run).value;
            && (forall coll :: Rows(w.db.tables, coll) == Replay(w.history, coll))
            && WellTyped(w.history)
            && (forall coll, id :: id in Rows(w.db.tables, coll) ==> DatedByLog(w.history, coll, id, Rows(w.db.tables, coll)[id]))
            && Retains(w.history, w.db.log)
            && (cfg.retention > 0 && !w.overdue ==> |w.db.log| == Min(cfg.retention, |w.history|))
            && (cfg.retention <= 0 ==> w.db.log == w.history)
  {
    RunsKeep(cfg, cap, run);
    var w := Exec(cfg, cap, run).value;
    forall coll, id | id in Rows(w.db.tables, coll)
      ensures DatedByLog(w.history, coll, id, Rows(w.db.tables, coll)[id])
    {
      assert Rows(w.db.tables, coll) == Replay(w.history, coll);
      var c, u := Timestamps(w.history, coll, id);
    }
    hide Replay, WellTyped, Unique, Honest, Broadcasts;
    assert cfg.retention <= 0 ==> w.history[0..] == w.history;
  }

  /** The row was created when its id was last inserted and updated, with its
      present document, by the last change of its id. */
  ghost predicate DatedByLog(h: seq<LogRow>, coll: string, id: string, row: Row) {
    exists c: nat, u: nat :: Timed(h, coll, id, row, c, u)
  }

  /** No two rows ever share a value at the path of a unique index. */
  lemma UniqueIndexesHold(cfg: Config, cap: nat, run: seq<Action>, name: string)
    requires Exec(cfg, cap, run).Some? && name in Exec(cfg, cap, run).value.db.indexes
    ensures var db := Exec(cfg, cap, run).value.db;
            var index := db.indexes[name];
            index.unique ==> !Repetition(cfg.render, Rows(db.tables, index.coll), index.path)
  {
    RunsKeep(cfg, cap, run);
    var db := Exec(cfg, cap, run).value.db;
    RepeatsExactlyWhen(cfg.render, Rows(db.tables, db.indexes[name].coll), db.indexes[name]);
    hide Repeats, Repetition;
  }

  /** On a field: of two rows that have scalars there, not null, no two have equal
      ones. */
  lemma UniqueFieldsHold(cfg: Config, cap: nat, run: seq<Action>, name: string, names: seq<string>, a: string, b: string)
    requires Exec(cfg, cap, run).Some? && name in Exec(cfg, cap, run).value.db.indexes
    requires var index := Exec(cfg, cap, run).value.db.indexes[name];
             index.unique && FieldNames(names) && index.path == "$." + Dotted(names)
    requires var db := Exec(cfg, cap, run).value.db;
             var rows := Rows(db.tables, db.indexes[name].coll);
             && a in rows && b in rows && a != b
             && Lookup(rows[a].doc, names).Some? && ScalarJson(Lookup(rows[a].doc, names).value)
             && Lookup(rows[b].doc, names).Some? && ScalarJson(Lookup(rows[b].doc, names).value)
    ensures var db := Exec(cfg, cap, run).value.db;
            var rows := Rows(db.tables, db.indexes[name].coll);
            !JsonEqual(Lookup(rows[a].doc, names).value, Lookup(rows[b].doc, names).value)
  {
    UniqueIndexesHold(cfg, cap, run, name);
    var db := Exec(cfg, cap, run).value.db;
    var rows := Rows(db.tables, db.indexes[name].coll);
    IndexedField(rows[a].doc, names);
    IndexedField(rows[b].doc, names);
    hide IndexedAt, JsonEqual, Repeated, Exec, ScalarJson;
    ScalarsRepeat(cfg.render, Lookup(rows[a].doc, names).value, Lookup(rows[b].doc, names).value);
  }

  /** Honest replies and broadcasts: every success that was told has a row of its
      own in the committed history, which reports it, and every row has its
      success; and what was broadcast is exactly the committed changes since the
      process started, in seq order; between batches nothing committed is left
      unsent. */
  lemma HonestOnEveryRun(cfg: Config, cap: nat, run: seq<Action>)
    requires Exec(cfg, cap, run).Some?
    ensures var w := Exec(cfg, cap, run).value;
            && (forall t :: t in w.answered && Success(w.answered[t].reply) ==>
                  w.answered[t].at < |w.history| && Reports(w.answered[t].cmd, w.answered[t].reply, w.history[w.answered[t].at]))
            && OwnsOnce(w.answered)
            && (forall k: nat :: k < |w.history| ==> Owned(w.answered, k))
    ensures var w := Exec(cfg, cap, run).value;
            && |w.channel| <= |w.history| - w.base
            && w.channel == ChangesOf(w.history[w.base..w.base + |w.channel|])
            && (w.phase.Idle? ==> w.channel == ChangesOf(w.history[w.base..]))
  {
    hide *;
    RunsKeep(cfg, cap, run);
    var w := Exec(cfg, cap, run).value;
    HonestParts(cfg, w);
    HonestMeans(w.history, w.answered);
    BroadcastParts(w);
  }

  lemma HonestParts(cfg: Config, w: World)
    requires Inv(cfg, w)
    ensures Broadcasts(w) && Honest(w.history, w.answered)
  {
    hide Honest, Consistent, Retention, Broadcasts, SubInv;
  }

  lemma HonestMeans(h: seq<LogRow>, answered: map<nat, Answer>)
    requires Honest(h, answered)
    ensures forall t :: t in answered && Success(answered[t].reply) ==>
              answered[t].at < |h| && Reports(answered[t].cmd, answered[t].reply, h[answered[t].at])
    ensures OwnsOnce(answered)
    ensures forall k: nat :: k < |h| ==> Owned(answered, k)
  {
    hide Success, Reports, Owned;
    assert forall t :: t in answered ==> Backed(h, answered[t].cmd, answered[t].reply, answered[t].at);
  }

  lemma BroadcastParts(w: World)
    requires Broadcasts(w)
    ensures w.base <= |w.history| && |w.channel| <= |w.history| - w.base
    ensures w.channel == ChangesOf(w.history[w.base..w.base + |w.channel|])
    ensures w.phase.Idle? ==> w.channel == ChangesOf(w.history[w.base..])
  {
    var all := ChangesOf(w.history[w.base..]);
    assert w.channel == all[..|w.channel|];
    assert w.phase.Idle? ==> w.channel + [] == w.channel;
  }

  /** Every data command of a batch gets its one reply, whatever fails, and no
      one else does; a batch whose COMMIT failed leaves everything but the
      replies as it was, and turns each success into an error. */
  lemma BatchAnswersAll(cfg: Config, w: World, batch: seq<Job>, infra: Infra)
    requires Enabled(w, Batch(batch, infra))
    ensures var after := BatchStep(cfg, w, batch, infra);
            && after.answered.Keys == w.answered.Keys + (set j | j in batch :: j.token)
            && (forall t :: t in w.answered ==> after.answered[t] == w.answered[t])
            && (!(infra.beginOk && infra.commitOk) ==> after == w.(answered := after.answered))
            && (infra.beginOk ==> forall i :: 0 <= i < |batch| ==>
                  after.answered[batch[i].token] ==
                  Answer(batch[i].cmd, Settle(OutcomeAt(cfg, w.db, batch, i), infra.commitOk), |w.history| + RowAt(cfg, w.db, batch, i)))
            && (!(infra.beginOk && infra.commitOk) ==> forall i :: 0 <= i < |batch| ==>
                  !Success(after.answered[batch[i].token].reply))
  {
    hide *;
    AnswersAdded(cfg, w, batch, infra);
    NoneAnswered(w, batch, infra);
    AnswersEach(cfg, w, batch, infra);
    if !(infra.beginOk && infra.commitOk) {
      FailedCommitShape(cfg, w, batch, infra);
    }
  }

  /** What each command of a batch is told, exactly: an operation that is too large,
      in conflict or finds nothing to delete is told so, whether or not COMMIT
      succeeds; a success is told if it wrote and the batch committed; and anything
      else is an internal error. */
  lemma AnswersExactlyWhen(cfg: Config, w: World, batch: seq<Job>, infra: Infra, i: nat)
    requires Enabled(w, Batch(batch, infra)) && i < |batch|
    ensures var answered := BatchStep(cfg, w, batch, infra).answered;
            && batch[i].token in answered
            && var job, reply := batch[i], answered[batch[i].token].reply;
            var db := RunOps(cfg, w.db, batch[..i]).db;
            if !infra.beginOk then reply == Failed(Internal)
            else
              && (reply == Failed(TooLarge) <==> TooLargeFor(job))
              && (reply == Failed(Conflict) <==> ConflictFor(cfg, db, job))
              && (reply == Deleted(false) <==> NothingFor(db, job))
              && (Success(reply) <==> infra.commitOk && WriteFor(cfg, db, job))
              && (reply == Failed(Internal) <==>
                  !TooLargeFor(job) && !ConflictFor(cfg, db, job) && !NothingFor(db, job) && !(infra.commitOk && WriteFor(cfg, db, job)))
  {
    NoneAnswered(w, batch, infra);
    assert AllBatchable(batch) ==> AllBatchable(batch[..i]) && Batchable(batch[i].cmd);
    hide *;
    AnswerOf(cfg, w, batch, infra, i);
    RepliesAre(cfg, w.db, batch, infra, i);
    OutcomeIs(cfg, w.db, batch, i);
    ReplyExactlyWhen(cfg, RunOps(cfg, w.db, batch[..i]).db, batch[i], infra.commitOk);
  }

  /** An operation's outcome in its batch is its outcome on what the ones before it
      left. */
  lemma {:induction false} OutcomeIs(cfg: Config, db: Db, batch: seq<Job>, i: nat)
    requires AllBatchable(batch) && i < |batch|
    ensures OutcomeAt(cfg, db, batch, i) == Apply(cfg, RunOps(cfg, db, batch[..i]).db, batch[i]).outcome
  {
    var n := |batch| - 1;
    hide *;
    AllFront(batch);
    if i < n {
      OutcomeCut(cfg, db, batch, i);
      OutcomeIs(cfg, db, batch[..n], i);
      assert batch[..n][..i] == batch[..i];
    } else {
      LastOutcome(cfg, db, batch);
    }
  }

  lemma LastOutcome(cfg: Config, db: Db, batch: seq<Job>)
    requires AllBatchable(batch) && batch != []
    ensures var n := |batch| - 1;
            OutcomeAt(cfg, db, batch, n) == Apply(cfg, RunOps(cfg, db, batch[..n]).db, batch[n]).outcome
  {
    hide Apply;
  }

  lemma AnswersAdded(cfg: Config, w: World, batch: seq<Job>, infra: Infra)
    requires Enabled(w, Batch(batch, infra))
    ensures var after := BatchStep(cfg, w, batch, infra);
            && after.answered.Keys == w.answered.Keys + (set j | j in batch :: j.token)
            && (forall t :: t in w.answered ==> after.answered[t] == w.answered[t])
  {
    NoneAnswered(w, batch, infra);
    hide *;
    var told := Told(cfg, w.db, |w.history|, batch, RepliesTo(cfg, w.db, batch, infra));
    BatchAdds(cfg, w, batch, infra);
    ToldOnce(cfg, w.db, |w.history|, batch, RepliesTo(cfg, w.db, batch, infra));
    TokensAdded(w.answered, batch, told);
  }

  lemma AnswerOf(cfg: Config, w: World, batch: seq<Job>, infra: Infra, i: nat)
    requires AllBatchable(batch) && DistinctTokens(batch) && i < |batch|
    ensures var answered := BatchStep(cfg, w, batch, infra).answered;
            && batch[i].token in answered
            && answered[batch[i].token] == Answer(batch[i].cmd, RepliesTo(cfg, w.db, batch, infra)[i], |w.history| + RowAt(cfg, w.db, batch, i))
  {
    hide *;
    BatchAdds(cfg, w, batch, infra);
    ToldOnce(cfg, w.db, |w.history|, batch, RepliesTo(cfg, w.db, batch, infra));
  }

  lemma AnswerIs(cfg: Config, w: World, batch: seq<Job>, infra: Infra, i: nat)
    requires AllBatchable(batch) && DistinctTokens(batch) && i < |batch|
    ensures var after := BatchStep(cfg, w, batch, infra);
            && batch[i].token in after.answered
            && (infra.beginOk ==>
                  after.answered[batch[i].token] ==
                  Answer(batch[i].cmd, Settle(OutcomeAt(cfg, w.db, batch, i), infra.commitOk), |w.history| + RowAt(cfg, w.db, batch, i)))
            && (!(infra.beginOk && infra.commitOk) ==> !Success(after.answered[batch[i].token].reply))
  {
    hide *;
    AnswerOf(cfg, w, batch, infra, i);
    RepliesAre(cfg, w.db, batch, infra, i);
  }

  lemma AnswersEach(cfg: Config, w: World, batch: seq<Job>, infra: Infra)
    requires AllBatchable(batch) && DistinctTokens(batch)
    ensures var after := BatchStep(cfg, w, batch, infra);
            forall i :: 0 <= i < |batch| ==>
              && batch[i].token in after.answered
              && (infra.beginOk ==>
                    after.answered[batch[i].token] ==
                    Answer(batch[i].cmd, Settle(OutcomeAt(cfg, w.db, batch, i), infra.commitOk), |w.history| + RowAt(cfg, w.db, batch, i)))
              && (!(infra.beginOk && infra.commitOk) ==> !Success(after.answered[batch[i].token].reply))
  {
    hide *;
    forall i | 0 <= i < |batch|
      ensures var after := BatchStep(cfg, w, batch, infra);
              && batch[i].token in after.answered
              && (infra.beginOk ==>
                    after.answered[batch[i].token] ==
                    Answer(batch[i].cmd, Settle(OutcomeAt(cfg, w.db, batch, i), infra.commitOk), |w.history| + RowAt(cfg, w.db, batch, i)))
              && (!(infra.beginOk && infra.commitOk) ==> !Success(after.answered[batch[i].token].reply))
    {
      AnswerIs(cfg, w, batch, infra, i);
    }
  }

  lemma TokensAdded(answered: map<nat, Answer>, batch: seq<Job>, told: map<nat, Answer>)
    requires forall i :: 0 <= i < |batch| ==> batch[i].token in told && batch[i].token !in answered
    requires forall t :: t in told ==> exists i :: 0 <= i < |batch| && batch[i].token == t
    ensures (answered + told).Keys == answered.Keys + set j | j in batch :: j.token
    ensures forall t :: t in answered ==> (answered + told)[t] == answered[t]
    ensures forall i :: 0 <= i < |batch| ==> (answered + told)[batch[i].token] == told[batch[i].token]
  {
    var tokens := set j | j in batch :: j.token;
    forall t | t in told
      ensures t in tokens && t !in answered
    {
      var i :| 0 <= i < |batch| && batch[i].token == t;
      assert batch[i] in batch;
    }
    forall t | t in tokens
      ensures t in told
    {
      var j :| j in batch && j.token == t;
      var i :| 0 <= i < |batch| && batch[i] == j;
    }
  }

  // ---- The machine and the writer actor -------------------------------------

  /** Broadcasting everything queued, one event a step. */
  ghost function SendAll(cfg: Config, cap: nat, w: World): World
    requires w.phase.Sending?
    decreases |w.phase.queue|
  {
    if w.phase.queue == [] then w else SendAll(cfg, cap, Next(cfg, cap, w, Send))
  }

  lemma {:induction false} SendAllShape(cfg: Config, cap: nat, w: World)
    requires w.phase.Sending?
    ensures SendAll(cfg, cap, w) == w.(channel := w.channel + w.phase.queue, phase := Sending([]))
    decreases |w.phase.queue|
  {
    if w.phase.queue == [] {
      assert w.channel + [] == w.channel;
    } else {
      var queue := w.phase.queue;
      SendAllShape(cfg, cap, Next(cfg, cap, w, Send));
      assert queue == [queue[0]] + queue[1..];
      Assoc(w.channel, [queue[0]], queue[1..]);
    }
  }

  /** The steps the machine takes for one batch, left to themselves. */
  ghost function WholeBatch(cfg: Config, cap: nat, w: World, batch: seq<Job>, infra: Infra): World
    requires Enabled(w, Batch(batch, infra))
  {
    var told := Next(cfg, cap, w, Batch(batch, infra));
    if told.phase.Idle? then told
    else
      var sent := SendAll(cfg, cap, told);
      SendAllShape(cfg, cap, told);
      Next(cfg, cap, sent, TrimLog(infra.trimOk))
  }

  /** Taken together, the machine's steps for a batch are what the actor's
      `ProcessBatch` does. */
  lemma MachineIsActor(cfg: Config, cap: nat, w: World, batch: seq<Job>, infra: Infra)
    requires Enabled(w, Batch(batch, infra))
    ensures var done, e := WholeBatch(cfg, cap, w, batch, infra), BatchEffect(cfg, w.db, batch, infra);
            && done.phase == Idle && done.subs == w.subs
            && done.db == e.db
            && done.channel == w.channel + e.events
            && forall i :: 0 <= i < |batch| ==> 
                 var t := batch[i].token;
                 t in done.answered && done.answered[t].cmd == batch[i].cmd && done.answered[t].reply == e.replies[i]
  {
    hide RunOps, Changes, Trim, Committed, Told, RowAt;
    var told := BatchStep(cfg, w, batch, infra);
    var e := BatchEffect(cfg, w.db, batch, infra);
    ToldOnce(cfg, w.db, |w.history|, batch, e.replies);
    assert told.answered == w.answered + Told(cfg, w.db, |w.history|, batch, e.replies);
    if told.phase.Sending? {
      SendAllShape(cfg, cap, told);
    } else {
      assert w.channel + [] == w.channel;
    }
  }

  // ---- Subscribers ----------------------------------------------------------

  /** A reachable live subscription and what is known of it. */
  lemma LiveSubKnown(cfg: Config, cap: nat, run: seq<Action>, id: nat) returns (w: World, s: Sub)
    requires Exec(cfg, cap, run).Some? && id in Exec(cfg, cap, run).value.subs
    requires Exec(cfg, cap, run).value.subs[id].stage.Live?
    ensures w == Exec(cfg, cap, run).value && s == w.subs[id]
    ensures Settled(w.history, s, w.base + s.pos) && ViewInv(w.history, s) && Started(w.history, w.base, s)
    ensures Consistent(cfg, w.history, w.db)
  {
    RunsKeep(cfg, cap, run);
    w := Exec(cfg, cap, run).value;
    s := w.subs[id];
    hide *;
    InvParts(cfg, w, id);
    LiveParts(w.history, w.base, |w.channel|, s);
    WriterConsistent(cfg, w);
  }

  lemma InvParts(cfg: Config, w: World, id: nat)
    requires Inv(cfg, w) && id in w.subs
    ensures WriterInv(cfg, w) && SubInv(w.history, w.base, |w.channel|, w.subs[id])
  {
    hide WriterInv, SubInv;
  }

  lemma LiveParts(h: seq<LogRow>, base: nat, sent: nat, s: Sub)
    requires SubInv(h, base, sent, s) && s.stage.Live?
    ensures Settled(h, s, base + s.pos) && ViewInv(h, s) && Started(h, base, s)
  {
    hide Settled, ViewInv, Started, Connecting;
  }

  lemma WriterConsistent(cfg: Config, w: World)
    requires WriterInv(cfg, w)
    ensures Consistent(cfg, w.history, w.db)
  {
    hide Consistent, Broadcasts, Retention, Honest;
  }

  /** The message that settles a seq between the first and the last mark. */
  lemma {:induction false} SettledBy(h: seq<LogRow>, s: Sub, seqno: int, n: nat) returns (k: nat)
    requires |s.marks| == |s.out| && n <= |s.out|
    requires Mark(s, 0) < seqno <= Mark(s, n)
    ensures k < n && Mark(s, k) < seqno <= Mark(s, k + 1)
  {
    if seqno > Mark(s, n - 1) {
      k := n - 1;
    } else {
      k := SettledBy(h, s, seqno, n - 1);
    }
  }

  lemma SentInOrder(h: seq<LogRow>, s: Sub, a: nat, b: nat)
    requires |s.marks| == |s.out| && forall i :: 0 <= i < |s.out| ==> MessageSettles(h, s, i)
    requires a < b < |s.out| && s.out[a].ChangeMsg? && s.out[b].ChangeMsg?
    ensures s.start < s.out[a].change.seqno < s.out[b].change.seqno
  {
    assert MessageSettles(h, s, a) && MessageSettles(h, s, b);
    MarksRise(h, s, 0, a);
    MarksRise(h, s, a + 1, b);
  }

  lemma SentIsCommitted(h: seq<LogRow>, s: Sub, a: nat)
    requires |s.marks| == |s.out| && forall i :: 0 <= i < |s.out| ==> MessageSettles(h, s, i)
    requires a < |s.out| && s.out[a].ChangeMsg?
    ensures var c := s.out[a].change;
            s.start < c.seqno && 1 <= c.seqno <= |h| && c == h[c.seqno - 1].change && Matching(s.coll, s.filter, c)
  {
    assert MessageSettles(h, s, a);
    MarksRise(h, s, 0, a);
  }

  // ---- What a receiver got --------------------------------------------------

  /** What a receiver got at one place of the channel: the event there, or word
      that it was too slow for a stretch of events. */
  predicate HeardAt(channel: seq<Change>, s: Sub, k: nat)
    requires k < |s.got|
  {
    && Place(s, k) < Place(s, k + 1) <= |channel|
    && (s.got[k].Event? ==> Place(s, k + 1) == Place(s, k) + 1 && s.got[k].change == channel[Place(s, k)])
  }

  /** What it got on its way through the channel: each event in turn, but for the
      stretches it missed. */
  ghost predicate Heard(channel: seq<Change>, s: Sub) {
    && |s.places| == |s.got| && Place(s, |s.got|) == s.pos <= |channel|
    && forall k :: 0 <= k < |s.got| ==> HeardAt(channel, s, k)
  }

  /** A live stream is what the plan opened and everything its receiver got. */
  ghost predicate Streams(w: World, s: Sub) {
    if s.stage.Live? then
      && Heard(w.channel, s)
      && Stream(s.stage.maxSent, s.out) == ReceiveAll(s.coll, s.filter, Opened(s.plan), s.got)
    else s.got == [] && s.places == [] && s.attached == s.pos <= |w.channel|
  }

  lemma HeardGrows(channel: seq<Change>, more: seq<Change>, s: Sub)
    requires Heard(channel, s) && channel <= more
    ensures Heard(more, s)
  {
    forall k | 0 <= k < |s.got|
      ensures HeardAt(more, s, k)
    {
      assert HeardAt(channel, s, k);
    }
  }

  lemma HeardNext(channel: seq<Change>, s: Sub, t: Sub, r: Received)
    requires Heard(channel, s) && s.pos < t.pos <= |channel|
    requires r.Event? ==> t.pos == s.pos + 1 && r.change == channel[s.pos]
    requires t.got == s.got + [r] && t.places == s.places + [t.pos] && t.attached == s.attached
    ensures Heard(channel, t)
  {
    forall k | 0 <= k < |t.got|
      ensures HeardAt(channel, t, k)
    {
      if k < |s.got| {
        assert HeardAt(channel, s, k);
      }
    }
  }

  lemma ReceivedNext(coll: string, filter: Option<EqFilter>, s: Stream, rs: seq<Received>, r: Received)
    ensures ReceiveAll(coll, filter, s, rs + [r]) == OnReceive(coll, filter, ReceiveAll(coll, filter, s, rs), r)
  {
    assert (rs + [r])[..|rs|] == rs;
    hide OnReceive;
  }

  lemma ReceiveStreams(cap: nat, w: World, s: Sub)
    requires Streams(w, s) && s.stage.Live? && s.pos < |w.channel|
    ensures Streams(w, ReceiveStep(cap, w, s))
  {
    hide OnReceive, ReceiveAll, Opened, Heard;
    var lagged := |w.channel| - s.pos > cap;
    var r := if lagged then Lagged else Event(w.channel[s.pos]);
    HeardNext(w.channel, s, ReceiveStep(cap, w, s), r);
    ReceivedNext(s.coll, s.filter, Opened(s.plan), s.got, r);
  }

  lemma LiveStreams(w: World, s: Sub, plan: Plan, start: int)
    requires Streams(w, s) && !s.stage.Live?
    ensures Streams(w, GoLive(s, plan, start))
  {
  }

  lemma SubStreams(cfg: Config, cap: nat, w: World, a: Action, id: nat)
    requires Enabled(w, a) && id in Next(cfg, cap, w, a).subs
    requires forall i :: i in w.subs ==> Streams(w, w.subs[i])
    ensures Streams(Next(cfg, cap, w, a), Next(cfg, cap, w, a).subs[id])
  {
    hide Streams, BatchStep, TrimStep, Administer, Overlay, Shown, GoLive, ReceiveStep, ReadMaxStep, ReadMinStep, ReadRowsStep, NewSub, LoadStep, ConsumeStep, HonestView;
    match a {
      case ReadMax(i) => ReadMaxStreams(w, w.subs[i]); SameChannel(w, Next(cfg, cap, w, a));
      case ReadMin(i) => ReadMinStreams(w, w.subs[i]); SameChannel(w, Next(cfg, cap, w, a));
      case ReadRows(i) => ReadRowsStreams(w, w.subs[i]); SameChannel(w, Next(cfg, cap, w, a));
      case Receive(i) => ReceiveStreams(cap, w, w.subs[i]); SameChannel(w, Next(cfg, cap, w, a));
      case Load(i) => ClientStreams(w, w.subs[i]); SameChannel(w, Next(cfg, cap, w, a));
      case Consume(i) => ClientStreams(w, w.subs[i]); SameChannel(w, Next(cfg, cap, w, a));
      case Subscribe(i, coll, filter, last, held) => NewStreams(w, coll, filter, last, held); SameChannel(w, Next(cfg, cap, w, a));
      case Send => SendStreams(cfg, cap, w, w.subs[id]);
      case Batch(_, _) => OnlyHistory(cfg, cap, w, a); SameChannel(w, Next(cfg, cap, w, a));
      case TrimLog(_) => OnlyLog(cfg, cap, w, a); SameChannel(w, Next(cfg, cap, w, a));
      case Admin(_) => SameChannel(w, Next(cfg, cap, w, a));
      case Disconnect(_) => SameChannel(w, Next(cfg, cap, w, a));
      case Restart =>
    }
  }

  lemma SameChannel(w: World, v: World)
    requires v.channel == w.channel
    ensures forall s: Sub :: Streams(w, s) ==> Streams(v, s)
  {
  }

  lemma OnlyLog(cfg: Config, cap: nat, w: World, a: Action)
    requires Enabled(w, a) && a.TrimLog?
    ensures Next(cfg, cap, w, a).channel == w.channel && Next(cfg, cap, w, a).subs == w.subs && Next(cfg, cap, w, a).base == w.base
  {
  }

  lemma NewStreams(w: World, coll: string, filter: Option<EqFilter>, last: Option<int>, held: Option<Held>)
    ensures Streams(w, NewSub(w, coll, filter, last, held))
  {
  }

  lemma ClientStreams(w: World, s: Sub)
    requires Streams(w, s)
    ensures Streams(w, LoadStep(w, s))
    ensures s.view.Some? && s.read < |s.out| ==> Streams(w, ConsumeStep(s))
  {
    if s.stage.Live? {
      SameHeard(w.channel, s, LoadStep(w, s));
      if s.view.Some? && s.read < |s.out| {
        SameHeard(w.channel, s, ConsumeStep(s));
      }
    }
    hide Heard, ReceiveAll, Opened;
  }

  lemma SameHeard(channel: seq<Change>, s: Sub, t: Sub)
    requires Heard(channel, s) && t.got == s.got && t.places == s.places && t.attached == s.attached && t.pos == s.pos
    ensures Heard(channel, t)
  {
    forall k | 0 <= k < |t.got|
      ensures HeardAt(channel, t, k)
    {
      assert HeardAt(channel, s, k);
    }
  }

  lemma OnlyHistory(cfg: Config, cap: nat, w: World, a: Action)
    requires Enabled(w, a) && a.Batch?
    ensures Next(cfg, cap, w, a).channel == w.channel && Next(cfg, cap, w, a).subs == w.subs && Next(cfg, cap, w, a).base == w.base
  {
  }

  lemma SendStreams(cfg: Config, cap: nat, w: World, s: Sub)
    requires Enabled(w, Send) && Streams(w, s)
    ensures Streams(Next(cfg, cap, w, Send), s)
  {
    if s.stage.Live? {
      HeardGrows(w.channel, Next(cfg, cap, w, Send).channel, s);
    }
  }

  lemma ReadMaxStreams(w: World, s: Sub)
    requires Streams(w, s) && s.stage.Attached?
    ensures Streams(w, ReadMaxStep(w, s))
  {
    var max := MaxSeq(w.db.log);
    LiveStreams(w, s, Plan(false, [], max), max);
    hide GoLive, ReceiveAll, Opened;
  }

  lemma ReadMinStreams(w: World, s: Sub)
    requires Streams(w, s) && s.stage.HasMax? && s.last.Some?
    ensures Streams(w, ReadMinStep(w, s))
  {
    LiveStreams(w, s, Plan(true, [], s.stage.max), s.stage.max);
    hide GoLive, ReceiveAll, Opened;
  }

  lemma ReadRowsStreams(w: World, s: Sub)
    requires Streams(w, s) && s.stage.HasMin? && s.last.Some?
    ensures Streams(w, ReadRowsStep(w, s))
  {
    var rows, last := RowsAfter(w.db.log, s.coll, s.last.value), s.last.value;
    var start := ReplayStart(last, Cut(w), w.base + s.attached, rows != []);
    var t := s.(rowsCut := Cut(w), found := rows != []);
    LiveStreams(w, t, Replayed(rows, last, s.filter), start);
    hide GoLive, ReceiveAll, Opened, Replayed, RowsAfter;
  }

  /** On every run a live stream has sent exactly what the stream method sends for
      its plan and everything its receiver got from the channel since attaching. */
  lemma {:induction false} MachineStreams(cfg: Config, cap: nat, run: seq<Action>)
    requires Exec(cfg, cap, run).Some?
    ensures var w := Exec(cfg, cap, run).value;
            forall id :: id in w.subs ==> Streams(w, w.subs[id])
  {
    if run != [] {
      var front, last := run[..|run| - 1], run[|run| - 1];
      MachineStreams(cfg, cap, front);
      var w := Exec(cfg, cap, front).value;
      hide Streams, Next, Enabled;
      forall id | id in Next(cfg, cap, w, last).subs
        ensures Streams(Next(cfg, cap, w, last), Next(cfg, cap, w, last).subs[id])
      {
        SubStreams(cfg, cap, w, last, id);
      }
    }
  }

  // ---- Lags -----------------------------------------------------------------

  /** A receiver skips only what is out of the channel's buffer: as many newer
      events as it holds had been broadcast by then. */
  ghost predicate LagsBeyond(cap: nat, channel: seq<Change>, s: Sub) {
    && |s.places| == |s.got|
    && forall k :: 0 <= k < |s.got| && s.got[k] == Lagged ==> s.places[k] + cap <= |channel|
  }

  predicate SameReceived(s: Sub, t: Sub) {
    t.got == s.got && t.places == s.places
  }

  /** A step leaves what a receiver got alone, or is its receive, or starts it. */
  lemma StepReceives(cfg: Config, cap: nat, w: World, a: Action, id: nat)
    requires Enabled(w, a) && id in Next(cfg, cap, w, a).subs
    ensures var after := Next(cfg, cap, w, a);
            var t := after.subs[id];
            || (t.got == [] && t.places == [])
            || (id in w.subs && SameReceived(w.subs[id], t) && w.channel <= after.channel)
            || (id in w.subs && a == Receive(id) && t == ReceiveStep(cap, w, w.subs[id]) && after.channel == w.channel)
  {
    hide Opened, OnReceive, Predates, Replayed, RowsAfter, ReplayStart, MaxSeq, BatchStep, TrimStep, Administer, HonestView, Overlay, Shown, Mark, ReceiveStep;
    match a {
      case Batch(_, _) => OnlyHistory(cfg, cap, w, a);
      case TrimLog(_) => OnlyLog(cfg, cap, w, a);
      case _ =>
    }
  }

  lemma LagGrows(cap: nat, w: World, s: Sub)
    requires LagsBeyond(cap, w.channel, s) && s.stage.Live? && s.pos < |w.channel|
    ensures LagsBeyond(cap, w.channel, ReceiveStep(cap, w, s))
  {
    hide OnReceive;
  }

  lemma {:induction false} LagsOnlyBehind(cfg: Config, cap: nat, run: seq<Action>)
    requires Exec(cfg, cap, run).Some?
    ensures var w := Exec(cfg, cap, run).value; forall id :: id in w.subs ==> LagsBeyond(cap, w.channel, w.subs[id])
  {
    if run != [] {
      var front, last := run[..|run| - 1], run[|run| - 1];
      LagsOnlyBehind(cfg, cap, front);
      var w, after := Exec(cfg, cap, front).value, Exec(cfg, cap, run).value;
      assert last.Receive? ==> last.id in w.subs && w.subs[last.id].stage.Live? && w.subs[last.id].pos < |w.channel|;
      hide Next, Enabled, ReceiveStep;
      forall id | id in after.subs
        ensures LagsBeyond(cap, after.channel, after.subs[id])
      {
        StepReceives(cfg, cap, w, last, id);
        if last == Receive(id) && id in w.subs {
          LagGrows(cap, w, w.subs[id]);
        }
      }
    }
  }

  // ---- What a plan covers ---------------------------------------------------

  predicate Delivered(s: Sub, c: Change) {
    ChangeMsg(c) in s.out
  }

  /** A stream without a resync has sent every event between its start and where
      it has come to. */
  lemma EventSettled(h: seq<LogRow>, s: Sub, reached: int, j: nat)
    requires Gapless(h) && Settled(h, s, reached) && j < |h| && Resync !in s.out
    requires Matching(s.coll, s.filter, h[j].change) && s.start < j + 1 <= Max(s.stage.maxSent, reached)
    ensures Delivered(s, h[j].change)
  {
    if j + 1 > Mark(s, |s.out|) {
      assert false;
    } else {
      var k := SettledBy(h, s, j + 1, |s.out|);
      assert MessageSettles(h, s, k);
      assert s.out[k] in s.out;
    }
  }

  /** What concerns a stream from its start up to its plan's watermark, or before
      the receiver attached, is in the plan; and the plan holds nothing newer. */
  ghost predicate PlanCovers(h: seq<LogRow>, base: nat, s: Sub) {
    var upTo := Max(s.plan.maxSent, base + s.attached);
    && upTo <= Max(|h|, s.start)
    && (forall c :: c in s.plan.replay ==> c.seqno <= s.plan.maxSent)
    && forall j :: 0 <= j < |h| && s.start < j + 1 <= upTo && Matching(s.coll, s.filter, h[j].change) ==>
         ChangeMsg(h[j].change) in Opened(s.plan).out
  }

  predicate SamePlan(s: Sub, t: Sub) {
    t.plan == s.plan && t.attached == s.attached && t.start == s.start && t.coll == s.coll && t.filter == s.filter
  }

  lemma CoversGrows(h: seq<LogRow>, more: seq<LogRow>, base: nat, s: Sub, t: Sub)
    requires PlanCovers(h, base, s) && h <= more && SamePlan(s, t)
    ensures PlanCovers(more, base, t)
  {
    hide Matching, Opened;
  }

  /** A subscription that has just gone live. */
  predicate JustLive(s: Sub) {
    && s.stage == Live(s.plan.maxSent) && s.out == Opened(s.plan).out && s.pos == s.attached
    && (s.plan.resync ==> s.plan.replay == [] && s.marks == [s.start])
    && forall c :: c in s.plan.replay ==> c.seqno <= s.plan.maxSent
  }

  lemma JustLiveCovers(h: seq<LogRow>, base: nat, s: Sub)
    requires Gapless(h) && JustLive(s) && Settled(h, s, base + s.pos)
    ensures PlanCovers(h, base, s)
  {
    hide Matching, Gapless;
    assert s.plan.resync ==> Mark(s, |s.out|) == s.start;
    forall j | 0 <= j < |h| && s.start < j + 1 <= Max(s.plan.maxSent, base + s.attached) && Matching(s.coll, s.filter, h[j].change)
      ensures ChangeMsg(h[j].change) in Opened(s.plan).out
    {
      if s.plan.resync {
        assert false;
      } else {
        EventSettled(h, s, base + s.pos, j);
      }
    }
  }

  lemma {:induction false} ReplayedBounded(rows: seq<LogRow>, last: int, filter: Option<EqFilter>)
    ensures forall c :: c in Replayed(rows, last, filter).replay ==> c.seqno <= Replayed(rows, last, filter).maxSent
  {
    hide Passes;
    if rows != [] {
      ReplayedBounded(rows[..|rows| - 1], last, filter);
    }
  }

  lemma GoneLive(s: Sub, plan: Plan, start: int)
    requires s.attached == s.pos && (plan.resync ==> plan.replay == [])
    requires forall c :: c in plan.replay ==> c.seqno <= plan.maxSent
    ensures JustLive(GoLive(s, plan, start))
  {
  }

  /** A step leaves the plan of a live subscription alone, or makes it live. */
  lemma StepPlans(cfg: Config, cap: nat, w: World, a: Action, id: nat)
    requires Enabled(w, a) && id in Next(cfg, cap, w, a).subs && Next(cfg, cap, w, a).subs[id].stage.Live?
    requires forall i :: i in w.subs ==> Streams(w, w.subs[i])
    ensures var after := Next(cfg, cap, w, a);
            || JustLive(after.subs[id])
            || (id in w.subs && w.subs[id].stage.Live? && SamePlan(w.subs[id], after.subs[id]) && after.base == w.base)
  {
    hide Opened, OnReceive, Predates, Replayed, RowsAfter, ReplayStart, MaxSeq, BatchStep, TrimStep, Administer, HonestView, GoLive, JustLive, Overlay, Shown, Mark;
    match a {
      case ReadMax(i) => GoneLive(w.subs[i], Plan(false, [], MaxSeq(w.db.log)), MaxSeq(w.db.log));
      case ReadMin(i) => GoneLive(w.subs[i], Plan(true, [], w.subs[i].stage.max), w.subs[i].stage.max);
      case ReadRows(i) => RowsGoneLive(w, w.subs[i]);
      case Batch(_, _) => OnlyHistory(cfg, cap, w, a);
      case TrimLog(_) => OnlyLog(cfg, cap, w, a);
      case _ =>
    }
  }

  lemma RowsGoneLive(w: World, s: Sub)
    requires s.last.Some? && s.attached == s.pos
    ensures JustLive(ReadRowsStep(w, s))
  {
    var rows, last := RowsAfter(w.db.log, s.coll, s.last.value), s.last.value;
    ReplayedBounded(rows, last, s.filter);
    GoneLive(s.(rowsCut := Cut(w), found := rows != []), Replayed(rows, last, s.filter),
             ReplayStart(last, Cut(w), w.base + s.attached, rows != []));
    hide GoLive, JustLive, Replayed, RowsAfter;
  }

  lemma {:induction false} PlansCover(cfg: Config, cap: nat, run: seq<Action>)
    requires Exec(cfg, cap, run).Some?
    ensures var w := Exec(cfg, cap, run).value;
            forall id :: id in w.subs && w.subs[id].stage.Live? ==> PlanCovers(w.history, w.base, w.subs[id])
  {
    if run != [] {
      var front, last := run[..|run| - 1], run[|run| - 1];
      PlansCover(cfg, cap, front);
      MachineStreams(cfg, cap, front);
      var w, after := Exec(cfg, cap, front).value, Exec(cfg, cap, run).value;
      StepRemembers(cfg, cap, w, last);
      hide Streams, Next, Enabled, PlanCovers, JustLive, SamePlan;
      forall id | id in after.subs && after.subs[id].stage.Live?
        ensures PlanCovers(after.history, after.base, after.subs[id])
      {
        StepPlans(cfg, cap, w, last, id);
        if JustLive(after.subs[id]) {
          var v, s := LiveSubKnown(cfg, cap, run, id);
          GaplessHistory(cfg, after.history, after.db);
          JustLiveCovers(after.history, after.base, s);
        } else {
          CoversGrows(w.history, after.history, w.base, w.subs[id], after.subs[id]);
        }
      }
    }
  }

  lemma GaplessHistory(cfg: Config, h: seq<LogRow>, db: Db)
    requires Consistent(cfg, h, db)
    ensures Gapless(h)
  {
  }

  // ---- Lag safety -----------------------------------------------------------

  /** How many messages had been sent before the receiver got `got[i]`. */
  function SentBefore(s: Sub, i: nat): nat
    requires i <= |s.got|
  {
    |ReceiveAll(s.coll, s.filter, Opened(s.plan), s.got[..i]).out|
  }

  /** The channel's events are the committed changes from `base` on. */
  ghost predicate Carries(w: World) {
    forall p :: 0 <= p < |w.channel| ==>
      w.base + p < |w.history| && w.channel[p] == w.history[w.base + p].change && w.channel[p].seqno == w.base + p + 1
  }

  lemma {:induction false} PlacesRise(channel: seq<Change>, s: Sub, a: nat, b: nat)
    requires Heard(channel, s) && a <= b <= |s.got|
    ensures Place(s, a) <= Place(s, b)
    decreases b
  {
    if a < b {
      PlacesRise(channel, s, a, b - 1);
      assert HeardAt(channel, s, b - 1);
    }
  }

  /** What the receiver got on passing a place of the channel. */
  lemma {:induction false} PassedBy(channel: seq<Change>, s: Sub, p: nat, n: nat) returns (i: nat)
    requires Heard(channel, s) && n <= |s.got| && s.attached <= p < Place(s, n)
    ensures i < n && Place(s, i) <= p < Place(s, i + 1)
  {
    if p >= Place(s, n - 1) {
      i := n - 1;
    } else {
      i := PassedBy(channel, s, p, n - 1);
    }
  }

  lemma {:induction false} OutKept(coll: string, filter: Option<EqFilter>, s: Stream, rs: seq<Received>, n: nat)
    requires n <= |rs|
    ensures ReceiveAll(coll, filter, s, rs[..n]).out <= ReceiveAll(coll, filter, s, rs).out
    decreases |rs|
  {
    hide Passes;
    if n == |rs| {
      assert rs[..n] == rs;
    } else {
      OutKept(coll, filter, s, rs[..|rs| - 1], n);
      assert rs[..|rs| - 1][..n] == rs[..n];
    }
  }

  lemma ReceivedStep(s: Sub, i: nat)
    requires i < |s.got|
    ensures ReceiveAll(s.coll, s.filter, Opened(s.plan), s.got[..i + 1]) ==
            OnReceive(s.coll, s.filter, ReceiveAll(s.coll, s.filter, Opened(s.plan), s.got[..i]), s.got[i])
  {
    assert s.got[..i + 1][..i] == s.got[..i];
    hide OnReceive, Opened;
  }

  /** What one more event can add to a stream. */
  lemma OneReceived(coll: string, filter: Option<EqFilter>, st: Stream, r: Received)
    ensures var after := OnReceive(coll, filter, st, r);
            && st.maxSent <= after.maxSent && (r == Lagged ==> after.maxSent == st.maxSent)
            && (r.Event? ==> after.maxSent <= Max(st.maxSent, r.change.seqno))
            && (after.out == st.out || after.out == st.out + [if r.Event? then ChangeMsg(r.change) else Resync])
  {
    hide Passes;
  }

  /** Nothing newer was sent than the plan's watermark or the receiver's place. */
  lemma {:induction false} SentUpTo(w: World, s: Sub, n: nat)
    requires Carries(w) && Heard(w.channel, s) && n <= |s.got|
    requires forall c :: c in s.plan.replay ==> c.seqno <= s.plan.maxSent
    ensures var st := ReceiveAll(s.coll, s.filter, Opened(s.plan), s.got[..n]);
            var bound := Max(s.plan.maxSent, w.base + Place(s, n));
            st.maxSent <= bound && forall q :: 0 <= q < |st.out| && st.out[q].ChangeMsg? ==> st.out[q].change.seqno <= bound
  {
    hide OnReceive, Carries;
    if n == 0 {
      assert s.got[..0] == [];
    } else {
      SentUpTo(w, s, n - 1);
      assert HeardAt(w.channel, s, n - 1);
      hide ReceiveAll, Opened, Heard, Place;
      ReceivedStep(s, n - 1);
      OneReceived(s.coll, s.filter, ReceiveAll(s.coll, s.filter, Opened(s.plan), s.got[..n - 1]), s.got[n - 1]);
      CarriesAt(w, Place(s, n - 1));
    }
  }

  lemma CarriesAt(w: World, p: nat)
    requires Carries(w)
    ensures p < |w.channel| ==> w.base + p < |w.history| && w.channel[p] == w.history[w.base + p].change && w.channel[p].seqno == w.base + p + 1
  {
    assert p < |w.channel| ==> w.channel[p] in w.channel;
  }

  /** What was sent after the receiver came to a place is newer than that. */
  lemma {:induction false} SentAfter(w: World, s: Sub, i: nat, n: nat)
    requires Carries(w) && Heard(w.channel, s) && i <= n <= |s.got|
    ensures var st := ReceiveAll(s.coll, s.filter, Opened(s.plan), s.got[..n]);
            SentBefore(s, i) <= |st.out| &&
            forall q :: SentBefore(s, i) <= q < |st.out| && st.out[q].ChangeMsg? ==> st.out[q].change.seqno > w.base + Place(s, i)
    decreases n
  {
    hide OnReceive, Opened, ReceiveAll, Carries;
    if i < n {
      SentAfter(w, s, i, n - 1);
      assert HeardAt(w.channel, s, n - 1);
      hide Heard, Place;
      ReceivedStep(s, n - 1);
      OneReceived(s.coll, s.filter, ReceiveAll(s.coll, s.filter, Opened(s.plan), s.got[..n - 1]), s.got[n - 1]);
      PlacesRise(w.channel, s, i, n - 1);
      CarriesAt(w, Place(s, n - 1));
    }
  }

  /** A resync that stands between every change sent before the seq and every
      change sent after it. */
  predicate StandsFor(s: Sub, k: nat, seqno: int) {
    && k < |s.out| && s.out[k] == Resync
    && (forall q :: 0 <= q < k && s.out[q].ChangeMsg? ==> s.out[q].change.seqno < seqno)
    && (forall q :: k < q < |s.out| && s.out[q].ChangeMsg? ==> s.out[q].change.seqno > seqno)
  }

  /** The receiver was too slow for the event, and the resync sent for that lag, so
      after the event was broadcast, stands in the event's place. */
  predicate SwallowedBy(w: World, s: Sub, j: int, i: nat)
    requires i < |s.got|
  {
    && s.got[i] == Lagged && w.base + Place(s, i) <= j < w.base + Place(s, i + 1)
    && StandsFor(s, SentBefore(s, i), j + 1)
  }

  ghost predicate Swallowed(w: World, s: Sub, j: int) {
    exists i :: 0 <= i < |s.got| && SwallowedBy(w, s, j, i)
  }

  lemma LagResyncs(w: World, s: Sub, i: nat)
    requires Streams(w, s) && s.stage.Live? && i < |s.got| && s.got[i] == Lagged
    ensures SentBefore(s, i) < |s.out| && s.out[SentBefore(s, i)] == Resync
    ensures SentBefore(s, i + 1) == SentBefore(s, i) + 1
    ensures ReceiveAll(s.coll, s.filter, Opened(s.plan), s.got[..i]).out == s.out[..SentBefore(s, i)]
  {
    hide Opened, Heard;
    ReceivedStep(s, i);
    OutKept(s.coll, s.filter, Opened(s.plan), s.got, i + 1);
    hide ReceiveAll;
  }

  /** A lag past an event that the plan does not cover. */
  lemma LagStandsFor(w: World, s: Sub, i: nat, j: nat)
    requires Streams(w, s) && s.stage.Live? && Carries(w) && i < |s.got| && s.got[i] == Lagged
    requires forall c :: c in s.plan.replay ==> c.seqno <= s.plan.maxSent
    requires s.plan.maxSent <= j && w.base + Place(s, i) <= j < w.base + Place(s, i + 1)
    ensures SwallowedBy(w, s, j, i)
  {
    LagResyncs(w, s, i);
    SentUpTo(w, s, i);
    SentAfter(w, s, i + 1, |s.got|);
    assert s.got[..|s.got|] == s.got;
    hide ReceiveAll, Opened, Heard, Carries, Place;
    var sent := ReceiveAll(s.coll, s.filter, Opened(s.plan), s.got[..i]).out;
    forall q | 0 <= q < SentBefore(s, i) && s.out[q].ChangeMsg?
      ensures s.out[q].change.seqno < j + 1
    {
      assert s.out[q] == sent[q];
    }
  }

  /** An event that was received, and that the plan does not cover, was sent. */
  lemma ReceivedIsSent(w: World, s: Sub, i: nat)
    requires Streams(w, s) && s.stage.Live? && Carries(w) && i < |s.got| && s.got[i].Event?
    requires forall c :: c in s.plan.replay ==> c.seqno <= s.plan.maxSent
    requires s.plan.maxSent < w.base + Place(s, i) + 1 && Matching(s.coll, s.filter, s.got[i].change)
    ensures Delivered(s, s.got[i].change)
  {
    SentUpTo(w, s, i);
    ReceivedStep(s, i);
    OutKept(s.coll, s.filter, Opened(s.plan), s.got, i + 1);
    assert HeardAt(w.channel, s, i);
    CarriesAt(w, Place(s, i));
    hide ReceiveAll, Opened, Heard, Carries, Place, Passes;
    var c, before := s.got[i].change, ReceiveAll(s.coll, s.filter, Opened(s.plan), s.got[..i]).out;
    assert ReceiveAll(s.coll, s.filter, Opened(s.plan), s.got[..i + 1]).out == before + [ChangeMsg(c)];
    assert s.out[|before|] == ChangeMsg(c);
  }

  /** An event that concerns a stream, above its start, that its receiver has passed. */
  predicate MovedPast(w: World, s: Sub, j: int) {
    0 <= j < |w.history| && s.start < j + 1 <= w.base + s.pos && Matching(s.coll, s.filter, w.history[j].change)
  }

  lemma PassedIsSettled(w: World, s: Sub, j: nat)
    requires Streams(w, s) && s.stage.Live? && Carries(w) && PlanCovers(w.history, w.base, s) && MovedPast(w, s, j)
    ensures Delivered(s, w.history[j].change) || Swallowed(w, s, j)
  {
    hide Matching;
    if j + 1 <= Max(s.plan.maxSent, w.base + s.attached) {
      OutKept(s.coll, s.filter, Opened(s.plan), s.got, 0);
      assert s.got[..0] == [];
      assert Opened(s.plan).out <= s.out;
      assert ChangeMsg(w.history[j].change) in Opened(s.plan).out;
    } else {
      var p := j - w.base;
      var i := PassedBy(w.channel, s, p, |s.got|);
      assert HeardAt(w.channel, s, i);
      CarriesAt(w, p);
      hide Streams, Heard, Carries, PlanCovers, ReceiveAll, Opened, Delivered, SwallowedBy;
      if s.got[i].Event? {
        ReceivedIsSent(w, s, i);
      } else {
        LagStandsFor(w, s, i, j);
      }
    }
  }

  /** What is known of a live subscription's stream on every run. */
  lemma StreamKnown(cfg: Config, cap: nat, run: seq<Action>, id: nat) returns (w: World, s: Sub)
    requires Exec(cfg, cap, run).Some? && id in Exec(cfg, cap, run).value.subs
    requires Exec(cfg, cap, run).value.subs[id].stage.Live?
    ensures w == Exec(cfg, cap, run).value && s == w.subs[id]
    ensures Streams(w, s) && Carries(w) && PlanCovers(w.history, w.base, s)
  {
    w := Exec(cfg, cap, run).value;
    s := w.subs[id];
    hide *;
    MachineStreams(cfg, cap, run);
    PlansCover(cfg, cap, run);
    HonestOnEveryRun(cfg, cap, run);
    RunsKeep(cfg, cap, run);
    InvWriter(cfg, w);
    WriterConsistent(cfg, w);
    GaplessHistory(cfg, w.history, w.db);
    CarriesWhen(w);
  }

  lemma CarriesWhen(w: World)
    requires Gapless(w.history) && |w.channel| <= |w.history| - w.base
    requires w.channel == ChangesOf(w.history[w.base..w.base + |w.channel|])
    ensures Carries(w)
  {
  }

  /** Nothing passes in silence: at every place of the channel that a receiver has
      passed since attaching it got the event there, or lagged over it when it was
      out of the buffer, and then its stream sent a resync at that very moment. */
  lemma ReceivedOrSwallowed(cfg: Config, cap: nat, run: seq<Action>, id: nat, p: nat) returns (i: nat)
    requires Exec(cfg, cap, run).Some? && id in Exec(cfg, cap, run).value.subs
    requires var s := Exec(cfg, cap, run).value.subs[id]; s.stage.Live? && s.attached <= p < s.pos
    ensures var w := Exec(cfg, cap, run).value;
            var s := w.subs[id];
            && p < |w.channel| && i < |s.got| && Place(s, i) <= p < Place(s, i + 1)
            && match s.got[i]
               case Event(c) => Place(s, i) == p && c == w.channel[p]
               case Lagged => p + cap < |w.channel| && SentBefore(s, i) < |s.out| && s.out[SentBefore(s, i)] == Resync
  {
    LagsOnlyBehind(cfg, cap, run);
    var w, s := StreamKnown(cfg, cap, run, id);
    i := PassedBy(w.channel, s, p, |s.got|);
    assert HeardAt(w.channel, s, i);
    if s.got[i] == Lagged {
      LagResyncs(w, s, i);
    }
    hide *;
  }

  /** Lag safety: a stream sends committed events that concern it, each at most
      once and in seq order; and any such event above its starting watermark that
      it has moved past without sending was swallowed by a lag, after which it
      sent a resync in the event's place. */
  lemma LagSafety(cfg: Config, cap: nat, run: seq<Action>, id: nat)
    requires Exec(cfg, cap, run).Some? && id in Exec(cfg, cap, run).value.subs
    requires Exec(cfg, cap, run).value.subs[id].stage.Live?
    ensures var w := Exec(cfg, cap, run).value;
            var s := w.subs[id];
            && (forall a, b :: 0 <= a < b < |s.out| && s.out[a].ChangeMsg? && s.out[b].ChangeMsg? ==>
                  s.out[a].change.seqno < s.out[b].change.seqno)
            && (forall a :: 0 <= a < |s.out| && s.out[a].ChangeMsg? ==>
                  var c := s.out[a].change;
                  1 <= c.seqno <= |w.history| && c == w.history[c.seqno - 1].change && Matching(s.coll, s.filter, c))
            && (forall j :: MovedPast(w, s, j) ==> Delivered(s, w.history[j].change) || Swallowed(w, s, j))
  {
    hide *;
    var w, s := LiveSubKnown(cfg, cap, run, id);
    var v, t := StreamKnown(cfg, cap, run, id);
    SettledParts(w.history, s, w.base + s.pos);
    SentOnceInOrder(w.history, s);
    forall j | MovedPast(w, s, j)
      ensures 0 <= j < |w.history| && (Delivered(s, w.history[j].change) || Swallowed(w, s, j))
    {
      PassedWithin(w, s, j);
      PassedIsSettled(w, s, j);
    }
  }

  lemma PassedWithin(w: World, s: Sub, j: int)
    requires MovedPast(w, s, j)
    ensures 0 <= j < |w.history|
  {
  }

  lemma SentOnceInOrder(h: seq<LogRow>, s: Sub)
    requires |s.marks| == |s.out| && forall i :: 0 <= i < |s.out| ==> MessageSettles(h, s, i)
    ensures forall a, b :: 0 <= a < b < |s.out| && s.out[a].ChangeMsg? && s.out[b].ChangeMsg? ==>
              s.out[a].change.seqno < s.out[b].change.seqno
    ensures forall a :: 0 <= a < |s.out| && s.out[a].ChangeMsg? ==>
              var c := s.out[a].change;
              1 <= c.seqno <= |h| && c == h[c.seqno - 1].change && Matching(s.coll, s.filter, c)
  {
    hide *;
    forall a, b | 0 <= a < b < |s.out| && s.out[a].ChangeMsg? && s.out[b].ChangeMsg?
      ensures s.out[a].change.seqno < s.out[b].change.seqno
    {
      SentInOrder(h, s, a, b);
    }
    forall a | 0 <= a < |s.out| && s.out[a].ChangeMsg?
      ensures var c := s.out[a].change;
              1 <= c.seqno <= |h| && c == h[c.seqno - 1].change && Matching(s.coll, s.filter, c)
    {
      SentIsCommitted(h, s, a);
    }
  }

  /** Deletes reach every subscriber of the collection, whatever its filter: a
      stream that has moved past one has sent it, or lagged past it and sent a
      resync in its place. */
  lemma DeletesAreForwarded(cfg: Config, cap: nat, run: seq<Action>, id: nat, j: nat)
    requires Exec(cfg, cap, run).Some? && id in Exec(cfg, cap, run).value.subs
    requires var w := Exec(cfg, cap, run).value;
             var s := w.subs[id];
             && s.stage.Live? && j < |w.history| && s.start < j + 1 <= w.base + s.pos
             && w.history[j].change.op.Delete? && w.history[j].change.coll == s.coll
    ensures var w := Exec(cfg, cap, run).value;
            Delivered(w.subs[id], w.history[j].change) || Swallowed(w, w.subs[id], j)
  {
    var w := Exec(cfg, cap, run).value;
    DeletesPass(w.subs[id].filter, w.history[j].change);
    LagSafety(cfg, cap, run, id);
    hide Delivered, Swallowed, Exec, Passes;
    assert MovedPast(w, w.subs[id], j);
  }

  lemma DeletesPass(filter: Option<EqFilter>, c: Change)
    requires c.op.Delete?
    ensures Passes(filter, c)
  {
  }

  // ---- Resuming -------------------------------------------------------------

  /** The events a resuming subscriber is owed: those that concern it after
      `last`, as far as its receiver has come. */
  predicate Owed(w: World, s: Sub, j: int) {
    && 0 <= j < |w.history| && s.last.Some? && s.last.value < j + 1 <= w.base + s.pos
    && Matching(s.coll, s.filter, w.history[j].change)
  }

  /** An event that was lost to a trim before the replay read: its row was gone, and
      the receiver does not bring it either, since it was sent before the receiver
      attached, or rows found later raised the watermark past it. */
  predicate Lost(w: World, s: Sub, j: int) {
    j + 1 <= s.rowsCut && (s.found || j + 1 <= w.base + s.attached)
  }

  /** Exactly-once resume. A resumed stream that sent no resync has sent in seq
      order, each exactly once, the events it owes that were not lost, and no lost
      one. So it sent everything it owes if and only if none of it was lost; and
      when no trim came between the MIN read and the replay read nothing was. */
  lemma ExactlyOnceResume(cfg: Config, cap: nat, run: seq<Action>, id: nat)
    requires Exec(cfg, cap, run).Some? && id in Exec(cfg, cap, run).value.subs
    requires var s := Exec(cfg, cap, run).value.subs[id];
             s.stage.Live? && s.last.Some? && Resync !in s.out
    ensures var w := Exec(cfg, cap, run).value;
            var s := w.subs[id];
            && (forall a, b :: 0 <= a < b < |s.out| ==> s.out[a].change.seqno < s.out[b].change.seqno)
            && (forall j :: Owed(w, s, j) ==> (Delivered(s, w.history[j].change) <==> !Lost(w, s, j)))
            && ((forall j :: Owed(w, s, j) ==> Delivered(s, w.history[j].change)) <==>
                (forall j :: Owed(w, s, j) ==> !Lost(w, s, j)))
            && s.start == ReplayStart(s.last.value, s.rowsCut, w.base + s.attached, s.found)
            && (s.rowsCut == s.minCut ==> forall j :: Owed(w, s, j) ==> Delivered(s, w.history[j].change))
  {
    hide *;
    var w, s := LiveSubKnown(cfg, cap, run, id);
    var h := w.history;
    OnlyChanges(s);
    StartedParts(h, w.base, s);
    ConsistentParts(cfg, h, w.db);
    SettledParts(h, s, w.base + s.pos);
    forall a, b | 0 <= a < b < |s.out|
      ensures s.out[a].change.seqno < s.out[b].change.seqno
    {
      SentInOrder(h, s, a, b);
    }
    EachOwed(w, s);
  }

  lemma EachOwed(w: World, s: Sub)
    requires Gapless(w.history) && Settled(w.history, s, w.base + s.pos) && Resync !in s.out && s.last.Some?
    requires s.start == ReplayStart(s.last.value, s.rowsCut, w.base + s.attached, s.found) && s.minCut <= Max(s.last.value, 0)
    ensures forall j :: Owed(w, s, j) ==> (Delivered(s, w.history[j].change) <==> !Lost(w, s, j))
    ensures s.rowsCut == s.minCut ==> forall j :: Owed(w, s, j) ==> !Lost(w, s, j)
  {
    hide Gapless, Settled, ReplayStart, Lost, Delivered, Matching;
    forall j | Owed(w, s, j)
      ensures Delivered(s, w.history[j].change) <==> !Lost(w, s, j)
      ensures s.rowsCut == s.minCut ==> !Lost(w, s, j)
    {
      OwedExactly(w, s, j);
    }
  }

  lemma OwedExactly(w: World, s: Sub, j: int)
    requires Gapless(w.history) && Settled(w.history, s, w.base + s.pos) && Resync !in s.out && Owed(w, s, j)
    requires s.start == ReplayStart(s.last.value, s.rowsCut, w.base + s.attached, s.found) && s.minCut <= Max(s.last.value, 0)
    ensures Delivered(s, w.history[j].change) <==> !Lost(w, s, j)
    ensures s.rowsCut == s.minCut ==> !Lost(w, s, j)
  {
    OwedParts(w, s, j);
    hide *;
    OwedDelivered(w.history, s, w.base + s.pos, j);
    LostBelowStart(w, s, j);
  }

  lemma LostBelowStart(w: World, s: Sub, j: nat)
    requires s.last.Some? && s.last.value < j + 1
    requires s.start == ReplayStart(s.last.value, s.rowsCut, w.base + s.attached, s.found) && s.minCut <= Max(s.last.value, 0)
    ensures Lost(w, s, j) <==> j + 1 <= s.start
    ensures s.rowsCut == s.minCut ==> !Lost(w, s, j)
  {
  }

  lemma OnlyChanges(s: Sub)
    requires Resync !in s.out
    ensures forall a :: 0 <= a < |s.out| ==> s.out[a].ChangeMsg?
  {
    forall a | 0 <= a < |s.out|
      ensures s.out[a].ChangeMsg?
    {
      assert s.out[a] in s.out;
    }
  }

  lemma StartedParts(h: seq<LogRow>, base: nat, s: Sub)
    requires Started(h, base, s) && s.last.Some? && Resync !in s.out
    ensures s.start == ReplayStart(s.last.value, s.rowsCut, base + s.attached, s.found) && s.minCut <= Max(s.last.value, 0)
  {
    assert s.out != [] ==> s.out[0] in s.out;
  }

  lemma ConsistentParts(cfg: Config, h: seq<LogRow>, db: Db)
    requires Consistent(cfg, h, db)
    ensures Gapless(h)
  {
  }

  lemma SettledParts(h: seq<LogRow>, s: Sub, reached: int)
    requires Settled(h, s, reached)
    ensures |s.marks| == |s.out| && (forall i :: 0 <= i < |s.out| ==> MessageSettles(h, s, i))
  {
    hide MessageSettles, Quiet;
  }

  lemma OwedParts(w: World, s: Sub, j: int)
    requires Owed(w, s, j)
    ensures 0 <= j < |w.history| && s.last.Some? && s.last.value < j + 1 <= w.base + s.pos
    ensures Matching(s.coll, s.filter, w.history[j].change)
  {
  }

  lemma OwedDelivered(h: seq<LogRow>, s: Sub, reached: int, j: nat)
    requires Gapless(h) && Settled(h, s, reached) && j < |h| && j + 1 <= reached
    requires Matching(s.coll, s.filter, h[j].change) && Resync !in s.out
    ensures Delivered(s, h[j].change) <==> j + 1 > s.start
  {
    if j + 1 > s.start {
      EventSettled(h, s, reached, j);
    }
    if Delivered(s, h[j].change) {
      var a :| 0 <= a < |s.out| && s.out[a] == ChangeMsg(h[j].change);
      SentIsCommitted(h, s, a);
    }
  }

  /** A resume point is answered with a resync exactly if trims have taken a row
      after it, as long as any row was ever logged. */
  lemma ResyncExactlyWhen(cfg: Config, cap: nat, run: seq<Action>, last: int)
    requires Exec(cfg, cap, run).Some?
    ensures var w := Exec(cfg, cap, run).value;
            Predates(last, w.db.log) <==> w.history != [] && last < |w.history| - |w.db.log|
  {
    RunsKeep(cfg, cap, run);
    var w := Exec(cfg, cap, run).value;
    hide *;
    InvWriter(cfg, w);
    WriterConsistent(cfg, w);
    RetainsParts(cfg, w.history, w.db);
    PredatesCut(w.history, w.db.log, last);
  }

  lemma InvWriter(cfg: Config, w: World)
    requires Inv(cfg, w)
    ensures WriterInv(cfg, w)
  {
    hide WriterInv, SubInv;
  }

  lemma PredatesCut(h: seq<LogRow>, log: seq<LogRow>, last: int)
    requires Gapless(h) && |log| <= |h| && log == h[|h| - |log|..] && (h != [] ==> log != [])
    ensures Predates(last, log) <==> h != [] && last < |h| - |log|
  {
    OldestRow(h, |h| - |log|);
    hide MinSeq, Gapless;
  }

  lemma RetainsParts(cfg: Config, h: seq<LogRow>, db: Db)
    requires Consistent(cfg, h, db)
    ensures Gapless(h) && |db.log| <= |h| && db.log == h[|h| - |db.log|..] && (h != [] ==> db.log != [])
  {
    hide Gapless, WellTyped, Explained, Unique;
  }

  /** The machine's three reads make the plan of the log at each of them, and its
      receives are the stream's. */
  lemma MachineSubscribes(w1: World, w2: World, w3: World, s: Sub)
    requires s.stage.Attached?
    ensures var plan := ResumePlan(w1.db.log, w2.db.log, w3.db.log, s.coll, s.last, s.filter);
            var a := ReadMaxStep(w1, s);
            var b := if s.last.None? then a else ReadMinStep(w2, a);
            var live := if b.stage.Live? then b else ReadRowsStep(w3, b);
            live.stage == Live(plan.maxSent) && live.out == Opened(plan).out && live.coll == s.coll && live.filter == s.filter
  {
    hide Predates, Replayed, RowsAfter, MaxSeq, Opened, ReplayStart, Cut;
  }

  /** The completeness of a resume needs the MIN read and the replay read to see
      no trim between them. Here row 1 is still there at the MIN read, so a client
      at seq 0 gets no resync; before the replay read event 2 is committed and
      trimming to one row takes row 1. Whatever the receiver, attached after
      event 1 was sent, still gets, event 1 never reaches the client and nothing
      tells it so. */
  lemma TrimBetweenReadsLoses(one: LogRow, two: LogRow, coll: string, rs: seq<Received>)
    requires one.change.coll == coll && one.change.seqno == 1 && two.change.coll == coll && two.change.seqno == 2
    requires forall i :: 0 <= i < |rs| ==> rs[i].Event? && rs[i].change.seqno > 1
    ensures var seen, trimmed := [one], Trim([one] + [two], 1);
            var plan := ResumePlan(seen, seen, trimmed, coll, Some(0), None);
            var out := ReceiveAll(coll, None, Opened(plan), rs).out;
            && trimmed == [two] && plan == Plan(false, [two.change], 2)
            && ChangeMsg(one.change) !in out && Resync !in out
  {
    var rows := [one] + [two];
    assert rows[..1] == [one] && rows[1] == two && [one][..0] == [];
    assert MaxSeq(rows) == 2;
    assert After([one], 1) == [];
    assert After(rows, 1) == [two];
    var plan := ResumePlan([one], [one], [two], coll, Some(0), None);
    assert [two][..0] == [];
    assert RowsAfter([two], coll, 0) == [two];
    assert Replayed([two], 0, None) == Plan(false, [two.change], 2);
    assert !Predates(0, [one]);
    hide *;
    assert plan == Plan(false, [two.change], 2) by {
      ResumeShape([one], [one], [two], coll, 0, None);
    }
    OpenedShape(two.change, 2);
    NothingOld(coll, None, Opened(plan), rs, one.change);
  }

  lemma ResumeShape(maxRead: seq<LogRow>, minRead: seq<LogRow>, rowsRead: seq<LogRow>, coll: string, last: int, filter: Option<EqFilter>)
    ensures ResumePlan(maxRead, minRead, rowsRead, coll, Some(last), filter) ==
            if Predates(last, minRead) then Plan(true, [], MaxSeq(maxRead))
            else Replayed(RowsAfter(rowsRead, coll, last), last, filter)
  {
    hide Predates, Replayed, RowsAfter, MaxSeq;
  }

  lemma OpenedShape(c: Change, max: int)
    ensures Opened(Plan(false, [c], max)) == Stream(max, [ChangeMsg(c)])
  {
  }

  /** A stream sends only what it receives. */
  lemma {:induction false} NothingOld(coll: string, filter: Option<EqFilter>, s: Stream, rs: seq<Received>, c: Change)
    requires ChangeMsg(c) !in s.out && Resync !in s.out
    requires forall i :: 0 <= i < |rs| ==> rs[i].Event? && rs[i].change.seqno > c.seqno
    ensures ChangeMsg(c) !in ReceiveAll(coll, filter, s, rs).out && Resync !in ReceiveAll(coll, filter, s, rs).out
  {
    if rs != [] {
      var n := |rs| - 1;
      NothingOld(coll, filter, s, rs[..n], c);
      assert rs[n].change != c;
    }
  }

  /** A resume point above every seq of the database, as after a restore, is
      taken at its word: there is no resync and no replay, and the stream stays
      silent on all events up to that point, although all of them are new. */
  lemma {:induction false} FutureResumeIsSilent(log: seq<LogRow>, coll: string, last: int, filter: Option<EqFilter>, rs: seq<Received>)
    requires forall i :: 0 <= i < |log| ==> log[i].change.seqno <= last
    requires forall i :: 0 <= i < |rs| ==> rs[i].Event? && rs[i].change.seqno <= last
    ensures var plan := ResumePlan(log, log, log, coll, Some(last), filter);
            plan == Plan(false, [], last) && ReceiveAll(coll, filter, Opened(plan), rs) == Stream(last, [])
  {
    NoRowsAfter(log, coll, last);
    MinIsPast(log, last);
    ResumeShape(log, log, log, coll, last, filter);
    assert Opened(Plan(false, [], last)) == Stream(last, []);
    assert Replayed([], last, filter) == Plan(false, [], last);
    hide ResumePlan, Opened, RowsAfter, Replayed, MaxSeq, Predates, Passes;
    if rs != [] {
      FutureResumeIsSilent(log, coll, last, filter, rs[..|rs| - 1]);
    }
  }

  lemma {:induction false} MinIsPast(log: seq<LogRow>, last: int)
    requires forall i :: 0 <= i < |log| ==> log[i].change.seqno <= last
    ensures MinSeq(log).Some? ==> MinSeq(log).value <= last
  {
    if log != [] {
      MinIsPast(log[..|log| - 1], last);
    }
  }

  lemma {:induction false} NoRowsAfter(log: seq<LogRow>, coll: string, last: int)
    requires forall i :: 0 <= i < |log| ==> log[i].change.seqno <= last
    ensures RowsAfter(log, coll, last) == []
  {
    if log != [] {
      NoRowsAfter(log[..|log| - 1], coll, last);
    }
  }
}
