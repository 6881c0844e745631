/** What every step of the protocol keeps. */
module ProtocolInvariant {
  import opened Prelude
  import opened Store
  import opened Writer
  import opened History
  import opened Realtime
  import opened Protocol

  // ---- The writer's side ----------------------------------------------------

  function Queue(w: World): seq<Change> {
    match w.phase
    case Idle => []
    case Sending(queue) => queue
  }

  /** Broadcast events are the committed changes from `base` on, in order; those
      not sent yet are queued. */
  ghost predicate Broadcasts(w: World) {
    && w.base <= |w.history|
    && w.channel + Queue(w) == ChangesOf(w.history[w.base..])
  }

  ghost predicate Retention(cfg: Config, w: World) {
    && (cfg.retention <= 0 ==> |w.db.log| == |w.history|)
    && (cfg.retention > 0 ==> |w.db.log| >= Min(cfg.retention, |w.history|))
    && (cfg.retention > 0 && !w.overdue ==> |w.db.log| == Min(cfg.retention, |w.history|))
  }

  /** The command of a token was told a success whose row is at a place of the
      history. */
  predicate Owns(answered: map<nat, Answer>, t: nat, k: nat) {
    t in answered && Success(answered[t].reply) && answered[t].at == k
  }

  ghost predicate Owned(answered: map<nat, Answer>, k: nat) {
    exists t :: Owns(answered, t, k)
  }

  ghost predicate OwnsOnce(answered: map<nat, Answer>) {
    forall t, u :: t in answered && u in answered && Success(answered[t].reply) && Success(answered[u].reply) && t != u ==>
      answered[t].at != answered[u].at
  }

  /** The successes told and the rows of the history correspond one to one, and
      each row reports its success. */
  ghost predicate Honest(h: seq<LogRow>, answered: map<nat, Answer>) {
    && (forall t :: t in answered ==> Backed(h, answered[t].cmd, answered[t].reply, answered[t].at))
    && OwnsOnce(answered)
    && (forall k: nat :: k < |h| ==> Owned(answered, k))
  }

  ghost predicate WriterInv(cfg: Config, w: World) {
    && Consistent(cfg, w.history, w.db)
    && Broadcasts(w)
    && Retention(cfg, w)
    && Honest(w.history, w.answered)
  }

  // ---- A subscriber's side --------------------------------------------------

  /** No event with seq in (lo, hi] concerns the subscriber. */
  ghost predicate Quiet(h: seq<LogRow>, s: Sub, lo: int, hi: int) {
    forall j :: 0 <= j < |h| && lo <= j < hi ==> !Matching(s.coll, s.filter, h[j].change)
  }

  /** One message: a change is the next event that concerns the subscriber after
      everything settled before it; a resync settles whatever it skips. */
  ghost predicate MessageSettles(h: seq<LogRow>, s: Sub, k: nat)
    requires k < |s.out|
  {
    match s.out[k]
    case ChangeMsg(c) =>
      && Mark(s, k) < c.seqno == Mark(s, k + 1)
      && 1 <= c.seqno <= |h| && c == h[c.seqno - 1].change
      && Matching(s.coll, s.filter, c)
      && Quiet(h, s, Mark(s, k), c.seqno - 1)
    case Resync => Mark(s, k) <= Mark(s, k + 1)
  }

  /** The messages and their marks divide the seqs from `start` on: each event is
      sent, skipped before a resync, of no concern, or still to come. */
  ghost predicate Settled(h: seq<LogRow>, s: Sub, reached: int) {
    && s.stage.Live? && |s.marks| == |s.out|
    && (forall k :: 0 <= k < |s.out| ==> MessageSettles(h, s, k))
    && Mark(s, |s.out|) <= Max(s.stage.maxSent, reached)
    && Quiet(h, s, Mark(s, |s.out|), Max(s.stage.maxSent, reached))
    && (s.stage.maxSent <= |h| || Mark(s, |s.out|) >= s.stage.maxSent)
    && reached <= |h|
    && Mark(s, |s.out|) <= Max(|h|, s.start)
  }

  /** The seq of the last change a client has read, or the one it named. */
  function LastSeen(out: seq<Msg>, read: nat, last: Option<int>): Option<int> {
    if read == 0 || read > |out| then last
    else if out[read - 1].ChangeMsg? then Some(out[read - 1].change.seqno)
    else LastSeen(out, read - 1, last)
  }

  /** What a client loaded at `asOf`, brought forward from `since` to `upTo`. */
  function Forwarded(h: seq<LogRow>, coll: string, filter: Option<EqFilter>, asOf: nat, since: int, upTo: int): View
    requires asOf <= |h|
  {
    Overlay(Shown(DocsAt(h, coll, asOf), filter), h, coll, filter, since, upTo)
  }

  /** What a client's view was built on: what it loaded, or the view it brought
      along. */
  function Brought(h: seq<LogRow>, s: Sub): View
    requires 0 <= s.asOf <= |h|
  {
    if s.loaded || s.last.None? then Shown(DocsAt(h, s.coll, s.asOf), s.filter)
    else Forwarded(h, s.coll, s.filter, s.asOf, s.since, s.last.value)
  }

  /** The seq from which on the events of its stream were applied to that. */
  function ResumedAt(s: Sub): int {
    if s.loaded then s.since else s.start
  }

  /** A loaded view has every event its stream had settled by then, but for those
      up to a seq that the client named and that did not exist yet. A view brought
      along is read on with as long as no resync was read. */
  predicate Based(h: seq<LogRow>, s: Sub) {
    if s.loaded then
      if s.last.Some? && s.asOf < s.last.value then s.since == s.last.value else s.since <= s.asOf
    else
      && s.last.Some? && s.last.value <= |h| && s.since <= s.asOf && s.since <= s.last.value
      && (s.read > 0 && s.out != [] ==> s.out[0] != Resync)
  }

  /** The last seq seen stands for the view, or nothing was read since loading it. */
  predicate Anchored(s: Sub) {
    var seen := LastSeen(s.out, s.read, s.last);
    (s.read > 0 || s.loaded) && seen.Some? ==>
      || seen.value == Mark(s, s.read)
      || (s.loaded && s.since == Mark(s, s.read) && (seen.value <= s.asOf || seen == s.last))
  }

  /** A client holds what its view was built on, brought forward by every event
      settled up to the messages it has read. */
  ghost predicate ViewInv(h: seq<LogRow>, s: Sub) {
    && s.read <= |s.out|
    && (s.view.Some? ==>
          && 0 <= s.asOf <= |h| && Based(h, s)
          && ResumedAt(s) <= Mark(s, s.read) <= Max(|h|, ResumedAt(s))
          && s.view.value == Overlay(Brought(h, s), h, s.coll, s.filter, ResumedAt(s), Mark(s, s.read))
          && Anchored(s))
  }

  ghost predicate Connecting(h: seq<LogRow>, base: nat, s: Sub) {
    && s.out == [] && s.marks == [] && s.read == 0 && !s.loaded
    && base + s.pos <= |h| && s.attached == s.pos
    && (match s.stage
        case Attached => true
        case HasMax(max) => s.last.Some? && base + s.pos <= max <= |h|
        case HasMin(max) => s.last.Some? && base + s.pos <= max <= |h| && s.minCut <= Max(s.last.value, 0)
        case Live(_) => false)
    && (s.view.Some? ==>
          && s.last.Some? && s.last.value <= |h|
          && 0 <= s.asOf <= |h| && s.since <= s.asOf && s.since <= s.last.value
          && s.view.value == Forwarded(h, s.coll, s.filter, s.asOf, s.since, s.last.value))
  }

  /** A resumed stream starts with a resync, or at `last`, or after the rows that
      were gone when it read them. */
  ghost predicate Started(h: seq<LogRow>, base: nat, s: Sub) {
    match s.last
    case None => s.start <= |h|
    case Some(last) =>
      || (s.out != [] && s.out[0] == Resync && last <= |h| && s.start <= |h|)
      || (s.start == ReplayStart(last, s.rowsCut, base + s.attached, s.found) <= Max(|h|, last) && s.minCut <= Max(last, 0))
  }

  ghost predicate SubInv(h: seq<LogRow>, base: nat, sent: nat, s: Sub) {
    && s.pos <= sent
    && if s.stage.Live? then Settled(h, s, base + s.pos) && ViewInv(h, s) && Started(h, base, s)
       else Connecting(h, base, s)
  }

  ghost predicate Inv(cfg: Config, w: World) {
    && WriterInv(cfg, w)
    && forall id :: id in w.subs ==> SubInv(w.history, w.base, |w.channel|, w.subs[id])
  }

  // ---- Writer steps keep the writer's invariant -----------------------------

  lemma ToldCut(cfg: Config, db: Db, length: nat, batch: seq<Job>, replies: seq<Reply>)
    requires AllBatchable(batch) && |batch| == |replies|
    ensures var n := |batch| - 1;
            Told(cfg, db, length, batch, replies) ==
            if batch == [] then map[]
            else Told(cfg, db, length, batch[..n], replies[..n])[batch[n].token := Answer(batch[n].cmd, replies[n], length + RowAt(cfg, db, batch, n))]
  {
    hide RowAt;
  }

  lemma {:induction false} ToldOnce(cfg: Config, db: Db, length: nat, batch: seq<Job>, replies: seq<Reply>)
    requires AllBatchable(batch) && |batch| == |replies| && DistinctTokens(batch)
    ensures var told := Told(cfg, db, length, batch, replies);
            && (forall i :: 0 <= i < |batch| ==>
                  && batch[i].token in told
                  && told[batch[i].token] == Answer(batch[i].cmd, replies[i], length + RowAt(cfg, db, batch, i)))
            && (forall t :: t in told ==> exists i :: 0 <= i < |batch| && batch[i].token == t)
  {
    hide RowAt, Told;
    ToldCut(cfg, db, length, batch, replies);
    if batch != [] {
      var n := |batch| - 1;
      ToldOnce(cfg, db, length, batch[..n], replies[..n]);
      forall i | 0 <= i < n
        ensures RowAt(cfg, db, batch[..n], i) == RowAt(cfg, db, batch, i)
      {
        RowAtFront(cfg, db, batch, i);
      }
      forall t | t in Told(cfg, db, length, batch, replies)
        ensures exists i :: 0 <= i < |batch| && batch[i].token == t
      {
        if t == batch[n].token {
          assert batch[n].token == t;
        } else {
          var i :| 0 <= i < n && batch[..n][i].token == t;
          assert batch[i].token == t;
        }
      }
    }
  }

  lemma RowAtFront(cfg: Config, db: Db, batch: seq<Job>, i: nat)
    requires AllBatchable(batch) && i < |batch|
    ensures RowAt(cfg, db, batch[..|batch| - 1], i) == RowAt(cfg, db, batch, i)
  {
    assert batch[..|batch| - 1][..i] == batch[..i];
  }

  /** The answers of a batch, on top of a history of `length` rows: each success
      has one of the rows that come after, and each of these has one success. */
  ghost predicate OwnsRows(length: nat, rows: seq<LogRow>, told: map<nat, Answer>) {
    && (forall t :: t in told && Success(told[t].reply) ==>
          length <= told[t].at < length + |rows| && Reports(told[t].cmd, told[t].reply, rows[told[t].at - length]))
    && OwnsOnce(told)
    && (forall k: nat :: length <= k < length + |rows| ==> Owned(told, k))
  }

  lemma HonestGrows(h: seq<LogRow>, answered: map<nat, Answer>, rows: seq<LogRow>, told: map<nat, Answer>)
    requires Honest(h, answered) && OwnsRows(|h|, rows, told) && answered.Keys !! told.Keys
    ensures Honest(h + rows, answered + told)
  {
    hide Reports, Success;
    var all := answered + told;
    forall t | t in all
      ensures Backed(h + rows, all[t].cmd, all[t].reply, all[t].at)
    {
      assert t !in told ==> Backed(h, answered[t].cmd, answered[t].reply, answered[t].at);
    }
    forall t, u | t in all && u in all && Success(all[t].reply) && Success(all[u].reply) && t != u
      ensures all[t].at != all[u].at
    {
      assert t in answered ==> Backed(h, answered[t].cmd, answered[t].reply, answered[t].at);
      assert u in answered ==> Backed(h, answered[u].cmd, answered[u].reply, answered[u].at);
    }
    forall k: nat | k < |h + rows|
      ensures Owned(all, k)
    {
      if k < |h| {
        assert Owned(answered, k);
        var t :| Owns(answered, t, k);
        assert Owns(all, t, k);
      } else {
        assert Owned(told, k);
        var t :| Owns(told, t, k);
        assert Owns(all, t, k);
      }
    }
  }

  /** The replies to a batch. */
  function RepliesTo(cfg: Config, db: Db, batch: seq<Job>, infra: Infra): (r: seq<Reply>)
    requires AllBatchable(batch)
    ensures |r| == |batch|
  {
    if !infra.beginOk then seq(|batch|, _ => Failed(Internal)) else Replies(RunOps(cfg, db, batch).outcomes, infra.commitOk)
  }

  lemma RepliesAre(cfg: Config, db: Db, batch: seq<Job>, infra: Infra, i: nat)
    requires AllBatchable(batch) && i < |batch|
    ensures RepliesTo(cfg, db, batch, infra)[i] ==
            if infra.beginOk then Settle(OutcomeAt(cfg, db, batch, i), infra.commitOk) else Failed(Internal)
    ensures !(infra.beginOk && infra.commitOk) ==> !Success(RepliesTo(cfg, db, batch, infra)[i])
  {
    RepliesBacked(cfg, db, batch, false, i);
    hide RunOps, RowAt, Settle, Backed;
  }

  ghost predicate ToldOf(cfg: Config, db: Db, length: nat, batch: seq<Job>, told: map<nat, Answer>)
    requires AllBatchable(batch)
  {
    && (forall i :: 0 <= i < |batch| ==>
          && batch[i].token in told
          && told[batch[i].token] ==
             Answer(batch[i].cmd, Settle(OutcomeAt(cfg, db, batch, i), true), length + RowAt(cfg, db, batch, i)))
    && forall t :: t in told ==> exists i :: 0 <= i < |batch| && batch[i].token == t
  }

  lemma SuccessesOwn(cfg: Config, db: Db, length: nat, batch: seq<Job>, told: map<nat, Answer>, t: nat)
    requires AllBatchable(batch) && ToldOf(cfg, db, length, batch, told)
    requires t in told && Success(told[t].reply)
    ensures var rows := Committed(cfg, db, batch);
            length <= told[t].at < length + |rows| && Reports(told[t].cmd, told[t].reply, rows[told[t].at - length])
  {
    hide Committed, Settle, Reports, Success, RowAt, OutcomeAt;
    var i :| 0 <= i < |batch| && batch[i].token == t;
    RepliesBacked(cfg, db, batch, true, i);
  }

  lemma SuccessesDiffer(cfg: Config, db: Db, length: nat, batch: seq<Job>, told: map<nat, Answer>, t: nat, u: nat)
    requires AllBatchable(batch) && ToldOf(cfg, db, length, batch, told)
    requires t in told && u in told && Success(told[t].reply) && Success(told[u].reply) && t != u
    ensures told[t].at != told[u].at
  {
    hide Settle, Reports, Success, RowAt, OutcomeAt;
    var i :| 0 <= i < |batch| && batch[i].token == t;
    var j :| 0 <= j < |batch| && batch[j].token == u;
    OwnRowsDiffer(cfg, db, batch, Min(i, j), Max(i, j));
  }

  lemma RowsOwned(cfg: Config, db: Db, length: nat, batch: seq<Job>, told: map<nat, Answer>, k: nat)
    requires AllBatchable(batch) && ToldOf(cfg, db, length, batch, told)
    requires length <= k < length + |Committed(cfg, db, batch)|
    ensures Owned(told, k)
  {
    hide Committed, Settle, Reports, Success, RowAt, OutcomeAt;
    var i := RowsReported(cfg, db, batch, k - length);
    assert Owns(told, batch[i].token, k);
  }

  lemma CommittedTold(cfg: Config, db: Db, length: nat, batch: seq<Job>, infra: Infra)
    requires AllBatchable(batch) && DistinctTokens(batch) && infra.beginOk && infra.commitOk
    ensures ToldOf(cfg, db, length, batch, Told(cfg, db, length, batch, RepliesTo(cfg, db, batch, infra)))
  {
    hide RepliesTo, Told, RowAt, Settle, OutcomeAt;
    var replies := RepliesTo(cfg, db, batch, infra);
    ToldOnce(cfg, db, length, batch, replies);
    forall i | 0 <= i < |batch|
      ensures replies[i] == Settle(OutcomeAt(cfg, db, batch, i), true)
    {
      RepliesAre(cfg, db, batch, infra, i);
    }
  }

  /** The answers to a batch whose transaction committed. */
  lemma ToldOwns(cfg: Config, db: Db, length: nat, batch: seq<Job>, told: map<nat, Answer>)
    requires AllBatchable(batch) && ToldOf(cfg, db, length, batch, told)
    ensures OwnsRows(length, Committed(cfg, db, batch), told)
  {
    hide Committed, ToldOf, Owned, Success, Reports;
    var rows := Committed(cfg, db, batch);
    forall t | t in told && Success(told[t].reply)
      ensures length <= told[t].at < length + |rows| && Reports(told[t].cmd, told[t].reply, rows[told[t].at - length])
    {
      SuccessesOwn(cfg, db, length, batch, told, t);
    }
    forall t, u | t in told && u in told && Success(told[t].reply) && Success(told[u].reply) && t != u
      ensures told[t].at != told[u].at
    {
      SuccessesDiffer(cfg, db, length, batch, told, t, u);
    }
    forall k: nat | length <= k < length + |rows|
      ensures Owned(told, k)
    {
      RowsOwned(cfg, db, length, batch, told, k);
    }
  }

  lemma CommittedOwn(cfg: Config, db: Db, length: nat, batch: seq<Job>, infra: Infra)
    requires AllBatchable(batch) && DistinctTokens(batch) && infra.beginOk && infra.commitOk
    ensures OwnsRows(length, Committed(cfg, db, batch), Told(cfg, db, length, batch, RepliesTo(cfg, db, batch, infra)))
  {
    hide *;
    CommittedTold(cfg, db, length, batch, infra);
    ToldOwns(cfg, db, length, batch, Told(cfg, db, length, batch, RepliesTo(cfg, db, batch, infra)));
  }

  /** A batch that did not commit tells no success. */
  lemma FailedOwn(cfg: Config, db: Db, length: nat, batch: seq<Job>, replies: seq<Reply>)
    requires AllBatchable(batch) && DistinctTokens(batch) && |batch| == |replies|
    requires forall i :: 0 <= i < |batch| ==> !Success(replies[i])
    ensures OwnsRows(length, [], Told(cfg, db, length, batch, replies))
  {
    ToldOnce(cfg, db, length, batch, replies);
    var told := Told(cfg, db, length, batch, replies);
    hide Told, RowAt, Success, Reports;
    forall t | t in told
      ensures !Success(told[t].reply)
    {
      var i :| 0 <= i < |batch| && batch[i].token == t;
    }
  }

  /** What a batch adds to the answers and to the history. */
  lemma BatchAdds(cfg: Config, w: World, batch: seq<Job>, infra: Infra)
    requires AllBatchable(batch)
    ensures var after := BatchStep(cfg, w, batch, infra);
            && after.answered == w.answered + Told(cfg, w.db, |w.history|, batch, RepliesTo(cfg, w.db, batch, infra))
            && after.history == w.history + if infra.beginOk && infra.commitOk then Committed(cfg, w.db, batch) else []
  {
    hide RunOps, Committed, Changes, Told, Replies;
  }

  lemma BatchHonest(cfg: Config, w: World, batch: seq<Job>, infra: Infra)
    requires Enabled(w, Batch(batch, infra)) && Honest(w.history, w.answered)
    ensures var after := BatchStep(cfg, w, batch, infra); Honest(after.history, after.answered)
  {
    var rows := if infra.beginOk && infra.commitOk then Committed(cfg, w.db, batch) else [];
    var replies := RepliesTo(cfg, w.db, batch, infra);
    var told := Told(cfg, w.db, |w.history|, batch, replies);
    NoneAnswered(w, batch, infra);
    hide *;
    BatchAdds(cfg, w, batch, infra);
    if infra.beginOk && infra.commitOk {
      CommittedOwn(cfg, w.db, |w.history|, batch, infra);
    } else {
      forall i | 0 <= i < |batch|
        ensures !Success(replies[i])
      {
        RepliesAre(cfg, w.db, batch, infra, i);
      }
      FailedOwn(cfg, w.db, |w.history|, batch, replies);
    }
    ToldOnce(cfg, w.db, |w.history|, batch, replies);
    forall t | t in told
      ensures t !in w.answered
    {
      var i :| 0 <= i < |batch| && batch[i].token == t;
    }
    HonestGrows(w.history, w.answered, rows, told);
  }

  lemma NoneAnswered(w: World, batch: seq<Job>, infra: Infra)
    requires Enabled(w, Batch(batch, infra))
    ensures AllBatchable(batch) && DistinctTokens(batch) && forall i :: 0 <= i < |batch| ==> batch[i].token !in w.answered
  {
    hide AllBatchable, DistinctTokens;
  }

  /** Committing rows whose changes are the batch's events. */
  lemma CommitBroadcasts(cfg: Config, w: World, after: World, rows: seq<LogRow>, events: seq<Change>)
    requires Broadcasts(w) && Retention(cfg, w) && w.phase.Idle?
    requires events == ChangesOf(rows) && after.history == w.history + rows
    requires |after.db.log| == |w.db.log| + |rows|
    requires after.phase == (if events == [] then Idle else Sending(events))
    requires after.overdue == (w.overdue || events != [])
    requires after.channel == w.channel && after.base == w.base
    ensures Broadcasts(after) && Retention(cfg, after)
  {
    assert after.history[w.base..] == w.history[w.base..] + rows;
    assert ChangesOf(after.history[w.base..]) == ChangesOf(w.history[w.base..]) + ChangesOf(rows);
    assert w.channel + [] == w.channel;
  }

  /** What a committed batch changes. */
  lemma CommitShape(cfg: Config, w: World, batch: seq<Job>, infra: Infra)
    requires AllBatchable(batch) && infra.beginOk && infra.commitOk
    ensures var after, run := BatchStep(cfg, w, batch, infra), RunOps(cfg, w.db, batch);
            && after.db == run.db
            && after.history == w.history + Committed(cfg, w.db, batch)
            && after.phase == (if Changes(run.outcomes) == [] then Idle else Sending(Changes(run.outcomes)))
            && after.overdue == (w.overdue || Changes(run.outcomes) != [])
            && after.channel == w.channel && after.base == w.base
  {
    hide RunOps, Changes, Committed, Told, Replies;
  }

  /** A batch that did not commit changes nothing but the replies. */
  lemma FailedCommitShape(cfg: Config, w: World, batch: seq<Job>, infra: Infra)
    requires AllBatchable(batch) && !(infra.beginOk && infra.commitOk)
    ensures BatchStep(cfg, w, batch, infra) == w.(answered := BatchStep(cfg, w, batch, infra).answered)
  {
    hide RunOps, Changes, Committed, Told, Replies;
  }

  lemma BatchKeepsWriter(cfg: Config, w: World, batch: seq<Job>, infra: Infra)
    requires WriterInv(cfg, w) && Enabled(w, Batch(batch, infra))
    ensures WriterInv(cfg, BatchStep(cfg, w, batch, infra))
  {
    assert w.phase.Idle? && AllBatchable(batch);
    hide Enabled, BatchStep, BatchExplained, Consistent, RunOps, Committed, Changes, Honest, Broadcasts, Retention;
    BatchHonest(cfg, w, batch, infra);
    var after := BatchStep(cfg, w, batch, infra);
    if infra.beginOk && infra.commitOk {
      CommitShape(cfg, w, batch, infra);
      BatchConsistent(cfg, w.history, w.db, batch);
      BatchExplainedParts(cfg, w.history, w.db, batch);
      CommitBroadcasts(cfg, w, after, Committed(cfg, w.db, batch), Changes(RunOps(cfg, w.db, batch).outcomes));
    } else {
      FailedCommitShape(cfg, w, batch, infra);
      OnlyAnswers(cfg, w, after);
    }
  }

  lemma OnlyAnswers(cfg: Config, w: World, after: World)
    requires Broadcasts(w) && Retention(cfg, w)
    requires after.db == w.db && after.history == w.history && after.phase == w.phase
    requires after.overdue == w.overdue && after.channel == w.channel && after.base == w.base
    ensures Broadcasts(after) && Retention(cfg, after)
  {
  }

  lemma TrimConsistent(cfg: Config, h: seq<LogRow>, db: Db, log: seq<LogRow>)
    requires Consistent(cfg, h, db) && Retains(h, log)
    ensures Consistent(cfg, h, db.(log := log))
  {
    hide Repeats, Replay, Gapless, WellTyped, Retains;
  }

  lemma TrimBroadcasts(cfg: Config, w: World, ok: bool)
    requires Broadcasts(w) && w.phase == Sending([])
    ensures Broadcasts(TrimStep(cfg, w, ok))
  {
    hide Trim;
  }

  lemma TrimRetention(cfg: Config, w: World, ok: bool)
    requires Retention(cfg, w)
    requires |Trim(w.db.log, cfg.retention)| == if cfg.retention <= 0 then |w.db.log| else Min(|w.db.log|, cfg.retention)
    requires |w.db.log| <= |w.history|
    ensures Retention(cfg, TrimStep(cfg, w, ok))
  {
    hide Trim;
  }

  lemma TrimKeepsWriter(cfg: Config, w: World, ok: bool)
    requires WriterInv(cfg, w) && w.phase == Sending([])
    ensures WriterInv(cfg, TrimStep(cfg, w, ok))
  {
    TrimRetains(w.history, w.db.log, cfg.retention);
    TrimConsistent(cfg, w.history, w.db, Trim(w.db.log, cfg.retention));
    TrimBroadcasts(cfg, w, ok);
    TrimRetention(cfg, w, ok);
    hide Trim, Backed, Consistent, Gapless, Retains, Broadcasts, Retention;
  }

  lemma SendKeepsWriter(cfg: Config, cap: nat, w: World)
    requires WriterInv(cfg, w) && Enabled(w, Send)
    ensures WriterInv(cfg, Next(cfg, cap, w, Send))
  {
    hide Consistent, Backed;
    assert w.channel + w.phase.queue == (w.channel + [w.phase.queue[0]]) + w.phase.queue[1..];
  }

  lemma AdminKeepsWriter(cfg: Config, cap: nat, w: World, cmd: Command)
    requires WriterInv(cfg, w) && Enabled(w, Admin(cmd))
    ensures WriterInv(cfg, Next(cfg, cap, w, Admin(cmd)))
  {
    AdministerConsistent(cfg, w.history, w.db, cmd);
    hide Consistent, Backed, Administer;
  }

  lemma RestartKeepsWriter(cfg: Config, cap: nat, w: World)
    requires WriterInv(cfg, w)
    ensures WriterInv(cfg, Next(cfg, cap, w, Restart))
  {
    hide Consistent, Backed;
    assert w.history[|w.history|..] == [];
  }

  lemma WriterStepKeeps(cfg: Config, cap: nat, w: World)
    requires WriterInv(cfg, w)
    ensures forall a :: Enabled(w, a) ==> WriterInv(cfg, Next(cfg, cap, w, a))
  {
    forall a | Enabled(w, a)
      ensures WriterInv(cfg, Next(cfg, cap, w, a))
    {
      match a {
        case Batch(batch, infra) => BatchKeepsWriter(cfg, w, batch, infra);
        case Send => SendKeepsWriter(cfg, cap, w);
        case TrimLog(ok) => TrimKeepsWriter(cfg, w, ok);
        case Admin(cmd) => AdminKeepsWriter(cfg, cap, w, cmd);
        case Restart => RestartKeepsWriter(cfg, cap, w);
        case _ =>
          var after := Next(cfg, cap, w, a);
          assert after == w.(subs := after.subs);
          OnlySubs(cfg, w, after.subs);
      }
    }
  }

  lemma OnlySubs(cfg: Config, w: World, subs: map<nat, Sub>)
    requires WriterInv(cfg, w)
    ensures WriterInv(cfg, w.(subs := subs))
  {
    hide Consistent, Backed;
  }

  // ---- Facts about quiet stretches and overlays -----------------------------

  lemma QuietGrows(h: seq<LogRow>, more: seq<LogRow>, s: Sub, lo: int, hi: int)
    requires Quiet(h, s, lo, hi) && (hi <= |h| || hi <= lo)
    ensures Quiet(h + more, s, lo, hi)
  {
    assert forall j :: 0 <= j < |h| ==> (h + more)[j] == h[j];
  }

  lemma {:induction false} MarksRise(h: seq<LogRow>, s: Sub, a: nat, b: nat)
    requires |s.marks| == |s.out| && forall k :: 0 <= k < |s.out| ==> MessageSettles(h, s, k)
    requires a <= b <= |s.out|
    ensures Mark(s, a) <= Mark(s, b)
    decreases b
  {
    if a < b {
      MarksRise(h, s, a, b - 1);
      assert MessageSettles(h, s, b - 1);
    }
  }

  lemma {:induction false} OverlayGrows(view: View, h: seq<LogRow>, more: seq<LogRow>, coll: string, filter: Option<EqFilter>, lo: int, hi: int)
    requires hi <= |h| || hi <= lo
    ensures Overlay(view, h + more, coll, filter, lo, hi) == Overlay(view, h, coll, filter, lo, hi)
    decreases Max(0, hi - lo)
  {
    hide Matching, ApplyChange;
    if lo < hi {
      OverlayGrows(view, h, more, coll, filter, lo, hi - 1);
    }
  }

  lemma {:induction false} OverlayQuiet(view: View, h: seq<LogRow>, s: Sub, lo: int, a: int, b: int)
    requires lo <= a <= b && Quiet(h, s, a, b)
    ensures Overlay(view, h, s.coll, s.filter, lo, b) == Overlay(view, h, s.coll, s.filter, lo, a)
    decreases b - a
  {
    hide Matching, ApplyChange;
    if a < b {
      assert Quiet(h, s, a, b - 1);
      OverlayQuiet(view, h, s, lo, a, b - 1);
      if 0 < b <= |h| {
        assert !Matching(s.coll, s.filter, h[b - 1].change);
      }
    }
  }

  lemma ForwardedGrows(h: seq<LogRow>, more: seq<LogRow>, coll: string, filter: Option<EqFilter>, asOf: nat, since: int, upTo: int)
    requires asOf <= |h| && upTo <= |h|
    ensures Forwarded(h + more, coll, filter, asOf, since, upTo) == Forwarded(h, coll, filter, asOf, since, upTo)
  {
    hide Overlay, Shown, Replay, DocsOf;
    assert (h + more)[..asOf] == h[..asOf];
    OverlayGrows(Shown(DocsAt(h, coll, asOf), filter), h, more, coll, filter, since, upTo);
  }

  // ---- New committed rows and new broadcasts keep every subscription --------

  lemma SettlesGrows(h: seq<LogRow>, more: seq<LogRow>, s: Sub, k: nat)
    requires |s.marks| == |s.out| && k < |s.out| && MessageSettles(h, s, k)
    ensures MessageSettles(h + more, s, k)
  {
    if s.out[k].ChangeMsg? {
      var c := s.out[k].change;
      QuietGrows(h, more, s, Mark(s, k), c.seqno - 1);
      assert (h + more)[c.seqno - 1] == h[c.seqno - 1];
    }
  }

  lemma SettledGrows(h: seq<LogRow>, more: seq<LogRow>, s: Sub, reached: int)
    requires Settled(h, s, reached)
    ensures Settled(h + more, s, reached)
  {
    forall k | 0 <= k < |s.out|
      ensures MessageSettles(h + more, s, k)
    {
      SettlesGrows(h, more, s, k);
    }
    var mark := Mark(s, |s.out|);
    if mark < Max(s.stage.maxSent, reached) {
      QuietGrows(h, more, s, mark, Max(s.stage.maxSent, reached));
    }
  }

  lemma BroughtGrows(h: seq<LogRow>, more: seq<LogRow>, s: Sub)
    requires 0 <= s.asOf <= |h| && (!s.loaded && s.last.Some? ==> s.last.value <= |h|)
    ensures Brought(h + more, s) == Brought(h, s)
  {
    hide Overlay, Shown, Replay, DocsOf;
    assert (h + more)[..s.asOf] == h[..s.asOf];
    if !s.loaded && s.last.Some? {
      ForwardedGrows(h, more, s.coll, s.filter, s.asOf, s.since, s.last.value);
    }
  }

  lemma ViewGrows(h: seq<LogRow>, more: seq<LogRow>, s: Sub)
    requires ViewInv(h, s)
    ensures ViewInv(h + more, s)
  {
    hide Brought, Anchored;
    if s.view.Some? {
      BroughtGrows(h, more, s);
      OverlayGrows(Brought(h, s), h, more, s.coll, s.filter, ResumedAt(s), Mark(s, s.read));
    }
  }

  lemma SubGrows(h: seq<LogRow>, more: seq<LogRow>, base: nat, sent: nat, sent': nat, s: Sub)
    requires SubInv(h, base, sent, s) && sent <= sent'
    ensures SubInv(h + more, base, sent', s)
  {
    hide Settled, ViewInv, Forwarded, ReplayStart;
    if s.stage.Live? {
      SettledGrows(h, more, s, base + s.pos);
      ViewGrows(h, more, s);
    } else if s.view.Some? {
      ForwardedGrows(h, more, s.coll, s.filter, s.asOf, s.since, s.last.value);
    }
  }

  // ---- Going live -----------------------------------------------------------

  /** The subscription after replaying a log that is the history from `k` on. */
  function ReplaySub(s: Sub, h: seq<LogRow>, k: nat, last: int, start: int): Sub
    requires k <= |h|
  {
    GoLive(s, Replayed(RowsAfter(h[k..], s.coll, last), last, s.filter), start)
  }

  /** What the replay settles: everything from `start` to the end of the history. */
  ghost predicate ReplayInv(h: seq<LogRow>, s: Sub, last: int, start: int) {
    && s.stage.Live? && s.start == start && |s.marks| == |s.out|
    && (forall k :: 0 <= k < |s.out| ==> s.out[k].ChangeMsg? && MessageSettles(h, s, k))
    && start <= Mark(s, |s.out|)
    && Quiet(h, s, Mark(s, |s.out|), |h|)
    && last <= s.stage.maxSent <= Max(last, |h|)
    && (Mark(s, |s.out|) == start || Mark(s, |s.out|) <= Min(|h|, s.stage.maxSent))
    && (s.stage.maxSent > last ==> start <= s.stage.maxSent)
  }

  lemma ReplayedGrows(rows: seq<LogRow>, row: LogRow, last: int, filter: Option<EqFilter>)
    ensures var p := Replayed(rows, last, filter);
            Replayed(rows + [row], last, filter) ==
            Plan(false, p.replay + (if Passes(filter, row.change) then [row.change] else []), Max(p.maxSent, row.change.seqno))
  {
    assert (rows + [row])[..|rows|] == rows;
  }

  lemma RowsAfterGrows(log: seq<LogRow>, row: LogRow, coll: string, last: int)
    ensures RowsAfter(log + [row], coll, last) ==
            RowsAfter(log, coll, last) + if row.change.seqno > last && row.change.coll == coll then [row] else []
  {
    assert (log + [row])[..|log|] == log;
  }

  /** Sending one more message leaves the earlier ones settled. */
  lemma EarlierSettle(h: seq<LogRow>, s: Sub, t: Sub, k: nat)
    requires |s.marks| == |s.out| && k < |s.out| && MessageSettles(h, s, k)
    requires s.out <= t.out && s.marks <= t.marks && |t.marks| == |t.out|
    requires t.coll == s.coll && t.filter == s.filter && t.start == s.start
    ensures MessageSettles(h, t, k)
  {
    assert t.out[k] == s.out[k];
    assert Mark(t, k) == Mark(s, k) && Mark(t, k + 1) == Mark(s, k + 1);
    if s.out[k].ChangeMsg? {
      assert Quiet(h, t, Mark(s, k), s.out[k].change.seqno - 1);
    }
  }

  /** One more row in the replay: of no concern, dropped by the filter, or sent. */
  function PlanRow(p: Plan, coll: string, filter: Option<EqFilter>, row: LogRow, last: int): Plan {
    var c := row.change;
    if c.seqno <= last || c.coll != coll then p
    else Plan(p.resync, p.replay + (if Passes(filter, c) then [c] else []), Max(p.maxSent, c.seqno))
  }

  /** The same row for a subscriber that went live with the replay. */
  function ReplayRow(u: Sub, row: LogRow, last: int): Sub
    requires u.stage.Live?
  {
    var c := row.change;
    if c.seqno <= last || c.coll != u.coll then u
    else
      var raised := u.(stage := Live(Max(u.stage.maxSent, c.seqno)), plan := PlanRow(u.plan, u.coll, u.filter, row, last));
      if Passes(u.filter, c) then raised.(out := u.out + [ChangeMsg(c)], marks := u.marks + [c.seqno]) else raised
  }

  lemma PlanGrows(log: seq<LogRow>, row: LogRow, coll: string, last: int, filter: Option<EqFilter>)
    ensures Replayed(RowsAfter(log + [row], coll, last), last, filter) ==
            PlanRow(Replayed(RowsAfter(log, coll, last), last, filter), coll, filter, row, last)
  {
    RowsAfterGrows(log, row, coll, last);
    var rows := RowsAfter(log, coll, last);
    ReplayedGrows(rows, row, last, filter);
    hide Replayed, RowsAfter, Passes;
    assert rows + [] == rows;
  }

  lemma LiveGrows(s: Sub, p: Plan, row: LogRow, last: int, start: int)
    requires !p.resync
    ensures GoLive(s, PlanRow(p, s.coll, s.filter, row, last), start) ==
            ReplayRow(GoLive(s, p, start), row, last)
  {
  }

  lemma ReplayRowCases(u: Sub, row: LogRow, last: int)
    requires u.stage.Live?
    ensures var t, c := ReplayRow(u, row, last), row.change;
            && t.stage.Live? && t.coll == u.coll && t.filter == u.filter && t.start == u.start
            && (if c.seqno > last && Matching(u.coll, u.filter, c)
                then t.out == u.out + [ChangeMsg(c)] && t.marks == u.marks + [c.seqno]
                else t.out == u.out && t.marks == u.marks)
            && t.stage.maxSent == (if c.seqno > last && c.coll == u.coll then Max(u.stage.maxSent, c.seqno) else u.stage.maxSent)
  {
    hide Passes;
  }

  /** Earlier messages stay settled when a row and perhaps a message come after. */
  lemma EarlierStay(g: seq<LogRow>, row: LogRow, u: Sub, t: Sub)
    requires |u.marks| == |u.out| && |t.marks| == |t.out| && u.out <= t.out && u.marks <= t.marks
    requires t.coll == u.coll && t.filter == u.filter && t.start == u.start
    requires forall k :: 0 <= k < |u.out| ==> u.out[k].ChangeMsg? && MessageSettles(g, u, k)
    ensures forall k :: 0 <= k < |u.out| ==> t.out[k].ChangeMsg? && MessageSettles(g + [row], t, k)
  {
    hide MessageSettles, Mark;
    forall k | 0 <= k < |u.out|
      ensures t.out[k].ChangeMsg? && MessageSettles(g + [row], t, k)
    {
      SettlesGrows(g, [row], u, k);
      EarlierSettle(g + [row], u, t, k);
    }
  }

  lemma QuietSame(h: seq<LogRow>, u: Sub, t: Sub, lo: int, hi: int)
    requires Quiet(h, u, lo, hi) && t.coll == u.coll && t.filter == u.filter
    ensures Quiet(h, t, lo, hi)
  {
  }

  /** A row that does not concern the subscription leaves the rest quiet. */
  lemma QuietRow(g: seq<LogRow>, row: LogRow, s: Sub, mark: int)
    requires Quiet(g, s, mark, |g|) && (mark <= |g| ==> !Matching(s.coll, s.filter, row.change))
    ensures Quiet(g + [row], s, mark, |g| + 1)
  {
    hide Matching;
    var h := g + [row];
    forall j | 0 <= j < |h| && mark <= j < |g| + 1
      ensures !Matching(s.coll, s.filter, h[j].change)
    {
      assert j < |g| ==> h[j] == g[j];
    }
  }

  lemma ReplayRowSettles(g: seq<LogRow>, row: LogRow, u: Sub, k: nat, last: int)
    requires Gapless(g + [row]) && k <= |g|
    requires ReplayInv(g, u, last, Max(last, k))
    ensures ReplayInv(g + [row], ReplayRow(u, row, last), last, Max(last, k))
  {
    var h, t := g + [row], ReplayRow(u, row, last);
    var c := row.change;
    assert h[|g|] == row && c.seqno == |g| + 1;
    ReplayRowCases(u, row, last);
    hide Gapless, Matching, ReplayRow, Quiet, MessageSettles;
    EarlierStay(g, row, u, t);
    var mark := Mark(u, |u.out|);
    if |t.out| > |u.out| {
      assert Mark(t, |u.out|) == mark && Mark(t, |t.out|) == c.seqno;
      QuietUpTo(g, row, u, t, mark);
      NextSettles(g, row, t, |u.out|);
      NothingLeft(h, t);
    } else {
      assert Mark(t, |t.out|) == mark;
      QuietRow(g, row, u, mark);
      QuietSame(h, u, t, mark, |h|);
    }
  }

  lemma QuietUpTo(g: seq<LogRow>, row: LogRow, u: Sub, t: Sub, mark: int)
    requires Quiet(g, u, mark, |g|) && t.coll == u.coll && t.filter == u.filter
    ensures Quiet(g + [row], t, mark, |g|)
  {
    hide Matching;
    assert forall j :: 0 <= j < |g| ==> (g + [row])[j] == g[j];
  }

  lemma NextSettles(g: seq<LogRow>, row: LogRow, t: Sub, k: nat)
    requires k < |t.out| && t.out[k] == ChangeMsg(row.change) && row.change.seqno == |g| + 1 == Mark(t, k + 1)
    requires Mark(t, k) <= |g| && Matching(t.coll, t.filter, row.change) && Quiet(g + [row], t, Mark(t, k), |g|)
    ensures MessageSettles(g + [row], t, k)
  {
    hide Matching, Quiet, Mark;
  }

  lemma NothingLeft(h: seq<LogRow>, t: Sub)
    ensures Quiet(h, t, |h|, |h|)
  {
  }

  lemma {:induction false} ReplaySettles(h: seq<LogRow>, s: Sub, k: nat, last: int)
    requires Gapless(h) && k <= |h|
    ensures ReplayInv(h, ReplaySub(s, h, k, last, Max(last, k)), last, Max(last, k))
    decreases |h|
  {
    if |h| == k {
      assert h[k..] == [];
    } else {
      var n := |h| - 1;
      var g, row := h[..n], h[n];
      assert h[k..] == g[k..] + [row] && h == g + [row];
      ReplaySettles(g, s, k, last);
      PlanGrows(g[k..], row, s.coll, last, s.filter);
      LiveGrows(s, Replayed(RowsAfter(g[k..], s.coll, last), last, s.filter), row, last, Max(last, k));
      ReplayRowSettles(g, row, ReplaySub(s, g, k, last, Max(last, k)), k, last);
    }
  }

  /** The three ways of going live. */
  lemma FreshGoesLive(h: seq<LogRow>, s: Sub, max: int, resync: bool, reached: int)
    requires reached <= max <= |h|
    ensures Settled(h, GoLive(s, Plan(resync, [], max), max), reached)
  {
  }

  lemma {:induction false} RowsAreAfter(log: seq<LogRow>, coll: string, last: int)
    ensures forall i :: 0 <= i < |RowsAfter(log, coll, last)| ==> RowsAfter(log, coll, last)[i].change.seqno > last
  {
    if log != [] {
      RowsAreAfter(log[..|log| - 1], coll, last);
    }
  }

  lemma FoundRaises(rows: seq<LogRow>, last: int, filter: Option<EqFilter>)
    requires rows != [] && rows[|rows| - 1].change.seqno > last
    ensures Replayed(rows, last, filter).maxSent > last
  {
    hide Passes;
  }

  lemma ReplayGoesLive(h: seq<LogRow>, s: Sub, k: nat, last: int, reached: nat)
    requires Gapless(h) && k <= |h| && reached <= |h|
    ensures var rows := RowsAfter(h[k..], s.coll, last);
            var start := ReplayStart(last, k, reached, rows != []);
            Settled(h, GoLive(s, Replayed(rows, last, s.filter), start), reached)
  {
    var rows := RowsAfter(h[k..], s.coll, last);
    var plan := Replayed(rows, last, s.filter);
    ReplaySettles(h, s, k, last);
    var t := GoLive(s, plan, ReplayStart(last, k, reached, rows != []));
    RowsAreAfter(h[k..], s.coll, last);
    if rows != [] {
      FoundRaises(rows, last, s.filter);
      hide Replayed, RowsAfter, Gapless, MessageSettles, Quiet;
      ReplayedAll(h, t, last, Max(last, k), reached);
    } else {
      assert plan == Plan(false, [], last);
      hide Replayed, RowsAfter, Gapless, MessageSettles;
      FoundNothing(h, s, plan, k, last, reached);
    }
  }

  lemma ReplayedAll(h: seq<LogRow>, t: Sub, last: int, start: int, reached: nat)
    requires ReplayInv(h, t, last, start) && t.stage.maxSent > last && reached <= |h|
    ensures Settled(h, t, reached)
  {
    hide MessageSettles;
  }

  lemma FoundNothing(h: seq<LogRow>, s: Sub, plan: Plan, k: nat, last: int, reached: nat)
    requires plan == Plan(false, [], last) && k <= |h| && reached <= |h|
    requires ReplayInv(h, GoLive(s, plan, Max(last, k)), last, Max(last, k))
    ensures Settled(h, GoLive(s, plan, ReplayStart(last, k, reached, false)), reached)
  {
    hide MessageSettles, Matching;
  }

  // ---- Subscriber and client steps ------------------------------------------

  lemma ReceiveSettles(cap: nat, w: World, s: Sub)
    requires Broadcasts(w) && Gapless(w.history)
    requires s.stage.Live? && s.pos < |w.channel| && Settled(w.history, s, w.base + s.pos)
    ensures var t := ReceiveStep(cap, w, s);
            t.stage.Live? && t.pos <= |w.channel| && Settled(w.history, t, w.base + t.pos)
    ensures var t := ReceiveStep(cap, w, s);
            s.out <= t.out && s.marks <= t.marks && |s.marks| == |s.out| && |t.marks| == |t.out|
  {
    var h, t := w.history, ReceiveStep(cap, w, s);
    var mark := Mark(s, |s.out|);
    var c := w.channel[s.pos];
    assert c == (w.channel + Queue(w))[s.pos];
    assert c == h[w.base + s.pos].change;
    hide Passes, Gapless, Broadcasts;
    forall k | 0 <= k < |s.out|
      ensures MessageSettles(h, t, k)
    {
      EarlierSettle(h, s, t, k);
    }
    assert Quiet(h, t, mark, Max(s.stage.maxSent, w.base + s.pos));
    if |t.out| > |s.out| {
      assert Mark(t, |s.out|) == mark;
      assert MessageSettles(h, t, |s.out|);
    } else {
      assert Mark(t, |t.out|) == mark;
      assert Quiet(h, t, mark, Max(t.stage.maxSent, w.base + t.pos));
    }
  }

  lemma {:induction false} SeenBefore(out: seq<Msg>, more: seq<Msg>, read: nat, last: Option<int>)
    requires out <= more && read <= |out|
    ensures LastSeen(more, read, last) == LastSeen(out, read, last)
  {
    if read > 0 {
      SeenBefore(out, more, read - 1, last);
    }
  }

  /** A message in the outbox does not disturb what the client has read so far. */
  lemma OutboxGrows(h: seq<LogRow>, s: Sub, t: Sub)
    requires ViewInv(h, s) && |s.marks| == |s.out| && |t.marks| == |t.out|
    requires s.out <= t.out && s.marks <= t.marks && t.start == s.start
    requires t.coll == s.coll && t.filter == s.filter && t.read == s.read && t.view == s.view
    requires t.since == s.since && t.asOf == s.asOf && t.loaded == s.loaded && t.last == s.last
    ensures ViewInv(h, t)
  {
    hide Forwarded;
    assert Mark(t, t.read) == Mark(s, s.read);
    SeenBefore(s.out, t.out, s.read, s.last);
    assert s.out != [] ==> t.out != [] && t.out[0] == s.out[0];
  }

  /** What a client has seen is what it named, or settled by what it has read. */
  lemma {:induction false} SeenSettled(h: seq<LogRow>, s: Sub, reached: int, read: nat)
    requires Settled(h, s, reached) && read <= |s.out|
    ensures var seen := LastSeen(s.out, read, s.last);
            seen.Some? ==> seen == s.last || seen.value <= Min(|h|, Mark(s, read))
  {
    if read > 0 {
      SeenSettled(h, s, reached, read - 1);
      assert MessageSettles(h, s, read - 1);
    }
  }

  lemma LoadedView(h: seq<LogRow>, base: nat, s: Sub, tables: map<string, Table>)
    requires Explained(h, tables) && s.read <= |s.out| && Settled(h, s, base + s.pos) && Started(h, base, s)
    ensures ViewInv(h, s.(view := Some(Shown(DocsOf(Rows(tables, s.coll)), s.filter)), loaded := true,
                          since := Mark(s, s.read), asOf := |h|))
  {
    SeenSettled(h, s, base + s.pos, s.read);
    SettledMarks(h, s, base + s.pos, s.read);
    hide Settled, Replay, Rows, DocsOf, Shown;
    assert h[..|h|] == h;
    assert Rows(tables, s.coll) == Replay(h, s.coll);
  }

  lemma SettledMarks(h: seq<LogRow>, s: Sub, reached: int, read: nat)
    requires Settled(h, s, reached) && read <= |s.out|
    ensures s.start <= Mark(s, read) <= Max(|h|, s.start)
  {
    MarksRise(h, s, 0, read);
    MarksRise(h, s, read, |s.out|);
  }

  lemma LoadKeepsView(cfg: Config, w: World, s: Sub)
    requires WriterInv(cfg, w) && s.stage.Live? && s.read <= |s.out|
    requires Settled(w.history, s, w.base + s.pos) && Started(w.history, w.base, s)
    ensures ViewInv(w.history, LoadStep(w, s))
  {
    hide ViewInv, Explained, Unique, Gapless, WellTyped, Retains, Broadcasts, Retention, Honest, Settled, Started, Shown;
    LoadedView(w.history, w.base, s, w.db.tables);
  }

  /** One change read: the view moves on to its seq. */
  lemma OverlayByOne(view: View, h: seq<LogRow>, s: Sub, lo: int, from: int, c: Change)
    requires lo <= from < c.seqno <= |h| && 1 <= c.seqno && c == h[c.seqno - 1].change
    requires Matching(s.coll, s.filter, c) && Quiet(h, s, from, c.seqno - 1)
    ensures Overlay(view, h, s.coll, s.filter, lo, c.seqno) == ApplyChange(Overlay(view, h, s.coll, s.filter, lo, from), c)
  {
    hide Quiet, Matching, ApplyChange;
    OverlayQuiet(view, h, s, lo, from, c.seqno - 1);
  }

  lemma ConsumeKeepsView(h: seq<LogRow>, s: Sub, reached: int)
    requires Settled(h, s, reached) && ViewInv(h, s) && s.view.Some? && s.read < |s.out|
    ensures ViewInv(h, ConsumeStep(s))
  {
    if s.out[s.read].ChangeMsg? {
      var c := s.out[s.read].change;
      assert MessageSettles(h, s, s.read);
      hide Forwarded, Settled, Quiet, Matching, Overlay;
      OverlayByOne(Brought(h, s), h, s, ResumedAt(s), Mark(s, s.read), c);
    }
  }

  ghost predicate Holds(cfg: Config, w: World, s: Sub) {
    WriterInv(cfg, w) && SubInv(w.history, w.base, |w.channel|, s)
  }

  lemma ReachedWithin(cfg: Config, w: World, s: Sub)
    requires Holds(cfg, w, s)
    ensures w.base + s.pos <= |w.history|
    ensures MaxSeq(w.db.log) == |w.history| && Gapless(w.history)
    ensures 0 <= Cut(w) <= |w.history| && w.db.log == w.history[Cut(w)..]
    ensures w.base + |w.channel| <= |w.history|
  {
    RetainedNext(w.history, w.db.log);
  }

  lemma ReadMaxKeeps(cfg: Config, w: World, s: Sub)
    requires Holds(cfg, w, s) && s.stage.Attached?
    ensures SubInv(w.history, w.base, |w.channel|, ReadMaxStep(w, s))
  {
    ReachedWithin(cfg, w, s);
    if s.last.None? {
      FreshGoesLive(w.history, s, |w.history|, false, w.base + s.pos);
    }
  }

  lemma {:induction false} OldestRow(h: seq<LogRow>, k: nat)
    requires Gapless(h) && k <= |h|
    ensures MinSeq(h[k..]) == if k < |h| then Some(k + 1) else None
    decreases |h|
  {
    if k < |h| {
      var log, n := h[k..], |h| - 1;
      assert log[..|log| - 1] == h[..n][k..];
      OldestRow(h[..n], k);
    }
  }

  lemma PredatesWhenCut(cfg: Config, w: World, s: Sub, last: int)
    requires Holds(cfg, w, s)
    ensures if Predates(last, w.db.log) then last < |w.history| else Cut(w) <= Max(last, 0)
  {
    ReachedWithin(cfg, w, s);
    OldestRow(w.history, Cut(w));
    assert w.history != [] ==> w.db.log != [];
  }

  /** A view brought along is still the one it was. */
  lemma HeldView(h: seq<LogRow>, base: nat, s: Sub, plan: Plan, start: int)
    requires Connecting(h, base, s)
    ensures ViewInv(h, GoLive(s, plan, start))
  {
    hide Forwarded, Opened;
  }

  lemma ResyncSub(h: seq<LogRow>, base: nat, sent: nat, s: Sub, max: int)
    requires Connecting(h, base, s) && s.stage == HasMax(max) && s.pos <= sent && s.last.value <= |h|
    ensures SubInv(h, base, sent, GoLive(s, Plan(true, [], max), max))
  {
    var t := GoLive(s, Plan(true, [], max), max);
    FreshGoesLive(h, s, max, true, base + s.pos);
    assert t.out[0] == Resync;
    HeldView(h, base, s, Plan(true, [], max), max);
    hide Settled, ViewInv, Connecting, Replay;
  }

  lemma ReadMinKeeps(cfg: Config, w: World, s: Sub)
    requires Holds(cfg, w, s) && s.stage.HasMax? && s.last.Some?
    ensures SubInv(w.history, w.base, |w.channel|, ReadMinStep(w, s))
  {
    hide *;
    PredatesWhenCut(cfg, w, s, s.last.value);
    StillConnecting(cfg, w, s);
    ReadMinCases(w, s);
    if Predates(s.last.value, w.db.log) {
      ResyncSub(w.history, w.base, |w.channel|, s, s.stage.max);
    } else {
      MinSub(w.history, w.base, |w.channel|, s, Cut(w));
    }
  }

  lemma ReadMinCases(w: World, s: Sub)
    requires s.last.Some? && s.stage.HasMax?
    ensures ReadMinStep(w, s) ==
            if Predates(s.last.value, w.db.log) then GoLive(s, Plan(true, [], s.stage.max), s.stage.max)
            else s.(stage := HasMin(s.stage.max), minCut := Cut(w))
  {
    hide Predates, GoLive, Cut;
  }

  lemma MinSub(h: seq<LogRow>, base: nat, sent: nat, s: Sub, cut: int)
    requires Connecting(h, base, s) && s.stage.HasMax? && s.pos <= sent && cut <= Max(s.last.value, 0)
    ensures SubInv(h, base, sent, s.(stage := HasMin(s.stage.max), minCut := cut))
  {
    hide Forwarded;
  }

  lemma ReplayedSub(h: seq<LogRow>, base: nat, sent: nat, s: Sub, k: nat, last: int)
    requires Gapless(h) && k <= |h| && s.pos <= sent && s.last == Some(last)
    requires Connecting(h, base, s) && s.stage.HasMin? && s.rowsCut == k
    requires s.found == (RowsAfter(h[k..], s.coll, last) != [])
    ensures var plan := Replayed(RowsAfter(h[k..], s.coll, last), last, s.filter);
            SubInv(h, base, sent, GoLive(s, plan, ReplayStart(last, k, base + s.attached, s.found)))
  {
    ConnectingParts(h, base, s);
    hide *;
    var plan := Replayed(RowsAfter(h[k..], s.coll, last), last, s.filter);
    var start := ReplayStart(last, k, base + s.attached, s.found);
    ReplayGoesLive(h, s, k, last, base + s.pos);
    HeldView(h, base, s, plan, start);
    ReplayStarted(h, base, s, plan, start);
    LiveSub(h, base, sent, GoLive(s, plan, start));
  }

  lemma ConnectingParts(h: seq<LogRow>, base: nat, s: Sub)
    requires Connecting(h, base, s)
    ensures base + s.pos <= |h| && s.attached == s.pos
  {
  }

  lemma ReplayStarted(h: seq<LogRow>, base: nat, s: Sub, plan: Plan, start: int)
    requires Connecting(h, base, s) && s.stage.HasMin? && s.rowsCut <= |h|
    requires start == ReplayStart(s.last.value, s.rowsCut, base + s.attached, s.found)
    ensures var t := GoLive(s, plan, start);
            Started(h, base, t) && t.pos == s.pos && t.stage.Live?
  {
    hide Forwarded, Opened;
  }

  lemma LiveSub(h: seq<LogRow>, base: nat, sent: nat, t: Sub)
    requires t.pos <= sent && t.stage.Live?
    requires Settled(h, t, base + t.pos) && ViewInv(h, t) && Started(h, base, t)
    ensures SubInv(h, base, sent, t)
  {
    hide Settled, ViewInv, Started;
  }

  lemma ReadRowsKeeps(cfg: Config, w: World, s: Sub)
    requires Holds(cfg, w, s) && s.stage.HasMin? && s.last.Some?
    ensures SubInv(w.history, w.base, |w.channel|, ReadRowsStep(w, s))
  {
    hide *;
    ReachedWithin(cfg, w, s);
    StillConnecting(cfg, w, s);
    ReadRowsPlan(w, s, Cut(w));
    var found := RowsAfter(w.history[Cut(w)..], s.coll, s.last.value) != [];
    ReplayedSub(w.history, w.base, |w.channel|, s.(rowsCut := Cut(w), found := found), Cut(w), s.last.value);
  }

  lemma StillConnecting(cfg: Config, w: World, s: Sub)
    requires Holds(cfg, w, s) && !s.stage.Live?
    ensures Connecting(w.history, w.base, s)
    ensures forall k, found :: Connecting(w.history, w.base, s.(rowsCut := k, found := found))
    ensures s.pos <= |w.channel|
  {
  }

  lemma ReadRowsPlan(w: World, s: Sub, k: nat)
    requires s.last.Some? && k <= |w.history| && w.db.log == w.history[k..] && Cut(w) == k
    ensures var last := s.last.value;
            var rows := RowsAfter(w.history[k..], s.coll, last);
            var start := ReplayStart(last, k, w.base + s.attached, rows != []);
            ReadRowsStep(w, s) == GoLive(s.(rowsCut := k, found := rows != []), Replayed(rows, last, s.filter), start)
  {
    hide GoLive, Replayed, RowsAfter;
  }

  lemma ReceiveKeeps(cfg: Config, cap: nat, w: World, s: Sub)
    requires Holds(cfg, w, s) && s.stage.Live? && s.pos < |w.channel|
    ensures SubInv(w.history, w.base, |w.channel|, ReceiveStep(cap, w, s))
  {
    ReceiveSettles(cap, w, s);
    hide WriterInv, Settled, ViewInv, OnReceive;
    OutboxGrows(w.history, s, ReceiveStep(cap, w, s));
  }

  lemma LoadKeeps(cfg: Config, w: World)
    ensures forall s :: Holds(cfg, w, s) && s.stage.Live? ==> SubInv(w.history, w.base, |w.channel|, LoadStep(w, s))
  {
    hide WriterInv, Settled, ViewInv, Started;
    forall s: Sub | Holds(cfg, w, s) && s.stage.Live?
      ensures SubInv(w.history, w.base, |w.channel|, LoadStep(w, s))
    {
      var t := LoadStep(w, s);
      ReadWithin(w.history, s);
      LoadKeepsView(cfg, w, s);
      SameSettled(w.history, s, t, w.base + s.pos);
      SameStarted(w.history, w.base, s, t);
    }
  }

  lemma SameStarted(h: seq<LogRow>, base: nat, s: Sub, t: Sub)
    requires Started(h, base, s) && t.out == s.out && t.start == s.start && t.last == s.last
    requires t.rowsCut == s.rowsCut && t.minCut == s.minCut && t.attached == s.attached && t.found == s.found
    ensures Started(h, base, t)
  {
  }

  lemma ReadWithin(h: seq<LogRow>, s: Sub)
    ensures ViewInv(h, s) ==> s.read <= |s.out|
  {
  }

  /** What the client does with its view is no concern of the stream. */
  lemma SameSettled(h: seq<LogRow>, s: Sub, t: Sub, reached: int)
    requires Settled(h, s, reached)
    requires t.coll == s.coll && t.filter == s.filter && t.stage == s.stage
    requires t.out == s.out && t.marks == s.marks && t.start == s.start
    ensures Settled(h, t, reached)
  {
    hide Passes;
    forall k | 0 <= k < |s.out|
      ensures MessageSettles(h, t, k)
    {
      EarlierSettle(h, s, t, k);
    }
  }

  lemma ConsumeKeeps(cfg: Config, w: World)
    ensures forall s :: Holds(cfg, w, s) && s.view.Some? && s.read < |s.out| ==>
              SubInv(w.history, w.base, |w.channel|, ConsumeStep(s))
  {
    hide WriterInv, Settled, ViewInv;
    forall s | Holds(cfg, w, s) && s.view.Some? && s.read < |s.out|
      ensures SubInv(w.history, w.base, |w.channel|, ConsumeStep(s))
    {
      var t := ConsumeStep(s);
      ConsumeKeepsView(w.history, s, w.base + s.pos);
      SameSettled(w.history, s, t, w.base + s.pos);
    }
  }

  // ---- Every step, every run ------------------------------------------------

  lemma SubscribeKeeps(cfg: Config, w: World, coll: string, filter: Option<EqFilter>, last: Option<int>, held: Option<Held>)
    requires WriterInv(cfg, w) && HonestView(w, coll, filter, last, held)
    ensures SubInv(w.history, w.base, |w.channel|, NewSub(w, coll, filter, last, held))
  {
    hide Consistent, Overlay, Shown, DocsAt;
    assert |w.channel + Queue(w)| == |w.history| - w.base;
  }

  lemma OneSub(cfg: Config, cap: nat, w: World, a: Action, id: nat, t: Sub)
    requires Inv(cfg, w) && Enabled(w, a)
    requires Next(cfg, cap, w, a) == WithSub(w, id, t)
    requires SubInv(w.history, w.base, |w.channel|, t)
    ensures Inv(cfg, Next(cfg, cap, w, a))
  {
    WriterStepKeeps(cfg, cap, w);
    hide WriterInv, SubInv, Enabled, Next;
  }

  /** Committing, sending and trimming only ever add rows and broadcasts. */
  lemma WriterStepGrows(cfg: Config, cap: nat, w: World, a: Action)
    requires Enabled(w, a) && (a.Batch? || a.Send? || a.TrimLog? || a.Admin?)
    ensures var after := Next(cfg, cap, w, a);
            && w.history <= after.history && w.channel <= after.channel
            && after.base == w.base && after.subs == w.subs
  {
  }

  lemma GrowthKeepsSubs(cfg: Config, w: World, after: World)
    requires Inv(cfg, w) && WriterInv(cfg, after)
    requires w.history <= after.history && w.channel <= after.channel
    requires after.base == w.base && after.subs == w.subs
    ensures Inv(cfg, after)
  {
    hide WriterInv, SubInv;
    var more := after.history[|w.history|..];
    assert after.history == w.history + more;
    forall id | id in after.subs
      ensures SubInv(after.history, after.base, |after.channel|, after.subs[id])
    {
      SubGrows(w.history, more, w.base, |w.channel|, |after.channel|, w.subs[id]);
    }
  }

  lemma WriterStepKeepsSubs(cfg: Config, cap: nat, w: World)
    requires Inv(cfg, w)
    ensures forall a :: Enabled(w, a) && (a.Batch? || a.Send? || a.TrimLog? || a.Admin?) ==> Inv(cfg, Next(cfg, cap, w, a))
  {
    hide WriterInv, SubInv, Next, Enabled;
    WriterStepKeeps(cfg, cap, w);
    forall a | Enabled(w, a) && (a.Batch? || a.Send? || a.TrimLog? || a.Admin?)
      ensures Inv(cfg, Next(cfg, cap, w, a))
    {
      WriterStepGrows(cfg, cap, w, a);
      GrowthKeepsSubs(cfg, w, Next(cfg, cap, w, a));
    }
  }

  /** Whatever step is taken next keeps the invariant. */
  lemma StepKeeps(cfg: Config, cap: nat, w: World)
    requires Inv(cfg, w)
    ensures forall a :: Enabled(w, a) ==> Inv(cfg, Next(cfg, cap, w, a))
  {
    hide WriterInv, SubInv;
    forall a | Enabled(w, a)
      ensures Inv(cfg, Next(cfg, cap, w, a))
    {
      match a {
        case Batch(_, _) => WriterStepKeepsSubs(cfg, cap, w);
        case Send => WriterStepKeepsSubs(cfg, cap, w);
        case TrimLog(_) => WriterStepKeepsSubs(cfg, cap, w);
        case Admin(_) => WriterStepKeepsSubs(cfg, cap, w);
        case Restart => WriterStepKeeps(cfg, cap, w);
        case Subscribe(id, coll, filter, last, held) =>
          SubscribeKeeps(cfg, w, coll, filter, last, held);
          OneSub(cfg, cap, w, a, id, NewSub(w, coll, filter, last, held));
        case ReadMax(id) =>
          ReadMaxKeeps(cfg, w, w.subs[id]);
          OneSub(cfg, cap, w, a, id, ReadMaxStep(w, w.subs[id]));
        case ReadMin(id) =>
          ReadMinKeeps(cfg, w, w.subs[id]);
          OneSub(cfg, cap, w, a, id, ReadMinStep(w, w.subs[id]));
        case ReadRows(id) =>
          ReadRowsKeeps(cfg, w, w.subs[id]);
          OneSub(cfg, cap, w, a, id, ReadRowsStep(w, w.subs[id]));
        case Receive(id) =>
          ReceiveKeeps(cfg, cap, w, w.subs[id]);
          OneSub(cfg, cap, w, a, id, ReceiveStep(cap, w, w.subs[id]));
        case Load(id) =>
          LoadKeeps(cfg, w);
          OneSub(cfg, cap, w, a, id, LoadStep(w, w.subs[id]));
        case Consume(id) =>
          ConsumeKeeps(cfg, w);
          OneSub(cfg, cap, w, a, id, ConsumeStep(w.subs[id]));
        case Disconnect(id) => WriterStepKeeps(cfg, cap, w);
      }
    }
  }

  lemma {:induction false} RunsKeep(cfg: Config, cap: nat, run: seq<Action>)
    requires Exec(cfg, cap, run).Some?
    ensures Inv(cfg, Exec(cfg, cap, run).value)
  {
    if run == [] {
      EmptyInv(cfg);
    } else {
      RunsKeep(cfg, cap, run[..|run| - 1]);
      StepKeeps(cfg, cap, Exec(cfg, cap, run[..|run| - 1]).value);
    }
  }

  lemma EmptyInv(cfg: Config)
    ensures Inv(cfg, Empty())
  {
    assert [] + [] == ChangesOf([]);
  }
}
