/** The write and realtime protocol as one state machine: the writer's commit,
    broadcast and trim, and any number of subscribers and clients, interleaved
    step by step. */
module Protocol {
  import opened Prelude
  import opened JsonValues
  import opened Store
  import opened Writer
  import opened History
  import opened Realtime

  /** What a client holds of a collection. */
  type View = map<string, Json>

  /** How far a subscription has come in connecting. */
  datatype Stage = Attached | HasMax(max: int) | HasMin(max: int) | Live(maxSent: int)

  /** A view a client brings along: the documents its filter admitted at seq
      `asOf`, brought forward by the events it was sent from seq `since` on. */
  datatype Held = Held(view: View, since: int, asOf: nat)

  /** A subscription. `pos` is its receiver's place in the broadcast channel and
      `out` what was sent to the client, who has read the first `read` messages
      and holds `view`. The remaining fields only record the past:
      `attached` is the receiver's first place, `plan` the resume plan, `got` what
      the receiver got since and `places[k]` its place after `got[k]`; `marks[k]`
      is the seq up to which the stream had settled every event right after
      `out[k]`, `start` the same before `out[0]`; `view` was last loaded at seq
      `asOf` and brought forward from seq `since`, `loaded` tells that this
      subscription loaded it; `minCut` and `rowsCut` are how many rows trims had
      taken at the MIN read and at the replay read, and `found` says that the
      latter found rows. */
  datatype Sub = Sub(coll: string, filter: Option<EqFilter>, last: Option<int>,
                     pos: nat, stage: Stage, out: seq<Msg>,
                     read: nat, view: Option<View>,
                     attached: nat, plan: Plan, got: seq<Received>, places: seq<nat>,
                     marks: seq<int>, start: int, since: int, asOf: int, loaded: bool,
                     minCut: int, rowsCut: int, found: bool)

  /** What a command was told, and where in the history its row is if that was a
      success. */
  datatype Answer = Answer(cmd: Command, reply: Reply, at: nat)

  datatype Phase = Idle | Sending(queue: seq<Change>)

  /** `history` is every committed row; `channel` what this process broadcast,
      from history position `base` on. `overdue` records that the last trim due
      has not succeeded. */
  datatype World = World(db: Db, history: seq<LogRow>, answered: map<nat, Answer>,
                         phase: Phase, overdue: bool,
                         channel: seq<Change>, base: nat, subs: map<nat, Sub>)

  datatype Action =
    | Batch(batch: seq<Job>, infra: Infra)
    | Send
    | TrimLog(ok: bool)
    | Admin(cmd: Command)
    | Restart
    | Subscribe(id: nat, coll: string, filter: Option<EqFilter>, last: Option<int>, held: Option<Held>)
    | ReadMax(id: nat)
    | ReadMin(id: nat)
    | ReadRows(id: nat)
    | Receive(id: nat)
    | Load(id: nat)
    | Consume(id: nat)
    | Disconnect(id: nat)

  function Empty(): World {
    World(Db(map[], [], map[]), [], map[], Idle, false, [], 0, map[])
  }

  function DocsOf(rows: Table): View {
    map id | id in rows :: rows[id].doc
  }

  function ApplyChange(view: View, c: Change): View {
    if c.doc.Some? then view[c.id := c.doc.value] else view - {c.id}
  }

  // ---- What a subscription is about -----------------------------------------

  predicate Admits(filter: Option<EqFilter>, doc: Json) {
    filter.None? || Matches(filter.value, doc)
  }

  /** The documents a filter admits. */
  function Shown(view: View, filter: Option<EqFilter>): View {
    map id | id in view && Admits(filter, view[id]) :: view[id]
  }

  predicate Matching(coll: string, filter: Option<EqFilter>, c: Change) {
    c.coll == coll && Passes(filter, c)
  }

  /** The documents of a collection at seq `n`. */
  function DocsAt(h: seq<LogRow>, coll: string, n: nat): View
    requires n <= |h|
  {
    DocsOf(Replay(h[..n], coll))
  }

  /** The events of a subscription with seq in (lo, hi], applied to a view. */
  function Overlay(view: View, h: seq<LogRow>, coll: string, filter: Option<EqFilter>, lo: int, hi: int): View
    decreases Max(0, hi - lo)
  {
    if hi <= lo then view
    else
      var before := Overlay(view, h, coll, filter, lo, hi - 1);
      if 0 < hi <= |h| && Matching(coll, filter, h[hi - 1].change) then ApplyChange(before, h[hi - 1].change) else before
  }

  // ---- Writer steps ---------------------------------------------------------

  /** The answers to a batch run on a database whose history has `length` rows. */
  function Told(cfg: Config, db: Db, length: nat, batch: seq<Job>, replies: seq<Reply>): (r: map<nat, Answer>)
    requires AllBatchable(batch) && |batch| == |replies|
  {
    if batch == [] then map[]
    else
      var n := |batch| - 1;
      var answer := Answer(batch[n].cmd, replies[n], length + RowAt(cfg, db, batch, n));
      Told(cfg, db, length, batch[..n], replies[..n])[batch[n].token := answer]
  }

  /** Up to and including the replies; broadcast and trim are steps of their own,
      and readers may come in between. */
  function BatchStep(cfg: Config, w: World, batch: seq<Job>, infra: Infra): World
    requires AllBatchable(batch)
  {
    var failed: seq<Reply> := seq(|batch|, _ => Failed(Internal));
    if !infra.beginOk then w.(answered := w.answered + Told(cfg, w.db, |w.history|, batch, failed))
    else
      var run := RunOps(cfg, w.db, batch);
      var told := w.(answered := w.answered + Told(cfg, w.db, |w.history|, batch, Replies(run.outcomes, infra.commitOk)));
      var events := Changes(run.outcomes);
      if !infra.commitOk then told
      else
        told.(db := run.db,
              history := w.history + Committed(cfg, w.db, batch),
              phase := if events == [] then Idle else Sending(events),
              overdue := w.overdue || events != [])
  }

  function TrimStep(cfg: Config, w: World, ok: bool): World {
    if ok then w.(phase := Idle, db := w.db.(log := Trim(w.db.log, cfg.retention)), overdue := false)
    else w.(phase := Idle)
  }

  // ---- Subscriber and client steps ------------------------------------------

  function NewSub(w: World, coll: string, filter: Option<EqFilter>, last: Option<int>, held: Option<Held>): Sub {
    var view := if held.Some? then Some(held.value.view) else None;
    var since := if held.Some? then held.value.since else 0;
    var asOf := if held.Some? then held.value.asOf else 0;
    Sub(coll, filter, last, |w.channel|, Attached, [], 0, view,
        |w.channel|, Plan(false, [], 0), [], [], [], if last.Some? then last.value else 0, since, asOf, false, 0, 0, false)
  }

  /** Going live with a plan; `start` and the marks are the record of what it settled. */
  function GoLive(s: Sub, plan: Plan, start: int): Sub {
    var stream := Opened(plan);
    s.(stage := Live(plan.maxSent),
       out := stream.out,
       plan := plan,
       start := start,
       marks := if plan.resync then [start] else seq(|plan.replay|, i requires 0 <= i < |plan.replay| => plan.replay[i].seqno))
  }

  /** The first read; a fresh subscriber needs no other. */
  function ReadMaxStep(w: World, s: Sub): Sub {
    var max := MaxSeq(w.db.log);
    if s.last.None? then GoLive(s, Plan(false, [], max), max) else s.(stage := HasMax(max))
  }

  /** How many rows trims have taken: the seq of the last of them. */
  function Cut(w: World): int {
    |w.history| - |w.db.log|
  }

  function ReadMinStep(w: World, s: Sub): Sub
    requires s.last.Some? && s.stage.HasMax?
  {
    if Predates(s.last.value, w.db.log) then GoLive(s, Plan(true, [], s.stage.max), s.stage.max)
    else s.(stage := HasMin(s.stage.max), minCut := Cut(w))
  }

  /** Up to where the rows after `last` are gone for good: what trims have taken,
      unless the replay read found none that would raise the watermark; then events
      the receiver is still to get pass it. */
  function ReplayStart(last: int, cut: int, attached: int, found: bool): int {
    Max(last, if found then cut else Min(cut, attached))
  }

  function ReadRowsStep(w: World, s: Sub): Sub
    requires s.last.Some?
  {
    var last := s.last.value;
    var rows := RowsAfter(w.db.log, s.coll, last);
    var start := ReplayStart(last, Cut(w), w.base + s.attached, rows != []);
    GoLive(s.(rowsCut := Cut(w), found := rows != []), Replayed(rows, last, s.filter), start)
  }

  /** `recv`: a receiver more than the capacity behind skips to the oldest
      buffered event and is told so. */
  function ReceiveStep(cap: nat, w: World, s: Sub): Sub
    requires s.stage.Live? && s.pos < |w.channel|
  {
    var lagged := |w.channel| - s.pos > cap;
    var pos := if lagged then |w.channel| - cap else s.pos + 1;
    var r := if lagged then Lagged else Event(w.channel[s.pos]);
    var after := OnReceive(s.coll, s.filter, Stream(s.stage.maxSent, s.out), r);
    s.(pos := pos, stage := Live(after.maxSent), out := after.out, got := s.got + [r], places := s.places + [pos],
       marks := if |after.out| == |s.out| then s.marks else s.marks + [Max(after.maxSent, w.base + pos)])
  }

  /** The receiver's place before it got `got[k]`, or after all it got. */
  function Place(s: Sub, k: nat): nat {
    if k == 0 || k > |s.places| then s.attached else s.places[k - 1]
  }

  function Mark(s: Sub, k: nat): int {
    if k == 0 || k > |s.marks| then s.start else s.marks[k - 1]
  }

  /** A client (re)reads what its filter admits, when it connected afresh or was
      told to. */
  function LoadStep(w: World, s: Sub): Sub {
    s.(view := Some(Shown(DocsOf(Rows(w.db.tables, s.coll)), s.filter)), loaded := true,
       since := Mark(s, s.read), asOf := |w.history|)
  }

  function ConsumeStep(s: Sub): Sub
    requires s.view.Some? && s.read < |s.out|
  {
    match s.out[s.read]
    case ChangeMsg(c) => s.(read := s.read + 1, view := Some(ApplyChange(s.view.value, c)))
    case Resync => s.(read := s.read + 1, view := None)
  }

  // ---- The machine ----------------------------------------------------------

  /** A client that resumes with a view got it from this database: what it loaded
      at some seq, brought forward by what it was sent up to the seq it names. */
  ghost predicate HonestView(w: World, coll: string, filter: Option<EqFilter>, last: Option<int>, held: Option<Held>) {
    held.Some? ==>
      var x := held.value;
      && last.Some? && last.value <= |w.history|
      && x.since <= x.asOf <= |w.history| && x.since <= last.value
      && x.view == Overlay(Shown(DocsAt(w.history, coll, x.asOf), filter), w.history, coll, filter, x.since, last.value)
  }

  ghost predicate Enabled(w: World, a: Action) {
    match a
    case Batch(batch, _) =>
      w.phase.Idle? && AllBatchable(batch) && DistinctTokens(batch) &&
      forall i :: 0 <= i < |batch| ==> batch[i].token !in w.answered
    case Send => w.phase.Sending? && w.phase.queue != []
    case TrimLog(_) => w.phase == Sending([])
    case Admin(cmd) => w.phase.Idle? && !Batchable(cmd)
    case Restart => true
    case Subscribe(id, coll, filter, last, held) => id !in w.subs && HonestView(w, coll, filter, last, held)
    case ReadMax(id) => id in w.subs && w.subs[id].stage.Attached?
    case ReadMin(id) => id in w.subs && w.subs[id].stage.HasMax? && w.subs[id].last.Some?
    case ReadRows(id) => id in w.subs && w.subs[id].stage.HasMin? && w.subs[id].last.Some?
    case Receive(id) => id in w.subs && w.subs[id].stage.Live? && w.subs[id].pos < |w.channel|
    case Load(id) => id in w.subs && w.subs[id].stage.Live? && w.subs[id].view.None?
    case Consume(id) => id in w.subs && w.subs[id].view.Some? && w.subs[id].read < |w.subs[id].out|
    case Disconnect(id) => id in w.subs
  }

  function WithSub(w: World, id: nat, s: Sub): World {
    w.(subs := w.subs[id := s])
  }

  ghost function Next(cfg: Config, cap: nat, w: World, a: Action): World
    requires Enabled(w, a)
  {
    match a
    case Batch(batch, infra) => BatchStep(cfg, w, batch, infra)
    case Send => w.(channel := w.channel + [w.phase.queue[0]], phase := Sending(w.phase.queue[1..]))
    case TrimLog(ok) => TrimStep(cfg, w, ok)
    case Admin(cmd) => w.(db := Administer(cfg, w.db, cmd))
    case Restart => w.(phase := Idle, channel := [], base := |w.history|, subs := map[])
    case Subscribe(id, coll, filter, last, held) => WithSub(w, id, NewSub(w, coll, filter, last, held))
    case ReadMax(id) => WithSub(w, id, ReadMaxStep(w, w.subs[id]))
    case ReadMin(id) => WithSub(w, id, ReadMinStep(w, w.subs[id]))
    case ReadRows(id) => WithSub(w, id, ReadRowsStep(w, w.subs[id]))
    case Receive(id) => WithSub(w, id, ReceiveStep(cap, w, w.subs[id]))
    case Load(id) => WithSub(w, id, LoadStep(w, w.subs[id]))
    case Consume(id) => WithSub(w, id, ConsumeStep(w.subs[id]))
    case Disconnect(id) => w.(subs := w.subs - {id})
  }

  /** The world after a run, if every action was possible when it was taken. */
  ghost function Exec(cfg: Config, cap: nat, run: seq<Action>): Option<World> {
    if run == [] then Some(Empty())
    else
      match Exec(cfg, cap, run[..|run| - 1])
      case None => None
      case Some(w) => if Enabled(w, run[|run| - 1]) then Some(Next(cfg, cap, w, run[|run| - 1])) else None
  }
}
