/** One database as its writer sees it: collection tables, unique indexes and
    the change log, with the effect of each data operation on them. */
module Store {
  import opened Prelude
  import opened JsonValues
  import opened Sql

  datatype Row = Row(doc: Json, created: int, updated: int)

  type Table = map<string, Row>

  datatype Op = Insert | Update | Delete

  /** A change event; `doc` is the new state, absent for a delete. */
  datatype Change = Change(seqno: int, coll: string, op: Op, id: string, doc: Option<Json>)

  datatype LogRow = LogRow(change: Change, ts: int)

  datatype Index = Index(coll: string, path: string, unique: bool)

  /** A table exists from the first write to its collection on. */
  datatype Db = Db(tables: map<string, Table>, log: seq<LogRow>, indexes: map<string, Index>)

  datatype Config = Config(render: Render, retention: int, groupCommit: bool, maxBatch: nat)

  datatype ApiError = Internal | Conflict | TooLarge

  datatype Record = Record(id: string, created: int, updated: int, doc: Json)

  datatype Reply = Created(rec: Record) | Replaced(rec: Record, created: bool) | Deleted(found: bool) | Failed(err: ApiError)

  datatype Command =
    | Create(coll: string, doc: Json)
    | Replace(coll: string, id: string, doc: Json)
    | Delete(coll: string, id: string)
    | CreateIndex(name: string, coll: string, path: string, unique: bool)
    | DropIndex(name: string)
    | Maintain  // checkpoint or snapshot: no effect on the data

  /** The statement of an operation that reports an unexpected error, if any. */
  datatype Fault = NoFault | SizeRead | Prepare | Select | Write | Append

  /** What the outside world answers to one operation. */
  datatype Env = Env(savepointOk: bool, sizeOk: bool, newId: string, now: int, fault: Fault)

  /** A queued command with its reply channel. */
  datatype Job = Job(token: nat, cmd: Command, env: Env)

  predicate Batchable(cmd: Command) {
    cmd.Create? || cmd.Replace? || cmd.Delete?
  }

  // ---- Tables and indexes ---------------------------------------------------

  /** The rows of a collection; a missing table has none. */
  function Rows(tables: map<string, Table>, coll: string): Table {
    if coll in tables then tables[coll] else map[]
  }

  function WithTable(db: Db, coll: string): Db {
    if coll in db.tables then db else db.(tables := db.tables[coll := map[]])
  }

  function WithRow(db: Db, coll: string, id: string, row: Row): Db {
    db.(tables := db.tables[coll := Rows(db.tables, coll)[id := row]])
  }

  function WithoutRow(db: Db, coll: string, id: string): Db {
    db.(tables := db.tables[coll := Rows(db.tables, coll) - {id}])
  }

  function Key(render: Render, doc: Json, index: Index): Value {
    Extract(render, doc, index.path)
  }

  /** Whether storing `doc` under `id` would repeat a key of a unique index. NULL
      keys never clash. */
  predicate Clashes(render: Render, indexes: map<string, Index>, coll: string, rows: Table, id: string, doc: Json) {
    exists name, other ::
      && name in indexes && indexes[name].unique && indexes[name].coll == coll
      && other in rows && other != id
      && Key(render, doc, indexes[name]) != NULL
      && Same(Key(render, doc, indexes[name]), Key(render, rows[other].doc, indexes[name]))
  }

  // ---- The change log -------------------------------------------------------

  /** `COALESCE(MAX(seq), 0)`. */
  function MaxSeq(log: seq<LogRow>): int {
    if log == [] then 0
    else if |log| == 1 then log[0].change.seqno
    else Max(MaxSeq(log[..|log| - 1]), log[|log| - 1].change.seqno)
  }

  /** The rowid SQLite gives the next row. */
  function NextSeq(log: seq<LogRow>): int {
    if log == [] then 1 else MaxSeq(log) + 1
  }

  /** The next seq is above every seq in the log, and one above some; the first is 1. */
  lemma {:induction false} NextSeqIsNew(log: seq<LogRow>)
    ensures forall i :: 0 <= i < |log| ==> log[i].change.seqno < NextSeq(log)
    ensures if log == [] then NextSeq(log) == 1 else exists i :: 0 <= i < |log| && log[i].change.seqno == NextSeq(log) - 1
  {
    if |log| == 1 {
      assert log[0].change.seqno == NextSeq(log) - 1;
    } else if |log| > 1 {
      var n := |log| - 1;
      NextSeqIsNew(log[..n]);
      if MaxSeq(log) == log[n].change.seqno {
        assert log[n].change.seqno == NextSeq(log) - 1;
      } else {
        var i :| 0 <= i < n && log[..n][i].change.seqno == NextSeq(log[..n]) - 1;
        assert log[i].change.seqno == NextSeq(log) - 1;
      }
    }
  }

  /** The rows whose seq is above a bound, in order. */
  function After(log: seq<LogRow>, bound: int): seq<LogRow> {
    if log == [] then []
    else
      var kept := After(log[..|log| - 1], bound);
      var last := log[|log| - 1];
      if last.change.seqno > bound then kept + [last] else kept
  }

  function Trim(log: seq<LogRow>, retention: int): seq<LogRow> {
    if retention <= 0 then log else After(log, MaxSeq(log) - retention)
  }

  // ---- Operations -----------------------------------------------------------

  datatype Outcome =
    | Wrote(reply: Reply, change: Change)
    | NotFound
    | Rejected(err: ApiError)
    | NoSavepoint

  datatype Applied = Applied(db: Db, outcome: Outcome)

  function Logged(db: Db, op: Op, coll: string, id: string, doc: Option<Json>, ts: int): Db {
    db.(log := db.log + [LogRow(Change(NextSeq(db.log), coll, op, id, doc), ts)])
  }

  /** An INSERT is refused for a repeated id or a clash in a unique index. */
  predicate InsertRefused(cfg: Config, db: Db, coll: string, id: string, doc: Json) {
    id in Rows(db.tables, coll) || Clashes(cfg.render, db.indexes, coll, Rows(db.tables, coll), id, doc)
  }

  function ApplyCreate(cfg: Config, db: Db, coll: string, doc: Json, env: Env): Applied {
    if env.fault == SizeRead then Applied(db, Rejected(Internal))
    else if !env.sizeOk then Applied(db, Rejected(TooLarge))
    else if env.fault == Prepare || env.fault == Write then Applied(db, Rejected(Internal))
    else if InsertRefused(cfg, db, coll, env.newId, doc) then Applied(db, Rejected(Conflict))
    else if env.fault == Append then Applied(db, Rejected(Internal))
    else
      var stored := WithRow(db, coll, env.newId, Row(doc, env.now, env.now));
      Applied(Logged(stored, Insert, coll, env.newId, Some(doc), env.now),
              Wrote(Created(Record(env.newId, env.now, env.now, doc)),
                    Change(NextSeq(db.log), coll, Insert, env.newId, Some(doc))))
  }

  /** The stored creation time; a failed lookup reads as no document. */
  function Existing(db: Db, coll: string, id: string, env: Env): Option<int> {
    if env.fault != Select && id in Rows(db.tables, coll) then Some(Rows(db.tables, coll)[id].created) else None
  }

  function ApplyReplace(cfg: Config, db: Db, coll: string, id: string, doc: Json, env: Env): Applied {
    if env.fault == SizeRead then Applied(db, Rejected(Internal))
    else if !env.sizeOk then Applied(db, Rejected(TooLarge))
    else if env.fault == Prepare || env.fault == Write then Applied(db, Rejected(Internal))
    else
      var existing := Existing(db, coll, id, env);
      var refused := if existing.Some?
                     then Clashes(cfg.render, db.indexes, coll, Rows(db.tables, coll), id, doc)
                     else InsertRefused(cfg, db, coll, id, doc);
      if refused then Applied(db, Rejected(Conflict))
      else if env.fault == Append then Applied(db, Rejected(Internal))
      else
        var created := if existing.Some? then existing.value else env.now;
        var op := if existing.Some? then Update else Insert;
        var stored := WithRow(db, coll, id, Row(doc, created, env.now));
        Applied(Logged(stored, op, coll, id, Some(doc), env.now),
                Wrote(Replaced(Record(id, created, env.now, doc), existing.None?),
                      Change(NextSeq(db.log), coll, op, id, Some(doc))))
  }

  function ApplyDelete(db: Db, coll: string, id: string, env: Env): Applied {
    if env.fault == Prepare then Applied(db, Rejected(Internal))
    else if coll !in db.tables then Applied(db, NotFound)
    else if env.fault == Write then Applied(db, Rejected(Internal))
    else if id !in Rows(db.tables, coll) then Applied(db, NotFound)
    else if env.fault == Append then Applied(db, Rejected(Internal))
    else
      Applied(Logged(WithoutRow(db, coll, id), Op.Delete, coll, id, None, env.now),
              Wrote(Deleted(true), Change(NextSeq(db.log), coll, Op.Delete, id, None)))
  }

  /** One data operation in its savepoint: a failure leaves the database as it was. */
  function Apply(cfg: Config, db: Db, job: Job): Applied
    requires Batchable(job.cmd)
  {
    if !job.env.savepointOk then Applied(db, NoSavepoint)
    else
      match job.cmd
      case Create(coll, doc) => ApplyCreate(cfg, db, coll, doc, job.env)
      case Replace(coll, id, doc) => ApplyReplace(cfg, db, coll, id, doc, job.env)
      case Delete(coll, id) => ApplyDelete(db, coll, id, job.env)
  }

  // ---- Index commands -------------------------------------------------------

  /** Whether existing rows already repeat a key. */
  predicate Repeats(render: Render, rows: Table, index: Index) {
    exists a, b ::
      && a in rows && b in rows && a != b
      && Key(render, rows[a].doc, index) != NULL
      && Same(Key(render, rows[a].doc, index), Key(render, rows[b].doc, index))
  }

  /** A command outside the batches. CREATE INDEX keeps the collection table it
      makes sure of even when the index itself is refused. */
  function Administer(cfg: Config, db: Db, cmd: Command): Db
    requires !Batchable(cmd)
  {
    match cmd
    case CreateIndex(name, coll, path, unique) =>
      var prepared := WithTable(db, coll);
      var index := Index(coll, path, unique);
      if name in db.indexes || (unique && Repeats(cfg.render, Rows(db.tables, coll), index)) then prepared
      else prepared.(indexes := prepared.indexes[name := index])
    case DropIndex(name) => db.(indexes := db.indexes - {name})
    case Maintain => db
  }
}
