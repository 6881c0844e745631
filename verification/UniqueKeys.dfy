/** What a unique index is unique over, and what every data operation is answered,
    in terms of the stored documents. */
module UniqueKeys {
  import opened Prelude
  import opened JsonValues
  import opened JsonPaths
  import opened Sql
  import opened FilterMeaning
  import opened Store
  import opened Writer
  import opened History

  // ---- The indexed values ---------------------------------------------------

  /** What a document has at an indexed path. */
  function IndexedAt(doc: Json, path: string): Option<Json> {
    match ReadPath(path)
    case None => None
    case Some(segs) => Descend(doc, segs)
  }

  /** At the path of a field it is what its names lead to. */
  lemma IndexedField(doc: Json, names: seq<string>)
    requires FieldNames(names)
    ensures IndexedAt(doc, "$." + Dotted(names)) == Lookup(doc, names)
  {
    var field := Dotted(names);
    NamesSplit(names);
    ValidFieldExactlyWhen(field);
    FieldPathText(field);
    FieldPathReadsBack(field);
    DescendFields(doc, names);
  }

  /** Two indexed values that a unique index does not take together: both there,
      neither null, and equal as numbers or as text. */
  predicate Repeated(render: Render, a: Option<Json>, b: Option<Json>) {
    && a.Some? && b.Some? && !a.value.Null? && !b.value.Null?
    && if Numeric(a.value) || Numeric(b.value) then JsonEqual(a.value, b.value)
       else TextOf(render, a.value) == TextOf(render, b.value)
  }

  /** For scalars that is to be equal. */
  lemma ScalarsRepeat(render: Render, a: Json, b: Json)
    requires ScalarJson(a) && ScalarJson(b)
    ensures Repeated(render, Some(a), Some(b)) <==> JsonEqual(a, b)
  {
  }

  lemma KeysRepeat(render: Render, a: Json, b: Json, index: Index)
    ensures Key(render, a, index) != NULL && Same(Key(render, a, index), Key(render, b, index)) <==>
            Repeated(render, IndexedAt(a, index.path), IndexedAt(b, index.path))
  {
    hide ReadPath, Descend;
  }

  /** Two rows of a table that a unique index does not take together. */
  ghost predicate Repetition(render: Render, rows: Table, path: string) {
    exists a, b :: a in rows && b in rows && a != b &&
      Repeated(render, IndexedAt(rows[a].doc, path), IndexedAt(rows[b].doc, path))
  }

  lemma RepeatsExactlyWhen(render: Render, rows: Table, index: Index)
    ensures Repeats(render, rows, index) <==> Repetition(render, rows, index.path)
  {
    hide Key, IndexedAt, Repeated, Same;
    forall a, b | a in rows && b in rows
      ensures Key(render, rows[a].doc, index) != NULL && Same(Key(render, rows[a].doc, index), Key(render, rows[b].doc, index)) <==>
              Repeated(render, IndexedAt(rows[a].doc, index.path), IndexedAt(rows[b].doc, index.path))
    {
      KeysRepeat(render, rows[a].doc, rows[b].doc, index);
    }
  }

  /** Storing a document under an id would repeat what another row has at the path
      of a unique index of its collection. */
  ghost predicate Repeating(render: Render, db: Db, coll: string, id: string, doc: Json) {
    exists name, other ::
      && name in db.indexes && db.indexes[name].unique && db.indexes[name].coll == coll
      && other in Rows(db.tables, coll) && other != id
      && Repeated(render, IndexedAt(doc, db.indexes[name].path), IndexedAt(Rows(db.tables, coll)[other].doc, db.indexes[name].path))
  }

  lemma ClashesExactlyWhen(render: Render, db: Db, coll: string, id: string, doc: Json)
    ensures Clashes(render, db.indexes, coll, Rows(db.tables, coll), id, doc) <==> Repeating(render, db, coll, id, doc)
  {
    hide Key, IndexedAt, Repeated, Same;
    forall name, other | name in db.indexes && other in Rows(db.tables, coll)
      ensures var index, found := db.indexes[name], Rows(db.tables, coll)[other].doc;
              Key(render, doc, index) != NULL && Same(Key(render, doc, index), Key(render, found, index)) <==>
              Repeated(render, IndexedAt(doc, index.path), IndexedAt(found, index.path))
    {
      KeysRepeat(render, doc, Rows(db.tables, coll)[other].doc, db.indexes[name]);
    }
  }

  /** A value that is missing or null repeats nothing. */
  lemma NullsNeverRepeat(render: Render, db: Db, coll: string, id: string, doc: Json)
    requires forall name :: name in db.indexes && db.indexes[name].unique && db.indexes[name].coll == coll ==>
               var v := IndexedAt(doc, db.indexes[name].path); v.None? || v.value.Null?
    ensures !Repeating(render, db, coll, id, doc)
  {
    hide IndexedAt;
  }

  /** When a unique index is created: its name is free and no two rows repeat. */
  lemma CreatedExactlyWhen(cfg: Config, db: Db, name: string, index: Index)
    ensures var after := Administer(cfg, db, CreateIndex(name, index.coll, index.path, index.unique)).indexes;
            after == if name !in db.indexes && !(index.unique && Repetition(cfg.render, Rows(db.tables, index.coll), index.path))
                     then db.indexes[name := index] else db.indexes
  {
    RepeatsExactlyWhen(cfg.render, Rows(db.tables, index.coll), index);
    hide Repeats, Repetition;
  }

  // ---- What an operation comes to -------------------------------------------

  /** The size guard refuses a document. */
  predicate TooLargeFor(job: Job) {
    (job.cmd.Create? || job.cmd.Replace?) && job.env.savepointOk && job.env.fault != SizeRead && !job.env.sizeOk
  }

  /** A document comes to be stored, and its new id is taken or it repeats. */
  ghost predicate ConflictFor(cfg: Config, db: Db, job: Job) {
    && (job.cmd.Create? || job.cmd.Replace?) && Reaches(job) && job.env.sizeOk
    && match job.cmd
       case Create(coll, doc) => job.env.newId in Rows(db.tables, coll) || Repeating(cfg.render, db, coll, job.env.newId, doc)
       case Replace(coll, id, doc) => (job.env.fault == Select && id in Rows(db.tables, coll)) || Repeating(cfg.render, db, coll, id, doc)
       case _ => false
  }

  /** A delete finds no collection or no document. */
  predicate NothingFor(db: Db, job: Job) {
    && job.cmd.Delete? && job.env.savepointOk && job.env.fault != Prepare
    && if job.cmd.coll in db.tables then job.env.fault != Write && job.cmd.id !in db.tables[job.cmd.coll] else true
  }

  ghost predicate WriteFor(cfg: Config, db: Db, job: Job) {
    && job.env.savepointOk && job.env.fault !in {Prepare, Write, Append}
    && if job.cmd.Delete? then job.cmd.id in Rows(db.tables, job.cmd.coll)
       else (job.cmd.Create? || job.cmd.Replace?) && job.env.fault != SizeRead && job.env.sizeOk && !ConflictFor(cfg, db, job)
  }

  /** Each outcome of an operation, exactly. */
  lemma OutcomeWhen(cfg: Config, db: Db, job: Job)
    requires Batchable(job.cmd)
    ensures var o := Apply(cfg, db, job).outcome;
            && (o.Wrote? <==> WriteFor(cfg, db, job))
            && (o.NotFound? <==> NothingFor(db, job))
            && (o == Rejected(TooLarge) <==> TooLargeFor(job))
            && (o == Rejected(Conflict) <==> ConflictFor(cfg, db, job))
            && (o.NoSavepoint? <==> !job.env.savepointOk)
  {
    hide Clashes, Repeating, NextSeq;
    match job.cmd {
      case Create(coll, doc) => ClashesExactlyWhen(cfg.render, db, coll, job.env.newId, doc);
      case Replace(coll, id, doc) => ClashesExactlyWhen(cfg.render, db, coll, id, doc);
      case Delete(_, _) =>
    }
  }

  /** What an operation is told: its own refusals whatever COMMIT does, a success
      if it wrote and COMMIT succeeds, and an internal error in every other case. */
  lemma ReplyExactlyWhen(cfg: Config, db: Db, job: Job, committed: bool)
    requires Batchable(job.cmd)
    ensures var reply := Settle(Apply(cfg, db, job).outcome, committed);
            && (reply == Failed(TooLarge) <==> TooLargeFor(job))
            && (reply == Failed(Conflict) <==> ConflictFor(cfg, db, job))
            && (reply == Deleted(false) <==> NothingFor(db, job))
            && (Success(reply) <==> committed && WriteFor(cfg, db, job))
            && (reply == Failed(Internal) <==>
                !TooLargeFor(job) && !ConflictFor(cfg, db, job) && !NothingFor(db, job) && !(committed && WriteFor(cfg, db, job)))
  {
    OutcomeWhen(cfg, db, job);
    ApplyReports(cfg, db, job);
    hide ConflictFor, WriteFor, NothingFor, TooLargeFor, Apply, Reports;
  }

  // ---- What a success says --------------------------------------------------

  /** The record told is the row stored, field by field: a create has the fresh id
      and one time, a replace keeps the creation time it found. */
  lemma RecordIsRow(cfg: Config, db: Db, job: Job)
    requires Batchable(job.cmd) && Apply(cfg, db, job).outcome.Wrote?
    ensures var x, now := Apply(cfg, db, job), job.env.now;
            var rows := Rows(db.tables, job.cmd.coll);
            match job.cmd
            case Create(coll, doc) =>
              && x.outcome.reply == Created(Record(job.env.newId, now, now, doc))
              && Rows(x.db.tables, coll) == rows[job.env.newId := Row(doc, now, now)]
            case Replace(coll, id, doc) =>
              var created := if id in rows then rows[id].created else now;
              && x.outcome.reply == Replaced(Record(id, created, now, doc), id !in rows)
              && Rows(x.db.tables, coll) == rows[id := Row(doc, created, now)]
            case Delete(coll, id) => x.outcome.reply == Deleted(true) && id in rows && Rows(x.db.tables, coll) == rows - {id}
  {
    hide Clashes, NextSeq;
  }
}
