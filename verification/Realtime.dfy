/** Subscriptions: the equality filter, the resume plan built from three reads
    of the change log, and the live stream with its watermark. */
module Realtime {
  import opened Prelude
  import opened JsonValues
  import opened JsonPaths
  import opened Store
  import opened Query

  // ---- The equality filter --------------------------------------------------

  datatype EqMatch = Exactly(v: Json) | OneOf(vs: seq<Json>)

  type EqClause = (seq<string>, EqMatch)

  datatype EqFilter = EqFilter(clauses: seq<EqClause>)

  /** `{op: arg}` with one operator, or any other value as an equality. */
  function EqMatchOf(val: Json): Option<EqMatch> {
    if !val.Obj? then Some(Exactly(val))
    else if |val.fields| != 1 then None
    else
      var (op, arg) := Entries(val.fields)[0];
      if op == "$eq" then Some(Exactly(arg))
      else if op == "$in" && arg.Arr? then Some(OneOf(arg.items))
      else None
  }

  function EqClauseOf(e: Entry): Option<EqClause> {
    if Operator(e.0) || !ValidField(e.0) then None
    else
      match EqMatchOf(e.1)
      case None => None
      case Some(m) => Some((Split(e.0), m))
  }

  predicate ParsesTo(entries: seq<Entry>, clauses: seq<EqClause>) {
    |entries| == |clauses| && forall i :: 0 <= i < |entries| ==> EqClauseOf(entries[i]) == Some(clauses[i])
  }

  lemma ParsesToGrows(entries: seq<Entry>, clauses: seq<EqClause>, c: EqClause)
    requires |clauses| < |entries| && ParsesTo(entries[..|clauses|], clauses)
    requires EqClauseOf(entries[|clauses|]) == Some(c)
    ensures ParsesTo(entries[..|clauses| + 1], clauses + [c])
  {
  }

  lemma EqClauseCases(e: Entry)
    ensures EqClauseOf(e) ==
            if Operator(e.0) || !ValidField(e.0) || EqMatchOf(e.1).None? then None
            else Some((Split(e.0), EqMatchOf(e.1).value))
  {
  }

  lemma ParsesToEnds(entries: seq<Entry>)
    ensures ParsesTo(entries[..0], [])
    ensures forall cs :: ParsesTo(entries[..|entries|], cs) ==> ParsesTo(entries, cs)
  {
    assert entries[..|entries|] == entries;
  }

  /** Parsing keeps one clause per entry, or refuses a filter with a bad entry. */
  method ParseEqFilter(value: Json) returns (r: Option<EqFilter>)
    ensures r.Some? ==> value.Obj? && ParsesTo(Entries(value.fields), r.value.clauses)
    ensures r.None? ==> !value.Obj? || exists i :: 0 <= i < |Entries(value.fields)| && EqClauseOf(Entries(value.fields)[i]).None?
  {
    hide *;
    if !value.Obj? {
      return None;
    }
    var entries := Entries(value.fields);
    var clauses := [];
    ParsesToEnds(entries);
    for i := 0 to |entries|
      invariant |clauses| == i
      invariant ParsesTo(entries[..i], clauses)
    {
      var (key, val) := entries[i];
      EqClauseCases(entries[i]);
      if Operator(key) {
        return None;
      }
      var path := SplitField(key);
      if path.None? {
        return None;
      }
      var m := EqMatchOf(val);
      if m.None? {
        return None;
      }
      ParsesToGrows(entries, clauses, (path.value, m.value));
      clauses := clauses + [(path.value, m.value)];
    }
    return Some(EqFilter(clauses));
  }

  predicate ClauseMatches(c: EqClause, doc: Json) {
    var actual := Lookup(doc, c.0);
    match c.1
    case Exactly(v) => actual == Some(v)
    case OneOf(vs) => actual.Some? && actual.value in vs
  }

  predicate Matches(f: EqFilter, doc: Json) {
    forall i :: 0 <= i < |f.clauses| ==> ClauseMatches(f.clauses[i], doc)
  }

  lemma OneKey(fields: map<string, Json>, key: string)
    requires key in fields
    ensures |fields| == 1 && Entries(fields)[0].0 == key <==> fields.Keys == {key}
  {
    assert |fields.Keys| == |fields|;
    if |fields| == 1 && Entries(fields)[0].0 == key {
      forall k | k in fields
        ensures k == key
      {
        assert (k, fields[k]) in Entries(fields);
      }
    }
  }

  /** What a subscription may ask of a field: a value, `$eq` with any value, or
      `$in` with a list, and one of these only. */
  predicate AsksOne(spec: Json) {
    spec.Obj? ==> spec.fields.Keys == {"$eq"} || (spec.fields.Keys == {"$in"} && spec.fields["$in"].Arr?)
  }

  /** The value found is the one asked for, or is listed; a missing field is neither. */
  predicate HoldsLive(found: Option<Json>, spec: Json) {
    && found.Some?
    && if !spec.Obj? then found.value == spec
       else || (spec.fields.Keys == {"$eq"} && found.value == spec.fields["$eq"])
            || (spec.fields.Keys == {"$in"} && spec.fields["$in"].Arr? && found.value in spec.fields["$in"].items)
  }

  lemma MatchIs(spec: Json)
    ensures EqMatchOf(spec).Some? <==> AsksOne(spec)
    ensures EqMatchOf(spec).Some? ==>
              EqMatchOf(spec).value ==
              if !spec.Obj? then Exactly(spec)
              else if spec.fields.Keys == {"$eq"} then Exactly(spec.fields["$eq"]) else OneOf(spec.fields["$in"].items)
  {
    if spec.Obj? {
      if "$eq" in spec.fields {
        OneKey(spec.fields, "$eq");
      }
      if "$in" in spec.fields {
        OneKey(spec.fields, "$in");
      }
    }
  }

  /** An entry is taken if its key is a field and it asks for one of these. */
  lemma EntryTakenExactlyWhen(e: Entry)
    ensures EqClauseOf(e).Some? <==> (exists names :: FieldNames(names) && e.0 == Dotted(names)) && AsksOne(e.1)
  {
    ValidFieldExactlyWhen(e.0);
    MatchIs(e.1);
    hide EqMatchOf, AsksOne, FieldNames;
    if ValidField(e.0) && Operator(e.0) {
      OperatorIsNoField(e.0);
    }
  }

  lemma OperatorIsNoField(key: string)
    requires Operator(key)
    ensures !ValidField(key)
  {
    SplitDotted(key);
    var names := Split(key);
    if names[0] != "" {
      assert names[0][0] == key[0] && !IsIdent(key[0]);
    }
  }

  /** A filter matches a document if each field it names is found there with a value
      it asks for. */
  lemma MatchesExactlyWhen(value: Json, f: EqFilter, doc: Json)
    requires value.Obj? && ParsesTo(Entries(value.fields), f.clauses)
    ensures Matches(f, doc) <==>
            forall names :: FieldNames(names) && Dotted(names) in value.fields ==> HoldsLive(Lookup(doc, names), value.fields[Dotted(names)])
  {
    var entries := Entries(value.fields);
    hide ClauseMatches, HoldsLive, Entries, EqClauseOf, FieldNames, Dotted, Split;
    forall i | 0 <= i < |entries|
      ensures ClauseMatches(f.clauses[i], doc) <==> HoldsLive(Lookup(doc, Split(entries[i].0)), entries[i].1)
      ensures FieldNames(Split(entries[i].0)) && entries[i].0 == Dotted(Split(entries[i].0)) && entries[i].0 in value.fields
    {
      ClauseHolds(entries[i], doc);
    }
    if Matches(f, doc) {
      forall names | FieldNames(names) && Dotted(names) in value.fields
        ensures HoldsLive(Lookup(doc, names), value.fields[Dotted(names)])
      {
        var i := EntryOf(value.fields, Dotted(names));
        NamesSplit(names);
        assert ClauseMatches(f.clauses[i], doc);
      }
    }
  }

  lemma EntryOf(fields: map<string, Json>, key: string) returns (i: nat)
    requires key in fields
    ensures i < |Entries(fields)| && Entries(fields)[i] == (key, fields[key])
  {
    assert (key, fields[key]) in Entries(fields);
    i :| 0 <= i < |Entries(fields)| && Entries(fields)[i] == (key, fields[key]);
  }

  lemma ClauseHolds(e: Entry, doc: Json)
    requires EqClauseOf(e).Some?
    ensures FieldNames(Split(e.0)) && e.0 == Dotted(Split(e.0))
    ensures ClauseMatches(EqClauseOf(e).value, doc) <==> HoldsLive(Lookup(doc, Split(e.0)), e.1)
  {
    SplitDotted(e.0);
    MatchIs(e.1);
    hide EqMatchOf, Split, Dotted, Lookup;
  }

  /** Deletes always pass; other events pass by their new document. */
  predicate Passes(filter: Option<EqFilter>, c: Change) {
    filter.None? || c.op.Delete? || (c.doc.Some? && Matches(filter.value, c.doc.value))
  }

  // ---- The resume plan ------------------------------------------------------

  datatype Plan = Plan(resync: bool, replay: seq<Change>, maxSent: int)

  /** `MIN(seq)`. */
  function MinSeq(log: seq<LogRow>): Option<int> {
    if log == [] then None
    else
      match MinSeq(log[..|log| - 1])
      case None => Some(log[|log| - 1].change.seqno)
      case Some(m) => Some(Min(m, log[|log| - 1].change.seqno))
  }

  /** The rows of a collection after `last`, in order. */
  function RowsAfter(log: seq<LogRow>, coll: string, last: int): seq<LogRow> {
    if log == [] then []
    else
      var row := log[|log| - 1];
      RowsAfter(log[..|log| - 1], coll, last) + if row.change.seqno > last && row.change.coll == coll then [row] else []
  }

  /** Replaying rows: those that pass are sent, all raise the watermark. */
  function Replayed(rows: seq<LogRow>, last: int, filter: Option<EqFilter>): (r: Plan)
    ensures !r.resync && r.maxSent >= last
  {
    if rows == [] then Plan(false, [], last)
    else
      var before := Replayed(rows[..|rows| - 1], last, filter);
      var c := rows[|rows| - 1].change;
      Plan(false, before.replay + (if Passes(filter, c) then [c] else []), Max(before.maxSent, c.seqno))
  }

  /** Whether the resume point lies before the oldest row a read finds. */
  predicate Predates(last: int, log: seq<LogRow>) {
    var m := MinSeq(log);
    m.Some? && last + 1 < m.value
  }

  /** The plan from three reads of the log, each of which may see a later state
      than the one before. */
  function ResumePlan(maxRead: seq<LogRow>, minRead: seq<LogRow>, rowsRead: seq<LogRow>,
                      coll: string, lastId: Option<int>, filter: Option<EqFilter>): Plan
  {
    if lastId.None? then Plan(false, [], MaxSeq(maxRead))
    else if Predates(lastId.value, minRead) then Plan(true, [], MaxSeq(maxRead))
    else Replayed(RowsAfter(rowsRead, coll, lastId.value), lastId.value, filter)
  }

  method BuildResumePlan(maxRead: seq<LogRow>, minRead: seq<LogRow>, rowsRead: seq<LogRow>,
                         coll: string, lastId: Option<int>, filter: Option<EqFilter>) returns (plan: Plan)
    ensures plan == ResumePlan(maxRead, minRead, rowsRead, coll, lastId, filter)
  {
    var currentMax := MaxSeq(maxRead);
    if lastId.None? {
      return Plan(false, [], currentMax);
    }
    var last := lastId.value;
    var minSeq := MinSeq(minRead);
    if minSeq.Some? {
      if last + 1 < minSeq.value {
        return Plan(true, [], currentMax);
      }
    }
    var rows := RowsAfter(rowsRead, coll, last);
    var replay := [];
    var maxSent := last;
    for i := 0 to |rows|
      invariant Plan(false, replay, maxSent) == Replayed(rows[..i], last, filter)
    {
      assert rows[..i + 1][..i] == rows[..i];
      var c := rows[i].change;
      maxSent := Max(maxSent, c.seqno);
      if Passes(filter, c) {
        replay := replay + [c];
      }
    }
    assert rows[..|rows|] == rows;
    return Plan(false, replay, maxSent);
  }

  // ---- The live stream ------------------------------------------------------

  datatype Msg = ChangeMsg(change: Change) | Resync

  /** What `recv` gives: the next event, or word that events were dropped. */
  datatype Received = Event(change: Change) | Lagged

  datatype Stream = Stream(maxSent: int, out: seq<Msg>)

  function OnReceive(coll: string, filter: Option<EqFilter>, s: Stream, r: Received): Stream {
    match r
    case Lagged => s.(out := s.out + [Resync])
    case Event(c) =>
      if c.coll != coll || c.seqno <= s.maxSent then s
      else if !Passes(filter, c) then s.(maxSent := c.seqno)
      else Stream(c.seqno, s.out + [ChangeMsg(c)])
  }

  function Opened(plan: Plan): Stream {
    Stream(plan.maxSent,
           (if plan.resync then [Resync] else []) + seq(|plan.replay|, i requires 0 <= i < |plan.replay| => ChangeMsg(plan.replay[i])))
  }

  function ReceiveAll(coll: string, filter: Option<EqFilter>, s: Stream, rs: seq<Received>): Stream {
    if rs == [] then s
    else OnReceive(coll, filter, ReceiveAll(coll, filter, s, rs[..|rs| - 1]), rs[|rs| - 1])
  }

  /** The stream a subscriber reads, over everything its receiver gets until the
      channel closes. */
  method EventStream(coll: string, filter: Option<EqFilter>, plan: Plan, rs: seq<Received>) returns (out: seq<Msg>)
    ensures out == ReceiveAll(coll, filter, Opened(plan), rs).out
  {
    out := [];
    if plan.resync {
      out := out + [Resync];
    }
    ghost var first := out;
    for i := 0 to |plan.replay|
      invariant out == first + seq(i, k requires 0 <= k < i => ChangeMsg(plan.replay[k]))
    {
      out := out + [ChangeMsg(plan.replay[i])];
    }
    var maxSent := plan.maxSent;
    assert Stream(maxSent, out) == Opened(plan);
    for i := 0 to |rs|
      invariant Stream(maxSent, out) == ReceiveAll(coll, filter, Opened(plan), rs[..i])
    {
      assert rs[..i + 1][..i] == rs[..i];
      match rs[i] {
        case Event(ev) =>
          if ev.coll == coll && ev.seqno > maxSent {
            if !Passes(filter, ev) {
              maxSent := ev.seqno;
            } else {
              maxSent := ev.seqno;
              out := out + [ChangeMsg(ev)];
            }
          }
        case Lagged =>
          out := out + [Resync];
      }
    }
    assert rs[..|rs|] == rs;
  }
}
