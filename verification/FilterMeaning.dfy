/** What a filter means for a document, said directly, and the proof that the
    compiled clause selects exactly the documents with that meaning. */
module FilterMeaning {
  import opened Prelude
  import opened JsonValues
  import opened JsonPaths
  import opened Sql
  import opened Query

  // ---- The direct meaning ---------------------------------------------------

  /** The value a dotted field has in a document; NULL when missing. */
  function DocValue(render: Render, doc: Json, field: string): Value {
    match Lookup(doc, Split(field))
    case None => NULL
    case Some(v) => FromJson(render, v)
  }

  predicate EqHolds(v: Value, arg: Json) {
    if arg.Null? then v == NULL
    else v != NULL && ScalarValue(arg).Some? && Same(v, ScalarValue(arg).value)
  }

  /** NULL is in no order. */
  predicate OperatorHolds(v: Value, op: string, arg: Json) {
    if op == "$eq" then EqHolds(v, arg)
    else if op == "$ne" then !EqHolds(v, arg)
    else if op == "$in" then
      arg.Arr? && exists i :: 0 <= i < |arg.items| && !arg.items[i].Null? && EqHolds(v, arg.items[i])
    else
      && ScalarValue(arg).Some?
      && var w := ScalarValue(arg).value;
         && v != NULL && w != NULL
         && if op == "$gt" then Below(w, v)
            else if op == "$gte" then Below(w, v) || Same(v, w)
            else if op == "$lt" then Below(v, w)
            else op == "$lte" && (Below(v, w) || Same(v, w))
  }

  predicate FieldHolds(render: Render, doc: Json, field: string, spec: Json) {
    var v := DocValue(render, doc, field);
    if spec.Obj? then forall op :: op in spec.fields ==> OperatorHolds(v, op, spec.fields[op])
    else EqHolds(v, spec)
  }

  predicate BranchHolds(render: Render, doc: Json, branch: Json) {
    branch.Obj? && forall f :: f in branch.fields ==> FieldHolds(render, doc, f, branch.fields[f])
  }

  predicate KeyHolds(render: Render, doc: Json, key: string, v: Json) {
    if key == "$or" then v.Arr? && exists i :: 0 <= i < |v.items| && BranchHolds(render, doc, v.items[i])
    else FieldHolds(render, doc, key, v)
  }

  /** A document satisfies every key of the filter; no filter accepts all. */
  predicate FilterHolds(render: Render, doc: Json, filter: Option<Json>) {
    filter.Some? && filter.value.Obj? ==>
      forall k :: k in filter.value.fields ==> KeyHolds(render, doc, k, filter.value.fields[k])
  }

  // ---- The meaning in JSON's own terms --------------------------------------

  /** Booleans count as 0 and 1. */
  predicate Numeric(v: Json) {
    v.Bool? || v.Num?
  }

  function Size(v: Json): real
    requires Numeric(v)
  {
    match v
    case Bool(b) => if b then 1.0 else 0.0
    case Num(Int(i)) => i as real
    case Num(Real(r)) => r
  }

  predicate JsonEqual(a: Json, b: Json) {
    if Numeric(a) && Numeric(b) then Size(a) == Size(b) else a.Str? && b.Str? && a.s == b.s
  }

  /** Every number lies below every string. */
  predicate JsonBelow(a: Json, b: Json) {
    if Numeric(a) && Numeric(b) then Size(a) < Size(b)
    else if a.Str? && b.Str? then Less(a.s, b.s)
    else Numeric(a) && b.Str?
  }

  /** SQLite reads strings as they are, arrays and objects as they print. */
  function TextOf(render: Render, v: Json): string
    requires !v.Null? && !Numeric(v)
  {
    if v.Str? then v.s else render(v)
  }

  /** What each operator asks of a document's scalar, without SQLite: null equals
      only null and is in no order, numbers and booleans compare by size, strings
      by code points, and numbers lie below strings. A missing field reads as
      null. */
  lemma ScalarsCompare(render: Render, actual: Json, arg: Json)
    requires ScalarJson(actual) && ScalarJson(arg)
    ensures var v := FromJson(render, actual);
            var same := (actual.Null? && arg.Null?) || JsonEqual(actual, arg);
            && (OperatorHolds(v, "$eq", arg) <==> same)
            && (OperatorHolds(v, "$ne", arg) <==> !same)
            && (OperatorHolds(v, "$gt", arg) <==> JsonBelow(arg, actual))
            && (OperatorHolds(v, "$gte", arg) <==> JsonBelow(arg, actual) || JsonEqual(actual, arg))
            && (OperatorHolds(v, "$lt", arg) <==> JsonBelow(actual, arg))
            && (OperatorHolds(v, "$lte", arg) <==> JsonBelow(actual, arg) || JsonEqual(actual, arg))
    ensures FromJson(render, Null) == NULL
  {
  }

  /** And `$in`: equal to a listed value that is not null. */
  lemma ListedCompare(render: Render, actual: Json, listed: seq<Json>)
    requires ScalarJson(actual) && forall i :: 0 <= i < |listed| ==> ScalarJson(listed[i])
    ensures OperatorHolds(FromJson(render, actual), "$in", Arr(listed)) <==>
            exists i :: 0 <= i < |listed| && JsonEqual(actual, listed[i])
  {
    forall i | 0 <= i < |listed|
      ensures JsonEqual(actual, listed[i]) <==> !listed[i].Null? && EqHolds(FromJson(render, actual), listed[i])
    {
      ScalarsCompare(render, actual, listed[i]);
    }
    hide JsonEqual, EqHolds;
  }

  // ---- Which filters are accepted -------------------------------------------

  predicate ScalarJson(v: Json) {
    !v.Arr? && !v.Obj?
  }

  predicate OperatorAccepted(op: string, arg: Json) {
    if op == "$in" then arg.Arr? && forall i :: 0 <= i < |arg.items| ==> ScalarJson(arg.items[i])
    else op in ["$eq", "$ne", "$gt", "$gte", "$lt", "$lte"] && ScalarJson(arg)
  }

  predicate FieldAccepted(field: string, spec: Json) {
    && !Operator(field) && ValidField(field) && !spec.Arr?
    && (spec.Obj? ==> forall op :: op in spec.fields ==> OperatorAccepted(op, spec.fields[op]))
  }

  predicate BranchAccepted(branch: Json) {
    branch.Obj? && forall f :: f in branch.fields ==> FieldAccepted(f, branch.fields[f])
  }

  predicate KeyAccepted(key: string, v: Json) {
    if key == "$or" then v.Arr? && forall i :: 0 <= i < |v.items| ==> BranchAccepted(v.items[i])
    else FieldAccepted(key, v)
  }

  predicate FilterAccepted(filter: Option<Json>) {
    || filter.None? || filter.value.Null?
    || (filter.value.Obj? && forall k :: k in filter.value.fields ==> KeyAccepted(k, filter.value.fields[k]))
  }

  lemma {:induction false} CollectAccepts<T>(items: seq<T>, each: Compile<T>, ps: seq<Value>, ok: T -> bool)
    requires forall t, qs {:trigger each(t, qs)} :: t in items ==> (each(t, qs).Some? <==> ok(t))
    ensures Collect(items, each, ps).Some? <==> forall t :: t in items ==> ok(t)
  {
    if items != [] {
      assert items[0] in items;
      assert items == [items[0]] + items[1..];
      match each(items[0], ps) {
        case None =>
        case Some(c) => CollectAccepts(items[1..], each, c.params, ok);
      }
    }
  }

  lemma OperatorAccepts(path: string, op: string, arg: Json, ps: seq<Value>)
    ensures (Operator(op) && OperatorClause(path, op, arg, ps).Some?) <==> OperatorAccepted(op, arg)
  {
    assert ScalarValue(arg).Some? <==> ScalarJson(arg);
    if op == "$in" && arg.Arr? {
      assert forall i :: 0 <= i < |arg.items| ==> (ScalarValue(arg.items[i]).Some? <==> ScalarJson(arg.items[i]));
    }
  }

  lemma FieldAccepts(field: string, spec: Json, ps: seq<Value>)
    ensures (!Operator(field) && FieldClause(field, spec, ps).Some?) <==> FieldAccepted(field, spec)
  {
    if ValidField(field) && spec.Obj? {
      var path, entries := FieldPath(field).value, Entries(spec.fields);
      var ok := (e: Entry) => OperatorAccepted(e.0, e.1);
      forall e: Entry, qs {:trigger OperatorEntry(path)(e, qs)} | e in entries
        ensures OperatorEntry(path)(e, qs).Some? <==> ok(e)
      {
        OperatorAccepts(path, e.0, e.1, qs);
      }
      CollectAccepts(entries, OperatorEntry(path), ps, ok);
      EntriesAll(spec.fields, ok);
    }
  }

  /** Saying something of every entry is saying it of every key. */
  lemma EntriesAll(fields: map<string, Json>, ok: Entry -> bool)
    ensures (forall e :: e in Entries(fields) ==> ok(e)) <==> (forall k :: k in fields ==> ok((k, fields[k])))
  {
    if forall e :: e in Entries(fields) ==> ok(e) {
      forall k | k in fields
        ensures ok((k, fields[k]))
      {
        assert (k, fields[k]) in Entries(fields);
      }
    }
    if forall k :: k in fields ==> ok((k, fields[k])) {
      forall e | e in Entries(fields)
        ensures ok(e)
      {
        var i :| 0 <= i < |Entries(fields)| && Entries(fields)[i] == e;
        assert e == (e.0, fields[e.0]);
      }
    }
  }

  lemma BranchAccepts(branch: Json, ps: seq<Value>)
    ensures BranchClause(branch, ps).Some? <==> BranchAccepted(branch)
  {
    if branch.Obj? {
      var ok := (e: Entry) => FieldAccepted(e.0, e.1);
      forall e: Entry, qs {:trigger FieldEntry()(e, qs)} | e in Entries(branch.fields)
        ensures FieldEntry()(e, qs).Some? <==> ok(e)
      {
        FieldAccepts(e.0, e.1, qs);
      }
      CollectAccepts(Entries(branch.fields), FieldEntry(), ps, ok);
      EntriesAll(branch.fields, ok);
    }
  }

  lemma OrAccepts(v: Json, ps: seq<Value>)
    ensures OrClause(v, ps).Some? <==> v.Arr? && forall i :: 0 <= i < |v.items| ==> BranchAccepted(v.items[i])
  {
    hide BranchClause, BranchAccepted, Join;
    if v.Arr? {
      var ok := (b: Json) => BranchAccepted(b);
      forall b: Json, qs {:trigger Branch()(b, qs)} | b in v.items
        ensures Branch()(b, qs).Some? <==> ok(b)
      {
        BranchAccepts(b, qs);
      }
      CollectAccepts(v.items, Branch(), ps, ok);
      assert forall i :: 0 <= i < |v.items| ==> (ok(v.items[i]) <==> BranchAccepted(v.items[i]));
    }
  }

  lemma KeyAccepts(e: Entry, ps: seq<Value>)
    ensures KeyEntry()(e, ps).Some? <==> KeyAccepted(e.0, e.1)
  {
    hide FieldClause, FieldAccepted, OrClause, BranchAccepted;
    if e.0 == "$or" {
      OrAccepts(e.1, ps);
    } else {
      KeyEntryStep(e, ps);
      FieldAccepts(e.0, e.1, ps);
      OperatorRefused(e.0, e.1);
    }
  }

  lemma OperatorRefused(field: string, spec: Json)
    ensures Operator(field) ==> !FieldAccepted(field, spec)
  {
  }

  /** The compiler accepts exactly the documented language. */
  lemma CompilerAccepts(filter: Option<Json>)
    ensures FilterClause(filter).Some? <==> FilterAccepted(filter)
  {
    if filter.Some? && filter.value.Obj? {
      var fields := filter.value.fields;
      var ok := (e: Entry) => KeyAccepted(e.0, e.1);
      forall e: Entry, qs {:trigger KeyEntry()(e, qs)} | e in Entries(fields)
        ensures KeyEntry()(e, qs).Some? <==> ok(e)
      {
        KeyAccepts(e, qs);
      }
      CollectAccepts(Entries(fields), KeyEntry(), [], ok);
      EntriesAll(fields, ok);
    }
  }
}
