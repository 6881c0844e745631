/** What of a request ends up in the text of a statement: only well-formed paths,
    never a value. */
module StatementText {
  import opened Prelude
  import opened JsonValues
  import opened JsonPaths
  import opened Sql
  import opened Query
  import opened Pager

  predicate PathsOnly(ts: seq<Token>) {
    forall i :: 0 <= i < |ts| && ts[i].JsonExtract? ==> ReadPath(ts[i].path).Some?
  }

  lemma PathsJoined(a: seq<Token>, b: seq<Token>)
    requires PathsOnly(a) && PathsOnly(b)
    ensures PathsOnly(a + b)
  {
  }

  lemma ParenthesizedPaths(ts: seq<Token>)
    requires PathsOnly(ts)
    ensures PathsOnly(Parenthesized(ts))
    ensures PathsOnly([One]) && PathsOnly([Zero])
  {
    PathsJoined([Open], ts);
    PathsJoined([Open] + ts, [Close]);
  }

  lemma {:induction false} PathsOfJoin(pieces: seq<seq<Token>>, word: Token)
    requires forall i :: 0 <= i < |pieces| ==> PathsOnly(pieces[i])
    requires !word.JsonExtract?
    ensures PathsOnly(Join(pieces, word))
  {
    if |pieces| > 1 {
      PathsOfJoin(pieces[1..], word);
      PathsJoined(pieces[0] + [word], Join(pieces[1..], word));
    }
  }

  lemma {:induction false} PathsCollected<T>(items: seq<T>, each: Compile<T>, ps: seq<Value>)
    requires forall t, qs {:trigger each(t, qs)} :: t in items && each(t, qs).Some? ==> PathsOnly(each(t, qs).value.tokens)
    requires Collect(items, each, ps).Some?
    ensures forall i :: 0 <= i < |Collect(items, each, ps).value.pieces| ==> PathsOnly(Collect(items, each, ps).value.pieces[i])
  {
    if items != [] {
      assert items[0] in items;
      assert items == [items[0]] + items[1..];
      PathsCollected(items[1..], each, each(items[0], ps).value.params);
    }
  }

  lemma {:induction false} PlaceholderPaths(n: nat)
    ensures PathsOnly(Placeholders(n))
  {
    if n > 1 {
      PlaceholderPaths(n - 1);
      PathsJoined([Param, Comma], Placeholders(n - 1));
    }
  }

  lemma OperatorPaths(path: string, op: string, arg: Json, ps: seq<Value>)
    requires ReadPath(path).Some? && OperatorClause(path, op, arg, ps).Some?
    ensures PathsOnly(OperatorClause(path, op, arg, ps).value.tokens)
  {
    hide ReadPath;
    if op == "$in" && arg.Arr? {
      PlaceholderPaths(|arg.items|);
    }
  }

  lemma EqPaths(path: string, v: Json, ps: seq<Value>)
    requires ReadPath(path).Some? && EqClause(path, v, ps).Some?
    ensures PathsOnly(EqClause(path, v, ps).value.tokens)
  {
    hide ReadPath, ScalarValue;
  }

  lemma OperatorMapPaths(path: string, fields: map<string, Json>, ps: seq<Value>)
    requires ReadPath(path).Some? && Collect(Entries(fields), OperatorEntry(path), ps).Some?
    ensures PathsOnly(Join(Collect(Entries(fields), OperatorEntry(path), ps).value.pieces, And))
  {
    hide ReadPath, OperatorClause, Join, PathsOnly, Collect, Entries;
    var entries := Entries(fields);
    forall e: Entry, qs {:trigger OperatorEntry(path)(e, qs)} | e in entries && OperatorEntry(path)(e, qs).Some?
      ensures PathsOnly(OperatorEntry(path)(e, qs).value.tokens)
    {
      OperatorPaths(path, e.0, e.1, qs);
    }
    PathsCollected(entries, OperatorEntry(path), ps);
    PathsOfJoin(Collect(entries, OperatorEntry(path), ps).value.pieces, And);
  }

  lemma FieldPaths(field: string, spec: Json, ps: seq<Value>)
    requires FieldClause(field, spec, ps).Some?
    ensures PathsOnly(FieldClause(field, spec, ps).value.tokens)
  {
    FieldPathReadsBack(field);
    hide ReadPath, OperatorEntry, Join, EqClause, Collect, Entries, Fields, PathText, Split, ValidField, PathsOnly, Parenthesized;
    var path := FieldPath(field).value;
    if spec.Obj? {
      OperatorMapPaths(path, spec.fields, ps);
      ParenthesizedPaths(Join(Collect(Entries(spec.fields), OperatorEntry(path), ps).value.pieces, And));
    } else {
      EqPaths(path, spec, ps);
    }
  }

  lemma ConjunctionPaths(pieces: seq<seq<Token>>)
    requires forall i :: 0 <= i < |pieces| ==> PathsOnly(pieces[i])
    ensures PathsOnly(Conjunction(pieces))
  {
    PathsOfJoin(pieces, And);
  }

  lemma BranchPaths(branch: Json, ps: seq<Value>)
    requires BranchClause(branch, ps).Some?
    ensures PathsOnly(BranchClause(branch, ps).value.tokens)
  {
    hide ReadPath, FieldClause, Conjunction, PathsOnly, Parenthesized;
    var entries := Entries(branch.fields);
    forall e: Entry, qs {:trigger FieldEntry()(e, qs)} | e in entries && FieldEntry()(e, qs).Some?
      ensures PathsOnly(FieldEntry()(e, qs).value.tokens)
    {
      FieldPaths(e.0, e.1, qs);
    }
    PathsCollected(entries, FieldEntry(), ps);
    ConjunctionPaths(Collect(entries, FieldEntry(), ps).value.pieces);
    ParenthesizedPaths(Conjunction(Collect(entries, FieldEntry(), ps).value.pieces));
  }

  lemma OrPaths(v: Json, ps: seq<Value>)
    requires OrClause(v, ps).Some?
    ensures PathsOnly(OrClause(v, ps).value.tokens)
  {
    hide ReadPath, BranchClause, Join, PathsOnly, Parenthesized;
    forall b: Json, qs {:trigger Branch()(b, qs)} | b in v.items && Branch()(b, qs).Some?
      ensures PathsOnly(Branch()(b, qs).value.tokens)
    {
      BranchPaths(b, qs);
    }
    PathsCollected(v.items, Branch(), ps);
    PathsOfJoin(Collect(v.items, Branch(), ps).value.pieces, Or);
    ParenthesizedPaths(Join(Collect(v.items, Branch(), ps).value.pieces, Or));
  }

  lemma KeyPaths(e: Entry, ps: seq<Value>)
    requires KeyEntry()(e, ps).Some?
    ensures PathsOnly(KeyEntry()(e, ps).value.tokens)
  {
    hide FieldClause, OrClause, PathsOnly;
    if e.0 == "$or" {
      OrPaths(e.1, ps);
    } else {
      FieldPaths(e.0, e.1, ps);
    }
  }

  /** Every path in the text of a compiled filter is a well-formed path; all else
      from the request is bound as a parameter. */
  lemma OnlyPathsInText(filter: Option<Json>)
    requires FilterClause(filter).Some?
    ensures PathsOnly(FilterClause(filter).value.tokens)
  {
    hide ReadPath, Conjunction;
    if filter.Some? && filter.value.Obj? {
      var entries := Entries(filter.value.fields);
      forall e: Entry, qs {:trigger KeyEntry()(e, qs)} | e in entries && KeyEntry()(e, qs).Some?
        ensures PathsOnly(KeyEntry()(e, qs).value.tokens)
      {
        KeyPaths(e, qs);
      }
      PathsCollected(entries, KeyEntry(), []);
      ConjunctionPaths(Collect(entries, KeyEntry(), []).value.pieces);
    }
  }

  lemma PathOfKey(spec: (string, string), term: Term)
    requires TermOf(spec) == Some(term) && term.key.PathKey?
    ensures FieldPath(spec.0) == Some(term.key.path) && ValidField(spec.0)
  {
    hide Lower, Split, PathText;
  }

  /** So is every path in an ORDER BY. */
  lemma OnlyPathsInOrder(sort: SortSpec, terms: seq<Term>, i: nat)
    requires Orders(sort, terms) && i < |terms| && terms[i].key.PathKey?
    ensures ReadPath(terms[i].key.path).Some?
  {
    hide TermOf, FieldPath, ReadPath, ValidField;
    assert TermOf(sort[i]) == Some(terms[i]);
    PathOfKey(sort[i], terms[i]);
    FieldPathReadsBack(sort[i].0);
  }
}
