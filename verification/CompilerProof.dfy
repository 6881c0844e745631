/** The compiled clause parses, binds its placeholders in order, and selects
    exactly the documents that satisfy the filter's direct meaning. */
module CompilerProof {
  import opened Prelude
  import opened JsonValues
  import opened JsonPaths
  import opened Sql
  import opened Query
  import opened ParserFacts
  import opened FilterMeaning

  /** A compiled piece is one primary whose placeholders are numbered on from
      the parameters before it, and it is true exactly when `holds`. */
  ghost predicate Correct(c: Clause, qs: seq<Value>, holds: bool, row: Source) {
    && qs <= c.params
    && var p := ParsePrimary(c.tokens, |qs|);
       && p.Good? && p.rest == [] && p.next == |c.params|
       && TrueWhen(p.e, c.params, holds, row)
  }

  ghost predicate TrueWhen(e: Expr, params: seq<Value>, holds: bool, row: Source) {
    forall final :: params <= final ==> (Eval(e, final, row) == True <==> holds)
  }

  // ---- Leaves ---------------------------------------------------------------

  lemma SameIsOrdered(a: Value, b: Value)
    requires a != NULL && b != NULL
    ensures !Below(a, b) <==> Below(b, a) || Same(a, b)
    ensures !(Below(a, b) && Below(b, a)) && !(Below(a, b) && Same(a, b))
  {
    if a.Text? && b.Text? {
      LessTotal(a.s, b.s);
    }
  }

  lemma EqCorrect(path: string, arg: Json, qs: seq<Value>, row: Source)
    requires EqClause(path, arg, qs).Some?
    ensures Correct(EqClause(path, arg, qs).value, qs, EqHolds(Extract(row.render, row.doc, path), arg), row)
  {
    var c := EqClause(path, arg, qs).value;
    var p := ParsePrimary(c.tokens, |qs|);
    forall final | c.params <= final
      ensures Eval(p.e, final, row) == True <==> EqHolds(Extract(row.render, row.doc, path), arg)
    {
      if !arg.Null? {
        assert final[|qs|] == c.params[|qs|];
      }
    }
  }

  function Numbers(n: nat, m: nat): (ks: seq<nat>)
    ensures |ks| == m && forall i :: 0 <= i < m ==> ks[i] == n + i
  {
    seq(m, i requires 0 <= i < m => n + i)
  }

  lemma {:induction false} PlaceholdersParse(m: nat, n: nat, rest: seq<Token>)
    requires m > 0
    ensures ParseList(Placeholders(m) + [Close] + rest, n) == GoodList(Numbers(n, m), rest, n + m)
    decreases m
  {
    var ts := Placeholders(m) + [Close] + rest;
    if m > 1 {
      PlaceholdersParse(m - 1, n + 1, rest);
      assert ts[2..] == Placeholders(m - 1) + [Close] + rest;
      assert [n] + Numbers(n + 1, m - 1) == Numbers(n, m);
    } else {
      assert ts[2..] == rest;
      assert Numbers(n, 1) == [n];
    }
  }

  lemma {:induction false} AmongTrue(a: Value, vs: seq<Value>)
    ensures Among(a, vs) == True <==> a != NULL && exists i :: 0 <= i < |vs| && vs[i] != NULL && Same(a, vs[i])
  {
    if vs != [] {
      AmongTrue(a, vs[1..]);
      assert vs == [vs[0]] + vs[1..];
      assert (exists i :: 0 <= i < |vs| && vs[i] != NULL && Same(a, vs[i])) <==>
             (vs[0] != NULL && Same(a, vs[0])) || exists i :: 0 <= i < |vs[1..]| && vs[1..][i] != NULL && Same(a, vs[1..][i]);
    }
  }

  lemma InParses(path: string, m: nat, n: nat)
    requires m > 0
    ensures ParsePrimary([JsonExtract(path), In, Open] + Placeholders(m) + [Close], n) ==
            Good(Member(Doc(path), Numbers(n, m)), [], n + m)
  {
    PlaceholdersParse(m, n, []);
    var ts := [JsonExtract(path), In, Open] + Placeholders(m) + [Close];
    assert Placeholders(m) + [Close] + [] == ts[1..][2..];
  }

  lemma BoundSuffix(qs: seq<Value>, vs: seq<Value>, final: seq<Value>)
    requires qs + vs <= final
    ensures BoundAll(final, Numbers(|qs|, |vs|)) == vs
  {
    forall i | 0 <= i < |vs|
      ensures BoundAll(final, Numbers(|qs|, |vs|))[i] == vs[i]
    {
      assert final[|qs| + i] == (qs + vs)[|qs| + i];
    }
  }

  lemma MemberTrue(path: string, items: seq<Json>, qs: seq<Value>, vs: seq<Value>, final: seq<Value>, row: Source)
    requires ScalarValues(items) == Some(vs) && qs + vs <= final
    ensures Eval(Member(Doc(path), Numbers(|qs|, |vs|)), final, row) == True <==>
            OperatorHolds(Extract(row.render, row.doc, path), "$in", Arr(items))
  {
    hide Extract, ScalarValues, Among;
    BoundSuffix(qs, vs, final);
    AmongTrue(Extract(row.render, row.doc, path), vs);
    MembersHold(Extract(row.render, row.doc, path), items, vs);
  }

  lemma InCorrect(path: string, arg: Json, qs: seq<Value>, row: Source)
    requires OperatorClause(path, "$in", arg, qs).Some? && arg.items != []
    ensures Correct(OperatorClause(path, "$in", arg, qs).value, qs,
                    OperatorHolds(Extract(row.render, row.doc, path), "$in", arg), row)
  {
    var c := OperatorClause(path, "$in", arg, qs).value;
    var vs := ScalarValues(arg.items).value;
    InParses(path, |vs|, |qs|);
    hide ParsePrimary, Extract, OperatorHolds, Eval, ScalarValues;
    forall final | c.params <= final
      ensures Eval(Member(Doc(path), Numbers(|qs|, |vs|)), final, row) == True <==>
              OperatorHolds(Extract(row.render, row.doc, path), "$in", arg)
    {
      MemberTrue(path, arg.items, qs, vs, final, row);
    }
  }

  lemma MembersHold(v: Value, items: seq<Json>, vs: seq<Value>)
    requires ScalarValues(items) == Some(vs)
    ensures (v != NULL && exists i :: 0 <= i < |vs| && vs[i] != NULL && Same(v, vs[i])) <==>
            (exists i :: 0 <= i < |items| && !items[i].Null? && EqHolds(v, items[i]))
  {
    forall i | 0 <= i < |items|
      ensures (v != NULL && vs[i] != NULL && Same(v, vs[i])) <==> (!items[i].Null? && EqHolds(v, items[i]))
    {
      assert ScalarValue(items[i]) == Some(vs[i]);
    }
  }

  lemma NeCorrect(path: string, arg: Json, qs: seq<Value>, row: Source)
    requires OperatorClause(path, "$ne", arg, qs).Some?
    ensures Correct(OperatorClause(path, "$ne", arg, qs).value, qs,
                    !EqHolds(Extract(row.render, row.doc, path), arg), row)
  {
    hide Extract;
    var c := OperatorClause(path, "$ne", arg, qs).value;
    var p := ParsePrimary(c.tokens, |qs|);
    forall final | c.params <= final
      ensures Eval(p.e, final, row) == True <==> !EqHolds(Extract(row.render, row.doc, path), arg)
    {
      if !arg.Null? {
        assert final[|qs|] == c.params[|qs|];
      }
    }
  }

  predicate OrderHolds(v: Value, rel: Relation, w: Value) {
    && v != NULL && w != NULL
    && match rel
       case Eq => Same(v, w)
       case Gt => Below(w, v)
       case Gte => Below(w, v) || Same(v, w)
       case Lt => Below(v, w)
       case Lte => Below(v, w) || Same(v, w)
  }

  lemma OrderCorrect(path: string, rel: Relation, w: Value, qs: seq<Value>, row: Source)
    ensures Correct(Clause([JsonExtract(path), Rel(rel), Param], qs + [w]), qs,
                    OrderHolds(Extract(row.render, row.doc, path), rel, w), row)
  {
    hide Extract;
    var v := Extract(row.render, row.doc, path);
    var ts := [JsonExtract(path), Rel(rel), Param];
    assert ParsePrimary(ts, |qs|) == Good(Compares(Doc(path), rel, |qs|), [], |qs| + 1);
    if v != NULL && w != NULL {
      SameIsOrdered(v, w);
      SameIsOrdered(w, v);
    }
    hide ParsePrimary, Below, Same;
    forall final | qs + [w] <= final
      ensures Eval(Compares(Doc(path), rel, |qs|), final, row) == True <==> OrderHolds(v, rel, w)
    {
      assert final[|qs|] == (qs + [w])[|qs|];
    }
  }

  lemma OperatorCorrect(path: string, op: string, arg: Json, qs: seq<Value>, row: Source)
    requires OperatorClause(path, op, arg, qs).Some?
    ensures Correct(OperatorClause(path, op, arg, qs).value, qs,
                    OperatorHolds(Extract(row.render, row.doc, path), op, arg), row)
  {
    hide Extract, ParsePrimary, Eval;
    if op == "$eq" {
      EqCorrect(path, arg, qs, row);
    } else if op == "$ne" {
      NeCorrect(path, arg, qs, row);
    } else if op == "$in" {
      if arg.items == [] {
        ZeroCorrect(qs, row);
      } else {
        InCorrect(path, arg, qs, row);
      }
    } else {
      OrderCorrect(path, OrderRelation(op).value, ScalarValue(arg).value, qs, row);
    }
  }

  lemma ZeroCorrect(qs: seq<Value>, row: Source)
    ensures Correct(Clause([Zero], qs), qs, false, row)
  {
    assert ParsePrimary([Zero], |qs|) == Good(Constant(false), [], |qs|);
  }

  // ---- Lists of pieces ------------------------------------------------------

  ghost predicate EachTrueWhen<T>(es: seq<Expr>, items: seq<T>, params: seq<Value>, holds: T -> bool, row: Source) {
    |es| == |items| && forall i :: 0 <= i < |es| ==> TrueWhen(es[i], params, holds(items[i]), row)
  }

  lemma {:induction false} CollectCorrect<T>(items: seq<T>, each: Compile<T>, ps: seq<Value>, holds: T -> bool, row: Source)
    returns (es: seq<Expr>)
    requires Collect(items, each, ps).Some?
    requires forall t, qs {:trigger each(t, qs)} ::
               t in items && each(t, qs).Some? ==> Correct(each(t, qs).value, qs, holds(t), row)
    ensures var parts := Collect(items, each, ps).value;
            && ps <= parts.params
            && |parts.pieces| == |items|
            && Tiles(parts.pieces, es, |ps|, |parts.params|)
            && EachTrueWhen(es, items, parts.params, holds, row)
  {
    if items == [] {
      es := [];
    } else {
      assert items[0] in items;
      var c := each(items[0], ps).value;
      assert Correct(c, ps, holds(items[0]), row);
      var rest := CollectCorrect(items[1..], each, c.params, holds, row);
      var e := ParsePrimary(c.tokens, |ps|).e;
      es := [e] + rest;
      var parts := Collect(items, each, ps).value;
      assert parts.pieces[1..] == Collect(items[1..], each, c.params).value.pieces;
      assert es[1..] == rest;
      assert TrueWhen(e, parts.params, holds(items[0]), row);
      forall i | 0 <= i < |es|
        ensures TrueWhen(es[i], parts.params, holds(items[i]), row)
      {
        if i > 0 {
          assert es[i] == rest[i - 1] && items[i] == items[1..][i - 1];
        }
      }
    }
  }

  /** A conjunction of pieces, followed by anything. */
  lemma ConjunctionCorrect<T>(pieces: seq<seq<Token>>, es: seq<Expr>, items: seq<T>, n: nat,
                              params: seq<Value>, holds: T -> bool, row: Source, rest: seq<Token>)
    returns (e: Expr)
    requires Tiles(pieces, es, n, |params|) && EachTrueWhen(es, items, params, holds, row)
    ensures ParseAnd(Conjunction(pieces) + rest, n) == ParseAndTail(e, rest, |params|)
    ensures TrueWhen(e, params, forall t :: t in items ==> holds(t), row)
  {
    if pieces == [] {
      e := Constant(true);
      assert ([One] + rest)[1..] == rest;
    } else {
      e := AllOf(es[0], es[1..]);
      AndParses(pieces, es, n, |params|, rest);
      hide Tiles, ParseAnd, ParseAndTail, Join, AllOf, Eval;
      forall final | params <= final
        ensures Eval(e, final, row) == True <==> forall t :: t in items ==> holds(t)
      {
        ListTrue(es, final, row);
        assert forall i :: 0 <= i < |es| ==> (Eval(es[i], final, row) == True <==> holds(items[i]));
      }
    }
  }

  lemma ParenthesesParse(ts: seq<Token>, n: nat, e: Expr, k: nat)
    requires ParseOr(ts + [Close], n) == Good(e, [Close], k)
    ensures ParsePrimary(Parenthesized(ts), n) == Good(e, [], k)
  {
    assert Parenthesized(ts)[1..] == ts + [Close];
  }

  lemma ConjunctionInParentheses<T>(pieces: seq<seq<Token>>, es: seq<Expr>, items: seq<T>, qs: seq<Value>,
                                    params: seq<Value>, holds: T -> bool, row: Source)
    requires qs <= params && Tiles(pieces, es, |qs|, |params|) && EachTrueWhen(es, items, params, holds, row)
    ensures Correct(Clause(Parenthesized(Conjunction(pieces)), params), qs, forall t :: t in items ==> holds(t), row)
  {
    var e := ConjunctionCorrect(pieces, es, items, |qs|, params, holds, row, [Close]);
    assert ParseOr(Conjunction(pieces) + [Close], |qs|) == Good(e, [Close], |params|);
    ParenthesesParse(Conjunction(pieces), |qs|, e, |params|);
  }

  lemma DisjunctionInParentheses<T>(pieces: seq<seq<Token>>, es: seq<Expr>, items: seq<T>, qs: seq<Value>,
                                    params: seq<Value>, holds: T -> bool, row: Source)
    requires qs <= params && Tiles(pieces, es, |qs|, |params|) && EachTrueWhen(es, items, params, holds, row)
    requires pieces != []
    ensures Correct(Clause(Parenthesized(Join(pieces, Or)), params), qs, exists t :: t in items && holds(t), row)
  {
    var e := AnyOf(es[0], es[1..]);
    OrParses(pieces, es, |qs|, |params|, [Close]);
    ParenthesesParse(Join(pieces, Or), |qs|, e, |params|);
    hide Tiles, ParsePrimary, Join, AnyOf, Eval;
    forall final | params <= final
      ensures Eval(e, final, row) == True <==> exists t :: t in items && holds(t)
    {
      ListTrue(es, final, row);
      assert forall i :: 0 <= i < |es| ==> (Eval(es[i], final, row) == True <==> holds(items[i]));
    }
  }

  // ---- Fields, branches, keys -----------------------------------------------

  lemma OneCorrect(qs: seq<Value>, row: Source)
    ensures Correct(Clause([One], qs), qs, true, row)
  {
    assert ParsePrimary([One], |qs|) == Good(Constant(true), [], |qs|);
  }

  lemma OperatorMapCorrect(path: string, spec: map<string, Json>, qs: seq<Value>, row: Source)
    requires Collect(Entries(spec), OperatorEntry(path), qs).Some?
    ensures var parts := Collect(Entries(spec), OperatorEntry(path), qs).value;
            Correct(Clause(if parts.pieces == [] then [One] else Parenthesized(Join(parts.pieces, And)), parts.params), qs,
                    forall op :: op in spec ==> OperatorHolds(Extract(row.render, row.doc, path), op, spec[op]), row)
  {
    var v, entries := Extract(row.render, row.doc, path), Entries(spec);
    var holds := (e: Entry) => OperatorHolds(v, e.0, e.1);
    hide Extract, OperatorClause, OperatorHolds, Correct;
    forall e: Entry, ps {:trigger OperatorEntry(path)(e, ps)} | e in entries && OperatorEntry(path)(e, ps).Some?
      ensures Correct(OperatorEntry(path)(e, ps).value, ps, holds(e), row)
    {
      OperatorCorrect(path, e.0, e.1, ps, row);
    }
    var es := CollectCorrect(entries, OperatorEntry(path), qs, holds, row);
    var parts := Collect(entries, OperatorEntry(path), qs).value;
    EntriesAll(spec, holds);
    if parts.pieces == [] {
      assert qs == parts.params;
      OneCorrect(qs, row);
    } else {
      ConjunctionInParentheses(parts.pieces, es, entries, qs, parts.params, holds, row);
    }
  }

  lemma FieldCorrect(field: string, spec: Json, qs: seq<Value>, row: Source)
    requires FieldClause(field, spec, qs).Some?
    ensures Correct(FieldClause(field, spec, qs).value, qs, FieldHolds(row.render, row.doc, field, spec), row)
  {
    var path := FieldPath(field).value;
    ExtractField(row.render, row.doc, field);
    hide Extract, FieldPath, OperatorClause, EqClause, OperatorHolds, EqHolds, Collect, Correct;
    if spec.Obj? {
      OperatorMapCorrect(path, spec.fields, qs, row);
    } else {
      EqCorrect(path, spec, qs, row);
    }
  }

  lemma BranchCorrect(branch: Json, qs: seq<Value>, row: Source)
    requires BranchClause(branch, qs).Some?
    ensures Correct(BranchClause(branch, qs).value, qs, BranchHolds(row.render, row.doc, branch), row)
  {
    var entries := Entries(branch.fields);
    var holds := (e: Entry) => FieldHolds(row.render, row.doc, e.0, e.1);
    hide FieldClause, FieldHolds, Conjunction;
    forall e: Entry, ps {:trigger FieldEntry()(e, ps)} | e in entries && FieldEntry()(e, ps).Some?
      ensures Correct(FieldEntry()(e, ps).value, ps, holds(e), row)
    {
      FieldCorrect(e.0, e.1, ps, row);
    }
    var es := CollectCorrect(entries, FieldEntry(), qs, holds, row);
    var parts := Collect(entries, FieldEntry(), qs).value;
    EntriesAll(branch.fields, holds);
    ConjunctionInParentheses(parts.pieces, es, entries, qs, parts.params, holds, row);
  }

  lemma OrCorrect(v: Json, qs: seq<Value>, row: Source)
    requires OrClause(v, qs).Some?
    ensures Correct(OrClause(v, qs).value, qs, KeyHolds(row.render, row.doc, "$or", v), row)
  {
    var holds := (b: Json) => BranchHolds(row.render, row.doc, b);
    hide BranchClause, BranchHolds;
    forall b: Json, ps {:trigger Branch()(b, ps)} | b in v.items && Branch()(b, ps).Some?
      ensures Correct(Branch()(b, ps).value, ps, holds(b), row)
    {
      BranchCorrect(b, ps, row);
    }
    var es := CollectCorrect(v.items, Branch(), qs, holds, row);
    var parts := Collect(v.items, Branch(), qs).value;
    assert (exists b :: b in v.items && holds(b)) <==> KeyHolds(row.render, row.doc, "$or", v);
    if parts.pieces != [] {
      DisjunctionInParentheses(parts.pieces, es, v.items, qs, parts.params, holds, row);
    }
  }

  lemma KeyCorrect(e: Entry, qs: seq<Value>, row: Source)
    requires KeyEntry()(e, qs).Some?
    ensures Correct(KeyEntry()(e, qs).value, qs, KeyHolds(row.render, row.doc, e.0, e.1), row)
  {
    hide OrClause, FieldClause, FieldHolds, BranchHolds, Correct;
    if e.0 == "$or" {
      OrCorrect(e.1, qs, row);
    } else {
      FieldCorrect(e.0, e.1, qs, row);
    }
  }

  // ---- Whole clauses --------------------------------------------------------

  /** For every accepted filter and whatever is appended after it: the clause is
      one conjunction that uses up its placeholders and means the filter. */
  lemma FilterParses(filter: Option<Json>, row: Source, rest: seq<Token>) returns (e: Expr)
    requires FilterClause(filter).Some?
    ensures var c := FilterClause(filter).value;
            && ParseAnd(c.tokens + rest, 0) == ParseAndTail(e, rest, |c.params|)
            && TrueWhen(e, c.params, FilterHolds(row.render, row.doc, filter), row)
  {
    if filter.None? || filter.value.Null? {
      e := Constant(true);
      assert ([One] + rest)[1..] == rest;
    } else {
      var fields := filter.value.fields;
      var entries := Entries(fields);
      var holds := (e: Entry) => KeyHolds(row.render, row.doc, e.0, e.1);
      hide KeyHolds, Conjunction;
      forall e: Entry, ps {:trigger KeyEntry()(e, ps)} | e in entries && KeyEntry()(e, ps).Some?
        ensures Correct(KeyEntry()(e, ps).value, ps, holds(e), row)
      {
        KeyCorrect(e, ps, row);
      }
      var es := CollectCorrect(entries, KeyEntry(), [], holds, row);
      var parts := Collect(entries, KeyEntry(), []).value;
      EntriesAll(fields, holds);
      e := ConjunctionCorrect(parts.pieces, es, entries, 0, parts.params, holds, row, rest);
    }
  }

  lemma WholeClause(ts: seq<Token>, ps: seq<Value>, e: Expr, row: Source)
    requires ParseAnd(ts, 0) == Good(e, [], |ps|)
    ensures ParseWhere(ts, |ps|) == Some(e)
    ensures Selects(ts, ps, row) <==> Eval(e, ps, row) == True
  {
    assert ParseOr(ts, 0) == Good(e, [], |ps|);
  }

  /** Compiler correctness: the clause of every accepted filter parses with
      exactly its own parameters and selects a row if and only if the row's
      document has the filter's meaning. */
  lemma CompilerCorrect(filter: Option<Json>, row: Source)
    requires FilterClause(filter).Some?
    ensures var c := FilterClause(filter).value;
            && ParseWhere(c.tokens, |c.params|).Some?
            && (Selects(c.tokens, c.params, row) <==> FilterHolds(row.render, row.doc, filter))
  {
    var c := FilterClause(filter).value;
    var e := FilterParses(filter, row, []);
    assert c.tokens + [] == c.tokens;
    assert ParseAndTail(e, [], |c.params|) == Good(e, [], |c.params|);
    assert c.params <= c.params;
    hide FilterClause, FilterHolds, Eval, ParseAnd, ParseOr;
    WholeClause(c.tokens, c.params, e, row);
  }

  const NEXT_PAGE := [And, Id, Rel(Gt), Param]

  lemma NextPageParses(e: Expr, n: nat)
    ensures ParseAndTail(e, NEXT_PAGE, n) == Good(Both(e, Compares(IdColumn, Gt, n)), [], n + 1)
  {
    assert NEXT_PAGE[1..][1..][2..] == [];
    assert ParsePrimary(NEXT_PAGE[1..], n) == Good(Compares(IdColumn, Gt, n), [], n + 1);
  }

  lemma NextPageTrue(e: Expr, params: seq<Value>, cursor: string, row: Source)
    ensures Eval(Both(e, Compares(IdColumn, Gt, |params|)), params + [Text(cursor)], row) == True <==>
            Eval(e, params + [Text(cursor)], row) == True && Less(cursor, row.id)
  {
    assert Bound(params + [Text(cursor)], |params|) == Text(cursor);
  }

  lemma TrueAppended(e: Expr, params: seq<Value>, v: Value, holds: bool, row: Source)
    requires TrueWhen(e, params, holds, row)
    ensures Eval(e, params + [v], row) == True <==> holds
  {
    assert params <= params + [v];
  }

  /** Appending ` AND id > ?` for a page restricts the rows of any accepted
      filter: no filter's clause lets an OR capture it. */
  lemma CursorCorrect(filter: Option<Json>, cursor: string, row: Source)
    requires FilterClause(filter).Some?
    ensures var c := FilterClause(filter).value;
            var ts, ps := c.tokens + NEXT_PAGE, c.params + [Text(cursor)];
            && ParseWhere(ts, |ps|).Some?
            && (Selects(ts, ps, row) <==>
                FilterHolds(row.render, row.doc, filter) && Less(cursor, row.id))
  {
    var c := FilterClause(filter).value;
    var ts, ps := c.tokens + NEXT_PAGE, c.params + [Text(cursor)];
    hide *;
    var e := FilterParses(filter, row, NEXT_PAGE);
    TrueAppended(e, c.params, Text(cursor), FilterHolds(row.render, row.doc, filter), row);
    NextPageParses(e, |c.params|);
    NextPageTrue(e, c.params, cursor, row);
    WholeClause(ts, ps, Both(e, Compares(IdColumn, Gt, |c.params|)), row);
  }
}
