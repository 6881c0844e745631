/** The two filter engines side by side: the subscription filter, evaluated on
    JSON values, and the query filter, evaluated by SQLite. */
module FilterEngines {
  import opened Prelude
  import opened JsonValues
  import opened JsonPaths
  import opened Sql
  import opened Query
  import opened FilterMeaning
  import opened CompilerProof
  import opened Realtime

  // ---- Where the engines part -----------------------------------------------

  /** A scalar operand and the value found in a document, on which the engines
      differ: null also selects a missing field; a string also selects an array or
      object that prints as it; a number or boolean also selects other JSON values
      of its size. */
  predicate Diverges(render: Render, v: Json, found: Option<Json>) {
    if v.Null? then found.None?
    else
      && found.Some?
      && if v.Str? then (found.value.Arr? || found.value.Obj?) && render(found.value) == v.s
         else Numeric(v) && Numeric(found.value) && found.value != v && Size(found.value) == Size(v)
  }

  /** A list of operands: null in the list matches null live but selects nothing;
      a value not listed is selected when it parts from some operand. */
  predicate DivergesIn(render: Render, vs: seq<Json>, found: Option<Json>) {
    && found.Some?
    && if found.value.Null? then Null in vs
       else found.value !in vs && exists i :: 0 <= i < |vs| && !vs[i].Null? && Diverges(render, vs[i], found)
  }

  predicate ClauseDiverges(render: Render, c: EqClause, doc: Json) {
    match c.1
    case Exactly(v) => Diverges(render, v, Lookup(doc, c.0))
    case OneOf(vs) => DivergesIn(render, vs, Lookup(doc, c.0))
  }

  /** The way a clause diverges: a null listed matches a null live only; every other
      divergence selects a document that does not match live. */
  predicate LiveOnly(c: EqClause, doc: Json) {
    c.1.OneOf? && Lookup(doc, c.0) == Some(Null) && Null in c.1.vs
  }

  lemma DivergesOneWay(render: Render, c: EqClause, doc: Json)
    ensures LiveOnly(c, doc) ==> ClauseDiverges(render, c, doc)
    ensures ClauseDiverges(render, c, doc) ==> (ClauseMatches(c, doc) <==> LiveOnly(c, doc))
  {
  }

  /** The clauses that keep two engines together on a document: none diverges, or
      one holds in neither engine, or two diverge in opposite ways, so that both
      engines refuse the document. */
  ghost predicate Together(render: Render, f: EqFilter, doc: Json) {
    || (forall i :: 0 <= i < |f.clauses| ==> !ClauseDiverges(render, f.clauses[i], doc))
    || (exists i :: 0 <= i < |f.clauses| && !ClauseMatches(f.clauses[i], doc) && !ClauseDiverges(render, f.clauses[i], doc))
    || ((exists i :: 0 <= i < |f.clauses| && LiveOnly(f.clauses[i], doc)) &&
        exists k :: 0 <= k < |f.clauses| && ClauseDiverges(render, f.clauses[k], doc) && !LiveOnly(f.clauses[k], doc))
  }

  /** What a value found in a document reads as; NULL when missing. */
  function Found(render: Render, found: Option<Json>): Value {
    match found
    case None => NULL
    case Some(v) => FromJson(render, v)
  }

  lemma EqualityExactlyWhen(render: Render, v: Json, found: Option<Json>)
    requires ScalarJson(v)
    ensures (EqHolds(Found(render, found), v) <==> found == Some(v)) <==> !Diverges(render, v, found)
  {
    if found.Some? && ScalarJson(found.value) {
      ScalarsCompare(render, found.value, v);
    }
  }

  lemma MembershipExactlyWhen(render: Render, vs: seq<Json>, found: Option<Json>)
    requires forall i :: 0 <= i < |vs| ==> ScalarJson(vs[i])
    ensures (OperatorHolds(Found(render, found), "$in", Arr(vs)) <==> found.Some? && found.value in vs) <==>
            !DivergesIn(render, vs, found)
  {
    var actual := Found(render, found);
    NullSelectsNothing(render, vs, found);
    hide EqHolds, Found, Diverges, ScalarJson;
    forall i | 0 <= i < |vs| && !vs[i].Null?
      ensures (EqHolds(actual, vs[i]) <==> found == Some(vs[i])) <==> !Diverges(render, vs[i], found)
    {
      EqualityExactlyWhen(render, vs[i], found);
    }
    if found.Some? && !found.value.Null? && found.value in vs {
      var i :| 0 <= i < |vs| && vs[i] == found.value;
      Reflexive(render, vs[i]);
    }
  }

  lemma NullSelectsNothing(render: Render, vs: seq<Json>, found: Option<Json>)
    ensures found.None? || found.value.Null? ==> forall i :: 0 <= i < |vs| && !vs[i].Null? ==> !EqHolds(Found(render, found), vs[i])
  {
  }

  lemma Reflexive(render: Render, v: Json)
    requires ScalarJson(v)
    ensures EqHolds(Found(render, Some(v)), v)
  {
    ScalarsCompare(render, v, v);
  }

  lemma OneEntry(fields: map<string, Json>)
    requires |fields| == 1
    ensures var e := Entries(fields)[0]; fields == map[e.0 := e.1]
  {
    var e := Entries(fields)[0];
    forall k | k in fields
      ensures k == e.0
    {
      assert (k, fields[k]) in Entries(fields);
    }
  }

  /** An entry that both engines take: what it means to the query engine. */
  lemma EntryMeans(render: Render, doc: Json, e: Entry)
    requires EqClauseOf(e).Some? && KeyAccepted(e.0, e.1)
    ensures var found, c := Lookup(doc, Split(e.0)), EqClauseOf(e).value;
            && c.0 == Split(e.0)
            && match c.1
               case Exactly(v) => ScalarJson(v) && (KeyHolds(render, doc, e.0, e.1) <==> EqHolds(Found(render, found), v))
               case OneOf(vs) =>
                 && (forall i :: 0 <= i < |vs| ==> ScalarJson(vs[i]))
                 && (KeyHolds(render, doc, e.0, e.1) <==> OperatorHolds(Found(render, found), "$in", Arr(vs)))
  {
    hide EqHolds, FromJson, ScalarValue, Split;
    if e.1.Obj? {
      OneEntry(e.1.fields);
    }
  }

  /** One clause: the engines agree on a document if and only if it does not
      diverge there. */
  lemma ClauseExactlyWhen(render: Render, doc: Json, e: Entry)
    requires EqClauseOf(e).Some? && KeyAccepted(e.0, e.1)
    ensures var c := EqClauseOf(e).value;
            (ClauseMatches(c, doc) <==> KeyHolds(render, doc, e.0, e.1)) <==> !ClauseDiverges(render, c, doc)
  {
    EntryMeans(render, doc, e);
    var found, c := Lookup(doc, Split(e.0)), EqClauseOf(e).value;
    hide EqClauseOf, KeyHolds, KeyAccepted, OperatorHolds, EqHolds, Found, Diverges, DivergesIn, Split, Lookup;
    match c.1 {
      case Exactly(v) => EqualityExactlyWhen(render, v, found);
      case OneOf(vs) => MembershipExactlyWhen(render, vs, found);
    }
  }

  lemma HoldsByEntry(value: Json, row: Source, holds: Entry -> bool)
    requires value.Obj? && forall e :: holds(e) <==> KeyHolds(row.render, row.doc, e.0, e.1)
    ensures FilterHolds(row.render, row.doc, Some(value)) <==>
            forall i :: 0 <= i < |Entries(value.fields)| ==> holds(Entries(value.fields)[i])
  {
    hide KeyHolds, Entries;
    EntriesAll(value.fields, holds);
  }

  lemma AcceptedByEntry(value: Json, i: nat)
    requires value.Obj? && FilterAccepted(Some(value)) && i < |Entries(value.fields)|
    ensures KeyAccepted(Entries(value.fields)[i].0, Entries(value.fields)[i].1)
  {
    hide KeyAccepted;
  }

  lemma ClausesExactlyWhen(value: Json, f: EqFilter, row: Source)
    requires value.Obj? && ParsesTo(Entries(value.fields), f.clauses) && FilterAccepted(Some(value))
    ensures (Matches(f, row.doc) <==> FilterHolds(row.render, row.doc, Some(value))) <==> Together(row.render, f, row.doc)
  {
    hide *;
    var entries := Entries(value.fields);
    var holds := (e: Entry) => KeyHolds(row.render, row.doc, e.0, e.1);
    HoldsByEntry(value, row, holds);
    ClauseByClause(value, f, row, holds);
    MatchesByClause(f, row.doc);
    forall i | 0 <= i < |f.clauses|
      ensures LiveOnly(f.clauses[i], row.doc) ==> ClauseDiverges(row.render, f.clauses[i], row.doc)
      ensures ClauseDiverges(row.render, f.clauses[i], row.doc) ==>
                (ClauseMatches(f.clauses[i], row.doc) <==> LiveOnly(f.clauses[i], row.doc))
    {
      DivergesOneWay(row.render, f.clauses[i], row.doc);
    }
    TogetherWhen(row.render, f, row.doc, seq(|f.clauses|, i requires 0 <= i < |f.clauses| => holds(entries[i])));
  }

  /** Clause by clause, with what the query engine says of each. */
  lemma TogetherWhen(render: Render, f: EqFilter, doc: Json, holds: seq<bool>)
    requires |holds| == |f.clauses|
    requires forall i :: 0 <= i < |holds| ==> ((ClauseMatches(f.clauses[i], doc) <==> holds[i]) <==> !ClauseDiverges(render, f.clauses[i], doc))
    requires forall i :: 0 <= i < |holds| ==> (LiveOnly(f.clauses[i], doc) ==> ClauseDiverges(render, f.clauses[i], doc))
    requires forall i :: 0 <= i < |holds| ==>
               (ClauseDiverges(render, f.clauses[i], doc) ==> (ClauseMatches(f.clauses[i], doc) <==> LiveOnly(f.clauses[i], doc)))
    ensures ((forall i :: 0 <= i < |holds| ==> ClauseMatches(f.clauses[i], doc)) <==> (forall i :: 0 <= i < |holds| ==> holds[i])) <==>
            Together(render, f, doc)
  {
    hide ClauseMatches, ClauseDiverges, LiveOnly;
  }

  lemma MatchesByClause(f: EqFilter, doc: Json)
    ensures Matches(f, doc) <==> forall i :: 0 <= i < |f.clauses| ==> ClauseMatches(f.clauses[i], doc)
  {
    hide ClauseMatches;
  }

  lemma ClauseByClause(value: Json, f: EqFilter, row: Source, holds: Entry -> bool)
    requires value.Obj? && ParsesTo(Entries(value.fields), f.clauses) && FilterAccepted(Some(value))
    requires forall e :: holds(e) <==> KeyHolds(row.render, row.doc, e.0, e.1)
    ensures |f.clauses| == |Entries(value.fields)|
    ensures forall i :: 0 <= i < |f.clauses| ==>
              ((ClauseMatches(f.clauses[i], row.doc) <==> holds(Entries(value.fields)[i])) <==>
               !ClauseDiverges(row.render, f.clauses[i], row.doc))
  {
    hide KeyAccepted, KeyHolds, ClauseMatches, ClauseDiverges, EqClauseOf, Entries, FilterAccepted;
    forall i | 0 <= i < |f.clauses|
      ensures (ClauseMatches(f.clauses[i], row.doc) <==> holds(Entries(value.fields)[i])) <==>
              !ClauseDiverges(row.render, f.clauses[i], row.doc)
    {
      AcceptedByEntry(value, i);
      ClauseExactlyWhen(row.render, row.doc, Entries(value.fields)[i]);
    }
  }

  /** A filter that both engines take: they agree on a document if and only if no
      clause diverges there, or some clause holds in neither of them, or two clauses
      diverge in opposite ways. */
  lemma EnginesAgreeExactlyWhen(value: Json, f: EqFilter, row: Source)
    requires value.Obj? && ParsesTo(Entries(value.fields), f.clauses) && FilterClause(Some(value)).Some?
    ensures var c := FilterClause(Some(value)).value;
            (Matches(f, row.doc) <==> Selects(c.tokens, c.params, row)) <==> Together(row.render, f, row.doc)
  {
    hide *;
    CompilerAccepts(Some(value));
    CompilerCorrect(Some(value), row);
    ClausesExactlyWhen(value, f, row);
  }

  // ---- Plain values ---------------------------------------------------------

  /** Strings and 64-bit integers. */
  predicate Plain(v: Json) {
    v.Str? || (v.Num? && v.n.Int? && -0x8000_0000_0000_0000 <= v.n.i < 0x8000_0000_0000_0000)
  }

  predicate PlainMatch(m: EqMatch) {
    match m
    case Exactly(v) => Plain(v)
    case OneOf(vs) => forall i :: 0 <= i < |vs| ==> Plain(vs[i])
  }

  predicate PlainAt(doc: Json, path: seq<string>) {
    var v := Lookup(doc, path);
    v.None? || Plain(v.value)
  }

  lemma PlainNeverDiverges(render: Render, c: EqClause, doc: Json)
    requires PlainMatch(c.1) && PlainAt(doc, c.0)
    ensures !ClauseDiverges(render, c, doc)
  {
  }

  lemma PlainIsAccepted(e: Entry)
    requires EqClauseOf(e).Some? && PlainMatch(EqClauseOf(e).value.1)
    ensures KeyAccepted(e.0, e.1)
  {
    if e.1.Obj? {
      OneEntry(e.1.fields);
    }
  }

  /** The engines agree: a subscription filter over strings and 64-bit integers,
      on a document that has only such values, or none, at the filtered fields,
      is also an accepted query filter, and matches exactly the documents the
      compiled clause selects. */
  lemma EnginesAgree(value: Json, f: EqFilter, row: Source)
    requires value.Obj? && ParsesTo(Entries(value.fields), f.clauses)
    requires forall i :: 0 <= i < |f.clauses| ==> PlainMatch(f.clauses[i].1) && PlainAt(row.doc, f.clauses[i].0)
    ensures FilterClause(Some(value)).Some?
    ensures var c := FilterClause(Some(value)).value;
            Matches(f, row.doc) <==> Selects(c.tokens, c.params, row)
  {
    PlainAccepted(value, f);
    hide *;
    CompilerAccepts(Some(value));
    EnginesAgreeExactlyWhen(value, f, row);
    forall i | 0 <= i < |f.clauses|
      ensures !ClauseDiverges(row.render, f.clauses[i], row.doc)
    {
      PlainNeverDiverges(row.render, f.clauses[i], row.doc);
    }
    NoneDiverges(row.render, f, row.doc);
  }

  lemma NoneDiverges(render: Render, f: EqFilter, doc: Json)
    requires forall i :: 0 <= i < |f.clauses| ==> !ClauseDiverges(render, f.clauses[i], doc)
    ensures Together(render, f, doc)
  {
    hide ClauseDiverges, ClauseMatches, LiveOnly;
  }

  lemma PlainAccepted(value: Json, f: EqFilter)
    requires value.Obj? && ParsesTo(Entries(value.fields), f.clauses)
    requires forall i :: 0 <= i < |f.clauses| ==> PlainMatch(f.clauses[i].1)
    ensures FilterAccepted(Some(value))
  {
    var entries := Entries(value.fields);
    var accepted := (e: Entry) => KeyAccepted(e.0, e.1);
    hide KeyAccepted, PlainMatch, EqClauseOf, Entries;
    forall i | 0 <= i < |entries|
      ensures accepted(entries[i])
    {
      PlainIsAccepted(entries[i]);
    }
    EntriesAll(value.fields, accepted);
  }

  /** An example of a divergence: a null operand selects documents without
      the field, yet matches none of them live. */
  lemma EnginesDifferOnNull(row: Source)
    requires row.doc == Obj(map[])
    ensures var value := Obj(map["a" := Null]);
            var f := EqFilter([(["a"], Exactly(Null))]);
            && ParsesTo(Entries(value.fields), f.clauses)
            && FilterClause(Some(value)).Some?
            && Selects(FilterClause(Some(value)).value.tokens, FilterClause(Some(value)).value.params, row)
            && !Matches(f, row.doc)
  {
    var value := Obj(map["a" := Null]);
    var f := EqFilter([(["a"], Exactly(Null))]);
    var e := Entries(value.fields)[0];
    assert |value.fields| == 1;
    assert e == ("a", Null);
    assert Split("a") == ["a"] by {
      assert "a"[1..] == "" && Split("") == [""];
      assert ['a'] + Split("")[0] == "a" && Split("")[1..] == [];
    }
    assert ValidField("a");
    assert FieldAccepted("a", Null);
    CompilerAccepts(Some(value));
    CompilerCorrect(Some(value), row);
    assert Lookup(row.doc, ["a"]) == None;
    assert FieldHolds(row.render, row.doc, "a", Null);
    assert !ClauseMatches(f.clauses[0], row.doc);
  }
}
