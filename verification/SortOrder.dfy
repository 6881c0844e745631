/** SQLite can always answer a prepared statement: every list of ORDER BY terms
    arranges every set of rows. */
module SortOrder {
  import opened Prelude
  import opened JsonValues
  import opened JsonPaths
  import opened Sql
  import opened FilterMeaning
  import opened Store
  import opened Pager

  /** Values are weakly ordered: NULL, then numbers by magnitude, then text. */
  lemma BeforeIsOrder(a: Value, b: Value, c: Value)
    ensures !(Before(a, b) && Before(b, a))
    ensures Before(a, b) && Before(b, c) ==> Before(a, c)
    ensures Before(a, c) ==> Before(a, b) || Before(b, c)
  {
    if a.Text? && b.Text? {
      LessTotal(a.s, b.s);
      if c.Text? {
        LessTotal(b.s, c.s);
        LessTotal(a.s, c.s);
        if Less(a.s, b.s) && Less(b.s, c.s) {
          LessTransitive(a.s, b.s, c.s);
        }
        if Less(a.s, c.s) && Less(b.s, a.s) {
          LessTransitive(b.s, a.s, c.s);
        }
      }
    }
  }

  /** One row before another by one term. */
  predicate TermBefore(render: Render, table: Table, term: Term, x: string, y: string)
    requires x in table && y in table
  {
    var a, b := SortValue(render, table, x, term.key), SortValue(render, table, y, term.key);
    if term.desc then Before(b, a) else Before(a, b)
  }

  lemma TermIsOrder(render: Render, table: Table, term: Term, x: string, y: string, z: string)
    requires x in table && y in table && z in table
    ensures !(TermBefore(render, table, term, x, y) && TermBefore(render, table, term, y, x))
    ensures TermBefore(render, table, term, x, y) && TermBefore(render, table, term, y, z) ==> TermBefore(render, table, term, x, z)
    ensures TermBefore(render, table, term, x, z) ==> TermBefore(render, table, term, x, y) || TermBefore(render, table, term, y, z)
  {
    hide SortValue, Before;
    var a, b, c := SortValue(render, table, x, term.key), SortValue(render, table, y, term.key), SortValue(render, table, z, term.key);
    BeforeIsOrder(a, b, c);
    BeforeIsOrder(c, b, a);
    BeforeIsOrder(b, a, a);
  }

  lemma PrecedesCases(render: Render, table: Table, terms: seq<Term>, x: string, y: string)
    requires x in table && y in table && terms != []
    ensures Precedes(render, table, terms, x, y) <==>
            || TermBefore(render, table, terms[0], x, y)
            || (!TermBefore(render, table, terms[0], y, x) && Precedes(render, table, terms[1..], x, y))
  {
    hide SortValue, Before;
  }

  lemma {:induction false} PrecedesTotal(render: Render, table: Table, terms: seq<Term>, x: string, y: string)
    requires x in table && y in table
    ensures Precedes(render, table, terms, x, y) || Precedes(render, table, terms, y, x)
    decreases |terms|
  {
    if terms != [] {
      PrecedesTotal(render, table, terms[1..], x, y);
      hide TermBefore, Precedes;
      PrecedesCases(render, table, terms, x, y);
      PrecedesCases(render, table, terms, y, x);
    }
  }

  lemma {:induction false} PrecedesTransitive(render: Render, table: Table, terms: seq<Term>, x: string, y: string, z: string)
    requires x in table && y in table && z in table
    requires Precedes(render, table, terms, x, y) && Precedes(render, table, terms, y, z)
    ensures Precedes(render, table, terms, x, z)
    decreases |terms|
  {
    if terms != [] {
      hide *;
      PrecedesCases(render, table, terms, x, y);
      PrecedesCases(render, table, terms, y, z);
      PrecedesCases(render, table, terms, x, z);
      TermIsOrder(render, table, terms[0], x, y, z);
      TermIsOrder(render, table, terms[0], z, y, x);
      TermIsOrder(render, table, terms[0], y, x, z);
      TermIsOrder(render, table, terms[0], x, z, y);
      TermIsOrder(render, table, terms[0], z, x, y);
      TermIsOrder(render, table, terms[0], y, z, x);
      if Precedes(render, table, terms[1..], x, y) && Precedes(render, table, terms[1..], y, z) {
        PrecedesTransitive(render, table, terms[1..], x, y, z);
      }
    }
  }

  /** Descending is ascending read backwards. */
  lemma DescendingReverses(render: Render, table: Table, key: SortKey, x: string, y: string)
    requires x in table && y in table
    ensures Precedes(render, table, [Term(key, true)], x, y) <==> Precedes(render, table, [Term(key, false)], y, x)
  {
    PrecedesCases(render, table, [Term(key, true)], x, y);
    PrecedesCases(render, table, [Term(key, false)], y, x);
    hide SortValue, Before;
  }

  /** Putting a row where it belongs in an ordered list. */
  function Place(render: Render, table: Table, terms: seq<Term>, x: string, all: seq<string>): seq<string>
    requires x in table && forall id :: id in all ==> id in table
  {
    if all == [] || Precedes(render, table, terms, x, all[0]) then [x] + all
    else [all[0]] + Place(render, table, terms, x, all[1..])
  }

  lemma InOrderHead(render: Render, table: Table, terms: seq<Term>, h: string, t: seq<string>)
    requires h in table && h !in t && Distinct(t) && InOrder(render, table, terms, t)
    requires forall y :: y in t ==> y in table && Precedes(render, table, terms, h, y)
    ensures InOrder(render, table, terms, [h] + t) && Distinct([h] + t)
  {
    var all := [h] + t;
    hide Precedes;
    forall i, j | 0 <= i < j < |all|
      ensures all[i] in table && all[j] in table && Precedes(render, table, terms, all[i], all[j]) && all[i] != all[j]
    {
      assert all[j] == t[j - 1] && t[j - 1] in t;
      if i > 0 {
        assert all[i] == t[i - 1];
      }
    }
  }

  lemma {:induction false} PlaceOrders(render: Render, table: Table, terms: seq<Term>, x: string, all: seq<string>)
    requires x in table && x !in all && Distinct(all) && InOrder(render, table, terms, all)
    requires forall id :: id in all ==> id in table
    ensures var r := Place(render, table, terms, x, all);
            && InOrder(render, table, terms, r) && Distinct(r)
            && forall id :: id in r <==> id == x || id in all
  {
    hide Precedes;
    if all == [] {
      assert [x] + all == [x];
    } else {
      var h, t := all[0], all[1..];
      assert all == [h] + t;
      assert Distinct(t) && InOrder(render, table, terms, t);
      if Precedes(render, table, terms, x, h) {
        forall y | y in all
          ensures Precedes(render, table, terms, x, y)
        {
          var j :| 0 <= j < |all| && all[j] == y;
          if j > 0 {
            PrecedesTransitive(render, table, terms, x, h, y);
          }
        }
        InOrderHead(render, table, terms, x, all);
      } else {
        PrecedesTotal(render, table, terms, x, h);
        PlaceOrders(render, table, terms, x, t);
        var r := Place(render, table, terms, x, t);
        forall y | y in r
          ensures y in table && Precedes(render, table, terms, h, y) && y != h
        {
          if y != x {
            var j :| 0 <= j < |t| && t[j] == y;
            assert all[j + 1] == y;
          }
        }
        InOrderHead(render, table, terms, h, r);
      }
    }
  }

  lemma {:induction false} ArrangementExists(render: Render, table: Table, ids: set<string>, terms: seq<Term>)
    requires ids <= table.Keys
    ensures exists all :: Arranges(render, table, ids, terms, all)
  {
    hide Precedes;
    if ids == {} {
      assert Arranges(render, table, ids, terms, []);
    } else {
      var x :| x in ids;
      ArrangementExists(render, table, ids - {x}, terms);
      var all :| Arranges(render, table, ids - {x}, terms, all);
      PlaceOrders(render, table, terms, x, all);
      assert Arranges(render, table, ids, terms, Place(render, table, terms, x, all));
    }
  }

  /** Whatever the sort, there is an answer that the query endpoint can be given. */
  lemma AnswerExists(render: Render, table: Table, s: Statement)
    ensures exists ids :: Answers(render, table, s, ids)
  {
    ArrangementExists(render, table, SelectedIds(render, table, s.where), s.order);
    var all :| Arranges(render, table, SelectedIds(render, table, s.where), s.order, all);
    assert Answers(render, table, s, Window(all, ValueOr(s.offset, 0), s.limit));
  }

  // ---- What a sort asks for -------------------------------------------------

  /** A word in lower case, written in any case. */
  predicate Says(text: string, word: string) {
    |text| == |word| && forall i :: 0 <= i < |word| ==> text[i] == word[i] || (text[i] as int) + 32 == word[i] as int
  }

  lemma LowerSays(text: string, word: string)
    requires word in ["asc", "desc"]
    ensures Lower(text) == word <==> Says(text, word)
  {
    assert forall i :: 0 <= i < |word| ==> 'a' <= word[i] <= 'z';
    if Says(text, word) {
      forall i | 0 <= i < |word|
        ensures Lower(text)[i] == word[i]
      {
      }
    } else if Lower(text) == word {
      forall i | 0 <= i < |word|
        ensures text[i] == word[i] || (text[i] as int) + 32 == word[i] as int
      {
        assert Lower(text)[i] == word[i];
      }
    }
  }

  const COLUMNS := ["id", "created_at", "updated_at"]

  /** A term is accepted if its direction is asc or desc in any case and it names a
      column or a field. */
  lemma TermAcceptedExactlyWhen(field: string, dir: string)
    ensures TermOf((field, dir)).Some? <==>
            && (Says(dir, "asc") || Says(dir, "desc"))
            && (field in COLUMNS || exists names :: FieldNames(names) && field == Dotted(names))
  {
    LowerSays(dir, "asc");
    LowerSays(dir, "desc");
    ValidFieldExactlyWhen(field);
    hide Says, Lower, ValidField, FieldNames;
  }

  /** A cursor stands for a place exactly in ascending id order, asked for by no
      term or by that one. */
  lemma CompatibleExactlyWhen(sort: SortSpec)
    ensures Compatible(sort) <==> sort == [] || (|sort| == 1 && sort[0].0 == "id" && Says(sort[0].1, "asc"))
    ensures forall terms :: Orders(sort, terms) ==> (Compatible(sort) <==> terms == [Term(IdKey, false)])
  {
    if |sort| == 1 {
      LowerSays(sort[0].1, "asc");
      LowerSays(sort[0].1, "desc");
    }
    hide Says, Lower;
    forall terms | Orders(sort, terms)
      ensures Compatible(sort) <==> terms == [Term(IdKey, false)]
    {
      if sort != [] {
        assert TermOf(sort[0]) == Some(terms[0]);
      }
    }
  }

  /** What is missing or null comes first, then numbers and booleans by size, then
      text by code points. */
  predicate SortsBelow(render: Render, a: Option<Json>, b: Option<Json>) {
    if b.None? || b.value.Null? then false
    else if a.None? || a.value.Null? then true
    else if Numeric(a.value) && Numeric(b.value) then Size(a.value) < Size(b.value)
    else if Numeric(a.value) || Numeric(b.value) then Numeric(a.value)
    else Less(TextOf(render, a.value), TextOf(render, b.value))
  }

  lemma DirectionSays(dir: string)
    ensures Lower(dir) == "desc" <==> Says(dir, "desc")
    ensures Lower(dir) == "asc" <==> Says(dir, "asc")
  {
    LowerSays(dir, "asc");
    LowerSays(dir, "desc");
  }

  /** What a term sorts by: ids by code points, times as numbers, and a field by
      what its names find in the documents; `desc` reads it backwards. */
  lemma TermSorts(render: Render, table: Table, field: string, dir: string, x: string, y: string)
    requires x in table && y in table && TermOf((field, dir)).Some?
    ensures var (lo, hi) := if Says(dir, "desc") then (y, x) else (x, y);
            TermBefore(render, table, TermOf((field, dir)).value, x, y) <==>
            if field == "id" then Less(lo, hi)
            else if field == "created_at" then table[lo].created < table[hi].created
            else if field == "updated_at" then table[lo].updated < table[hi].updated
            else exists names :: FieldNames(names) && field == Dotted(names) &&
                   SortsBelow(render, Lookup(table[lo].doc, names), Lookup(table[hi].doc, names))
  {
    DirectionSays(dir);
    var (lo, hi) := if Says(dir, "desc") then (y, x) else (x, y);
    if field !in COLUMNS {
      FieldTerm(field, dir);
      hide *;
      TermBetween(render, table, TermOf((field, dir)).value, lo, hi);
      TermBackwards(render, table, TermOf((field, dir)).value, x, y);
      FieldSorts(render, table[lo].doc, table[hi].doc, field);
    } else {
      hide Says, Lower, Less;
    }
  }

  lemma FieldTerm(field: string, dir: string)
    requires TermOf((field, dir)).Some? && field !in COLUMNS
    ensures ValidField(field) && FieldPath(field).Some?
    ensures TermOf((field, dir)).value == Term(PathKey(FieldPath(field).value), Lower(dir) == "desc")
  {
    hide Lower;
  }

  lemma TermBetween(render: Render, table: Table, term: Term, lo: string, hi: string)
    requires lo in table && hi in table && term.key.PathKey?
    ensures TermBefore(render, table, term.(desc := false), lo, hi) <==>
            Before(Extract(render, table[lo].doc, term.key.path), Extract(render, table[hi].doc, term.key.path))
  {
    hide Extract, Before;
  }

  lemma TermBackwards(render: Render, table: Table, term: Term, x: string, y: string)
    requires x in table && y in table
    ensures var (lo, hi) := if term.desc then (y, x) else (x, y);
            TermBefore(render, table, term, x, y) <==> TermBefore(render, table, term.(desc := false), lo, hi)
  {
    hide SortValue, Before;
  }

  lemma FoundBefore(render: Render, a: Option<Json>, b: Option<Json>, v: Value, w: Value)
    requires v == match a case None => NULL case Some(x) => FromJson(render, x)
    requires w == match b case None => NULL case Some(x) => FromJson(render, x)
    ensures Before(v, w) <==> SortsBelow(render, a, b)
  {
    hide Less;
  }

  lemma FieldSorts(render: Render, a: Json, b: Json, field: string)
    requires ValidField(field)
    ensures FieldPath(field).Some?
    ensures Before(Extract(render, a, FieldPath(field).value), Extract(render, b, FieldPath(field).value)) <==>
            exists names :: FieldNames(names) && field == Dotted(names) && SortsBelow(render, Lookup(a, names), Lookup(b, names))
  {
    FieldPathText(field);
    hide *;
    ExtractField(render, a, field);
    ExtractField(render, b, field);
    FieldPathReadsBack(field);
    FoundBefore(render, Lookup(a, Split(field)), Lookup(b, Split(field)),
                Extract(render, a, FieldPath(field).value), Extract(render, b, FieldPath(field).value));
    forall names | FieldNames(names) && field == Dotted(names)
      ensures names == Split(field)
    {
      NamesSplit(names);
    }
  }

  /** Of several terms the first that tells two rows apart decides. */
  lemma {:induction false} FirstDifferenceDecides(render: Render, table: Table, terms: seq<Term>, x: string, y: string)
    requires x in table && y in table
    ensures Precedes(render, table, terms, x, y) <==>
            forall k :: 0 <= k < |terms| && TermBefore(render, table, terms[k], y, x) ==>
              exists j :: 0 <= j < k && TermBefore(render, table, terms[j], x, y)
    decreases |terms|
  {
    if terms != [] {
      var rest := terms[1..];
      FirstDifferenceDecides(render, table, rest, x, y);
      PrecedesCases(render, table, terms, x, y);
      TermIsOrder(render, table, terms[0], x, y, x);
      hide TermBefore, Precedes;
      if Precedes(render, table, terms, x, y) {
        forall k | 0 <= k < |terms| && TermBefore(render, table, terms[k], y, x)
          ensures exists j :: 0 <= j < k && TermBefore(render, table, terms[j], x, y)
        {
          if !TermBefore(render, table, terms[0], x, y) {
            assert rest[k - 1] == terms[k];
            var j :| 0 <= j < k - 1 && TermBefore(render, table, rest[j], x, y);
            assert terms[j + 1] == rest[j];
          }
        }
      } else {
        if !TermBefore(render, table, terms[0], y, x) {
          var k :| 0 <= k < |rest| && TermBefore(render, table, rest[k], y, x)
                   && !exists j :: 0 <= j < k && TermBefore(render, table, rest[j], x, y);
          assert TermBefore(render, table, terms[k + 1], y, x);
          forall j | 0 <= j < k + 1
            ensures !TermBefore(render, table, terms[j], x, y)
          {
            assert j > 0 ==> terms[j] == rest[j - 1];
          }
        }
      }
    }
  }
}
