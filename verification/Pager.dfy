/** The query endpoint: the statement it prepares, the pages it answers, the
    count, and the walk a client makes along `next_cursor`. */
module Pager {
  import opened Prelude
  import opened JsonValues
  import opened JsonPaths
  import opened Sql
  import opened Store
  import opened Query
  import opened FilterMeaning
  import opened CompilerProof
  import opened Projection

  function ValueOr<T>(o: Option<T>, default: T): T {
    if o.Some? then o.value else default
  }

  type SortSpec = seq<(string, string)>

  datatype Request = Request(filter: Option<Json>, sort: SortSpec, limit: Option<nat>, offset: Option<nat>,
                             cursor: Option<string>, projection: Option<seq<string>>)

  /** An ORDER BY term. */
  datatype SortKey = IdKey | CreatedKey | UpdatedKey | PathKey(path: string)

  datatype Term = Term(key: SortKey, desc: bool)

  datatype Statement = Statement(where: Clause, order: seq<Term>, limit: nat, offset: Option<nat>)

  datatype Page = Page(items: seq<Record>, next: Option<string>)

  // ---- Sorting --------------------------------------------------------------

  function Lower(s: string): (r: string)
    ensures |r| == |s|
  {
    seq(|s|, i requires 0 <= i < |s| => if 'A' <= s[i] <= 'Z' then (s[i] as int + 32) as char else s[i])
  }

  function KeyOf(field: string): Option<SortKey> {
    if field == "id" then Some(IdKey)
    else if field == "created_at" then Some(CreatedKey)
    else if field == "updated_at" then Some(UpdatedKey)
    else
      match FieldPath(field)
      case None => None
      case Some(path) => Some(PathKey(path))
  }

  function TermOf(spec: (string, string)): Option<Term> {
    if Lower(spec.1) != "asc" && Lower(spec.1) != "desc" then None
    else
      match KeyOf(spec.0)
      case None => None
      case Some(key) => Some(Term(key, Lower(spec.1) == "desc"))
  }

  /** Whether the listed terms, or the default, make up the order. */
  predicate Orders(sort: SortSpec, terms: seq<Term>) {
    if sort == [] then terms == [Term(IdKey, false)]
    else |terms| == |sort| && forall i :: 0 <= i < |sort| ==> TermOf(sort[i]) == Some(terms[i])
  }

  predicate SortAccepted(sort: SortSpec) {
    forall i :: 0 <= i < |sort| ==> TermOf(sort[i]).Some?
  }

  method CompileSort(sort: SortSpec) returns (r: Option<seq<Term>>)
    ensures r.Some? <==> SortAccepted(sort)
    ensures r.Some? ==> Orders(sort, r.value)
  {
    if sort == [] {
      return Some([Term(IdKey, false)]);
    }
    var terms := [];
    for i := 0 to |sort|
      invariant |terms| == i
      invariant forall j :: 0 <= j < i ==> TermOf(sort[j]) == Some(terms[j])
    {
      var (path, dir) := sort[i];
      var desc;
      if Lower(dir) == "asc" {
        desc := false;
      } else if Lower(dir) == "desc" {
        desc := true;
      } else {
        return None;
      }
      var key;
      if path == "id" || path == "created_at" || path == "updated_at" {
        key := if path == "id" then IdKey else if path == "created_at" then CreatedKey else UpdatedKey;
      } else {
        var jsonPath := FieldToJsonPath(path);
        if jsonPath.None? {
          return None;
        }
        key := PathKey(jsonPath.value);
      }
      terms := terms + [Term(key, desc)];
    }
    return Some(terms);
  }

  /** The orders in which a cursor can stand for a place: ascending ids. */
  predicate Compatible(sort: SortSpec) {
    sort == [] || (|sort| == 1 && sort[0].0 == "id" && Lower(sort[0].1) == "asc")
  }

  // ---- What SQLite answers --------------------------------------------------

  function SortValue(render: Render, table: Table, id: string, key: SortKey): Value
    requires id in table
  {
    match key
    case IdKey => Text(id)
    case CreatedKey => Integer(table[id].created)
    case UpdatedKey => Integer(table[id].updated)
    case PathKey(path) => Extract(render, table[id].doc, path)
  }

  /** NULL sorts before everything else. */
  predicate Before(a: Value, b: Value) {
    if a == NULL || b == NULL then a == NULL && b != NULL else Below(a, b)
  }

  /** One row may stand before another under the terms. */
  predicate Precedes(render: Render, table: Table, terms: seq<Term>, x: string, y: string)
    requires x in table && y in table
  {
    terms == [] ||
    var a, b := SortValue(render, table, x, terms[0].key), SortValue(render, table, y, terms[0].key);
    var (lo, hi) := if terms[0].desc then (b, a) else (a, b);
    Before(lo, hi) || (!Before(hi, lo) && Precedes(render, table, terms[1..], x, y))
  }

  predicate Distinct(ids: seq<string>) {
    forall i, j :: 0 <= i < j < |ids| ==> ids[i] != ids[j]
  }

  predicate InOrder(render: Render, table: Table, terms: seq<Term>, ids: seq<string>) {
    forall i, j :: 0 <= i < j < |ids| ==>
      ids[i] in table && ids[j] in table && Precedes(render, table, terms, ids[i], ids[j])
  }

  function Window<T>(all: seq<T>, offset: nat, limit: nat): (r: seq<T>)
    ensures |r| == Max(0, Min(limit, |all| - offset))
    ensures forall i :: 0 <= i < |r| ==> r[i] == all[offset + i]
  {
    if offset >= |all| then [] else all[offset..Min(offset + limit, |all|)]
  }

  function SelectedIds(render: Render, table: Table, where: Clause): (r: set<string>)
    ensures forall id :: id in r <==> id in table && Selects(where.tokens, where.params, Source(render, id, table[id].doc))
  {
    set id | id in table && Selects(where.tokens, where.params, Source(render, id, table[id].doc))
  }

  /** All the ids, once each, in an order the terms allow. */
  ghost predicate Arranges(render: Render, table: Table, ids: set<string>, terms: seq<Term>, all: seq<string>) {
    && Distinct(all) && (forall id :: id in all <==> id in ids)
    && InOrder(render, table, terms, all)
  }

  /** SQLite may give rows that compare equal in any order. */
  ghost predicate Answers(render: Render, table: Table, s: Statement, ids: seq<string>) {
    exists all ::
      && Arranges(render, table, SelectedIds(render, table, s.where), s.order, all)
      && ids == Window(all, ValueOr(s.offset, 0), s.limit)
  }

  /** The one order ascending ids allow. */
  lemma ById(render: Render, table: Table, x: string, y: string)
    requires x in table && y in table && x != y && Precedes(render, table, [Term(IdKey, false)], x, y)
    ensures Less(x, y)
  {
    LessTotal(x, y);
    hide Less;
    assert Before(Text(x), Text(y)) || !Before(Text(y), Text(x));
  }

  lemma ByIdIsSorted(render: Render, table: Table, ids: set<string>, all: seq<string>)
    requires Arranges(render, table, ids, [Term(IdKey, false)], all)
    ensures all == Sorted(ids)
  {
    hide Precedes, Sorted, Less;
    forall i, j | 0 <= i < j < |all|
      ensures Less(all[i], all[j])
    {
      ById(render, table, all[i], all[j]);
    }
    AscendingSame(all, Sorted(ids));
  }

  // ---- What a request asks for ----------------------------------------------

  predicate UsesCursor(req: Request) {
    Compatible(req.sort) && req.cursor.Some?
  }

  predicate Accepted(req: Request) {
    FilterAccepted(req.filter) && SortAccepted(req.sort)
  }

  /** A document is asked for if it satisfies the filter and, under a cursor,
      lies beyond it. */
  predicate Wanted(render: Render, req: Request, id: string, doc: Json) {
    FilterHolds(render, doc, req.filter) && (UsesCursor(req) ==> Less(req.cursor.value, id))
  }

  function WantedIds(render: Render, table: Table, req: Request): (r: set<string>)
    ensures forall id :: id in r <==> id in table && Wanted(render, req, id, table[id].doc)
  {
    set id | id in table && Wanted(render, req, id, table[id].doc)
  }

  /** 50 unless asked otherwise, at most the configured maximum, at least 1. */
  function PageSize(max: nat, req: Request): (n: nat)
    ensures n >= 1 && (max >= 1 ==> n <= max)
    ensures 1 <= ValueOr(req.limit, 50) <= max ==> n == ValueOr(req.limit, 50)
    ensures 1 <= max < ValueOr(req.limit, 50) ==> n == max
    ensures max == 0 || req.limit == Some(0) ==> n == 1
  {
    Max(Min(ValueOr(req.limit, 50), max), 1)
  }

  /** A cursor replaces the offset. */
  function Skipped(req: Request): nat {
    if UsesCursor(req) then 0 else ValueOr(req.offset, 0)
  }

  // ---- Preparing and answering ----------------------------------------------

  /** What a prepared statement selects, orders and cuts. */
  ghost predicate Means(max: nat, req: Request, s: Statement) {
    && (forall row: Source :: Selects(s.where.tokens, s.where.params, row) <==> Wanted(row.render, req, row.id, row.doc))
    && Orders(req.sort, s.order)
    && s.limit == PageSize(max, req)
    && ValueOr(s.offset, 0) == Skipped(req)
  }

  lemma WhereMeans(req: Request)
    requires FilterClause(req.filter).Some?
    ensures var c := FilterClause(req.filter).value;
            var where := if UsesCursor(req) then Clause(c.tokens + NEXT_PAGE, c.params + [Text(req.cursor.value)]) else c;
            forall row: Source :: Selects(where.tokens, where.params, row) <==> Wanted(row.render, req, row.id, row.doc)
  {
    var c := FilterClause(req.filter).value;
    var where := if UsesCursor(req) then Clause(c.tokens + NEXT_PAGE, c.params + [Text(req.cursor.value)]) else c;
    hide FilterClause, FilterHolds, Selects, ParseWhere, Compatible;
    forall row: Source
      ensures Selects(where.tokens, where.params, row) <==> Wanted(row.render, req, row.id, row.doc)
    {
      if UsesCursor(req) {
        CursorCorrect(req.filter, req.cursor.value, row);
      } else {
        CompilerCorrect(req.filter, row);
      }
    }
  }

  method Prepare(max: nat, req: Request) returns (r: Option<Statement>)
    ensures r.Some? <==> Accepted(req)
    ensures r.Some? ==> Means(max, req, r.value)
  {
    CompilerAccepts(req.filter);
    hide FilterClause, FilterAccepted, SortAccepted, Orders, Selects, Wanted;
    var where := CompileFilter(req.filter);
    if where.None? {
      return None;
    }
    var order := CompileSort(req.sort);
    if order.None? {
      return None;
    }
    var limit := Max(Min(if req.limit.Some? then req.limit.value else 50, max), 1);
    var offset := if req.offset.Some? then req.offset.value else 0;
    WhereMeans(req);
    var Clause(sql, params) := where.value;
    if Compatible(req.sort) && req.cursor.Some? {
      sql := sql + [And, Id, Rel(Gt), Param];
      params := params + [Text(req.cursor.value)];
      return Some(Statement(Clause(sql, params), order.value, limit, None));
    }
    return Some(Statement(Clause(sql, params), order.value, limit, Some(offset)));
  }

  /** A row as it is returned, projected when the request lists paths. */
  ghost predicate IsItem(table: Table, projection: Option<seq<string>>, item: Record) {
    && item.id in table
    && item.created == table[item.id].created && item.updated == table[item.id].updated
    && (projection.None? ==> item.doc == table[item.id].doc)
    && (projection.Some? ==> IsProjection(table[item.id].doc, PathsOf(projection.value), item.doc))
  }

  function Ids(items: seq<Record>): (r: seq<string>)
    ensures |r| == |items| && forall i :: 0 <= i < |r| ==> r[i] == items[i].id
  {
    seq(|items|, i requires 0 <= i < |items| => items[i].id)
  }

  /** A cursor leads on from every full page, and only from those. */
  predicate LeadsOn(max: nat, req: Request, page: Page) {
    page.next ==
    if Compatible(req.sort) && |page.items| == PageSize(max, req) then Some(page.items[|page.items| - 1].id) else None
  }

  method GatherPage(max: nat, req: Request, table: Table, rows: seq<string>) returns (page: Page)
    requires forall id :: id in rows ==> id in table
    ensures Ids(page.items) == rows
    ensures forall i :: 0 <= i < |page.items| ==> IsItem(table, req.projection, page.items[i])
    ensures LeadsOn(max, req, page)
  {
    var items: seq<Record> := [];
    for i := 0 to |rows|
      invariant |items| == i
      invariant forall j :: 0 <= j < i ==> items[j].id == rows[j] && IsItem(table, req.projection, items[j])
    {
      assert rows[i] in rows;
      var row := table[rows[i]];
      var doc := row.doc;
      if req.projection.Some? {
        doc := ApplyProjection(doc, req.projection.value);
      }
      items := items + [Record(rows[i], row.created, row.updated, doc)];
    }
    var next := None;
    var limit := Max(Min(if req.limit.Some? then req.limit.value else 50, max), 1);
    if Compatible(req.sort) && |items| == limit {
      next := Some(items[|items| - 1].id);
    }
    return Page(items, next);
  }

  /** All the ids asked for, in the order asked for. */
  ghost predicate Listing(render: Render, table: Table, req: Request, all: seq<string>) {
    exists terms :: Orders(req.sort, terms) && Arranges(render, table, WantedIds(render, table, req), terms, all)
  }

  /** A page of the documents asked for, in the order asked for. */
  ghost predicate PageFor(render: Render, max: nat, table: Table, req: Request, page: Page) {
    && (exists all :: Listing(render, table, req, all) && Ids(page.items) == Window(all, Skipped(req), PageSize(max, req)))
    && (forall i :: 0 <= i < |page.items| ==> IsItem(table, req.projection, page.items[i]))
    && LeadsOn(max, req, page)
  }

  lemma AnswersMean(render: Render, max: nat, table: Table, req: Request, s: Statement, ids: seq<string>) returns (all: seq<string>)
    requires Means(max, req, s) && Answers(render, table, s, ids)
    ensures Listing(render, table, req, all) && ids == Window(all, Skipped(req), PageSize(max, req))
    ensures forall id :: id in ids ==> id in table
  {
    all :| && Arranges(render, table, SelectedIds(render, table, s.where), s.order, all)
           && ids == Window(all, ValueOr(s.offset, 0), s.limit);
    hide Selects, Wanted, Orders, InOrder, PageSize, Skipped, ValueOr;
    var wanted := WantedIds(render, table, req);
    assert SelectedIds(render, table, s.where) == wanted by {
      forall id | id in table
        ensures id in SelectedIds(render, table, s.where) <==> id in wanted
      {
        var row := Source(render, id, table[id].doc);
        assert Selects(s.where.tokens, s.where.params, row) <==> Wanted(row.render, req, row.id, row.doc);
      }
    }
    forall id | id in ids
      ensures id in table
    {
      assert id in all;
    }
  }

  lemma NoTable(render: Render, max: nat, req: Request, terms: seq<Term>)
    requires Orders(req.sort, terms)
    ensures PageFor(render, max, map[], req, Page([], None))
  {
    assert Arranges(render, map[], WantedIds(render, map[], req), terms, []);
    assert Listing(render, map[], req, []);
    assert Ids([]) == [];
  }

  /** The query endpoint. `sqlite` answers statements; a collection that was
      never written has no table. */
  method RunQuery(render: Render, max: nat, table: Option<Table>, req: Request, sqlite: (Table, Statement) -> seq<string>)
    returns (r: Option<Page>)
    requires forall t: Table, s: Statement :: Answers(render, t, s, sqlite(t, s))
    ensures r.Some? <==> Accepted(req)
    ensures r.Some? ==> PageFor(render, max, ValueOr(table, map[]), req, r.value)
  {
    var s := Prepare(max, req);
    if s.None? {
      return None;
    }
    assert Orders(req.sort, s.value.order);
    hide Answers, Accepted, Listing, Means, IsItem, LeadsOn, Window, Orders;
    if table.None? {
      NoTable(render, max, req, s.value.order);
      return Some(Page([], None));
    }
    var rows := sqlite(table.value, s.value);
    ghost var all := AnswersMean(render, max, table.value, req, s.value, rows);
    var page := GatherPage(max, req, table.value, rows);
    return Some(page);
  }

  /** The count endpoint: how many documents satisfy the filter. */
  method Count(render: Render, table: Option<Table>, filter: Option<Json>) returns (r: Option<nat>)
    ensures r.Some? <==> FilterAccepted(filter)
    ensures r.Some? ==> r.value == |HoldingIds(render, ValueOr(table, map[]), filter)|
  {
    CompilerAccepts(filter);
    hide FilterClause, FilterAccepted, FilterHolds, Selects;
    var where := CompileFilter(filter);
    if where.None? {
      return None;
    }
    if table.None? {
      return Some(0);
    }
    forall id | id in table.value
      ensures Selects(where.value.tokens, where.value.params, Source(render, id, table.value[id].doc)) <==>
              FilterHolds(render, table.value[id].doc, filter)
    {
      CompilerCorrect(filter, Source(render, id, table.value[id].doc));
    }
    var selected := SelectedIds(render, table.value, where.value);
    assert selected == HoldingIds(render, table.value, filter);
    return Some(|selected|);
  }

  function HoldingIds(render: Render, table: Table, filter: Option<Json>): (r: set<string>)
    ensures forall id :: id in r <==> id in table && FilterHolds(render, table[id].doc, filter)
  {
    set id | id in table && FilterHolds(render, table[id].doc, filter)
  }

  // ---- Pages by id ----------------------------------------------------------

  lemma CompatibleTerms(sort: SortSpec, terms: seq<Term>)
    requires Compatible(sort) && Orders(sort, terms)
    ensures terms == [Term(IdKey, false)]
  {
    if sort != [] {
      assert TermOf(sort[0]) == Some(Term(IdKey, false));
    }
  }

  /** In id order a page is determined: the ids asked for, ascending, from the
      offset on. */
  lemma PageById(render: Render, max: nat, table: Table, req: Request, page: Page)
    requires PageFor(render, max, table, req, page) && Compatible(req.sort)
    ensures Ids(page.items) == Window(Sorted(WantedIds(render, table, req)), Skipped(req), PageSize(max, req))
  {
    hide Compatible, Orders, Arranges, IsItem, LeadsOn, Wanted, Window, PageSize, Skipped;
    var all :| Listing(render, table, req, all) && Ids(page.items) == Window(all, Skipped(req), PageSize(max, req));
    var terms :| Orders(req.sort, terms) && Arranges(render, table, WantedIds(render, table, req), terms, all);
    CompatibleTerms(req.sort, terms);
    ByIdIsSorted(render, table, WantedIds(render, table, req), all);
  }

  /** A page from the start of the ids asked for: ascending, and it leaves out
      only ids beyond its last, and those only when it is full. */
  lemma FirstPage(render: Render, max: nat, table: Table, req: Request, page: Page)
    requires PageFor(render, max, table, req, page) && Compatible(req.sort) && Skipped(req) == 0
    ensures var ids := Ids(page.items);
            && Ascending(ids) && |ids| <= PageSize(max, req)
            && (forall id :: id in ids ==> id in WantedIds(render, table, req))
            && (forall id :: id in WantedIds(render, table, req) && id !in ids ==>
                  |ids| == PageSize(max, req) && Less(ids[|ids| - 1], id))
  {
    PageById(render, max, table, req, page);
    hide *;
    FirstWindow(WantedIds(render, table, req), PageSize(max, req));
  }

  /** The first `n` of some ids: what is left out lies beyond the last. */
  lemma FirstWindow(wanted: set<string>, n: nat)
    requires n >= 1
    ensures var ids := Window(Sorted(wanted), 0, n);
            && Ascending(ids) && |ids| <= n
            && (forall id :: id in ids ==> id in wanted)
            && (forall id :: id in wanted && id !in ids ==> |ids| == n && Less(ids[|ids| - 1], id))
  {
    var all := Sorted(wanted);
    var ids := Window(all, 0, n);
    assert ids == all[..Min(n, |all|)];
    hide Sorted, Less, Window;
    forall j | 0 <= j < |ids|
      ensures all[j] in ids
    {
      assert ids[j] == all[j];
    }
    forall id | id in wanted && id !in ids
      ensures |ids| == n && Less(ids[|ids| - 1], id)
    {
      var i :| 0 <= i < |all| && all[i] == id;
      assert i >= |ids|;
    }
  }

  // ---- Walking along the cursor ---------------------------------------------

  /** One call of a walk: the collection as it was at that moment, and the page. */
  datatype Visit = Visit(table: Table, page: Page)

  function Reached(visits: seq<Visit>): Option<string> {
    if visits == [] then None else visits[|visits| - 1].page.next
  }

  /** Calls of one request, each with the cursor the one before returned, as long
      as it returned one. Any writes may fall between the calls. */
  ghost predicate Walks(render: Render, max: nat, req: Request, visits: seq<Visit>) {
    visits == [] ||
    var n := |visits| - 1;
    && Walks(render, max, req, visits[..n])
    && (n > 0 ==> Reached(visits[..n]).Some?)
    && PageFor(render, max, visits[n].table, req.(cursor := Reached(visits[..n])), visits[n].page)
  }

  /** A walk starts at the first document in id order. */
  predicate FromStart(req: Request) {
    Compatible(req.sort) && req.cursor.None? && ValueOr(req.offset, 0) == 0
  }

  function Gathered(visits: seq<Visit>): seq<string> {
    if visits == [] then [] else Gathered(visits[..|visits| - 1]) + Ids(visits[|visits| - 1].page.items)
  }

  predicate Finished(visits: seq<Visit>) {
    visits != [] && Reached(visits).None?
  }

  /** The document exists and satisfies the filter at every call. */
  predicate Steady(render: Render, req: Request, visits: seq<Visit>, id: string) {
    forall i :: 0 <= i < |visits| ==>
      id in visits[i].table && FilterHolds(render, visits[i].table[id].doc, req.filter)
  }

  /** What is known after each call. */
  ghost predicate WalkInv(render: Render, req: Request, visits: seq<Visit>) {
    && Ascending(Gathered(visits))
    && (Reached(visits).Some? ==>
          && Gathered(visits) != []
          && Gathered(visits)[|Gathered(visits)| - 1] == Reached(visits).value)
    && (forall id :: Steady(render, req, visits, id) ==>
          id in Gathered(visits) || visits == [] || (Reached(visits).Some? && Less(Reached(visits).value, id)))
  }

  lemma AscendingConcat(a: seq<string>, b: seq<string>)
    requires Ascending(a) && Ascending(b)
    requires a != [] ==> forall k :: k in b ==> Less(a[|a| - 1], k)
    ensures Ascending(a + b)
  {
    var c := a + b;
    forall i, j | 0 <= i < j < |c|
      ensures Less(c[i], c[j])
    {
      if i < |a| <= j {
        assert c[j] in b;
        if i < |a| - 1 {
          LessTransitive(c[i], a[|a| - 1], c[j]);
        }
      }
    }
  }

  /** The call that continues a walk. */
  lemma NextCall(render: Render, max: nat, req: Request, reached: Option<string>, visit: Visit)
    requires FromStart(req) && PageFor(render, max, visit.table, req.(cursor := reached), visit.page)
    ensures var ids := Ids(visit.page.items);
            && Ascending(ids)
            && (visit.page.next.Some? <==> |ids| == PageSize(max, req))
            && (visit.page.next.Some? ==> ids != [] && visit.page.next.value == ids[|ids| - 1])
            && (forall id :: id in ids ==> reached.Some? ==> Less(reached.value, id))
            && (forall id :: id in visit.table && FilterHolds(render, visit.table[id].doc, req.filter)
                             && (reached.Some? ==> Less(reached.value, id)) && id !in ids ==>
                  visit.page.next.Some? && Less(visit.page.next.value, id))
            && (forall id :: id in ids ==> id in visit.table && FilterHolds(render, visit.table[id].doc, req.filter))
            && |ids| <= PageSize(max, req)
  {
    var call := req.(cursor := reached);
    FirstPage(render, max, visit.table, call, visit.page);
    hide FilterHolds, IsItem, Listing, Window;
    assert PageSize(max, call) == PageSize(max, req);
  }

  lemma SteadyBefore(render: Render, req: Request, visits: seq<Visit>, id: string)
    requires visits != [] && Steady(render, req, visits, id)
    ensures Steady(render, req, visits[..|visits| - 1], id)
    ensures var v := visits[|visits| - 1]; id in v.table && FilterHolds(render, v.table[id].doc, req.filter)
  {
    hide FilterHolds;
  }

  lemma GatheredGrows(visits: seq<Visit>)
    requires visits != []
    ensures var n := |visits| - 1;
            && Gathered(visits) == Gathered(visits[..n]) + Ids(visits[n].page.items)
            && Reached(visits) == visits[n].page.next
  {
  }

  lemma WalkAscends(gathered: seq<string>, reached: Option<string>, ids: seq<string>)
    requires Ascending(gathered) && Ascending(ids)
    requires if reached.Some? then gathered != [] && gathered[|gathered| - 1] == reached.value else gathered == []
    requires forall id :: id in ids ==> reached.Some? ==> Less(reached.value, id)
    ensures Ascending(gathered + ids)
  {
    hide Ascending, Less;
    AscendingConcat(gathered, ids);
  }

  /** What the invariant says of a walk, given what it has gathered and reached. */
  ghost predicate Covers(render: Render, req: Request, visits: seq<Visit>, gathered: seq<string>, reached: Option<string>) {
    forall id :: Steady(render, req, visits, id) ==>
      id in gathered || visits == [] || (reached.Some? && Less(reached.value, id))
  }

  lemma WalkInvIs(render: Render, req: Request, visits: seq<Visit>)
    ensures var g, r := Gathered(visits), Reached(visits);
            WalkInv(render, req, visits) <==>
            && Ascending(g)
            && (r.Some? ==> g != [] && g[|g| - 1] == r.value)
            && Covers(render, req, visits, g, r)
  {
    hide Gathered, Reached, Ascending, Steady, Less;
  }

  lemma WalkCovers(render: Render, req: Request, visits: seq<Visit>, gathered: seq<string>, reached: Option<string>)
    requires visits != []
    requires Covers(render, req, visits[..|visits| - 1], gathered, reached) && (|visits| > 1 ==> reached.Some?)
    requires |visits| == 1 ==> reached.None?
    requires var v := visits[|visits| - 1];
             forall id :: id in v.table && FilterHolds(render, v.table[id].doc, req.filter)
                          && (reached.Some? ==> Less(reached.value, id)) && id !in Ids(v.page.items) ==>
               v.page.next.Some? && Less(v.page.next.value, id)
    ensures var v := visits[|visits| - 1];
            Covers(render, req, visits, gathered + Ids(v.page.items), v.page.next)
  {
    hide FilterHolds, Steady, Less, Ids;
    var v := visits[|visits| - 1];
    forall id | Steady(render, req, visits, id)
      ensures id in gathered + Ids(v.page.items) || (v.page.next.Some? && Less(v.page.next.value, id))
    {
      SteadyBefore(render, req, visits, id);
    }
  }

  lemma WalkStep(render: Render, max: nat, req: Request, visits: seq<Visit>)
    requires FromStart(req) && visits != [] && WalkInv(render, req, visits[..|visits| - 1])
    requires |visits| > 1 ==> Reached(visits[..|visits| - 1]).Some?
    requires PageFor(render, max, visits[|visits| - 1].table, req.(cursor := Reached(visits[..|visits| - 1])), visits[|visits| - 1].page)
    ensures WalkInv(render, req, visits)
  {
    hide *;
    var n := |visits| - 1;
    var front, visit := visits[..n], visits[n];
    NextCall(render, max, req, Reached(front), visit);
    GatheredGrows(visits);
    EmptyWalk(front);
    WalkInvIs(render, req, front);
    WalkInvIs(render, req, visits);
    WalkAscends(Gathered(front), Reached(front), Ids(visit.page.items));
    WalkCovers(render, req, visits, Gathered(front), Reached(front));
    assert visit.page.next.Some? ==> Ids(visit.page.items) != [];
  }

  lemma EmptyWalk(visits: seq<Visit>)
    ensures visits == [] ==> Gathered(visits) == [] && Reached(visits) == None
  {
  }

  lemma {:induction false} WalkKeeps(render: Render, max: nat, req: Request, visits: seq<Visit>)
    requires FromStart(req) && Walks(render, max, req, visits)
    ensures WalkInv(render, req, visits)
  {
    hide FromStart, PageFor, FilterHolds, PageSize;
    if visits != [] {
      WalkKeeps(render, max, req, visits[..|visits| - 1]);
      hide *;
      WalkStep(render, max, req, visits);
    }
  }

  /** A walk never returns an id twice, and once it has come to the end it has
      returned, exactly once, every document that existed and satisfied the filter
      throughout, whatever was written between the calls. */
  lemma WalkUnderWrites(render: Render, max: nat, req: Request, visits: seq<Visit>)
    requires FromStart(req) && Walks(render, max, req, visits)
    ensures Distinct(Gathered(visits)) && Ascending(Gathered(visits))
    ensures Finished(visits) ==> forall id :: Steady(render, req, visits, id) ==> id in Gathered(visits)
  {
    WalkKeeps(render, max, req, visits);
    var all := Gathered(visits);
    forall i, j | 0 <= i < j < |all|
      ensures all[i] != all[j]
    {
      LessTotal(all[i], all[j]);
    }
  }

  /** Over a collection that does not change, every id returned satisfies the
      filter, and each call but the last returned a full page. */
  lemma {:induction false} WalkStill(render: Render, max: nat, req: Request, visits: seq<Visit>, table: Table)
    requires FromStart(req) && Walks(render, max, req, visits)
    requires forall i :: 0 <= i < |visits| ==> visits[i].table == table
    ensures forall id :: id in Gathered(visits) ==> id in HoldingIds(render, table, req.filter)
    ensures |Gathered(visits)| >= if Reached(visits).Some? then |visits| * PageSize(max, req) else (|visits| - 1) * PageSize(max, req)
  {
    hide FromStart, PageFor, PageSize, FilterHolds;
    if visits != [] {
      var n := |visits| - 1;
      WalkStill(render, max, req, visits[..n], table);
      NextCall(render, max, req, Reached(visits[..n]), visits[n]);
      GatheredGrows(visits);
      OneTimesMore(n, PageSize(max, req));
      hide Walks, Gathered, Reached;
      if n == 0 {
        EmptyWalk(visits[..n]);
      }
    } else {
      EmptyWalk(visits);
      OneTimesMore(-1, PageSize(max, req));
    }
  }

  lemma OneTimesMore(n: int, size: nat)
    ensures (n + 1) * size == n * size + size
  {
  }

  lemma DistinctWithin(ids: seq<string>, s: set<string>)
    requires Distinct(ids) && forall id :: id in ids ==> id in s
    ensures |ids| <= |s|
  {
    if ids != [] {
      var n := |ids| - 1;
      DistinctWithin(ids[..n], s - {ids[n]});
    }
  }

  /** Over a collection that does not change, a walk comes to its end after at
      most one call more than there are full pages, and then it has returned the
      ids that satisfy the filter in id order, as many as the count says. */
  lemma WalkComplete(render: Render, max: nat, req: Request, visits: seq<Visit>, table: Table)
    requires FromStart(req) && Walks(render, max, req, visits) && visits != []
    requires forall i :: 0 <= i < |visits| ==> visits[i].table == table
    ensures (|visits| - 1) * PageSize(max, req) <= |HoldingIds(render, table, req.filter)|
    ensures Finished(visits) ==>
              && Gathered(visits) == Sorted(HoldingIds(render, table, req.filter))
              && |Gathered(visits)| == |HoldingIds(render, table, req.filter)|
  {
    hide *;
    WalkUnderWrites(render, max, req, visits);
    WalkStill(render, max, req, visits, table);
    var all, holding := Gathered(visits), HoldingIds(render, table, req.filter);
    DistinctWithin(all, holding);
    TimesMore(|visits|, PageSize(max, req));
    if Finished(visits) {
      forall id | id in holding
        ensures id in all
      {
        SteadyWhenStill(render, req, visits, table, id);
      }
      AscendingSame(all, Sorted(holding));
    }
  }

  lemma TimesMore(n: nat, size: nat)
    ensures (n - 1) * size <= n * size
  {
  }

  lemma SteadyWhenStill(render: Render, req: Request, visits: seq<Visit>, table: Table, id: string)
    requires forall i :: 0 <= i < |visits| ==> visits[i].table == table
    requires id in HoldingIds(render, table, req.filter)
    ensures Steady(render, req, visits, id)
  {
    hide FilterHolds;
  }
}
