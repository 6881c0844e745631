/** The part of SQLite the server relies on: values and their comparison,
    `json_extract`, the WHERE-clause grammar, and three-valued evaluation. */
module Sql {
  import opened Prelude
  import opened JsonValues
  import opened JsonPaths

  // ---- Values ---------------------------------------------------------------

  datatype Value = NULL | Integer(i: int) | Real(r: real) | Text(s: string)

  predicate IsNumber(v: Value) {
    v.Integer? || v.Real?
  }

  function Magnitude(v: Value): real
    requires IsNumber(v)
  {
    if v.Integer? then v.i as real else v.r
  }

  /** `IS`: NULL equals itself, numbers compare by magnitude, text by content. */
  predicate Same(a: Value, b: Value) {
    if IsNumber(a) && IsNumber(b) then Magnitude(a) == Magnitude(b) else a == b
  }

  /** The order of values that are not NULL: every number before every text. */
  predicate Below(a: Value, b: Value) {
    if IsNumber(a) && IsNumber(b) then Magnitude(a) < Magnitude(b)
    else if a.Text? && b.Text? then Less(a.s, b.s)
    else IsNumber(a) && b.Text?
  }

  /** The text SQLite prints for an array or an object. */
  type Render = Json -> string

  /** Integers outside 64 bits become reals. */
  function IntegerValue(i: int): Value {
    if -0x8000_0000_0000_0000 <= i < 0x8000_0000_0000_0000 then Integer(i) else Value.Real(i as real)
  }

  function FromJson(render: Render, v: Json): Value {
    match v
    case Null => NULL
    case Bool(b) => Integer(if b then 1 else 0)
    case Num(Int(i)) => IntegerValue(i)
    case Num(Real(r)) => Value.Real(r)
    case Str(s) => Text(s)
    case Arr(_) => Text(render(v))
    case Obj(_) => Text(render(v))
  }

  function NatValue(digits: string): nat
    requires forall i :: 0 <= i < |digits| ==> IsDigit(digits[i])
  {
    if digits == "" then 0
    else
      assert IsDigit(digits[|digits| - 1]);
      NatValue(digits[..|digits| - 1]) * 10 + (digits[|digits| - 1] as int - '0' as int)
  }

  /** A number in decimal digits. */
  function Decimal(n: nat): string {
    (if n < 10 then "" else Decimal(n / 10)) + [('0' as int + n % 10) as char]
  }

  lemma {:induction false} NatValueDecimal(n: nat)
    ensures DigitText(Decimal(n)) && NatValue(Decimal(n)) == n
  {
    var s := Decimal(n);
    if n >= 10 {
      NatValueDecimal(n / 10);
      assert s[..|s| - 1] == Decimal(n / 10);
    } else {
      assert s[..|s| - 1] == "";
    }
  }

  function Descend(v: Json, segs: seq<Segment>): Option<Json>
    decreases |segs|
  {
    if segs == [] then Some(v)
    else
      match segs[0]
      case Field(name) =>
        if v.Obj? && name in v.fields then Descend(v.fields[name], segs[1..]) else None
      case Element(digits) =>
        if v.Arr? && DigitText(digits) && NatValue(digits) < |v.items|
        then Descend(v.items[NatValue(digits)], segs[1..])
        else None
  }

  /** `json_extract(doc, path)`: NULL for a missing value and for a JSON null. */
  function Extract(render: Render, doc: Json, path: string): Value {
    match ReadPath(path)
    case None => NULL
    case Some(segs) =>
      match Descend(doc, segs)
      case None => NULL
      case Some(v) => FromJson(render, v)
  }

  /** An index step goes to the item at that position. */
  lemma DescendElement(v: Json, i: nat, rest: seq<Segment>)
    ensures Descend(v, [Element(Decimal(i))] + rest) == if v.Arr? && i < |v.items| then Descend(v.items[i], rest) else None
  {
    NatValueDecimal(i);
    assert ([Element(Decimal(i))] + rest)[1..] == rest;
  }

  lemma {:induction false} DescendFields(v: Json, names: seq<string>)
    ensures Descend(v, Fields(names)) == Lookup(v, names)
    decreases |names|
  {
    if names != [] {
      assert Fields(names)[1..] == Fields(names[1..]);
      if v.Obj? && names[0] in v.fields {
        DescendFields(v.fields[names[0]], names[1..]);
      }
    }
  }

  /** A translated field extracts what descending by its dotted names finds. */
  lemma ExtractField(render: Render, doc: Json, field: string)
    requires ValidField(field)
    ensures Extract(render, doc, FieldPath(field).value) ==
            match Lookup(doc, Split(field)) case None => NULL case Some(v) => FromJson(render, v)
  {
    FieldPathReadsBack(field);
    DescendFields(doc, Split(field));
  }

  // ---- Tokens and the grammar -----------------------------------------------

  datatype Relation = Eq | Gt | Gte | Lt | Lte

  datatype Token =
    | JsonExtract(path: string) | Id | Param | Zero | One
    | Rel(rel: Relation) | Is | Not | NullWord | In | And | Or | Open | Close | Comma

  datatype Operand = Doc(path: string) | IdColumn

  /** A parameter is named by its position among the clause's parameters. */
  datatype Expr =
    | Constant(b: bool)
    | Compares(left: Operand, rel: Relation, param: nat)
    | IsNull(left: Operand)
    | IsNotNull(left: Operand)
    | IsNot(left: Operand, param: nat)
    | Member(left: Operand, params: seq<nat>)
    | Both(l: Expr, r: Expr)
    | Either(l: Expr, r: Expr)

  datatype Parsed = Bad | Good(e: Expr, rest: seq<Token>, next: nat)

  datatype ParsedList = BadList | GoodList(params: seq<nat>, rest: seq<Token>, next: nat)

  /** `?, ?, ...)` after the opening parenthesis of an IN list. */
  function ParseList(ts: seq<Token>, n: nat): (r: ParsedList)
    ensures r.GoodList? ==> |r.rest| < |ts|
    decreases |ts|
  {
    if |ts| < 2 || ts[0] != Param then BadList
    else if ts[1] == Close then GoodList([n], ts[2..], n + 1)
    else if ts[1] == Comma then
      match ParseList(ts[2..], n + 1)
      case BadList => BadList
      case GoodList(ps, rest, next) => GoodList([n] + ps, rest, next)
    else BadList
  }

  /** What may follow an operand. */
  function ParseRelation(left: Operand, ts: seq<Token>, n: nat): (r: Parsed)
    ensures r.Good? ==> |r.rest| < |ts|
  {
    if |ts| >= 2 && ts[0].Rel? && ts[1] == Param then Good(Compares(left, ts[0].rel, n), ts[2..], n + 1)
    else if |ts| >= 2 && ts[0] == Is && ts[1] == NullWord then Good(IsNull(left), ts[2..], n)
    else if |ts| >= 3 && ts[0] == Is && ts[1] == Not && ts[2] == NullWord then Good(IsNotNull(left), ts[3..], n)
    else if |ts| >= 3 && ts[0] == Is && ts[1] == Not && ts[2] == Param then Good(IsNot(left, n), ts[3..], n + 1)
    else if |ts| >= 2 && ts[0] == In && ts[1] == Open then
      match ParseList(ts[2..], n)
      case BadList => Bad
      case GoodList(ps, rest, next) => Good(Member(left, ps), rest, next)
    else Bad
  }

  function ParsePrimary(ts: seq<Token>, n: nat): (r: Parsed)
    ensures r.Good? ==> |r.rest| < |ts|
    decreases |ts|, 0
  {
    if ts == [] then Bad
    else
      match ts[0]
      case Zero => Good(Constant(false), ts[1..], n)
      case One => Good(Constant(true), ts[1..], n)
      case JsonExtract(path) => ParseRelation(Doc(path), ts[1..], n)
      case Id => ParseRelation(IdColumn, ts[1..], n)
      case Open =>
        (match ParseOr(ts[1..], n)
         case Bad => Bad
         case Good(e, rest, next) => if rest != [] && rest[0] == Close then Good(e, rest[1..], next) else Bad)
      case _ => Bad
  }

  /** AND binds tighter than OR; both group to the left. */
  function ParseAnd(ts: seq<Token>, n: nat): (r: Parsed)
    ensures r.Good? ==> |r.rest| < |ts|
    decreases |ts|, 2
  {
    match ParsePrimary(ts, n)
    case Bad => Bad
    case Good(e, rest, next) => ParseAndTail(e, rest, next)
  }

  function ParseAndTail(acc: Expr, ts: seq<Token>, n: nat): (r: Parsed)
    ensures r.Good? ==> |r.rest| <= |ts|
    decreases |ts|, 1
  {
    if ts == [] || ts[0] != And then Good(acc, ts, n)
    else
      match ParsePrimary(ts[1..], n)
      case Bad => Bad
      case Good(e, rest, next) => ParseAndTail(Both(acc, e), rest, next)
  }

  function ParseOr(ts: seq<Token>, n: nat): (r: Parsed)
    ensures r.Good? ==> |r.rest| < |ts|
    decreases |ts|, 4
  {
    match ParseAnd(ts, n)
    case Bad => Bad
    case Good(e, rest, next) => ParseOrTail(e, rest, next)
  }

  function ParseOrTail(acc: Expr, ts: seq<Token>, n: nat): (r: Parsed)
    ensures r.Good? ==> |r.rest| <= |ts|
    decreases |ts|, 3
  {
    if ts == [] || ts[0] != Or then Good(acc, ts, n)
    else
      match ParseAnd(ts[1..], n)
      case Bad => Bad
      case Good(e, rest, next) => ParseOrTail(Either(acc, e), rest, next)
  }

  /** A whole WHERE clause with exactly `count` parameters. */
  function ParseWhere(ts: seq<Token>, count: nat): Option<Expr> {
    match ParseOr(ts, 0)
    case Bad => None
    case Good(e, rest, next) => if rest == [] && next == count then Some(e) else None
  }

  // ---- Three-valued evaluation ----------------------------------------------

  datatype Truth = True | False | Unknown

  function Known(b: bool): Truth {
    if b then True else False
  }

  function TruthAnd(a: Truth, b: Truth): Truth {
    if a == False || b == False then False else if a == True && b == True then True else Unknown
  }

  function TruthOr(a: Truth, b: Truth): Truth {
    if a == True || b == True then True else if a == False && b == False then False else Unknown
  }

  function Compare(a: Value, rel: Relation, b: Value): Truth {
    if a == NULL || b == NULL then Unknown
    else
      Known(match rel
            case Eq => Same(a, b)
            case Gt => Below(b, a)
            case Gte => !Below(a, b)
            case Lt => Below(a, b)
            case Lte => !Below(b, a))
  }

  /** `IN`: the disjunction of the equalities, so NULL members yield Unknown. */
  function Among(a: Value, vs: seq<Value>): Truth {
    if vs == [] then False else TruthOr(Compare(a, Eq, vs[0]), Among(a, vs[1..]))
  }

  /** What a row shows the clause: its id and its document. */
  datatype Source = Source(render: Render, id: string, doc: Json)

  function OperandValue(o: Operand, row: Source): Value {
    match o
    case Doc(path) => Extract(row.render, row.doc, path)
    case IdColumn => Text(row.id)
  }

  /** A parameter that was never bound reads as NULL. */
  function Bound(params: seq<Value>, k: nat): Value {
    if k < |params| then params[k] else NULL
  }

  function BoundAll(params: seq<Value>, ks: seq<nat>): (r: seq<Value>)
    ensures |r| == |ks| && forall i :: 0 <= i < |ks| ==> r[i] == Bound(params, ks[i])
  {
    seq(|ks|, i requires 0 <= i < |ks| => Bound(params, ks[i]))
  }

  function Eval(e: Expr, params: seq<Value>, row: Source): Truth {
    match e
    case Constant(b) => Known(b)
    case Compares(left, rel, k) => Compare(OperandValue(left, row), rel, Bound(params, k))
    case IsNull(left) => Known(OperandValue(left, row) == NULL)
    case IsNotNull(left) => Known(OperandValue(left, row) != NULL)
    case IsNot(left, k) => Known(!Same(OperandValue(left, row), Bound(params, k)))
    case Member(left, ks) => Among(OperandValue(left, row), BoundAll(params, ks))
    case Both(l, r) => TruthAnd(Eval(l, params, row), Eval(r, params, row))
    case Either(l, r) => TruthOr(Eval(l, params, row), Eval(r, params, row))
  }

  /** A clause selects the rows on which it is true, not false or unknown. A
      clause that does not parse selects nothing: the statement is an error. */
  predicate Selects(ts: seq<Token>, params: seq<Value>, row: Source) {
    var where := ParseWhere(ts, |params|);
    where.Some? && Eval(where.value, params, row) == True
  }
}
