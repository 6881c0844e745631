/** The filter compiler: a JSON filter becomes WHERE tokens and bound values.
    A refused filter (a validation error) compiles to None. */
module Query {
  import opened Prelude
  import opened JsonValues
  import opened JsonPaths
  import opened Sql

  datatype Clause = Clause(tokens: seq<Token>, params: seq<Value>)

  type Entry = (string, Json)

  predicate Operator(key: string) {
    key != "" && key[0] == '$'
  }

  /** A JSON scalar as a bound value; arrays and objects are refused. */
  function ScalarValue(v: Json): Option<Value> {
    match v
    case Null => Some(NULL)
    case Bool(b) => Some(Integer(if b then 1 else 0))
    case Num(Int(i)) => Some(IntegerValue(i))
    case Num(Real(r)) => Some(Value.Real(r))
    case Str(s) => Some(Text(s))
    case Arr(_) => None
    case Obj(_) => None
  }

  // ---- What the compiler computes, as functions of the parameters so far ----

  /** The pieces a loop compiles left to right with one shared parameter list;
      the first refused item refuses all. */
  datatype Parts = Parts(pieces: seq<seq<Token>>, params: seq<Value>)

  type Compile<!T> = (T, seq<Value>) -> Option<Clause>

  function Collect<T>(items: seq<T>, each: Compile<T>, ps: seq<Value>): Option<Parts> {
    if items == [] then Some(Parts([], ps))
    else
      match each(items[0], ps)
      case None => None
      case Some(Clause(ts, ps')) =>
        match Collect(items[1..], each, ps')
        case None => None
        case Some(Parts(rest, ps'')) => Some(Parts([ts] + rest, ps''))
  }

  function Prepend(pieces: seq<seq<Token>>, later: Option<Parts>): Option<Parts> {
    match later
    case None => None
    case Some(p) => Some(Parts(pieces + p.pieces, p.params))
  }

  /** A compiling loop at item `i`: what is done and what is to come make the whole. */
  ghost predicate Resumes<T>(items: seq<T>, each: Compile<T>, ps: seq<Value>,
                             pieces: seq<seq<Token>>, params: seq<Value>, i: nat)
  {
    i <= |items| && Collect(items, each, ps) == Prepend(pieces, Collect(items[i..], each, params))
  }

  lemma CollectStart<T>(items: seq<T>, each: Compile<T>, ps: seq<Value>)
    ensures Resumes(items, each, ps, [], ps, 0)
  {
    assert items[0..] == items;
    match Collect(items, each, ps) {
      case None =>
      case Some(p) => assert [] + p.pieces == p.pieces;
    }
  }

  lemma CollectStep<T>(items: seq<T>, each: Compile<T>, ps: seq<Value>,
                       pieces: seq<seq<Token>>, params: seq<Value>, i: nat)
    requires Resumes(items, each, ps, pieces, params, i) && i < |items|
    ensures match each(items[i], params)
            case None => Collect(items, each, ps).None?
            case Some(c) => Resumes(items, each, ps, pieces + [c.tokens], c.params, i + 1)
  {
    assert items[i..][1..] == items[i + 1..];
    match each(items[i], params) {
      case None =>
      case Some(c) =>
        match Collect(items[i + 1..], each, c.params) {
          case None =>
          case Some(p) => assert pieces + ([c.tokens] + p.pieces) == (pieces + [c.tokens]) + p.pieces;
        }
    }
  }

  lemma CollectEnd<T>(items: seq<T>, each: Compile<T>, ps: seq<Value>,
                      pieces: seq<seq<Token>>, params: seq<Value>)
    requires Resumes(items, each, ps, pieces, params, |items|)
    ensures Collect(items, each, ps) == Some(Parts(pieces, params))
  {
    assert items[|items|..] == [];
    assert pieces + [] == pieces;
  }

  function Join(pieces: seq<seq<Token>>, word: Token): seq<Token> {
    if pieces == [] then []
    else if |pieces| == 1 then pieces[0]
    else pieces[0] + [word] + Join(pieces[1..], word)
  }

  function EqClause(path: string, v: Json, ps: seq<Value>): Option<Clause> {
    if v.Null? then Some(Clause([JsonExtract(path), Is, NullWord], ps))
    else
      match ScalarValue(v)
      case None => None
      case Some(p) => Some(Clause([JsonExtract(path), Rel(Eq), Param], ps + [p]))
  }

  function OrderRelation(op: string): Option<Relation> {
    if op == "$gt" then Some(Gt)
    else if op == "$gte" then Some(Gte)
    else if op == "$lt" then Some(Lt)
    else if op == "$lte" then Some(Lte)
    else None
  }

  function ScalarValues(vs: seq<Json>): (r: Option<seq<Value>>)
    ensures r.Some? ==> |r.value| == |vs| && forall i :: 0 <= i < |vs| ==> Some(r.value[i]) == ScalarValue(vs[i])
    ensures r.None? ==> exists i :: 0 <= i < |vs| && ScalarValue(vs[i]).None?
  {
    if forall i :: 0 <= i < |vs| ==> ScalarValue(vs[i]).Some?
    then Some(seq(|vs|, i requires 0 <= i < |vs| && ScalarValue(vs[i]).Some? => ScalarValue(vs[i]).value))
    else None
  }

  /** `?, ?, ...` */
  function Placeholders(n: nat): seq<Token> {
    if n == 0 then [] else if n == 1 then [Param] else [Param, Comma] + Placeholders(n - 1)
  }

  function OperatorClause(path: string, op: string, arg: Json, ps: seq<Value>): Option<Clause> {
    if op == "$eq" then EqClause(path, arg, ps)
    else if op == "$ne" then
      if arg.Null? then Some(Clause([JsonExtract(path), Is, Not, NullWord], ps))
      else
        match ScalarValue(arg)
        case None => None
        case Some(p) => Some(Clause([JsonExtract(path), Is, Not, Param], ps + [p]))
    else if OrderRelation(op).Some? then
      match ScalarValue(arg)
      case None => None
      case Some(p) => Some(Clause([JsonExtract(path), Rel(OrderRelation(op).value), Param], ps + [p]))
    else if op == "$in" then
      if !arg.Arr? then None
      else if arg.items == [] then Some(Clause([Zero], ps))
      else
        match ScalarValues(arg.items)
        case None => None
        case Some(vs) =>
          Some(Clause([JsonExtract(path), In, Open] + Placeholders(|vs|) + [Close], ps + vs))
    else None
  }

  function OperatorEntry(path: string): Compile<Entry> {
    (e: Entry, ps: seq<Value>) => if Operator(e.0) then OperatorClause(path, e.0, e.1, ps) else None
  }

  function Parenthesized(ts: seq<Token>): seq<Token> {
    [Open] + ts + [Close]
  }

  function FieldClause(field: string, spec: Json, ps: seq<Value>): Option<Clause> {
    match FieldPath(field)
    case None => None
    case Some(path) =>
      if spec.Obj? then
        match Collect(Entries(spec.fields), OperatorEntry(path), ps)
        case None => None
        case Some(Parts(pieces, ps')) =>
          Some(Clause(if pieces == [] then [One] else Parenthesized(Join(pieces, And)), ps'))
      else if spec.Arr? then None
      else EqClause(path, spec, ps)
  }

  function FieldEntry(): Compile<Entry> {
    (e: Entry, ps: seq<Value>) => if Operator(e.0) then None else FieldClause(e.0, e.1, ps)
  }

  function Conjunction(pieces: seq<seq<Token>>): seq<Token> {
    if pieces == [] then [One] else Join(pieces, And)
  }

  /** One entry of `$or`: a flat conjunction in parentheses. */
  function BranchClause(branch: Json, ps: seq<Value>): Option<Clause> {
    if !branch.Obj? then None
    else
      match Collect(Entries(branch.fields), FieldEntry(), ps)
      case None => None
      case Some(Parts(pieces, ps')) => Some(Clause(Parenthesized(Conjunction(pieces)), ps'))
  }

  function Branch(): Compile<Json> {
    (b: Json, ps: seq<Value>) => BranchClause(b, ps)
  }

  function OrClause(v: Json, ps: seq<Value>): Option<Clause> {
    if !v.Arr? then None
    else
      match Collect(v.items, Branch(), ps)
      case None => None
      case Some(Parts(pieces, ps')) =>
        Some(Clause(if pieces == [] then [Zero] else Parenthesized(Join(pieces, Or)), ps'))
  }

  function KeyEntry(): Compile<Entry> {
    (e: Entry, ps: seq<Value>) =>
      if e.0 == "$or" then OrClause(e.1, ps)
      else if Operator(e.0) then None
      else FieldClause(e.0, e.1, ps)
  }

  function FilterClause(filter: Option<Json>): Option<Clause> {
    if filter.None? || filter.value.Null? then Some(Clause([One], []))
    else if !filter.value.Obj? then None
    else
      match Collect(Entries(filter.value.fields), KeyEntry(), [])
      case None => None
      case Some(Parts(pieces, ps)) => Some(Clause(Conjunction(pieces), ps))
  }

  // ---- The compiler ---------------------------------------------------------

  method CompileEq(path: string, v: Json, ps: seq<Value>) returns (r: Option<Clause>)
    ensures r == EqClause(path, v, ps)
  {
    if v.Null? {
      return Some(Clause([JsonExtract(path), Is, NullWord], ps));
    }
    var p := ScalarValue(v);
    if p.None? {
      return None;
    }
    return Some(Clause([JsonExtract(path), Rel(Eq), Param], ps + [p.value]));
  }

  lemma {:induction false} PlaceholdersGrow(n: nat)
    requires n > 0
    ensures Placeholders(n + 1) == Placeholders(n) + [Comma, Param]
  {
    if n > 1 {
      PlaceholdersGrow(n - 1);
      assert [Param, Comma] + (Placeholders(n - 1) + [Comma, Param]) == ([Param, Comma] + Placeholders(n - 1)) + [Comma, Param];
    }
  }

  method CompileOperator(path: string, op: string, arg: Json, ps: seq<Value>) returns (r: Option<Clause>)
    ensures r == OperatorClause(path, op, arg, ps)
  {
    if op == "$eq" {
      r := CompileEq(path, arg, ps);
    } else if op == "$ne" {
      if arg.Null? {
        return Some(Clause([JsonExtract(path), Is, Not, NullWord], ps));
      }
      var p := ScalarValue(arg);
      if p.None? {
        return None;
      }
      return Some(Clause([JsonExtract(path), Is, Not, Param], ps + [p.value]));
    } else if op == "$gt" || op == "$gte" || op == "$lt" || op == "$lte" {
      var rel := if op == "$gt" then Gt else if op == "$gte" then Gte else if op == "$lt" then Lt else Lte;
      var p := ScalarValue(arg);
      if p.None? {
        return None;
      }
      return Some(Clause([JsonExtract(path), Rel(rel), Param], ps + [p.value]));
    } else if op == "$in" {
      if !arg.Arr? {
        return None;
      }
      if arg.items == [] {
        return Some(Clause([Zero], ps));
      }
      var params := ps;
      var marks := [];
      for i := 0 to |arg.items|
        invariant |params| == |ps| + i && params[..|ps|] == ps
        invariant forall k :: 0 <= k < i ==> ScalarValue(arg.items[k]) == Some(params[|ps| + k])
        invariant marks == Placeholders(i)
      {
        var p := ScalarValue(arg.items[i]);
        if p.None? {
          return None;
        }
        if i > 0 {
          PlaceholdersGrow(i);
        }
        params := params + [p.value];
        marks := if i == 0 then [Param] else marks + [Comma, Param];
      }
      assert params == ps + ScalarValues(arg.items).value;
      return Some(Clause([JsonExtract(path), In, Open] + marks + [Close], params));
    } else {
      return None;
    }
  }

  method CompileField(field: string, spec: Json, ps: seq<Value>) returns (r: Option<Clause>)
    ensures r == FieldClause(field, spec, ps)
  {
    var path := FieldToJsonPath(field);
    if path.None? {
      return None;
    }
    if spec.Obj? {
      var entries := Entries(spec.fields);
      var each := OperatorEntry(path.value);
      var pieces, params := [], ps;
      hide Collect, Resumes, OperatorClause, Join;
      CollectStart(entries, each, ps);
      for i := 0 to |entries|
        invariant Resumes(entries, each, ps, pieces, params, i)
      {
        CollectStep(entries, each, ps, pieces, params, i);
        var (op, arg) := entries[i];
        if !Operator(op) {
          return None;
        }
        var piece := CompileOperator(path.value, op, arg, params);
        if piece.None? {
          return None;
        }
        pieces, params := pieces + [piece.value.tokens], piece.value.params;
      }
      CollectEnd(entries, each, ps, pieces, params);
      if pieces == [] {
        return Some(Clause([One], params));
      }
      return Some(Clause(Parenthesized(Join(pieces, And)), params));
    } else if spec.Arr? {
      return None;
    } else {
      r := CompileEq(path.value, spec, ps);
    }
  }

  lemma FieldEntryStep(e: Entry, ps: seq<Value>)
    ensures FieldEntry()(e, ps) ==
            if e.0 == "$or" || e.0 == "$and" || Operator(e.0) then None else FieldClause(e.0, e.1, ps)
  {
    assert "$and"[0] == '$' && "$or"[0] == '$';
  }

  lemma BranchStep(branch: Json, ps: seq<Value>)
    ensures Branch()(branch, ps) ==
            if !branch.Obj? then None
            else
              match Collect(Entries(branch.fields), FieldEntry(), ps)
              case None => None
              case Some(p) =>
                Some(Clause(Parenthesized(if p.pieces == [] then [One] else Join(p.pieces, And)), p.params))
  {
  }

  lemma OrEnd(v: Json, ps: seq<Value>)
    ensures OrClause(v, ps) ==
            if !v.Arr? then None
            else
              match Collect(v.items, Branch(), ps)
              case None => None
              case Some(p) =>
                Some(Clause(if p.pieces == [] then [Zero] else Parenthesized(Join(p.pieces, Or)), p.params))
  {
  }

  method CompileOr(v: Json, ps: seq<Value>) returns (r: Option<Clause>)
    ensures r == OrClause(v, ps)
  {
    OrEnd(v, ps);
    hide *;
    if !v.Arr? {
      return None;
    }
    var subs, params := [], ps;
    CollectStart(v.items, Branch(), ps);
    for i := 0 to |v.items|
      invariant Resumes(v.items, Branch(), ps, subs, params, i)
    {
      CollectStep(v.items, Branch(), ps, subs, params, i);
      BranchStep(v.items[i], params);
      var sub := v.items[i];
      if !sub.Obj? {
        return None;
      }
      var entries := Entries(sub.fields);
      var pieces := [];
      ghost var before := params;
      CollectStart(entries, FieldEntry(), before);
      for j := 0 to |entries|
        invariant Resumes(entries, FieldEntry(), before, pieces, params, j)
      {
        CollectStep(entries, FieldEntry(), before, pieces, params, j);
        FieldEntryStep(entries[j], params);
        var (k, spec) := entries[j];
        if k == "$or" || k == "$and" {
          return None;
        }
        if Operator(k) {
          return None;
        }
        var piece := CompileField(k, spec, params);
        if piece.None? {
          return None;
        }
        pieces, params := pieces + [piece.value.tokens], piece.value.params;
      }
      CollectEnd(entries, FieldEntry(), before, pieces, params);
      subs := subs + [Parenthesized(if pieces == [] then [One] else Join(pieces, And))];
    }
    CollectEnd(v.items, Branch(), ps, subs, params);
    if subs == [] {
      return Some(Clause([Zero], params));
    }
    return Some(Clause(Parenthesized(Join(subs, Or)), params));
  }

  lemma KeyEntryStep(e: Entry, ps: seq<Value>)
    ensures KeyEntry()(e, ps) ==
            if e.0 == "$or" then OrClause(e.1, ps)
            else if e.0 == "$and" || Operator(e.0) then None
            else FieldClause(e.0, e.1, ps)
  {
    assert "$and"[0] == '$';
  }

  lemma FilterEnd(filter: Json)
    requires filter.Obj?
    ensures FilterClause(Some(filter)) ==
            match Collect(Entries(filter.fields), KeyEntry(), [])
            case None => None
            case Some(p) => Some(Clause(if p.pieces == [] then [One] else Join(p.pieces, And), p.params))
  {
  }

  method CompileFilter(filter: Option<Json>) returns (r: Option<Clause>)
    ensures r == FilterClause(filter)
  {
    if filter.None? {
      return Some(Clause([One], []));
    }
    if filter.value.Null? {
      return Some(Clause([One], []));
    }
    if !filter.value.Obj? {
      return None;
    }
    var entries := Entries(filter.value.fields);
    var pieces, params := [], [];
    FilterEnd(filter.value);
    hide *;
    CollectStart(entries, KeyEntry(), []);
    for i := 0 to |entries|
      invariant Resumes(entries, KeyEntry(), [], pieces, params, i)
    {
      CollectStep(entries, KeyEntry(), [], pieces, params, i);
      KeyEntryStep(entries[i], params);
      var (key, val) := entries[i];
      var piece;
      if key == "$or" {
        piece := CompileOr(val, params);
      } else if key == "$and" || Operator(key) {
        return None;
      } else {
        piece := CompileField(key, val, params);
      }
      if piece.None? {
        return None;
      }
      pieces, params := pieces + [piece.value.tokens], piece.value.params;
    }
    CollectEnd(entries, KeyEntry(), [], pieces, params);
    return Some(Clause(if pieces == [] then [One] else Join(pieces, And), params));
  }
}
