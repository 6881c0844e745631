/** How the WHERE parser reads the concatenations the compiler emits. */
module ParserFacts {
  import opened Sql
  import opened Query

  function Grow(p: Parsed, more: seq<Token>): Parsed {
    match p
    case Bad => Bad
    case Good(e, rest, next) => Good(e, rest + more, next)
  }

  // A successful parse does not look at what follows the tokens it takes, once
  // something is left over to stop it.

  lemma {:induction false} ListGrows(ts: seq<Token>, more: seq<Token>, n: nat)
    requires ParseList(ts, n).GoodList?
    ensures var p := ParseList(ts, n);
            ParseList(ts + more, n) == GoodList(p.params, p.rest + more, p.next)
    decreases |ts|
  {
    assert (ts + more)[2..] == ts[2..] + more;
    if ts[1] == Comma {
      ListGrows(ts[2..], more, n + 1);
    }
  }

  lemma RelationGrows(left: Operand, ts: seq<Token>, more: seq<Token>, n: nat)
    requires ParseRelation(left, ts, n).Good?
    ensures ParseRelation(left, ts + more, n) == Grow(ParseRelation(left, ts, n), more)
  {
    assert (ts + more)[2..] == ts[2..] + more;
    if |ts| >= 3 {
      assert (ts + more)[3..] == ts[3..] + more;
    }
    if ts[0] == In {
      ListGrows(ts[2..], more, n);
    }
  }

  lemma {:induction false} PrimaryGrows(ts: seq<Token>, more: seq<Token>, n: nat)
    requires ParsePrimary(ts, n).Good?
    ensures ParsePrimary(ts + more, n) == Grow(ParsePrimary(ts, n), more)
    decreases |ts|, 0
  {
    assert (ts + more)[1..] == ts[1..] + more;
    match ts[0] {
      case JsonExtract(path) => RelationGrows(Doc(path), ts[1..], more, n);
      case Id => RelationGrows(IdColumn, ts[1..], more, n);
      case Open =>
        OrGrows(ts[1..], more, n);
        var rest := ParseOr(ts[1..], n).rest;
        assert (rest + more)[1..] == rest[1..] + more;
      case _ =>
    }
  }

  lemma {:induction false} AndGrows(ts: seq<Token>, more: seq<Token>, n: nat)
    requires ParseAnd(ts, n).Good? && ParseAnd(ts, n).rest != []
    ensures ParseAnd(ts + more, n) == Grow(ParseAnd(ts, n), more)
    decreases |ts|, 2
  {
    PrimaryGrows(ts, more, n);
    var p := ParsePrimary(ts, n);
    AndTailGrows(p.e, p.rest, more, p.next);
  }

  lemma {:induction false} AndTailGrows(acc: Expr, ts: seq<Token>, more: seq<Token>, n: nat)
    requires ParseAndTail(acc, ts, n).Good? && ParseAndTail(acc, ts, n).rest != []
    ensures ParseAndTail(acc, ts + more, n) == Grow(ParseAndTail(acc, ts, n), more)
    decreases |ts|, 1
  {
    if ts[0] == And {
      assert (ts + more)[1..] == ts[1..] + more;
      PrimaryGrows(ts[1..], more, n);
      var p := ParsePrimary(ts[1..], n);
      AndTailGrows(Both(acc, p.e), p.rest, more, p.next);
    }
  }

  lemma {:induction false} OrGrows(ts: seq<Token>, more: seq<Token>, n: nat)
    requires ParseOr(ts, n).Good? && ParseOr(ts, n).rest != []
    ensures ParseOr(ts + more, n) == Grow(ParseOr(ts, n), more)
    decreases |ts|, 4
  {
    var p := ParseAnd(ts, n);
    assert p.rest != [];
    AndGrows(ts, more, n);
    OrTailGrows(p.e, p.rest, more, p.next);
  }

  lemma {:induction false} OrTailGrows(acc: Expr, ts: seq<Token>, more: seq<Token>, n: nat)
    requires ParseOrTail(acc, ts, n).Good? && ParseOrTail(acc, ts, n).rest != []
    ensures ParseOrTail(acc, ts + more, n) == Grow(ParseOrTail(acc, ts, n), more)
    decreases |ts|, 3
  {
    if ts[0] == Or {
      assert (ts + more)[1..] == ts[1..] + more;
      var p := ParseAnd(ts[1..], n);
      assert p.rest != [];
      AndGrows(ts[1..], more, n);
      OrTailGrows(Either(acc, p.e), p.rest, more, p.next);
    }
  }

  // ---- Joined pieces --------------------------------------------------------

  /** Each piece is a whole primary, and the placeholders of the pieces are
      numbered consecutively from `n` up to `k`. */
  ghost predicate Tiles(pieces: seq<seq<Token>>, es: seq<Expr>, n: nat, k: nat) {
    && |pieces| == |es|
    && if pieces == [] then n == k
       else
         var p := ParsePrimary(pieces[0], n);
         p.Good? && p.e == es[0] && p.rest == [] && Tiles(pieces[1..], es[1..], p.next, k)
  }

  function AllOf(acc: Expr, es: seq<Expr>): Expr
    decreases |es|
  {
    if es == [] then acc else AllOf(Both(acc, es[0]), es[1..])
  }

  function AnyOf(acc: Expr, es: seq<Expr>): Expr
    decreases |es|
  {
    if es == [] then acc else AnyOf(Either(acc, es[0]), es[1..])
  }

  lemma PieceThen(piece: seq<Token>, rest: seq<Token>, n: nat)
    requires ParsePrimary(piece, n).Good? && ParsePrimary(piece, n).rest == []
    ensures ParsePrimary(piece + rest, n) == Good(ParsePrimary(piece, n).e, rest, ParsePrimary(piece, n).next)
  {
    PrimaryGrows(piece, rest, n);
    assert [] + rest == rest;
  }

  lemma JoinHead(pieces: seq<seq<Token>>, word: Token, rest: seq<Token>)
    requires pieces != []
    ensures Join(pieces, word) + rest ==
            pieces[0] + if |pieces| == 1 then rest else [word] + (Join(pieces[1..], word) + rest)
  {
  }

  /** Pieces joined by AND parse to their conjunction, whatever follows. */
  lemma {:induction false} AndParses(pieces: seq<seq<Token>>, es: seq<Expr>, n: nat, k: nat, rest: seq<Token>)
    requires pieces != [] && Tiles(pieces, es, n, k)
    ensures ParseAnd(Join(pieces, And) + rest, n) == ParseAndTail(AllOf(es[0], es[1..]), rest, k)
  {
    JoinHead(pieces, And, rest);
    if |pieces| == 1 {
      PieceThen(pieces[0], rest, n);
    } else {
      var more := [And] + (Join(pieces[1..], And) + rest);
      PieceThen(pieces[0], more, n);
      AndTailParses(es[0], pieces[1..], es[1..], ParsePrimary(pieces[0], n).next, k, rest);
    }
  }

  lemma {:induction false} AndTailParses(acc: Expr, pieces: seq<seq<Token>>, es: seq<Expr>, n: nat, k: nat, rest: seq<Token>)
    requires pieces != [] && Tiles(pieces, es, n, k)
    ensures ParseAndTail(acc, [And] + (Join(pieces, And) + rest), n) == ParseAndTail(AllOf(acc, es), rest, k)
    decreases |pieces|
  {
    JoinHead(pieces, And, rest);
    var ts := [And] + (Join(pieces, And) + rest);
    assert ts[1..] == Join(pieces, And) + rest;
    if |pieces| == 1 {
      PieceThen(pieces[0], rest, n);
      assert es[1..] == [];
    } else {
      var more := [And] + (Join(pieces[1..], And) + rest);
      PieceThen(pieces[0], more, n);
      AndTailParses(Both(acc, es[0]), pieces[1..], es[1..], ParsePrimary(pieces[0], n).next, k, rest);
    }
  }

  ghost predicate Stops(rest: seq<Token>) {
    rest == [] || (rest[0] != And && rest[0] != Or)
  }

  /** Pieces joined by OR parse to their disjunction when something else follows. */
  lemma {:induction false} OrParses(pieces: seq<seq<Token>>, es: seq<Expr>, n: nat, k: nat, rest: seq<Token>)
    requires pieces != [] && Tiles(pieces, es, n, k) && Stops(rest)
    ensures ParseOr(Join(pieces, Or) + rest, n) == Good(AnyOf(es[0], es[1..]), rest, k)
  {
    JoinHead(pieces, Or, rest);
    if |pieces| == 1 {
      PieceThen(pieces[0], rest, n);
      assert es[1..] == [];
      assert ParsePrimary(pieces[0], n).next == k;
      assert ParseAnd(pieces[0] + rest, n) == Good(es[0], rest, k);
    } else {
      var more := [Or] + (Join(pieces[1..], Or) + rest);
      PieceThen(pieces[0], more, n);
      assert ParseAnd(pieces[0] + more, n) == Good(es[0], more, ParsePrimary(pieces[0], n).next);
      OrTailParses(es[0], pieces[1..], es[1..], ParsePrimary(pieces[0], n).next, k, rest);
    }
  }

  lemma {:induction false} OrTailParses(acc: Expr, pieces: seq<seq<Token>>, es: seq<Expr>, n: nat, k: nat, rest: seq<Token>)
    requires pieces != [] && Tiles(pieces, es, n, k) && Stops(rest)
    ensures ParseOrTail(acc, [Or] + (Join(pieces, Or) + rest), n) == Good(AnyOf(acc, es), rest, k)
    decreases |pieces|
  {
    JoinHead(pieces, Or, rest);
    var ts := [Or] + (Join(pieces, Or) + rest);
    assert ts[1..] == Join(pieces, Or) + rest;
    if |pieces| == 1 {
      PieceThen(pieces[0], rest, n);
      assert es[1..] == [];
      assert ParsePrimary(pieces[0], n).next == k;
      assert ParseAnd(pieces[0] + rest, n) == Good(es[0], rest, k);
    } else {
      var more := [Or] + (Join(pieces[1..], Or) + rest);
      PieceThen(pieces[0], more, n);
      assert ParseAnd(pieces[0] + more, n) == Good(es[0], more, ParsePrimary(pieces[0], n).next);
      OrTailParses(Either(acc, es[0]), pieces[1..], es[1..], ParsePrimary(pieces[0], n).next, k, rest);
    }
  }

  lemma {:induction false} AllOfTrue(acc: Expr, es: seq<Expr>, params: seq<Value>, row: Source)
    ensures Eval(AllOf(acc, es), params, row) == True <==>
            Eval(acc, params, row) == True && forall i :: 0 <= i < |es| ==> Eval(es[i], params, row) == True
    decreases |es|
  {
    if es != [] {
      AllOfTrue(Both(acc, es[0]), es[1..], params, row);
      assert es == [es[0]] + es[1..];
    }
  }

  lemma {:induction false} AnyOfTrue(acc: Expr, es: seq<Expr>, params: seq<Value>, row: Source)
    ensures Eval(AnyOf(acc, es), params, row) == True <==>
            Eval(acc, params, row) == True || exists i :: 0 <= i < |es| && Eval(es[i], params, row) == True
    decreases |es|
  {
    if es != [] {
      AnyOfTrue(Either(acc, es[0]), es[1..], params, row);
      assert es == [es[0]] + es[1..];
      assert (exists i :: 0 <= i < |es| && Eval(es[i], params, row) == True) <==>
             Eval(es[0], params, row) == True || exists i :: 0 <= i < |es[1..]| && Eval(es[1..][i], params, row) == True;
    }
  }

  /** The same for a whole nonempty list. */
  lemma ListTrue(es: seq<Expr>, params: seq<Value>, row: Source)
    requires es != []
    ensures Eval(AllOf(es[0], es[1..]), params, row) == True <==> forall i :: 0 <= i < |es| ==> Eval(es[i], params, row) == True
    ensures Eval(AnyOf(es[0], es[1..]), params, row) == True <==> exists i :: 0 <= i < |es| && Eval(es[i], params, row) == True
  {
    AllOfTrue(es[0], es[1..], params, row);
    AnyOfTrue(es[0], es[1..], params, row);
    hide Eval, AllOf, AnyOf;
    assert forall i :: 0 <= i < |es[1..]| ==> es[1..][i] == es[i + 1];
    assert forall i :: 0 < i < |es| ==> es[i] == es[1..][i - 1];
  }
}
