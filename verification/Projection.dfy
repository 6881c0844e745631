/** Projection of a document onto dotted field paths. */
module Projection {
  import opened Prelude
  import opened JsonValues
  import opened JsonPaths

  type Path = seq<string>

  // ---- Inserting at a path --------------------------------------------------

  /** Nothing but objects stands on the way to a path. */
  predicate Fits(out: map<string, Json>, segs: Path)
    decreases |segs|
  {
    |segs| > 1 && segs[0] in out ==> out[segs[0]].Obj? && Fits(out[segs[0]].fields, segs[1..])
  }

  /** The value is at the path, objects lead to it, and all else is as it was. */
  predicate InsertedAt(out: map<string, Json>, segs: Path, value: Json, r: map<string, Json>, q: Path) {
    if segs <= q then Lookup(Obj(r), q) == Lookup(value, q[|segs|..])
    else if q <= segs then Lookup(Obj(r), q).Some? && Lookup(Obj(r), q).value.Obj?
    else Lookup(Obj(r), q) == Lookup(Obj(out), q)
  }

  ghost predicate Inserted(out: map<string, Json>, segs: Path, value: Json, r: map<string, Json>) {
    forall q :: InsertedAt(out, segs, value, r, q)
  }

  lemma InsertedLeaf(out: map<string, Json>, key: string, value: Json)
    ensures Inserted(out, [key], value, out[key := value])
  {
    var r := out[key := value];
    forall q
      ensures InsertedAt(out, [key], value, r, q)
    {
      if q != [] && q[0] == key {
        assert [key] <= q;
      }
    }
  }

  lemma PrefixTail(segs: Path, q: Path)
    requires segs != [] && q != []
    ensures segs <= q <==> segs[0] == q[0] && segs[1..] <= q[1..]
  {
    if segs[0] == q[0] && segs[1..] <= q[1..] {
      assert segs == [segs[0]] + segs[1..];
      assert q == [q[0]] + q[1..];
      assert q[..|segs|] == [q[0]] + q[1..][..|segs| - 1];
      assert q[1..][..|segs| - 1] == segs[1..];
    }
  }

  lemma InsertedBelow(out: map<string, Json>, fields: map<string, Json>, segs: Path, value: Json, m: map<string, Json>)
    requires |segs| > 1 && Inserted(fields, segs[1..], value, m)
    requires if segs[0] in out then out[segs[0]] == Obj(fields) else fields == map[]
    ensures Inserted(out, segs, value, out[segs[0] := Obj(m)])
  {
    var r := out[segs[0] := Obj(m)];
    forall q
      ensures InsertedAt(out, segs, value, r, q)
    {
      if q != [] {
        PrefixTail(segs, q);
        PrefixTail(q, segs);
        if q[0] == segs[0] {
          assert InsertedAt(fields, segs[1..], value, m, q[1..]);
          if segs <= q {
            assert q[1..][|segs| - 1..] == q[|segs|..];
          }
        }
      }
    }
  }

  /** The value is dropped only when something other than an object is in the
      way, and then nothing changes. */
  method InsertNested(out: map<string, Json>, segs: Path, value: Json) returns (r: map<string, Json>)
    requires segs != []
    ensures if Fits(out, segs) then Inserted(out, segs, value, r) else r == out
    ensures Lookup(Obj(out), segs) == Some(value) ==> r == out
    decreases |segs|
  {
    if |segs| == 1 {
      InsertedLeaf(out, segs[0], value);
      assert segs == [segs[0]] && segs[1..] == [];
      assert segs[0] in out ==> Lookup(Obj(out), segs) == Some(out[segs[0]]);
      return out[segs[0] := value];
    }
    r := out;
    var entry := if segs[0] in out then out[segs[0]] else Obj(map[]);
    r := r[segs[0] := entry];
    if entry.Obj? {
      var m := InsertNested(entry.fields, segs[1..], value);
      r := r[segs[0] := Obj(m)];
      assert r == out[segs[0] := Obj(m)];
      if Fits(out, segs) {
        InsertedBelow(out, entry.fields, segs, value, m);
      }
    }
  }

  // ---- What a projection is -------------------------------------------------

  /** A listed path that the document has. */
  predicate Listed(doc: Json, paths: set<Path>, p: Path) {
    p in paths && Lookup(doc, p).Some?
  }

  /** The place lies at or below a listed path. */
  ghost predicate Covered(doc: Json, paths: set<Path>, q: Path) {
    exists p :: Listed(doc, paths, p) && p <= q
  }

  /** The place lies on the way to a listed path, or is covered and in the document. */
  ghost predicate Kept(doc: Json, paths: set<Path>, q: Path) {
    || q == []
    || (Covered(doc, paths, q) && Lookup(doc, q).Some?)
    || exists p :: Listed(doc, paths, p) && q <= p
  }

  ghost predicate ProjectedAt(doc: Json, paths: set<Path>, out: Json, q: Path) {
    && (Lookup(out, q).Some? <==> Kept(doc, paths, q))
    && (Covered(doc, paths, q) ==> Lookup(out, q) == Lookup(doc, q))
    && (Kept(doc, paths, q) && !Covered(doc, paths, q) ==> Lookup(out, q).value.Obj?)
  }

  /** Exactly the listed paths, with the document's values, in objects that hold
      nothing else. */
  ghost predicate IsProjection(doc: Json, paths: set<Path>, out: Json) {
    forall q :: ProjectedAt(doc, paths, out, q)
  }

  lemma LookupPrefix(v: Json, q: Path, p: Path)
    requires q <= p && Lookup(v, p).Some?
    ensures Lookup(v, q).Some?
    ensures Lookup(v, p) == Lookup(Lookup(v, q).value, p[|q|..])
    ensures q != p ==> Lookup(v, q).value.Obj?
  {
    assert p == q + p[|q|..];
    LookupAppend(v, q, p[|q|..]);
  }

  /** A document with every place on the way to a present path inserted fits. */
  lemma {:induction false} FitsWhen(out: map<string, Json>, segs: Path)
    requires forall q :: q <= segs && q != segs && Lookup(Obj(out), q).Some? ==> Lookup(Obj(out), q).value.Obj?
    ensures Fits(out, segs)
    decreases |segs|
  {
    if |segs| > 1 && segs[0] in out {
      var first := [segs[0]];
      assert first <= segs;
      assert first[1..] == [];
      assert Lookup(Obj(out), first) == Some(out[segs[0]]);
      var fields := out[segs[0]].fields;
      forall q | q <= segs[1..] && q != segs[1..] && Lookup(Obj(fields), q).Some?
        ensures Lookup(Obj(fields), q).value.Obj?
      {
        var p := first + q;
        assert p[1..] == q && p != [];
        PrefixTail(p, segs);
        assert Lookup(Obj(out), p) == Lookup(Obj(fields), q);
        assert p != segs;
      }
      FitsWhen(fields, segs[1..]);
    }
  }

  /** Projecting one more path that the document has. */
  lemma InsertProjects(doc: Json, paths: set<Path>, out: map<string, Json>, segs: Path, value: Json, r: map<string, Json>)
    requires segs != [] && Lookup(doc, segs) == Some(value)
    requires IsProjection(doc, paths, Obj(out))
    requires if Fits(out, segs) then Inserted(out, segs, value, r) else r == out
    requires Lookup(Obj(out), segs) == Some(value) ==> r == out
    ensures IsProjection(doc, paths + {segs}, Obj(r))
  {
    PlaceFits(doc, paths, out, segs);
    if Covered(doc, paths, segs) {
      assert ProjectedAt(doc, paths, Obj(out), segs);
      forall q
        ensures ProjectedAt(doc, paths + {segs}, Obj(r), q)
      {
        AlreadyCovered(doc, paths, segs, q);
        assert ProjectedAt(doc, paths, Obj(out), q);
      }
    } else {
      forall q
        ensures ProjectedAt(doc, paths + {segs}, Obj(r), q)
      {
        assert ProjectedAt(doc, paths, Obj(out), q) && InsertedAt(out, segs, value, r, q);
        if segs <= q {
          AtOrBelow(doc, paths, segs, q);
        } else if q <= segs {
          OnTheWay(doc, paths, segs, q);
        } else {
          Elsewhere(doc, paths, segs, q);
        }
      }
    }
  }

  lemma PlaceFits(doc: Json, paths: set<Path>, out: map<string, Json>, segs: Path)
    requires Lookup(doc, segs).Some? && IsProjection(doc, paths, Obj(out))
    ensures Fits(out, segs)
  {
    forall q | q <= segs && q != segs && Lookup(Obj(out), q).Some?
      ensures Lookup(Obj(out), q).value.Obj?
    {
      assert ProjectedAt(doc, paths, Obj(out), q);
      LookupPrefix(doc, q, segs);
    }
    FitsWhen(out, segs);
  }

  lemma AlreadyCovered(doc: Json, paths: set<Path>, segs: Path, q: Path)
    requires Lookup(doc, segs).Some? && Covered(doc, paths, segs)
    ensures Covered(doc, paths + {segs}, q) <==> Covered(doc, paths, q)
    ensures Kept(doc, paths + {segs}, q) <==> Kept(doc, paths, q)
  {
    var more := paths + {segs};
    var p :| Listed(doc, paths, p) && p <= segs;
    forall o
      ensures Listed(doc, more, o) <==> Listed(doc, paths, o) || o == segs
    {
    }
    if Covered(doc, more, q) {
      var o :| Listed(doc, more, o) && o <= q;
      assert o == segs ==> p <= q;
    }
    if o :| Listed(doc, more, o) && q <= o {
      if o == segs {
        LookupPrefix(doc, q, segs);
        assert q <= p || p <= q;
      }
    }
    if o :| Listed(doc, paths, o) && q <= o {
      assert Listed(doc, more, o);
    }
  }

  lemma AtOrBelow(doc: Json, paths: set<Path>, segs: Path, q: Path)
    requires Lookup(doc, segs).Some? && segs <= q
    ensures Covered(doc, paths + {segs}, q)
    ensures Lookup(doc, q) == Lookup(Lookup(doc, segs).value, q[|segs|..])
    ensures Kept(doc, paths + {segs}, q) <==> Lookup(doc, q).Some?
  {
    assert Listed(doc, paths + {segs}, segs);
    assert q == segs + q[|segs|..];
    LookupAppend(doc, segs, q[|segs|..]);
    if Kept(doc, paths + {segs}, q) {
      if p :| Listed(doc, paths + {segs}, p) && q <= p {
        LookupPrefix(doc, q, p);
      }
    }
  }

  lemma OnTheWay(doc: Json, paths: set<Path>, segs: Path, q: Path)
    requires Lookup(doc, segs).Some? && q <= segs && q != segs && !Covered(doc, paths, segs)
    ensures Kept(doc, paths + {segs}, q) && !Covered(doc, paths + {segs}, q)
  {
    assert Listed(doc, paths + {segs}, segs);
    if Covered(doc, paths + {segs}, q) {
      var p :| Listed(doc, paths + {segs}, p) && p <= q;
      assert p <= segs && |p| < |segs|;
      assert Listed(doc, paths, p);
      assert false;
    }
  }

  lemma Elsewhere(doc: Json, paths: set<Path>, segs: Path, q: Path)
    requires !(segs <= q) && !(q <= segs)
    ensures Covered(doc, paths + {segs}, q) <==> Covered(doc, paths, q)
    ensures Kept(doc, paths + {segs}, q) <==> Kept(doc, paths, q)
  {
    forall p | p != segs
      ensures Listed(doc, paths + {segs}, p) <==> Listed(doc, paths, p)
    {
    }
    assert forall p :: Listed(doc, paths, p) ==> Listed(doc, paths + {segs}, p);
  }

  // ---- The projection -------------------------------------------------------

  predicate WellFormed(path: string) {
    "" !in Split(path)
  }

  function PathsOf(paths: seq<string>): (r: set<Path>)
    ensures [] !in r
  {
    set i | 0 <= i < |paths| && WellFormed(paths[i]) :: Split(paths[i])
  }

  /** Names that a listed path can be dotted from. */
  predicate Names(names: Path) {
    names != [] && forall i :: 0 <= i < |names| ==> names[i] != "" && '.' !in names[i]
  }

  /** The paths of a list are the names its entries are dotted from; an entry with
      an empty piece is no path. */
  lemma PathsExactlyWhen(paths: seq<string>, names: Path)
    ensures names in PathsOf(paths) <==> Names(names) && Dotted(names) in paths
  {
    if names in PathsOf(paths) {
      var i :| 0 <= i < |paths| && WellFormed(paths[i]) && names == Split(paths[i]);
      SplitAtDots(paths[i]);
      SplitDotted(paths[i]);
      forall k | 0 <= k < |names|
        ensures names[k] != ""
      {
        assert names[k] in names;
      }
    }
    if Names(names) && Dotted(names) in paths {
      SplitOf(names);
      var i :| 0 <= i < |paths| && paths[i] == Dotted(names);
      assert WellFormed(paths[i]);
    }
  }

  lemma PathsGrow(paths: seq<string>, i: nat)
    requires i < |paths|
    ensures PathsOf(paths[..i + 1]) ==
            PathsOf(paths[..i]) + if WellFormed(paths[i]) then {Split(paths[i])} else {}
  {
    var more, less := paths[..i + 1], paths[..i];
    forall p | p in PathsOf(more)
      ensures p in PathsOf(less) || (WellFormed(paths[i]) && p == Split(paths[i]))
    {
      var j :| 0 <= j < |more| && WellFormed(more[j]) && p == Split(more[j]);
      if j < i {
        assert less[j] == more[j];
      }
    }
    forall p | p in PathsOf(less)
      ensures p in PathsOf(more)
    {
      var j :| 0 <= j < |less| && WellFormed(less[j]) && p == Split(less[j]);
      assert more[j] == less[j];
    }
    if WellFormed(paths[i]) {
      assert more[i] == paths[i];
    }
  }

  lemma NothingListed(doc: Json)
    ensures IsProjection(doc, {}, Obj(map[]))
  {
  }

  lemma MissingPath(doc: Json, paths: set<Path>, segs: Path, out: Json)
    requires Lookup(doc, segs).None? && IsProjection(doc, paths, out)
    ensures IsProjection(doc, paths + {segs}, out)
  {
    forall q
      ensures ProjectedAt(doc, paths + {segs}, out, q)
    {
      assert ProjectedAt(doc, paths, out, q);
      forall p
        ensures Listed(doc, paths + {segs}, p) <==> Listed(doc, paths, p)
      {
      }
    }
  }

  method ApplyProjection(doc: Json, paths: seq<string>) returns (r: Json)
    ensures IsProjection(doc, PathsOf(paths), r)
  {
    var out: map<string, Json> := map[];
    NothingListed(doc);
    assert paths[..0] == [] && PathsOf([]) == {};
    hide IsProjection, Inserted, Fits, PathsOf;
    for i := 0 to |paths|
      invariant IsProjection(doc, PathsOf(paths[..i]), Obj(out))
    {
      PathsGrow(paths, i);
      var segs := Split(paths[i]);
      if "" !in segs {
        var v := Find(doc, segs);
        if v.Some? {
          var was := out;
          out := InsertNested(was, segs, v.value);
          InsertProjects(doc, PathsOf(paths[..i]), was, segs, v.value, out);
        } else {
          MissingPath(doc, PathsOf(paths[..i]), segs, Obj(out));
        }
      } else {
        assert PathsOf(paths[..i]) + {} == PathsOf(paths[..i]);
      }
    }
    assert paths[..|paths|] == paths;
    return Obj(out);
  }

  // ---- What follows ---------------------------------------------------------

  ghost function MaxLength(paths: set<Path>): (n: nat)
    ensures forall p :: p in paths ==> |p| <= n
  {
    if paths == {} then 0
    else
      var p :| p in paths;
      Max(|p|, MaxLength(paths - {p}))
  }

  /** Two projections of one document agree everywhere. */
  lemma {:induction false} ProjectionsAgree(doc: Json, paths: set<Path>, a: Json, b: Json, q: Path)
    requires IsProjection(doc, paths, a) && IsProjection(doc, paths, b) && Kept(doc, paths, q)
    ensures Lookup(a, q).Some? && Lookup(a, q) == Lookup(b, q)
    decreases MaxLength(paths) + 1 - |q|
  {
    assert ProjectedAt(doc, paths, a, q) && ProjectedAt(doc, paths, b, q);
    if !Covered(doc, paths, q) {
      var x, y := Lookup(a, q).value, Lookup(b, q).value;
      if q != [] {
        var p :| Listed(doc, paths, p) && q <= p;
        assert |q| <= MaxLength(paths);
      }
      forall k
        ensures k in x.fields <==> k in y.fields
        ensures k in x.fields ==> x.fields[k] == y.fields[k]
      {
        ChildLookup(a, q, k);
        ChildLookup(b, q, k);
        assert ProjectedAt(doc, paths, a, q + [k]) && ProjectedAt(doc, paths, b, q + [k]);
        if k in x.fields {
          ProjectionsAgree(doc, paths, a, b, q + [k]);
        }
      }
      assert x.fields == y.fields;
    }
  }

  lemma ChildLookup(v: Json, q: Path, k: string)
    requires Lookup(v, q).Some? && Lookup(v, q).value.Obj?
    ensures var fields := Lookup(v, q).value.fields;
            Lookup(v, q + [k]) == if k in fields then Some(fields[k]) else None
  {
    LookupAppend(v, q, [k]);
    assert [k][1..] == [];
  }

  /** There is only one projection of a document onto a set of paths. */
  lemma ProjectionUnique(doc: Json, paths: set<Path>, a: Json, b: Json)
    requires IsProjection(doc, paths, a) && IsProjection(doc, paths, b)
    ensures a == b
  {
    ProjectionsAgree(doc, paths, a, b, []);
  }

  /** Neither the order of the list, nor overlaps or repetitions in it, matter. */
  lemma OrderIrrelevant(doc: Json, ps: seq<string>, qs: seq<string>, a: Json, b: Json)
    requires forall p :: p in ps <==> p in qs
    requires IsProjection(doc, PathsOf(ps), a) && IsProjection(doc, PathsOf(qs), b)
    ensures a == b
  {
    assert PathsOf(ps) == PathsOf(qs) by {
      PathsWithin(ps, qs);
      PathsWithin(qs, ps);
    }
    ProjectionUnique(doc, PathsOf(ps), a, b);
  }

  lemma PathsWithin(ps: seq<string>, qs: seq<string>)
    requires forall p :: p in ps ==> p in qs
    ensures PathsOf(ps) <= PathsOf(qs)
  {
    forall s | s in PathsOf(ps)
      ensures s in PathsOf(qs)
    {
      var i :| 0 <= i < |ps| && WellFormed(ps[i]) && s == Split(ps[i]);
      assert ps[i] in ps;
      var j :| 0 <= j < |qs| && qs[j] == ps[i];
    }
  }

  /** Names that are listed, joined by dots, find in the projection what they find
      in the document. */
  lemma ProjectionKeepsListed(doc: Json, paths: seq<string>, out: Json, names: Path)
    requires IsProjection(doc, PathsOf(paths), out) && Names(names) && Dotted(names) in paths
    ensures Lookup(out, names) == Lookup(doc, names)
  {
    PathsExactlyWhen(paths, names);
    assert ProjectedAt(doc, PathsOf(paths), out, names);
    if Lookup(doc, names).Some? {
      assert Listed(doc, PathsOf(paths), names);
    } else if Kept(doc, PathsOf(paths), names) {
      var o :| Listed(doc, PathsOf(paths), o) && names <= o;
      LookupPrefix(doc, names, o);
      assert false;
    }
  }

  /** Everything found anywhere in the projection is the document's, or an object
      on the way to a listed path. */
  lemma ProjectionAddsNothing(doc: Json, paths: set<Path>, out: Json, q: Path)
    requires IsProjection(doc, paths, out) && q != [] && Lookup(out, q).Some?
    ensures Lookup(doc, q).Some?
    ensures Lookup(out, q) == Lookup(doc, q) ||
            (Lookup(out, q).value.Obj? && Lookup(doc, q).value.Obj? && exists p :: Listed(doc, paths, p) && q <= p)
  {
    assert ProjectedAt(doc, paths, out, q);
    if !Covered(doc, paths, q) {
      var p :| Listed(doc, paths, p) && q <= p;
      LookupPrefix(doc, q, p);
      assert p <= p && q != p;
    }
  }

  /** Projecting a projection onto the same paths changes nothing. */
  lemma ProjectionIdempotent(doc: Json, paths: set<Path>, out: Json, again: Json)
    requires IsProjection(doc, paths, out) && IsProjection(out, paths, again)
    ensures again == out
  {
    forall p
      ensures Listed(out, paths, p) <==> Listed(doc, paths, p)
    {
      assert ProjectedAt(doc, paths, out, p);
      if Listed(doc, paths, p) {
        assert p <= p;
      } else if Listed(out, paths, p) {
        if o :| Listed(doc, paths, o) && p <= o {
          LookupPrefix(doc, p, o);
        }
      }
    }
    forall q
      ensures ProjectedAt(out, paths, out, q)
    {
      assert ProjectedAt(doc, paths, out, q);
      assert Covered(out, paths, q) <==> Covered(doc, paths, q);
    }
    ProjectionUnique(out, paths, out, again);
  }
}
