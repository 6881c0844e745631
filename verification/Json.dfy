/** JSON values as the server holds them. An object is a map, because the
    server's JSON maps are ordered by key and compare as maps. */
module JsonValues {
  import opened Prelude

  datatype Number = Int(i: int) | Real(r: real)

  datatype Json =
    | Null
    | Bool(b: bool)
    | Num(n: Number)
    | Str(s: string)
    | Arr(items: seq<Json>)
    | Obj(fields: map<string, Json>)

  /** Descent by field name; arrays and scalars have no fields. */
  function Lookup(v: Json, path: seq<string>): Option<Json>
    decreases |path|
  {
    if path == [] then Some(v)
    else if v.Obj? && path[0] in v.fields then Lookup(v.fields[path[0]], path[1..])
    else None
  }

  method Find(v: Json, path: seq<string>) returns (r: Option<Json>)
    ensures r == Lookup(v, path)
  {
    var cur := v;
    for i := 0 to |path|
      invariant Lookup(v, path) == Lookup(cur, path[i..])
    {
      if !(cur.Obj? && path[i] in cur.fields) {
        return None;
      }
      cur := cur.fields[path[i]];
    }
    return Some(cur);
  }

  lemma {:induction false} LookupAppend(v: Json, p: seq<string>, q: seq<string>)
    ensures Lookup(v, p + q) ==
            if Lookup(v, p).Some? then Lookup(Lookup(v, p).value, q) else None
    decreases |p|
  {
    if p == [] {
      assert p + q == q;
    } else {
      assert (p + q)[1..] == p[1..] + q;
      if v.Obj? && p[0] in v.fields {
        LookupAppend(v.fields[p[0]], p[1..], q);
      }
    }
  }

  /** The entries of an object in the order the server iterates them. */
  function Entries(fields: map<string, Json>): (r: seq<(string, Json)>)
    ensures |r| == |fields|
    ensures forall i :: 0 <= i < |r| ==> r[i].0 in fields && r[i].1 == fields[r[i].0]
    ensures forall i, j :: 0 <= i < j < |r| ==> Less(r[i].0, r[j].0)
    ensures forall k {:trigger (k, fields[k]) in r} :: k in fields ==> (k, fields[k]) in r
  {
    var keys := Sorted(fields.Keys);
    var r := seq(|keys|, i requires 0 <= i < |keys| => assert keys[i] in keys; (keys[i], fields[keys[i]]));
    assert forall k :: k in fields ==> (k, fields[k]) in r by {
      forall k | k in fields
        ensures (k, fields[k]) in r
      {
        assert k in keys;
        var i :| 0 <= i < |keys| && keys[i] == k;
        assert r[i] == (k, fields[k]);
      }
    }
    r
  }
}
