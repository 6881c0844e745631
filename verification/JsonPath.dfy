/** Names and JSON paths: the scanner that accepts client-supplied paths, the
    translation of dotted fields, and the grammar both are proved against. */
module JsonPaths {
  import opened Prelude

  /** One step of a path: `.name`, or `[digits]`. */
  datatype Segment = Field(name: string) | Element(digits: string)

  predicate IsDigit(c: char) {
    '0' <= c <= '9'
  }

  predicate IsIdent(c: char) {
    'a' <= c <= 'z' || 'A' <= c <= 'Z' || '0' <= c <= '9' || c == '_'
  }

  /** Letters, digits and underscores, and not their neighbours. */
  lemma IdentBounds(c: char)
    ensures IdentText("azAZ09_") && (IsIdent(c) ==> '0' <= c <= 'z')
    ensures c in "/:@[^`{.-$ " ==> !IsIdent(c)
    ensures IsDigit(c) ==> IsIdent(c)
  {
  }

  predicate IdentText(s: string) {
    s != [] && forall i :: 0 <= i < |s| ==> IsIdent(s[i])
  }

  predicate DigitText(s: string) {
    s != [] && forall i :: 0 <= i < |s| ==> IsDigit(s[i])
  }

  predicate ValidSegment(s: Segment) {
    match s
    case Field(name) => IdentText(name)
    case Element(digits) => DigitText(digits)
  }

  ghost predicate ValidSegments(segs: seq<Segment>) {
    forall i :: 0 <= i < |segs| ==> ValidSegment(segs[i])
  }

  function SegmentText(s: Segment): string {
    match s
    case Field(name) => "." + name
    case Element(digits) => "[" + digits + "]"
  }

  function SegmentsText(segs: seq<Segment>): string {
    if segs == [] then "" else SegmentText(segs[0]) + SegmentsText(segs[1..])
  }

  /** The path grammar: `$` and then segments. */
  function PathText(segs: seq<Segment>): string {
    "$" + SegmentsText(segs)
  }

  // ---- A deterministic reader of the grammar --------------------------------

  function IdentRun(t: string): (n: nat)
    ensures n <= |t|
    ensures forall i :: 0 <= i < n ==> IsIdent(t[i])
    ensures n < |t| ==> !IsIdent(t[n])
  {
    if t == "" || !IsIdent(t[0]) then 0 else 1 + IdentRun(t[1..])
  }

  function DigitRun(t: string): (n: nat)
    ensures n <= |t|
    ensures forall i :: 0 <= i < n ==> IsDigit(t[i])
    ensures n < |t| ==> !IsDigit(t[n])
  {
    if t == "" || !IsDigit(t[0]) then 0 else 1 + DigitRun(t[1..])
  }

  /** The first segment of a text and how many characters it takes. */
  function ReadSegment(t: string): (r: Option<(Segment, nat)>)
    ensures r.Some? ==> 0 < r.value.1 <= |t| && ValidSegment(r.value.0) && SegmentText(r.value.0) == t[..r.value.1]
  {
    if t == "" then None
    else if t[0] == '.' then
      var n := IdentRun(t[1..]);
      if n == 0 then None else Some((Field(t[1..1 + n]), 1 + n))
    else if t[0] == '[' then
      var n := DigitRun(t[1..]);
      if n == 0 || 1 + n == |t| || t[1 + n] != ']' then None
      else Some((Element(t[1..1 + n]), 2 + n))
    else None
  }

  function ReadSegments(t: string): Option<seq<Segment>>
    decreases |t|
  {
    if t == "" then Some([])
    else
      match ReadSegment(t)
      case None => None
      case Some((seg, n)) =>
        match ReadSegments(t[n..])
        case None => None
        case Some(rest) => Some([seg] + rest)
  }

  function ReadPath(path: string): Option<seq<Segment>> {
    if path == "" || path[0] != '$' then None else ReadSegments(path[1..])
  }

  lemma {:induction false} RunsAreMaximal(t: string, n: nat)
    requires n <= |t|
    ensures (forall i :: 0 <= i < n ==> IsIdent(t[i])) && (n < |t| ==> !IsIdent(t[n])) ==> IdentRun(t) == n
    ensures (forall i :: 0 <= i < n ==> IsDigit(t[i])) && (n < |t| ==> !IsDigit(t[n])) ==> DigitRun(t) == n
  {
    if n > 0 {
      RunsAreMaximal(t[1..], n - 1);
      assert (forall i :: 0 <= i < n ==> IsIdent(t[i])) ==> forall i :: 0 <= i < n - 1 ==> IsIdent(t[1..][i]);
      assert (forall i :: 0 <= i < n ==> IsDigit(t[i])) ==> forall i :: 0 <= i < n - 1 ==> IsDigit(t[1..][i]);
    }
  }

  /** What starts a further segment never continues an identifier. */
  lemma SegmentsStart(segs: seq<Segment>)
    ensures segs != [] ==> SegmentsText(segs) != "" && !IsIdent(SegmentsText(segs)[0])
  {
  }

  lemma ReadsField(name: string, rest: string)
    requires IdentText(name)
    requires rest != "" ==> !IsIdent(rest[0])
    ensures ReadSegment("." + name + rest) == Some((Field(name), 1 + |name|))
  {
    var t := "." + name + rest;
    assert t[1..] == name + rest;
    RunsAreMaximal(name + rest, |name|);
    assert t[1..1 + |name|] == name;
  }

  lemma ReadsElement(digits: string, rest: string)
    requires DigitText(digits)
    ensures ReadSegment("[" + digits + "]" + rest) == Some((Element(digits), 2 + |digits|))
  {
    var t := "[" + digits + "]" + rest;
    assert t[1..] == digits + ("]" + rest);
    RunsAreMaximal(digits + ("]" + rest), |digits|);
    assert t[1..1 + |digits|] == digits;
  }

  /** A segment reads back from in front of anything that does not continue it. */
  lemma ReadsOne(seg: Segment, rest: string)
    requires ValidSegment(seg)
    requires rest != "" ==> !IsIdent(rest[0])
    ensures ReadSegment(SegmentText(seg) + rest) == Some((seg, |SegmentText(seg)|))
  {
    match seg {
      case Field(name) => ReadsField(name, rest);
      case Element(digits) => ReadsElement(digits, rest);
    }
  }

  lemma {:induction false} ReadsBack(segs: seq<Segment>)
    requires ValidSegments(segs)
    ensures ReadSegments(SegmentsText(segs)) == Some(segs)
  {
    if segs != [] {
      var t, rest := SegmentsText(segs), SegmentsText(segs[1..]);
      SegmentsStart(segs[1..]);
      ReadsBack(segs[1..]);
      ReadsOne(segs[0], rest);
      assert t[|SegmentText(segs[0])|..] == rest;
      assert segs == [segs[0]] + segs[1..];
    }
  }

  lemma {:induction false} ReadsOnlyText(t: string)
    ensures ReadSegments(t).Some? ==>
              ValidSegments(ReadSegments(t).value) && SegmentsText(ReadSegments(t).value) == t
    decreases |t|
  {
    if ReadSegments(t).Some? && t != "" {
      var (seg, n) := ReadSegment(t).value;
      ReadsOnlyText(t[n..]);
      var segs := ReadSegments(t).value;
      assert segs[1..] == ReadSegments(t[n..]).value;
      assert t == t[..n] + t[n..];
    }
  }

  ghost predicate WellFormedPath(path: string) {
    exists segs: seq<Segment> :: ValidSegments(segs) && path == PathText(segs)
  }

  /** The reader accepts exactly the grammar, and a path has one reading. */
  lemma PathGrammar(path: string)
    ensures WellFormedPath(path) <==> ReadPath(path).Some?
    ensures forall segs | ValidSegments(segs) && path == PathText(segs) :: ReadPath(path) == Some(segs)
  {
    forall segs | ValidSegments(segs) && path == PathText(segs)
      ensures ReadPath(path) == Some(segs)
    {
      ReadsBack(segs);
      assert path[1..] == SegmentsText(segs);
    }
    if ReadPath(path).Some? {
      ReadsOnlyText(path[1..]);
      assert path == PathText(ReadPath(path).value);
    }
  }

  /** Whether the text from position `i` is a run of segments. */
  ghost predicate SegmentsFrom(t: string, i: nat)
    requires i <= |t|
  {
    ReadSegments(t[i..]).Some?
  }

  /** How many characters of the class the run after position `i` has. */
  function IdentsFrom(t: string, i: nat): nat
    requires i <= |t|
  {
    IdentRun(t[i..])
  }

  function DigitsFrom(t: string, i: nat): nat
    requires i <= |t|
  {
    DigitRun(t[i..])
  }

  lemma RunStep(t: string, i: nat)
    requires i <= |t|
    ensures i < |t| && IsIdent(t[i]) ==> IdentsFrom(t, i) == 1 + IdentsFrom(t, i + 1)
    ensures i == |t| || !IsIdent(t[i]) ==> IdentsFrom(t, i) == 0
    ensures i < |t| && IsDigit(t[i]) ==> DigitsFrom(t, i) == 1 + DigitsFrom(t, i + 1)
    ensures i == |t| || !IsDigit(t[i]) ==> DigitsFrom(t, i) == 0
  {
    if i < |t| {
      assert t[i..][1..] == t[i + 1..];
    }
  }

  lemma DotStep(t: string, start: nat, i: nat)
    requires start < i <= |t| && t[start] == '.'
    requires IdentsFrom(t, start + 1) == i - start - 1
    ensures SegmentsFrom(t, start) <==> i > start + 1 && SegmentsFrom(t, i)
  {
    var u := t[start..];
    assert u[1..] == t[start + 1..];
    assert u[i - start..] == t[i..];
  }

  lemma BracketStep(t: string, start: nat, i: nat)
    requires start < i <= |t| && t[start] == '['
    requires DigitsFrom(t, start + 1) == i - start - 1
    ensures SegmentsFrom(t, start) <==>
            i > start + 1 && i < |t| && t[i] == ']' && SegmentsFrom(t, i + 1)
  {
    var u := t[start..];
    assert u[1..] == t[start + 1..];
    if i < |t| {
      assert u[i + 1 - start..] == t[i + 1..];
    }
  }

  lemma OtherStep(t: string, start: nat)
    requires start < |t| && t[start] != '.' && t[start] != '['
    ensures !SegmentsFrom(t, start)
  {
  }

  /** The scanner's `.name` arm: the position after the longest identifier. */
  method ScanName(rest: string, start: nat) returns (ok: bool, i: nat)
    requires start < |rest| && rest[start] == '.'
    ensures start < i <= |rest|
    ensures SegmentsFrom(rest, start) <==> ok && SegmentsFrom(rest, i)
  {
    hide *;
    i := start + 1;
    var saw := false;
    while i < |rest| && IsIdent(rest[i])
      invariant start < i <= |rest|
      invariant saw <==> i > start + 1
      invariant i - start - 1 + IdentsFrom(rest, i) == IdentsFrom(rest, start + 1)
    {
      RunStep(rest, i);
      saw := true;
      i := i + 1;
    }
    RunStep(rest, i);
    DotStep(rest, start, i);
    ok := saw;
  }

  /** The scanner's `[index]` arm. */
  method ScanIndex(rest: string, start: nat) returns (ok: bool, i: nat)
    requires start < |rest| && rest[start] == '['
    ensures start < i <= |rest|
    ensures SegmentsFrom(rest, start) <==> ok && SegmentsFrom(rest, i)
  {
    hide *;
    i := start + 1;
    var saw := false;
    while i < |rest| && IsDigit(rest[i])
      invariant start < i <= |rest|
      invariant saw <==> i > start + 1
      invariant i - start - 1 + DigitsFrom(rest, i) == DigitsFrom(rest, start + 1)
    {
      RunStep(rest, i);
      saw := true;
      i := i + 1;
    }
    RunStep(rest, i);
    BracketStep(rest, start, i);
    if i < |rest| && rest[i] == ']' {
      i := i + 1;
      ok := saw;
    } else {
      ok := false;
    }
  }

  lemma ScanBounds(path: string)
    requires path != "" && path[0] == '$'
    ensures WellFormedPath(path) <==> SegmentsFrom(path[1..], 0)
    ensures SegmentsFrom(path[1..], |path| - 1)
  {
    PathGrammar(path);
    assert path[1..][0..] == path[1..];
    assert path[1..][|path| - 1..] == "";
  }

  /** The scanner: one segment at a time over the characters after `$`. */
  method ValidJsonPath(path: string) returns (ok: bool)
    ensures ok <==> WellFormedPath(path)
  {
    if path == "" || path[0] != '$' {
      PathGrammar(path);
      return false;
    }
    ScanBounds(path);
    var rest := path[1..];
    hide *;
    var i := 0;
    while i < |rest|
      invariant 0 <= i <= |rest|
      invariant WellFormedPath(path) <==> SegmentsFrom(rest, i)
    {
      var good := false;
      if rest[i] == '.' {
        good, i := ScanName(rest, i);
      } else if rest[i] == '[' {
        good, i := ScanIndex(rest, i);
      } else {
        OtherStep(rest, i);
      }
      if !good {
        return false;
      }
    }
    return true;
  }

  // ---- Dotted field names ---------------------------------------------------

  /** The pieces between dots; always at least one. */
  function Split(s: string): (r: seq<string>)
    ensures |r| >= 1
  {
    if s == "" then [""]
    else
      var r := Split(s[1..]);
      if s[0] == '.' then [""] + r else [[s[0]] + r[0]] + r[1..]
  }

  function Dotted(segs: seq<string>): string {
    if segs == [] then "" else if |segs| == 1 then segs[0] else segs[0] + "." + Dotted(segs[1..])
  }

  lemma {:induction false} SplitDotted(s: string)
    ensures Dotted(Split(s)) == s
  {
    if s != "" {
      SplitDotted(s[1..]);
      var r := Split(s[1..]);
      if s[0] == '.' {
        assert Split(s)[1..] == r;
        assert s == "." + s[1..];
      } else {
        assert Split(s)[1..] == r[1..];
        assert s == [s[0]] + s[1..];
      }
    }
  }

  /** No piece has a dot in it. */
  lemma {:induction false} SplitAtDots(s: string)
    ensures forall i :: 0 <= i < |Split(s)| ==> '.' !in Split(s)[i]
  {
    if s != "" {
      SplitAtDots(s[1..]);
    }
  }

  /** So splitting a text is finding the names it is dotted from, of which there
      is one reading. */
  lemma {:induction false} SplitOf(names: seq<string>)
    requires names != [] && forall i :: 0 <= i < |names| ==> '.' !in names[i]
    ensures Split(Dotted(names)) == names
    decreases |names|, if names == [] then 0 else |names[0]|
  {
    var s, first := Dotted(names), names[0];
    if first != "" {
      var rest := [first[1..]] + names[1..];
      assert rest[1..] == names[1..];
      assert s[0] == first[0] && s[1..] == Dotted(rest);
      assert first[0] in first;
      SplitOf(rest);
      assert names == [first] + names[1..] && first == [first[0]] + first[1..];
    } else if |names| > 1 {
      SplitOf(names[1..]);
      assert s[0] == '.' && s[1..] == Dotted(names[1..]);
      assert names == [""] + names[1..];
    } else {
      assert names == [""];
    }
  }

  /** What a field is made of: identifiers, joined by single dots. */
  predicate FieldNames(names: seq<string>) {
    names != [] && forall i :: 0 <= i < |names| ==> IdentText(names[i])
  }

  lemma NamesSplit(names: seq<string>)
    requires FieldNames(names)
    ensures Split(Dotted(names)) == names && Dotted(names) != ""
  {
    forall i | 0 <= i < |names|
      ensures '.' !in names[i]
    {
      assert !IsIdent('.');
    }
    SplitOf(names);
    assert names[0] != "";
  }

  /** The valid fields, as text. */
  lemma ValidFieldExactlyWhen(field: string)
    ensures ValidField(field) <==> exists names :: FieldNames(names) && field == Dotted(names)
  {
    if ValidField(field) {
      SplitDotted(field);
      assert FieldNames(Split(field));
    }
    if names :| FieldNames(names) && field == Dotted(names) {
      NamesSplit(names);
    }
  }

  lemma {:induction false} FieldsText(names: seq<string>)
    requires names != []
    ensures SegmentsText(Fields(names)) == "." + Dotted(names)
  {
    var fields := Fields(names);
    assert fields[1..] == Fields(names[1..]);
    if |names| > 1 {
      FieldsText(names[1..]);
      var x, y := names[0], "." + Dotted(names[1..]);
      assert "." + x + y == "." + (x + y);
    } else {
      assert SegmentsText([]) == "";
    }
  }

  /** The path of a valid field is the field with `$.` before it. */
  lemma FieldPathText(field: string)
    ensures FieldPath(field) == if ValidField(field) then Some("$." + field) else None
  {
    if ValidField(field) {
      FieldsText(Split(field));
      SplitDotted(field);
      assert "$" + ("." + field) == "$." + field;
    }
  }

  function Fields(segs: seq<string>): (r: seq<Segment>)
    ensures |r| == |segs|
    ensures forall i :: 0 <= i < |segs| ==> r[i] == Field(segs[i])
  {
    seq(|segs|, i requires 0 <= i < |segs| => Field(segs[i]))
  }

  predicate ValidField(field: string) {
    field != "" && forall i :: 0 <= i < |Split(field)| ==> IdentText(Split(field)[i])
  }

  /** `$.a.b` for the names a, b. */
  function NamesPath(names: seq<string>): string {
    PathText(Fields(names))
  }

  function FieldPath(field: string): Option<string> {
    if ValidField(field) then Some(NamesPath(Split(field))) else None
  }

  lemma {:induction false} PathTextGrows(segs: seq<Segment>, last: Segment)
    ensures SegmentsText(segs + [last]) == SegmentsText(segs) + SegmentText(last)
  {
    if segs == [] {
      assert SegmentsText([last]) == SegmentText(last) + SegmentsText([]);
    } else {
      PathTextGrows(segs[1..], last);
      assert (segs + [last])[1..] == segs[1..] + [last];
      var x, y, z := SegmentText(segs[0]), SegmentsText(segs[1..]), SegmentText(last);
      assert x + (y + z) == (x + y) + z;
    }
  }

  lemma PathGrows(names: seq<string>, last: string)
    ensures NamesPath(names + [last]) == NamesPath(names) + ("." + last)
  {
    PathTextGrows(Fields(names), Field(last));
    assert Fields(names + [last]) == Fields(names) + [Field(last)];
    var x, y := SegmentsText(Fields(names)), "." + last;
    assert "$" + (x + y) == ("$" + x) + y;
  }

  lemma FieldStart(field: string)
    ensures NamesPath(Split(field)[..0]) == "$"
    ensures field == "" ==> FieldPath(field) == None
    ensures FieldPath(field) == if ValidField(field) then Some(NamesPath(Split(field)[..|Split(field)|])) else None
  {
    assert Split(field)[..|Split(field)|] == Split(field);
  }

  lemma FieldEnd(field: string, i: nat)
    requires i <= |Split(field)|
    ensures i < |Split(field)| && !IdentText(Split(field)[i]) ==> !ValidField(field)
    ensures i == |Split(field)| && field != "" && (forall k :: 0 <= k < i ==> IdentText(Split(field)[k])) ==> ValidField(field)
  {
  }

  lemma PrefixGrows(names: seq<string>, i: nat)
    requires i < |names|
    ensures NamesPath(names[..i + 1]) == NamesPath(names[..i]) + ("." + names[i])
  {
    PathGrows(names[..i], names[i]);
    assert names[..i + 1] == names[..i] + [names[i]];
  }

  method FieldToJsonPath(field: string) returns (r: Option<string>)
    ensures r == FieldPath(field)
    ensures r.Some? <==> exists names :: FieldNames(names) && field == Dotted(names)
    ensures r.Some? ==> r.value == "$." + field
  {
    FieldStart(field);
    FieldPathText(field);
    ValidFieldExactlyWhen(field);
    hide *;
    if field == "" {
      return None;
    }
    var out := "$";
    var parts := Split(field);
    for i := 0 to |parts|
      invariant out == NamesPath(parts[..i])
      invariant forall k :: 0 <= k < i ==> IdentText(parts[k])
    {
      FieldEnd(field, i);
      if !IdentText(parts[i]) {
        return None;
      }
      PrefixGrows(parts, i);
      out := out + ("." + parts[i]);
    }
    FieldEnd(field, |parts|);
    return Some(out);
  }

  method SplitField(key: string) returns (r: Option<seq<string>>)
    ensures r == if ValidField(key) then Some(Split(key)) else None
    ensures r.Some? <==> exists names :: FieldNames(names) && key == Dotted(names)
    ensures r.Some? ==> FieldNames(r.value) && key == Dotted(r.value)
  {
    ValidFieldExactlyWhen(key);
    SplitDotted(key);
    if key == "" {
      return None;
    }
    var parts := Split(key);
    var segs := [];
    for i := 0 to |parts|
      invariant segs == parts[..i]
      invariant forall k :: 0 <= k < i ==> IdentText(parts[k])
    {
      if !IdentText(parts[i]) {
        return None;
      }
      segs := segs + [parts[i]];
    }
    assert segs == parts;
    return Some(segs);
  }

  /** Every translated field is a well-formed path that reads back to the very
      names the field is dotted from, into which the subscription filter splits it. */
  lemma FieldPathReadsBack(field: string)
    requires ValidField(field)
    ensures WellFormedPath(FieldPath(field).value)
    ensures ReadPath(FieldPath(field).value) == Some(Fields(Split(field)))
    ensures FieldNames(Split(field)) && field == Dotted(Split(field))
  {
    SplitDotted(field);
    var segs := Fields(Split(field));
    assert ValidSegments(segs);
    PathGrammar(PathText(segs));
  }

  /** Different fields never share a path. */
  lemma FieldPathInjective(a: string, b: string)
    requires FieldPath(a).Some? && FieldPath(a) == FieldPath(b)
    ensures a == b
  {
    FieldPathReadsBack(a);
    FieldPathReadsBack(b);
    var s, t := Split(a), Split(b);
    assert Fields(s) == Fields(t);
    assert s == t by {
      assert forall i :: 0 <= i < |s| ==> Fields(s)[i] == Fields(t)[i];
    }
    SplitDotted(a);
    SplitDotted(b);
  }
}
