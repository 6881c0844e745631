/** The client's incremental event-stream parser, a one-pass reading of the same
    text, the frames the server sends, and the reading that sections 9.2.5 and
    9.2.6 of the WHATWG HTML Standard prescribe. */
module Sse {
  import opened Prelude
  import opened JsonValues

  /** `JSON.parse`; None when it throws. */
  type Parse = string -> Option<Json>

  datatype Frame = Frame(event: Option<string>, id: Option<string>, data: Option<string>)

  datatype Event = Event(kind: string, id: Option<string>, data: Json)

  /** What the generator yielded, and whether it threw. */
  datatype Outcome = Outcome(events: seq<Event>, failed: bool)

  datatype State = State(frame: Frame, out: Outcome)

  const NO_FRAME := Frame(None, None, None)

  // ---- Text -----------------------------------------------------------------

  /** White space and line terminators, as `trim` removes them. */
  predicate IsTrimmed(c: char) {
    var n := c as int;
    || 9 <= n <= 13 || n == 32 || n == 0xA0 || n == 0x1680 || 0x2000 <= n <= 0x200A
    || n == 0x2028 || n == 0x2029 || n == 0x202F || n == 0x205F || n == 0x3000 || n == 0xFEFF
  }

  /** The characters one by one. */
  lemma WhiteSpaceIs(c: char)
    ensures IsTrimmed(c) <==> c in "\U{0009}\U{000A}\U{000B}\U{000C}\U{000D}\U{0020}\U{00A0}\U{1680}\U{2000}\U{2001}\U{2002}\U{2003}\U{2004}\U{2005}\U{2006}\U{2007}\U{2008}\U{2009}\U{200A}\U{2028}\U{2029}\U{202F}\U{205F}\U{3000}\U{FEFF}"
  {
    var all := "\U{0009}\U{000A}\U{000B}\U{000C}\U{000D}\U{0020}\U{00A0}\U{1680}\U{2000}\U{2001}\U{2002}\U{2003}\U{2004}\U{2005}\U{2006}\U{2007}\U{2008}\U{2009}\U{200A}\U{2028}\U{2029}\U{202F}\U{205F}\U{3000}\U{FEFF}";
    if IsTrimmed(c) {
      var n := c as int;
      var i := if n <= 13 then n - 9 else if n == 32 then 5 else if n == 0xA0 then 6 else if n == 0x1680 then 7
               else if n <= 0x200A then n - 0x2000 + 8 else if n <= 0x2029 then n - 0x2028 + 19
               else if n == 0x202F then 21 else if n == 0x205F then 22 else if n == 0x3000 then 23 else 24;
      assert all[i] == c;
    }
  }

  function TrimStart(s: string): string {
    if s != "" && IsTrimmed(s[0]) then TrimStart(s[1..]) else s
  }

  function TrimEnd(s: string): string {
    if s != "" && IsTrimmed(s[|s| - 1]) then TrimEnd(s[..|s| - 1]) else s
  }

  function Trim(s: string): string {
    TrimEnd(TrimStart(s))
  }

  /** Trimming takes all white space from the ends, and nothing else. */
  lemma {:induction false} TrimStartTakes(s: string) returns (n: nat)
    ensures n <= |s| && TrimStart(s) == s[n..] && (n < |s| ==> !IsTrimmed(s[n]))
    ensures forall i :: 0 <= i < n ==> IsTrimmed(s[i])
  {
    if s != "" && IsTrimmed(s[0]) {
      var k := TrimStartTakes(s[1..]);
      n := k + 1;
      assert s[1..][k..] == s[n..];
    } else {
      n := 0;
    }
  }

  lemma {:induction false} TrimEndTakes(s: string) returns (n: nat)
    ensures n <= |s| && TrimEnd(s) == s[..n] && (n > 0 ==> !IsTrimmed(s[n - 1]))
    ensures forall i :: n <= i < |s| ==> IsTrimmed(s[i])
  {
    if s != "" && IsTrimmed(s[|s| - 1]) {
      n := TrimEndTakes(s[..|s| - 1]);
      assert s[..|s| - 1][..n] == s[..n];
    } else {
      n := |s|;
    }
  }

  /** `replace(/\r$/, "")` */
  function StripCr(s: string): string {
    if s != "" && s[|s| - 1] == '\r' then s[..|s| - 1] else s
  }

  /** The position of the first newline; the length when there is none. */
  function IndexOf(s: string): (k: nat)
    ensures k <= |s|
    ensures forall i :: 0 <= i < k ==> s[i] != '\n'
    ensures k < |s| ==> s[k] == '\n'
  {
    if s == "" || s[0] == '\n' then 0 else 1 + IndexOf(s[1..])
  }

  lemma IndexOfIs(s: string, k: nat)
    requires k <= |s| && (forall i :: 0 <= i < k ==> s[i] != '\n') && (k < |s| ==> s[k] == '\n')
    ensures IndexOf(s) == k
  {
  }

  // ---- One pass over the whole text -----------------------------------------

  /** The lines that end in a newline; what follows the last one is no line. */
  function Lines(text: string): seq<string>
    decreases |text|
  {
    var k := IndexOf(text);
    if k == |text| then [] else [text[..k]] + Lines(text[k + 1..])
  }

  function KindOf(f: Frame): string {
    if f.event.None? || f.event.value == "" then "message" else f.event.value
  }

  function Dispatch(s: State, parse: Parse): State {
    if s.frame.data.None? then s.(frame := NO_FRAME)
    else
      match parse(s.frame.data.value)
      case None => s.(out := s.out.(failed := true))
      case Some(v) => State(NO_FRAME, s.out.(events := s.out.events + [Event(KindOf(s.frame), s.frame.id, v)]))
  }

  function ValueOr(o: Option<string>, default: string): string {
    if o.Some? then o.value else default
  }

  function OnField(f: Frame, line: string): Frame {
    if "event:" <= line then f.(event := Some(Trim(line[6..])))
    else if "id:" <= line then f.(id := Some(Trim(line[3..])))
    else if "data:" <= line then f.(data := Some(ValueOr(f.data, "") + TrimStart(line[5..])))
    else f
  }

  function OnLine(s: State, raw: string, parse: Parse): State {
    var line := StripCr(raw);
    if line == "" then Dispatch(s, parse) else s.(frame := OnField(s.frame, line))
  }

  /** Lines until the parser throws. */
  function OnLines(s: State, lines: seq<string>, parse: Parse): State
    decreases |lines|
  {
    if lines == [] || s.out.failed then s else OnLines(OnLine(s, lines[0], parse), lines[1..], parse)
  }

  function ReadWhole(text: string, parse: Parse): Outcome {
    OnLines(State(NO_FRAME, Outcome([], false)), Lines(text), parse).out
  }

  // ---- The incremental parser -----------------------------------------------

  function Concat(chunks: seq<string>): string {
    if chunks == [] then "" else chunks[0] + Concat(chunks[1..])
  }

  lemma LinesStep(buffered: string, more: string)
    ensures var k := IndexOf(buffered);
            if k < |buffered| then Lines(buffered + more) == [buffered[..k]] + Lines(buffered[k + 1..] + more)
            else more == "" ==> Lines(buffered + more) == []
  {
    var k := IndexOf(buffered);
    if k < |buffered| {
      var text := buffered + more;
      IndexOfIs(text, k);
      assert text[..k] == buffered[..k] && text[k + 1..] == buffered[k + 1..] + more;
    } else if more == "" {
      assert buffered + more == buffered;
    }
  }

  lemma ConcatStep(chunks: seq<string>, i: nat)
    requires i < |chunks|
    ensures Concat(chunks[i..]) == chunks[i] + Concat(chunks[i + 1..])
  {
    assert chunks[i..][1..] == chunks[i + 1..];
  }

  lemma OnLinesStep(s: State, line: string, rest: seq<string>, parse: Parse)
    requires !s.out.failed
    ensures OnLines(s, [line] + rest, parse) == OnLines(OnLine(s, line, parse), rest, parse)
  {
    assert ([line] + rest)[1..] == rest;
  }

  lemma OnLineCases(s: State, raw: string, parse: Parse)
    ensures var line, f := StripCr(raw), s.frame;
            OnLine(s, raw, parse) ==
            if line != "" then s.(frame := OnField(f, line))
            else if f.data.None? then s.(frame := NO_FRAME)
            else if parse(f.data.value).None? then s.(out := Outcome(s.out.events, true))
            else State(NO_FRAME, Outcome(s.out.events + [Event(KindOf(f), f.id, parse(f.data.value).value)], s.out.failed))
  {
  }

  lemma OnLinesEnd(s: State, lines: seq<string>, parse: Parse)
    requires lines == [] || s.out.failed
    ensures OnLines(s, lines, parse) == s
  {
  }

  /** Whatever way the text is cut into chunks, the parser yields, and throws,
      what one pass over the whole text does. */
  method ReadEventStream(chunks: seq<string>, parse: Parse) returns (events: seq<Event>, failed: bool)
    ensures Outcome(events, failed) == ReadWhole(Concat(chunks), parse)
  {
    var buffered := "";
    var event := NO_FRAME;
    events, failed := [], false;
    ghost var rest := Concat(chunks);
    ghost var whole := OnLines(State(event, Outcome(events, failed)), Lines(buffered + rest), parse);
    assert buffered + rest == Concat(chunks);
    assert chunks[0..] == chunks && chunks[|chunks|..] == [];
    assert IndexOf("") == 0;
    assert Concat(chunks[|chunks|..]) == "";
    assert ReadWhole(Concat(chunks), parse) == whole.out;
    hide *;
    for i := 0 to |chunks|
      invariant !failed && rest == Concat(chunks[i..]) && IndexOf(buffered) == |buffered|
      invariant whole == OnLines(State(event, Outcome(events, failed)), Lines(buffered + rest), parse)
    {
      rest := Concat(chunks[i + 1..]);
      ConcatStep(chunks, i);
      Assoc(buffered, chunks[i], rest);
      buffered := buffered + chunks[i];
      var lineEnd := IndexOf(buffered);
      while lineEnd < |buffered|
        invariant lineEnd == IndexOf(buffered) && !failed
        invariant whole == OnLines(State(event, Outcome(events, failed)), Lines(buffered + rest), parse)
        decreases |buffered|
      {
        LinesStep(buffered, rest);
        var raw := buffered[..lineEnd];
        var line := StripCr(raw);
        buffered := buffered[lineEnd + 1..];
        ghost var s := State(event, Outcome(events, failed));
        OnLinesStep(s, raw, Lines(buffered + rest), parse);
        OnLineCases(s, raw, parse);
        if line == "" {
          if event.data.Some? {
            var data := parse(event.data.value);
            if data.None? {
              OnLinesEnd(State(event, Outcome(events, true)), Lines(buffered + rest), parse);
              return events, true;
            }
            events := events + [Event(KindOf(event), event.id, data.value)];
          }
          event := NO_FRAME;
        } else {
          event := OnField(event, line);
        }
        lineEnd := IndexOf(buffered);
      }
    }
    LinesStep(buffered, rest);
    OnLinesEnd(State(event, Outcome(events, failed)), [], parse);
  }

  // ---- What the server sends ------------------------------------------------

  datatype Item = FrameItem(id: Option<string>, event: string, data: string) | CommentItem(text: string)

  function ItemLines(item: Item): seq<string> {
    match item
    case FrameItem(id, event, data) =>
      (if id.Some? then ["id: " + id.value] else []) + ["event: " + event, "data: " + data, ""]
    case CommentItem(text) => [":" + text, ""]
  }

  function Terminated(lines: seq<string>): string {
    if lines == [] then "" else lines[0] + "\n" + Terminated(lines[1..])
  }

  function Print(items: seq<Item>): string {
    if items == [] then "" else Terminated(ItemLines(items[0])) + Print(items[1..])
  }

  predicate OneLine(s: string) {
    '\n' !in s
  }

  predicate Bare(s: string) {
    s != "" ==> !IsTrimmed(s[0]) && !IsTrimmed(s[|s| - 1])
  }

  /** What serialized seqs, event names and JSON objects are: one line each, with
      no white space around. */
  predicate Printable(item: Item, parse: Parse) {
    match item
    case FrameItem(id, event, data) =>
      && (id.Some? ==> OneLine(id.value) && Bare(id.value))
      && OneLine(event) && Bare(event) && event != ""
      && OneLine(data) && Bare(data) && parse(data).Some?
    case CommentItem(text) => OneLine(text)
  }

  function Sent(items: seq<Item>, parse: Parse): seq<Event>
    requires forall i :: 0 <= i < |items| ==> Printable(items[i], parse)
  {
    if items == [] then [] else SentOne(items[0], parse) + Sent(items[1..], parse)
  }

  function SentOne(item: Item, parse: Parse): seq<Event>
    requires Printable(item, parse)
  {
    match item
    case CommentItem(_) => []
    case FrameItem(id, event, data) => [Event(event, id, parse(data).value)]
  }

  lemma TrimBare(s: string)
    requires Bare(s)
    ensures TrimStart(" " + s) == s && Trim(" " + s) == s && StripCr(s) == s
  {
    assert (" " + s)[1..] == s;
  }

  lemma LineThen(line: string, more: string)
    requires OneLine(line)
    ensures Lines(line + "\n" + more) == [line] + Lines(more)
  {
    var text := line + "\n" + more;
    IndexOfIs(text, |line|);
    assert text[..|line|] == line && text[|line| + 1..] == more;
  }

  lemma TerminatedStep(line: string, lines: seq<string>)
    ensures Terminated([line] + lines) == line + "\n" + Terminated(lines)
  {
    assert ([line] + lines)[1..] == lines;
  }

  lemma {:induction false} LinesOfTerminated(lines: seq<string>, rest: string)
    requires forall i :: 0 <= i < |lines| ==> OneLine(lines[i])
    ensures Lines(Terminated(lines) + rest) == lines + Lines(rest)
  {
    if lines == [] {
      assert "" + rest == rest;
      assert [] + Lines(rest) == Lines(rest);
    } else {
      hide *;
      var first, others := lines[0], lines[1..];
      assert lines == [first] + others;
      LinesOfTerminated(others, rest);
      TerminatedStep(first, others);
      Assoc(first + "\n", Terminated(others), rest);
      LineThen(first, Terminated(others) + rest);
      Assoc([first], others, Lines(rest));
    }
  }

  lemma NoLine(rest: string)
    requires OneLine(rest)
    ensures Lines(rest) == []
  {
  }

  lemma FieldLine(f: Frame, name: string, value: string)
    requires Bare(value) && name in ["event: ", "id: ", "data: "]
    ensures StripCr(name + value) == name + value
    ensures name == "event: " ==> OnField(f, name + value) == f.(event := Some(value))
    ensures name == "id: " ==> OnField(f, name + value) == f.(id := Some(value))
    ensures name == "data: " ==> OnField(f, name + value) == f.(data := Some(ValueOr(f.data, "") + value))
  {
    TrimBare(value);
    var line := name + value;
    assert line[0] == name[0];
    if name == "event: " {
      assert line[6..] == " " + value;
    } else if name == "id: " {
      assert line[3..] == " " + value;
    } else {
      assert line[5..] == " " + value;
    }
  }

  lemma CommentLine(s: State, text: string, parse: Parse)
    ensures OnLine(s, ":" + text, parse) == s
  {
    var line := StripCr(":" + text);
    assert line != "" && line[0] == ':';
    assert "event:"[0] == 'e' && "id:"[0] == 'i' && "data:"[0] == 'd';
  }

  lemma OneMore(s: State, line: string, lines: seq<string>, rest: seq<string>, parse: Parse)
    requires !s.out.failed
    ensures OnLines(s, ([line] + lines) + rest, parse) == OnLines(OnLine(s, line, parse), lines + rest, parse)
  {
    Assoc([line], lines, rest);
    OnLinesStep(s, line, lines + rest, parse);
  }

  /** The parser reads back one printed item. */
  lemma ItemReadsBack(events: seq<Event>, item: Item, rest: seq<string>, parse: Parse)
    requires Printable(item, parse)
    ensures OnLines(State(NO_FRAME, Outcome(events, false)), ItemLines(item) + rest, parse) ==
            OnLines(State(NO_FRAME, Outcome(events + SentOne(item, parse), false)), rest, parse)
  {
    var s := State(NO_FRAME, Outcome(events, false));
    match item {
      case CommentItem(text) =>
        CommentItemReadsBack(s, text, rest, parse);
        assert events + [] == events;
      case FrameItem(id, event, data) =>
        var f := NO_FRAME.(id := id);
        if id.Some? {
          FieldLine(NO_FRAME, "id: ", id.value);
          OnLineCases(s, "id: " + id.value, parse);
          OneMore(s, "id: " + id.value, ["event: " + event, "data: " + data, ""], rest, parse);
        } else {
          assert [] + ["event: " + event, "data: " + data, ""] == ["event: " + event, "data: " + data, ""];
        }
        FrameReadsBack(s.(frame := f), event, data, rest, parse);
    }
  }

  lemma CommentItemReadsBack(s: State, text: string, rest: seq<string>, parse: Parse)
    requires s.frame == NO_FRAME && !s.out.failed
    ensures OnLines(s, [":" + text, ""] + rest, parse) == OnLines(s, rest, parse)
  {
    hide OnLines;
    CommentLine(s, text, parse);
    assert [":" + text, ""] == [":" + text] + [""] && [""] == [""] + [];
    OneMore(s, ":" + text, [""], rest, parse);
    OneMore(s, "", [], rest, parse);
    assert [] + rest == rest;
  }

  lemma FrameReadsBack(s: State, event: string, data: string, rest: seq<string>, parse: Parse)
    requires s.frame.event.None? && s.frame.data.None? && !s.out.failed
    requires Bare(event) && event != "" && Bare(data) && parse(data).Some?
    ensures OnLines(s, ["event: " + event, "data: " + data, ""] + rest, parse) ==
            OnLines(State(NO_FRAME, Outcome(s.out.events + [Event(event, s.frame.id, parse(data).value)], false)), rest, parse)
  {
    var e, d := "event: " + event, "data: " + data;
    FieldLine(s.frame, "event: ", event);
    var t := s.(frame := s.frame.(event := Some(event)));
    FieldLine(t.frame, "data: ", data);
    var u := t.(frame := t.frame.(data := Some(data)));
    assert "" + data == data;
    OnLineCases(s, e, parse);
    OnLineCases(t, d, parse);
    OnLineCases(u, "", parse);
    hide OnLines, OnLine, OnField, StripCr, Trim, TrimStart;
    assert [e, d, ""] == [e] + [d, ""] && [d, ""] == [d] + [""] && [""] == [""] + [];
    OneMore(s, e, [d, ""], rest, parse);
    OneMore(t, d, [""], rest, parse);
    OneMore(u, "", [], rest, parse);
    assert [] + rest == rest;
  }

  lemma {:induction false} ItemsReadBack(events: seq<Event>, items: seq<Item>, tail: string, parse: Parse)
    requires forall i :: 0 <= i < |items| ==> Printable(items[i], parse)
    requires OneLine(tail)
    ensures OnLines(State(NO_FRAME, Outcome(events, false)), Lines(Print(items) + tail), parse) ==
            State(NO_FRAME, Outcome(events + Sent(items, parse), false))
    decreases |items|
  {
    if items == [] {
      assert "" + tail == tail;
      NoLine(tail);
      assert events + [] == events;
    } else {
      var item, more := items[0], Print(items[1..]) + tail;
      Assoc(Terminated(ItemLines(item)), Print(items[1..]), tail);
      ItemIsLines(item, parse);
      LinesOfTerminated(ItemLines(item), more);
      hide Lines, OnLines, Terminated, Printable, SentOne, ItemLines;
      ItemReadsBack(events, item, Lines(more), parse);
      ItemsReadBack(events + SentOne(item, parse), items[1..], tail, parse);
      Assoc(events, SentOne(item, parse), Sent(items[1..], parse));
    }
  }

  lemma ItemIsLines(item: Item, parse: Parse)
    requires Printable(item, parse)
    ensures forall i :: 0 <= i < |ItemLines(item)| ==> OneLine(ItemLines(item)[i])
  {
  }

  /** Round trip: the frames a server sent, with any comments between them, are
      read back as they were, however they were cut into chunks, and a line cut
      off at the end of the stream adds nothing. */
  lemma FramesReadBack(items: seq<Item>, tail: string, parse: Parse)
    requires forall i :: 0 <= i < |items| ==> Printable(items[i], parse)
    requires OneLine(tail)
    ensures ReadWhole(Print(items) + tail, parse) == Outcome(Sent(items, parse), false)
  {
    hide Lines, OnLines, Printable, Print, Sent;
    ItemsReadBack([], items, tail, parse);
    assert [] + Sent(items, parse) == Sent(items, parse);
  }

  // ---- The standard's reading -----------------------------------------------

  /** The position of the first carriage return or newline. */
  function LineEnd(s: string): (k: nat)
    ensures k <= |s|
    ensures forall i :: 0 <= i < k ==> s[i] != '\n' && s[i] != '\r'
    ensures k < |s| ==> s[k] == '\n' || s[k] == '\r'
  {
    if s == "" || s[0] == '\n' || s[0] == '\r' then 0 else 1 + LineEnd(s[1..])
  }

  /** Section 9.2.5: a line ends in CR LF, LF or CR. */
  function StandardLines(text: string): seq<string>
    decreases |text|
  {
    var k := LineEnd(text);
    if k == |text| then []
    else if text[k] == '\r' && k + 1 < |text| && text[k + 1] == '\n' then [text[..k]] + StandardLines(text[k + 2..])
    else [text[..k]] + StandardLines(text[k + 1..])
  }

  /** The type and data buffers and the events dispatched, as (type, data). */
  datatype Buffers = Buffers(kind: string, data: string, events: seq<(string, string)>)

  function DropSpace(s: string): string {
    if s != "" && s[0] == ' ' then s[1..] else s
  }

  function Colon(line: string): (k: nat)
    ensures k <= |line|
    ensures forall i :: 0 <= i < k ==> line[i] != ':'
    ensures k < |line| ==> line[k] == ':'
  {
    if line == "" || line[0] == ':' then 0 else 1 + Colon(line[1..])
  }

  function StandardField(b: Buffers, field: string, value: string): Buffers {
    if field == "event" then b.(kind := value)
    else if field == "data" then b.(data := b.data + value + "\n")
    else b
  }

  /** Section 9.2.6, leaving out the last event ID and the reconnection time. */
  function StandardLine(b: Buffers, line: string): Buffers {
    if line == "" then
      if b.data == "" then b.(kind := "")
      else Buffers("", "", b.events + [(if b.kind == "" then "message" else b.kind, b.data[..|b.data| - 1])])
    else
      var k := Colon(line);
      if k == 0 then b
      else if k < |line| then StandardField(b, line[..k], DropSpace(line[k + 1..]))
      else StandardField(b, line, "")
  }

  function StandardRun(b: Buffers, lines: seq<string>): Buffers
    decreases |lines|
  {
    if lines == [] then b else StandardRun(StandardLine(b, lines[0]), lines[1..])
  }

  /** Every carriage return belongs to a line end. */
  predicate NoLoneReturn(text: string) {
    forall i :: 0 <= i < |text| && text[i] == '\r' ==> i + 1 < |text| && text[i + 1] == '\n'
  }

  // ---- One event's lines, read both ways ------------------------------------

  predicate IsData(line: string) {
    "data:" <= line
  }

  /** A data field to the standard: a line without a colon is all name. */
  predicate IsDataField(line: string) {
    IsData(line) || line == "data"
  }

  function StandardValue(line: string): string
    requires IsDataField(line)
  {
    if line == "data" then "" else DropSpace(line[5..])
  }

  /** The text the parser hands to `JSON.parse`: trimmed at the start of each line
      and run together. */
  function Glued(block: seq<string>): Option<string> {
    if block == [] then None
    else
      var before, last := Glued(block[..|block| - 1]), block[|block| - 1];
      if IsData(last) then Some(ValueOr(before, "") + TrimStart(last[5..])) else before
  }

  /** The data of the standard: joined with newlines. */
  function Joined(block: seq<string>): Option<string> {
    if block == [] then None
    else
      var before, last := Joined(block[..|block| - 1]), block[|block| - 1];
      if !IsDataField(last) then before
      else Some((if before.None? then "" else before.value + "\n") + StandardValue(last))
  }

  function ParserName(block: seq<string>): string {
    if block == [] then ""
    else
      var last := block[|block| - 1];
      if "event:" <= last then Trim(last[6..]) else ParserName(block[..|block| - 1])
  }

  function StandardName(block: seq<string>): string {
    if block == [] then ""
    else
      var last := block[|block| - 1];
      if "event:" <= last then DropSpace(last[6..]) else if last == "event" then "" else StandardName(block[..|block| - 1])
  }

  function Kind(name: string): string {
    if name == "" then "message" else name
  }

  /** The lines before an empty one make no event, or one of the same type whose
      data is the same JSON. */
  predicate BlockAgrees(block: seq<string>, parse: Parse) {
    Joined(block).Some? ==>
    && Glued(block).Some?
    && parse(Glued(block).value) == parse(Joined(block).value)
    && Kind(ParserName(block)) == Kind(StandardName(block))
  }

  /** Every event of the lines agrees; `block` is what came since the last empty line. */
  predicate Agreeing(lines: seq<string>, block: seq<string>, parse: Parse)
    decreases |lines|
  {
    lines == [] ||
    if lines[0] == "" then BlockAgrees(block, parse) && Agreeing(lines[1..], [], parse)
    else Agreeing(lines[1..], block + [lines[0]], parse)
  }

  /** One data line, with no white space at its start but for one space. */
  ghost predicate OneCleanLine(block: seq<string>) {
    exists i :: 0 <= i < |block| && CleanAt(block, i)
  }

  predicate CleanAt(block: seq<string>, i: nat)
    requires i < |block|
  {
    && IsData(block[i]) && DropSpace(block[i][5..]) == TrimStart(block[i][5..])
    && forall j :: 0 <= j < |block| && j != i ==> !IsDataField(block[j])
  }

  function DataFields(block: seq<string>): nat {
    if block == [] then 0
    else DataFields(block[..|block| - 1]) + if IsDataField(block[|block| - 1]) then 1 else 0
  }

  lemma {:induction false} TrimShortens(s: string)
    ensures |TrimStart(s)| <= |DropSpace(s)| <= |s|
  {
    if s != "" && IsTrimmed(s[0]) {
      TrimShortens(s[1..]);
    }
  }

  /** Each further data line makes the standard's data longer than the parser's. */
  lemma {:induction false} LengthGap(block: seq<string>)
    ensures DataFields(block) == 0 <==> Joined(block).None?
    ensures Joined(block).Some? ==> DataFields(block) <= |Joined(block).value| + 1
    ensures Glued(block).Some? ==> Joined(block).Some? && |Glued(block).value| + DataFields(block) <= |Joined(block).value| + 1
  {
    if block != [] {
      var last := block[|block| - 1];
      LengthGap(block[..|block| - 1]);
      assert IsData(last) ==> last != "data";
      hide TrimStart, DropSpace;
      if IsData(last) {
        TrimShortens(last[5..]);
      }
    }
  }

  lemma {:induction false} NoFields(block: seq<string>)
    ensures DataFields(block) == 0 <==> forall j :: 0 <= j < |block| ==> !IsDataField(block[j])
    ensures DataFields(block) == 0 ==> Glued(block).None?
  {
    if block != [] {
      NoFields(block[..|block| - 1]);
    }
  }

  /** The place of the only data field, and what both make of it. */
  lemma {:induction false} OnlyField(block: seq<string>) returns (i: nat)
    requires DataFields(block) == 1
    ensures i < |block| && IsDataField(block[i]) && Joined(block) == Some(StandardValue(block[i]))
    ensures Glued(block) == if IsData(block[i]) then Some(TrimStart(block[i][5..])) else None
    ensures forall j :: 0 <= j < |block| && j != i ==> !IsDataField(block[j])
  {
    var n := |block| - 1;
    hide DropSpace, TrimStart;
    if IsDataField(block[n]) {
      NoFields(block[..n]);
      LengthGap(block[..n]);
      assert forall j :: 0 <= j < n ==> block[..n][j] == block[j];
      i := n;
      assert "" + StandardValue(block[n]) == StandardValue(block[n]);
      if IsData(block[n]) {
        assert "" + TrimStart(block[n][5..]) == TrimStart(block[n][5..]);
      }
    } else {
      i := OnlyField(block[..n]);
      assert forall j :: 0 <= j < n ==> block[..n][j] == block[j];
    }
  }

  lemma {:induction false} CountsOne(block: seq<string>, i: nat)
    requires i < |block| && IsDataField(block[i]) && forall j :: 0 <= j < |block| && j != i ==> !IsDataField(block[j])
    ensures DataFields(block) == 1
  {
    var n := |block| - 1;
    if i == n {
      NoFields(block[..n]);
    } else {
      CountsOne(block[..n], i);
    }
  }

  /** An event's data reaches `JSON.parse` exactly as the standard has it if and
      only if it has one data line, with at most one space before the value. */
  lemma SameDataExactlyWhen(block: seq<string>)
    ensures Glued(block).Some? && Glued(block) == Joined(block) <==> OneCleanLine(block)
  {
    LengthGap(block);
    hide Glued, Joined, DataFields, DropSpace, TrimStart;
    if DataFields(block) == 1 {
      var i := OnlyField(block);
      if Glued(block) == Joined(block) {
        assert block[i] != "data";
        assert CleanAt(block, i);
      }
    }
    if OneCleanLine(block) {
      var i :| 0 <= i < |block| && CleanAt(block, i);
      CountsOne(block, i);
      var j := OnlyField(block);
      assert i == j;
      assert "data:"[4] == ':' && block[i] != "data";
    }
  }

  /** So an event with one such line agrees whenever its name does. */
  lemma OneCleanLineAgrees(block: seq<string>, parse: Parse)
    requires OneCleanLine(block) && Kind(ParserName(block)) == Kind(StandardName(block))
    ensures BlockAgrees(block, parse)
  {
    SameDataExactlyWhen(block);
    hide Glued, Joined;
  }

  /** The line that names the event to the standard: the last one of its field. */
  function NameLine(block: seq<string>): (r: Option<nat>)
    ensures r.Some? ==> r.value < |block| && ("event:" <= block[r.value] || block[r.value] == "event")
  {
    if block == [] then None
    else
      var n := |block| - 1;
      if "event:" <= block[n] || block[n] == "event" then Some(n) else NameLine(block[..n])
  }

  /** An event has the standard's type if and only if no line names it, or the last
      one that does has no white space around the name but at most one space
      before it, or that line is bare and the parser, which takes no notice of it,
      has come upon no other name than the default. */
  lemma {:induction false} SameNameExactlyWhen(block: seq<string>)
    ensures Kind(ParserName(block)) == Kind(StandardName(block)) <==>
            match NameLine(block)
            case None => true
            case Some(i) => if block[i] == "event" then Kind(ParserName(block[..i])) == "message"
                            else Trim(block[i][6..]) == DropSpace(block[i][6..])
  {
    if block != [] {
      var n := |block| - 1;
      var last := block[n];
      if "event:" <= last {
        assert last != "event";
        NamesDiffer(last[6..]);
      } else if last != "event" {
        SameNameExactlyWhen(block[..n]);
        var i := NameLine(block[..n]);
        assert i.Some? ==> block[..n][..i.value] == block[..i.value];
      }
    }
  }

  /** Two different names are different types: none reads as the default. */
  lemma NamesDiffer(value: string)
    ensures Kind(Trim(value)) == Kind(DropSpace(value)) <==> Trim(value) == DropSpace(value)
  {
    if DropSpace(value) == "message" {
      TrimBare("message");
      assert value[0] == ' ' ==> value == " " + value[1..];
      assert value == "message" || value == " " + "message";
      assert Trim("message") == "message" by {
        assert TrimStart("message") == "message";
      }
    }
    if DropSpace(value) == "" {
      assert value == "" || value == " ";
      assert value != "" ==> TrimStart(value) == TrimStart("");
      assert TrimStart("") == "" && Trim(value) == TrimEnd("");
      assert TrimEnd("") == "";
    }
  }

  lemma NoLoneTail(text: string, j: nat)
    requires NoLoneReturn(text) && j <= |text|
    ensures NoLoneReturn(text[j..])
  {
  }

  /** The first line to the parser. */
  lemma ParserLine(text: string, k: nat)
    requires k < |text| && text[k] == '\n' && forall i :: 0 <= i < k ==> text[i] != '\n'
    ensures Lines(text) == [text[..k]] + Lines(text[k + 1..])
  {
    IndexOfIs(text, k);
    hide IndexOf;
  }

  /** The first line to the standard, and where it goes on. */
  lemma StandardFirst(text: string) returns (k: nat, next: nat)
    requires LineEnd(text) < |text|
    ensures k == LineEnd(text) < next <= |text| && (forall i :: 0 <= i < k ==> text[i] != '\n' && text[i] != '\r')
    ensures text[k] == '\n' || text[k] == '\r'
    ensures next == if text[k] == '\r' && k + 1 < |text| && text[k + 1] == '\n' then k + 2 else k + 1
    ensures StandardLines(text) == [text[..k]] + StandardLines(text[next..])
  {
    k := LineEnd(text);
    hide LineEnd;
    next := if text[k] == '\r' && k + 1 < |text| && text[k + 1] == '\n' then k + 2 else k + 1;
  }

  lemma LoneAt(text: string, k: nat)
    requires NoLoneReturn(text) && k < |text| && text[k] == '\r'
    ensures k + 1 < |text| && text[k + 1] == '\n'
  {
  }

  /** The first line, by both readings, and where each goes on. */
  lemma FirstLine(text: string) returns (raw: string, line: string, next: nat)
    requires NoLoneReturn(text) && LineEnd(text) < |text|
    ensures 0 < next <= |text| && line == StripCr(raw) && '\r' !in line
    ensures Lines(text) == [raw] + Lines(text[next..])
    ensures StandardLines(text) == [line] + StandardLines(text[next..])
  {
    hide Lines, StandardLines, LineEnd, NoLoneReturn;
    var k;
    k, next := StandardFirst(text);
    line := text[..k];
    if text[k] == '\r' {
      LoneAt(text, k);
      assert text[..k + 1][..k] == line;
    }
    raw := text[..next - 1];
    ParserLine(text, next - 1);
  }

  lemma {:induction false} SameLines(text: string)
    requires NoLoneReturn(text)
    ensures |StandardLines(text)| == |Lines(text)|
    ensures forall i :: 0 <= i < |Lines(text)| ==>
              StandardLines(text)[i] == StripCr(Lines(text)[i]) && '\r' !in StandardLines(text)[i]
    decreases |text|
  {
    if LineEnd(text) < |text| {
      var raw, line, next := FirstLine(text);
      NoLoneTail(text, next);
      hide Lines, StandardLines, NoLoneReturn, StripCr, LineEnd;
      SameLines(text[next..]);
    } else {
      IndexOfIs(text, |text|);
    }
  }

  /** Each lone carriage return is one more line to the standard. */
  lemma {:induction false} MoreLines(text: string)
    ensures |Lines(text)| <= |StandardLines(text)|
    ensures !NoLoneReturn(text) ==> |Lines(text)| < |StandardLines(text)|
    decreases |text|
  {
    if LineEnd(text) < |text| {
      hide *;
      var next := MoreStep(text);
      MoreLines(text[next..]);
    } else {
      IndexOfIs(text, |text|);
    }
  }

  lemma MoreStep(text: string) returns (next: nat)
    requires LineEnd(text) < |text|
    ensures 0 < next <= |text| && |StandardLines(text)| == |StandardLines(text[next..])| + 1
    ensures |Lines(text)| == |Lines(text[next..])| + (if text[next - 1] == '\n' then 1 else 0)
    ensures text[next - 1] == '\n' && NoLoneReturn(text[next..]) ==> NoLoneReturn(text)
  {
    hide *;
    var k;
    k, next := StandardFirst(text);
    if text[next - 1] == '\n' {
      ParserLine(text, next - 1);
      if NoLoneReturn(text[next..]) {
        LoneAfter(text, k, next);
      }
    } else {
      LineGoesOn(text, next);
    }
  }

  lemma LineGoesOn(text: string, next: nat)
    requires next <= |text| && forall i :: 0 <= i < next ==> text[i] != '\n'
    ensures |Lines(text)| == |Lines(text[next..])|
  {
    hide *;
    var rest := text[next..];
    assert text == text[..next] + rest;
    GoesOn(text[..next], rest);
    var i := IndexOf(rest);
    if i < |rest| {
      IndexWithin(rest, i);
      IndexWithin(text, next + i);
      ParserLine(rest, i);
      ParserLine(text, next + i);
      assert text[next + i + 1..] == rest[i + 1..];
    } else {
      NoneEnds(rest);
      NoneEnds(text);
    }
  }

  lemma NoneEnds(text: string)
    requires IndexOf(text) == |text|
    ensures Lines(text) == []
  {
    hide IndexOf;
  }

  lemma IndexWithin(text: string, k: nat)
    requires IndexOf(text) == k < |text|
    ensures text[k] == '\n' && forall i :: 0 <= i < k ==> text[i] != '\n'
  {
  }

  lemma GoesOn(begun: string, rest: string)
    requires forall i :: 0 <= i < |begun| ==> begun[i] != '\n'
    ensures IndexOf(begun + rest) == |begun| + IndexOf(rest)
  {
    IndexOfIs(begun + rest, |begun| + IndexOf(rest));
  }

  lemma LoneAfter(text: string, k: nat, next: nat)
    requires k < next <= |text| && next <= k + 2 && (forall i :: 0 <= i < k ==> text[i] != '\r')
    requires text[next - 1] == '\n' && NoLoneReturn(text[next..])
    ensures NoLoneReturn(text)
  {
    assert text[next - 1] != '\r';
    forall i | 0 <= i < |text| && text[i] == '\r'
      ensures i + 1 < |text| && text[i + 1] == '\n'
    {
      if i >= next {
        assert text[next..][i - next] == '\r';
      }
    }
  }

  /** The parser and the standard split a stream into the same lines if and only if
      it has no lone carriage return. */
  lemma SameLinesExactlyWhen(text: string)
    ensures NoLoneReturn(text) <==>
            |StandardLines(text)| == |Lines(text)| &&
            forall i :: 0 <= i < |Lines(text)| ==> StandardLines(text)[i] == StripCr(Lines(text)[i])
  {
    MoreLines(text);
    if NoLoneReturn(text) {
      SameLines(text);
    }
    hide *;
  }

  /** The parser strips carriage returns itself. */
  lemma {:induction false} StrippedLines(s: State, raw: seq<string>, lines: seq<string>, parse: Parse)
    requires |raw| == |lines|
    requires forall i :: 0 <= i < |raw| ==> lines[i] == StripCr(raw[i]) && '\r' !in lines[i]
    ensures OnLines(s, raw, parse) == OnLines(s, lines, parse)
    decreases |raw|
  {
    if raw != [] && !s.out.failed {
      assert StripCr(lines[0]) == lines[0];
      StrippedLines(OnLine(s, raw[0], parse), raw[1..], lines[1..], parse);
    }
  }

  /** The events yielded are the standard's, with their data parsed, up to the
      first that does not parse. */
  predicate SameEvents(out: Outcome, events: seq<(string, string)>, parse: Parse) {
    && |out.events| <= |events|
    && (forall i :: 0 <= i < |out.events| ==>
          out.events[i].kind == events[i].0 && parse(events[i].1) == Some(out.events[i].data))
    && (if out.failed then |out.events| < |events| && parse(events[|out.events|].1).None?
        else |out.events| == |events|)
  }

  /** Both readings in the middle of a block. */
  predicate Coupled(s: State, b: Buffers, block: seq<string>) {
    && !s.out.failed
    && s.frame.data == Glued(block) && ValueOr(s.frame.event, "") == ParserName(block)
    && b.kind == StandardName(block)
    && b.data == (if Joined(block).None? then "" else Joined(block).value + "\n")
  }

  lemma {:induction false} StandardGrows(b: Buffers, lines: seq<string>)
    ensures b.events <= StandardRun(b, lines).events
    decreases |lines|
  {
    if lines != [] {
      StandardGrows(StandardLine(b, lines[0]), lines[1..]);
    }
  }

  /** What one line that is not empty adds to the standard's buffers. */
  lemma StandardCases(b: Buffers, line: string)
    requires line != ""
    ensures StandardLine(b, line) ==
            b.(kind := if "event:" <= line then DropSpace(line[6..]) else if line == "event" then "" else b.kind,
               data := if IsDataField(line) then b.data + StandardValue(line) + "\n" else b.data)
  {
    hide DropSpace;
    if "event:" <= line {
      assert line[0] == 'e' && !IsDataField(line);
      hide StandardLine;
      StandardNamed(b, line, "event");
    } else if "data:" <= line {
      assert line[0] == 'd' && line[4] == ':' && line != "data" && line != "event";
      hide StandardLine;
      StandardNamed(b, line, "data");
    } else if line == "data" || line == "event" {
      NoColon(line);
      hide Colon;
      assert b.data + "" == b.data;
    } else {
      hide StandardLine;
      StandardOther(b, line);
    }
  }

  lemma NoColon(line: string)
    requires ':' !in line
    ensures Colon(line) == |line|
  {
  }

  lemma StandardNamed(b: Buffers, line: string, field: string)
    requires field + ":" <= line && field in ["event", "data"]
    ensures StandardLine(b, line) == StandardField(b, field, DropSpace(line[|field| + 1..]))
  {
    ColonIs(line, field);
    hide StandardField, DropSpace;
  }

  /** A line of another field changes neither buffer. */
  lemma StandardOther(b: Buffers, line: string)
    requires line != "" && line != "event" && line != "data" && !("event:" <= line) && !("data:" <= line)
    ensures StandardLine(b, line) == b
  {
    hide DropSpace, Trim, TrimStart;
    var k := Colon(line);
    if 0 < k < |line| {
      var field := line[..k];
      assert line == field + ":" + line[k + 1..];
      assert field + ":" <= line;
      assert field != "event" && field != "data";
    }
  }

  lemma ColonIs(line: string, field: string)
    requires field + ":" <= line && ':' !in field
    ensures Colon(line) == |field| && line[..|field|] == field
  {
    assert line[|field|] == ':';
    assert forall i :: 0 <= i < |field| ==> line[i] == field[i];
  }

  /** What the end of a block adds to the events of both. */
  lemma DispatchMatches(s: State, b: Buffers, block: seq<string>, parse: Parse)
    requires Coupled(s, b, block)
    ensures var t, c := Dispatch(s, parse), StandardLine(b, "");
            && (!t.out.failed ==> Coupled(t, c, []))
            && c.events == (if Joined(block).None? then b.events
                            else b.events + [(Kind(StandardName(block)), Joined(block).value)])
            && (Glued(block).None? ==> t.out == s.out)
            && (Glued(block).Some? ==> Joined(block).Some?)
            && (Glued(block).Some? ==>
                  if parse(Glued(block).value).None? then t.out == Outcome(s.out.events, true)
                  else t.out == Outcome(s.out.events + [Event(Kind(ParserName(block)), s.frame.id, parse(Glued(block).value).value)], false))
  {
    LengthGap(block);
    hide Glued, Joined, ParserName, StandardName;
    NoBlock();
    if Joined(block).Some? {
      assert b.data[..|b.data| - 1] == Joined(block).value;
    }
  }

  /** So their events stay the same over an event that agrees. */
  lemma DispatchAgrees(s: State, b: Buffers, block: seq<string>, parse: Parse)
    requires Coupled(s, b, block) && SameEvents(s.out, b.events, parse) && BlockAgrees(block, parse)
    ensures SameEvents(Dispatch(s, parse).out, StandardLine(b, "").events, parse)
  {
    DispatchMatches(s, b, block, parse);
    hide Glued, Joined, ParserName, StandardName, Dispatch, StandardLine, Coupled, Kind;
  }

  /** And only then, as long as the parser neither throws nor falls behind. */
  lemma DispatchAgreed(s: State, b: Buffers, block: seq<string>, parse: Parse)
    requires Coupled(s, b, block) && |s.out.events| == |b.events|
    requires var t, c := Dispatch(s, parse), StandardLine(b, "");
             && !t.out.failed && |t.out.events| == |c.events|
             && forall i :: 0 <= i < |t.out.events| ==>
                  t.out.events[i].kind == c.events[i].0 && parse(c.events[i].1) == Some(t.out.events[i].data)
    ensures BlockAgrees(block, parse)
  {
    DispatchMatches(s, b, block, parse);
    hide Glued, Joined, ParserName, StandardName, Dispatch, StandardLine, Coupled, Kind;
    if Joined(block).Some? {
      var n := |b.events|;
      assert StandardLine(b, "").events[n].1 == Joined(block).value;
    }
  }

  lemma NoBlock()
    ensures Glued([]) == None && Joined([]) == None && ParserName([]) == "" && StandardName([]) == ""
  {
  }

  lemma BlockGrows(block: seq<string>, line: string)
    ensures Glued(block + [line]) ==
            if IsData(line) then Some(ValueOr(Glued(block), "") + TrimStart(line[5..])) else Glued(block)
    ensures Joined(block + [line]) ==
            if !IsDataField(line) then Joined(block)
            else Some((if Joined(block).None? then "" else Joined(block).value + "\n") + StandardValue(line))
    ensures ParserName(block + [line]) == if "event:" <= line then Trim(line[6..]) else ParserName(block)
    ensures StandardName(block + [line]) ==
            if "event:" <= line then DropSpace(line[6..]) else if line == "event" then "" else StandardName(block)
  {
    assert (block + [line])[..|block|] == block;
  }

  lemma LineMatches(s: State, b: Buffers, block: seq<string>, line: string)
    requires Coupled(s, b, block) && line != ""
    ensures Coupled(s.(frame := OnField(s.frame, line)), StandardLine(b, line), block + [line])
    ensures StandardLine(b, line).events == b.events
  {
    BlockGrows(block, line);
    StandardCases(b, line);
    FieldCases(s.frame, line);
    hide Glued, Joined, ParserName, StandardName, StandardLine, OnField, Trim, TrimStart, DropSpace, StandardValue;
    if IsDataField(line) && Joined(block).Some? {
      Assoc(Joined(block).value + "\n", StandardValue(line), "\n");
    }
  }

  lemma FieldCases(f: Frame, line: string)
    ensures OnField(f, line).event == if "event:" <= line then Some(Trim(line[6..])) else f.event
    ensures OnField(f, line).data == if IsData(line) then Some(ValueOr(f.data, "") + TrimStart(line[5..])) else f.data
  {
    hide Trim, TrimStart;
    assert "event:" <= line ==> line[0] == 'e';
    assert "id:" <= line ==> line[0] == 'i';
    assert "data:" <= line ==> line[0] == 'd';
  }

  lemma {:induction false} CoupledRun(s: State, b: Buffers, lines: seq<string>, block: seq<string>, parse: Parse)
    requires Coupled(s, b, block) && SameEvents(s.out, b.events, parse) && Agreeing(lines, block, parse)
    requires forall i :: 0 <= i < |lines| ==> '\r' !in lines[i]
    ensures SameEvents(OnLines(s, lines, parse).out, StandardRun(b, lines).events, parse)
    decreases |lines|
  {
    CoupledGoes(s, b, block);
    hide Coupled, OnLine, StandardLine, Dispatch, OnField, StripCr, BlockAgrees, SameEvents;
    if lines != [] {
      var line, rest := lines[0], lines[1..];
      NoReturn(line);
      LineRead(s, line, parse);
      var t, c := OnLine(s, line, parse), StandardLine(b, line);
      if line == "" {
        DispatchMatches(s, b, block, parse);
        DispatchAgrees(s, b, block, parse);
        if t.out.failed {
          StandardGrows(c, rest);
          OnLinesEnd(t, rest, parse);
          MoreEvents(t.out, c.events, StandardRun(c, rest).events, parse);
        } else {
          CoupledRun(t, c, rest, [], parse);
        }
      } else {
        LineMatches(s, b, block, line);
        CoupledRun(t, c, rest, block + [line], parse);
      }
    }
  }

  lemma CoupledGoes(s: State, b: Buffers, block: seq<string>)
    requires Coupled(s, b, block)
    ensures !s.out.failed
  {
  }

  /** Each reading only adds events, and the parser no more than the standard. */
  lemma {:induction false} NeverAhead(s: State, b: Buffers, lines: seq<string>, block: seq<string>, parse: Parse)
    requires Coupled(s, b, block)
    requires forall i :: 0 <= i < |lines| ==> '\r' !in lines[i]
    ensures var out, events := OnLines(s, lines, parse).out, StandardRun(b, lines).events;
            && s.out.events <= out.events && b.events <= events
            && |out.events| + |b.events| <= |events| + |s.out.events|
    decreases |lines|
  {
    CoupledGoes(s, b, block);
    hide Coupled, OnLine, StandardLine, Dispatch, OnField, StripCr;
    if lines != [] {
      var line, rest := lines[0], lines[1..];
      NoReturn(line);
      LineRead(s, line, parse);
      var t, c := OnLine(s, line, parse), StandardLine(b, line);
      if line == "" {
        DispatchMatches(s, b, block, parse);
        if t.out.failed {
          StandardGrows(c, rest);
          OnLinesEnd(t, rest, parse);
        } else {
          NeverAhead(t, c, rest, [], parse);
        }
      } else {
        LineMatches(s, b, block, line);
        NeverAhead(t, c, rest, block + [line], parse);
      }
    }
  }

  /** When the parser does not throw and the events are the same, every event agrees. */
  lemma {:induction false} SameIsAgreeing(s: State, b: Buffers, lines: seq<string>, block: seq<string>, parse: Parse)
    requires Coupled(s, b, block) && |s.out.events| == |b.events|
    requires forall i :: 0 <= i < |lines| ==> '\r' !in lines[i]
    requires var out := OnLines(s, lines, parse).out; !out.failed && SameEvents(out, StandardRun(b, lines).events, parse)
    ensures Agreeing(lines, block, parse)
    decreases |lines|
  {
    CoupledGoes(s, b, block);
    hide Coupled, OnLine, StandardLine, Dispatch, OnField, StripCr, BlockAgrees;
    if lines != [] {
      var line, rest := lines[0], lines[1..];
      NoReturn(line);
      LineRead(s, line, parse);
      var t, c := OnLine(s, line, parse), StandardLine(b, line);
      if line == "" {
        DispatchMatches(s, b, block, parse);
        if t.out.failed {
          OnLinesEnd(t, rest, parse);
        } else {
          NeverAhead(t, c, rest, [], parse);
          DispatchAgreed(s, b, block, parse);
          SameIsAgreeing(t, c, rest, [], parse);
        }
      } else {
        LineMatches(s, b, block, line);
        SameIsAgreeing(t, c, rest, block + [line], parse);
      }
    }
  }

  lemma NoReturn(line: string)
    requires '\r' !in line
    ensures StripCr(line) == line
  {
  }

  lemma LineRead(s: State, line: string, parse: Parse)
    requires StripCr(line) == line
    ensures OnLine(s, line, parse) == if line == "" then Dispatch(s, parse) else s.(frame := OnField(s.frame, line))
  {
    hide Dispatch, OnField;
  }

  lemma MoreEvents(out: Outcome, events: seq<(string, string)>, more: seq<(string, string)>, parse: Parse)
    requires out.failed && SameEvents(out, events, parse) && events <= more
    ensures SameEvents(out, more, parse)
  {
  }

  /** On a stream whose events agree one by one, the parser yields the standard's
      events: same type, same JSON value. When it does not throw, it yields them
      only then. Both split a stream into the same lines exactly if it has no lone
      carriage return (`SameLinesExactlyWhen`). */
  lemma AgreesWithStandard(text: string, parse: Parse)
    requires NoLoneReturn(text)
    ensures var out, lines := ReadWhole(text, parse), StandardLines(text);
            var events := StandardRun(Buffers("", "", []), lines).events;
            && (Agreeing(lines, [], parse) ==> SameEvents(out, events, parse))
            && (!out.failed ==> (SameEvents(out, events, parse) <==> Agreeing(lines, [], parse)))
  {
    SameLines(text);
    var s, b := State(NO_FRAME, Outcome([], false)), Buffers("", "", []);
    StrippedLines(s, Lines(text), StandardLines(text), parse);
    NoBlock();
    assert Coupled(s, b, []);
    hide Lines, StandardLines, OnLines, StandardRun, Agreeing, Coupled;
    if Agreeing(StandardLines(text), [], parse) {
      CoupledRun(s, b, StandardLines(text), [], parse);
    } else if !ReadWhole(text, parse).failed && SameEvents(ReadWhole(text, parse), StandardRun(b, StandardLines(text)).events, parse) {
      SameIsAgreeing(s, b, StandardLines(text), [], parse);
    }
  }

  // ---- The parser block by block --------------------------------------------

  /** The id of an event: its block's last id line, trimmed. */
  function BlockId(block: seq<string>): Option<string> {
    if block == [] then None
    else
      var last := block[|block| - 1];
      if "id:" <= last then Some(Trim(last[3..])) else BlockId(block[..|block| - 1])
  }

  /** What the parser makes of stripped lines: each block that has data is an event
      of its own, with the type, id and data of that block alone, up to the first
      whose data does not parse. */
  function ByBlock(lines: seq<string>, block: seq<string>, parse: Parse): Outcome
    decreases |lines|
  {
    if lines == [] then Outcome([], false)
    else if lines[0] != "" then ByBlock(lines[1..], block + [lines[0]], parse)
    else if Glued(block).None? then ByBlock(lines[1..], [], parse)
    else
      match parse(Glued(block).value)
      case None => Outcome([], true)
      case Some(v) =>
        var rest := ByBlock(lines[1..], [], parse);
        Outcome([Event(Kind(ParserName(block)), BlockId(block), v)] + rest.events, rest.failed)
  }

  /** The parser's frame in the middle of a block. */
  predicate Framed(s: State, block: seq<string>) {
    && !s.out.failed && s.frame.data == Glued(block) && s.frame.id == BlockId(block)
    && ValueOr(s.frame.event, "") == ParserName(block)
  }

  lemma FramedLine(s: State, block: seq<string>, line: string)
    requires Framed(s, block)
    ensures Framed(s.(frame := OnField(s.frame, line)), block + [line])
  {
    BlockGrows(block, line);
    FieldCases(s.frame, line);
    assert (block + [line])[..|block|] == block;
    hide Glued, Joined, ParserName, StandardName, Trim, TrimStart;
    assert "event:" <= line ==> line[0] == 'e';
    assert "id:" <= line ==> line[0] == 'i';
    assert "data:" <= line ==> line[0] == 'd';
  }

  lemma FramedEnd(s: State, block: seq<string>, parse: Parse)
    requires Framed(s, block)
    ensures var t := Dispatch(s, parse);
            if Glued(block).None? then t.out == s.out && Framed(t, [])
            else if parse(Glued(block).value).None? then t.out == Outcome(s.out.events, true)
            else
              && t.out == Outcome(s.out.events + [Event(Kind(ParserName(block)), BlockId(block), parse(Glued(block).value).value)], false)
              && Framed(t, [])
  {
    hide Trim, TrimStart;
    NoBlock();
    assert BlockId([]) == None;
    hide Glued, ParserName, BlockId;
  }

  lemma RawRead(s: State, raw: string, parse: Parse)
    ensures OnLine(s, raw, parse) == if StripCr(raw) == "" then Dispatch(s, parse) else s.(frame := OnField(s.frame, StripCr(raw)))
  {
    hide Dispatch, OnField, StripCr;
  }

  lemma {:induction false} LinesByBlock(s: State, raw: seq<string>, lines: seq<string>, block: seq<string>, parse: Parse)
    requires Framed(s, block) && |raw| == |lines| && forall i :: 0 <= i < |raw| ==> lines[i] == StripCr(raw[i])
    ensures var r := ByBlock(lines, block, parse);
            OnLines(s, raw, parse).out == Outcome(s.out.events + r.events, r.failed)
    decreases |raw|
  {
    hide Framed, OnLine, Dispatch, OnField, StripCr, Glued, ParserName, BlockId, Kind;
    FramedGoes(s, block);
    if raw == [] {
      assert s.out.events + [] == s.out.events;
    } else {
      var line, rest := lines[0], lines[1..];
      RawRead(s, raw[0], parse);
      var t := OnLine(s, raw[0], parse);
      if line != "" {
        FramedLine(s, block, line);
        LinesByBlock(t, raw[1..], rest, block + [line], parse);
      } else {
        FramedEnd(s, block, parse);
        if t.out.failed {
          OnLinesEnd(t, raw[1..], parse);
          assert s.out.events + [] == s.out.events;
        } else {
          LinesByBlock(t, raw[1..], rest, [], parse);
          if Glued(block).Some? {
            Assoc(s.out.events, [Event(Kind(ParserName(block)), BlockId(block), parse(Glued(block).value).value)], ByBlock(rest, [], parse).events);
          }
        }
      }
    }
  }

  lemma FramedGoes(s: State, block: seq<string>)
    requires Framed(s, block)
    ensures !s.out.failed
  {
  }

  /** The lines of a text, without the carriage return before each newline. */
  function StrippedLinesOf(text: string): (r: seq<string>)
    ensures |r| == |Lines(text)| && forall i :: 0 <= i < |r| ==> r[i] == StripCr(Lines(text)[i])
  {
    seq(|Lines(text)|, i requires 0 <= i < |Lines(text)| => StripCr(Lines(text)[i]))
  }

  /** Nothing of one event's lines reaches another: the events are those of the
      blocks of lines between empty ones, each read on its own. */
  lemma EventsByBlock(text: string, parse: Parse)
    ensures ReadWhole(text, parse) == ByBlock(StrippedLinesOf(text), [], parse)
  {
    var s := State(NO_FRAME, Outcome([], false));
    NoBlock();
    LinesByBlock(s, Lines(text), StrippedLinesOf(text), [], parse);
    assert [] + ByBlock(StrippedLinesOf(text), [], parse).events == ByBlock(StrippedLinesOf(text), [], parse).events;
  }

  lemma TwoDataLines(one: string, two: string, parse: Parse)
    requires Bare(one) && Bare(two)
    ensures var s := State(NO_FRAME, Outcome([], false));
            OnLines(s, ["data: " + one, "data: " + two, ""], parse) == Dispatch(s.(frame := NO_FRAME.(data := Some(one + two))), parse)
  {
    var s := State(NO_FRAME, Outcome([], false));
    var t, u := s.(frame := NO_FRAME.(data := Some(one))), s.(frame := NO_FRAME.(data := Some(one + two)));
    FieldLine(s.frame, "data: ", one);
    FieldLine(t.frame, "data: ", two);
    assert "" + one == one;
    OnLineCases(s, "data: " + one, parse);
    OnLineCases(t, "data: " + two, parse);
    assert OnLine(u, "", parse) == Dispatch(u, parse);
    hide OnLine, OnField, Dispatch, StripCr, Trim, TrimStart;
    assert ["data: " + one, "data: " + two, ""] == ["data: " + one] + ["data: " + two, ""];
    assert ["data: " + two, ""] == ["data: " + two] + [""] && [""] == [""] + [];
    OnLinesStep(s, "data: " + one, ["data: " + two, ""], parse);
    OnLinesStep(t, "data: " + two, [""], parse);
    OnLinesStep(u, "", [], parse);
  }

  lemma StandardData(b: Buffers, value: string)
    ensures StandardLine(b, "data: " + value) == b.(data := b.data + value + "\n")
  {
    var line := "data: " + value;
    ColonIs(line, "data");
    assert line[5..] == " " + value && (" " + value)[1..] == value;
  }

  lemma StandardEnd(b: Buffers)
    ensures StandardRun(b, []) == b
  {
  }

  /** An empty line dispatches data that is there. */
  lemma DispatchLine(kind: string, data: string, events: seq<(string, string)>)
    ensures StandardLine(Buffers(kind, data + "\n", events), "") ==
            Buffers("", "", events + [(if kind == "" then "message" else kind, data)])
  {
    assert (data + "\n")[..|data|] == data;
  }

  lemma StandardStep(b: Buffers, line: string, lines: seq<string>)
    ensures StandardRun(b, [line] + lines) == StandardRun(StandardLine(b, line), lines)
  {
    assert ([line] + lines)[1..] == lines;
    hide StandardLine;
  }

  lemma StandardTwoDataLines(one: string, two: string)
    ensures StandardRun(Buffers("", "", []), ["data: " + one, "data: " + two, ""]).events == [("message", one + "\n" + two)]
  {
    hide *;
    var b, c := Buffers("", "", []), Buffers("", "" + one + "\n", []);
    var d, e := Buffers("", (one + "\n" + two) + "\n", []), Buffers("", "", [] + [("message", one + "\n" + two)]);
    StandardData(b, one);
    StandardData(c, two);
    assert "" + one + "\n" + two + "\n" == (one + "\n" + two) + "\n";
    DispatchLine("", one + "\n" + two, []);
    StandardEnd(e);
    StandardStep(d, "", []);
    StandardStep(c, "data: " + two, [""]);
    StandardStep(b, "data: " + one, ["data: " + two, ""]);
    assert [""] + [] == [""] && ["data: " + two] + [""] == ["data: " + two, ""];
    assert ["data: " + one] + ["data: " + two, ""] == ["data: " + one, "data: " + two, ""];
  }

  /** With two data lines they differ: the standard joins them with a newline, the
      parser with nothing. */
  lemma DataLinesRunTogether(parse: Parse)
    requires parse("12").Some?
    ensures var lines := ["data: " + "1", "data: " + "2", ""];
            && StandardRun(Buffers("", "", []), lines).events == [("message", "1" + "\n" + "2")]
            && OnLines(State(NO_FRAME, Outcome([], false)), lines, parse).out == Outcome([Event("message", None, parse("12").value)], false)
  {
    TwoDataLines("1", "2", parse);
    StandardTwoDataLines("1", "2");
    assert "1" + "2" == "12";
    assert [] + [Event("message", None, parse("12").value)] == [Event("message", None, parse("12").value)];
  }

  lemma LineEndIs(s: string, k: nat)
    requires k < |s| && (s[k] == '\n' || s[k] == '\r') && forall i :: 0 <= i < k ==> s[i] != '\n' && s[i] != '\r'
    ensures LineEnd(s) == k
  {
  }

  predicate NoLineEnd(s: string) {
    '\n' !in s && '\r' !in s
  }

  lemma StandardThen(line: string, end: string, more: string)
    requires (end == "\n" || end == "\r") && NoLineEnd(line) && (end == "\r" ==> more != "" && more[0] != '\n')
    ensures StandardLines(line + end + more) == [line] + StandardLines(more)
  {
    var text := line + end + more;
    LineEndIs(text, |line|);
    assert text[..|line|] == line && text[|line| + 1..] == more;
  }

  /** A frame with a lone carriage return in the event's name, to the standard. */
  lemma ReturnSplitsName(one: string, two: string, data: string)
    requires NoLineEnd(one) && NoLineEnd(two) && two != "" && NoLineEnd(data)
    ensures StandardLines(Terminated(["event: " + (one + "\r" + two), "data: " + data, ""])) ==
            ["event: " + one, two, "data: " + data, ""]
  {
    var named, line := "event: " + one, "data: " + data;
    assert "event: " + (one + "\r" + two) == named + "\r" + two;
    assert NoLineEnd(named) && NoLineEnd(line);
    assert StandardLines("") == [] && Terminated([]) == "" && NoLineEnd("");
    hide StandardLines, Terminated, NoLineEnd;
    ReturnSplits(named, two, line);
  }

  lemma ReturnSplits(named: string, two: string, line: string)
    requires NoLineEnd(named) && NoLineEnd(two) && two != "" && NoLineEnd(line) && NoLineEnd("")
    requires StandardLines("") == [] && Terminated([]) == ""
    ensures StandardLines(Terminated([named + "\r" + two, line, ""])) == [named, two, line, ""]
  {
    hide *;
    var tail := line + "\n" + ("" + "\n" + "");
    StartsWell(two, tail);
    TerminatedThree(named + "\r" + two, line);
    LastLines(line);
    StandardThen(two, "\n", tail);
    StandardThen(named, "\r", two + "\n" + tail);
    ReturnJoins(named, two, tail);
  }

  lemma StartsWell(two: string, more: string)
    requires NoLineEnd(two) && two != ""
    ensures two + "\n" + more != "" && (two + "\n" + more)[0] != '\n'
  {
    assert two[0] in two;
  }

  lemma LastLines(line: string)
    requires NoLineEnd(line) && NoLineEnd("") && StandardLines("") == []
    ensures StandardLines(line + "\n" + ("" + "\n" + "")) == [line, ""]
  {
    hide *;
    StandardThen("", "\n", "");
    StandardThen(line, "\n", "" + "\n" + "");
  }

  lemma ReturnJoins(named: string, two: string, tail: string)
    ensures (named + "\r" + two) + "\n" + tail == named + "\r" + (two + "\n" + tail)
  {
  }

  lemma TerminatedThree(one: string, two: string)
    requires Terminated([]) == ""
    ensures Terminated([one, two, ""]) == one + "\n" + (two + "\n" + ("" + "\n" + ""))
  {
    hide Terminated;
    TerminatedStep("", []);
    TerminatedStep(two, [""]);
    TerminatedStep(one, [two, ""]);
    assert [""] + [] == [""] && [two] + [""] == [two, ""] && [one] + [two, ""] == [one, two, ""];
  }

  lemma EventLine(b: Buffers, name: string)
    ensures StandardLine(b, "event: " + name) == b.(kind := name)
  {
    var line := "event: " + name;
    ColonIs(line, "event");
    assert line[6..] == " " + name && (" " + name)[1..] == name;
  }

  lemma IgnoredLine(b: Buffers, line: string)
    requires line != "" && ':' !in line && line != "event" && line != "data"
    ensures StandardLine(b, line) == b
  {
    NoColon(line);
  }

  lemma ReturnNames(one: string, two: string, data: string)
    requires two != "" && ':' !in two && two != "event" && two != "data"
    ensures StandardRun(Buffers("", "", []), ["event: " + one, two, "data: " + data, ""]).events == [(Kind(one), data)]
  {
    var a, b, c := Buffers("", "", []), Buffers(one, "", []), Buffers(one, data + "\n", []);
    var d := Buffers("", "", [] + [(Kind(one), data)]);
    hide StandardLine, StandardRun, Colon, DropSpace;
    EventLine(a, one);
    IgnoredLine(b, two);
    StandardData(b, data);
    assert "" + data + "\n" == data + "\n";
    DispatchLine(one, data, []);
    StandardEnd(d);
    StandardStep(c, "", []);
    StandardStep(b, "data: " + data, [""]);
    StandardStep(b, two, ["data: " + data, ""]);
    StandardStep(a, "event: " + one, [two, "data: " + data, ""]);
    assert [""] + [] == [""] && ["data: " + data] + [""] == ["data: " + data, ""];
    assert [two] + ["data: " + data, ""] == [two, "data: " + data, ""];
    assert ["event: " + one] + [two, "data: " + data, ""] == ["event: " + one, two, "data: " + data, ""];
  }

  /** With a lone carriage return they differ: to the standard it ends the line, so
      the event is named by what comes before it; to the parser it is in the name. */
  lemma LoneReturnInName(one: string, two: string, data: string, parse: Parse)
    requires NoLineEnd(one) && NoLineEnd(two) && NoLineEnd(data) && Bare(one + "\r" + two) && Bare(data) && parse(data).Some?
    requires two != "" && ':' !in two && two != "event" && two != "data"
    ensures var text := Print([FrameItem(None, one + "\r" + two, data)]);
            && StandardRun(Buffers("", "", []), StandardLines(text)).events == [(Kind(one), data)]
            && ReadWhole(text, parse) == Outcome([Event(one + "\r" + two, None, parse(data).value)], false)
  {
    var item := FrameItem(None, one + "\r" + two, data);
    ReturnSplitsName(one, two, data);
    ReturnNames(one, two, data);
    PrintedFrame(one + "\r" + two, data);
    assert Printable(item, parse);
    assert Sent([item], parse) == [Event(one + "\r" + two, None, parse(data).value)];
    hide *;
    FramesReadBack([item], "", parse);
    assert Print([item]) + "" == Print([item]);
  }

  lemma PrintedFrame(event: string, data: string)
    ensures Print([FrameItem(None, event, data)]) == Terminated(["event: " + event, "data: " + data, ""])
  {
    hide Terminated;
    var item, lines := FrameItem(None, event, data), ["event: " + event, "data: " + data, ""];
    assert [item][1..] == [] && Print([]) == "";
    assert ItemLines(item) == [] + lines == lines;
    assert Terminated(lines) + "" == Terminated(lines);
  }
}
