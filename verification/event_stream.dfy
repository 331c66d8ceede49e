// What an event stream means as one whole text: lines as in section 9.2.5 of
// the WHATWG HTML Standard, fields as in section 9.2.6, except that an event
// still pending at the end of the stream is dispatched too.
module EventStream {

  datatype Event = Event(event: string, data: string, id: string)

  predicate IsLineEnd(c: char) { c == '\r' || c == '\n' }

  predicate OneLine(s: string) {
    forall i :: 0 <= i < |s| ==> !IsLineEnd(s[i])
  }

  // Index of the first line-end character at or after `from`; |s| if there is none.
  function LineEnd(s: string, from: nat): (e: nat)
    requires from <= |s|
    ensures from <= e <= |s|
    ensures forall i :: from <= i < e ==> !IsLineEnd(s[i])
    ensures e < |s| ==> IsLineEnd(s[e])
    decreases |s| - from
  {
    if from == |s| || IsLineEnd(s[from]) then from else LineEnd(s, from + 1)
  }

  // A CR and a LF right after it end one line together.
  function DelimiterLength(s: string, e: nat): (n: nat)
    requires e < |s|
    ensures 1 <= n <= 2 && e + n <= |s|
  {
    if s[e] == '\r' && e + 1 < |s| && s[e + 1] == '\n' then 2 else 1
  }

  // The text up to, and the text after, its first line end.
  function FirstLine(s: string): string {
    s[..LineEnd(s, 0)]
  }

  function AfterLine(s: string): (rest: string)
    ensures |rest| <= |s|
    ensures LineEnd(s, 0) < |s| ==> |rest| < |s|
  {
    var e := LineEnd(s, 0);
    if e == |s| then "" else s[e + DelimiterLength(s, e)..]
  }

  predicate HasLineEnd(s: string) {
    LineEnd(s, 0) < |s|
  }

  // A CR at the very end may be half of a CRLF, so its line has to wait.
  predicate HasCompleteLine(s: string) {
    HasLineEnd(s) && !(s[LineEnd(s, 0)] == '\r' && LineEnd(s, 0) == |s| - 1)
  }

  // The lines of a whole text. A last line needs no end, unless it is empty.
  function Lines(s: string): seq<string>
    decreases |s|
  {
    if !HasLineEnd(s) then (if s == "" then [] else [s])
    else [FirstLine(s)] + Lines(AfterLine(s))
  }

  // The lines that are certainly complete in a text that may go on.
  function CompleteLines(s: string): seq<string>
    decreases |s|
  {
    if !HasCompleteLine(s) then [] else [FirstLine(s)] + CompleteLines(AfterLine(s))
  }

  // What is left of a text after its complete lines.
  function Remainder(s: string): string
    decreases |s|
  {
    if !HasCompleteLine(s) then s else Remainder(AfterLine(s))
  }

  // ----- Fields ----------------------------------------------------------------

  datatype Field = Field(name: string, value: string)

  function IndexOf(s: string, c: char, from: nat): (i: nat)
    requires from <= |s|
    ensures from <= i <= |s|
    ensures forall k :: from <= k < i ==> s[k] != c
    ensures i < |s| ==> s[i] == c
    decreases |s| - from
  {
    if from == |s| || s[from] == c then from else IndexOf(s, c, from + 1)
  }

  function FieldOf(line: string): Field {
    var colon := IndexOf(line, ':', 0);
    var value := if colon == |line| then "" else line[colon + 1..];
    Field(line[..colon], if value != "" && value[0] == ' ' then value[1..] else value)
  }

  predicate Comment(line: string) { line != "" && line[0] == ':' }

  predicate Sets(line: string, name: string) {
    line != "" && !Comment(line) && FieldOf(line).name == name
  }

  // ----- The reference meaning: blocks of lines ----------------------------------

  function DataOf(block: seq<string>): seq<string> {
    if |block| == 0 then []
    else
      var line := block[|block| - 1];
      DataOf(block[..|block| - 1]) + (if Sets(line, "data") then [FieldOf(line).value] else [])
  }

  // The type set last, or the one there was before.
  function TypeOf(block: seq<string>, before: string): string {
    if |block| == 0 then before
    else if Sets(block[|block| - 1], "event") then FieldOf(block[|block| - 1]).value
    else TypeOf(block[..|block| - 1], before)
  }

  predicate SetsId(line: string) {
    Sets(line, "id") && '\0' !in FieldOf(line).value
  }

  // The id set last, or the one there was before; ids outlive their block.
  function IdOf(block: seq<string>, before: string): string {
    if |block| == 0 then before
    else if SetsId(block[|block| - 1]) then FieldOf(block[|block| - 1]).value
    else IdOf(block[..|block| - 1], before)
  }

  function Join(parts: seq<string>): string {
    if |parts| == 0 then ""
    else if |parts| == 1 then parts[0]
    else Join(parts[..|parts| - 1]) + "\n" + parts[|parts| - 1]
  }

  // The event of one block; a block without data has none.
  function BlockEvent(block: seq<string>, id: string): seq<Event> {
    if DataOf(block) == [] then []
    else
      var kind := TypeOf(block, "");
      [Event(if kind == "" then "message" else kind, Join(DataOf(block)), IdOf(block, id))]
  }

  // Length of the first block: the lines before the first empty one.
  function BlockLength(lines: seq<string>): (n: nat)
    ensures n <= |lines|
    ensures forall i :: 0 <= i < n ==> lines[i] != ""
    ensures n < |lines| ==> lines[n] == ""
  {
    if |lines| == 0 || lines[0] == "" then 0 else 1 + BlockLength(lines[1..])
  }

  function BlockEvents(lines: seq<string>, id: string): seq<Event>
    decreases |lines|
  {
    var n := BlockLength(lines);
    var block := lines[..n];
    if n == |lines| then BlockEvent(block, id)
    else BlockEvent(block, id) + BlockEvents(lines[n + 1..], IdOf(block, id))
  }

  // The events of a whole text.
  function EventsOf(text: string): seq<Event> {
    BlockEvents(Lines(text), "")
  }

  // ----- The line-by-line meaning --------------------------------------------------

  datatype Parse = Parse(eventType: string, lastEventId: string, data: seq<string>, events: seq<Event>)

  const START := Parse("", "", [], [])

  function Dispatch(p: Parse): Parse {
    if p.data == [] then p.(eventType := "")
    else
      var event := Event(if p.eventType == "" then "message" else p.eventType, Join(p.data), p.lastEventId);
      p.(eventType := "", data := [], events := p.events + [event])
  }

  function Line(p: Parse, line: string): Parse {
    if line == "" then Dispatch(p)
    else if Comment(line) then p
    else
      var f := FieldOf(line);
      if f.name == "event" then p.(eventType := f.value)
      else if f.name == "data" then p.(data := p.data + [f.value])
      else if f.name == "id" && '\0' !in f.value then p.(lastEventId := f.value)
      else p
  }

  function Fold(p: Parse, lines: seq<string>): Parse {
    if |lines| == 0 then p else Line(Fold(p, lines[..|lines| - 1]), lines[|lines| - 1])
  }

  lemma FoldAppend(p: Parse, lines: seq<string>, line: string)
    ensures Fold(p, lines + [line]) == Line(Fold(p, lines), line)
  {
    assert (lines + [line])[..|lines|] == lines;
  }

  lemma {:induction false} FoldConcat(p: Parse, a: seq<string>, b: seq<string>)
    ensures Fold(p, a + b) == Fold(Fold(p, a), b)
  {
    if |b| == 0 {
      assert a + b == a;
    } else {
      var n := |b| - 1;
      assert a + b == (a + b[..n]) + [b[n]];
      FoldAppend(p, a + b[..n], b[n]);
      FoldConcat(p, a, b[..n]);
    }
  }

  // Events are only ever added.
  lemma {:induction false} FoldEventsGrow(p: Parse, lines: seq<string>)
    ensures p.events <= Fold(p, lines).events
  {
    if |lines| > 0 { FoldEventsGrow(p, lines[..|lines| - 1]); }
  }

  lemma BlockAppend(block: seq<string>, line: string, kind: string, id: string)
    ensures DataOf(block + [line]) == DataOf(block) + (if Sets(line, "data") then [FieldOf(line).value] else [])
    ensures TypeOf(block + [line], kind) == if Sets(line, "event") then FieldOf(line).value else TypeOf(block, kind)
    ensures IdOf(block + [line], id) == if SetsId(line) then FieldOf(line).value else IdOf(block, id)
  {
    assert (block + [line])[..|block|] == block;
  }

  // Within one block, reading line by line collects what the block says.
  lemma {:induction false} FoldBlock(p: Parse, block: seq<string>)
    requires forall i :: 0 <= i < |block| ==> block[i] != ""
    ensures Fold(p, block) ==
            Parse(TypeOf(block, p.eventType), IdOf(block, p.lastEventId), p.data + DataOf(block), p.events)
  {
    if |block| > 0 {
      FoldBlock(p, block[..|block| - 1]);
    }
  }

  // A block and its end give the block's event.
  lemma BlockDispatch(block: seq<string>, id: string, events: seq<Event>)
    requires forall i :: 0 <= i < |block| ==> block[i] != ""
    ensures Dispatch(Fold(Parse("", id, [], events), block)) ==
            Parse("", IdOf(block, id), [], events + BlockEvent(block, id))
  {
    FoldBlock(Parse("", id, [], events), block);
    assert [] + DataOf(block) == DataOf(block) && events + [] == events;
  }

  lemma FirstBlock(lines: seq<string>, id: string)
    ensures var n := BlockLength(lines);
            if n == |lines| then BlockEvents(lines, id) == BlockEvent(lines, id)
            else BlockEvents(lines, id) ==
                 BlockEvent(lines[..n], id) + BlockEvents(lines[n + 1..], IdOf(lines[..n], id))
  {
    hide BlockEvent, IdOf, BlockLength;
    assert lines[..|lines|] == lines;
  }

  // Line by line, with the pending event dispatched at the end, gives the events
  // of the blocks.
  lemma {:induction false} FoldIsBlocks(lines: seq<string>, id: string, events: seq<Event>)
    ensures Dispatch(Fold(Parse("", id, [], events), lines)).events == events + BlockEvents(lines, id)
    decreases |lines|
  {
    hide BlockEvents, BlockEvent, IdOf, Fold, Dispatch, BlockLength;
    var p := Parse("", id, [], events);
    var n := BlockLength(lines);
    var block := lines[..n];
    FirstBlock(lines, id);
    BlockDispatch(block, id, events);
    if n == |lines| {
      assert block == lines;
    } else {
      var rest := lines[n + 1..];
      assert lines == (block + [""]) + rest;
      FoldConcat(p, block + [""], rest);
      FoldAppend(p, block, "");
      FoldIsBlocks(rest, IdOf(block, id), events + BlockEvent(block, id));
    }
  }

  // ----- Whole text and growing text ------------------------------------------------

  // What has been dispatched when a text that may go on has arrived.
  function EventsSoFar(text: string): seq<Event> {
    Fold(START, CompleteLines(text)).events
  }

  // Complete lines are settled: whatever follows only concerns the remainder.
  lemma {:induction false} CompleteLinesSettled(s: string, more: string)
    ensures Lines(s + more) == CompleteLines(s) + Lines(Remainder(s) + more)
    ensures CompleteLines(s + more) == CompleteLines(s) + CompleteLines(Remainder(s) + more)
    ensures Remainder(s + more) == Remainder(Remainder(s) + more)
    decreases |s|
  {
    hide HasCompleteLine, FirstLine;
    if HasCompleteLine(s) {
      FirstLineStays(s, more);
      hide HasLineEnd, AfterLine;
      CompleteLinesSettled(AfterLine(s), more);
    }
  }

  lemma FirstLineStays(s: string, more: string)
    requires HasCompleteLine(s)
    ensures HasCompleteLine(s + more) && HasLineEnd(s + more)
    ensures FirstLine(s + more) == FirstLine(s)
    ensures AfterLine(s + more) == AfterLine(s) + more
    ensures |AfterLine(s)| < |s|
  {
    var e := LineEnd(s, 0);
    LineEndUnique(s + more, e);
    assert (s + more)[e] == s[e];
    assert e + 1 < |s| ==> (s + more)[e + 1] == s[e + 1];
  }

  lemma LineEndUnique(s: string, e: nat)
    requires e <= |s| && (forall i :: 0 <= i < e ==> !IsLineEnd(s[i])) && (e < |s| ==> IsLineEnd(s[e]))
    ensures LineEnd(s, 0) == e
  {
    var d := LineEnd(s, 0);
    assert !(d < e) && !(e < d);
  }

  // What has been dispatched is never taken back: it begins the events of every
  // text this one can grow into.
  lemma DispatchedStays(text: string, more: string)
    ensures EventsSoFar(text) <= EventsOf(text + more)
    ensures EventsSoFar(text) <= EventsSoFar(text + more)
  {
    CompleteLinesSettled(text, more);
    hide Lines, CompleteLines, Remainder, BlockEvents, Fold;
    PrefixEvents(CompleteLines(text), Lines(text + more));
    PrefixEvents(CompleteLines(text), CompleteLines(text + more));
    FoldIsBlocks(Lines(text + more), "", []);
    assert [] + EventsOf(text + more) == EventsOf(text + more);
    assert Fold(START, Lines(text + more)).events <= Dispatch(Fold(START, Lines(text + more))).events;
  }

  lemma PrefixEvents(a: seq<string>, b: seq<string>)
    requires a <= b
    ensures Fold(START, a).events <= Fold(START, b).events
  {
    assert b == a + b[|a|..];
    FoldConcat(START, a, b[|a|..]);
    FoldEventsGrow(Fold(START, a), b[|a|..]);
  }

  // Ending the stream after `text` adds at most one event.
  lemma {:induction false} LastLine(s: string)
    ensures |Lines(s)| <= |CompleteLines(s)| + 1
    ensures CompleteLines(s) <= Lines(s)
    decreases |s|
  {
    if HasCompleteLine(s) {
      LastLine(AfterLine(s));
    } else if HasLineEnd(s) {
      assert AfterLine(s) == "";
      assert Lines("") == [];
    }
  }

  // One more line and the end of the stream dispatch once at most: a line that
  // dispatches leaves nothing pending.
  lemma LineThenEnd(p: Parse, line: string)
    ensures p.events <= Dispatch(Line(p, line)).events
    ensures |Dispatch(Line(p, line)).events| <= |p.events| + 1
  {
    hide FieldOf, Join;
  }

  lemma EndAddsAtMostOne(text: string)
    ensures EventsSoFar(text) <= EventsOf(text)
    ensures |EventsOf(text)| <= |EventsSoFar(text)| + 1
  {
    LastLine(text);
    hide CompleteLines, Lines, BlockEvents;
    var a, b := CompleteLines(text), Lines(text);
    FoldIsBlocks(b, "", []);
    assert [] + EventsOf(text) == EventsOf(text);
    if |b| == |a| {
      assert a == b;
    } else {
      assert b == a + [b[|a|]];
      FoldAppend(START, a, b[|a|]);
      LineThenEnd(Fold(START, a), b[|a|]);
    }
  }

  // ----- What the parts of a text mean ----------------------------------------------------

  // A line ends at LF, at CR LF as one end, or at a CR that no LF follows; the last line
  // needs no end, and there is none after the last end.
  lemma LinesMean(line: string, rest: string)
    requires OneLine(line)
    ensures Lines(line + "\n" + rest) == [line] + Lines(rest)
    ensures Lines(line + "\r\n" + rest) == [line] + Lines(rest)
    ensures rest == "" || rest[0] != '\n' ==> Lines(line + "\r" + rest) == [line] + Lines(rest)
    ensures Lines(line) == if line == "" then [] else [line]
  {
    hide Lines;
    EndsWith(line, "\n", rest);
    EndsWith(line, "\r\n", rest);
    if rest == "" || rest[0] != '\n' { EndsWith(line, "\r", rest); }
    OnlyLine(line);
  }

  lemma OnlyLine(line: string)
    requires OneLine(line)
    ensures Lines(line) == if line == "" then [] else [line]
  {
    LineEndUnique(line, |line|);
  }

  lemma EndsWith(line: string, end: string, rest: string)
    requires OneLine(line)
    requires end == "\n" || end == "\r\n" || (end == "\r" && (rest == "" || rest[0] != '\n'))
    ensures Lines(line + end + rest) == [line] + Lines(rest)
  {
    var s := line + end + rest;
    assert s[|line|] == end[0];
    LineEndUnique(s, |line|);
    if |line| + 1 < |s| { assert s[|line| + 1] == (end + rest)[1]; }
    assert DelimiterLength(s, |line|) == |end|;
    assert FirstLine(s) == line && AfterLine(s) == rest;
  }

  // A field is what stands before the first colon and what stands after it, less one
  // space; without a colon it has no value.
  lemma FieldMeans(name: string, value: string)
    requires ':' !in name
    ensures FieldOf(name) == Field(name, "")
    ensures FieldOf(name + ": " + value) == Field(name, value)
    ensures value == "" || value[0] != ' ' ==> FieldOf(name + ":" + value) == Field(name, value)
  {
    assert name[..|name|] == name;
    ColonAt(name, " " + value);
    ColonAt(name, value);
    assert name + ": " + value == name + ":" + (" " + value);
    assert (" " + value)[1..] == value;
  }

  lemma ColonAt(name: string, rest: string)
    requires ':' !in name
    ensures IndexOf(name, ':', 0) == |name|
    ensures var line := name + ":" + rest;
            IndexOf(line, ':', 0) == |name| && line[..|name|] == name && line[|name| + 1..] == rest
  {
    var line := name + ":" + rest;
    var colon := IndexOf(line, ':', 0);
    assert line[|name|] == ':';
    assert !(colon < |name|) && !(|name| < colon);
  }

  // Data lines are joined by LF.
  lemma JoinMeans(parts: seq<string>, last: string)
    ensures Join([]) == "" && Join([last]) == last
    ensures |parts| > 0 ==> Join(parts + [last]) == Join(parts) + "\n" + last
  {
    assert (parts + [last])[..|parts|] == parts;
  }

  // A block of an event line and data lines is that event; without data it is none, and
  // without an event line its type is "message".
  lemma BlockMeans(kind: string, first: string, second: string)
    requires kind != ""
    ensures BlockEvent(["event: " + kind, "data: " + first], "") == [Event(kind, first, "")]
    ensures BlockEvent(["data: " + first, "data: " + second], "") == [Event("message", first + "\n" + second, "")]
    ensures BlockEvent(["event: " + kind], "") == []
    ensures '\0' !in first ==> BlockEvent(["id: " + first, "data: " + second], "") == [Event("message", second, first)]
  {
    assert "event" + ": " == "event: " && "data" + ": " == "data: " && "id" + ": " == "id: ";
    hide FieldOf, Comment, BlockEvent, Plain;
    LineMeans("event", kind);
    LineMeans("data", first);
    LineMeans("data", second);
    LineMeans("id", first);
    TypedBlock("event: " + kind, "data: " + first);
    DataBlock("data: " + first, "data: " + second);
    EmptyDataBlock("event: " + kind);
    if '\0' !in first { IdBlock("id: " + first, "data: " + second); }
  }

  predicate Plain(line: string) { line != "" && !Comment(line) }

  lemma TypedBlock(a: string, b: string)
    requires Plain(a) && Plain(b) && FieldOf(a).name == "event" && FieldOf(b).name == "data" && FieldOf(a).value != ""
    ensures BlockEvent([a, b], "") == [Event(FieldOf(a).value, FieldOf(b).value, "")]
  {
    TwoLines(a, b);
    hide FieldOf, Comment;
    JoinMeans([], FieldOf(b).value);
  }

  lemma DataBlock(a: string, b: string)
    requires Plain(a) && Plain(b) && FieldOf(a).name == "data" && FieldOf(b).name == "data"
    ensures BlockEvent([a, b], "") == [Event("message", FieldOf(a).value + "\n" + FieldOf(b).value, "")]
  {
    TwoLines(a, b);
    hide FieldOf, Comment;
    JoinMeans([FieldOf(a).value], FieldOf(b).value);
    JoinMeans([], FieldOf(a).value);
    hide Join;
    assert [FieldOf(a).value] + [FieldOf(b).value] == [FieldOf(a).value, FieldOf(b).value];
  }

  lemma IdBlock(a: string, b: string)
    requires Plain(a) && Plain(b) && FieldOf(a).name == "id" && '\0' !in FieldOf(a).value && FieldOf(b).name == "data"
    ensures BlockEvent([a, b], "") == [Event("message", FieldOf(b).value, FieldOf(a).value)]
  {
    TwoLines(a, b);
    hide FieldOf, Comment;
    JoinMeans([], FieldOf(b).value);
  }

  lemma EmptyDataBlock(a: string)
    requires Plain(a) && FieldOf(a).name == "event"
    ensures BlockEvent([a], "") == []
  {
    OneLineBlock(a);
    hide FieldOf, Comment;
  }

  lemma LineMeans(name: string, value: string)
    requires name != "" && ':' !in name
    ensures var line := name + ": " + value;
            FieldOf(line) == Field(name, value) && Plain(line)
  {
    FieldMeans(name, value);
    hide FieldOf;
    assert (name + ": " + value)[0] == name[0];
  }

  lemma OneLineBlock(a: string)
    ensures DataOf([a]) == (if Sets(a, "data") then [FieldOf(a).value] else [])
    ensures TypeOf([a], "") == if Sets(a, "event") then FieldOf(a).value else ""
    ensures IdOf([a], "") == if SetsId(a) then FieldOf(a).value else ""
  {
    hide FieldOf, Comment;
    assert [a][..0] == [];
  }

  lemma TwoLines(a: string, b: string)
    ensures DataOf([a, b]) ==
              (if Sets(a, "data") then [FieldOf(a).value] else []) + (if Sets(b, "data") then [FieldOf(b).value] else [])
    ensures TypeOf([a, b], "") ==
              if Sets(b, "event") then FieldOf(b).value else if Sets(a, "event") then FieldOf(a).value else ""
    ensures IdOf([a, b], "") == if SetsId(b) then FieldOf(b).value else if SetsId(a) then FieldOf(a).value else ""
  {
    hide FieldOf, Comment, Sets;
    OneLineBlock(a);
    assert [a, b][..1] == [a];
  }
}
