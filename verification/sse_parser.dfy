// The incremental parser: fed a text in arbitrary pieces, it calls back with
// the events of the whole text, and not once more after an abort.
module SseParser {
  import opened Prelude
  import opened EventStream

  // One read of the body: a piece of text, and whether the signal has been
  // aborted by the time the read resolves.
  datatype Read = Read(text: string, aborts: bool)

  datatype Result = Completed | AbortError

  function Text(rs: seq<Read>): string {
    if |rs| == 0 then "" else Text(rs[..|rs| - 1]) + rs[|rs| - 1].text
  }

  // The reads before the first one that finds the signal aborted.
  function Unaborted(rs: seq<Read>): (n: nat)
    ensures n <= |rs|
    ensures forall i :: 0 <= i < n ==> !rs[i].aborts
    ensures n < |rs| ==> rs[n].aborts
  {
    if |rs| == 0 then 0
    else
      var n := Unaborted(rs[..|rs| - 1]);
      if n < |rs| - 1 || rs[|rs| - 1].aborts then
        assert n < |rs| - 1 ==> rs[..|rs| - 1][n] == rs[n];
        n
      else |rs|
  }

  // The first events, up to and including the callback that aborts.
  function Cut(events: seq<Event>, abortAt: Option<nat>): seq<Event> {
    if abortAt.Some? && abortAt.value + 1 < |events| then events[..abortAt.value + 1] else events
  }

  // What the callbacks of one call see: everything, if nobody aborts; what was
  // dispatched before the read that found the signal aborted, if one did; in
  // both cases nothing after a callback that aborts itself.
  function Delivered(rs: seq<Read>, abortsAtEof: bool, abortAt: Option<nat>): seq<Event> {
    var n := Unaborted(rs);
    Cut(if n < |rs| || abortsAtEof then EventsSoFar(Text(rs[..n])) else EventsOf(Text(rs)), abortAt)
  }

  lemma {:induction false} TextSplit(rs: seq<Read>, i: nat) returns (more: string)
    requires i <= |rs|
    ensures Text(rs) == Text(rs[..i]) + more
  {
    if i == |rs| {
      assert rs[..i] == rs;
      more := "";
    } else {
      var shorter := TextSplit(rs[..|rs| - 1], i);
      assert rs[..|rs| - 1][..i] == rs[..i];
      more := shorter + rs[|rs| - 1].text;
    }
  }

  lemma UnabortedUnique(rs: seq<Read>, i: nat)
    requires i <= |rs| && (forall k :: 0 <= k < i ==> !rs[k].aborts) && (i < |rs| ==> rs[i].aborts)
    ensures Unaborted(rs) == i
  {
    var n := Unaborted(rs);
    assert !(n < i) && !(i < n);
  }

  // A callback aborted while the first i reads were processed: what was called
  // back with by then is all there will be.
  lemma AbortedByCallback(rs: seq<Read>, abortsAtEof: bool, abortAt: Option<nat>, i: nat, lines: seq<string>)
    requires i <= |rs| && forall k :: 0 <= k < i ==> !rs[k].aborts
    requires lines <= CompleteLines(Text(rs[..i]))
    requires abortAt.Some? && |Fold(START, lines).events| == abortAt.value + 1
    ensures Fold(START, lines).events == Delivered(rs, abortsAtEof, abortAt)
    ensures Fold(START, lines).events == Cut(EventsOf(Text(rs)), abortAt)
  {
    hide CompleteLines, Lines, Fold, BlockEvents;
    var n := Unaborted(rs);
    assert i <= n;
    PrefixEvents(lines, CompleteLines(Text(rs[..i])));
    var more := TextSplit(rs, i);
    DispatchedStays(Text(rs[..i]), more);
    var upto := TextSplit(rs[..n], i);
    assert rs[..n][..i] == rs[..i];
    DispatchedStays(Text(rs[..i]), upto);
  }

  // A callback aborted while the rest of the text was processed at its end.
  lemma AbortedAtEnd(text: string, abortAt: Option<nat>, lines: seq<string>)
    requires lines <= Lines(text)
    requires abortAt.Some? && |Fold(START, lines).events| == abortAt.value + 1
    ensures Fold(START, lines).events == Cut(EventsOf(text), abortAt)
  {
    hide Lines, BlockEvents;
    PrefixEvents(lines, Lines(text));
    FoldIsBlocks(Lines(text), "", []);
    assert [] + EventsOf(text) == EventsOf(text);
    LineThenEnd(Fold(START, Lines(text)), ":");
  }

  lemma Fed(rs: seq<Read>, i: nat)
    requires i < |rs|
    ensures var t := Text(rs[..i]);
            && Text(rs[..i + 1]) == t + rs[i].text
            && CompleteLines(t) + CompleteLines(Remainder(t) + rs[i].text) == CompleteLines(t + rs[i].text)
            && Remainder(Remainder(t) + rs[i].text) == Remainder(t + rs[i].text)
  {
    assert rs[..i + 1][..i] == rs[..i];
    CompleteLinesSettled(Text(rs[..i]), rs[i].text);
  }

  lemma Ended(text: string)
    ensures CompleteLines(text) + Lines(Remainder(text)) == Lines(text)
    ensures Dispatch(Fold(START, Lines(text))).events == EventsOf(text)
  {
    CompleteLinesSettled(text, "");
    assert text + "" == text && Remainder(text) + "" == Remainder(text);
    FoldIsBlocks(Lines(text), "", []);
    assert [] + EventsOf(text) == EventsOf(text);
  }

  // Whether the buffer holds a line to process, and all the lines it will give.
  predicate Ready(s: string, atEof: bool) {
    if atEof then HasLineEnd(s) else HasCompleteLine(s)
  }

  function Pending(s: string, atEof: bool): seq<string> {
    if atEof then Lines(s) else CompleteLines(s)
  }

  lemma PendingLine(s: string, atEof: bool)
    requires Ready(s, atEof)
    ensures Pending(s, atEof) == [FirstLine(s)] + Pending(AfterLine(s), atEof)
    ensures !atEof ==> Remainder(s) == Remainder(AfterLine(s))
  {
  }

  lemma NothingReady(s: string, atEof: bool)
    requires !Ready(s, atEof)
    ensures Pending(s, atEof) == if atEof && s != "" then [s] else []
    ensures !atEof ==> Remainder(s) == s
  {
  }

  class EventStreamParser {
    var buffer: string
    var eventType: string
    var lastEventId: string
    var data: seq<string>
    var events: seq<Event>         // the callbacks made
    var aborted: bool              // signal.aborted
    const abortAt: Option<nat>     // the callback, if any, that aborts the signal
    ghost var lines: seq<string>   // lines processed

    // Between callbacks the fields are the fold over the lines processed, and the
    // signal is aborted if the aborting callback has happened.
    ghost predicate Valid()
      reads this
    {
      && Parse(eventType, lastEventId, data, events) == Fold(START, lines)
      && (abortAt.Some? && abortAt.value < |events| ==> aborted)
      && (abortAt.Some? ==> |events| <= abortAt.value + 1)
      && (abortAt.Some? && abortAt.value < |events| ==> data == [])
    }

    // The signal may have been aborted before.
    constructor (abortAt: Option<nat>, aborted: bool)
      ensures Valid() && buffer == "" && lines == [] && this.aborted == aborted && this.abortAt == abortAt
    {
      buffer, eventType, lastEventId, data, events := "", "", "", [], [];
      this.aborted, lines := aborted, [];
      this.abortAt := abortAt;
    }

    // Only a callback changes whether the signal is aborted.
    twostate predicate SameSignal()
      reads this
    {
      aborted <==> old(aborted) || (abortAt.Some? && abortAt.value < |events|)
    }

    method DispatchPending()
      requires abortAt.Some? && abortAt.value < |events| ==> aborted && data == []
      modifies `eventType, `data, `events, `aborted
      ensures Parse(eventType, lastEventId, data, events) ==
              Dispatch(Parse(old(eventType), lastEventId, old(data), old(events)))
      ensures SameSignal()
      ensures data == []
    {
      if |data| == 0 {
        eventType := "";
        return;
      }
      var event := Event(if eventType == "" then "message" else eventType, Join(data), lastEventId);
      events := events + [event];
      if abortAt.Some? && |events| == abortAt.value + 1 { aborted := true; }
      eventType := "";
      data := [];
    }

    // Throws, and does nothing else, once the signal is aborted.
    method ProcessLine(line: string) returns (r: Result)
      requires Valid()
      modifies `eventType, `lastEventId, `data, `events, `aborted, `lines
      ensures Valid() && SameSignal()
      ensures r == if old(aborted) then AbortError else Completed
      ensures lines == if old(aborted) then old(lines) else old(lines) + [line]
      ensures old(aborted) ==> events == old(events)
    {
      if aborted { return AbortError; }
      FoldAppend(START, lines, line);
      lines := lines + [line];
      if line == "" {
        DispatchPending();
        return Completed;
      }
      if line[0] == ':' { return Completed; }

      var colon := IndexOf(line, ':', 0);
      var field := line[..colon];
      var value := if colon == |line| then "" else line[colon + 1..];
      if value != "" && value[0] == ' ' { value := value[1..]; }
      assert FieldOf(line) == Field(field, value);
      hide FieldOf, IndexOf, Fold, Dispatch;

      if field == "event" {
        eventType := value;
      } else if field == "data" {
        data := data + [value];
      } else if field == "id" && '\0' !in value {
        lastEventId := value;
      }
      return Completed;
    }

    // Cuts the next line off the buffer, unless none is complete yet.
    method NextLine(atEof: bool) returns (line: Option<string>)
      modifies `buffer
      ensures line == if Ready(old(buffer), atEof) then Some(FirstLine(old(buffer))) else None
      ensures buffer == if line.Some? then AfterLine(old(buffer)) else old(buffer)
      ensures line.Some? ==> |buffer| < |old(buffer)|
    {
      var e := LineEnd(buffer, 0);
      if e == |buffer| { return None; }
      if buffer[e] == '\r' && e == |buffer| - 1 && !atEof { return None; }
      line := Some(buffer[..e]);
      buffer := buffer[e + DelimiterLength(buffer, e)..];
    }

    // Processes the complete lines of the buffer; at the end of the stream, all of it.
    method ProcessBuffer(atEof: bool) returns (r: Result)
      requires Valid()
      modifies this
      ensures Valid() && SameSignal() && old(lines) <= lines
      ensures lines <= old(lines) + Pending(old(buffer), atEof)
      ensures r.AbortError? ==> aborted
      ensures r.Completed? ==>
                && lines == old(lines) + Pending(old(buffer), atEof)
                && buffer == (if atEof then "" else Remainder(old(buffer)))
      ensures old(aborted) ==> lines == old(lines) && events == old(events)
    {
      hide Ready, Pending, FirstLine, AfterLine, Fold, Remainder;
      ghost var all := lines + Pending(buffer, atEof);
      ghost var rest := Remainder(buffer);
      while true
        invariant Valid() && SameSignal() && old(lines) <= lines
        invariant old(aborted) ==> lines == old(lines) && events == old(events)
        invariant all == lines + Pending(buffer, atEof)
        invariant atEof || Remainder(buffer) == rest
        decreases |buffer|
      {
        ghost var before := buffer;
        var line := NextLine(atEof);
        if line.None? { break; }
        PendingLine(before, atEof);
        r := ProcessLine(line.value);
        if r.AbortError? { return; }
      }
      NothingReady(buffer, atEof);
      if atEof && buffer != "" {
        r := ProcessLine(buffer);
        if r.AbortError? { return; }
        buffer := "";
      }
      return Completed;
    }

    // consumeEventStream: reads until the end of the body or an abort. However the
    // text is cut into reads, the callbacks are those of the whole text; none at all
    // if the signal was aborted before.
    method Consume(rs: seq<Read>, abortsAtEof: bool) returns (r: Result)
      requires Valid() && buffer == "" && lines == []
      modifies this
      ensures events == if old(aborted) then [] else Delivered(rs, abortsAtEof, abortAt)
      ensures old(aborted) ==> r.AbortError?
      ensures r.Completed? ==> events == Cut(EventsOf(Text(rs)), abortAt)
      ensures !old(aborted) && Unaborted(rs) == |rs| && !abortsAtEof &&
              (abortAt.Some? ==> |EventsOf(Text(rs))| <= abortAt.value) ==>
                r.Completed? && events == EventsOf(Text(rs))
    {
      assert events == [];
      if aborted { return AbortError; }
      r := ReadBody(rs, abortsAtEof);
    }

    method ReadBody(rs: seq<Read>, abortsAtEof: bool) returns (r: Result)
      requires Valid() && buffer == "" && lines == [] && !aborted
      modifies this
      ensures events == Delivered(rs, abortsAtEof, abortAt)
      ensures r.Completed? ==> events == Cut(EventsOf(Text(rs)), abortAt)
      ensures Unaborted(rs) == |rs| && !abortsAtEof && (abortAt.Some? ==> |EventsOf(Text(rs))| <= abortAt.value) ==>
                r.Completed? && events == EventsOf(Text(rs))
    {
      hide CompleteLines, Lines, Remainder, Fold, Pending, BlockEvents;
      StartsEmpty();
      var i := 0;
      while i < |rs|
        invariant i <= |rs| && Valid()
        invariant lines == CompleteLines(Text(rs[..i])) && buffer == Remainder(Text(rs[..i]))
        invariant aborted <==> abortAt.Some? && abortAt.value < |events|
        invariant forall k :: 0 <= k < i ==> !rs[k].aborts
      {
        if rs[i].aborts || aborted {
          if rs[i].aborts {
            UnabortedUnique(rs, i);
          } else {
            AbortedByCallback(rs, abortsAtEof, abortAt, i, lines);
          }
          return AbortError;
        }
        Fed(rs, i);
        buffer := buffer + rs[i].text;
        PendingMidway(buffer);
        r := ProcessBuffer(false);
        i := i + 1;
        if r.AbortError? {
          AbortedByCallback(rs, abortsAtEof, abortAt, i, lines);
          return;
        }
      }
      assert rs[..i] == rs;
      UnabortedUnique(rs, |rs|);
      Ended(Text(rs));
      if abortsAtEof || aborted {
        if aborted { AbortedByCallback(rs, abortsAtEof, abortAt, |rs|, lines); }
        return AbortError;
      }
      PendingAtEnd(buffer);
      r := ProcessBuffer(true);
      if aborted { AbortedAtEnd(Text(rs), abortAt, lines); }
      if r.AbortError? { return; }
      DispatchPending();
    }
  }

  lemma StartsEmpty()
    ensures CompleteLines("") == [] && Remainder("") == "" && Text([]) == ""
  {
  }

  lemma PendingMidway(s: string)
    ensures Pending(s, false) == CompleteLines(s)
  {
  }

  lemma PendingAtEnd(s: string)
    ensures Pending(s, true) == Lines(s)
  {
  }
}
