// What a browser is left with when its stream ends at an arbitrary byte: whole ids,
// unless the end falls inside the data line of a notification.
module StreamEnd {
  import opened Prelude
  import opened EventStream
  import opened Hub
  import opened Delivery

  const EVENT_LINE: string := "event: notification"

  // The event line, its end, and the name of the data field, before the colon.
  const DATA_FROM := 24
  // The id begins after the colon and a space.
  const ID_FROM := 26

  function WholeFrom(id: NotificationId): nat {
    ID_FROM + |id|
  }

  lemma Offsets(id: NotificationId)
    ensures |EVENT_LINE| + 1 + |"data"| == DATA_FROM && |EVENT_LINE| + 1 + |"data: "| == ID_FROM
    ensures |FrameText(Notified(id))| == WholeFrom(id) + 2
  {
  }

  // The frames that have arrived whole.
  function Whole(fs: seq<Frame>, arrived: nat): (w: nat)
    ensures w <= |fs| && |FramesText(fs[..w])| <= arrived
    ensures w < |fs| ==> arrived < |FramesText(fs[..w])| + |FrameText(fs[w])|
  {
    if |fs| == 0 then 0
    else
      assert fs[..|fs|] == fs;
      if |FramesText(fs)| <= arrived then |fs|
      else
        var n := |fs| - 1;
        var w := Whole(fs[..n], arrived);
        assert fs[..n][..w] == fs[..w];
        assert w < n ==> fs[..n][w] == fs[w];
        w
  }

  // The end falls inside a notification's frame, after the name of its data field and
  // before the end of its id.
  predicate CutsAnId(fs: seq<Frame>, arrived: nat) {
    var w := Whole(fs, arrived);
    w < |fs| && fs[w].Notified? &&
    DATA_FROM <= arrived - |FramesText(fs[..w])| < WholeFrom(fs[w].id)
  }

  // What the part of a frame that has arrived adds at the end of the stream.
  function PartEvents(f: Frame, r: nat): seq<Event> {
    if f.Notified? && r >= DATA_FROM then [NotificationEvent(PartOfId(f.id, r))] else []
  }

  function PartOfId(id: NotificationId, r: nat): NotificationId {
    id[..Min(Max(r - ID_FROM, 0), |id|)]
  }

  // ----- Lines of a part ---------------------------------------------------------------

  lemma SingleLine(p: string)
    requires OneLine(p)
    ensures Lines(p) == if p == "" then [] else [p]
  {
    LineEndUnique(p, |p|);
  }

  // Neither a comment nor a part of the event line leaves data behind.
  lemma NoData(p: Parse, line: string)
    requires line != "" && (line[0] == ':' || line[0] == 'e' || (line[0] == 'd' && |line| < 4))
    ensures var q := Line(p, line);
            q.data == p.data && q.lastEventId == p.lastEventId && q.events == p.events
  {
    hide IndexOf;
    var name := FieldOf(line).name;
    assert name <= line;
    if name != "" { assert name[0] == line[0]; }
  }

  lemma Quiet(p: Parse, line: string)
    requires p.data == [] && p.lastEventId == "" && OneLine(line)
    requires line == "" || line[0] == ':' || line[0] == 'e'
    ensures Dispatch(Fold(p, Lines(line))).events == p.events
  {
    SingleLine(line);
    if line != "" {
      NoData(p, line);
      FoldAppend(p, [], line);
      assert [] + [line] == [line];
    }
    hide Lines, Line;
  }

  // The event line, and what has come of the data line.
  lemma DataPart(events: seq<Event>, id: NotificationId, j: nat)
    requires j <= |"data: "| + |id|
    ensures var line := ("data: " + id)[..j];
            Dispatch(Fold(Parse("", "", [], events), [EVENT_LINE] + Lines(line))).events ==
            events + (if j >= 4 then [NotificationEvent(PartOfId(id, 20 + j))] else [])
  {
    var line := ("data: " + id)[..j];
    DataLineStarts(id, j);
    EventLine(Parse("", "", [], events));
    if j >= 4 { DataField(id, j); }
    hide Lines, FieldOf, Line, Fold, PartOfId, Dispatch, OneLine;
    AfterEventLine(Parse("", "", [], events), line, j, PartOfId(id, 20 + j));
  }

  lemma DataLineStarts(id: NotificationId, j: nat)
    requires j <= |"data: "| + |id|
    ensures var line := ("data: " + id)[..j]; OneLine(line) && |line| == j && (j > 0 ==> line[0] == 'd')
  {
  }

  lemma AfterEventLine(p: Parse, line: string, j: nat, value: NotificationId)
    requires p == Parse("", "", [], p.events) && Line(p, EVENT_LINE) == p.(eventType := "notification")
    requires OneLine(line) && |line| == j && (j > 0 ==> line[0] == 'd')
    requires j >= 4 ==> FieldOf(line) == Field("data", value)
    ensures Dispatch(Fold(p, [EVENT_LINE] + Lines(line))).events ==
            p.events + (if j >= 4 then [NotificationEvent(value)] else [])
  {
    hide FieldOf, Line, Fold;
    SingleLine(line);
    hide Lines, OneLine;
    TwoLines(p, EVENT_LINE, line);
    if j == 0 {
      assert [EVENT_LINE] + [] == [EVENT_LINE];
    } else if j < 4 {
      NoData(Line(p, EVENT_LINE), line);
    } else {
      DataLine(Line(p, EVENT_LINE), line, value);
    }
  }

  lemma DataLine(p: Parse, line: string, value: NotificationId)
    requires line != "" && line[0] == 'd' && FieldOf(line) == Field("data", value)
    requires p == Parse("notification", "", [], p.events)
    ensures Dispatch(Line(p, line)).events == p.events + [NotificationEvent(value)]
  {
    hide FieldOf;
    assert Join([value]) == value;
  }

  lemma TwoLines(p: Parse, a: string, b: string)
    ensures Fold(p, [a]) == Line(p, a) && Fold(p, [a] + [b]) == Line(Line(p, a), b)
  {
    assert [] + [a] == [a];
    FoldAppend(p, [], a);
    FoldAppend(p, [a], b);
  }

  lemma EventLine(p: Parse)
    ensures Line(p, EVENT_LINE) == p.(eventType := "notification")
  {
    FieldReadBack("event", "notification");
    assert EVENT_LINE == "event" + ": " + "notification";
    hide FieldOf;
  }

  lemma DataField(id: NotificationId, j: nat)
    requires 4 <= j <= |"data: "| + |id|
    ensures FieldOf(("data: " + id)[..j]) == Field("data", PartOfId(id, 20 + j))
  {
    var line := ("data: " + id)[..j];
    if j == 4 {
      assert line == "data";
      assert IndexOf(line, ':', 0) == 4;
    } else if j == 5 {
      assert line == "data:";
      assert IndexOf(line, ':', 0) == 4;
    } else {
      FieldReadBack("data", id[..j - 6]);
      assert line == "data" + ": " + id[..j - 6];
    }
  }

  // ----- The end of the stream ------------------------------------------------------------

  lemma PartAdds(f: Frame, r: nat, events: seq<Event>)
    requires r < |FrameText(f)|
    ensures Dispatch(Fold(Parse("", "", [], events), Lines(FrameText(f)[..r]))).events == events + PartEvents(f, r)
  {
    hide Lines, Fold;
    var p := Parse("", "", [], events);
    match f
    case Connected =>
      hide Dispatch;
      assert events + [] == events;
      CommentPart(": connected", FrameText(f), r, p);
    case Ping =>
      hide Dispatch;
      assert events + [] == events;
      CommentPart(": keepalive", FrameText(f), r, p);
    case Notified(id) =>
      hide Dispatch, FrameText, PartEvents;
      NotifiedPart(id, r, events);
  }

  lemma CommentPart(comment: string, text: string, r: nat, p: Parse)
    requires OneLine(comment) && comment != "" && comment[0] == ':' && r < |comment| + 2
    requires text == comment + "\n\n"
    requires p.data == [] && p.lastEventId == ""
    ensures Dispatch(Fold(p, Lines(text[..r]))).events == p.events
  {
    hide Lines, Fold, Dispatch;
    var part := text[..r];
    if r <= |comment| {
      assert part == comment[..r];
      Quiet(p, part);
    } else {
      assert part == comment + "\n" + "";
      LineAlone(comment);
      Quiet(p, comment);
    }
  }

  lemma LineAlone(line: string)
    requires OneLine(line) && line != ""
    ensures Lines(line + "\n" + "") == Lines(line)
  {
    LinesThen(line, "");
    assert Lines("") == [];
    SingleLine(line);
  }

  // The first bytes of two lines and a blank one.
  lemma FirstLineCut(a: string, b: string, r: nat)
    requires r <= |a|
    ensures (a + "\n" + b + "\n\n")[..r] == a[..r]
  {
  }

  lemma SecondLineCut(a: string, b: string, r: nat)
    requires OneLine(a) && |a| < r <= |a| + 1 + |b|
    ensures Lines((a + "\n" + b + "\n\n")[..r]) == [a] + Lines(b[..r - |a| - 1])
  {
    hide Lines;
    LinesThen(a, b[..r - |a| - 1]);
    assert (a + "\n" + b + "\n\n")[..r] == a + "\n" + b[..r - |a| - 1];
  }

  lemma ThirdLineCut(a: string, b: string)
    requires OneLine(a) && OneLine(b) && b != ""
    ensures Lines((a + "\n" + b + "\n\n")[..|a| + |b| + 2]) == [a] + Lines(b)
  {
    hide Lines, OneLine;
    var last := b + "\n" + "";
    LinesThen(a, last);
    LineAlone(b);
    WithoutBlankLine(a, b);
  }

  lemma WithoutBlankLine(a: string, b: string)
    ensures (a + "\n" + b + "\n\n")[..|a| + |b| + 2] == a + "\n" + (b + "\n" + "")
  {
    var text := a + "\n" + (b + "\n" + "");
    assert a + "\n" + b + "\n\n" == text + "\n";
  }

  lemma NotifiedPart(id: NotificationId, r: nat, events: seq<Event>)
    requires r < |FrameText(Notified(id))|
    ensures Dispatch(Fold(Parse("", "", [], events), Lines(FrameText(Notified(id))[..r]))).events ==
            events + PartEvents(Notified(id), r)
  {
    hide Lines, Fold;
    var data := "data: " + id;
    var n := |EVENT_LINE|;
    NotifiedText(id);
    assert OneLine(data) && OneLine(EVENT_LINE) && EVENT_LINE[0] == 'e';
    assert |FrameText(Notified(id))| == n + |data| + 3 && |data| == 6 + |id|;
    hide FrameText, Dispatch;
    if r <= n {
      FirstLineCut(EVENT_LINE, data, r);
      Quiet(Parse("", "", [], events), EVENT_LINE[..r]);
    } else if r - n - 1 <= |data| {
      SecondLineCut(EVENT_LINE, data, r);
      DataPart(events, id, r - n - 1);
    } else {
      ThirdLineCut(EVENT_LINE, data);
      assert data[..|data|] == data;
      DataPart(events, id, |data|);
    }
  }

  // The events of any cut of a stream's text: those of the whole frames, and what the
  // part of the next one adds.
  lemma CutEvents(fs: seq<Frame>, arrived: nat)
    requires arrived <= |FramesText(fs)|
    ensures var w := Whole(fs, arrived);
            EventsOf(FramesText(fs)[..arrived]) ==
            EventsFor(IdsIn(fs[..w])) +
            (if w < |fs| then PartEvents(fs[w], arrived - |FramesText(fs[..w])|) else [])
  {
    hide EventsOf, EventsFor, IdsIn, FrameText, PartEvents;
    var w := Whole(fs, arrived);
    var r := arrived - |FramesText(fs[..w])|;
    hide Whole;
    if w == |fs| {
      assert fs[..w] == fs && FramesText(fs)[..arrived] == FramesText(fs);
      FramesReadBack(fs);
      assert EventsFor(IdsIn(fs)) + [] == EventsFor(IdsIn(fs));
    } else {
      TextUpTo(fs, w, r);
      ThenPart(fs[..w], fs[w], r);
    }
  }

  lemma ThenPart(fs: seq<Frame>, f: Frame, r: nat)
    requires r < |FrameText(f)|
    ensures EventsOf(FramesText(fs) + FrameText(f)[..r]) == EventsFor(IdsIn(fs)) + PartEvents(f, r)
  {
    hide Lines, Fold, BlockEvents, EventsFor, IdsIn, FrameText, PartEvents, FramesText, FramesLines, Dispatch;
    var part := FrameText(f)[..r];
    var text := FramesText(fs) + part;
    FramesFold(fs);
    FramesThen(fs, part);
    FoldConcat(START, FramesLines(fs), Lines(part));
    PartAdds(f, r, EventsFor(IdsIn(fs)));
    FoldIsBlocks(Lines(text), "", []);
    assert [] + EventsOf(text) == EventsOf(text);
  }

  lemma {:induction false} TextUpTo(fs: seq<Frame>, w: nat, r: nat)
    requires w < |fs| && r <= |FrameText(fs[w])|
    ensures |FramesText(fs[..w])| + r <= |FramesText(fs)|
    ensures FramesText(fs)[..|FramesText(fs[..w])| + r] == FramesText(fs[..w]) + FrameText(fs[w])[..r]
  {
    hide FrameText;
    var n := |fs| - 1;
    if w < n {
      TextUpTo(fs[..n], w, r);
      assert fs[..n][..w] == fs[..w];
    } else {
      assert fs[..w] == fs[..n];
    }
  }

  // ----- Exactly when an id is cut -------------------------------------------------------------

  lemma {:induction false} IdsPrefix(fs: seq<Frame>, w: nat) returns (rest: seq<NotificationId>)
    requires w <= |fs|
    ensures IdsIn(fs) == IdsIn(fs[..w]) + rest
  {
    rest := [];
    if w == |fs| {
      assert fs[..w] == fs;
    } else {
      var n := |fs| - 1;
      var shorter := IdsPrefix(fs[..n], w);
      assert fs[..n][..w] == fs[..w];
      rest := shorter + (if fs[n].Notified? then [fs[n].id] else []);
    }
  }

  lemma {:induction false} SubsequenceIn<T>(a: seq<T>, b: seq<T>)
    requires Subsequence(a, b)
    ensures forall x :: x in a ==> x in b
    decreases |b|
  {
    if |a| > 0 {
      var b' := b[..|b| - 1];
      assert b == b' + [b[|b| - 1]] && a == a[..|a| - 1] + [a[|a| - 1]];
      if Subsequence(a, b') {
        SubsequenceIn(a, b');
      } else {
        SubsequenceIn(a[..|a| - 1], b');
      }
    }
  }

  lemma LastEvent(ids: seq<NotificationId>, events: seq<Event>, id: NotificationId)
    requires EventsFor(ids) == events + [NotificationEvent(id)]
    ensures |ids| > 0 && ids[|ids| - 1] == id
  {
    EventsForLength(ids);
    assert EventsFor(ids)[|ids| - 1] == NotificationEvent(ids[|ids| - 1]);
    assert EventsFor(ids)[|ids| - 1] == NotificationEvent(id);
  }

  // The delivered events are notifications for an in-order part of those published.
  ghost predicate WholeIdsOnly(text: string, published: seq<NotificationId>) {
    exists ids :: EventsOf(text) == EventsFor(ids) && Subsequence(ids, published)
  }

  // A stream may end after any number of bytes. What has then been delivered is, in
  // order, a part of what was published to the owner, if and only if the end does not
  // cut an id: ids being texts of one length, as those of the program are.
  lemma EndsCleanExactly(hub: State, trace: seq<Action>, owner: string, arrived: nat, length: nat)
    requires Bounded(hub) && Keeps(trace, owner, hub.nextId)
    requires arrived <= |FramesText(StreamFrames(Act(hub, Subscribe(owner)), trace, owner, hub.nextId))|
    requires length > 0 && forall id :: id in PublishedTo(trace, owner) ==> |id| == length
    ensures var fs := StreamFrames(Act(hub, Subscribe(owner)), trace, owner, hub.nextId);
            WholeIdsOnly(FramesText(fs)[..arrived], PublishedTo(trace, owner)) <==> !CutsAnId(fs, arrived)
  {
    hide Bounded, Live, QueueOf, Keeps, FramesText, FrameText, Act, Acts, EventsOf, Subsequence, StreamFrames;
    hide CutsAnId, WholeIdsOnly, ReceivedBy, PublishedTo;
    var s, sub := Act(hub, Subscribe(owner)), hub.nextId;
    var fs := StreamFrames(s, trace, owner, sub);
    var published := PublishedTo(trace, owner);
    StreamIds(s, trace, owner, sub);
    ReceivesInOrder(hub, trace, owner);
    forall w: nat | w <= |fs|
      ensures Subsequence(IdsIn(fs[..w]), published)
    {
      PartDelivered(fs, w, QueueOf(Acts(s, trace), owner, sub), published);
    }
    hide IdsIn;
    CutExactly(fs, arrived, published, length);
  }

  // The ids of the first frames are delivered in order.
  lemma PartDelivered(fs: seq<Frame>, w: nat, queue: seq<NotificationId>, published: seq<NotificationId>)
    requires w <= |fs| && Subsequence(IdsIn(fs) + queue, published)
    ensures Subsequence(IdsIn(fs[..w]), published)
  {
    var rest := IdsPrefix(fs, w);
    assert IdsIn(fs) + queue == IdsIn(fs[..w]) + (rest + queue);
    SubsequencePrefix(IdsIn(fs[..w]), rest + queue, published);
  }

  lemma CutExactly(fs: seq<Frame>, arrived: nat, published: seq<NotificationId>, length: nat)
    requires arrived <= |FramesText(fs)|
    requires forall w: nat :: w <= |fs| ==> Subsequence(IdsIn(fs[..w]), published)
    requires length > 0 && forall id :: id in published ==> |id| == length
    ensures WholeIdsOnly(FramesText(fs)[..arrived], published) <==> !CutsAnId(fs, arrived)
  {
    hide IdsIn, EventsFor, FramesText, FrameText, EventsOf, Subsequence, CutsAnId, WholeIdsOnly, PartEvents, Whole;
    var w := Whole(fs, arrived);
    CutEvents(fs, arrived);
    if w == |fs| {
      assert EventsFor(IdsIn(fs[..w])) + [] == EventsFor(IdsIn(fs[..w]));
      NoPart(fs, arrived, published);
    } else {
      assert w + 1 <= |fs|;
      NextPart(fs, w, arrived, published, length);
    }
  }

  lemma NoPart(fs: seq<Frame>, arrived: nat, published: seq<NotificationId>)
    requires arrived <= |FramesText(fs)| && Whole(fs, arrived) == |fs|
    requires EventsOf(FramesText(fs)[..arrived]) == EventsFor(IdsIn(fs[..|fs|]))
    requires Subsequence(IdsIn(fs[..|fs|]), published)
    ensures WholeIdsOnly(FramesText(fs)[..arrived], published) && !CutsAnId(fs, arrived)
  {
    hide EventsOf, EventsFor, IdsIn, Subsequence;
  }

  lemma NextPart(fs: seq<Frame>, w: nat, arrived: nat, published: seq<NotificationId>, length: nat)
    requires arrived <= |FramesText(fs)| && w == Whole(fs, arrived) && w < |fs|
    requires Subsequence(IdsIn(fs[..w]), published) && Subsequence(IdsIn(fs[..w + 1]), published)
    requires length > 0 && forall id :: id in published ==> |id| == length
    requires EventsOf(FramesText(fs)[..arrived]) ==
             EventsFor(IdsIn(fs[..w])) + PartEvents(fs[w], arrived - |FramesText(fs[..w])|)
    ensures WholeIdsOnly(FramesText(fs)[..arrived], published) <==> !CutsAnId(fs, arrived)
  {
    hide Whole, FrameText, EventsOf, Subsequence, FramesText, EventsFor, WholeIdsOnly;
    var r := arrived - |FramesText(fs[..w])|;
    var ids := IdsIn(fs[..w]);
    var text := FramesText(fs)[..arrived];
    assert fs[..w + 1][..w] == fs[..w];
    if !(fs[w].Notified? && r >= DATA_FROM) {
      assert EventsFor(ids) + [] == EventsFor(ids);
      IsDelivered(text, ids, published);
    } else {
      var id := fs[w].id;
      assert IdsIn(fs[..w + 1]) == ids + [id];
      assert PartEvents(fs[w], r) == [NotificationEvent(PartOfId(id, r))];
      assert EventsOf(text) == EventsFor(ids) + [NotificationEvent(PartOfId(id, r))];
      assert Subsequence(ids + [id], published);
      assert CutsAnId(fs, arrived) <==> r < WholeFrom(id);
      PartOfIdIs(id, r);
      hide IdsIn, PartOfId, WholeFrom, PartEvents, CutsAnId, NotificationEvent;
      if r >= WholeFrom(id) {
        OneMore(ids, id);
        IsDelivered(text, ids + [id], published);
      } else {
        SubsequenceIn(ids + [id], published);
        assert id in ids + [id];
        NotDelivered(text, ids, id, PartOfId(id, r), published, length);
      }
    }
  }

  lemma IsDelivered(text: string, ids: seq<NotificationId>, published: seq<NotificationId>)
    requires EventsOf(text) == EventsFor(ids) && Subsequence(ids, published)
    ensures WholeIdsOnly(text, published)
  {
  }

  lemma PartOfIdIs(id: NotificationId, r: nat)
    ensures r >= WholeFrom(id) ==> PartOfId(id, r) == id
    ensures id != "" && r < WholeFrom(id) ==> |PartOfId(id, r)| < |id|
  {
  }

  lemma OneMore(ids: seq<NotificationId>, id: NotificationId)
    ensures EventsFor(ids + [id]) == EventsFor(ids) + [NotificationEvent(id)]
  {
    assert (ids + [id])[..|ids|] == ids;
  }

  // An id that is too short is not one that was published.
  lemma NotDelivered(text: string, ids: seq<NotificationId>, id: NotificationId, part: NotificationId,
                     published: seq<NotificationId>, length: nat)
    requires EventsOf(text) == EventsFor(ids) + [NotificationEvent(part)]
    requires |part| < |id| && Subsequence(ids + [id], published)
    requires forall x :: x in published ==> |x| == length
    ensures !WholeIdsOnly(text, published)
  {
    hide EventsOf, EventsFor, Subsequence;
    SubsequenceIn(ids + [id], published);
    assert id in ids + [id];
    if other :| EventsOf(text) == EventsFor(other) && Subsequence(other, published) {
      LastEvent(other, EventsFor(ids), part);
      SubsequenceIn(other, published);
    }
  }

  lemma PartAlone(f: Frame, r: nat)
    requires r < |FrameText(f)|
    ensures EventsOf(FrameText(f)[..r]) == PartEvents(f, r)
  {
    hide Lines, Fold, FrameText, BlockEvents, PartEvents;
    PartAdds(f, r, []);
    FoldIsBlocks(Lines(FrameText(f)[..r]), "", []);
    assert [] + EventsOf(FrameText(f)[..r]) == EventsOf(FrameText(f)[..r]);
    assert [] + PartEvents(f, r) == PartEvents(f, r);
  }

  // The witnesses at the edges: an end right before the colon of the data field
  // dispatches an empty id; one after the event line, and one right after the whole
  // id, do no harm.
  lemma EdgesOfAFrame(id: NotificationId)
    requires id != ""
    ensures |FrameText(Notified(id))| == WholeFrom(id) + 2
    ensures EventsOf(FrameText(Notified(id))[..DATA_FROM - 1]) == []
    ensures EventsOf(FrameText(Notified(id))[..DATA_FROM]) == [NotificationEvent("")]
    ensures EventsOf(FrameText(Notified(id))[..WholeFrom(id) - 1]) == [NotificationEvent(id[..|id| - 1])]
    ensures EventsOf(FrameText(Notified(id))[..WholeFrom(id)]) == [NotificationEvent(id)]
  {
    Offsets(id);
    hide EventsOf, FrameText;
    PartAlone(Notified(id), DATA_FROM - 1);
    PartAlone(Notified(id), DATA_FROM);
    PartAlone(Notified(id), WholeFrom(id) - 1);
    PartAlone(Notified(id), WholeFrom(id));
    assert id[..0] == "" && id[..|id|] == id;
  }
}
