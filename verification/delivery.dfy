// From the hub to the browser: the frames a stream writes, and what the parser
// makes of them.
module Delivery {
  import opened Prelude
  import opened EventStream
  import Sse = SseParser
  import opened Hub

  datatype Frame = Connected | Ping | Notified(id: NotificationId)

  function FrameText(f: Frame): string {
    match f
    case Connected => ": connected\n\n"
    case Ping => ": keepalive\n\n"
    case Notified(id) => "event: notification\n" + "data: " + id + "\n\n"
  }

  function FramesText(fs: seq<Frame>): string {
    if |fs| == 0 then "" else FramesText(fs[..|fs| - 1]) + FrameText(fs[|fs| - 1])
  }

  // The event a browser should see for a notification.
  function NotificationEvent(id: NotificationId): Event {
    Event("notification", id, "")
  }

  function IdsIn(fs: seq<Frame>): seq<NotificationId> {
    if |fs| == 0 then []
    else IdsIn(fs[..|fs| - 1]) + (if fs[|fs| - 1].Notified? then [fs[|fs| - 1].id] else [])
  }

  function EventsFor(ids: seq<NotificationId>): seq<Event> {
    if |ids| == 0 then [] else EventsFor(ids[..|ids| - 1]) + [NotificationEvent(ids[|ids| - 1])]
  }

  // ----- Frames are read back as they were written ---------------------------------

  function FrameLines(f: Frame): seq<string> {
    match f
    case Connected => [": connected", ""]
    case Ping => [": keepalive", ""]
    case Notified(id) => ["event: notification", "data: " + id, ""]
  }

  // A text that ends its last line with LF keeps its lines when more follows.
  lemma {:induction false} LinesThen(line: string, rest: string)
    requires OneLine(line)
    ensures Lines(line + "\n" + rest) == [line] + Lines(rest)
    ensures CompleteLines(line + "\n" + rest) == [line] + CompleteLines(rest)
  {
    var s := line + "\n" + rest;
    assert s[|line|] == '\n';
    LineEndUnique(s, |line|);
    assert FirstLine(s) == line && AfterLine(s) == rest;
  }

  lemma CommentThen(a: string, rest: string)
    requires OneLine(a)
    ensures Lines(a + "\n\n" + rest) == [a, ""] + Lines(rest)
    ensures CompleteLines(a + "\n\n" + rest) == [a, ""] + CompleteLines(rest)
  {
    hide Lines, CompleteLines;
    var tail := "" + "\n" + rest;
    LinesThen("", rest);
    LinesThen(a, tail);
    assert a + "\n\n" + rest == a + "\n" + tail;
  }

  lemma FieldsThen(a: string, b: string, rest: string)
    requires OneLine(a) && OneLine(b)
    ensures Lines(a + "\n" + b + "\n\n" + rest) == [a, b, ""] + Lines(rest)
    ensures CompleteLines(a + "\n" + b + "\n\n" + rest) == [a, b, ""] + CompleteLines(rest)
  {
    hide Lines, CompleteLines;
    var tail := b + "\n\n" + rest;
    CommentThen(b, rest);
    LinesThen(a, tail);
    assert a + "\n" + b + "\n\n" + rest == a + "\n" + tail;
  }

  lemma FrameThen(f: Frame, rest: string)
    ensures Lines(FrameText(f) + rest) == FrameLines(f) + Lines(rest)
    ensures CompleteLines(FrameText(f) + rest) == FrameLines(f) + CompleteLines(rest)
  {
    hide Lines, CompleteLines;
    match f
    case Connected =>
      CommentThen(": connected", rest);
      assert FrameText(f) == ": connected" + "\n\n";
    case Ping =>
      CommentThen(": keepalive", rest);
      assert FrameText(f) == ": keepalive" + "\n\n";
    case Notified(id) =>
      NotifiedText(id);
      FieldsThen("event: notification", "data: " + id, rest);
  }

  lemma NotifiedText(id: NotificationId)
    ensures FrameText(Notified(id)) == "event: notification" + "\n" + ("data: " + id) + "\n\n"
  {
    assert "event: notification\n" == "event: notification" + "\n";
    Reassociate("event: notification\n", "data: ", id, "\n\n");
  }

  lemma Reassociate(a: string, b: string, c: string, d: string)
    ensures a + b + c + d == a + (b + c) + d
  {
  }

  function FramesLines(fs: seq<Frame>): seq<string> {
    if |fs| == 0 then [] else FramesLines(fs[..|fs| - 1]) + FrameLines(fs[|fs| - 1])
  }

  lemma {:induction false} FramesThen(fs: seq<Frame>, rest: string)
    ensures Lines(FramesText(fs) + rest) == FramesLines(fs) + Lines(rest)
    ensures CompleteLines(FramesText(fs) + rest) == FramesLines(fs) + CompleteLines(rest)
  {
    hide Lines, CompleteLines, FrameText, FrameLines;
    if |fs| == 0 {
      assert FramesText(fs) + rest == rest;
    } else {
      var n := |fs| - 1;
      FramesThen(fs[..n], FrameText(fs[n]) + rest);
      FrameThen(fs[n], rest);
      assert FramesText(fs) + rest == FramesText(fs[..n]) + (FrameText(fs[n]) + rest);
    }
  }

  lemma FieldReadBack(name: string, value: string)
    requires ':' !in name
    ensures FieldOf(name + ": " + value) == Field(name, value)
  {
    var line := name + ": " + value;
    var colon := IndexOf(line, ':', 0);
    assert line[|name|] == ':';
    assert !(colon < |name|) && !(|name| < colon);
    assert line[colon + 1..] == " " + value;
  }

  lemma CommentBlock(line: string)
    requires Comment(line)
    ensures BlockEvent([line], "") == [] && IdOf([line], "") == ""
  {
    BlockAppend([], line, "", "");
    assert [] + [line] == [line];
    EmptyBlock();
  }

  lemma NotificationBlock(a: string, b: string, value: string)
    requires a != "" && !Comment(a) && FieldOf(a) == Field("event", "notification")
    requires b != "" && !Comment(b) && FieldOf(b) == Field("data", value)
    ensures BlockEvent([a, b], "") == [Event("notification", value, "")] && IdOf([a, b], "") == ""
  {
    assert [] + [a] == [a] && [a] + [b] == [a, b];
    BlockAppend([], a, "", "");
    BlockAppend([a], b, "", "");
    hide DataOf, TypeOf, IdOf, FieldOf;
    assert DataOf([]) == [] && IdOf([], "") == "" by { EmptyBlock(); }
    assert Join([value]) == value;
  }

  lemma EmptyBlock()
    ensures DataOf([]) == [] && TypeOf([], "") == "" && IdOf([], "") == ""
  {
  }

  lemma EventLineReads()
    ensures FieldOf("event: notification") == Field("event", "notification")
    ensures "event: notification" != "" && !Comment("event: notification")
  {
    FieldReadBack("event", "notification");
    hide FieldOf;
    assert "event: notification" == "event" + ": " + "notification";
  }

  lemma DataLineReads(value: string)
    ensures FieldOf("data: " + value) == Field("data", value)
    ensures "data: " + value != "" && !Comment("data: " + value)
  {
    FieldReadBack("data", value);
    hide FieldOf;
    assert "data: " + value == "data" + ": " + value;
  }

  lemma NotifiedBlock(value: string)
    ensures BlockEvent(["event: notification", "data: " + value], "") == [Event("notification", value, "")]
    ensures IdOf(["event: notification", "data: " + value], "") == ""
  {
    hide FieldOf, BlockEvent, IdOf, Comment;
    EventLineReads();
    DataLineReads(value);
    NotificationBlock("event: notification", "data: " + value, value);
  }

  // One frame's lines, read between events: its event, and nothing left over.
  lemma FrameFold(f: Frame, events: seq<Event>)
    ensures Fold(Parse("", "", [], events), FrameLines(f)) ==
            Parse("", "", [], events + (if f.Notified? then [NotificationEvent(f.id)] else []))
  {
    hide Fold, BlockEvent, IdOf;
    var p := Parse("", "", [], events);
    var block := match f
      case Connected => [": connected"]
      case Ping => [": keepalive"]
      case Notified(id) => ["event: notification", "data: " + id];
    assert FrameLines(f) == block + [""];
    FoldAppend(p, block, "");
    BlockDispatch(block, "", events);
    match f
    case Connected => CommentBlock(": connected");
    case Ping => CommentBlock(": keepalive");
    case Notified(id) => NotifiedBlock(id);
  }

  lemma {:induction false} FramesFold(fs: seq<Frame>)
    ensures Fold(START, FramesLines(fs)) == Parse("", "", [], EventsFor(IdsIn(fs)))
  {
    if |fs| > 0 {
      var n := |fs| - 1;
      FramesFold(fs[..n]);
      hide Fold, FrameLines;
      FoldConcat(START, FramesLines(fs[..n]), FrameLines(fs[n]));
      FrameFold(fs[n], EventsFor(IdsIn(fs[..n])));
      if fs[n].Notified? {
        assert IdsIn(fs)[..|IdsIn(fs)| - 1] == IdsIn(fs[..n]);
      } else {
        assert IdsIn(fs) == IdsIn(fs[..n]);
      }
    }
  }

  // Round trip: the events of the written text are the notifications, in order,
  // and each is dispatched as soon as its frame has arrived.
  lemma FramesReadBack(fs: seq<Frame>)
    ensures EventsOf(FramesText(fs)) == EventsFor(IdsIn(fs))
    ensures EventsSoFar(FramesText(fs)) == EventsFor(IdsIn(fs))
  {
    assert Lines("") == [] && CompleteLines("") == [];
    hide Lines, CompleteLines, Fold, BlockEvents, EventsFor, IdsIn, FramesText, FramesLines;
    FramesThen(fs, "");
    assert FramesText(fs) + "" == FramesText(fs);
    assert FramesLines(fs) + [] == FramesLines(fs);
    FramesFold(fs);
    FoldIsBlocks(FramesLines(fs), "", []);
    assert [] + EventsOf(FramesText(fs)) == EventsOf(FramesText(fs));
  }

  // ----- One stream -------------------------------------------------------------------

  // The frames one action makes a stream write.
  function FramesOf(before: State, a: Action, owner: string, sub: nat): seq<Frame> {
    if a == Keepalive(owner, sub) then [Ping]
    else
      var handed := Handed(before, a, owner, sub);
      if handed == [] then [] else [Notified(handed[0])]
  }

  function StreamFrames(s: State, trace: seq<Action>, owner: string, sub: nat): seq<Frame> {
    if |trace| == 0 then [Connected]
    else
      var shorter := trace[..|trace| - 1];
      StreamFrames(s, shorter, owner, sub) + FramesOf(Acts(s, shorter), trace[|trace| - 1], owner, sub)
  }

  lemma {:induction false} StreamIds(s: State, trace: seq<Action>, owner: string, sub: nat)
    ensures IdsIn(StreamFrames(s, trace, owner, sub)) == ReceivedBy(s, trace, owner, sub)
  {
    if |trace| == 0 {
      assert [Connected][..0] == [];
    } else {
      var shorter, a := trace[..|trace| - 1], trace[|trace| - 1];
      StreamIds(s, shorter, owner, sub);
      var fs, more := StreamFrames(s, shorter, owner, sub), FramesOf(Acts(s, shorter), a, owner, sub);
      if more != [] {
        assert (fs + more)[..|fs + more| - 1] == fs;
      } else {
        assert fs + more == fs;
      }
      var got := ReceivedBy(s, shorter, owner, sub);
      assert got + [] == got;
    }
  }

  // One action on the hub.
  method Perform(hub: NotificationHub, a: Action)
    modifies hub
    ensures hub.View() == Act(old(hub.View()), a)
  {
    match a
    case Subscribe(owner) => var _ := hub.Subscribe(owner);
    case Unsubscribe(owner, sub) => hub.Unsubscribe(owner, sub);
    case Publish(owner, id) => hub.Publish(owner, id);
    case Receive(owner, sub) => var _ := hub.Receive(owner, sub);
    case Keepalive(_, _) =>
  }

  // One turn: the frame it asks for, if any.
  method Turn(hub: NotificationHub, a: Action, owner: string, sub: nat) returns (frame: Option<Frame>)
    modifies hub
    ensures hub.View() == Act(old(hub.View()), a)
    ensures FramesOf(old(hub.View()), a, owner, sub) == if frame.Some? then [frame.value] else []
    ensures var q := QueueOf(old(hub.View()), owner, sub);
            && (frame == Some(Ping) <==> a == Keepalive(owner, sub))
            && (a == Receive(owner, sub) && q != [] ==> frame == Some(Notified(q[0])))
            && (frame.Some? ==> a == Keepalive(owner, sub) || (a == Receive(owner, sub) && q != []))
  {
    frame := None;
    if a == Keepalive(owner, sub) {
      frame := Some(Ping);
    } else if a == Receive(owner, sub) {
      var id := hub.Receive(owner, sub);
      if id.Some? { frame := Some(Notified(id.value)); }
    } else {
      Perform(hub, a);
    }
  }

  function FirstFrames(fs: seq<Frame>, n: nat): seq<Frame> {
    if |fs| <= n then fs else fs[..n]
  }

  // streamNotifications: subscribe, greet, then write a frame for each id taken and
  // each tick, while others act on the hub in between; unsubscribe at the end. The
  // connection takes `writes` frames, and the write after them fails and ends the
  // stream, after the turn `served - 1` that asked for it.
  method StreamNotifications(hub: NotificationHub, owner: string, turns: seq<Action>, writes: nat)
    returns (text: string, sub: nat, served: nat)
    modifies hub
    ensures sub == old(hub.View()).nextId && served <= |turns|
    ensures var s := Act(old(hub.View()), Subscribe(owner));
            var frames := StreamFrames(s, turns[..served], owner, sub);
            && |frames| <= writes + 1
            && (|frames| <= writes ==> served == |turns|)
            && text == FramesText(FirstFrames(frames, writes))
            && hub.View() == Act(Acts(s, turns[..served]), Unsubscribe(owner, sub))
  {
    hide FrameText, Act, Acts, Subscribed, Unsubscribed, FramesOf, StreamFrames;
    SubscribedAct(hub.View(), owner);
    sub := hub.Subscribe(owner);
    ghost var s := hub.View();
    ghost var frames := [Connected];
    StreamStarts(s, owner, sub);
    text, served := "", 0;
    var failed := writes == 0;
    if !failed { text := FrameText(Connected); }
    var written := 1;
    while served < |turns| && !failed
      invariant served <= |turns| && hub.View() == Acts(s, turns[..served])
      invariant frames == StreamFrames(s, turns[..served], owner, sub)
      invariant |frames| == if failed then writes + 1 else written
      invariant !failed ==> written <= writes
      invariant text == FramesText(FirstFrames(frames, writes))
      decreases |turns| - served, !failed
    {
      ghost var before := frames;
      StreamTurn(s, turns, served, owner, sub);
      frames := StreamFrames(s, turns[..served + 1], owner, sub);
      var frame := Turn(hub, turns[served], owner, sub);
      served := served + 1;
      assert frames == before + (if frame.Some? then [frame.value] else []);
      assert before + [] == before;
      if frame.Some? {
        WrittenOrNot(before, frame.value, writes);
        if written == writes {
          failed := true;
        } else {
          text := text + FrameText(frame.value);
          written := written + 1;
        }
      }
    }
    UnsubscribedAct(hub.View(), owner, sub);
    hub.Unsubscribe(owner, sub);
  }

  lemma SubscribedAct(s: State, owner: string)
    ensures Act(s, Subscribe(owner)) == Subscribed(s, owner)
  {
  }

  lemma UnsubscribedAct(s: State, owner: string, sub: nat)
    ensures Act(s, Unsubscribe(owner, sub)) == Unsubscribed(s, owner, sub)
  {
  }

  lemma WrittenOrNot(fs: seq<Frame>, f: Frame, writes: nat)
    requires |fs| <= writes
    ensures FirstFrames(fs, writes) == fs
    ensures |fs| == writes ==> FirstFrames(fs + [f], writes) == fs
    ensures |fs| < writes ==> FramesText(FirstFrames(fs + [f], writes)) == FramesText(fs) + FrameText(f)
  {
    hide FrameText;
    assert (fs + [f])[..|fs|] == fs;
  }

  lemma StreamStarts(s: State, owner: string, sub: nat)
    ensures StreamFrames(s, [], owner, sub) == [Connected] && Acts(s, []) == s
    ensures FramesText([Connected]) == FrameText(Connected) && FramesText([]) == ""
  {
    assert [Connected][..0] == [];
  }

  lemma StreamTurn(s: State, turns: seq<Action>, i: nat, owner: string, sub: nat)
    requires i < |turns|
    ensures var before := Acts(s, turns[..i]);
            && Acts(s, turns[..i + 1]) == Act(before, turns[i])
            && StreamFrames(s, turns[..i + 1], owner, sub) ==
               StreamFrames(s, turns[..i], owner, sub) + FramesOf(before, turns[i], owner, sub)
  {
    hide Act, FrameText;
    assert turns[..i + 1][..i] == turns[..i];
  }

  // ----- End to end ---------------------------------------------------------------------

  lemma {:induction false} EventsForPrefix(events: seq<Event>, ids: seq<NotificationId>)
    requires events <= EventsFor(ids)
    ensures |EventsFor(ids)| == |ids| && events == EventsFor(ids[..|events|])
  {
    if |ids| == 0 {
      assert ids[..|events|] == [];
    } else {
      EventsForLength(ids);
      if |events| == |ids| {
        assert ids[..|events|] == ids;
      } else {
        EventsForLength(ids[..|ids| - 1]);
        EventsForPrefix(events, ids[..|ids| - 1]);
        assert ids[..|ids| - 1][..|events|] == ids[..|events|];
      }
    }
  }

  lemma {:induction false} EventsForLength(ids: seq<NotificationId>)
    ensures |EventsFor(ids)| == |ids|
  {
    if |ids| > 0 { EventsForLength(ids[..|ids| - 1]); }
  }

  // However the written text is cut into reads and wherever the connection is at
  // the moment, the events delivered so far are notifications whose ids are, in
  // order, among those published to the owner since it subscribed.
  lemma DeliveredInOrder(hub: State, trace: seq<Action>, owner: string, arrived: nat)
    returns (ids: seq<NotificationId>)
    requires Bounded(hub) && Keeps(trace, owner, hub.nextId)
    requires arrived <= |FramesText(StreamFrames(Act(hub, Subscribe(owner)), trace, owner, hub.nextId))|
    ensures EventsSoFar(FramesText(StreamFrames(Act(hub, Subscribe(owner)), trace, owner, hub.nextId))[..arrived]) ==
            EventsFor(ids)
    ensures Subsequence(ids, PublishedTo(trace, owner))
  {
    var s, sub := Act(hub, Subscribe(owner)), hub.nextId;
    hide EventsSoFar, EventsFor, IdsIn, FramesText, StreamFrames, EventsOf, Subsequence, Bounded, Live, QueueOf, Act;
    var fs := StreamFrames(s, trace, owner, sub);
    var text := FramesText(fs);
    assert text[..arrived] + text[arrived..] == text;
    DispatchedStays(text[..arrived], text[arrived..]);
    FramesReadBack(fs);
    StreamIds(s, trace, owner, sub);
    var got := ReceivedBy(s, trace, owner, sub);
    var n := |EventsSoFar(text[..arrived])|;
    EventsForPrefix(EventsSoFar(text[..arrived]), got);
    ReceivesInOrder(hub, trace, owner);
    ids := got[..n];
    var q := QueueOf(Acts(s, trace), owner, sub);
    assert got + q == ids + (got[n..] + q);
    SubsequencePrefix(ids, got[n..] + q, PublishedTo(trace, owner));
  }

  // Everything written has been delivered once it has all arrived, in any cut.
  lemma WrittenIsDelivered(s: State, trace: seq<Action>, owner: string, sub: nat, rs: seq<Sse.Read>)
    requires Sse.Text(rs) == FramesText(StreamFrames(s, trace, owner, sub))
    requires Sse.Unaborted(rs) == |rs|
    ensures Sse.Delivered(rs, false, None) == EventsFor(ReceivedBy(s, trace, owner, sub))
  {
    FramesReadBack(StreamFrames(s, trace, owner, sub));
    StreamIds(s, trace, owner, sub);
  }

  // A connection cut inside a frame: the end of the stream can add one event, and
  // it can carry half an id, because the pending event is dispatched anyway.
  lemma CutFrameDispatchesHalfAnId(id: NotificationId, k: nat)
    requires k <= |id|
    ensures "event: notification" + "\n" + ("data: " + id[..k]) <= FrameText(Notified(id))
    ensures EventsOf("event: notification" + "\n" + ("data: " + id[..k])) == [Event("notification", id[..k], "")]
  {
    var line := "data: " + id[..k];
    NotifiedText(id);
    assert "data: " + id == line + id[k..];
    OneLast("event: notification", line);
    NotifiedBlock(id[..k]);
    FirstBlock(["event: notification", line], "");
  }

  lemma OneLast(a: string, b: string)
    requires OneLine(a) && OneLine(b) && b != ""
    ensures Lines(a + "\n" + b) == [a, b]
  {
    LinesThen(a, b);
    LineEndUnique(b, |b|);
  }
}
