// The notification hub: subscribers per owner, each with a bounded queue that
// Publish fills without ever waiting.
module Hub {
  import opened Prelude

  // The text form of a notification id: it never holds a line end.
  type NotificationId = s: string | forall i :: 0 <= i < |s| ==> s[i] != '\r' && s[i] != '\n' witness ""

  const SUBSCRIBER_BUFFER := 16

  type Queue = seq<NotificationId>

  // A non-blocking send: dropped when the queue is full.
  function Offer(q: Queue, id: NotificationId): Queue {
    if |q| < SUBSCRIBER_BUFFER then q + [id] else q
  }

  datatype State = State(nextId: nat, subscribers: map<string, map<nat, Queue>>)

  datatype Action =
    | Subscribe(owner: string)
    | Unsubscribe(owner: string, sub: nat)
    | Publish(owner: string, id: NotificationId)
    | Receive(owner: string, sub: nat)    // a stream takes the head of its queue
    | Keepalive(owner: string, sub: nat)  // a stream's ticker fires; the hub is not involved

  predicate Live(s: State, owner: string, sub: nat) {
    owner in s.subscribers && sub in s.subscribers[owner]
  }

  function QueueOf(s: State, owner: string, sub: nat): Queue {
    if Live(s, owner, sub) then s.subscribers[owner][sub] else []
  }

  function Subscribed(s: State, owner: string): State {
    var own: map<nat, Queue> := if owner in s.subscribers then s.subscribers[owner] else map[];
    var empty: Queue := [];
    State(s.nextId + 1, s.subscribers[owner := own[s.nextId := empty]])
  }

  // The last subscriber of an owner takes the owner's map with it.
  function Unsubscribed(s: State, owner: string, sub: nat): State {
    if owner !in s.subscribers then s
    else
      var own := s.subscribers[owner] - {sub};
      s.(subscribers := if own == map[] then s.subscribers - {owner} else s.subscribers[owner := own])
  }

  function OfferAll(own: map<nat, Queue>, id: NotificationId): map<nat, Queue> {
    map k: nat | k in own :: Offer(own[k], id)
  }

  function Published(s: State, owner: string, id: NotificationId): State {
    if owner !in s.subscribers then s
    else
      var own := s.subscribers[owner];
      s.(subscribers := s.subscribers[owner := OfferAll(own, id)])
  }

  function Received(s: State, owner: string, sub: nat): State {
    if QueueOf(s, owner, sub) == [] then s
    else
      var own: map<nat, Queue> := s.subscribers[owner];
      s.(subscribers := s.subscribers[owner := own[sub := own[sub][1..]]])
  }

  function Act(s: State, a: Action): State {
    match a
    case Subscribe(owner) => Subscribed(s, owner)
    case Unsubscribe(owner, sub) => Unsubscribed(s, owner, sub)
    case Publish(owner, id) => Published(s, owner, id)
    case Receive(owner, sub) => Received(s, owner, sub)
    case Keepalive(_, _) => s
  }

  function Acts(s: State, trace: seq<Action>): State {
    if |trace| == 0 then s else Act(Acts(s, trace[..|trace| - 1]), trace[|trace| - 1])
  }

  // The hub as it runs: fields updated in place.
  class NotificationHub {
    var nextId: nat
    var subscribers: map<string, map<nat, Queue>>

    ghost function View(): State
      reads this
    {
      State(nextId, subscribers)
    }

    constructor ()
      ensures View() == State(0, map[])
    {
      nextId, subscribers := 0, map[];
    }

    method Subscribe(owner: string) returns (sub: nat)
      modifies this
      ensures sub == old(nextId) && View() == Subscribed(old(View()), owner)
    {
      sub := nextId;
      nextId := nextId + 1;
      if owner !in subscribers {
        var none: map<nat, Queue> := map[];
        subscribers := subscribers[owner := none];
      }
      var queue: Queue := [];
      var own: map<nat, Queue> := subscribers[owner];
      subscribers := subscribers[owner := own[sub := queue]];
    }

    method Unsubscribe(owner: string, sub: nat)
      modifies `subscribers
      ensures View() == Unsubscribed(old(View()), owner, sub)
    {
      if owner !in subscribers { return; }
      subscribers := subscribers[owner := subscribers[owner] - {sub}];
      if |subscribers[owner]| == 0 {
        subscribers := subscribers - {owner};
      }
    }

    // Offers the id to every queue of the owner, in whatever order the map gives.
    method Publish(owner: string, id: NotificationId)
      modifies `subscribers
      ensures View() == Published(old(View()), owner, id)
    {
      if owner !in subscribers { return; }
      ghost var own := subscribers[owner];
      var waiting := subscribers[owner].Keys;
      while waiting != {}
        invariant owner in subscribers && waiting <= own.Keys
        invariant subscribers.Keys == old(subscribers).Keys
        invariant forall o :: o in subscribers && o != owner ==> subscribers[o] == old(subscribers)[o]
        invariant subscribers[owner].Keys == own.Keys
        invariant forall k :: k in own ==>
                    subscribers[owner][k] == if k in waiting then own[k] else Offer(own[k], id)
        decreases |waiting|
      {
        var k: nat :| k in waiting;
        waiting := waiting - {k};
        if |subscribers[owner][k]| < SUBSCRIBER_BUFFER {
          var queues: map<nat, Queue> := subscribers[owner];
          subscribers := subscribers[owner := queues[k := queues[k] + [id]]];
        }
      }
      assert subscribers[owner] == OfferAll(own, id);
      assert subscribers == old(subscribers)[owner := subscribers[owner]];
    }

    // The stream's side of the channel.
    method Receive(owner: string, sub: nat) returns (id: Option<NotificationId>)
      modifies `subscribers
      ensures id == if QueueOf(old(View()), owner, sub) == [] then None else Some(QueueOf(old(View()), owner, sub)[0])
      ensures View() == Received(old(View()), owner, sub)
    {
      if owner !in subscribers || sub !in subscribers[owner] || |subscribers[owner][sub]| == 0 {
        return None;
      }
      id := Some(subscribers[owner][sub][0]);
      var own: map<nat, Queue> := subscribers[owner];
      subscribers := subscribers[owner := own[sub := own[sub][1..]]];
    }
  }

  // ----- What a subscriber gets over a whole trace -------------------------------

  // Ids published to the owner.
  function PublishedTo(trace: seq<Action>, owner: string): seq<NotificationId> {
    if |trace| == 0 then []
    else
      PublishedTo(trace[..|trace| - 1], owner) +
      (match trace[|trace| - 1]
       case Publish(o, id) => if o == owner then [id] else []
       case _ => [])
  }

  // What the last action of a trace hands to the subscriber.
  function Handed(before: State, a: Action, owner: string, sub: nat): seq<NotificationId> {
    if a == Receive(owner, sub) && QueueOf(before, owner, sub) != [] then [QueueOf(before, owner, sub)[0]] else []
  }

  // Ids the subscriber took from its queue.
  function ReceivedBy(s: State, trace: seq<Action>, owner: string, sub: nat): seq<NotificationId> {
    if |trace| == 0 then []
    else
      var shorter := trace[..|trace| - 1];
      ReceivedBy(s, shorter, owner, sub) + Handed(Acts(s, shorter), trace[|trace| - 1], owner, sub)
  }

  // The parts of `b`, in order, some left out.
  predicate Subsequence<T(==)>(a: seq<T>, b: seq<T>) {
    if |a| == 0 then true
    else if |b| == 0 then false
    else (a[|a| - 1] == b[|b| - 1] && Subsequence(a[..|a| - 1], b[..|b| - 1])) || Subsequence(a, b[..|b| - 1])
  }

  lemma SubsequenceSkip<T>(a: seq<T>, b: seq<T>, x: T)
    requires Subsequence(a, b)
    ensures Subsequence(a, b + [x])
  {
    assert (b + [x])[..|b|] == b;
  }

  lemma SubsequenceTake<T>(a: seq<T>, b: seq<T>, x: T)
    requires Subsequence(a, b)
    ensures Subsequence(a + [x], b + [x])
  {
    assert (b + [x])[..|b|] == b && (a + [x])[..|a|] == a;
  }

  lemma {:induction false} SubsequencePrefix<T>(a: seq<T>, tail: seq<T>, b: seq<T>)
    requires Subsequence(a + tail, b)
    ensures Subsequence(a, b)
    decreases |tail| + |b|
  {
    if |tail| == 0 {
      assert a + tail == a;
    } else if |b| > 0 {
      var all := a + tail;
      var b' := b[..|b| - 1];
      if Subsequence(all, b') {
        SubsequencePrefix(a, tail, b');
        SubsequenceSkip(a, b', b[|b| - 1]);
      } else {
        assert all[..|all| - 1] == a + tail[..|tail| - 1];
        SubsequencePrefix(a, tail[..|tail| - 1], b');
        SubsequenceSkip(a, b', b[|b| - 1]);
      }
      assert b' + [b[|b| - 1]] == b;
    }
  }

  // The subscription is not given up in this trace.
  predicate Keeps(trace: seq<Action>, owner: string, sub: nat) {
    forall i :: 0 <= i < |trace| ==> trace[i] != Unsubscribe(owner, sub)
  }

  predicate Bounded(s: State) {
    forall o, k :: o in s.subscribers && k in s.subscribers[o] ==>
      k < s.nextId && |s.subscribers[o][k]| <= SUBSCRIBER_BUFFER
  }

  lemma ActKeeps(s: State, a: Action, owner: string, sub: nat)
    requires Bounded(s) && Live(s, owner, sub) && a != Unsubscribe(owner, sub)
    ensures Bounded(Act(s, a)) && Live(Act(s, a), owner, sub)
    ensures var q, q' := QueueOf(s, owner, sub), QueueOf(Act(s, a), owner, sub);
            match a
            case Publish(o, id) => q' == if o == owner then Offer(q, id) else q
            case Receive(o, k) => q' == if o == owner && k == sub && q != [] then q[1..] else q
            case _ => q' == q
  {
    if a.Unsubscribe? && a.owner == owner {
      var own: map<nat, Queue> := s.subscribers[owner] - {a.sub};
      assert sub in own;
    }
  }

  // ----- What each action means for every subscription --------------------------------

  predicate SameFor(s: State, s': State, owner: string, sub: nat) {
    (Live(s', owner, sub) <==> Live(s, owner, sub)) && QueueOf(s', owner, sub) == QueueOf(s, owner, sub)
  }

  // A new subscription has a number that nobody has had, and an empty queue.
  lemma SubscribeOpens(s: State, owner: string)
    requires Bounded(s)
    ensures var s', sub := Act(s, Subscribe(owner)), s.nextId;
            && s'.nextId == sub + 1 && (forall o :: !Live(s, o, sub))
            && Bounded(s') && Live(s', owner, sub) && QueueOf(s', owner, sub) == []
            && (forall o, k :: o != owner || k != sub ==> SameFor(s, s', o, k))
  {
  }

  // A subscription that is given up is gone, and nothing else is.
  lemma UnsubscribeCloses(s: State, owner: string, sub: nat)
    requires Bounded(s)
    ensures var s' := Act(s, Unsubscribe(owner, sub));
            && Bounded(s') && s'.nextId == s.nextId && !Live(s', owner, sub)
            && (forall o, k :: o != owner || k != sub ==> SameFor(s, s', o, k))
            && (owner in s'.subscribers ==> s'.subscribers[owner] != map[])
  {
    var s' := Act(s, Unsubscribe(owner, sub));
    if owner in s.subscribers {
      var own := s.subscribers[owner] - {sub};
      forall k | k != sub
        ensures SameFor(s, s', owner, k)
      {
        if k in s.subscribers[owner] { assert k in own; }
      }
    }
  }

  // An id goes to the queues of its owner that have room, and nowhere else.
  lemma PublishOffers(s: State, owner: string, id: NotificationId)
    requires Bounded(s)
    ensures var s' := Act(s, Publish(owner, id));
            && Bounded(s') && s'.nextId == s.nextId
            && (forall o, k :: o != owner ==> SameFor(s, s', o, k))
            && (forall k :: Live(s', owner, k) <==> Live(s, owner, k))
            && (forall k :: Live(s, owner, k) ==>
                  var q := QueueOf(s, owner, k);
                  QueueOf(s', owner, k) == if |q| < 16 then q + [id] else q)
  {
  }

  // A stream takes the head of its own queue.
  lemma ReceiveTakes(s: State, owner: string, sub: nat)
    requires Bounded(s)
    ensures var s', q := Act(s, Receive(owner, sub)), QueueOf(s, owner, sub);
            && Bounded(s') && s'.nextId == s.nextId
            && (forall o, k :: o != owner || k != sub ==> SameFor(s, s', o, k))
            && (Live(s', owner, sub) <==> Live(s, owner, sub))
            && QueueOf(s', owner, sub) == (if q == [] then [] else q[1..])
            && Handed(s, Receive(owner, sub), owner, sub) == (if q == [] then [] else [q[0]])
  {
  }

  lemma ActBounded(s: State, a: Action)
    requires Bounded(s)
    ensures Bounded(Act(s, a)) && Act(s, a).nextId >= s.nextId
  {
    hide Act, Bounded;
    match a
    case Subscribe(owner) => SubscribeOpens(s, owner);
    case Unsubscribe(owner, sub) => UnsubscribeCloses(s, owner, sub);
    case Publish(owner, id) => PublishOffers(s, owner, id);
    case Receive(owner, sub) => ReceiveTakes(s, owner, sub);
    case Keepalive(_, _) => assert Act(s, a) == s by { KeepaliveApart(s, a); }
  }

  lemma KeepaliveApart(s: State, a: Action)
    requires a.Keepalive?
    ensures Act(s, a) == s
  {
  }

  // Whatever has been done to a new hub, it is bounded.
  lemma {:induction false} HubIsBounded(trace: seq<Action>)
    ensures Bounded(Acts(State(0, map[]), trace))
  {
    if |trace| > 0 {
      HubIsBounded(trace[..|trace| - 1]);
      hide Bounded, Act;
      ActBounded(Acts(State(0, map[]), trace[..|trace| - 1]), trace[|trace| - 1]);
    }
  }

  // A subscription that was given up never comes back and never gets anything.
  lemma {:induction false} ClosedForGood(s: State, trace: seq<Action>, owner: string, sub: nat)
    requires Bounded(s) && sub < s.nextId && !Live(s, owner, sub)
    ensures Bounded(Acts(s, trace)) && sub < Acts(s, trace).nextId && !Live(Acts(s, trace), owner, sub)
    ensures ReceivedBy(s, trace, owner, sub) == []
  {
    if |trace| > 0 {
      var mid, a := Acts(s, trace[..|trace| - 1]), trace[|trace| - 1];
      ClosedForGood(s, trace[..|trace| - 1], owner, sub);
      ActBounded(mid, a);
      match a {
        case Subscribe(o) => SubscribeOpens(mid, o);
        case Unsubscribe(o, k) => UnsubscribeCloses(mid, o, k);
        case Publish(o, id) => PublishOffers(mid, o, id);
        case Receive(o, k) => ReceiveTakes(mid, o, k);
        case Keepalive(_, _) => KeepaliveApart(mid, a);
      }
      assert SameFor(mid, Act(mid, a), owner, sub) || !Live(Act(mid, a), owner, sub);
      hide Bounded, Act;
    }
  }

  // One more action: taken ids and queue together grow only by what is published.
  lemma OrderStep(s: State, trace: seq<Action>, owner: string, sub: nat)
    requires |trace| > 0
    requires var mid := Acts(s, trace[..|trace| - 1]); Bounded(mid) && Live(mid, owner, sub)
    requires trace[|trace| - 1] != Unsubscribe(owner, sub)
    ensures var shorter := trace[..|trace| - 1];
            var was := ReceivedBy(s, shorter, owner, sub) + QueueOf(Acts(s, shorter), owner, sub);
            var now := ReceivedBy(s, trace, owner, sub) + QueueOf(Acts(s, trace), owner, sub);
            match trace[|trace| - 1]
            case Publish(o, id) => now == if o == owner && |QueueOf(Acts(s, shorter), owner, sub)| < SUBSCRIBER_BUFFER
                                          then was + [id] else was
            case _ => now == was
  {
    var shorter, a := trace[..|trace| - 1], trace[|trace| - 1];
    var mid := Acts(s, shorter);
    hide Bounded, Live;
    ActKeeps(mid, a, owner, sub);
    hide Act, QueueOf;
    var got, q := ReceivedBy(s, shorter, owner, sub), QueueOf(mid, owner, sub);
    if a == Receive(owner, sub) && q != [] {
      assert got + [q[0]] + q[1..] == got + q;
    } else {
      assert got + [] == got;
    }
  }

  lemma PublishedStep(trace: seq<Action>, owner: string)
    requires |trace| > 0
    ensures PublishedTo(trace, owner) ==
            match trace[|trace| - 1]
            case Publish(o, id) =>
              if o == owner then PublishedTo(trace[..|trace| - 1], owner) + [id] else PublishedTo(trace[..|trace| - 1], owner)
            case _ => PublishedTo(trace[..|trace| - 1], owner)
  {
    var ids := PublishedTo(trace[..|trace| - 1], owner);
    assert ids + [] == ids;
  }

  lemma {:induction false} LiveReceivesInOrder(s: State, trace: seq<Action>, owner: string, sub: nat)
    requires Bounded(s) && Live(s, owner, sub) && QueueOf(s, owner, sub) == [] && Keeps(trace, owner, sub)
    ensures Bounded(Acts(s, trace)) && Live(Acts(s, trace), owner, sub)
    ensures Subsequence(ReceivedBy(s, trace, owner, sub) + QueueOf(Acts(s, trace), owner, sub), PublishedTo(trace, owner))
  {
    if |trace| > 0 {
      var shorter, a := trace[..|trace| - 1], trace[|trace| - 1];
      LiveReceivesInOrder(s, shorter, owner, sub);
      hide Bounded, Live, Act, QueueOf, Subsequence, PublishedTo, ReceivedBy;
      var mid := Acts(s, shorter);
      ActKeeps(mid, a, owner, sub);
      OrderStep(s, trace, owner, sub);
      PublishedStep(trace, owner);
      var was := ReceivedBy(s, shorter, owner, sub) + QueueOf(mid, owner, sub);
      if a.Publish? && a.owner == owner {
        SubsequenceTake(was, PublishedTo(shorter, owner), a.id);
        SubsequenceSkip(was, PublishedTo(shorter, owner), a.id);
      }
    }
  }

  // In order, nothing twice, nothing made up: what a new subscriber has taken, followed by
  // what still waits for it, is a subsequence of what was published to its owner since.
  lemma ReceivesInOrder(hub: State, trace: seq<Action>, owner: string)
    requires Bounded(hub) && Keeps(trace, owner, hub.nextId)
    ensures var s, sub := Act(hub, Subscribe(owner)), hub.nextId;
            && Bounded(Acts(s, trace)) && Live(Acts(s, trace), owner, sub)
            && Subsequence(ReceivedBy(s, trace, owner, sub) + QueueOf(Acts(s, trace), owner, sub),
                           PublishedTo(trace, owner))
  {
    SubscribeOpens(hub, owner);
    hide Bounded, Live, Act, QueueOf, Subsequence, PublishedTo, ReceivedBy;
    LiveReceivesInOrder(Act(hub, Subscribe(owner)), trace, owner, hub.nextId);
  }

  // The index right after the last publish to the owner; 0 if there is none.
  function LastPublish(trace: seq<Action>, owner: string): (n: nat)
    ensures n <= |trace|
  {
    if |trace| == 0 then 0
    else
      match trace[|trace| - 1]
      case Publish(o, _) => if o == owner then |trace| else LastPublish(trace[..|trace| - 1], owner)
      case _ => LastPublish(trace[..|trace| - 1], owner)
  }

  // The index right after the last id taken; 0 if there is none.
  function LastTaken(s: State, trace: seq<Action>, owner: string, sub: nat): (n: nat)
    ensures n <= |trace|
  {
    if |trace| == 0 then 0
    else if Handed(Acts(s, trace[..|trace| - 1]), trace[|trace| - 1], owner, sub) != [] then |trace|
    else LastTaken(s, trace[..|trace| - 1], owner, sub)
  }

  lemma {:induction false} LiveEmptyMeansTriggered(s: State, trace: seq<Action>, owner: string, sub: nat)
    requires Bounded(s) && Live(s, owner, sub) && QueueOf(s, owner, sub) == [] && Keeps(trace, owner, sub)
    ensures QueueOf(Acts(s, trace), owner, sub) == [] && LastPublish(trace, owner) > 0 ==>
              LastTaken(s, trace, owner, sub) > LastPublish(trace, owner)
  {
    if |trace| > 0 {
      var shorter, a := trace[..|trace| - 1], trace[|trace| - 1];
      LiveEmptyMeansTriggered(s, shorter, owner, sub);
      LiveReceivesInOrder(s, shorter, owner, sub);
      ActKeeps(Acts(s, shorter), a, owner, sub);
    }
  }

  // A drop never leaves a new subscriber without a later trigger: when its queue is
  // empty it has taken an id since the last publish to its owner.
  lemma EmptyMeansTriggered(hub: State, trace: seq<Action>, owner: string)
    requires Bounded(hub) && Keeps(trace, owner, hub.nextId)
    ensures var s, sub := Act(hub, Subscribe(owner)), hub.nextId;
            QueueOf(Acts(s, trace), owner, sub) == [] && LastPublish(trace, owner) > 0 ==>
              LastTaken(s, trace, owner, sub) > LastPublish(trace, owner)
  {
    SubscribeOpens(hub, owner);
    hide Bounded, Live, Act, QueueOf;
    LiveEmptyMeansTriggered(Act(hub, Subscribe(owner)), trace, owner, hub.nextId);
  }

  // What fits is handed over: an id published while the queue has room is what the
  // subscriber takes after the ids that were waiting before it.
  lemma PublishedIsTaken(s: State, id: NotificationId, trace: seq<Action>, owner: string, sub: nat)
    requires Bounded(s) && Live(s, owner, sub) && Keeps(trace, owner, sub)
    requires |QueueOf(s, owner, sub)| < SUBSCRIBER_BUFFER && Takes(trace, owner, sub) > |QueueOf(s, owner, sub)|
    ensures var got := ReceivedBy(Act(s, Publish(owner, id)), trace, owner, sub);
            |got| > |QueueOf(s, owner, sub)| && got[|QueueOf(s, owner, sub)|] == id
  {
    ActKeeps(s, Publish(owner, id), owner, sub);
    var s', q := Act(s, Publish(owner, id)), QueueOf(s, owner, sub);
    assert QueueOf(s', owner, sub) == q + [id];
    hide Bounded, Live, Act, QueueOf, ReceivedBy, Takes;
    TakenFirst(s', trace, owner, sub);
    var got, rest := ReceivedBy(s', trace, owner, sub), QueueOf(Acts(s', trace), owner, sub);
    assert |got| > |q| && (got + rest)[|q|] == (q + [id])[|q|];
  }

  // How often the subscriber reads from its channel.
  function Takes(trace: seq<Action>, owner: string, sub: nat): nat {
    if |trace| == 0 then 0
    else Takes(trace[..|trace| - 1], owner, sub) + (if trace[|trace| - 1] == Receive(owner, sub) then 1 else 0)
  }

  // What waits is taken first, one id each time.
  lemma {:induction false} TakenFirst(s: State, trace: seq<Action>, owner: string, sub: nat)
    requires Bounded(s) && Live(s, owner, sub) && Keeps(trace, owner, sub)
    ensures Bounded(Acts(s, trace)) && Live(Acts(s, trace), owner, sub)
    ensures QueueOf(s, owner, sub) <= ReceivedBy(s, trace, owner, sub) + QueueOf(Acts(s, trace), owner, sub)
    ensures |ReceivedBy(s, trace, owner, sub)| >= Min(Takes(trace, owner, sub), |QueueOf(s, owner, sub)|)
  {
    if |trace| > 0 {
      var shorter, a := trace[..|trace| - 1], trace[|trace| - 1];
      TakenFirst(s, shorter, owner, sub);
      hide Bounded, Live, Act, QueueOf;
      ActKeeps(Acts(s, shorter), a, owner, sub);
      OrderStep(s, trace, owner, sub);
    } else {
      assert [] + QueueOf(s, owner, sub) == QueueOf(s, owner, sub);
    }
  }
}
