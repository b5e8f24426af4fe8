/** The broker and the stream output as they are written: objects whose subscriber list is updated in place. */
module FanOutActors {
  import opened Options
  import opened Channels
  import opened FanOut
  import opened FanOutRuns
  import opened Retaining

  // ----- A walk through the list is a `retain`

  ghost predicate Keeps<T>(w: World<T>, box: Box<T>) {
    Accepts(box) || (w.lossy && box.open)
  }

  ghost predicate WithinWalk<T>(a: Action<T>) {
    a.Serve? || a.Take? || a.Close? || a.Unrelated?
  }

  /** However receivers and other senders interfere, a walk has always decided about a prefix of the old list. */
  lemma {:induction false} WalkIsRetain<T>(w: World<T>, acts: seq<Action<T>>) returns (kept: seq<bool>)
    requires w.walk == Some(0) && Legal(w, acts) && forall k | 0 <= k < |acts| :: WithinWalk(acts[k])
    ensures Exec(w, acts).walk.Some?
    ensures MidWalk(w.subscribers, kept, Exec(w, acts).subscribers, Exec(w, acts).walk.value)
    decreases |acts|
  {
    if acts == [] {
      kept := [];
    } else {
      var before, a := acts[..|acts| - 1], acts[|acts| - 1];
      kept := WalkIsRetain(w, before);
      assert WithinWalk(a);
      if a.Serve? {
        var v := Exec(w, before);
        var k := v.walk.value;
        var stays := Keeps(v, v.boxes[v.subscribers[k].box]);
        if stays {
          WalkKeeps(w.subscribers, kept, v.subscribers, k);
        } else {
          WalkRemoves(w.subscribers, kept, v.subscribers, k);
        }
        kept := kept + [stays];
      }
    }
  }

  /** So a whole walk leaves of the list what `retain` leaves of it, for some choice of who stays. */
  lemma FinishedWalk<T>(w: World<T>, acts: seq<Action<T>>) returns (kept: seq<bool>)
    requires w.walk == Some(0) && Legal(w, acts) && forall k | 0 <= k < |acts| :: WithinWalk(acts[k])
    requires Enabled(Exec(w, acts), Finish)
    ensures |kept| == |w.subscribers| && Next(Exec(w, acts), Finish).subscribers == Surviving(w.subscribers, kept)
  {
    kept := WalkIsRetain(w, acts);
    WalkEnds(w.subscribers, kept, Exec(w, acts).subscribers, Exec(w, acts).walk.value);
  }

  // ----- Mailboxes

  /** What a receiver sees of an entry: the published value, or something unrelated. */
  function Payload<T>(e: Entry<T>): Option<T> {
    if e.Sent? then Some(e.v) else None
  }

  function Payloads<T>(log: seq<Entry<T>>): (r: seq<Option<T>>)
    ensures |r| == |log| && forall k | 0 <= k < |r| :: r[k] == Payload(log[k])
  {
    if log == [] then [] else Payloads(log[..|log| - 1]) + [Payload(log[|log| - 1])]
  }

  /** The mailbox object holds what its receiver has not yet taken. */
  ghost predicate BoxShown<T>(mailbox: Mailbox<Option<T>>, box: Box<T>)
    reads mailbox
  {
    && mailbox.capacity == box.capacity && mailbox.open == box.open
    && box.taken <= |box.log| && mailbox.queue == Payloads(box.log[box.taken..])
  }

  ghost predicate BoxesShown<T>(mailboxes: seq<Mailbox<Option<T>>>, boxes: seq<Box<T>>)
    reads mailboxes
  {
    && |mailboxes| == |boxes|
    && (forall b | 0 <= b < |mailboxes| :: BoxShown(mailboxes[b], boxes[b]))
    && (forall b, c | 0 <= b < c < |mailboxes| :: mailboxes[b] != mailboxes[c])
  }

  lemma PayloadsSnoc<T>(box: Box<T>, e: Entry<T>)
    requires box.taken <= |box.log|
    ensures Payloads((box.log + [e])[box.taken..]) == Payloads(box.log[box.taken..]) + [Payload(e)]
  {
    assert (box.log + [e])[box.taken..] == box.log[box.taken..] + [e];
  }

  lemma PayloadsTail<T>(box: Box<T>)
    requires box.taken < |box.log|
    ensures Payloads(box.log[box.taken + 1..]) == Payloads(box.log[box.taken..])[1..]
  {
  }

  /** A send through subscription `id` to mailbox `b`. */
  method SendTo<T>(mailbox: Mailbox<Option<T>>, v: T, ghost b: nat, ghost id: nat, ghost boxes: seq<Box<T>>,
                   ghost mailboxes: seq<Mailbox<Option<T>>>)
    returns (ok: bool)
    requires BoxesShown(mailboxes, boxes) && b < |boxes| && mailboxes[b] == mailbox
    modifies mailboxes
    ensures ok == Accepts(boxes[b])
    ensures BoxesShown(mailboxes, if ok then Logged(boxes, b, Sent(id, v)) else boxes)
  {
    assert BoxShown(mailbox, boxes[b]);
    PayloadsSnoc(boxes[b], Sent(id, v));
    ok := mailbox.TrySend(Some(v));
    ghost var boxes' := if ok then Logged(boxes, b, Sent(id, v)) else boxes;
    forall c | 0 <= c < |mailboxes|
      ensures BoxShown(mailboxes[c], boxes'[c])
    {
      assert old(BoxShown(mailboxes[c], boxes[c]));
    }
  }

  method ReceiveFrom<T>(mailboxes: seq<Mailbox<Option<T>>>, b: nat, ghost boxes: seq<Box<T>>)
    requires BoxesShown(mailboxes, boxes) && b < |mailboxes| && mailboxes[b].queue != []
    modifies mailboxes
    ensures Waiting(boxes[b]) > 0
    ensures BoxesShown(mailboxes, boxes[b := boxes[b].(taken := boxes[b].taken + 1)])
  {
    assert BoxShown(mailboxes[b], boxes[b]);
    PayloadsTail(boxes[b]);
    var _ := mailboxes[b].Receive();
    ghost var boxes' := boxes[b := boxes[b].(taken := boxes[b].taken + 1)];
    forall c | 0 <= c < |mailboxes|
      ensures BoxShown(mailboxes[c], boxes'[c])
    {
      assert old(BoxShown(mailboxes[c], boxes[c]));
    }
  }

  method SendOther<T>(mailboxes: seq<Mailbox<Option<T>>>, b: nat, ghost boxes: seq<Box<T>>)
    requires BoxesShown(mailboxes, boxes) && b < |mailboxes| && mailboxes[b].HasRoom()
    modifies mailboxes
    ensures Accepts(boxes[b]) && BoxesShown(mailboxes, Logged(boxes, b, Other))
  {
    assert BoxShown(mailboxes[b], boxes[b]);
    PayloadsSnoc(boxes[b], Other);
    var _ := mailboxes[b].TrySend(None);
    forall c | 0 <= c < |mailboxes|
      ensures BoxShown(mailboxes[c], Logged(boxes, b, Other)[c])
    {
      assert old(BoxShown(mailboxes[c], boxes[c]));
    }
  }

  method DropReceiver<T>(mailboxes: seq<Mailbox<Option<T>>>, b: nat, ghost boxes: seq<Box<T>>)
    requires BoxesShown(mailboxes, boxes) && b < |mailboxes|
    modifies mailboxes
    ensures BoxesShown(mailboxes, boxes[b := boxes[b].(open := false)])
  {
    assert BoxShown(mailboxes[b], boxes[b]);
    mailboxes[b].Close();
    ghost var boxes' := boxes[b := boxes[b].(open := false)];
    forall c | 0 <= c < |mailboxes|
      ensures BoxShown(mailboxes[c], boxes'[c])
    {
      assert old(BoxShown(mailboxes[c], boxes[c]));
    }
  }

  /** Whatever receivers and other senders may do to a mailbox between two sends of a walk, one step of it. */
  method Interfere<T>(mailboxes: seq<Mailbox<Option<T>>>, b: nat, ghost now: World<T>)
    returns (ghost a: Action<T>)
    requires BoxesShown(mailboxes, now.boxes) && b < |mailboxes|
    modifies mailboxes
    ensures Enabled(now, a) && (a.Take? || a.Close? || a.Unrelated?) && BoxesShown(mailboxes, Next(now, a).boxes)
  {
    if {
      case mailboxes[b].queue != [] =>
        a := Take(b);
        ReceiveFrom(mailboxes, b, now.boxes);
      case mailboxes[b].HasRoom() =>
        a := Unrelated(b);
        SendOther(mailboxes, b, now.boxes);
      case true =>
        a := Close(b);
        DropReceiver(mailboxes, b, now.boxes);
    }
  }

  /** `acts` publishes `v` and is part of its walk, whatever others do meanwhile, and leads to `now`. */
  ghost predicate Midway<T>(w: World<T>, v: T, acts: seq<Action<T>>, now: World<T>) {
    && acts != [] && acts[0] == Publish(v) && (forall k | 1 <= k < |acts| :: WithinWalk(acts[k]))
    && Legal(w, acts) && Exec(w, acts) == now
  }

  /** `end` is `w` after publishing `v` to everybody, by these actions. */
  ghost predicate Published<T>(w: World<T>, v: T, acts: seq<Action<T>>, end: World<T>) {
    && acts != [] && acts[|acts| - 1] == Finish && Legal(w, acts) && Exec(w, acts) == end
    && Midway(w, v, acts[..|acts| - 1], Exec(w, acts[..|acts| - 1]))
  }

  lemma WalkBegins<T>(w: World<T>, v: T)
    requires Enabled(w, Publish(v))
    ensures Midway(w, v, [Publish(v)], Next(w, Publish(v)))
  {
    assert [Publish(v)][..0] == [];
    assert Legal(w, []);
  }

  lemma WalkGoesOnFrom<T>(w: World<T>, v: T, acts: seq<Action<T>>, now: World<T>, a: Action<T>)
    requires Midway(w, v, acts, now) && Enabled(now, a) && WithinWalk(a)
    ensures Midway(w, v, acts + [a], Next(now, a))
  {
    assert (acts + [a])[..|acts|] == acts;
  }

  /** The walk is at subscriber k, with `v` to be given out. */
  ghost predicate AtSubscriber<T>(now: World<T>, k: nat, v: T) {
    now.walk == Some(k) && now.published != [] && now.published[|now.published| - 1] == v
  }

  lemma ServeStays<T>(now: World<T>, k: nat, v: T)
    requires Inv(now) && AtSubscriber(now, k, v) && k < |now.subscribers|
    ensures Enabled(now, Serve) && now.subscribers[k].box < |now.boxes|
    ensures var next := Next(now, Serve); next.walk.Some? && AtSubscriber(next, next.walk.value, v)
  {
    assert Tracked(now, now.subscribers[k].id);
  }

  /** `next` is `now` after subscriber k was served the value `v`. */
  ghost predicate AfterServe<T>(now: World<T>, k: nat, v: T, next: World<T>) {
    && k < |now.subscribers| && now.subscribers[k].box < |now.boxes|
    && next.lossy == now.lossy && next.nextId == now.nextId
    && var s := now.subscribers[k];
       var box := now.boxes[s.box];
       && next.boxes == (if Accepts(box) then Logged(now.boxes, s.box, Sent(s.id, v)) else now.boxes)
       && next.subscribers == (if Keeps(now, box) then now.subscribers else RemoveAt(now.subscribers, k))
       && next.walk == Some(if Keeps(now, box) then k + 1 else k)
  }

  lemma ServedNext<T>(now: World<T>)
    requires Enabled(now, Serve)
    ensures AfterServe(now, now.walk.value, now.published[|now.published| - 1], Next(now, Serve))
  {
  }

  /** The same list, mailboxes and mode. */
  ghost predicate SameParts<T>(w: World<T>, w': World<T>) {
    w'.lossy == w.lossy && w'.nextId == w.nextId && w'.subscribers == w.subscribers && w'.boxes == w.boxes
  }

  lemma BeginWalk<T>(w: World<T>, v: T) returns (now: World<T>)
    requires Inv(w) && w.walk.None?
    ensures Midway(w, v, [Publish(v)], now) && AtSubscriber(now, 0, v) && SameParts(w, now)
  {
    now := Next(w, Publish(v));
    WalkBegins(w, v);
  }

  lemma NextOnWalk<T>(w: World<T>, v: T, acts: seq<Action<T>>, now: World<T>, k: nat) returns (next: World<T>)
    requires Inv(w) && Midway(w, v, acts, now) && AtSubscriber(now, k, v) && k < |now.subscribers|
    ensures AfterServe(now, k, v, next) && Midway(w, v, acts + [Serve], next)
    ensures next.lossy == now.lossy && next.nextId == now.nextId
    ensures next.walk.Some? && AtSubscriber(next, next.walk.value, v)
  {
    RunKeeps(w, acts);
    ServeStays(now, k, v);
    next := Next(now, Serve);
    ServedNext(now);
    WalkGoesOnFrom(w, v, acts, now, Serve);
  }

  lemma EndWalk<T>(w: World<T>, v: T, acts: seq<Action<T>>, now: World<T>, k: nat) returns (end: World<T>)
    requires Midway(w, v, acts, now) && AtSubscriber(now, k, v) && k >= |now.subscribers|
    ensures Published(w, v, acts + [Finish], end) && SameParts(now, end)
  {
    end := Next(now, Finish);
    assert (acts + [Finish])[..|acts|] == acts;
  }

  /** The same walk at the same place; mailboxes may differ. */
  ghost predicate SameWalk<T>(now: World<T>, now': World<T>) {
    && now'.lossy == now.lossy && now'.nextId == now.nextId && now'.subscribers == now.subscribers
    && now'.walk == now.walk && now'.published == now.published && |now'.boxes| == |now.boxes|
  }

  lemma InterferenceGoesOn<T>(w: World<T>, v: T, acts: seq<Action<T>>, now: World<T>, a: Action<T>)
    requires Midway(w, v, acts, now) && Enabled(now, a) && (a.Take? || a.Close? || a.Unrelated?)
    ensures Midway(w, v, acts + [a], Next(now, a)) && SameWalk(now, Next(now, a))
  {
    WalkGoesOnFrom(w, v, acts, now, a);
  }

  /** Any number of such steps, at any mailboxes. */
  method Meanwhile<T>(mailboxes: seq<Mailbox<Option<T>>>, ghost w: World<T>, ghost v: T, ghost before: seq<Action<T>>,
                      ghost start: World<T>)
    returns (ghost acts: seq<Action<T>>, ghost now: World<T>)
    requires Midway(w, v, before, start) && BoxesShown(mailboxes, start.boxes)
    modifies mailboxes
    ensures Midway(w, v, acts, now) && SameWalk(start, now) && BoxesShown(mailboxes, now.boxes)
  {
    acts, now := before, start;
    var steps: nat := *;
    while steps > 0
      invariant Midway(w, v, acts, now) && SameWalk(start, now) && BoxesShown(mailboxes, now.boxes)
    {
      var b: nat := *;
      if b < |mailboxes| {
        ghost var a := Interfere(mailboxes, b, now);
        InterferenceGoesOn(w, v, acts, now, a);
        acts, now := acts + [a], Next(now, a);
      }
      steps := steps - 1;
    }
  }

  // ----- Objects

  /** The list of a broker object and the list of the step system say the same. */
  ghost predicate Listed<T>(list: seq<(nat, Mailbox<Option<T>>)>, subs: seq<Subscriber>,
                            mailboxes: seq<Mailbox<Option<T>>>) {
    && |list| == |subs|
    && forall j | 0 <= j < |subs| ::
         list[j].0 == subs[j].id && subs[j].box < |mailboxes| && list[j].1 == mailboxes[subs[j].box]
  }

  lemma ListedWithout<T>(list: seq<(nat, Mailbox<Option<T>>)>, subs: seq<Subscriber>,
                         mailboxes: seq<Mailbox<Option<T>>>, k: nat)
    requires Listed(list, subs, mailboxes) && k < |subs|
    ensures Listed(RemoveAt(list, k), RemoveAt(subs, k), mailboxes)
  {
  }

  /** The walk of a broker reaches subscriber k: its mailbox takes the value, or the subscriber goes. */
  method ServeListed<T>(list: seq<(nat, Mailbox<Option<T>>)>, k: nat, v: T, ghost now: World<T>, ghost next: World<T>,
                        ghost mailboxes: seq<Mailbox<Option<T>>>)
    returns (list': seq<(nat, Mailbox<Option<T>>)>, k': nat)
    requires !now.lossy && Listed(list, now.subscribers, mailboxes) && BoxesShown(mailboxes, now.boxes)
    requires AfterServe(now, k, v, next)
    modifies mailboxes
    ensures next.walk == Some(k') && |list'| - k' < |list| - k
    ensures Listed(list', next.subscribers, mailboxes) && BoxesShown(mailboxes, next.boxes)
  {
    ListedWithout(list, now.subscribers, mailboxes, k);
    ghost var s := now.subscribers[k];
    var ok := SendTo(list[k].1, v, s.box, s.id, now.boxes, mailboxes);
    list', k' := list, k + 1;
    if !ok {
      list', k' := RemoveAt(list, k), k;
    }
  }

  /** The whole walk of a broker. */
  method WalkListed<T>(subscribers: seq<(nat, Mailbox<Option<T>>)>, v: T, ghost w: World<T>,
                       mailboxes: seq<Mailbox<Option<T>>>)
    returns (list: seq<(nat, Mailbox<Option<T>>)>, ghost acts: seq<Action<T>>, ghost end: World<T>)
    requires Listed(subscribers, w.subscribers, mailboxes) && BoxesShown(mailboxes, w.boxes)
    requires !w.lossy && Inv(w) && w.walk.None?
    modifies mailboxes
    ensures Published(w, v, acts, end) && end.lossy == w.lossy && end.nextId == w.nextId
    ensures Listed(list, end.subscribers, mailboxes) && BoxesShown(mailboxes, end.boxes)
  {
    list := subscribers;
    var k: nat := 0;
    acts := [Publish(v)];
    ghost var now := BeginWalk(w, v);
    while k < |list|
      invariant Midway(w, v, acts, now) && AtSubscriber(now, k, v)
      invariant now.lossy == w.lossy && now.nextId == w.nextId
      invariant Listed(list, now.subscribers, mailboxes) && BoxesShown(mailboxes, now.boxes)
      decreases |list| - k
    {
      acts, now := Meanwhile(mailboxes, w, v, acts, now);
      ghost var next := NextOnWalk(w, v, acts, now, k);
      list, k := ServeListed(list, k, v, now, next, mailboxes);
      acts, now := acts + [Serve], next;
    }
    end := EndWalk(w, v, acts, now, k);
    acts := acts + [Finish];
  }

  ghost predicate Channelled<T>(list: seq<Mailbox<Option<T>>>, subs: seq<Subscriber>,
                                mailboxes: seq<Mailbox<Option<T>>>) {
    && |list| == |subs|
    && forall j | 0 <= j < |subs| :: subs[j].box < |mailboxes| && list[j] == mailboxes[subs[j].box]
  }

  lemma ChannelledWithout<T>(list: seq<Mailbox<Option<T>>>, subs: seq<Subscriber>,
                             mailboxes: seq<Mailbox<Option<T>>>, k: nat)
    requires Channelled(list, subs, mailboxes) && k < |subs|
    ensures Channelled(RemoveAt(list, k), RemoveAt(subs, k), mailboxes)
  {
  }

  /** The walk of a stream reaches subscriber k: a closed channel goes, a full one stays without the value. */
  method ServeChannel<T>(list: seq<Mailbox<Option<T>>>, k: nat, v: T, ghost now: World<T>, ghost next: World<T>,
                         ghost mailboxes: seq<Mailbox<Option<T>>>)
    returns (list': seq<Mailbox<Option<T>>>, k': nat)
    requires now.lossy && Channelled(list, now.subscribers, mailboxes) && BoxesShown(mailboxes, now.boxes)
    requires AfterServe(now, k, v, next)
    modifies mailboxes
    ensures next.walk == Some(k') && |list'| - k' < |list| - k
    ensures Channelled(list', next.subscribers, mailboxes) && BoxesShown(mailboxes, next.boxes)
  {
    ChannelledWithout(list, now.subscribers, mailboxes, k);
    ghost var s := now.subscribers[k];
    assert BoxShown(mailboxes[s.box], now.boxes[s.box]);
    if !list[k].open {
      list', k' := RemoveAt(list, k), k;
    } else {
      var _ := SendTo(list[k], v, s.box, s.id, now.boxes, mailboxes);
      list', k' := list, k + 1;
    }
  }

  /** The whole walk of a stream. */
  method WalkChannels<T>(subscribers: seq<Mailbox<Option<T>>>, v: T, ghost w: World<T>,
                         mailboxes: seq<Mailbox<Option<T>>>)
    returns (list: seq<Mailbox<Option<T>>>, ghost acts: seq<Action<T>>, ghost end: World<T>)
    requires Channelled(subscribers, w.subscribers, mailboxes) && BoxesShown(mailboxes, w.boxes)
    requires w.lossy && Inv(w) && w.walk.None?
    modifies mailboxes
    ensures Published(w, v, acts, end) && end.lossy == w.lossy && end.nextId == w.nextId
    ensures Channelled(list, end.subscribers, mailboxes) && BoxesShown(mailboxes, end.boxes)
  {
    list := subscribers;
    var k: nat := 0;
    acts := [Publish(v)];
    ghost var now := BeginWalk(w, v);
    while k < |list|
      invariant Midway(w, v, acts, now) && AtSubscriber(now, k, v)
      invariant now.lossy == w.lossy && now.nextId == w.nextId
      invariant Channelled(list, now.subscribers, mailboxes) && BoxesShown(mailboxes, now.boxes)
      decreases |list| - k
    {
      acts, now := Meanwhile(mailboxes, w, v, acts, now);
      ghost var next := NextOnWalk(w, v, acts, now, k);
      list, k := ServeChannel(list, k, v, now, next, mailboxes);
      acts, now := acts + [Serve], next;
    }
    end := EndWalk(w, v, acts, now, k);
    acts := acts + [Finish];
  }

  /** `Broker`: each subscriber is its identifier and its recipient. */
  class Broker<T> {
    var subscribers: seq<(nat, Mailbox<Option<T>>)>
    var nextId: nat

    /** This is the broker of the step system `w`, whose mailboxes are these. */
    ghost predicate Shows(w: World<T>, mailboxes: seq<Mailbox<Option<T>>>)
      reads this
    {
      && !w.lossy && nextId == w.nextId && |mailboxes| == |w.boxes|
      && Listed(subscribers, w.subscribers, mailboxes)
    }

    constructor ()
      ensures subscribers == [] && nextId == 0
    {
      subscribers, nextId := [], 0;
    }

    /** `BrokerSubscribe` and `BrokerAttach`; the latter does not report the identifier. */
    method HandleSubscribe(recipient: Mailbox<Option<T>>, ghost b: nat, ghost w: World<T>,
                           ghost mailboxes: seq<Mailbox<Option<T>>>)
      returns (id: nat)
      requires Shows(w, mailboxes) && b < |mailboxes| && mailboxes[b] == recipient && w.walk.None?
      modifies this
      ensures Shows(Next(w, Subscribe(b)), mailboxes) && id == w.nextId
    {
      id := nextId;
      nextId := nextId + 1;
      subscribers := subscribers + [(id, recipient)];
    }

    method HandleUnsubscribe(id: nat, ghost w: World<T>, ghost mailboxes: seq<Mailbox<Option<T>>>)
      requires Shows(w, mailboxes) && w.walk.None?
      modifies this
      ensures Shows(Next(w, Unsubscribe(id)), mailboxes)
    {
      var all := subscribers;
      subscribers := [];
      for i := 0 to |all|
        invariant nextId == old(nextId) && Listed(subscribers, Without(w.subscribers[..i], id), mailboxes)
      {
        assert w.subscribers[..i + 1][..i] == w.subscribers[..i];
        if all[i].0 != id {
          subscribers := subscribers + [all[i]];
        }
      }
      assert w.subscribers[..|all|] == w.subscribers;
    }

    /**
     One publication: a walk of the step system with the sends its mailboxes take, whatever receivers and other senders
     do to these mailboxes meanwhile.
     */
    method HandlePublish(v: T, ghost w: World<T>, mailboxes: seq<Mailbox<Option<T>>>)
      returns (ghost acts: seq<Action<T>>, ghost end: World<T>)
      requires Shows(w, mailboxes) && Inv(w) && w.walk.None? && BoxesShown(mailboxes, w.boxes)
      modifies this, mailboxes
      ensures Published(w, v, acts, end) && Shows(end, mailboxes) && BoxesShown(mailboxes, end.boxes)
    {
      var list;
      list, acts, end := WalkListed(subscribers, v, w, mailboxes);
      subscribers := list;
    }
  }

  /** `StreamOutput`: each subscriber is the sending half of its consumer's channel. */
  class StreamOutput<T> {
    var subscribers: seq<Mailbox<Option<T>>>

    /** This is the stream of the step system `w`, whose channels are these. */
    ghost predicate Shows(w: World<T>, mailboxes: seq<Mailbox<Option<T>>>)
      reads this
    {
      w.lossy && |mailboxes| == |w.boxes| && Channelled(subscribers, w.subscribers, mailboxes)
    }

    constructor ()
      ensures subscribers == []
    {
      subscribers := [];
    }

    method SubscribeWithCapacity(capacity: nat, ghost w: World<T>, ghost mailboxes: seq<Mailbox<Option<T>>>)
      returns (consumer: Mailbox<Option<T>>)
      requires capacity > 0 && Shows(w, mailboxes) && w.walk.None? && BoxesShown(mailboxes, w.boxes)
      modifies this
      ensures fresh(consumer) && Shows(Next(w, SubscribeNew(capacity)), mailboxes + [consumer])
      ensures BoxesShown(mailboxes + [consumer], Next(w, SubscribeNew(capacity)).boxes)
    {
      consumer := new Mailbox(capacity);
      subscribers := subscribers + [consumer];
      assert forall b | 0 <= b < |mailboxes| :: BoxShown(mailboxes[b], w.boxes[b]);
    }

    /** One `emit`: a walk of the step system, whatever consumers and other senders do meanwhile. */
    method Emit(v: T, ghost w: World<T>, mailboxes: seq<Mailbox<Option<T>>>)
      returns (ghost acts: seq<Action<T>>, ghost end: World<T>)
      requires Shows(w, mailboxes) && Inv(w) && w.walk.None? && BoxesShown(mailboxes, w.boxes)
      modifies this, mailboxes
      ensures Published(w, v, acts, end) && Shows(end, mailboxes) && BoxesShown(mailboxes, end.boxes)
    {
      var list;
      list, acts, end := WalkChannels(subscribers, v, w, mailboxes);
      subscribers := list;
    }
  }
}
