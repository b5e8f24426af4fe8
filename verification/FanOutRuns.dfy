/** Every run of a broker or a stream, and what each subscriber is given in it. */
module FanOutRuns {
  import opened Options
  import opened FanOut
  import opened Retaining

  // ----- Steps that leave the list alone

  /** Nothing but mailboxes changes, and no mailbox gets or loses a published value. */
  ghost predicate OnlyBoxes<T>(w: World<T>, w': World<T>) {
    && w' == w.(boxes := w'.boxes) && |w'.boxes| == |w.boxes|
    && forall b | 0 <= b < |w.boxes| :: w'.boxes[b].log == w.boxes[b].log || w'.boxes[b].log == w.boxes[b].log + [Other]
  }

  lemma OnlyBoxesKeeps<T>(w: World<T>, w': World<T>)
    requires Inv(w) && OnlyBoxes(w, w')
    ensures Inv(w')
  {
    forall id | 0 <= id < |w'.records|
      ensures Tracked(w', id)
    {
      assert Tracked(w, id);
      ThroughSnoc(w.boxes[w.records[id].box].log, Other, id);
    }
  }

  lemma EnvironmentKeeps<T>(w: World<T>, a: Action<T>)
    requires Inv(w) && Enabled(w, a) && (a.Take? || a.Close? || a.Unrelated?)
    ensures Inv(Next(w, a))
  {
    OnlyBoxesKeeps(w, Next(w, a));
  }

  lemma PublishKeeps<T>(w: World<T>, v: T)
    requires Inv(w) && Enabled(w, Publish(v))
    ensures Inv(Next(w, Publish(v)))
  {
    var w' := Next(w, Publish(v));
    forall id | 0 <= id < |w'.records|
      ensures Tracked(w', id)
    {
      assert Tracked(w, id);
      var r := w.records[id];
      assert w'.published[r.born..Reached(r)] == w.published[r.born..Reached(r)];
    }
  }

  lemma FinishKeeps<T>(w: World<T>)
    requires Inv(w) && Enabled(w, Finish)
    ensures Inv(Next(w, Finish))
  {
    var w' := Next(w, Finish);
    forall id | 0 <= id < |w'.records|
      ensures Tracked(w', id)
    {
      assert Tracked(w, id);
    }
  }

  // ----- Subscribing

  lemma {:induction false} ThroughNone<T>(log: seq<Entry<T>>, id: nat)
    requires forall k | 0 <= k < |log| && log[k].Sent? :: log[k].id != id
    ensures Through(log, id) == []
    decreases |log|
  {
    if log != [] {
      ThroughNone(log[..|log| - 1], id);
    }
  }

  lemma AddBoxKeeps<T>(w: World<T>, box: Box<T>)
    requires Inv(w) && box.log == []
    ensures Inv(w.(boxes := w.boxes + [box]))
  {
    var w' := w.(boxes := w.boxes + [box]);
    forall id | 0 <= id < |w'.records|
      ensures Tracked(w', id)
    {
      assert Tracked(w, id);
    }
  }

  lemma SubscribedKeeps<T>(w: World<T>, b: nat)
    requires Inv(w) && w.walk.None? && b < |w.boxes|
    ensures Inv(Subscribed(w, b))
  {
    var w' := Subscribed(w, b);
    forall id | 0 <= id < |w'.records|
      ensures Tracked(w', id)
    {
      if id < |w.records| {
        assert Tracked(w, id);
      } else {
        ThroughNone(w.boxes[b].log, id);
        assert w'.published[|w.published|..|w.published|] == [];
      }
    }
    JoinedFound(w.subscribers, w.records, Subscriber(w.nextId, b), Record(b, |w.published|, [], None));
  }

  lemma JoinedFound(subs: seq<Subscriber>, records: seq<Record>, s: Subscriber, r: Record)
    requires Found(subs, records) && s.id == |records|
    ensures Found(subs + [s], records + [r])
  {
    forall id: nat | id < |records + [r]| && (records + [r])[id].end.None?
      ensures OnList(subs + [s], id)
    {
      if id < |records| {
        assert OnList(subs, id);
        var j :| 0 <= j < |subs| && subs[j].id == id;
        assert (subs + [s])[j].id == id;
      } else {
        assert (subs + [s])[|subs|].id == id;
      }
    }
  }

  // ----- Leaving

  ghost function Left<T>(w: World<T>, k: nat, end: End): World<T>
    requires k < |w.subscribers|
  {
    w.(subscribers := RemoveAt(w.subscribers, k), records := Ended(w.records, w.subscribers[k].id, end))
  }

  lemma LeftFound(subs: seq<Subscriber>, records: seq<Record>, k: nat, end: End)
    requires Filed(subs, records) && Found(subs, records) && k < |subs|
    ensures Found(RemoveAt(subs, k), Ended(records, subs[k].id, end))
  {
    var subs', records' := RemoveAt(subs, k), Ended(records, subs[k].id, end);
    forall id: nat | id < |records'| && records'[id].end.None?
      ensures OnList(subs', id)
    {
      assert records'[subs[k].id].end.Some?;
      assert OnList(subs, id);
      var j :| 0 <= j < |subs| && subs[j].id == id;
      assert subs'[if j < k then j else j - 1].id == id;
    }
  }

  lemma LeftFiled(subs: seq<Subscriber>, records: seq<Record>, k: nat, end: End)
    requires Filed(subs, records) && Ascending(subs) && k < |subs|
    ensures Filed(RemoveAt(subs, k), Ended(records, subs[k].id, end)) && Ascending(RemoveAt(subs, k))
  {
    var subs', records' := RemoveAt(subs, k), Ended(records, subs[k].id, end);
    forall j | 0 <= j < |subs'|
      ensures subs'[j].id < |records'| && records'[subs'[j].id].end.None? && records'[subs'[j].id].box == subs'[j].box
    {
      var i := if j < k then j else j + 1;
      assert subs'[j] == subs[i] && subs[i].id != subs[k].id;
    }
  }

  lemma LeftList<T>(w: World<T>, k: nat, end: End)
    requires ListOk(w) && k < |w.subscribers|
    ensures ListOk(Left(w, k, end))
  {
    LeftFiled(w.subscribers, w.records, k, end);
    LeftFound(w.subscribers, w.records, k, end);
  }

  lemma LeftWalk<T>(w: World<T>, k: nat, end: End)
    requires ListOk(w) && WalkOk(w) && (w.walk.None? || w.walk == Some(k)) && k < |w.subscribers|
    ensures WalkOk(Left(w, k, end))
  {
    var w' := Left(w, k, end);
    forall j | 0 <= j < |w'.subscribers|
      ensures w'.subscribers[j].id < |w'.records| && Reached(w'.records[w'.subscribers[j].id]) == Due(w', j)
    {
      var i := if j < k then j else j + 1;
      assert w'.subscribers[j] == w.subscribers[i];
      assert w.subscribers[i].id < w.nextId;
    }
  }

  lemma LeftKeeps<T>(w: World<T>, k: nat, end: End)
    requires Inv(w) && k < |w.subscribers|
    requires (w.walk.None? && end == Unsubscribed) || (w.walk == Some(k) && end == Pruned)
    ensures Inv(Left(w, k, end))
  {
    var w' := Left(w, k, end);
    LeftList(w, k, end);
    LeftWalk(w, k, end);
    forall x | 0 <= x < |w'.records|
      ensures Tracked(w', x)
    {
      assert Tracked(w, x);
      assert w.subscribers[k].id == x ==> Reached(w.records[x]) == Due(w, k);
    }
  }

  lemma {:induction false} WithoutAbsent(subs: seq<Subscriber>, id: nat)
    requires forall j | 0 <= j < |subs| :: subs[j].id != id
    ensures Without(subs, id) == subs
    decreases |subs|
  {
    if subs != [] {
      WithoutAbsent(subs[..|subs| - 1], id);
    }
  }

  lemma {:induction false} WithoutOne(subs: seq<Subscriber>, k: nat)
    requires k < |subs| && forall j | 0 <= j < |subs| && j != k :: subs[j].id != subs[k].id
    ensures Without(subs, subs[k].id) == RemoveAt(subs, k)
    decreases |subs|
  {
    var n := |subs| - 1;
    if k == n {
      WithoutAbsent(subs[..n], subs[k].id);
    } else {
      WithoutOne(subs[..n], k);
      assert RemoveAt(subs, k) == RemoveAt(subs[..n], k) + [subs[n]];
    }
  }

  lemma UnsubscribeKeeps<T>(w: World<T>, id: nat)
    requires Inv(w) && Enabled(w, Unsubscribe(id))
    ensures Inv(Next(w, Unsubscribe(id)))
  {
    if k :| 0 <= k < |w.subscribers| && w.subscribers[k].id == id {
      WithoutOne(w.subscribers, k);
      LeftKeeps(w, k, Unsubscribed);
    } else {
      WithoutAbsent(w.subscribers, id);
      assert !OnList(w.subscribers, id);
      assert Next(w, Unsubscribe(id)) == w;
    }
  }

  // ----- Serving

  lemma FatedThrough<T>(published: seq<T>, log: seq<Entry<T>>, r: Record, id: nat, f: bool)
    requires Reached(r) == |published| - 1
    requires Through(log, id) == Picked(published[r.born..Reached(r)], r.fate)
    ensures Through(if f then log + [Sent(id, published[|published| - 1])] else log, id)
         == Picked(published[r.born..|published|], r.fate + [f])
  {
    var n := |published| - 1;
    var v := published[n];
    assert published[r.born..n + 1] == published[r.born..n] + [v];
    PickedSnoc(published[r.born..n], r.fate, v, f);
    ThroughSnoc(log, Sent(id, v), id);
  }

  lemma FatedRecord<T>(lossy: bool, published: seq<T>, log: seq<Entry<T>>, r: Record, id: nat, f: bool)
    requires r.end.None? && Reached(r) == |published| - 1
    requires !lossy ==> f && forall k | 0 <= k < |r.fate| :: r.fate[k]
    requires Through(log, id) == Picked(published[r.born..|published|], r.fate + [f])
    ensures Told(lossy, published, log, r.(fate := r.fate + [f]), id)
  {
  }

  /** The record of the served subscriber after its value was delivered or dropped. */
  lemma FatedTold<T>(lossy: bool, published: seq<T>, log: seq<Entry<T>>, r: Record, id: nat, f: bool)
    requires Told(lossy, published, log, r, id) && r.end.None?
    requires Reached(r) == |published| - 1 && (!lossy ==> f)
    ensures Told(lossy, published, if f then log + [Sent(id, published[|published| - 1])] else log,
                 r.(fate := r.fate + [f]), id)
  {
    FatedThrough(published, log, r, id, f);
    FatedRecord(lossy, published, if f then log + [Sent(id, published[|published| - 1])] else log, r, id, f);
  }

  ghost predicate Walked<T>(w: World<T>, w': World<T>, boxes: seq<Box<T>>, f: bool)
    requires Enabled(w, Serve)
  {
    w' == w.(boxes := boxes, records := Fated(w.records, w.subscribers[w.walk.value].id, f),
             walk := Some(w.walk.value + 1))
  }

  lemma WalkedList<T>(w: World<T>, w': World<T>, boxes: seq<Box<T>>, f: bool)
    requires Inv(w) && Enabled(w, Serve) && Walked(w, w', boxes, f)
    ensures ListOk(w') && WalkOk(w')
  {
  }

  /** What somebody else is sent does not matter. */
  lemma OtherTold<T>(lossy: bool, published: seq<T>, log: seq<Entry<T>>, r: Record, id: nat, e: Entry<T>)
    requires Told(lossy, published, log, r, id) && e.Sent? && e.id != id
    ensures Told(lossy, published, log + [e], r, id)
  {
    ThroughSnoc(log, e, id);
  }

  lemma WalkedOwn<T>(w: World<T>, w': World<T>, boxes: seq<Box<T>>, f: bool, s: Subscriber)
    requires Enabled(w, Serve) && Walked(w, w', boxes, f) && s == w.subscribers[w.walk.value] && (!w.lossy ==> f)
    requires boxes == if f then Logged(w.boxes, s.box, Sent(s.id, w.published[|w.published| - 1])) else w.boxes
    requires s.id < |w.records| && Tracked(w, s.id) && w.records[s.id].box == s.box
    requires w.records[s.id].end.None? && Reached(w.records[s.id]) == |w.published| - 1
    ensures Tracked(w', s.id)
  {
    FatedTold(w.lossy, w.published, w.boxes[s.box].log, w.records[s.id], s.id, f);
  }

  lemma WalkedOther<T>(w: World<T>, w': World<T>, boxes: seq<Box<T>>, f: bool, s: Subscriber, x: nat)
    requires Enabled(w, Serve) && Walked(w, w', boxes, f) && s == w.subscribers[w.walk.value]
    requires boxes == if f then Logged(w.boxes, s.box, Sent(s.id, w.published[|w.published| - 1])) else w.boxes
    requires x < |w.records| && x != s.id && Tracked(w, x)
    ensures Tracked(w', x)
  {
    var r := w.records[x];
    assert w'.records[x] == r;
    OtherTold(w.lossy, w.published, w.boxes[r.box].log, r, x, Sent(s.id, w.published[|w.published| - 1]));
  }

  lemma WalkedTracked<T>(w: World<T>, w': World<T>, boxes: seq<Box<T>>, f: bool, x: nat)
    requires Inv(w) && Enabled(w, Serve) && Walked(w, w', boxes, f) && (!w.lossy ==> f)
    requires var s, v := w.subscribers[w.walk.value], w.published[|w.published| - 1];
             boxes == if f then Logged(w.boxes, s.box, Sent(s.id, v)) else w.boxes
    requires x < |w.records|
    ensures Tracked(w', x)
  {
    var s := w.subscribers[w.walk.value];
    assert Tracked(w, x);
    if x == s.id {
      assert Reached(w.records[x]) == Due(w, w.walk.value);
      WalkedOwn(w, w', boxes, f, s);
    } else {
      WalkedOther(w, w', boxes, f, s, x);
    }
  }

  lemma ServeKeeps<T>(w: World<T>)
    requires Inv(w) && Enabled(w, Serve)
    ensures Inv(Next(w, Serve))
  {
    var s, v := w.subscribers[w.walk.value], w.published[|w.published| - 1];
    var w' := Next(w, Serve);
    if Accepts(w.boxes[s.box]) || (w.lossy && w.boxes[s.box].open) {
      var f := Accepts(w.boxes[s.box]);
      var boxes := if f then Logged(w.boxes, s.box, Sent(s.id, v)) else w.boxes;
      WalkedList(w, w', boxes, f);
      forall x | 0 <= x < |w'.records|
        ensures Tracked(w', x)
      {
        WalkedTracked(w, w', boxes, f, x);
      }
    } else {
      LeftKeeps(w, w.walk.value, Pruned);
    }
  }

  // ----- Runs

  lemma StepKeeps<T>(w: World<T>, a: Action<T>)
    requires Inv(w) && Enabled(w, a)
    ensures Inv(Next(w, a))
  {
    match a
    case Subscribe(b) => SubscribedKeeps(w, b);
    case SubscribeNew(c) =>
      AddBoxKeeps(w, Box(c, 0, [], true));
      SubscribedKeeps(w.(boxes := w.boxes + [Box(c, 0, [], true)]), |w.boxes|);
    case Unsubscribe(id) => UnsubscribeKeeps(w, id);
    case Publish(v) => PublishKeeps(w, v);
    case Serve => ServeKeeps(w);
    case Finish => FinishKeeps(w);
    case _ => EnvironmentKeeps(w, a);
  }

  lemma {:induction false} RunKeeps<T>(w: World<T>, acts: seq<Action<T>>)
    requires Inv(w) && Legal(w, acts)
    ensures Inv(Exec(w, acts))
    decreases |acts|
  {
    if acts != [] {
      RunKeeps(w, acts[..|acts| - 1]);
      StepKeeps(Exec(w, acts[..|acts| - 1]), acts[|acts| - 1]);
    }
  }

  lemma ReachableInv<T(!new)>(w: World<T>)
    requires Reachable(w)
    ensures Inv(w)
  {
    var init: World<T>, acts :| Init(init) && Legal(init, acts) && Exec(init, acts) == w;
    RunKeeps(init, acts);
  }

  // ----- Results

  /** A walk is never stuck on a subscriber it cannot serve. */
  lemma WalkGoesOn<T(!new)>(w: World<T>)
    requires Reachable(w) && w.walk.Some?
    ensures Enabled(w, Serve) || Enabled(w, Finish)
  {
    ReachableInv(w);
    if w.walk.value < |w.subscribers| {
      assert Tracked(w, w.subscribers[w.walk.value].id);
    }
  }

  /**
   A broker's subscriber gets a gap-free window of what is published, from its registration on: everything, as long
   as it is subscribed and no walk is under way, and otherwise up to the unsubscription or the first refused value.
   */
  lemma BrokerWindow<T(!new)>(w: World<T>, id: nat)
    requires Reachable(w) && !w.lossy && id < w.nextId
    ensures id < |w.records| && w.records[id].box < |w.boxes|
    ensures var r := w.records[id];
            && r.born <= Reached(r) <= |w.published|
            && Through(w.boxes[r.box].log, id) == w.published[r.born..Reached(r)]
            && (r.end == Some(Pruned) ==> Reached(r) < |w.published|)
            && (r.end.None? && w.walk.None? ==> Reached(r) == |w.published|)
  {
    ReachableInv(w);
    assert Tracked(w, id);
    var r := w.records[id];
    PickedAll(w.published[r.born..Reached(r)], r.fate);
  }

  /** A stream's consumer gets the values with a good fate, in order: a subsequence of what is emitted from then on. */
  lemma StreamSubsequence<T(!new)>(w: World<T>, id: nat)
    requires Reachable(w) && id < w.nextId
    ensures id < |w.records| && w.records[id].box < |w.boxes|
    ensures var r := w.records[id];
            && r.born <= Reached(r) <= |w.published|
            && Through(w.boxes[r.box].log, id) == Picked(w.published[r.born..Reached(r)], r.fate)
            && (r.end.None? && w.walk.None? ==> Reached(r) == |w.published|)
  {
    ReachableInv(w);
    assert Tracked(w, id);
  }

  lemma OnlyWalksDecide<T>(w: World<T>, a: Action<T>, id: nat)
    requires Enabled(w, a) && !a.Serve? && id < |w.records|
    ensures id < |Next(w, a).records| && Next(w, a).records[id].fate == w.records[id].fate
    ensures Next(w, a).records[id].end != w.records[id].end ==>
              a == Unsubscribe(id) && w.records[id].end.None? && Next(w, a).records[id].end == Some(Unsubscribed)
  {
  }

  /** Only a full, open buffer costs a consumer a value, and only the walk decides about it. */
  lemma FateDecided<T(!new)>(w: World<T>, a: Action<T>, id: nat)
    requires Reachable(w) && Enabled(w, a) && id < |w.records| && id < |Next(w, a).records|
    requires Next(w, a).records[id].fate != w.records[id].fate
    ensures w.records[id].box < |w.boxes| && a.Serve? && w.subscribers[w.walk.value].id == id
    ensures var f, f', box := w.records[id].fate, Next(w, a).records[id].fate, w.boxes[w.records[id].box];
            f' == f + [Waiting(box) < box.capacity] && box.open
  {
    ReachableInv(w);
    assert Tracked(w, id);
    if !a.Serve? {
      OnlyWalksDecide(w, a, id);
      assert false;
    }
    assert w.records[w.subscribers[w.walk.value].id].box == w.subscribers[w.walk.value].box;
  }

  /** A subscription ends by request, or in a walk that found it closed (or, for a broker, full). */
  lemma EndDecided<T(!new)>(w: World<T>, a: Action<T>, id: nat)
    requires Reachable(w) && Enabled(w, a) && id < |w.records| && id < |Next(w, a).records|
    requires Next(w, a).records[id].end != w.records[id].end
    ensures w.records[id].box < |w.boxes| && w.records[id].end.None?
    ensures || (a == Unsubscribe(id) && Next(w, a).records[id].end == Some(Unsubscribed))
            || (a.Serve? && w.subscribers[w.walk.value].id == id && Next(w, a).records[id].end == Some(Pruned)
                && !Accepts(w.boxes[w.records[id].box]) && (w.lossy ==> !w.boxes[w.records[id].box].open))
  {
    ReachableInv(w);
    assert Tracked(w, id);
    if a.Serve? {
      assert w.records[w.subscribers[w.walk.value].id].box == w.subscribers[w.walk.value].box;
    } else {
      OnlyWalksDecide(w, a, id);
    }
  }

  /** Every subscription of `w` is still the same one in `w'`, and one that had ended is as it was. */
  ghost predicate SameIds<T>(w: World<T>, w': World<T>) {
    && w.nextId <= w'.nextId && |w.records| <= |w'.records|
    && forall id | 0 <= id < |w.records| ::
         && w'.records[id].born == w.records[id].born && w'.records[id].box == w.records[id].box
         && (w.records[id].end.Some? ==> w'.records[id] == w.records[id])
  }

  lemma StepSameIds<T>(w: World<T>, a: Action<T>)
    requires Inv(w) && Enabled(w, a)
    ensures SameIds(w, Next(w, a))
  {
    if a.Serve? {
      assert w.records[w.subscribers[w.walk.value].id].end.None?;
    }
  }

  /** Over any run an identifier keeps naming the subscription it was handed out for, and a dead one stays dead. */
  lemma {:induction false} IdsNeverReused<T>(w: World<T>, acts: seq<Action<T>>)
    requires Inv(w) && Legal(w, acts)
    ensures SameIds(w, Exec(w, acts))
    decreases |acts|
  {
    if acts != [] {
      var before := acts[..|acts| - 1];
      RunKeeps(w, before);
      IdsNeverReused(w, before);
      StepSameIds(Exec(w, before), acts[|acts| - 1]);
      SameIdsChain(w, Exec(w, before), Exec(w, acts));
    }
  }

  lemma SameIdsChain<T>(w: World<T>, v: World<T>, u: World<T>)
    requires SameIds(w, v) && SameIds(v, u)
    ensures SameIds(w, u)
  {
  }

  /** No two subscribers on the list share an identifier, and a new one gets an identifier nobody ever had. */
  lemma IdsUnique<T(!new)>(w: World<T>)
    requires Reachable(w)
    ensures |w.records| == w.nextId
    ensures forall i, j | 0 <= i < j < |w.subscribers| :: w.subscribers[i].id < w.subscribers[j].id < w.nextId
  {
    ReachableInv(w);
  }
}
