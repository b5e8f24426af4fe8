/**
 What each subscriber is given in a run, read off the actions of the run: who published, subscribed and unsubscribed
 when, and where a mailbox refused.
 */
module FanOutDeliveries {
  import opened Options
  import opened FanOut
  import opened FanOutRuns

  // ----- What was published

  ghost function PublishedBy<T>(acts: seq<Action<T>>): seq<T> {
    if acts == [] then []
    else
      var last := acts[|acts| - 1];
      PublishedBy(acts[..|acts| - 1]) + if last.Publish? then [last.v] else []
  }

  lemma {:induction false} PublishedIs<T>(init: World<T>, acts: seq<Action<T>>)
    requires Init(init) && Legal(init, acts)
    ensures Exec(init, acts).published == PublishedBy(acts) && Exec(init, acts).lossy == init.lossy
    decreases |acts|
  {
    if acts != [] {
      PublishedIs(init, acts[..|acts| - 1]);
    }
  }

  lemma {:induction false} PublishedGrows<T>(acts: seq<Action<T>>, k: nat)
    requires k <= |acts|
    ensures PublishedBy(acts[..k]) <= PublishedBy(acts)
    decreases |acts|
  {
    if k < |acts| {
      PublishedGrows(acts[..|acts| - 1], k);
      assert acts[..|acts| - 1][..k] == acts[..k];
    } else {
      assert acts[..k] == acts;
    }
  }

  // ----- Mailboxes

  ghost function Count<T>(acts: seq<Action<T>>, a: Action<T>): nat {
    if acts == [] then 0 else Count(acts[..|acts| - 1], a) + if acts[|acts| - 1] == a then 1 else 0
  }

  ghost function Others<T>(log: seq<Entry<T>>): nat {
    if log == [] then 0 else Others(log[..|log| - 1]) + if log[|log| - 1].Other? then 1 else 0
  }

  lemma OthersSnoc<T>(log: seq<Entry<T>>, e: Entry<T>)
    ensures Others(log + [e]) == Others(log) + if e.Other? then 1 else 0
  {
    assert (log + [e])[..|log|] == log;
  }

  /** What the walk puts into mailbox b when it reaches its next subscriber. */
  ghost function GivenTo<T>(w: World<T>, b: nat): seq<Entry<T>>
    requires Enabled(w, Serve)
  {
    var s := w.subscribers[w.walk.value];
    if s.box == b && Accepts(w.boxes[b]) then [Sent(s.id, w.published[|w.published| - 1])] else []
  }

  /** What one step does to one mailbox. */
  lemma BoxStep<T>(w: World<T>, a: Action<T>, b: nat)
    requires Enabled(w, a) && b < |w.boxes|
    ensures b < |Next(w, a).boxes|
    ensures var box, box' := w.boxes[b], Next(w, a).boxes[b];
            && box'.capacity == box.capacity
            && box'.taken == box.taken + (if a == Take(b) then 1 else 0)
            && box'.open == (box.open && a != Close(b))
            && box'.log == box.log + if a == Unrelated(b) then [Other] else if a.Serve? then GivenTo(w, b) else []
  {
  }

  lemma OthersAdded<T>(w: World<T>, a: Action<T>, b: nat)
    requires Enabled(w, a) && b < |w.boxes| && b < |Next(w, a).boxes|
    ensures Others(Next(w, a).boxes[b].log) == Others(w.boxes[b].log) + if a == Unrelated(b) then 1 else 0
  {
    BoxStep(w, a, b);
    var log := w.boxes[b].log;
    if a == Unrelated(b) {
      OthersSnoc(log, Other);
    } else if a.Serve? && GivenTo(w, b) != [] {
      OthersSnoc(log, GivenTo(w, b)[0]);
      assert GivenTo(w, b) == [GivenTo(w, b)[0]];
    } else {
      assert log + [] == log;
    }
  }

  /** A mailbox loses what its receiver takes, closes when it is dropped, and gets nothing unrelated by itself. */
  lemma {:induction false} BoxLedger<T>(init: World<T>, acts: seq<Action<T>>, b: nat)
    requires Init(init) && Legal(init, acts) && b < |init.boxes|
    ensures b < |Exec(init, acts).boxes|
    ensures var box := Exec(init, acts).boxes[b];
            && box.capacity == init.boxes[b].capacity && box.taken == Count(acts, Take(b))
            && (box.open <==> init.boxes[b].open && Count(acts, Close(b)) == 0)
            && Others(box.log) == Count(acts, Unrelated(b))
    decreases |acts|
  {
    if acts != [] {
      var before := acts[..|acts| - 1];
      BoxLedger(init, before, b);
      var w, a := Exec(init, before), acts[|acts| - 1];
      BoxStep(w, a, b);
      OthersAdded(w, a, b);
    }
  }

  /** A published value lies only in the mailbox of the subscription it was sent through. */
  ghost predicate Placed<T>(w: World<T>) {
    forall b | 0 <= b < |w.boxes| :: PlacedIn(w.records, w.boxes[b].log, b)
  }

  ghost predicate PlacedIn<T>(records: seq<Record>, log: seq<Entry<T>>, b: nat) {
    forall k | 0 <= k < |log| && log[k].Sent? :: log[k].id < |records| && records[log[k].id].box == b
  }

  /** Records are added and go on, and never move to another mailbox. */
  lemma RecordsStay<T>(w: World<T>, a: Action<T>)
    requires Enabled(w, a)
    ensures |w.records| <= |Next(w, a).records|
    ensures forall id | 0 <= id < |w.records| :: Next(w, a).records[id].box == w.records[id].box
  {
  }

  lemma PlacedStep<T>(w: World<T>, a: Action<T>)
    requires Inv(w) && Placed(w) && Enabled(w, a)
    ensures Placed(Next(w, a))
  {
    RecordsStay(w, a);
    var w' := Next(w, a);
    forall b | 0 <= b < |w'.boxes|
      ensures PlacedIn(w'.records, w'.boxes[b].log, b)
    {
      if b < |w.boxes| {
        assert PlacedIn(w.records, w.boxes[b].log, b);
        PlacedBox(w, a, b);
      }
    }
  }

  lemma PlacedBox<T>(w: World<T>, a: Action<T>, b: nat)
    requires Inv(w) && Enabled(w, a) && b < |w.boxes| && PlacedIn(w.records, w.boxes[b].log, b)
    ensures b < |Next(w, a).boxes| && PlacedIn(Next(w, a).records, Next(w, a).boxes[b].log, b)
  {
    RecordsStay(w, a);
    if a.Serve? {
      assert w.records[w.subscribers[w.walk.value].id].box == w.subscribers[w.walk.value].box;
    }
  }

  lemma {:induction false} PlacedRun<T>(init: World<T>, acts: seq<Action<T>>)
    requires Init(init) && Legal(init, acts)
    ensures Placed(Exec(init, acts))
    decreases |acts|
  {
    if acts != [] {
      PlacedRun(init, acts[..|acts| - 1]);
      RunKeeps(init, acts[..|acts| - 1]);
      PlacedStep(Exec(init, acts[..|acts| - 1]), acts[|acts| - 1]);
    }
  }

  // ----- The life of a subscription

  /** Whether the walk, at its next subscriber, will take it off the list. */
  ghost predicate Refuses<T>(w: World<T>)
    requires Enabled(w, Serve)
  {
    var box := w.boxes[w.subscribers[w.walk.value].box];
    !box.open || (!w.lossy && Waiting(box) >= box.capacity)
  }

  /** The walk is at subscriber `id`. */
  ghost predicate Serves<T>(w: World<T>, id: nat)
    requires Enabled(w, Serve)
  {
    w.subscribers[w.walk.value].id == id
  }

  ghost predicate HasRoom<T>(w: World<T>)
    requires Enabled(w, Serve)
  {
    var box := w.boxes[w.subscribers[w.walk.value].box];
    Waiting(box) < box.capacity
  }

  /** For each value offered through `id` without refusal, whether its mailbox had room for it. */
  ghost function Fates<T>(init: World<T>, acts: seq<Action<T>>, id: nat): seq<bool>
    requires Legal(init, acts)
    decreases |acts|
  {
    if acts == [] then []
    else
      var before := acts[..|acts| - 1];
      var w := Exec(init, before);
      Fates(init, before, id)
      + if acts[|acts| - 1].Serve? && Serves(w, id) && !Refuses(w) then [HasRoom(w)] else []
  }

  /** Some walk of the run found the mailbox of `id` closed or, for a broker, full. */
  ghost predicate Refused<T>(init: World<T>, acts: seq<Action<T>>, id: nat)
    requires Legal(init, acts)
    decreases |acts|
  {
    acts != [] &&
    var before := acts[..|acts| - 1];
    || Refused(init, before, id)
    || (acts[|acts| - 1].Serve? && Serves(Exec(init, before), id) && Refuses(Exec(init, before)))
  }

  /** `Unsubscribe(id)` comes after step k. */
  ghost predicate Asked<T>(acts: seq<Action<T>>, k: nat, id: nat) {
    exists u | k < u < |acts| :: acts[u] == Unsubscribe(id)
  }

  /** Step k is a subscription, which is handed this identifier for this mailbox. */
  ghost predicate Joins<T>(init: World<T>, acts: seq<Action<T>>, k: nat, id: nat, b: nat)
    requires Legal(init, acts)
  {
    && k < |acts| && Legal(init, acts[..k])
    && var w := Exec(init, acts[..k]);
       id == w.nextId && (acts[k] == Subscribe(b) || (acts[k].SubscribeNew? && b == |w.boxes|))
  }

  /** What the record of the subscription says at the end of the run. */
  ghost predicate Lived<T>(init: World<T>, acts: seq<Action<T>>, k: nat, id: nat, b: nat)
    requires Legal(init, acts) && k < |acts|
  {
    var w := Exec(init, acts);
    && id < |w.records| && w.records[id].box == b && w.records[id].born == |PublishedBy(acts[..k])|
    && w.records[id].fate == Fates(init, acts, id)
    && (w.records[id].end.None? <==> !Refused(init, acts, id) && !Asked(acts, k, id))
    && (w.records[id].end == Some(Unsubscribed) ==> EndsAt(acts, k, id, Reached(w.records[id])))
    && (w.records[id].end == Some(Pruned) ==> Refused(init, acts, id))
  }

  /** Everything up to the first `Unsubscribe(id)`. */
  ghost predicate EndsAt<T>(acts: seq<Action<T>>, k: nat, id: nat, reached: nat) {
    exists u | k < u < |acts| && acts[u] == Unsubscribe(id) ::
      !Asked(acts[..u], k, id) && reached == |PublishedBy(acts[..u])|
  }

  lemma NotServedYet<T>(w: World<T>, a: Action<T>, id: nat)
    requires Inv(w) && Enabled(w, a) && id >= Next(w, a).nextId
    ensures id >= w.nextId && (a.Serve? ==> !Serves(w, id))
  {
  }

  lemma {:induction false} NotBefore<T>(init: World<T>, acts: seq<Action<T>>, id: nat)
    requires Init(init) && Legal(init, acts) && id >= Exec(init, acts).nextId
    ensures !Refused(init, acts, id) && Fates(init, acts, id) == []
    decreases |acts|
  {
    if acts != [] {
      var before := acts[..|acts| - 1];
      RunKeeps(init, before);
      NotServedYet(Exec(init, before), acts[|acts| - 1], id);
      NotBefore(init, before, id);
    }
  }

  lemma BornRecord<T>(w: World<T>, a: Action<T>, id: nat, b: nat)
    requires Inv(w) && Enabled(w, a) && id == w.nextId
    requires a == Subscribe(b) || (a.SubscribeNew? && b == |w.boxes|)
    ensures id < |Next(w, a).records| && Next(w, a).records[id] == Record(b, |w.published|, [], None)
  {
  }

  lemma BornLived<T>(init: World<T>, acts: seq<Action<T>>, id: nat, b: nat)
    requires Init(init) && Legal(init, acts) && acts != [] && Joins(init, acts, |acts| - 1, id, b)
    ensures Lived(init, acts, |acts| - 1, id, b)
  {
    var before, last := acts[..|acts| - 1], acts[|acts| - 1];
    RunKeeps(init, before);
    PublishedIs(init, before);
    NotBefore(init, before, id);
    BornRecord(Exec(init, before), last, id, b);
    assert Fates(init, acts, id) == [] && !Refused(init, acts, id) && !Asked(acts, |acts| - 1, id);
  }

  lemma AskedSnoc<T>(acts: seq<Action<T>>, k: nat, id: nat)
    requires k < |acts| - 1
    ensures Asked(acts, k, id) <==> Asked(acts[..|acts| - 1], k, id) || acts[|acts| - 1] == Unsubscribe(id)
  {
    var before := acts[..|acts| - 1];
    if Asked(before, k, id) {
      var u :| k < u < |before| && before[u] == Unsubscribe(id);
      assert acts[u] == Unsubscribe(id);
    }
    if Asked(acts, k, id) && acts[|acts| - 1] != Unsubscribe(id) {
      var u :| k < u < |acts| && acts[u] == Unsubscribe(id);
      assert before[u] == Unsubscribe(id);
    }
  }

  lemma EndsAtGrows<T>(acts: seq<Action<T>>, k: nat, id: nat, reached: nat)
    requires acts != [] && EndsAt(acts[..|acts| - 1], k, id, reached)
    ensures EndsAt(acts, k, id, reached)
  {
    var before := acts[..|acts| - 1];
    var u :| k < u < |before| && before[u] == Unsubscribe(id)
             && !Asked(before[..u], k, id) && reached == |PublishedBy(before[..u])|;
    assert before[..u] == acts[..u] && acts[u] == Unsubscribe(id);
  }

  /** What one step does to one record. */
  lemma RecordStep<T>(w: World<T>, a: Action<T>, id: nat)
    requires Inv(w) && Enabled(w, a) && id < |w.records|
    ensures id < |Next(w, a).records|
    ensures var r, r' := w.records[id], Next(w, a).records[id];
            && r'.box == r.box && r'.born == r.born
            && (r.end.Some? ==> r' == r)
            && (r.end.None? && a == Unsubscribe(id) ==> r' == r.(end := Some(Unsubscribed)))
            && (r.end.None? && a.Serve? && Serves(w, id) && Refuses(w) ==>
                  r' == r.(end := Some(Pruned)))
            && (r.end.None? && a != Unsubscribe(id) && !(a.Serve? && Serves(w, id) && Refuses(w)) ==> r'.end.None?)
            && r'.fate == r.fate + if a.Serve? && Serves(w, id) && !Refuses(w) then [HasRoom(w)] else []
  {
    if a.Serve? {
      assert w.records[w.subscribers[w.walk.value].id].end.None?;
    }
  }

  /** An open subscription is up to date whenever a request can be handled. */
  lemma UpToDate<T>(w: World<T>, id: nat)
    requires Inv(w) && id < |w.records| && w.records[id].end.None? && w.walk.None?
    ensures Reached(w.records[id]) == |w.published|
  {
    assert OnList(w.subscribers, id);
    var j :| 0 <= j < |w.subscribers| && w.subscribers[j].id == id;
    assert Reached(w.records[w.subscribers[j].id]) == Due(w, j);
  }

  lemma LivedStep<T>(init: World<T>, acts: seq<Action<T>>, k: nat, id: nat, b: nat)
    requires Init(init) && Legal(init, acts) && k < |acts| - 1 && Lived(init, acts[..|acts| - 1], k, id, b)
    ensures Lived(init, acts, k, id, b)
  {
    var before, a := acts[..|acts| - 1], acts[|acts| - 1];
    var w := Exec(init, before);
    RunKeeps(init, before);
    RecordStep(w, a, id);
    AskedSnoc(acts, k, id);
    assert before[..k] == acts[..k];
    if w.records[id].end == Some(Unsubscribed) {
      EndsAtGrows(acts, k, id, Reached(w.records[id]));
    }
    if w.records[id].end.None? && a == Unsubscribe(id) {
      UpToDate(w, id);
      PublishedIs(init, before);
      assert acts[|acts| - 1] == Unsubscribe(id) && !Asked(acts[..|acts| - 1], k, id);
      assert EndsAt(acts, k, id, Reached(w.records[id]));
    }
  }

  lemma {:induction false} Life<T>(init: World<T>, acts: seq<Action<T>>, k: nat, id: nat, b: nat)
    requires Init(init) && Legal(init, acts) && Joins(init, acts, k, id, b)
    ensures Lived(init, acts, k, id, b)
    decreases |acts|
  {
    if k == |acts| - 1 {
      BornLived(init, acts, id, b);
    } else {
      var before := acts[..|acts| - 1];
      assert before[..k] == acts[..k];
      Life(init, before, k, id, b);
      LivedStep(init, acts, k, id, b);
    }
  }

  /** What the invariant says about one subscription. */
  ghost predicate Given<T>(w: World<T>, id: nat) {
    && id < |w.records|
    && var r := w.records[id];
       && r.box < |w.boxes| && Reached(r) <= |w.published|
       && Through(w.boxes[r.box].log, id) == Picked(w.published[r.born..Reached(r)], r.fate)
       && (!w.lossy ==> forall j | 0 <= j < |r.fate| :: r.fate[j])
       && (r.end == Some(Pruned) ==> Reached(r) < |w.published|)
       && (r.end.None? && w.walk.None? ==> Reached(r) == |w.published|)
  }

  lemma InvGiven<T>(w: World<T>, id: nat)
    requires Inv(w) && id < |w.records|
    ensures Given(w, id)
  {
    assert Tracked(w, id);
    if w.records[id].end.None? && w.walk.None? {
      UpToDate(w, id);
    }
  }

  /** The subscription as the actions of the run tell it. */
  ghost predicate ToldBy<T>(init: World<T>, acts: seq<Action<T>>, k: nat, id: nat, b: nat, w: World<T>)
    requires Legal(init, acts) && k < |acts|
  {
    && Given(w, id) && w.published == PublishedBy(acts) && w.lossy == init.lossy
    && var r := w.records[id];
       && r.box == b && r.born == |PublishedBy(acts[..k])| && r.fate == Fates(init, acts, id)
       && (r.end.None? <==> !Refused(init, acts, id) && !Asked(acts, k, id))
       && (r.end == Some(Unsubscribed) ==> EndsAt(acts, k, id, Reached(r)))
       && (r.end == Some(Pruned) ==> Refused(init, acts, id))
  }

  lemma RunTold<T>(init: World<T>, acts: seq<Action<T>>, k: nat, id: nat, b: nat)
    requires Init(init) && Legal(init, acts) && Joins(init, acts, k, id, b)
    ensures ToldBy(init, acts, k, id, b, Exec(init, acts))
  {
    Life(init, acts, k, id, b);
    RunKeeps(init, acts);
    PublishedIs(init, acts);
    InvGiven(Exec(init, acts), id);
  }

  /** What a subscription has been given, of all that was published from `born` on, and whether that was all. */
  ghost predicate Gave<T>(given: seq<T>, published: seq<T>, born: nat, fates: seq<bool>, all: bool) {
    && born + |fates| <= |published| && given == Picked(published[born..born + |fates|], fates)
    && (all ==> born + |fates| == |published|)
  }

  lemma Told<T>(init: World<T>, acts: seq<Action<T>>, k: nat, id: nat, b: nat, w: World<T>)
    requires Legal(init, acts) && k < |acts| && ToldBy(init, acts, k, id, b, w)
    ensures b < |w.boxes|
    ensures Gave(Through(w.boxes[b].log, id), PublishedBy(acts), |PublishedBy(acts[..k])|, Fates(init, acts, id),
                 w.walk.None? && !Refused(init, acts, id) && !Asked(acts, k, id))
  {
  }

  /** Of what was published since it subscribed, a subscription is given what its mailbox had room for when offered. */
  lemma Delivers<T>(init: World<T>, acts: seq<Action<T>>, k: nat, id: nat, b: nat, w: World<T>)
    requires Init(init) && Legal(init, acts) && Exec(init, acts) == w && Joins(init, acts, k, id, b)
    ensures b < |w.boxes|
    ensures Gave(Through(w.boxes[b].log, id), PublishedBy(acts), |PublishedBy(acts[..k])|, Fates(init, acts, id),
                 w.walk.None? && !Refused(init, acts, id) && !Asked(acts, k, id))
  {
    RunTold(init, acts, k, id, b);
    Told(init, acts, k, id, b, w);
  }

  lemma EndsAtAsked<T>(acts: seq<Action<T>>, k: nat, id: nat, reached: nat)
    requires EndsAt(acts, k, id, reached)
    ensures Asked(acts, k, id)
  {
  }

  lemma BrokerGiven<T>(w: World<T>, id: nat, refused: bool, asked: bool, inTime: bool)
    requires Given(w, id) && !w.lossy && w.walk.None?
    requires w.records[id].end.None? <==> !refused && !asked
    requires w.records[id].end == Some(Unsubscribed) ==> asked && inTime
    requires w.records[id].end == Some(Pruned) ==> refused
    ensures var r := w.records[id];
            && Through(w.boxes[r.box].log, id) == w.published[r.born..Reached(r)]
            && (!asked ==> (Reached(r) == |w.published| <==> !refused))
            && (!refused && asked ==> inTime)
  {
    var r := w.records[id];
    PickedAll(w.published[r.born..Reached(r)], r.fate);
    match r.end
    case None =>
    case Some(Unsubscribed) =>
    case Some(Pruned) =>
  }

  /** What a broker's subscription has been given, of all that was published from `born` on. */
  ghost predicate BrokerGave<T>(given: seq<T>, published: seq<T>, born: nat, refused: bool, asked: bool, inTime: bool) {
    && born + |given| <= |published| && given == published[born..born + |given|]
    && (!asked ==> (born + |given| == |published| <==> !refused))
    && (!refused && asked ==> inTime)
  }

  lemma BrokerTold<T>(init: World<T>, acts: seq<Action<T>>, k: nat, id: nat, b: nat, w: World<T>)
    requires Legal(init, acts) && k < |acts| && ToldBy(init, acts, k, id, b, w) && !init.lossy && w.walk.None?
    ensures b < |w.boxes|
    ensures var given, born := Through(w.boxes[b].log, id), |PublishedBy(acts[..k])|;
            BrokerGave(given, PublishedBy(acts), born, Refused(init, acts, id), Asked(acts, k, id),
                       EndsAt(acts, k, id, born + |given|))
  {
    var r := w.records[id];
    if r.end == Some(Unsubscribed) {
      EndsAtAsked(acts, k, id, Reached(r));
    }
    BrokerGiven(w, id, Refused(init, acts, id), Asked(acts, k, id), EndsAt(acts, k, id, Reached(r)));
  }

  /**
   So a broker delivers everything published since; up to the first `Unsubscribe` if there is one; and less than that
   only if a walk found the mailbox full or closed.
   */
  lemma BrokerDelivers<T>(init: World<T>, acts: seq<Action<T>>, k: nat, id: nat, b: nat, w: World<T>)
    requires Init(init) && Legal(init, acts) && Exec(init, acts) == w && Joins(init, acts, k, id, b)
    requires !init.lossy && w.walk.None?
    ensures b < |w.boxes|
    ensures var given, born := Through(w.boxes[b].log, id), |PublishedBy(acts[..k])|;
            BrokerGave(given, PublishedBy(acts), born, Refused(init, acts, id), Asked(acts, k, id),
                       EndsAt(acts, k, id, born + |given|))
  {
    RunTold(init, acts, k, id, b);
    BrokerTold(init, acts, k, id, b, w);
  }

  // ----- After an unsubscription

  lemma {:induction false} WithoutHolds(subs: seq<Subscriber>, id: nat, s: Subscriber)
    ensures s in Without(subs, id) <==> s in subs && s.id != id
    decreases |subs|
  {
    if subs != [] {
      WithoutHolds(subs[..|subs| - 1], id, s);
      assert subs == subs[..|subs| - 1] + [subs[|subs| - 1]];
    }
  }

  lemma StepThrough<T>(w: World<T>, a: Action<T>, id: nat, b: nat)
    requires Enabled(w, a) && b < |w.boxes| && !OnList(w.subscribers, id)
    ensures b < |Next(w, a).boxes| && Through(Next(w, a).boxes[b].log, id) == Through(w.boxes[b].log, id)
  {
    BoxStep(w, a, b);
    var log := w.boxes[b].log;
    if a == Unrelated(b) {
      ThroughSnoc(log, Other, id);
    } else if a.Serve? && GivenTo(w, b) != [] {
      assert w.subscribers[w.walk.value].id != id;
      ThroughSnoc(log, GivenTo(w, b)[0], id);
      assert GivenTo(w, b) == [GivenTo(w, b)[0]];
    } else {
      assert log + [] == log;
    }
  }

  lemma {:induction false} EndedGetsNothing<T>(w: World<T>, acts: seq<Action<T>>, id: nat, b: nat)
    requires Inv(w) && Legal(w, acts) && id < |w.records| && w.records[id].end.Some? && b < |w.boxes|
    ensures !OnList(Exec(w, acts).subscribers, id)
    ensures b < |Exec(w, acts).boxes| && Through(Exec(w, acts).boxes[b].log, id) == Through(w.boxes[b].log, id)
    decreases |acts|
  {
    IdsNeverReused(w, acts);
    RunKeeps(w, acts);
    if acts != [] {
      EndedGetsNothing(w, acts[..|acts| - 1], id, b);
      StepThrough(Exec(w, acts[..|acts| - 1]), acts[|acts| - 1], id, b);
    }
  }

  /**
   An unsubscription takes its subscriber off the list and nobody else, in the same order, and from then on nothing
   ever comes through it again, into any mailbox.
   */
  lemma UnsubscribedForGood<T>(w: World<T>, id: nat, acts: seq<Action<T>>, b: nat)
    requires Inv(w) && Enabled(w, Unsubscribe(id)) && id < w.nextId && b < |w.boxes|
    requires Legal(Next(w, Unsubscribe(id)), acts)
    ensures var w' := Next(w, Unsubscribe(id));
            Ascending(w'.subscribers) && forall s :: s in w'.subscribers <==> s in w.subscribers && s.id != id
    ensures var end := Exec(Next(w, Unsubscribe(id)), acts);
            && !OnList(end.subscribers, id)
            && b < |end.boxes| && Through(end.boxes[b].log, id) == Through(w.boxes[b].log, id)
  {
    var w' := Next(w, Unsubscribe(id));
    StepKeeps(w, Unsubscribe(id));
    forall s
      ensures s in w'.subscribers <==> s in w.subscribers && s.id != id
    {
      WithoutHolds(w.subscribers, id, s);
    }
    EndedGetsNothing(w', acts, id, b);
  }
}
