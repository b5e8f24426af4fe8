/**
 One-to-many delivery: `Broker` (crates/actor/src/broker.rs) and `StreamOutput` (crates/actor/src/stream.rs).
 Both walk their subscriber list in place for every value.  A broker removes a subscriber whose send fails for
 any reason; a stream removes it only when its channel is closed and otherwise drops the value.

 Receivers, and other senders to the same mailbox, run between any two sends of one walk.
 */
module FanOut {
  import opened Options
  import opened Retaining

  /** What a mailbox was given: a published value through subscription `id`, or something unrelated. */
  datatype Entry<T> = Sent(id: nat, v: T) | Other

  /** A bounded channel: `log` is everything it accepted, `taken` how much of it the receiver has taken. */
  datatype Box<T> = Box(capacity: nat, taken: nat, log: seq<Entry<T>>, open: bool)

  datatype Subscriber = Subscriber(id: nat, box: nat)

  datatype End = Unsubscribed | Pruned

  /**
   History of one subscription: its mailbox, how many values had been published before it,
   for each later value offered to it whether it was delivered, and how it ended.
   */
  datatype Record = Record(box: nat, born: nat, fate: seq<bool>, end: Option<End>)

  /** `walk` is the position of a walk under way, `lossy` tells a stream from a broker. */
  datatype World<T> = World(
    lossy: bool, subscribers: seq<Subscriber>, nextId: nat, boxes: seq<Box<T>>, walk: Option<nat>,
    published: seq<T>, records: seq<Record>)

  datatype Action<T> =
    | Subscribe(box: nat)
    | SubscribeNew(capacity: nat)
    | Unsubscribe(id: nat)
    | Publish(v: T)
    | Serve
    | Finish
    | Take(b: nat)
    | Close(b: nat)
    | Unrelated(b: nat)

  // ----- Steps

  function Waiting<T>(box: Box<T>): int {
    |box.log| - box.taken
  }

  /** `try_send` succeeds. */
  predicate Accepts<T>(box: Box<T>) {
    box.open && Waiting(box) < box.capacity
  }

  ghost predicate Enabled<T>(w: World<T>, a: Action<T>) {
    match a
    case Subscribe(b) => w.walk.None? && b < |w.boxes|
    case SubscribeNew(_) => w.walk.None?
    case Unsubscribe(_) => w.walk.None? && !w.lossy
    case Publish(_) => w.walk.None?
    case Serve => w.walk.Some? && w.walk.value < |w.subscribers| && w.subscribers[w.walk.value].box < |w.boxes|
                  && w.subscribers[w.walk.value].id < |w.records| && w.published != []
    case Finish => w.walk.Some? && w.walk.value >= |w.subscribers|
    case Take(b) => b < |w.boxes| && Waiting(w.boxes[b]) > 0
    case Close(b) => b < |w.boxes|
    case Unrelated(b) => b < |w.boxes| && Accepts(w.boxes[b])
  }

  function Without(subs: seq<Subscriber>, id: nat): seq<Subscriber> {
    if subs == [] then []
    else
      var n := |subs| - 1;
      Without(subs[..n], id) + if subs[n].id == id then [] else [subs[n]]
  }

  ghost function Subscribed<T>(w: World<T>, b: nat): World<T> {
    w.(subscribers := w.subscribers + [Subscriber(w.nextId, b)], nextId := w.nextId + 1,
       records := w.records + [Record(b, |w.published|, [], None)])
  }

  ghost function Ended(records: seq<Record>, id: nat, end: End): seq<Record> {
    if id < |records| && records[id].end.None? then records[id := records[id].(end := Some(end))] else records
  }

  ghost function Fated(records: seq<Record>, id: nat, delivered: bool): seq<Record>
    requires id < |records|
  {
    records[id := records[id].(fate := records[id].fate + [delivered])]
  }

  ghost function Logged<T>(boxes: seq<Box<T>>, b: nat, e: Entry<T>): seq<Box<T>>
    requires b < |boxes|
  {
    boxes[b := boxes[b].(log := boxes[b].log + [e])]
  }

  /** The walk reaches its next subscriber. */
  ghost function Served<T>(w: World<T>): World<T>
    requires Enabled(w, Serve)
  {
    var k := w.walk.value;
    var s := w.subscribers[k];
    var v := w.published[|w.published| - 1];
    if Accepts(w.boxes[s.box]) then
      w.(boxes := Logged(w.boxes, s.box, Sent(s.id, v)), records := Fated(w.records, s.id, true), walk := Some(k + 1))
    else if w.lossy && w.boxes[s.box].open then
      w.(records := Fated(w.records, s.id, false), walk := Some(k + 1))
    else
      w.(subscribers := RemoveAt(w.subscribers, k), records := Ended(w.records, s.id, Pruned))
  }

  ghost function Next<T>(w: World<T>, a: Action<T>): World<T>
    requires Enabled(w, a)
  {
    match a
    case Subscribe(b) => Subscribed(w, b)
    case SubscribeNew(c) => Subscribed(w.(boxes := w.boxes + [Box(c, 0, [], true)]), |w.boxes|)
    case Unsubscribe(id) =>
      w.(subscribers := Without(w.subscribers, id), records := Ended(w.records, id, Unsubscribed))
    case Publish(v) => w.(published := w.published + [v], walk := Some(0))
    case Serve => Served(w)
    case Finish => w.(walk := None)
    case Take(b) => w.(boxes := w.boxes[b := w.boxes[b].(taken := w.boxes[b].taken + 1)])
    case Close(b) => w.(boxes := w.boxes[b := w.boxes[b].(open := false)])
    case Unrelated(b) => w.(boxes := Logged(w.boxes, b, Other))
  }

  // ----- Runs

  ghost predicate Init<T>(w: World<T>) {
    && w.subscribers == [] && w.nextId == 0 && w.walk.None? && w.published == [] && w.records == []
    && forall b | 0 <= b < |w.boxes| :: w.boxes[b].log == [] && w.boxes[b].taken == 0
  }

  ghost predicate Legal<T>(w: World<T>, acts: seq<Action<T>>)
    decreases |acts|, 0
  {
    acts == [] ||
    (Legal(w, acts[..|acts| - 1]) && Enabled(Exec(w, acts[..|acts| - 1]), acts[|acts| - 1]))
  }

  ghost function Exec<T>(w: World<T>, acts: seq<Action<T>>): World<T>
    requires Legal(w, acts)
    decreases |acts|, 1
  {
    if acts == [] then w else Next(Exec(w, acts[..|acts| - 1]), acts[|acts| - 1])
  }

  ghost predicate Reachable<T(!new)>(w: World<T>) {
    exists init: World<T>, acts :: Init(init) && Legal(init, acts) && Exec(init, acts) == w
  }

  // ----- What a subscription got

  /** The values in a mailbox that came through subscription `id`, in order. */
  ghost function Through<T>(log: seq<Entry<T>>, id: nat): seq<T> {
    if log == [] then []
    else
      var n := |log| - 1;
      Through(log[..n], id) + if log[n].Sent? && log[n].id == id then [log[n].v] else []
  }

  /** The values whose fate is `true`. */
  ghost function Picked<T>(values: seq<T>, fate: seq<bool>): seq<T>
    requires |values| == |fate|
  {
    if values == [] then []
    else
      var n := |values| - 1;
      Picked(values[..n], fate[..n]) + if fate[n] then [values[n]] else []
  }

  lemma ThroughSnoc<T>(log: seq<Entry<T>>, e: Entry<T>, id: nat)
    ensures Through(log + [e], id) == Through(log, id) + if e.Sent? && e.id == id then [e.v] else []
  {
    assert (log + [e])[..|log|] == log;
  }

  lemma PickedSnoc<T>(values: seq<T>, fate: seq<bool>, v: T, f: bool)
    requires |values| == |fate|
    ensures Picked(values + [v], fate + [f]) == Picked(values, fate) + if f then [v] else []
  {
    assert (values + [v])[..|values|] == values && (fate + [f])[..|fate|] == fate;
  }

  lemma {:induction false} PickedAll<T>(values: seq<T>, fate: seq<bool>)
    requires |values| == |fate| && forall k | 0 <= k < |fate| :: fate[k]
    ensures Picked(values, fate) == values
    decreases |values|
  {
    if values != [] {
      var n := |values| - 1;
      PickedAll(values[..n], fate[..n]);
      assert values == values[..n] + [values[n]];
    }
  }

  // ----- Invariant

  /** The first value not yet offered. */
  ghost function Reached(r: Record): nat {
    r.born + |r.fate|
  }

  ghost predicate Filed(subs: seq<Subscriber>, records: seq<Record>) {
    forall j | 0 <= j < |subs| ::
      subs[j].id < |records| && records[subs[j].id].end.None? && records[subs[j].id].box == subs[j].box
  }

  ghost predicate Ascending(subs: seq<Subscriber>) {
    forall i, j | 0 <= i < j < |subs| :: subs[i].id < subs[j].id
  }

  ghost predicate OnList(subs: seq<Subscriber>, id: nat) {
    exists j | 0 <= j < |subs| :: subs[j].id == id
  }

  ghost predicate Found(subs: seq<Subscriber>, records: seq<Record>) {
    forall id: nat | id < |records| && records[id].end.None? :: OnList(subs, id)
  }

  /** The list is in order of identifiers, and it is exactly the records without an end. */
  ghost predicate ListOk<T>(w: World<T>) {
    && |w.records| == w.nextId && Filed(w.subscribers, w.records)
    && Ascending(w.subscribers) && Found(w.subscribers, w.records)
  }

  /** How many values subscriber `j` has been offered out of those published. */
  ghost function Due<T>(w: World<T>, j: nat): int {
    if w.walk.None? || j < w.walk.value then |w.published| else |w.published| - 1
  }

  ghost predicate WalkOk<T>(w: World<T>) {
    && (w.walk.Some? ==> w.published != [] && w.walk.value <= |w.subscribers|)
    && (forall j | 0 <= j < |w.subscribers| && w.subscribers[j].id < |w.records| ::
          Reached(w.records[w.subscribers[j].id]) == Due(w, j))
  }

  /** `log` holds, of what came through `id`, exactly the published values with a good fate. */
  ghost predicate Told<T>(lossy: bool, published: seq<T>, log: seq<Entry<T>>, r: Record, id: nat) {
    && Reached(r) <= |published|
    && Through(log, id) == Picked(published[r.born..Reached(r)], r.fate)
    && (!lossy ==> forall k | 0 <= k < |r.fate| :: r.fate[k])
    && (r.end == Some(Pruned) ==> Reached(r) < |published|)
  }

  ghost predicate Tracked<T>(w: World<T>, id: nat)
    requires id < |w.records|
  {
    var r := w.records[id];
    r.box < |w.boxes| && Told(w.lossy, w.published, w.boxes[r.box].log, r, id)
  }

  /** Nothing carries an identifier that was not handed out. */
  ghost predicate TagsOk<T>(w: World<T>) {
    forall b, k | 0 <= b < |w.boxes| && 0 <= k < |w.boxes[b].log| && w.boxes[b].log[k].Sent? ::
      w.boxes[b].log[k].id < w.nextId
  }

  ghost predicate Inv<T>(w: World<T>) {
    ListOk(w) && WalkOk(w) && TagsOk(w) && forall id | 0 <= id < |w.records| :: Tracked(w, id)
  }
}
