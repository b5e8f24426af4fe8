/** Every step of the reactive network keeps the invariant of `ReactiveInvariant` unless a mailbox overflows. */
module ReactiveSteps {
  import opened Options
  import opened Reactive
  import opened ReactiveInvariant

  /** A change that a node's own links and the links of its readers do not see. */
  ghost predicate Quiet<V>(n: Node<V>, n': Node<V>) {
    && n'.kind == n.kind && n'.mailbox == n.mailbox && n'.value == n.value
    && n'.subscribers == n.subscribers && n'.applied == n.applied && n'.delivered == n.delivered
    && |n'.tasks| == |n.tasks|
    && (forall t | 0 <= t < |n.tasks| ::
          n'.tasks[t].replies == n.tasks[t].replies && n'.tasks[t].done == n.tasks[t].done)
    && SubscribedTo(n') == SubscribedTo(n)
    && (n.dirty ==> n'.dirty || n'.phase == Notifying(0))
    && (n.phase.Notifying? ==> n'.phase == n.phase || n.phase.next >= |n.subscribers|)
    && (n'.phase.Answering? ==> n.phase.Answering? && n'.phase.to == n.phase.to)
  }

  lemma QuietUpdates<V>(n: Node<V>, n': Node<V>)
    requires n.kind.Derived? && Quiet(n, n') && Updates(n)
    ensures Updates(n')
  {
    forall j | 0 <= j < |n'.mailbox|
      ensures UpdateOk(n', n'.mailbox[j])
    {
      assert UpdateOk(n, n.mailbox[j]);
    }
  }

  lemma QuietReader<V>(s: Node<V>, d: nat, n: Node<V>, n': Node<V>, k: nat)
    requires Shape(n, d) && Shape(n', d) && k < |Sources(n.kind)| && Quiet(n, n') && Link(s, d, n, k)
    ensures Link(s, d, n', k)
  {
  }

  lemma QuietSource<V>(s: Node<V>, s': Node<V>, d: nat, n: Node<V>, k: nat)
    requires Shape(n, d) && k < |Sources(n.kind)| && Quiet(s, s') && Link(s, d, n, k)
    ensures Link(s', d, n, k)
  {
    if s.dirty && d in s.subscribers && s'.phase == Notifying(0) {
      var j :| 0 <= j < |s.subscribers| && s.subscribers[j] == d;
      assert s'.phase.next <= j < |s'.subscribers| && s'.subscribers[j] == d;
    }
  }

  lemma QuietKeeps<V>(sys: Sys<V>, i: nat, n': Node<V>)
    requires Inv(sys) && i < |sys.nodes| && Quiet(sys.nodes[i], n') && Shape(n', i)
    ensures Inv(Put(sys, i, n'))
  {
    var n := sys.nodes[i];
    assert NodeInv(sys, i);
    if n.kind.Derived? {
      QuietUpdates(n, n');
    }
    forall k | 0 <= k < |Sources(n.kind)|
      ensures Link(sys.nodes[Sources(n.kind)[k]], i, n', k)
    {
      assert LinkInv(sys.nodes, i, k);
      QuietReader(sys.nodes[Sources(n.kind)[k]], i, n, n', k);
    }
    forall d, k | 0 <= d < |sys.nodes| && 0 <= k < |Sources(sys.nodes[d].kind)|
                  && Sources(sys.nodes[d].kind)[k] == i
      ensures Shape(sys.nodes[d], d) && Link(n', d, sys.nodes[d], k)
    {
      assert LinkInv(sys.nodes, d, k);
      QuietSource(n, n', d, sys.nodes[d], k);
    }
    PutKeeps(sys, i, n');
  }

  // ----- Starting

  /** A node that is still starting has spawned no task, so nobody has been asked on its behalf. */
  lemma NotAskedYet<V>(sys: Sys<V>, s: nat, i: nat)
    requires Inv(sys) && s < |sys.nodes| && i < |sys.nodes| && sys.nodes[i].phase.Starting?
    ensures forall j | 0 <= j < |sys.nodes[s].mailbox| :: !AskedBy(sys.nodes[s].mailbox[j], i)
  {
    assert NodeInv(sys, i) && NodeInv(sys, s);
  }

  lemma StartingKeeps<V>(sys: Sys<V>, i: nat, k: nat)
    requires Inv(sys) && i < |sys.nodes| && sys.nodes[i].phase == Starting(k) && k < |Sources(sys.nodes[i].kind)|
    requires Shape(sys.nodes[i], i) && Subscribes(sys.nodes[Sources(sys.nodes[i].kind)[k]], i)
    ensures Inv(Put(sys, i, sys.nodes[i].(phase := Starting(k + 1))))
  {
    var n := sys.nodes[i];
    var n' := n.(phase := Starting(k + 1));
    assert NodeInv(sys, i);
    if n.kind.Derived? {
      NotifiedUpdates(n, n');
    }
    forall k' | 0 <= k' < |Sources(n.kind)|
      ensures Link(sys.nodes[Sources(n.kind)[k']], i, n', k')
    {
      assert LinkInv(sys.nodes, i, k');
    }
    forall d, k' | 0 <= d < |sys.nodes| && 0 <= k' < |Sources(sys.nodes[d].kind)|
                   && Sources(sys.nodes[d].kind)[k'] == i
      ensures Shape(sys.nodes[d], d) && Link(n', d, sys.nodes[d], k')
    {
      assert LinkInv(sys.nodes, d, k');
    }
    PutKeeps(sys, i, n');
  }

  lemma SubscribeNextKeeps<V>(sys: Sys<V>, i: nat)
    requires Inv(sys) && Enabled(sys, SubscribeNext(i)) && !Next(sys, SubscribeNext(i)).overflow
    ensures Inv(Next(sys, SubscribeNext(i)))
  {
    var n := sys.nodes[i];
    assert NodeInv(sys, i);
    var k := n.phase.subscribed;
    var s := Sources(n.kind)[k];
    PostKeeps(sys, s, Subscribe(i));
    var sent := Post(sys, s, Subscribe(i));
    assert sent.nodes[i] == n;
    NotAskedYet(sys, s, i);
    CoveredFirst(sys.nodes[s].mailbox, i);
    StartingKeeps(sent, i, k);
  }

  /** A newly spawned task has read nothing, so nothing it read can be stale. */
  lemma SpawnedUpdates<V>(nodes: seq<Node<V>>, n: Node<V>)
    requires n.kind.Derived? && Updates(n)
    ensures Updates(Spawned(nodes, n))
    ensures Ordered(n) ==> Ordered(Spawned(nodes, n))
  {
    var n' := Spawned(nodes, n);
    forall j | 0 <= j < |n'.mailbox|
      ensures UpdateOk(n', n'.mailbox[j])
    {
      assert UpdateOk(n, n.mailbox[j]);
    }
  }

  lemma SpawnedReader<V>(nodes: seq<Node<V>>, s: Node<V>, d: nat, n: Node<V>, n': Node<V>, k: nat)
    requires Shape(n, d) && Shape(n', d) && k < |Sources(n.kind)| && Link(s, d, n, k)
    requires n'.kind == n.kind && n'.tasks == Spawned(nodes, n).tasks
    requires k < SubscribedTo(n)
    ensures Link(s, d, n', k)
  {
    var last := |n.tasks|;
    assert n'.tasks[last].replies[k].None?;
    if HasRead(n', k) {
      var t :| 0 <= t < |n'.tasks| && k < |n'.tasks[t].replies| && n'.tasks[t].replies[k].Some?;
      assert n.tasks[t].replies[k].Some?;
    }
  }

  lemma EnterLoopKeeps<V>(sys: Sys<V>, i: nat)
    requires Inv(sys) && Enabled(sys, EnterLoop(i))
    ensures Inv(Next(sys, EnterLoop(i)))
  {
    var n := sys.nodes[i];
    assert NodeInv(sys, i);
    if n.kind.Source? {
      QuietKeeps(sys, i, n.(phase := Waiting));
    } else {
      var n' := Spawned(sys.nodes, n).(phase := Waiting);
      SpawnedUpdates(sys.nodes, n);
      QuietUpdates(Spawned(sys.nodes, n), n');
      forall k | 0 <= k < |Sources(n.kind)|
        ensures Link(sys.nodes[Sources(n.kind)[k]], i, n', k)
      {
        assert LinkInv(sys.nodes, i, k);
        SpawnedReader(sys.nodes, sys.nodes[Sources(n.kind)[k]], i, n, n', k);
      }
      forall d, k | 0 <= d < |sys.nodes| && 0 <= k < |Sources(sys.nodes[d].kind)|
                    && Sources(sys.nodes[d].kind)[k] == i
        ensures Shape(sys.nodes[d], d) && Link(n', d, sys.nodes[d], k)
      {
        assert LinkInv(sys.nodes, d, k);
      }
      PutKeeps(sys, i, n');
    }
  }

  // ----- Receiving a message

  lemma PoppedNotify<V>(n: Node<V>, n': Node<V>)
    requires n.mailbox != [] && !n.mailbox[0].Notify? && n'.mailbox == n.mailbox[1..]
    ensures HasNotify(n) ==> HasNotify(n')
  {
    if HasNotify(n) {
      var j :| 0 <= j < |n.mailbox| && n.mailbox[j].Notify?;
      assert n'.mailbox[j - 1].Notify?;
    }
  }

  /** The node that received keeps its own links: it lost no `Notify` and its tasks are as they were. */
  lemma PoppedReader<V>(s: Node<V>, d: nat, n: Node<V>, n': Node<V>, k: nat)
    requires Shape(n, d) && Shape(n', d) && k < |Sources(n.kind)| && Link(s, d, n, k)
    requires n.mailbox != [] && !n.mailbox[0].Notify? && n'.mailbox == n.mailbox[1..]
    requires n'.kind == n.kind && n'.tasks == n.tasks && SubscribedTo(n') == SubscribedTo(n)
    ensures Link(s, d, n', k)
  {
    PoppedNotify(n, n');
  }

  /** Readers keep their links: no subscription is lost, and a new value leaves the source dirty. */
  lemma PoppedSource<V>(s: Node<V>, s': Node<V>, d: nat, n: Node<V>, k: nat)
    requires Shape(n, d) && k < |Sources(n.kind)| && Link(s, d, n, k)
    requires s.mailbox != [] && s'.mailbox == s.mailbox[1..]
    requires s'.subscribers == s.subscribers + (if s.mailbox[0].Subscribe? then [s.mailbox[0].who] else [])
    requires !s.phase.Notifying? && (s.dirty ==> s'.dirty)
    requires s'.value == s.value || s'.dirty
    ensures Link(s', d, n, k)
  {
    if s.mailbox[0] == Subscribe(d) {
      assert s'.subscribers[|s.subscribers|] == d;
    }
  }

  /** Handling anything but an `UpdateCache` leaves the cache's bookkeeping as it was. */
  lemma PoppedUpdates<V>(n: Node<V>, n': Node<V>)
    requires n.kind.Derived? && Updates(n) && n.mailbox != [] && !n.mailbox[0].UpdateCache?
    requires n'.kind == n.kind && n'.mailbox == n.mailbox[1..] && n'.tasks == n.tasks
    requires n'.value == n.value && n'.applied == n.applied && n'.delivered == n.delivered
    ensures Updates(n')
  {
    forall j | 0 <= j < |n'.mailbox|
      ensures UpdateOk(n', n'.mailbox[j])
    {
      assert UpdateOk(n, n.mailbox[j + 1]);
    }
  }

  lemma CachedUpdates<V>(n: Node<V>, n': Node<V>)
    requires n.kind.Derived? && Updates(n) && n.mailbox != [] && n.mailbox[0].UpdateCache?
    requires n' == Cached(Popped(n), n.mailbox[0].task, n.mailbox[0].v)
    ensures Updates(n')
  {
    assert UpdateOk(n, n.mailbox[0]);
    forall j | 0 <= j < |n'.mailbox|
      ensures UpdateOk(n', n'.mailbox[j])
    {
      assert UpdateOk(n, n.mailbox[j + 1]);
    }
  }

  /** Receiving a message that only its own node sees. */
  lemma ReceiveLocalKeeps<V>(sys: Sys<V>, i: nat, n': Node<V>)
    requires Inv(sys) && Enabled(sys, Receive(i))
    requires n'.kind == sys.nodes[i].kind && n'.mailbox == sys.nodes[i].mailbox[1..]
    requires Shape(n', i) && !n'.phase.Starting?
    requires n'.tasks == (if sys.nodes[i].mailbox[0].Notify? && n'.kind.Derived?
                          then Spawned(sys.nodes, sys.nodes[i]).tasks else sys.nodes[i].tasks)
    requires n'.kind.Derived? ==> Updates(n') && (sys.inOrder ==> Ordered(n'))
    requires n'.subscribers == sys.nodes[i].subscribers
               + (if sys.nodes[i].mailbox[0].Subscribe? then [sys.nodes[i].mailbox[0].who] else [])
    requires (sys.nodes[i].dirty ==> n'.dirty) && (n'.value == sys.nodes[i].value || n'.dirty)
    requires n'.phase.Answering? ==>
               && sys.nodes[i].mailbox[0].Get? && n'.phase.to == sys.nodes[i].mailbox[0].from
    ensures Inv(Put(sys, i, n'))
  {
    var n := sys.nodes[i];
    assert NodeInv(sys, i);
    forall k | 0 <= k < |Sources(n.kind)|
      ensures Link(sys.nodes[Sources(n.kind)[k]], i, n', k)
    {
      assert LinkInv(sys.nodes, i, k);
      if n.mailbox[0].Notify? {
        SpawnedReader(sys.nodes, sys.nodes[Sources(n.kind)[k]], i, n, n', k);
      } else {
        PoppedReader(sys.nodes[Sources(n.kind)[k]], i, n, n', k);
      }
    }
    forall d, k | 0 <= d < |sys.nodes| && 0 <= k < |Sources(sys.nodes[d].kind)|
                  && Sources(sys.nodes[d].kind)[k] == i
      ensures Shape(sys.nodes[d], d) && Link(n', d, sys.nodes[d], k)
    {
      assert LinkInv(sys.nodes, d, k);
      PoppedSource(n, n', d, sys.nodes[d], k);
    }
    ReceivedGets(sys, i, n');
    PutKeeps(sys, i, n');
  }

  /** The `Get` at the head of a source's mailbox comes from a node that is already subscribed. */
  lemma AskerSubscribed<V>(sys: Sys<V>, i: nat)
    requires Inv(sys) && i < |sys.nodes| && sys.nodes[i].mailbox != [] && sys.nodes[i].mailbox[0].Get?
    ensures SlotOk(sys.nodes, i, sys.nodes[i].mailbox[0].from)
    ensures sys.nodes[i].mailbox[0].from.ByTask? ==> sys.nodes[i].mailbox[0].from.node in sys.nodes[i].subscribers
  {
    assert NodeInv(sys, i);
    var from := sys.nodes[i].mailbox[0].from;
    if from.ByTask? {
      assert LinkInv(sys.nodes, from.node, from.slot);
      assert NodeInv(sys, from.node);
    }
  }

  lemma ReceivedGets<V>(sys: Sys<V>, i: nat, n': Node<V>)
    requires Inv(sys) && i < |sys.nodes| && sys.nodes[i].mailbox != []
    requires n'.kind == sys.nodes[i].kind && n'.mailbox == sys.nodes[i].mailbox[1..]
    requires |n'.tasks| >= |sys.nodes[i].tasks|
    requires forall d | d in sys.nodes[i].subscribers :: d in n'.subscribers
    requires n'.phase.Answering? ==>
               && sys.nodes[i].mailbox[0].Get? && n'.phase.to == sys.nodes[i].mailbox[0].from
    ensures GetsOk(sys.nodes[i := n'], i)
  {
    assert NodeInv(sys, i);
    if n'.phase.Answering? {
      AskerSubscribed(sys, i);
    }
    forall j | 0 <= j < |n'.mailbox| && n'.mailbox[j].Get?
      ensures SlotOk(sys.nodes[i := n'], i, n'.mailbox[j].from)
    {
      assert SlotOk(sys.nodes, i, sys.nodes[i].mailbox[j + 1].from);
    }
  }

  /** What a handler that answers nobody leaves behind. */
  ghost function Absorbed<V>(nodes: seq<Node<V>>, n: Node<V>, m: Msg<V>): Node<V> {
    match m
    case Notify => if n.kind.Derived? then Spawned(nodes, n) else n
    case Subscribe(who) => n.(subscribers := n.subscribers + [who])
    case Set(v) => if n.kind.Source? then Stored(n, v) else n
    case Mutate(f) => if n.kind.Source? && n.value.Some? then Stored(n, f(n.value.value)) else n
    case UpdateCache(t, v) => if n.kind.Derived? then Cached(n, t, v) else n
    case Get(from) =>
      if n.value.None? && n.kind.Derived? then n.(phase := Answering(from, NewTask(nodes, n.kind.sources))) else n
  }

  /** Only `Notify` and `UpdateCache` touch what the cache's bookkeeping is about. */
  lemma AbsorbedQuietly<V>(nodes: seq<Node<V>>, n: Node<V>)
    requires n.kind.Derived? && n.mailbox != [] && !n.mailbox[0].UpdateCache? && !n.mailbox[0].Notify?
    ensures var n' := Absorbed(nodes, Popped(n), n.mailbox[0]);
            && n'.kind == n.kind && n'.mailbox == n.mailbox[1..] && n'.tasks == n.tasks
            && n'.value == n.value && n'.applied == n.applied && n'.delivered == n.delivered
  {
  }

  lemma AbsorbedUpdates<V>(nodes: seq<Node<V>>, n: Node<V>)
    requires n.kind.Derived? && Updates(n) && n.mailbox != []
    ensures var n' := Absorbed(nodes, Popped(n), n.mailbox[0]);
            Updates(n') && (Ordered(n) ==> Ordered(n'))
  {
    var m := n.mailbox[0];
    if m.UpdateCache? {
      CachedUpdates(n, Absorbed(nodes, Popped(n), m));
    } else if m.Notify? {
      PoppedUpdates(n, Popped(n));
      SpawnedUpdates(nodes, Popped(n));
    } else {
      AbsorbedQuietly(nodes, n);
      PoppedUpdates(n, Absorbed(nodes, Popped(n), m));
    }
  }

  lemma AbsorbedShape<V>(nodes: seq<Node<V>>, n: Node<V>, i: nat)
    requires Shape(n, i) && n.mailbox != [] && (n.phase.Waiting? || n.phase.Draining?)
    ensures var n' := Absorbed(nodes, Popped(n), n.mailbox[0]);
            && Shape(n', i) && !n'.phase.Starting?
            && n'.kind == n.kind && n'.mailbox == n.mailbox[1..]
            && n'.tasks == (if n.mailbox[0].Notify? && n.kind.Derived? then Spawned(nodes, n).tasks else n.tasks)
  {
  }

  lemma AbsorbedRest<V>(nodes: seq<Node<V>>, n: Node<V>)
    requires n.mailbox != []
    ensures var n' := Absorbed(nodes, Popped(n), n.mailbox[0]);
            && n'.subscribers == n.subscribers + (if n.mailbox[0].Subscribe? then [n.mailbox[0].who] else [])
            && (n.dirty ==> n'.dirty) && (n'.value == n.value || n'.dirty)
            && (n'.phase.Answering? ==> n.mailbox[0].Get? && n'.phase.to == n.mailbox[0].from)
  {
  }

  /** Popping a message does not change how many values any node has held. */
  lemma SameStamps<V>(nodes: seq<Node<V>>, i: nat, n: Node<V>, sources: seq<nat>)
    requires i < |nodes| && n.held == nodes[i].held && n.value == nodes[i].value
    ensures NewTask(nodes[i := n], sources) == NewTask(nodes, sources)
  {
  }

  lemma AbsorbKeeps<V>(sys: Sys<V>, i: nat)
    requires Inv(sys) && Enabled(sys, Receive(i))
    ensures var n := sys.nodes[i];
            Inv(Put(sys, i, Absorbed(sys.nodes, Popped(n), n.mailbox[0])))
  {
    var n := sys.nodes[i];
    var n' := Absorbed(sys.nodes, Popped(n), n.mailbox[0]);
    assert NodeInv(sys, i);
    if n.kind.Derived? {
      AbsorbedUpdates(sys.nodes, n);
    }
    AbsorbedShape(sys.nodes, n, i);
    AbsorbedRest(sys.nodes, n);
    ReceiveLocalKeeps(sys, i, n');
  }

  // ----- Answering a `Get`

  lemma AnsweredUpdates<V>(n: Node<V>, t: nat, k: nat, v: V)
    requires n.kind.Derived? && Updates(n) && t < |n.tasks| && Unanswered(n.tasks[t], k)
    ensures Updates(Answered(n, t, k, v)) && (Ordered(n) ==> Ordered(Answered(n, t, k, v)))
  {
    var n' := Answered(n, t, k, v);
    assert !Complete(n.tasks[t]);
    forall j | 0 <= j < |n'.mailbox|
      ensures UpdateOk(n', n'.mailbox[j])
    {
      assert UpdateOk(n, n.mailbox[j]);
    }
  }

  lemma AnsweredReader<V>(s: Node<V>, d: nat, n: Node<V>, t: nat, k: nat, v: V, k': nat)
    requires Shape(n, d) && k' < |Sources(n.kind)| && Link(s, d, n, k')
    requires t < |n.tasks| && Unanswered(n.tasks[t], k)
    requires k == k' ==> d in s.subscribers && StillHolds(s, v)
    ensures Shape(Answered(n, t, k, v), d) && Link(s, d, Answered(n, t, k, v), k')
  {
    var n' := Answered(n, t, k, v);
    if HasRead(n', k') && k != k' {
      var u :| 0 <= u < |n'.tasks| && k' < |n'.tasks[u].replies| && n'.tasks[u].replies[k'].Some?;
      assert n.tasks[u].replies[k'].Some?;
    }
  }

  lemma ReplyTaskKeeps<V>(sys: Sys<V>, i: nat, d: nat, t: nat, k: nat, v: V)
    requires Inv(sys) && i < |sys.nodes| && SlotOk(sys.nodes, i, ByTask(d, t, k))
    requires d in sys.nodes[i].subscribers && StillHolds(sys.nodes[i], v)
    requires Unanswered(sys.nodes[d].tasks[t], k)
    ensures Inv(Put(sys, d, Answered(sys.nodes[d], t, k, v)))
  {
    var n := sys.nodes[d];
    var n' := Answered(n, t, k, v);
    assert NodeInv(sys, d);
    AnsweredUpdates(n, t, k, v);
    forall k' | 0 <= k' < |Sources(n.kind)|
      ensures Shape(n', d) && Link(sys.nodes[Sources(n.kind)[k']], d, n', k')
    {
      assert LinkInv(sys.nodes, d, k');
      AnsweredReader(sys.nodes[Sources(n.kind)[k']], d, n, t, k, v, k');
    }
    forall e, k' | 0 <= e < |sys.nodes| && 0 <= k' < |Sources(sys.nodes[e].kind)|
                   && Sources(sys.nodes[e].kind)[k'] == d
      ensures Shape(sys.nodes[e], e) && Link(n', e, sys.nodes[e], k')
    {
      assert LinkInv(sys.nodes, e, k');
      AnsweredSource(n, t, k, v, e, sys.nodes[e], k');
    }
    PutKeeps(sys, d, n');
  }

  lemma AnsweredSource<V>(s: Node<V>, t: nat, k: nat, v: V, d: nat, n: Node<V>, k': nat)
    requires t < |s.tasks| && Unanswered(s.tasks[t], k)
    requires Shape(n, d) && k' < |Sources(n.kind)| && Link(s, d, n, k')
    ensures Link(Answered(s, t, k, v), d, n, k')
  {
  }

  lemma ReplyKeeps<V>(sys: Sys<V>, i: nat, to: Requester, v: V)
    requires Inv(sys) && i < |sys.nodes| && SlotOk(sys.nodes, i, to)
    requires to.ByTask? ==> to.node in sys.nodes[i].subscribers
    requires StillHolds(sys.nodes[i], v)
    ensures Inv(Reply(sys, to, v))
  {
    if to.ByTask? && Unanswered(sys.nodes[to.node].tasks[to.task], to.slot) {
      ReplyTaskKeeps(sys, i, to.node, to.task, to.slot, v);
    } else if to.ByHandler? && Reply(sys, to, v) != sys {
      assert NodeInv(sys, to.node);
      QuietKeeps(sys, to.node, Reply(sys, to, v).nodes[to.node]);
    }
  }

  /** Answering and then taking the `Get` off the mailbox is what the handler does in the other order. */
  lemma ReplyCommutes<V>(sys: Sys<V>, i: nat, n': Node<V>, to: Requester, v: V)
    requires i < |sys.nodes| && !n'.phase.Answering? && !sys.nodes[i].phase.Answering?
    requires to.ByTask? ==> to.node != i
    ensures Reply(Put(sys, i, n'), to, v) == Put(Reply(sys, to, v), i, n')
  {
    if !to.Client? && to.node != i && to.node < |sys.nodes| {
      assert Put(sys, i, n').nodes[to.node] == sys.nodes[to.node];
      var m := Reply(sys, to, v).nodes[to.node];
      assert sys.nodes[i := n'][to.node := m] == sys.nodes[to.node := m][i := n'];
    }
  }

  /** A `Get` that finds a value. */
  lemma GetKeeps<V>(sys: Sys<V>, i: nat)
    requires Inv(sys) && Enabled(sys, Receive(i)) && sys.nodes[i].mailbox[0].Get? && sys.nodes[i].value.Some?
    ensures Inv(Reply(Put(sys, i, Popped(sys.nodes[i])), sys.nodes[i].mailbox[0].from, sys.nodes[i].value.value))
  {
    var n := sys.nodes[i];
    var to, v := n.mailbox[0].from, n.value.value;
    assert NodeInv(sys, i);
    AskerSubscribed(sys, i);
    if to.ByTask? {
      assert NodeInv(sys, to.node);
    }
    ReplyKeeps(sys, i, to, v);
    var replied := Reply(sys, to, v);
    assert replied.nodes[i] == n;
    assert Enabled(replied, Receive(i));
    AbsorbKeeps(replied, i);
    ReplyCommutes(sys, i, Popped(n), to, v);
  }

  lemma ReceiveKeeps<V>(sys: Sys<V>, i: nat)
    requires Inv(sys) && Enabled(sys, Receive(i))
    ensures Inv(Next(sys, Receive(i)))
  {
    var n := sys.nodes[i];
    var m := n.mailbox[0];
    if m.Get? && n.value.Some? {
      GetKeeps(sys, i);
    } else {
      SameStamps(sys.nodes, i, Popped(n), Sources(n.kind));
      AbsorbKeeps(sys, i);
      assert NodeInv(sys, i);
      assert Next(sys, Receive(i)) == Put(sys, i, Absorbed(sys.nodes, Popped(n), m));
    }
  }

  lemma AnswerKeeps<V>(sys: Sys<V>, i: nat)
    requires Inv(sys) && Enabled(sys, Answer(i))
    ensures Inv(Next(sys, Answer(i)))
  {
    var n := sys.nodes[i];
    assert NodeInv(sys, i);
    var v := Computed(n.kind, n.phase.snap);
    var n' := n.(held := n.held + [v], phase := Draining);
    QuietKeeps(sys, i, n');
    ReplyKeeps(Put(sys, i, n'), i, n.phase.to, v);
  }

  // ----- Notifying subscribers

  lemma NotifyAdvanceKeeps<V>(sys: Sys<V>, i: nat)
    requires Inv(sys) && Enabled(sys, NotifyNext(i))
    requires var to := sys.nodes[i].subscribers[sys.nodes[i].phase.next];
             to < |sys.nodes| ==> HasNotify(sys.nodes[to])
    ensures Inv(Put(sys, i, sys.nodes[i].(phase := Notifying(sys.nodes[i].phase.next + 1))))
  {
    var n := sys.nodes[i];
    var n' := n.(phase := Notifying(n.phase.next + 1));
    assert NodeInv(sys, i);
    if n.kind.Derived? {
      NotifiedUpdates(n, n');
    }
    forall k | 0 <= k < |Sources(n.kind)|
      ensures Link(sys.nodes[Sources(n.kind)[k]], i, n', k)
    {
      assert LinkInv(sys.nodes, i, k);
    }
    forall d, k | 0 <= d < |sys.nodes| && 0 <= k < |Sources(sys.nodes[d].kind)|
                  && Sources(sys.nodes[d].kind)[k] == i
      ensures Shape(sys.nodes[d], d) && Link(n', d, sys.nodes[d], k)
    {
      assert LinkInv(sys.nodes, d, k);
      NotifiedSource(n, d, sys.nodes[d], k);
    }
    PutKeeps(sys, i, n');
  }

  lemma NotifyNextKeeps<V>(sys: Sys<V>, i: nat)
    requires Inv(sys) && Enabled(sys, NotifyNext(i)) && !Next(sys, NotifyNext(i)).overflow
    ensures Inv(Next(sys, NotifyNext(i)))
  {
    var n := sys.nodes[i];
    var to := n.subscribers[n.phase.next];
    PostKeeps(sys, to, Notify);
    if to < |sys.nodes| {
      AppendLocal(sys.nodes[to], Notify);
    }
    NotifyAdvanceKeeps(Post(sys, to, Notify), i);
  }

  lemma NotifiedUpdates<V>(n: Node<V>, n': Node<V>)
    requires n.kind.Derived? && Updates(n) && n' == n.(phase := n'.phase)
    ensures Updates(n')
  {
    forall j | 0 <= j < |n'.mailbox|
      ensures UpdateOk(n', n'.mailbox[j])
    {
      assert UpdateOk(n, n.mailbox[j]);
    }
  }

  /** The subscriber just served has its `Notify` queued; the others are still ahead. */
  lemma NotifiedSource<V>(s: Node<V>, d: nat, n: Node<V>, k: nat)
    requires Shape(n, d) && k < |Sources(n.kind)| && Link(s, d, n, k)
    requires s.phase.Notifying? && s.phase.next < |s.subscribers|
    requires s.subscribers[s.phase.next] == d ==> HasNotify(n)
    ensures Link(s.(phase := Notifying(s.phase.next + 1)), d, n, k)
  {
    var s' := s.(phase := Notifying(s.phase.next + 1));
    if exists j | s.phase.next <= j < |s.subscribers| :: s.subscribers[j] == d {
      var j :| s.phase.next <= j < |s.subscribers| && s.subscribers[j] == d;
      if j > s.phase.next {
        assert s'.phase.next <= j < |s'.subscribers| && s'.subscribers[j] == d;
      }
    }
  }

  // ----- Recompute tasks and blocked handlers

  lemma TaskSendKeeps<V>(sys: Sys<V>, i: nat, t: nat)
    requires Inv(sys) && Enabled(sys, TaskSend(i, t)) && !Next(sys, TaskSend(i, t)).overflow
    ensures Inv(Next(sys, TaskSend(i, t)))
  {
    var n := sys.nodes[i];
    assert NodeInv(sys, i);
    var k := n.tasks[t].sent;
    var s := Sources(n.kind)[k];
    PostKeeps(sys, s, Get(ByTask(i, t, k)));
    var sent := Post(sys, s, Get(ByTask(i, t, k)));
    QuietKeeps(sent, i, n.(tasks := n.tasks[t := Asked(n.tasks[t])]));
  }

  lemma HandlerSendKeeps<V>(sys: Sys<V>, i: nat)
    requires Inv(sys) && Enabled(sys, HandlerSend(i)) && !Next(sys, HandlerSend(i)).overflow
    ensures Inv(Next(sys, HandlerSend(i)))
  {
    var n := sys.nodes[i];
    assert NodeInv(sys, i);
    var k := n.phase.snap.sent;
    var s := Sources(n.kind)[k];
    PostKeeps(sys, s, Get(ByHandler(i, k)));
    var sent := Post(sys, s, Get(ByHandler(i, k)));
    QuietKeeps(sent, i, n.(phase := n.phase.(snap := Asked(n.phase.snap))));
  }

  lemma HandedUpdates<V>(n: Node<V>, t: nat)
    requires n.kind.Derived? && Updates(n) && t < |n.tasks| && !n.tasks[t].done && Complete(n.tasks[t])
    ensures Updates(Handed(n, t))
    ensures Ordered(n) && (forall u | 0 <= u < t :: n.tasks[u].done) ==> Ordered(Handed(n, t))
  {
    var n' := Handed(n, t);
    var m := UpdateCache(t, Computed(n.kind, n.tasks[t]));
    LastUpdateAppend(n.mailbox, m, n.applied);
    assert Complete(n'.tasks[t]) && Computed(n.kind, n'.tasks[t]) == Computed(n.kind, n.tasks[t]);
    forall j | 0 <= j < |n'.mailbox|
      ensures UpdateOk(n', n'.mailbox[j])
    {
      if j < |n.mailbox| {
        assert UpdateOk(n, n.mailbox[j]);
      }
    }
  }

  lemma HandedReader<V>(s: Node<V>, d: nat, n: Node<V>, t: nat, k: nat)
    requires Shape(n, d) && k < |Sources(n.kind)| && Link(s, d, n, k)
    requires n.kind.Derived? && t < |n.tasks| && Complete(n.tasks[t])
    ensures Shape(Handed(n, t), d) && Link(s, d, Handed(n, t), k)
  {
    var n' := Handed(n, t);
    if HasNotify(n) {
      var j :| 0 <= j < |n.mailbox| && n.mailbox[j].Notify?;
      assert n'.mailbox[j].Notify?;
    }
    if HasRead(n', k) {
      var u :| 0 <= u < |n'.tasks| && k < |n'.tasks[u].replies| && n'.tasks[u].replies[k].Some?;
      assert n.tasks[u].replies[k].Some?;
    }
  }

  lemma HandedSource<V>(s: Node<V>, t: nat, d: nat, n: Node<V>, k: nat)
    requires s.kind.Derived? && t < |s.tasks| && Complete(s.tasks[t])
    requires Shape(n, d) && k < |Sources(n.kind)| && Link(s, d, n, k)
    ensures Link(Handed(s, t), d, n, k)
  {
    AppendLink(s, UpdateCache(t, Computed(s.kind, s.tasks[t])), d, n, k);
  }

  lemma HandedGets<V>(nodes: seq<Node<V>>, i: nat, t: nat)
    requires i < |nodes| && nodes[i].kind.Derived? && t < |nodes[i].tasks| && Complete(nodes[i].tasks[t])
    requires GetsOk(nodes, i)
    ensures GetsOk(nodes[i := Handed(nodes[i], t)], i)
  {
  }

  lemma DeliverKeeps<V>(sys: Sys<V>, i: nat, t: nat)
    requires Inv(sys) && Enabled(sys, Deliver(i, t)) && !Next(sys, Deliver(i, t)).overflow
    ensures Inv(Next(sys, Deliver(i, t)))
  {
    var n := sys.nodes[i];
    assert NodeInv(sys, i);
    var ordered := sys.inOrder && (forall u | 0 <= u < t :: n.tasks[u].done);
    var sys0 := sys.(inOrder := ordered);
    RelaxOrder(sys, ordered);
    HandedUpdates(n, t);
    HandedGets(sys.nodes, i, t);
    forall k | 0 <= k < |Sources(n.kind)|
      ensures Shape(Handed(n, t), i) && Link(sys.nodes[Sources(n.kind)[k]], i, Handed(n, t), k)
    {
      assert LinkInv(sys.nodes, i, k);
      HandedReader(sys.nodes[Sources(n.kind)[k]], i, n, t, k);
    }
    forall d, k | 0 <= d < |sys.nodes| && 0 <= k < |Sources(sys.nodes[d].kind)|
                  && Sources(sys.nodes[d].kind)[k] == i
      ensures Shape(sys.nodes[d], d) && Link(Handed(n, t), d, sys.nodes[d], k)
    {
      assert LinkInv(sys.nodes, d, k);
      HandedSource(n, t, d, sys.nodes[d], k);
    }
    PutKeeps(sys0, i, Handed(n, t));
  }

  lemma RelaxOrder<V>(sys: Sys<V>, ordered: bool)
    requires Inv(sys) && (ordered ==> sys.inOrder)
    ensures Inv(sys.(inOrder := ordered))
  {
    var sys' := sys.(inOrder := ordered);
    forall i | 0 <= i < |sys'.nodes|
      ensures NodeInv(sys', i)
    {
      assert NodeInv(sys, i);
    }
    forall d, k | 0 <= d < |sys'.nodes| && 0 <= k < |Sources(sys'.nodes[d].kind)|
      ensures LinkInv(sys'.nodes, d, k)
    {
      assert LinkInv(sys.nodes, d, k);
    }
  }

  // ----- All steps, all runs

  lemma StepKeeps<V>(sys: Sys<V>, a: Action<V>)
    requires Inv(sys) && Enabled(sys, a) && !Next(sys, a).overflow
    ensures Inv(Next(sys, a))
  {
    if !a.ClientSend? {
      assert NodeInv(sys, a.i);
    }
    match a
    case ClientSend(to, m) => PostKeeps(sys, to, m);
    case SubscribeNext(i) => SubscribeNextKeeps(sys, i);
    case EnterLoop(i) => EnterLoopKeeps(sys, i);
    case Receive(i) => ReceiveKeeps(sys, i);
    case Drained(i) => QuietKeeps(sys, i, Next(sys, a).nodes[i]);
    case RunIdle(i) => QuietKeeps(sys, i, Next(sys, a).nodes[i]);
    case NotifyNext(i) => NotifyNextKeeps(sys, i);
    case NotifyDone(i) => QuietKeeps(sys, i, Next(sys, a).nodes[i]);
    case TaskSend(i, t) => TaskSendKeeps(sys, i, t);
    case HandlerSend(i) => HandlerSendKeeps(sys, i);
    case Deliver(i, t) => DeliverKeeps(sys, i, t);
    case Answer(i) => AnswerKeeps(sys, i);
  }

  lemma InitInv<V>(sys: Sys<V>)
    requires Init(sys)
    ensures Inv(sys)
  {
    forall i | 0 <= i < |sys.nodes|
      ensures NodeInv(sys, i)
    {
      assert Fresh(sys.nodes[i], i);
    }
    forall d, k | 0 <= d < |sys.nodes| && 0 <= k < |Sources(sys.nodes[d].kind)|
      ensures LinkInv(sys.nodes, d, k)
    {
      assert Fresh(sys.nodes[d], d);
    }
  }

  /** An overflow is never forgotten. */
  lemma OverflowStays<V>(sys: Sys<V>, a: Action<V>)
    requires Enabled(sys, a) && sys.overflow
    ensures Next(sys, a).overflow
  {
  }

  lemma {:induction false} RunKeeps<V>(sys: Sys<V>, acts: seq<Action<V>>)
    requires Inv(sys) && Legal(sys, acts) && !Exec(sys, acts).overflow
    ensures Inv(Exec(sys, acts))
    decreases |acts|
  {
    if acts != [] {
      var before := acts[..|acts| - 1];
      if Exec(sys, before).overflow {
        OverflowStays(Exec(sys, before), acts[|acts| - 1]);
      }
      RunKeeps(sys, before);
      StepKeeps(Exec(sys, before), acts[|acts| - 1]);
    }
  }

  /** Every system some run leads to, without an overflow on the way, satisfies the invariant. */
  lemma ReachableInv<V(!new)>(sys: Sys<V>)
    requires Reachable(sys) && !sys.overflow
    ensures Inv(sys)
  {
    var init: Sys<V>, acts :| Init(init) && Legal(init, acts) && Exec(init, acts) == sys;
    InitInv(init);
    RunKeeps(init, acts);
  }
}
