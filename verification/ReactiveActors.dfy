/**
 `StateActor` and `DerivedActor` as they are written: objects updated in place by their handlers.
 Each handler takes a system and the number of the node that the object shows, and shows what `Handle` of the step
 system makes of that node afterwards.
 */
module ReactiveActors {
  import opened Options
  import opened Reactive
  import opened Retaining

  // ----- The notification walk of `idle`

  /** The walk of node `i` is where it was. */
  ghost predicate SameWalk<V>(sys: Sys<V>, sys': Sys<V>, i: nat) {
    && i < |sys.nodes| && i < |sys'.nodes|
    && sys'.nodes[i].phase == sys.nodes[i].phase && sys'.nodes[i].subscribers == sys.nodes[i].subscribers
  }

  lemma PostUndisturbed<V>(sys: Sys<V>, to: nat, m: Msg<V>, i: nat)
    requires i < |sys.nodes|
    ensures SameWalk(sys, Post(sys, to, m), i) && |Post(sys, to, m).nodes| == |sys.nodes|
  {
  }

  lemma SendUndisturbed<V>(sys: Sys<V>, a: Action<V>, i: nat)
    requires i < |sys.nodes| && sys.nodes[i].phase.Notifying? && Enabled(sys, a)
    requires a.ClientSend? || a.SubscribeNext? || a.TaskSend? || a.HandlerSend? || (a.NotifyNext? && a.i != i)
    ensures SameWalk(sys, Next(sys, a), i)
  {
    match a
    case ClientSend(to, m) => PostUndisturbed(sys, to, m, i);
    case SubscribeNext(j) =>
      var k := sys.nodes[j].phase.subscribed;
      PostUndisturbed(sys, Sources(sys.nodes[j].kind)[k], Subscribe(j), i);
    case NotifyNext(j) => PostUndisturbed(sys, sys.nodes[j].subscribers[sys.nodes[j].phase.next], Notify, i);
    case HandlerSend(j) =>
      var k := sys.nodes[j].phase.snap.sent;
      PostUndisturbed(sys, Sources(sys.nodes[j].kind)[k], Get(ByHandler(j, k)), i);
    case TaskSend(j, t) =>
      var k := sys.nodes[j].tasks[t].sent;
      PostUndisturbed(sys, Sources(sys.nodes[j].kind)[k], Get(ByTask(j, t, k)), i);
  }

  lemma ReplyUndisturbed<V>(sys: Sys<V>, to: Requester, v: V, i: nat)
    requires i < |sys.nodes| && sys.nodes[i].phase.Notifying?
    ensures SameWalk(sys, Reply(sys, to, v), i)
  {
  }

  lemma HandleUndisturbed<V>(sys: Sys<V>, j: nat, m: Msg<V>, i: nat)
    requires i < |sys.nodes| && j < |sys.nodes| && i != j && sys.nodes[i].phase.Notifying?
    ensures SameWalk(sys, Handle(sys, j, m), i)
  {
  }

  /** Steps of anyone else leave the walk of node `i` where it is. */
  lemma WalkUndisturbed<V>(sys: Sys<V>, a: Action<V>, i: nat)
    requires i < |sys.nodes| && sys.nodes[i].phase.Notifying? && Enabled(sys, a)
    requires a != NotifyNext(i) && a != NotifyDone(i)
    ensures SameWalk(sys, Next(sys, a), i)
  {
    match a
    case Receive(j) => HandleUndisturbed(Put(sys, j, Popped(sys.nodes[j])), j, sys.nodes[j].mailbox[0], i);
    case Answer(j) =>
      var n := sys.nodes[j];
      var v := Computed(n.kind, n.phase.snap);
      ReplyUndisturbed(Put(sys, j, n.(held := n.held + [v], phase := Draining)), n.phase.to, v, i);
    case ClientSend(_, _) => SendUndisturbed(sys, a, i);
    case SubscribeNext(_) => SendUndisturbed(sys, a, i);
    case TaskSend(_, _) => SendUndisturbed(sys, a, i);
    case HandlerSend(_) => SendUndisturbed(sys, a, i);
    case NotifyNext(_) => SendUndisturbed(sys, a, i);
    case _ =>
  }

  lemma NotifyMoves<V>(sys: Sys<V>, i: nat)
    requires Enabled(sys, NotifyNext(i))
    ensures var n, n' := sys.nodes[i], Next(sys, NotifyNext(i)).nodes[i];
            var k := n.phase.next;
            if Accepts(sys, n.subscribers[k]) then n'.subscribers == n.subscribers && n'.phase == Notifying(k + 1)
            else n'.subscribers == RemoveAt(n.subscribers, k) && n'.phase == Notifying(k)
  {
  }

  /** One step of the walk: the subscriber stays exactly when its mailbox took the message. */
  lemma NotifyDecides<V>(sys: Sys<V>, i: nat, subs: seq<nat>, kept: seq<bool>)
    requires Enabled(sys, NotifyNext(i)) && MidWalk(subs, kept, sys.nodes[i].subscribers, sys.nodes[i].phase.next)
    ensures |kept| < |subs|
    ensures var n' := Next(sys, NotifyNext(i)).nodes[i];
            n'.phase.Notifying? && MidWalk(subs, kept + [Accepts(sys, subs[|kept|])], n'.subscribers, n'.phase.next)
  {
    var n := sys.nodes[i];
    var k := n.phase.next;
    NotifyMoves(sys, i);
    if Accepts(sys, n.subscribers[k]) {
      WalkKeeps(subs, kept, n.subscribers, k);
    } else {
      WalkRemoves(subs, kept, n.subscribers, k);
    }
  }

  /** Whatever the rest of the system does meanwhile, the walk has decided about a prefix of the old list. */
  lemma {:induction false} WalkIsRetain<V>(sys: Sys<V>, acts: seq<Action<V>>, i: nat) returns (kept: seq<bool>)
    requires Legal(sys, acts) && i < |sys.nodes| && sys.nodes[i].phase == Notifying(0)
    requires forall k | 0 <= k < |acts| :: acts[k] != NotifyDone(i)
    ensures i < |Exec(sys, acts).nodes| && Exec(sys, acts).nodes[i].phase.Notifying?
    ensures MidWalk(sys.nodes[i].subscribers, kept,
                    Exec(sys, acts).nodes[i].subscribers, Exec(sys, acts).nodes[i].phase.next)
    decreases |acts|
  {
    if acts == [] {
      kept := [];
    } else {
      var before, a := acts[..|acts| - 1], acts[|acts| - 1];
      kept := WalkIsRetain(sys, before, i);
      var now := Exec(sys, before);
      if a == NotifyNext(i) {
        NotifyDecides(now, i, sys.nodes[i].subscribers, kept);
        kept := kept + [Accepts(now, sys.nodes[i].subscribers[|kept|])];
      } else {
        WalkUndisturbed(now, a, i);
      }
    }
  }

  /** A whole `idle` walk leaves of the list what `retain` leaves of it, for the sends that succeeded. */
  lemma FinishedWalk<V>(sys: Sys<V>, acts: seq<Action<V>>, i: nat) returns (kept: seq<bool>)
    requires Legal(sys, acts) && i < |sys.nodes| && sys.nodes[i].phase == Notifying(0)
    requires forall k | 0 <= k < |acts| :: acts[k] != NotifyDone(i)
    requires Enabled(Exec(sys, acts), NotifyDone(i))
    ensures |kept| == |sys.nodes[i].subscribers|
    ensures Next(Exec(sys, acts), NotifyDone(i)).nodes[i].subscribers == Surviving(sys.nodes[i].subscribers, kept)
  {
    kept := WalkIsRetain(sys, acts, i);
    var n := Exec(sys, acts).nodes[i];
    WalkEnds(sys.nodes[i].subscribers, kept, n.subscribers, n.phase.next);
  }

  // ----- Objects

  class StateActor<V> {
    var state: V
    var dirty: bool
    var subscribers: seq<nat>

    ghost predicate Shows(n: Node<V>)
      reads this
    {
      n.kind.Source? && n.value == Some(state) && n.dirty == dirty && n.subscribers == subscribers
    }

    constructor (initial: V)
      ensures state == initial && !dirty && subscribers == []
    {
      state, dirty, subscribers := initial, false, [];
    }

    method HandleGet(ghost sys: Sys<V>, ghost i: nat, ghost from: Requester) returns (v: V)
      requires i < |sys.nodes| && Shows(sys.nodes[i])
      ensures v == state && Handle(sys, i, Get(from)) == Reply(sys, from, v)
    {
      v := state;
    }

    method HandleSet(v: V, ghost sys: Sys<V>, ghost i: nat)
      requires i < |sys.nodes| && Shows(sys.nodes[i])
      modifies this
      ensures Shows(Handle(sys, i, Set(v)).nodes[i])
      ensures state == v && dirty && subscribers == old(subscribers)
    {
      state := v;
      dirty := true;
    }

    /** The closure changes the state and returns something to whoever sent it. */
    method HandleMutate<R>(f: V -> (V, R), ghost sys: Sys<V>, ghost i: nat) returns (result: R)
      requires i < |sys.nodes| && Shows(sys.nodes[i])
      modifies this
      ensures Shows(Handle(sys, i, Mutate(v => f(v).0)).nodes[i])
      ensures (state, result) == f(old(state)) && dirty && subscribers == old(subscribers)
    {
      var changed := f(state);
      state, result := changed.0, changed.1;
      dirty := true;
    }

    method HandleSubscribe(who: nat, ghost sys: Sys<V>, ghost i: nat)
      requires i < |sys.nodes| && Shows(sys.nodes[i])
      modifies this
      ensures Shows(Handle(sys, i, Subscribe(who)).nodes[i])
      ensures subscribers == old(subscribers) + [who] && state == old(state) && dirty == old(dirty)
    {
      subscribers := subscribers + [who];
    }

    /** `taken[j]` is the result of the send to subscriber `j`; `notified` lists the sends that were made. */
    method Idle(taken: seq<bool>, ghost n: Node<V>) returns (notified: seq<nat>)
      requires Shows(n) && |taken| == |subscribers|
      modifies this
      ensures !old(dirty) ==> notified == [] && Shows(n)
      ensures old(dirty) ==> notified == old(subscribers)
      ensures old(dirty) ==> Shows(n.(dirty := false, subscribers := Surviving(n.subscribers, taken)))
    {
      notified := [];
      if dirty {
        dirty := false;
        notified := subscribers;
        subscribers := Retain(subscribers, taken);
      }
    }
  }

  class DerivedActor<V(==)> {
    const sources: seq<nat>
    const selector: seq<V> -> V
    var cached: Option<V>
    var dirty: bool
    var subscribers: seq<nat>
    /** How many recompute tasks this actor has spawned. */
    var spawned: nat

    ghost predicate Shows(n: Node<V>)
      reads this
    {
      && n.kind == Derived(sources, selector) && n.value == cached && n.dirty == dirty
      && n.subscribers == subscribers && |n.tasks| == spawned
    }

    constructor (sources: seq<nat>, selector: seq<V> -> V)
      ensures this.sources == sources && this.selector == selector
      ensures cached.None? && !dirty && subscribers == [] && spawned == 0
    {
      this.sources, this.selector := sources, selector;
      cached, dirty, subscribers, spawned := None, false, [], 0;
    }

    /** Subscribe to every source first, then spawn the first recompute. */
    method Started(ghost nodes: seq<Node<V>>, ghost n: Node<V>) returns (asked: seq<nat>)
      requires Shows(n)
      modifies this
      ensures asked == Sources(n.kind) && Shows(Spawned(nodes, n))
    {
      asked := [];
      for k := 0 to |sources|
        invariant asked == sources[..k] && Shows(n)
      {
        asked := asked + [sources[k]];
      }
      spawned := spawned + 1;
    }

    method HandleNotify(ghost sys: Sys<V>, ghost i: nat)
      requires i < |sys.nodes| && Shows(sys.nodes[i])
      modifies this
      ensures Shows(Handle(sys, i, Notify).nodes[i])
      ensures spawned == old(spawned) + 1 && cached == old(cached) && dirty == old(dirty)
    {
      spawned := spawned + 1;
    }

    method HandleUpdateCache(v: V, ghost task: nat, ghost sys: Sys<V>, ghost i: nat)
      requires i < |sys.nodes| && Shows(sys.nodes[i])
      modifies this
      ensures Shows(Handle(sys, i, UpdateCache(task, v)).nodes[i])
      ensures cached == Some(v) && (dirty <==> old(dirty) || old(cached) != Some(v))
    {
      var changed := match cached case Some(c) => c != v case None => true;
      if changed {
        cached := Some(v);
        dirty := true;
      }
    }

    method HandleSubscribe(who: nat, ghost sys: Sys<V>, ghost i: nat)
      requires i < |sys.nodes| && Shows(sys.nodes[i])
      modifies this
      ensures Shows(Handle(sys, i, Subscribe(who)).nodes[i])
      ensures subscribers == old(subscribers) + [who] && cached == old(cached) && dirty == old(dirty)
    {
      subscribers := subscribers + [who];
    }

    /** The cached value; without one the handler goes on to take a snapshot. */
    method HandleGet(ghost sys: Sys<V>, ghost i: nat, ghost from: Requester) returns (v: Option<V>)
      requires i < |sys.nodes| && Shows(sys.nodes[i])
      ensures v == cached
      ensures if v.Some? then Handle(sys, i, Get(from)) == Reply(sys, from, v.value)
              else Handle(sys, i, Get(from)).nodes[i].phase == Answering(from, NewTask(sys.nodes, sources))
    {
      v := cached;
    }

    method Idle(taken: seq<bool>, ghost n: Node<V>) returns (notified: seq<nat>)
      requires Shows(n) && |taken| == |subscribers|
      modifies this
      ensures !old(dirty) ==> notified == [] && Shows(n)
      ensures old(dirty) ==> notified == old(subscribers)
      ensures old(dirty) ==> Shows(n.(dirty := false, subscribers := Surviving(n.subscribers, taken)))
    {
      notified := [];
      if dirty {
        dirty := false;
        notified := subscribers;
        subscribers := Retain(subscribers, taken);
      }
    }
  }
}
