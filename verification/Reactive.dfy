/**
 A network of `StateActor`s and `DerivedActor`s (crates/actor/src/state.rs, crates/actor/src/derived.rs),
 each driven by the mailbox loop of crates/actor/src/mailbox.rs, as a deterministic step system.

 A run is a sequence of actions chosen by an arbitrary scheduler.  Every actor, every detached recompute
 task, every blocked `Get` handler and every client may take a step at any moment, so a statement about all
 runs is a statement about all interleavings.

 A node's sources carry smaller numbers than the node itself: `derived` needs the `StateRef`s of its sources
 before it can build a new node, so the sources of a node always exist first.
 */
module Reactive {
  import opened Options

  /** `StateActor` or `DerivedActor`; a tuple source is a sequence of node numbers. */
  datatype Kind<!V> = Source | Derived(sources: seq<nat>, selector: seq<V> -> V)

  /** Where the answer to a `Get` goes: nowhere we track, to a recompute task, or to a blocked `Get` handler. */
  datatype Requester = Client | ByTask(node: nat, task: nat, slot: nat) | ByHandler(node: nat, slot: nat)

  /** `UpdateCache` carries the number of the recompute that sent it as history; the handler ignores it. */
  datatype Msg<!V> =
    | Notify
    | Subscribe(who: nat)
    | Get(from: Requester)
    | Set(v: V)
    | Mutate(f: V -> V)
    | UpdateCache(task: nat, v: V)

  /**
   One `snapshot()` in progress: `sent` sources have been asked, `replies` are the answers so far.
   `since[k]` is history: the number of the first value of source k that can be an answer, the one it held when the
   snapshot was started or, if it held none, the next one.
   */
  datatype Task<V> = Task(sent: nat, replies: seq<Option<V>>, since: seq<nat>, done: bool)

  /**
   Where the actor is: inside `started` (that many subscriptions sent), blocked in `recv`, in the drain loop,
   about to call `idle`, inside `idle` (that many subscribers served), or blocked inside a `Get` handler that
   found the cache empty.
   */
  datatype Phase<V> =
    | Starting(subscribed: nat)
    | Waiting
    | Draining
    | Idle
    | Notifying(next: nat)
    | Answering(to: Requester, snap: Task<V>)

  /**
   `value` is `state` of a `StateActor` and `cached` of a `DerivedActor`.  The fields from `held` on are history:
   every value the node stood for, the recomputes last applied to and last delivered to the cache, the number of
   times the value changed, and the number of times `idle` found the node dirty.
   */
  datatype Node<!V> = Node(
    kind: Kind<V>, phase: Phase<V>, mailbox: seq<Msg<V>>,
    value: Option<V>, dirty: bool, subscribers: seq<nat>, tasks: seq<Task<V>>,
    held: seq<V>, applied: Option<nat>, delivered: Option<nat>, changes: nat, rounds: nat)

  /**
   `overflow` records that some send found a full mailbox; `inOrder` that every task so far handed over its
   `UpdateCache` after all tasks its node had spawned earlier.
   */
  datatype Sys<!V> = Sys(nodes: seq<Node<V>>, capacity: nat, overflow: bool, inOrder: bool)

  datatype Action<!V> =
    | ClientSend(to: nat, m: Msg<V>)
    | SubscribeNext(i: nat)
    | EnterLoop(i: nat)
    | Receive(i: nat)
    | Drained(i: nat)
    | RunIdle(i: nat)
    | NotifyNext(i: nat)
    | NotifyDone(i: nat)
    | TaskSend(i: nat, t: nat)
    | HandlerSend(i: nat)
    | Deliver(i: nat, t: nat)
    | Answer(i: nat)

  // ----- Snapshots and selectors

  ghost function Sources<V>(kind: Kind<V>): (r: seq<nat>) {
    if kind.Source? then [] else kind.sources
  }

  ghost predicate Complete<V>(task: Task<V>) {
    forall k | 0 <= k < |task.replies| :: task.replies[k].Some?
  }

  ghost function Values<V>(replies: seq<Option<V>>): (r: seq<V>)
    requires forall k | 0 <= k < |replies| :: replies[k].Some?
  {
    seq(|replies|, k requires 0 <= k < |replies| => replies[k].value)
  }

  /** The value a task sends in its `UpdateCache`. */
  ghost function Computed<V>(kind: Kind<V>, task: Task<V>): V
    requires kind.Derived? && Complete(task)
  {
    kind.selector(Values(task.replies))
  }

  /** The number of the value a node stands for, counting every value it ever stood for from 1. */
  ghost function Latest<V>(n: Node<V>): nat {
    if n.value.Some? then |n.held| else |n.held| + 1
  }

  ghost function NewTask<V>(nodes: seq<Node<V>>, sources: seq<nat>): Task<V> {
    Task(0,
         seq(|sources|, k => None),
         seq(|sources|, k requires 0 <= k < |sources| =>
           if sources[k] < |nodes| then Latest(nodes[sources[k]]) else 0),
         false)
  }

  // ----- Mailboxes (the native channel: FIFO, a send to a full mailbox fails)

  ghost predicate Accepts<V>(sys: Sys<V>, to: nat) {
    to < |sys.nodes| ==> |sys.nodes[to].mailbox| < sys.capacity
  }

  /** `do_send`; a recipient outside the network is some other actor and is not tracked. */
  ghost function Post<V>(sys: Sys<V>, to: nat, m: Msg<V>): Sys<V> {
    if to >= |sys.nodes| then sys
    else if Accepts(sys, to) then
      sys.(nodes := sys.nodes[to := sys.nodes[to].(mailbox := sys.nodes[to].mailbox + [m])])
    else sys.(overflow := true)
  }

  ghost function Put<V>(sys: Sys<V>, i: nat, n: Node<V>): Sys<V>
    requires i < |sys.nodes|
  {
    sys.(nodes := sys.nodes[i := n])
  }

  ghost predicate Unanswered<V>(task: Task<V>, k: nat) {
    k < |task.replies| && task.replies[k].None?
  }

  /** The answer to an `ask(Get)` reaches whoever awaits it; its one-shot channel takes one answer. */
  ghost function Reply<V>(sys: Sys<V>, to: Requester, v: V): Sys<V> {
    match to
    case Client => sys
    case ByTask(d, t, k) =>
      if d < |sys.nodes| && t < |sys.nodes[d].tasks| && Unanswered(sys.nodes[d].tasks[t], k) then
        Put(sys, d, Answered(sys.nodes[d], t, k, v))
      else sys
    case ByHandler(d, k) =>
      if d < |sys.nodes| && sys.nodes[d].phase.Answering? && Unanswered(sys.nodes[d].phase.snap, k) then
        var n := sys.nodes[d];
        Put(sys, d, n.(phase := n.phase.(snap := n.phase.snap.(replies := n.phase.snap.replies[k := Some(v)]))))
      else sys
  }

  ghost function Answered<V>(n: Node<V>, t: nat, k: nat, v: V): Node<V>
    requires t < |n.tasks| && k < |n.tasks[t].replies|
  {
    n.(tasks := n.tasks[t := n.tasks[t].(replies := n.tasks[t].replies[k := Some(v)])])
  }

  // ----- Handlers

  /** `Set`/`Mutate` of a `StateActor`: always dirty. */
  ghost function Stored<V>(n: Node<V>, v: V): Node<V> {
    n.(value := Some(v), dirty := true, held := n.held + [v], changes := n.changes + 1)
  }

  /** `UpdateCache` of a `DerivedActor`: dirty only when the value differs. */
  ghost function Cached<V>(n: Node<V>, task: nat, v: V): Node<V> {
    var m := n.(applied := Some(task));
    if n.value == Some(v) then m else Stored(m, v)
  }

  /** `Notify` of a `DerivedActor`: spawn a detached recompute. */
  ghost function Spawned<V>(nodes: seq<Node<V>>, n: Node<V>): Node<V> {
    n.(tasks := n.tasks + [NewTask(nodes, Sources(n.kind))])
  }

  /** Node `i` handles `m`, already taken off its mailbox.  Messages the actor has no handler for do nothing. */
  ghost function Handle<V>(sys: Sys<V>, i: nat, m: Msg<V>): Sys<V>
    requires i < |sys.nodes|
  {
    var n := sys.nodes[i];
    match m
    case Notify => if n.kind.Derived? then Put(sys, i, Spawned(sys.nodes, n)) else sys
    case Subscribe(who) => Put(sys, i, n.(subscribers := n.subscribers + [who]))
    case Set(v) => if n.kind.Source? then Put(sys, i, Stored(n, v)) else sys
    case Mutate(f) =>
      if n.kind.Source? && n.value.Some? then Put(sys, i, Stored(n, f(n.value.value))) else sys
    case UpdateCache(t, v) => if n.kind.Derived? then Put(sys, i, Cached(n, t, v)) else sys
    case Get(from) =>
      if n.value.Some? then Reply(sys, from, n.value.value)
      else if n.kind.Derived? then
        Put(sys, i, n.(phase := Answering(from, NewTask(sys.nodes, n.kind.sources))))
      else sys
  }

  // ----- Steps

  ghost predicate ClientMay<V>(sys: Sys<V>, to: nat, m: Msg<V>) {
    match m
    case Set(_) => true
    case Mutate(_) => true
    case Get(from) => from.Client?
    case Subscribe(_) => true
    case _ => false
  }

  ghost predicate Enabled<V>(sys: Sys<V>, a: Action<V>) {
    if a.ClientSend? then a.to < |sys.nodes| && ClientMay(sys, a.to, a.m)
    else
      a.i < |sys.nodes| &&
      var n := sys.nodes[a.i];
      match a
      case SubscribeNext(_) => n.phase.Starting? && n.phase.subscribed < |Sources(n.kind)|
      case EnterLoop(_) => n.phase.Starting? && n.phase.subscribed >= |Sources(n.kind)|
      case Receive(_) => (n.phase.Waiting? || n.phase.Draining?) && n.mailbox != []
      case Drained(_) => n.phase.Draining? && n.mailbox == []
      case RunIdle(_) => n.phase.Idle?
      case NotifyNext(_) => n.phase.Notifying? && n.phase.next < |n.subscribers|
      case NotifyDone(_) => n.phase.Notifying? && n.phase.next >= |n.subscribers|
      case TaskSend(_, t) => t < |n.tasks| && n.tasks[t].sent < |Sources(n.kind)|
      case HandlerSend(_) => n.phase.Answering? && n.phase.snap.sent < |Sources(n.kind)|
      case Deliver(_, t) => n.kind.Derived? && t < |n.tasks| && !n.tasks[t].done && Complete(n.tasks[t])
      case Answer(_) => n.kind.Derived? && n.phase.Answering? && Complete(n.phase.snap)
  }

  ghost function Popped<V>(n: Node<V>): Node<V>
    requires n.mailbox != []
  {
    n.(mailbox := n.mailbox[1..], phase := Draining)
  }

  ghost function Handed<V>(n: Node<V>, t: nat): Node<V>
    requires n.kind.Derived? && t < |n.tasks| && Complete(n.tasks[t])
  {
    n.(tasks := n.tasks[t := n.tasks[t].(done := true)], delivered := Some(t),
       mailbox := n.mailbox + [UpdateCache(t, Computed(n.kind, n.tasks[t]))])
  }

  ghost function Asked<V>(task: Task<V>): Task<V> {
    task.(sent := task.sent + 1)
  }

  ghost function Next<V>(sys: Sys<V>, a: Action<V>): Sys<V>
    requires Enabled(sys, a)
  {
    if a.ClientSend? then Post(sys, a.to, a.m)
    else
      var i := a.i;
      var n := sys.nodes[i];
      match a
      case SubscribeNext(_) =>
        var sent := Post(sys, Sources(n.kind)[n.phase.subscribed], Subscribe(i));
        var m := sent.nodes[i];
        Put(sent, i, m.(phase := Starting(n.phase.subscribed + 1)))
      case EnterLoop(_) =>
        Put(sys, i, if n.kind.Source? then n.(phase := Waiting) else Spawned(sys.nodes, n).(phase := Waiting))
      case Receive(_) =>
        Handle(Put(sys, i, Popped(n)), i, n.mailbox[0])
      case Drained(_) =>
        Put(sys, i, n.(phase := Idle))
      case RunIdle(_) =>
        Put(sys, i, if n.dirty then n.(dirty := false, rounds := n.rounds + 1, phase := Notifying(0))
                    else n.(phase := Waiting))
      case NotifyNext(_) =>
        var k := n.phase.next;
        var sent := Post(sys, n.subscribers[k], Notify);
        var m := sent.nodes[i];
        if Accepts(sys, n.subscribers[k]) then Put(sent, i, m.(phase := Notifying(k + 1)))
        else Put(sent, i, m.(subscribers := n.subscribers[..k] + n.subscribers[k + 1..]))
      case NotifyDone(_) =>
        Put(sys, i, n.(phase := Waiting))
      case TaskSend(_, t) =>
        var k := n.tasks[t].sent;
        var sent := Post(sys, Sources(n.kind)[k], Get(ByTask(i, t, k)));
        var m := sent.nodes[i];
        Put(sent, i, m.(tasks := m.tasks[t := Asked(m.tasks[t])]))
      case HandlerSend(_) =>
        var k := n.phase.snap.sent;
        var sent := Post(sys, Sources(n.kind)[k], Get(ByHandler(i, k)));
        var m := sent.nodes[i];
        Put(sent, i, m.(phase := n.phase.(snap := Asked(n.phase.snap))))
      case Deliver(_, t) =>
        var ordered := sys.inOrder && (forall u | 0 <= u < t :: n.tasks[u].done);
        if Accepts(sys, i) then Put(sys, i, Handed(n, t)).(inOrder := ordered)
        else Put(sys, i, n.(tasks := n.tasks[t := n.tasks[t].(done := true)])).(overflow := true, inOrder := ordered)
      case Answer(_) =>
        var v := Computed(n.kind, n.phase.snap);
        Reply(Put(sys, i, n.(held := n.held + [v], phase := Draining)), n.phase.to, v)
  }

  // ----- Runs

  ghost predicate Fresh<V>(n: Node<V>, i: nat) {
    && n.phase == Starting(0) && n.mailbox == [] && !n.dirty && n.subscribers == [] && n.tasks == []
    && (n.kind.Source? ==> n.value.Some? && n.held == [n.value.value])
    && (n.kind.Derived? ==> n.value.None? && n.held == [])
    && n.applied.None? && n.delivered.None? && n.changes == 0 && n.rounds == 0
    && forall k | 0 <= k < |Sources(n.kind)| :: Sources(n.kind)[k] < i
  }

  ghost predicate Init<V>(sys: Sys<V>) {
    && !sys.overflow && sys.inOrder
    && forall i | 0 <= i < |sys.nodes| :: Fresh(sys.nodes[i], i)
  }

  /** The actions can be taken one after the other. */
  ghost predicate Legal<V>(sys: Sys<V>, acts: seq<Action<V>>)
    decreases |acts|, 0
  {
    acts == [] ||
    (Legal(sys, acts[..|acts| - 1]) && Enabled(Exec(sys, acts[..|acts| - 1]), acts[|acts| - 1]))
  }

  ghost function Exec<V>(sys: Sys<V>, acts: seq<Action<V>>): Sys<V>
    requires Legal(sys, acts)
    decreases |acts|, 1
  {
    if acts == [] then sys else Next(Exec(sys, acts[..|acts| - 1]), acts[|acts| - 1])
  }

  /** `sys` is the end of some run from an initial system. */
  ghost predicate Reachable<V(!new)>(sys: Sys<V>) {
    exists init: Sys<V>, acts :: Init(init) && Legal(init, acts) && Exec(init, acts) == sys
  }
}
