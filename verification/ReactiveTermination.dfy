/**
 Left to itself, a reactive network comes to rest, whoever is subscribed to whom: a run in which no client takes part
 is finite, and its length is bounded by a number that can be read off the system it starts from.

 Every message, task and half-done phase is charged in advance for everything it can cause before some value changes;
 a change brings a new charge, and how often values can change is bounded by what is stale.
 */
module ReactiveTermination {
  import opened Options
  import opened Collections
  import opened Countdown
  import opened Reactive
  import opened ReactiveSteps
  import opened ReactiveProgress
  import opened ReactiveProvenance
  import opened ReactiveStaleness
  import opened ReactiveTheorems

  /** How many nodes there are, how many sources a node has at most, how many subscriptions there are in all. */
  datatype Size = Size(nodes: nat, sources: nat, subscriptions: nat)

  // ----- What a message can cause

  /** A `Get` at node i: handling it, and on an empty cache a question to each source below. */
  ghost function GetCost(z: Size, i: nat): nat {
    5 + if i == 0 then 0 else Times(1 + GetCost(z, i - 1), z.sources)
  }

  /** A question of a recompute to one source. */
  ghost function AskCost(z: Size): nat {
    1 + GetCost(z, z.nodes)
  }

  /** A `Notify`: a recompute. */
  ghost function NotifyCost(z: Size): nat {
    9 + Times(AskCost(z), z.sources)
  }

  /** A round of notifications. */
  ghost function RoundCost(z: Size): nat {
    Times(1 + NotifyCost(z), z.subscriptions)
  }

  lemma {:induction false} GetCostGrows(z: Size, i: nat, j: nat)
    requires i <= j
    ensures GetCost(z, i) <= GetCost(z, j)
    decreases j
  {
    if i < j {
      GetCostGrows(z, i, j - 1);
      GetCostStep(z, j - 1);
    }
  }

  lemma {:induction false} GetCostStep(z: Size, i: nat)
    ensures GetCost(z, i) <= GetCost(z, i + 1)
  {
    if i > 0 {
      GetCostStep(z, i - 1);
      TimesScales(1 + GetCost(z, i - 1), 1 + GetCost(z, i), z.sources);
    }
  }

  ghost function MsgCost<V>(z: Size, i: nat, m: Msg<V>): nat {
    match m
    case Notify => NotifyCost(z)
    case Subscribe(_) => 4
    case Get(_) => GetCost(z, i)
    case _ => 4
  }

  ghost function MsgCosts<V>(z: Size, i: nat): Msg<V> -> nat {
    (m: Msg<V>) => MsgCost(z, i, m)
  }

  // ----- What else a node can still do

  ghost function Left(all: nat, done: nat): nat {
    if done < all then all - done else 0
  }

  ghost function TaskCost<V>(z: Size, i: nat, m: nat, task: Task<V>): nat {
    Times(AskCost(z), Left(m, task.sent)) + if task.done then 0 else 5
  }

  ghost function TaskCosts<V>(z: Size, i: nat, m: nat): Task<V> -> nat {
    (task: Task<V>) => TaskCost(z, i, m, task)
  }

  /** For a node with m sources and n subscribers. */
  ghost function PhaseCost<V>(z: Size, i: nat, m: nat, n: nat, phase: Phase<V>): nat {
    match phase
    case Starting(k) => 5 * Left(m, k) + 6 + Times(AskCost(z), m)
    case Waiting => 0
    case Draining => 3
    case Idle => 2
    case Notifying(next) => 1 + Times(1 + NotifyCost(z), Left(n, next))
    case Answering(_, snap) => 4 + if i == 0 then 0 else Times(1 + GetCost(z, i - 1), Left(m, snap.sent))
  }

  ghost function NodeCost<V>(z: Size, i: nat, n: Node<V>): nat {
    Sum(MsgCosts(z, i), n.mailbox) + PhaseCost(z, i, |Sources(n.kind)|, |n.subscribers|, n.phase)
    + (if n.dirty then RoundCost(z) else 0)
    + Sum(TaskCosts(z, i, |Sources(n.kind)|), n.tasks)
  }

  ghost function NodeCosts<V>(z: Size): (nat, Node<V>) -> nat {
    (i: nat, n: Node<V>) => NodeCost(z, i, n)
  }

  ghost function Cost<V>(z: Size, nodes: seq<Node<V>>): nat {
    SumAt(NodeCosts(z), nodes)
  }

  // ----- Subscriptions, made or on their way

  ghost function IsSubscribe<V>(m: Msg<V>): nat {
    if m.Subscribe? then 1 else 0
  }

  ghost function Subscriptions<V>(i: nat, n: Node<V>): nat {
    |n.subscribers| + Sum(IsSubscribe, n.mailbox)
    + if n.phase.Starting? then Left(|Sources(n.kind)|, n.phase.subscribed) else 0
  }

  ghost function AllSubscriptions<V>(nodes: seq<Node<V>>): nat {
    SumAt(Subscriptions, nodes)
  }

  ghost predicate FitsAt<V>(z: Size, n: Node<V>, i: nat) {
    |Sources(n.kind)| <= z.sources && forall k | 0 <= k < |Sources(n.kind)| :: Sources(n.kind)[k] < i
  }

  ghost predicate Fits<V>(z: Size, nodes: seq<Node<V>>) {
    && |nodes| == z.nodes && AllSubscriptions(nodes) <= z.subscriptions
    && forall i | 0 <= i < |nodes| :: FitsAt(z, nodes[i], i)
  }

  // ----- Changing one node

  lemma PutCost<V>(z: Size, nodes: seq<Node<V>>, i: nat, n: Node<V>)
    requires i < |nodes|
    ensures Cost(z, nodes[i := n]) + NodeCost(z, i, nodes[i]) == Cost(z, nodes) + NodeCost(z, i, n)
    ensures AllSubscriptions(nodes[i := n]) + Subscriptions(i, nodes[i])
         == AllSubscriptions(nodes) + Subscriptions(i, n)
  {
    SumAtUpdate(NodeCosts(z), nodes, i, n);
    SumAtUpdate(Subscriptions, nodes, i, n);
  }

  /** Node `i` turns into `n'`, which can do less but for what it is granted, and keeps everything within bounds. */
  ghost predicate Cheaper<V>(z: Size, i: nat, n: Node<V>, n': Node<V>, grant: nat) {
    NodeCost(z, i, n') < NodeCost(z, i, n) + grant && Subscriptions(i, n') <= Subscriptions(i, n) && FitsAt(z, n', i)
  }

  /** What a step must do to the whole network. */
  ghost predicate Falls<V>(z: Size, nodes: seq<Node<V>>, nodes': seq<Node<V>>, grant: nat) {
    Fits(z, nodes') && Cost(z, nodes') < Cost(z, nodes) + grant
  }

  lemma PutFalls<V>(z: Size, nodes: seq<Node<V>>, i: nat, n: Node<V>, grant: nat)
    requires Fits(z, nodes) && i < |nodes| && Cheaper(z, i, nodes[i], n, grant)
    ensures Falls(z, nodes, nodes[i := n], grant)
  {
    PutCost(z, nodes, i, n);
  }

  /** A node that becomes `n'` has paid for sending `m` to `to`. */
  ghost predicate Pays<V>(z: Size, i: nat, n: Node<V>, n': Node<V>, to: nat, m: Msg<V>) {
    && FitsAt(z, n', i) && NodeCost(z, i, n') + MsgCost(z, to, m) < NodeCost(z, i, n)
    && Subscriptions(i, n') + IsSubscribe(m) <= Subscriptions(i, n)
  }

  /** A send by node `i` to another: what the message can cause has been paid for by the sender. */
  lemma SendFalls<V>(z: Size, sys: Sys<V>, i: nat, n: Node<V>, to: nat, m: Msg<V>)
    requires Fits(z, sys.nodes) && i < |sys.nodes| && to != i && Pays(z, i, sys.nodes[i], n, to, m)
    ensures Falls(z, sys.nodes, Put(Post(sys, to, m), i, n).nodes, 0)
  {
    var sent := Post(sys, to, m);
    PostCost(z, sys, to, m);
    PutCost(z, sent.nodes, i, n);
  }

  lemma PostCost<V>(z: Size, sys: Sys<V>, to: nat, m: Msg<V>)
    requires Fits(z, sys.nodes)
    ensures var nodes' := Post(sys, to, m).nodes;
            && |nodes'| == |sys.nodes|
            && Cost(z, nodes') <= Cost(z, sys.nodes) + (if to < |sys.nodes| then MsgCost(z, to, m) else 0)
            && AllSubscriptions(nodes') <= AllSubscriptions(sys.nodes) + IsSubscribe(m)
            && forall i | 0 <= i < |nodes'| :: FitsAt(z, nodes'[i], i) && (i != to ==> nodes'[i] == sys.nodes[i])
  {
    if to < |sys.nodes| && Accepts(sys, to) {
      var n := sys.nodes[to];
      var n' := n.(mailbox := n.mailbox + [m]);
      AppendCost(z, to, n, m);
      PutCost(z, sys.nodes, to, n');
      assert FitsAt(z, n, to);
    }
  }

  lemma AppendCost<V>(z: Size, i: nat, n: Node<V>, m: Msg<V>)
    ensures var n' := n.(mailbox := n.mailbox + [m]);
            && NodeCost(z, i, n') == NodeCost(z, i, n) + MsgCost(z, i, m)
            && Subscriptions(i, n') == Subscriptions(i, n) + IsSubscribe(m)
  {
    SumSnoc(MsgCosts(z, i), n.mailbox, m);
    SumSnoc(IsSubscribe, n.mailbox, m);
  }

  // ----- Answers cost nothing

  /** The same node for everything that is counted. */
  ghost predicate SameCost<V>(z: Size, i: nat, n: Node<V>, n': Node<V>) {
    NodeCost(z, i, n') == NodeCost(z, i, n) && Subscriptions(i, n') == Subscriptions(i, n)
    && n'.kind == n.kind && n'.subscribers == n.subscribers && n'.mailbox == n.mailbox
  }

  lemma AnsweredCost<V>(z: Size, i: nat, n: Node<V>, t: nat, k: nat, v: V)
    requires t < |n.tasks| && k < |n.tasks[t].replies|
    ensures SameCost(z, i, n, Answered(n, t, k, v))
  {
    SumUpdate(TaskCosts(z, i, |Sources(n.kind)|), n.tasks, t, Answered(n, t, k, v).tasks[t]);
  }

  lemma SnapCost<V>(z: Size, i: nat, n: Node<V>, k: nat, v: V)
    requires n.phase.Answering? && k < |n.phase.snap.replies|
    ensures var snap := n.phase.snap.(replies := n.phase.snap.replies[k := Some(v)]);
            SameCost(z, i, n, n.(phase := n.phase.(snap := snap)))
  {
  }

  lemma SameCostPut<V>(z: Size, nodes: seq<Node<V>>, i: nat, n: Node<V>)
    requires Fits(z, nodes) && i < |nodes| && SameCost(z, i, nodes[i], n)
    ensures Fits(z, nodes[i := n]) && Cost(z, nodes[i := n]) == Cost(z, nodes)
  {
    PutCost(z, nodes, i, n);
    assert FitsAt(z, nodes[i], i);
  }

  lemma ReplyCost<V>(z: Size, sys: Sys<V>, to: Requester, v: V)
    requires Fits(z, sys.nodes)
    ensures Fits(z, Reply(sys, to, v).nodes) && Cost(z, Reply(sys, to, v).nodes) == Cost(z, sys.nodes)
  {
    match to
    case Client =>
    case ByTask(d, t, k) =>
      if d < |sys.nodes| && t < |sys.nodes[d].tasks| && Unanswered(sys.nodes[d].tasks[t], k) {
        AnsweredCost(z, d, sys.nodes[d], t, k, v);
        SameCostPut(z, sys.nodes, d, Answered(sys.nodes[d], t, k, v));
      }
    case ByHandler(d, k) =>
      if d < |sys.nodes| && sys.nodes[d].phase.Answering? && Unanswered(sys.nodes[d].phase.snap, k) {
        SnapCost(z, d, sys.nodes[d], k, v);
        SameCostPut(z, sys.nodes, d, Reply(sys, to, v).nodes[d]);
      }
  }

  // ----- Handling a message

  lemma PopCost<V>(z: Size, i: nat, n: Node<V>)
    requires n.mailbox != [] && (n.phase.Waiting? || n.phase.Draining?)
    ensures NodeCost(z, i, Popped(n)) + MsgCost(z, i, n.mailbox[0]) <= NodeCost(z, i, n) + 3
    ensures Subscriptions(i, Popped(n)) + IsSubscribe(n.mailbox[0]) == Subscriptions(i, n)
  {
    SumHead(MsgCosts(z, i), n.mailbox);
    SumHead(IsSubscribe, n.mailbox);
  }

  lemma StoredCost<V>(z: Size, i: nat, n: Node<V>, v: V)
    ensures NodeCost(z, i, Stored(n, v)) <= NodeCost(z, i, n) + RoundCost(z)
    ensures Subscriptions(i, Stored(n, v)) == Subscriptions(i, n)
  {
  }

  lemma {:induction false} NewTaskCost<V>(z: Size, i: nat, m: nat, task: Task<V>)
    requires m <= z.sources && task.sent == 0 && !task.done
    ensures TaskCosts(z, i, m)(task) <= Times(AskCost(z), z.sources) + 5
  {
    TimesGrows(AskCost(z), m, z.sources);
  }

  lemma SpawnedCost<V>(z: Size, i: nat, nodes: seq<Node<V>>, n: Node<V>)
    requires |Sources(n.kind)| <= z.sources
    ensures NodeCost(z, i, Spawned(nodes, n)) <= NodeCost(z, i, n) + Times(AskCost(z), z.sources) + 5
    ensures Subscriptions(i, Spawned(nodes, n)) == Subscriptions(i, n)
  {
    var m, task := |Sources(n.kind)|, NewTask(nodes, Sources(n.kind));
    SumSnoc(TaskCosts(z, i, m), n.tasks, task);
    NewTaskCost(z, i, m, task);
  }

  /** What a node is granted for handling its next message: a round of notifications, if that changes its value. */
  ghost function Grant<V>(z: Size, nodes: seq<Node<V>>, n: Node<V>): nat
    requires n.mailbox != []
  {
    if Absorbed(nodes, Popped(n), n.mailbox[0]).changes != n.changes then RoundCost(z) else 0
  }

  lemma PoppedFits<V>(z: Size, i: nat, n: Node<V>, n': Node<V>)
    requires FitsAt(z, n, i) && n.mailbox != [] && n'.kind == n.kind && n'.mailbox == n.mailbox[1..]
    ensures FitsAt(z, n', i)
  {
  }

  lemma UpdateCheaper<V>(z: Size, i: nat, nodes: seq<Node<V>>, n: Node<V>)
    requires FitsAt(z, n, i) && n.mailbox != [] && (n.phase.Waiting? || n.phase.Draining?)
    requires n.mailbox[0].Set? || n.mailbox[0].Mutate? || n.mailbox[0].UpdateCache?
    ensures Cheaper(z, i, n, Absorbed(nodes, Popped(n), n.mailbox[0]), Grant(z, nodes, n))
  {
    var n' := Absorbed(nodes, Popped(n), n.mailbox[0]);
    PopCost(z, i, n);
    if n'.changes != n.changes {
      StoredCost(z, i, Popped(n), n'.value.value);
    }
    PoppedFits(z, i, n, n');
  }

  lemma NotifyCheaper<V>(z: Size, i: nat, nodes: seq<Node<V>>, n: Node<V>)
    requires FitsAt(z, n, i) && n.mailbox != [] && (n.phase.Waiting? || n.phase.Draining?)
    requires n.mailbox[0].Notify?
    ensures Cheaper(z, i, n, Absorbed(nodes, Popped(n), n.mailbox[0]), 0)
  {
    PopCost(z, i, n);
    SpawnedCost(z, i, nodes, Popped(n));
    PoppedFits(z, i, n, Absorbed(nodes, Popped(n), n.mailbox[0]));
  }

  lemma {:induction false} AnsweringCost<V>(z: Size, i: nat, m: nat, n: nat, from: Requester, task: Task<V>)
    requires m <= z.sources && task.sent == 0
    ensures PhaseCost(z, i, m, n, Answering(from, task)) < GetCost(z, i)
  {
    if i > 0 {
      TimesGrows(1 + GetCost(z, i - 1), m, z.sources);
    }
  }

  lemma AnsweringNode<V>(z: Size, i: nat, n: Node<V>, from: Requester, task: Task<V>)
    requires |Sources(n.kind)| <= z.sources && n.phase.Draining? && task.sent == 0
    ensures NodeCost(z, i, n.(phase := Answering(from, task))) + 3 < NodeCost(z, i, n) + GetCost(z, i)
    ensures Subscriptions(i, n.(phase := Answering(from, task))) == Subscriptions(i, n)
  {
    AnsweringCost(z, i, |Sources(n.kind)|, |n.subscribers|, from, task);
  }

  lemma GetCosts<V>(z: Size, i: nat, nodes: seq<Node<V>>, n: Node<V>, from: Requester)
    requires |Sources(n.kind)| <= z.sources && n.phase.Draining?
    ensures NodeCost(z, i, Absorbed(nodes, n, Get(from))) + 3 < NodeCost(z, i, n) + GetCost(z, i)
    ensures Subscriptions(i, Absorbed(nodes, n, Get(from))) == Subscriptions(i, n)
  {
    if n.value.None? && n.kind.Derived? {
      AnsweringNode(z, i, n, from, NewTask(nodes, n.kind.sources));
    }
  }

  lemma GetCheaper<V>(z: Size, i: nat, nodes: seq<Node<V>>, n: Node<V>)
    requires FitsAt(z, n, i) && n.mailbox != [] && (n.phase.Waiting? || n.phase.Draining?)
    requires n.mailbox[0].Get?
    ensures Cheaper(z, i, n, Absorbed(nodes, Popped(n), n.mailbox[0]), 0)
  {
    PopCost(z, i, n);
    GetCosts(z, i, nodes, Popped(n), n.mailbox[0].from);
    PoppedFits(z, i, n, Absorbed(nodes, Popped(n), n.mailbox[0]));
  }

  lemma SubscribeCheaper<V>(z: Size, i: nat, nodes: seq<Node<V>>, n: Node<V>)
    requires FitsAt(z, n, i) && n.mailbox != [] && (n.phase.Waiting? || n.phase.Draining?)
    requires n.mailbox[0].Subscribe?
    ensures Cheaper(z, i, n, Absorbed(nodes, Popped(n), n.mailbox[0]), 0)
  {
    PopCost(z, i, n);
    PoppedFits(z, i, n, Absorbed(nodes, Popped(n), n.mailbox[0]));
  }

  lemma AbsorbCheaper<V>(z: Size, i: nat, nodes: seq<Node<V>>, n: Node<V>)
    requires FitsAt(z, n, i) && n.mailbox != [] && (n.phase.Waiting? || n.phase.Draining?)
    ensures Cheaper(z, i, n, Absorbed(nodes, Popped(n), n.mailbox[0]), Grant(z, nodes, n))
  {
    match n.mailbox[0]
    case Notify => NotifyCheaper(z, i, nodes, n);
    case Subscribe(_) => SubscribeCheaper(z, i, nodes, n);
    case Get(_) => GetCheaper(z, i, nodes, n);
    case _ => UpdateCheaper(z, i, nodes, n);
  }

  lemma ReceiveFalls<V>(z: Size, sys: Sys<V>, i: nat)
    requires Fits(z, sys.nodes) && Enabled(sys, Receive(i))
    ensures Falls(z, sys.nodes, Next(sys, Receive(i)).nodes, if Changes(sys, i) then RoundCost(z) else 0)
  {
    var n := sys.nodes[i];
    var popped := sys.nodes[i := Popped(n)];
    assert FitsAt(z, n, i);
    AbsorbCheaper(z, i, popped, n);
    PutFalls(z, sys.nodes, i, Handled(sys, i), Grant(z, popped, n));
    ReceiveIs(sys, i);
    if n.mailbox[0].Get? && n.value.Some? {
      ReplyCost(z, Put(sys, i, Handled(sys, i)), n.mailbox[0].from, n.value.value);
    }
  }

  // ----- The other steps

  lemma RoundCheaper<V>(z: Size, i: nat, n: Node<V>)
    requires n.phase.Idle? && n.dirty && |n.subscribers| <= z.subscriptions
    ensures var n' := n.(dirty := false, rounds := n.rounds + 1, phase := Notifying(0));
            NodeCost(z, i, n') < NodeCost(z, i, n) && Subscriptions(i, n') == Subscriptions(i, n)
  {
    TimesGrows(1 + NotifyCost(z), |n.subscribers|, z.subscriptions);
  }

  lemma LoopCheaper<V>(z: Size, i: nat, n: Node<V>, n': Node<V>)
    requires FitsAt(z, n, i) && n' == n.(phase := n'.phase)
    requires || (n.phase.Draining? && n'.phase.Idle?) || (n.phase.Idle? && n'.phase.Waiting?)
             || (n.phase.Notifying? && n'.phase.Waiting?)
    ensures Cheaper(z, i, n, n', 0)
  {
  }

  lemma LoopFalls<V>(z: Size, sys: Sys<V>, a: Action<V>)
    requires Fits(z, sys.nodes) && Enabled(sys, a) && (a.Drained? || a.RunIdle? || a.NotifyDone?)
    ensures Falls(z, sys.nodes, Next(sys, a).nodes, 0)
  {
    var n, n' := sys.nodes[a.i], Next(sys, a).nodes[a.i];
    assert FitsAt(z, n, a.i);
    if a.RunIdle? && n.dirty {
      SumAtTerm(Subscriptions, sys.nodes, a.i);
      RoundCheaper(z, a.i, n);
    } else {
      LoopCheaper(z, a.i, n, n');
    }
    PutFalls(z, sys.nodes, a.i, n', 0);
  }

  lemma EnterLoopFalls<V>(z: Size, sys: Sys<V>, i: nat)
    requires Fits(z, sys.nodes) && Enabled(sys, EnterLoop(i))
    ensures Falls(z, sys.nodes, Next(sys, EnterLoop(i)).nodes, 0)
  {
    var n := sys.nodes[i];
    var m := |Sources(n.kind)|;
    assert FitsAt(z, n, i);
    SumSnoc(TaskCosts(z, i, m), n.tasks, NewTask(sys.nodes, Sources(n.kind)));
    PutFalls(z, sys.nodes, i, Next(sys, EnterLoop(i)).nodes[i], 0);
  }

  lemma StartingPays<V>(z: Size, i: nat, n: Node<V>)
    requires FitsAt(z, n, i) && n.phase.Starting? && n.phase.subscribed < |Sources(n.kind)|
    ensures Pays(z, i, n, n.(phase := Starting(n.phase.subscribed + 1)), Sources(n.kind)[n.phase.subscribed],
                 Subscribe(i))
  {
  }

  lemma SubscribeNextIs<V>(sys: Sys<V>, i: nat, s: nat)
    requires Enabled(sys, SubscribeNext(i)) && s == Sources(sys.nodes[i].kind)[sys.nodes[i].phase.subscribed] && s != i
    ensures var n := sys.nodes[i];
            Next(sys, SubscribeNext(i)).nodes ==
            Put(Post(sys, s, Subscribe(i)), i, n.(phase := Starting(n.phase.subscribed + 1))).nodes
  {
  }

  lemma SubscribeNextFalls<V>(z: Size, sys: Sys<V>, i: nat)
    requires Fits(z, sys.nodes) && Enabled(sys, SubscribeNext(i))
    ensures Falls(z, sys.nodes, Next(sys, SubscribeNext(i)).nodes, 0)
  {
    var n := sys.nodes[i];
    assert FitsAt(z, n, i);
    var s := Sources(n.kind)[n.phase.subscribed];
    StartingPays(z, i, n);
    SubscribeNextIs(sys, i, s);
    SendFalls(z, sys, i, n.(phase := Starting(n.phase.subscribed + 1)), s, Subscribe(i));
  }

  lemma NotifiedCost<V>(z: Size, i: nat, n: Node<V>)
    requires n.phase.Notifying? && n.phase.next < |n.subscribers|
    ensures var k := n.phase.next;
            && NodeCost(z, i, n.(phase := Notifying(k + 1))) + 1 + NotifyCost(z) == NodeCost(z, i, n)
            && NodeCost(z, i, n.(subscribers := n.subscribers[..k] + n.subscribers[k + 1..])) < NodeCost(z, i, n)
  {
    assert Left(|n.subscribers|, n.phase.next) == |n.subscribers| - n.phase.next > 0;
  }

  lemma NotifyingPays<V>(z: Size, i: nat, n: Node<V>)
    requires FitsAt(z, n, i) && n.phase.Notifying? && n.phase.next < |n.subscribers|
    ensures Pays(z, i, n, n.(phase := Notifying(n.phase.next + 1)), n.subscribers[n.phase.next], Notify)
  {
    NotifiedCost(z, i, n);
  }

  /** The same, to itself. */
  lemma SelfNotifyCheaper<V>(z: Size, i: nat, n: Node<V>)
    requires FitsAt(z, n, i) && n.phase.Notifying? && n.phase.next < |n.subscribers|
    ensures Cheaper(z, i, n, n.(phase := Notifying(n.phase.next + 1), mailbox := n.mailbox + [Notify]), 0)
  {
    NotifiedCost(z, i, n);
    AppendCost(z, i, n.(phase := Notifying(n.phase.next + 1)), Notify);
  }

  lemma NotifyAcceptedIs<V>(sys: Sys<V>, i: nat, to: nat)
    requires Enabled(sys, NotifyNext(i)) && to == sys.nodes[i].subscribers[sys.nodes[i].phase.next] && to != i
    requires Accepts(sys, to)
    ensures var n := sys.nodes[i];
            Next(sys, NotifyNext(i)).nodes ==
            Put(Post(sys, to, Notify), i, n.(phase := Notifying(n.phase.next + 1))).nodes
  {
  }

  lemma SelfNotifyIs<V>(sys: Sys<V>, i: nat)
    requires Enabled(sys, NotifyNext(i)) && sys.nodes[i].subscribers[sys.nodes[i].phase.next] == i && Accepts(sys, i)
    ensures var n := sys.nodes[i];
            Next(sys, NotifyNext(i)).nodes ==
            sys.nodes[i := n.(phase := Notifying(n.phase.next + 1), mailbox := n.mailbox + [Notify])]
  {
  }

  lemma NotifyAcceptedFalls<V>(z: Size, sys: Sys<V>, i: nat)
    requires Fits(z, sys.nodes) && Enabled(sys, NotifyNext(i))
    requires Accepts(sys, sys.nodes[i].subscribers[sys.nodes[i].phase.next])
    ensures Falls(z, sys.nodes, Next(sys, NotifyNext(i)).nodes, 0)
  {
    var n := sys.nodes[i];
    var to := n.subscribers[n.phase.next];
    assert FitsAt(z, n, i);
    if to == i {
      SelfNotifyCheaper(z, i, n);
      SelfNotifyIs(sys, i);
      PutFalls(z, sys.nodes, i, n.(phase := Notifying(n.phase.next + 1), mailbox := n.mailbox + [Notify]), 0);
    } else {
      NotifyingPays(z, i, n);
      NotifyAcceptedIs(sys, i, to);
      SendFalls(z, sys, i, n.(phase := Notifying(n.phase.next + 1)), to, Notify);
    }
  }

  lemma RefusedCheaper<V>(z: Size, i: nat, n: Node<V>)
    requires FitsAt(z, n, i) && n.phase.Notifying? && n.phase.next < |n.subscribers|
    ensures var k := n.phase.next;
            Cheaper(z, i, n, n.(subscribers := n.subscribers[..k] + n.subscribers[k + 1..]), 0)
  {
    NotifiedCost(z, i, n);
  }

  lemma NotifyRefusedFalls<V>(z: Size, sys: Sys<V>, i: nat)
    requires Fits(z, sys.nodes) && Enabled(sys, NotifyNext(i))
    requires !Accepts(sys, sys.nodes[i].subscribers[sys.nodes[i].phase.next])
    ensures Falls(z, sys.nodes, Next(sys, NotifyNext(i)).nodes, 0)
  {
    var n := sys.nodes[i];
    var k := n.phase.next;
    assert FitsAt(z, n, i);
    RefusedCheaper(z, i, n);
    PutFalls(z, sys.nodes, i, n.(subscribers := n.subscribers[..k] + n.subscribers[k + 1..]), 0);
  }

  lemma TaskPays<V>(z: Size, i: nat, n: Node<V>, t: nat)
    requires FitsAt(z, n, i) && i < z.nodes && t < |n.tasks| && n.tasks[t].sent < |Sources(n.kind)|
    ensures Pays(z, i, n, n.(tasks := n.tasks[t := Asked(n.tasks[t])]), Sources(n.kind)[n.tasks[t].sent],
                 Get(ByTask(i, t, n.tasks[t].sent)))
  {
    var k, m := n.tasks[t].sent, |Sources(n.kind)|;
    SumUpdate(TaskCosts(z, i, m), n.tasks, t, Asked(n.tasks[t]));
    GetCostGrows(z, Sources(n.kind)[k], z.nodes);
  }

  lemma HandlerPays<V>(z: Size, i: nat, n: Node<V>)
    requires FitsAt(z, n, i) && n.phase.Answering? && n.phase.snap.sent < |Sources(n.kind)|
    ensures Pays(z, i, n, n.(phase := n.phase.(snap := Asked(n.phase.snap))), Sources(n.kind)[n.phase.snap.sent],
                 Get(ByHandler(i, n.phase.snap.sent)))
  {
    var k, m := n.phase.snap.sent, |Sources(n.kind)|;
    assert Sources(n.kind)[k] < i;
    GetCostGrows(z, Sources(n.kind)[k], i - 1);
  }

  lemma TaskSendFalls<V>(z: Size, sys: Sys<V>, i: nat, t: nat)
    requires Fits(z, sys.nodes) && Enabled(sys, TaskSend(i, t))
    ensures Falls(z, sys.nodes, Next(sys, TaskSend(i, t)).nodes, 0)
  {
    var n := sys.nodes[i];
    var k := n.tasks[t].sent;
    assert FitsAt(z, n, i);
    TaskPays(z, i, n, t);
    SendFalls(z, sys, i, n.(tasks := n.tasks[t := Asked(n.tasks[t])]), Sources(n.kind)[k], Get(ByTask(i, t, k)));
  }

  lemma HandlerSendFalls<V>(z: Size, sys: Sys<V>, i: nat)
    requires Fits(z, sys.nodes) && Enabled(sys, HandlerSend(i))
    ensures Falls(z, sys.nodes, Next(sys, HandlerSend(i)).nodes, 0)
  {
    var n := sys.nodes[i];
    var k := n.phase.snap.sent;
    assert FitsAt(z, n, i);
    HandlerPays(z, i, n);
    SendFalls(z, sys, i, n.(phase := n.phase.(snap := Asked(n.phase.snap))), Sources(n.kind)[k], Get(ByHandler(i, k)));
  }

  lemma DoneCost<V>(z: Size, i: nat, n: Node<V>, t: nat, last: Option<nat>)
    requires t < |n.tasks| && !n.tasks[t].done
    ensures var n' := n.(tasks := n.tasks[t := n.tasks[t].(done := true)], delivered := last);
            && NodeCost(z, i, n') + 5 == NodeCost(z, i, n)
            && Subscriptions(i, n') == Subscriptions(i, n)
  {
    SumUpdate(TaskCosts(z, i, |Sources(n.kind)|), n.tasks, t, n.tasks[t].(done := true));
  }

  lemma HandedCheaper<V>(z: Size, i: nat, n: Node<V>, t: nat)
    requires FitsAt(z, n, i) && n.kind.Derived? && t < |n.tasks| && !n.tasks[t].done && Complete(n.tasks[t])
    ensures Cheaper(z, i, n, Handed(n, t), 0)
  {
    DoneCost(z, i, n, t, Some(t));
    var n' := n.(tasks := n.tasks[t := n.tasks[t].(done := true)], delivered := Some(t));
    AppendCost(z, i, n', UpdateCache(t, Computed(n.kind, n.tasks[t])));
    assert Handed(n, t) == n'.(mailbox := n'.mailbox + [UpdateCache(t, Computed(n.kind, n.tasks[t]))]);
  }

  lemma DeliverFalls<V>(z: Size, sys: Sys<V>, i: nat, t: nat)
    requires Fits(z, sys.nodes) && Enabled(sys, Deliver(i, t))
    ensures Falls(z, sys.nodes, Next(sys, Deliver(i, t)).nodes, 0)
  {
    var n := sys.nodes[i];
    assert FitsAt(z, n, i);
    if Accepts(sys, i) {
      HandedCheaper(z, i, n, t);
      PutFalls(z, sys.nodes, i, Handed(n, t), 0);
    } else {
      DoneCost(z, i, n, t, n.delivered);
      PutFalls(z, sys.nodes, i, n.(tasks := n.tasks[t := n.tasks[t].(done := true)], delivered := n.delivered), 0);
    }
  }

  lemma AnswerCheaper<V>(z: Size, i: nat, n: Node<V>, v: V)
    requires FitsAt(z, n, i) && n.phase.Answering?
    ensures Cheaper(z, i, n, n.(held := n.held + [v], phase := Draining), 0)
  {
  }

  lemma AnswerFalls<V>(z: Size, sys: Sys<V>, i: nat)
    requires Fits(z, sys.nodes) && Enabled(sys, Answer(i))
    ensures Falls(z, sys.nodes, Next(sys, Answer(i)).nodes, 0)
  {
    var n := sys.nodes[i];
    var v := Computed(n.kind, n.phase.snap);
    var n' := n.(held := n.held + [v], phase := Draining);
    assert FitsAt(z, n, i);
    AnswerCheaper(z, i, n, v);
    PutFalls(z, sys.nodes, i, n', 0);
    ReplyCost(z, Put(sys, i, n'), n.phase.to, v);
  }

  /** Every step that is not a client's uses up some of the cost, unless it changes a value. */
  lemma StepFalls<V>(z: Size, sys: Sys<V>, a: Action<V>)
    requires Fits(z, sys.nodes) && Enabled(sys, a) && !a.ClientSend?
    ensures Falls(z, sys.nodes, Next(sys, a).nodes, if a.Receive? && Changes(sys, a.i) then RoundCost(z) else 0)
  {
    match a
    case SubscribeNext(i) => SubscribeNextFalls(z, sys, i);
    case EnterLoop(i) => EnterLoopFalls(z, sys, i);
    case Receive(i) => ReceiveFalls(z, sys, i);
    case NotifyNext(i) =>
      if Accepts(sys, sys.nodes[i].subscribers[sys.nodes[i].phase.next]) {
        NotifyAcceptedFalls(z, sys, i);
      } else {
        NotifyRefusedFalls(z, sys, i);
      }
    case TaskSend(i, t) => TaskSendFalls(z, sys, i, t);
    case HandlerSend(i) => HandlerSendFalls(z, sys, i);
    case Deliver(i, t) => DeliverFalls(z, sys, i, t);
    case Answer(i) => AnswerFalls(z, sys, i);
    case _ => LoopFalls(z, sys, a);
  }

  // ----- How long it can go on

  ghost function Digits<V>(nodes: seq<Node<V>>): seq<nat>
    requires Grounded(nodes)
  {
    seq(|nodes|, i requires 0 <= i < |nodes| => Digit(nodes, i))
  }

  /** The longest a network can go on by itself. */
  ghost function Rank<V>(z: Size, nodes: seq<Node<V>>): nat
    requires Grounded(nodes)
  {
    Steps(Digits(nodes), RoundCost(z), Cost(z, nodes))
  }

  /** Whatever is stale has been paid for. */
  lemma StaleCost<V>(z: Size, i: nat, n: Node<V>, answers: seq<V>)
    ensures Stale(n, answers) <= NodeCost(z, i, n)
  {
    SumAtMost(StaleMsgs(n.kind, answers), MsgCosts(z, i), n.mailbox);
    SumAtMost(StaleTasks(answers), TaskCosts(z, i, |Sources(n.kind)|), n.tasks);
  }

  lemma {:induction false} BelowCost<V>(z: Size, nodes: seq<Node<V>>, e: nat)
    requires Grounded(nodes) && e <= |nodes|
    ensures Below(nodes, e) <= Cost(z, nodes[..e])
    decreases e
  {
    if e > 0 {
      BelowCost(z, nodes, e - 1);
      StaleCost(z, e - 1, nodes[e - 1], AnswersNow(nodes, e - 1));
      assert nodes[..e][..e - 1] == nodes[..e - 1];
    }
  }

  lemma DigitCost<V>(z: Size, nodes: seq<Node<V>>, i: nat)
    requires Grounded(nodes) && i < |nodes|
    ensures Digit(nodes, i) <= 2 * Cost(z, nodes) + 1
  {
    BelowCost(z, nodes, i + 1);
    SumAtPrefix(NodeCosts(z), nodes, i + 1);
  }

  lemma ChangeRank<V>(z: Size, nodes: seq<Node<V>>, nodes': seq<Node<V>>, x: nat)
    requires Grounded(nodes) && Grounded(nodes') && |nodes'| == |nodes| && x < |nodes|
    requires (forall e | 0 <= e < x :: Digit(nodes', e) == Digit(nodes, e)) && Digit(nodes', x) < Digit(nodes, x)
    requires Cost(z, nodes') <= Cost(z, nodes) + RoundCost(z)
    ensures Rank(z, nodes') < Rank(z, nodes)
  {
    forall i | 0 <= i < |nodes|
      ensures Digits(nodes')[i] <= 2 * Cost(z, nodes') + 1
    {
      DigitCost(z, nodes', i);
    }
    DigitFalls(Digits(nodes), Digits(nodes'), x, RoundCost(z), Cost(z, nodes), Cost(z, nodes'));
  }

  lemma CalmRank<V>(z: Size, nodes: seq<Node<V>>, nodes': seq<Node<V>>)
    requires Calm(nodes, nodes') && Cost(z, nodes') < Cost(z, nodes)
    ensures Rank(z, nodes') < Rank(z, nodes)
  {
    forall i | 0 <= i < |nodes|
      ensures Digits(nodes')[i] <= Digits(nodes)[i]
    {
      CalmDigit(nodes, nodes', i);
    }
    RemainderFalls(Digits(nodes), Digits(nodes'), RoundCost(z), Cost(z, nodes), Cost(z, nodes'));
  }

  /** What holds of a network along its runs. */
  ghost predicate Ranked<V>(z: Size, nodes: seq<Node<V>>) {
    Fits(z, nodes) && AllSound(nodes) && Grounded(nodes)
  }

  /** Every step that is not a client's lowers the rank, with overflow and in any order, whoever is subscribed. */
  lemma StepRank<V>(z: Size, sys: Sys<V>, a: Action<V>)
    requires Ranked(z, sys.nodes) && Enabled(sys, a) && !a.ClientSend?
    ensures Ranked(z, Next(sys, a).nodes) && Rank(z, Next(sys, a).nodes) < Rank(z, sys.nodes)
  {
    StepSound(sys, a);
    SoundGrounded(Next(sys, a).nodes);
    StepFalls(z, sys, a);
    if a.Receive? && Changes(sys, a.i) {
      ChangingReceive(sys, a.i);
      ChangeRank(z, sys.nodes, Next(sys, a).nodes, a.i);
    } else {
      QuietStep(sys, a);
      CalmRank(z, sys.nodes, Next(sys, a).nodes);
    }
  }

  // ----- Runs

  ghost predicate WithoutClients<V>(acts: seq<Action<V>>) {
    forall k | 0 <= k < |acts| :: !acts[k].ClientSend?
  }

  lemma {:induction false} RunFalls<V>(z: Size, sys: Sys<V>, acts: seq<Action<V>>)
    requires Ranked(z, sys.nodes) && Legal(sys, acts) && WithoutClients(acts)
    ensures Ranked(z, Exec(sys, acts).nodes) && |acts| + Rank(z, Exec(sys, acts).nodes) <= Rank(z, sys.nodes)
    decreases |acts|
  {
    if acts != [] {
      var before := acts[..|acts| - 1];
      RunFalls(z, sys, before);
      StepRank(z, Exec(sys, before), acts[|acts| - 1]);
    }
  }

  ghost function SourceCount<V>(i: nat, n: Node<V>): nat {
    |Sources(n.kind)|
  }

  ghost function SizeOf<V>(nodes: seq<Node<V>>): Size {
    Size(|nodes|, SumAt(SourceCount, nodes), AllSubscriptions(nodes))
  }

  lemma SizeFits<V(!new)>(sys: Sys<V>)
    requires Reachable(sys)
    ensures Ranked(SizeOf(sys.nodes), sys.nodes)
  {
    ReachableSound(sys);
    SoundGrounded(sys.nodes);
    forall i | 0 <= i < |sys.nodes|
      ensures FitsAt(SizeOf(sys.nodes), sys.nodes[i], i)
    {
      assert SoundAt(sys.nodes, i);
      SumAtTerm(SourceCount, sys.nodes, i);
    }
  }

  /**
   Without clients, whatever overflows, in whatever order recomputes deliver and whoever is subscribed to whom, no run
   is longer than a number that depends only on the system it starts from.
   */
  lemma RunsEnd<V(!new)>(sys: Sys<V>, acts: seq<Action<V>>)
    requires Reachable(sys) && Legal(sys, acts) && WithoutClients(acts)
    ensures Grounded(sys.nodes) && |acts| <= Rank(SizeOf(sys.nodes), sys.nodes)
  {
    SizeFits(sys);
    RunFalls(SizeOf(sys.nodes), sys, acts);
  }

  /** Any run without clients can be continued, again without clients, until nothing moves. */
  lemma {:induction false} GoesOn<V(!new)>(z: Size, sys: Sys<V>, acts: seq<Action<V>>) returns (more: seq<Action<V>>)
    requires Legal(sys, acts) && WithoutClients(acts) && Ranked(z, Exec(sys, acts).nodes)
    ensures acts <= more && Legal(sys, more) && WithoutClients(more) && Settled(Exec(sys, more))
    decreases Rank(z, Exec(sys, acts).nodes)
  {
    var now := Exec(sys, acts);
    if Settled(now) {
      more := acts;
    } else {
      var a: Action<V> :| Enabled(now, a) && !a.ClientSend?;
      assert (acts + [a])[..|acts|] == acts;
      StepRank(z, now, a);
      more := GoesOn(z, sys, acts + [a]);
    }
  }

  lemma {:induction false} ExecReachable<V(!new)>(sys: Sys<V>, acts: seq<Action<V>>)
    requires Reachable(sys) && Legal(sys, acts)
    ensures Reachable(Exec(sys, acts))
    decreases |acts|
  {
    if acts != [] {
      ExecReachable(sys, acts[..|acts| - 1]);
      var mid, a := Exec(sys, acts[..|acts| - 1]), acts[|acts| - 1];
      var init: Sys<V>, pre :| Init(init) && Legal(init, pre) && Exec(init, pre) == mid;
      assert (pre + [a])[..|pre|] == pre;
      assert Legal(init, pre + [a]) && Exec(init, pre + [a]) == Exec(sys, acts);
    }
  }

  /**
   Every update arrives: however a network has been left by its clients and whatever it has done since, it can only
   go on to a settled state, within `Rank` steps in all; and if no mailbox has overflowed by then and recomputes have
   delivered in order, every node holds the composition of its selectors.
   */
  lemma UpdatesArrive<V(!new)>(sys: Sys<V>, acts: seq<Action<V>>) returns (more: seq<Action<V>>)
    requires Reachable(sys) && Legal(sys, acts) && WithoutClients(acts)
    ensures Grounded(sys.nodes) && acts <= more && |more| <= Rank(SizeOf(sys.nodes), sys.nodes)
    ensures Legal(sys, more) && WithoutClients(more) && Settled(Exec(sys, more))
    ensures var end := Exec(sys, more);
            !end.overflow && end.inOrder ==>
              && Grounded(end.nodes)
              && forall i | 0 <= i < |end.nodes| :: end.nodes[i].value == Some(Meaning(end.nodes, i))
  {
    SizeFits(sys);
    RunFalls(SizeOf(sys.nodes), sys, acts);
    more := GoesOn(SizeOf(sys.nodes), sys, acts);
    RunsEnd(sys, more);
    ExecReachable(sys, more);
    var end := Exec(sys, more);
    if !end.overflow && end.inOrder {
      ReachableGrounded(end);
      forall i | 0 <= i < |end.nodes|
        ensures end.nodes[i].value == Some(Meaning(end.nodes, i))
      {
        Converges(end, i);
      }
    }
  }
}
