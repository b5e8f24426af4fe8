/**
 No recompute and no blocked `Get` handler waits for an answer nobody will give: until a mailbox overflows,
 every question that has been asked and not answered is queued at its source, or its source is itself
 blocked working on it.
 */
module ReactiveProgress {
  import opened Options
  import opened Reactive
  import opened ReactiveInvariant
  import opened ReactiveSteps

  ghost predicate AwaitsSlot<V>(task: Task<V>, k: nat) {
    k < task.sent && Unanswered(task, k)
  }

  /** Node `n` has asked and still awaits the answer named by `r`. */
  ghost predicate Awaits<V>(n: Node<V>, r: Requester) {
    match r
    case Client => false
    case ByTask(_, t, k) => t < |n.tasks| && AwaitsSlot(n.tasks[t], k)
    case ByHandler(_, k) => n.phase.Answering? && AwaitsSlot(n.phase.snap, k)
  }

  ghost predicate Serves<V>(s: Node<V>, r: Requester) {
    Get(r) in s.mailbox || (s.phase.Answering? && s.phase.to == r)
  }

  ghost predicate Pending<V>(nodes: seq<Node<V>>, r: Requester) {
    !r.Client? && r.node < |nodes| && Awaits(nodes[r.node], r)
  }

  ghost predicate Tracked<V>(nodes: seq<Node<V>>, r: Requester)
    requires Pending(nodes, r)
  {
    && r.slot < |Sources(nodes[r.node].kind)|
    && Sources(nodes[r.node].kind)[r.slot] < |nodes|
    && Serves(nodes[Sources(nodes[r.node].kind)[r.slot]], r)
  }

  ghost predicate InFlight<V>(nodes: seq<Node<V>>) {
    forall r | Pending(nodes, r) :: Tracked(nodes, r)
  }

  /** Every question but `to` is tracked; the answer to `to` is being handed over. */
  ghost predicate InFlightBut<V>(nodes: seq<Node<V>>, to: Requester) {
    forall r | Pending(nodes, r) :: r == to || Tracked(nodes, r)
  }

  /** A node that answers nothing and asks nothing new may change in any other way. */
  lemma PutInFlight<V>(nodes: seq<Node<V>>, i: nat, n: Node<V>)
    requires InFlight(nodes) && i < |nodes| && n.kind == nodes[i].kind
    requires forall r | Serves(nodes[i], r) :: Serves(n, r)
    requires forall r | Awaits(n, r) :: Awaits(nodes[i], r)
    ensures InFlight(nodes[i := n])
  {
    var nodes' := nodes[i := n];
    forall r | Pending(nodes', r)
      ensures Tracked(nodes', r)
    {
      assert Pending(nodes, r) && Tracked(nodes, r);
    }
  }

  lemma PostInFlight<V>(sys: Sys<V>, to: nat, m: Msg<V>)
    requires InFlight(sys.nodes)
    ensures InFlight(Post(sys, to, m).nodes)
  {
    if to < |sys.nodes| && Accepts(sys, to) {
      PutInFlight(sys.nodes, to, sys.nodes[to].(mailbox := sys.nodes[to].mailbox + [m]));
    }
  }

  /** Asking source number k of node `i`: the question is queued before it counts as asked. */
  lemma AskInFlight<V>(sys: Sys<V>, i: nat, r: Requester, n: Node<V>)
    requires InFlight(sys.nodes) && i < |sys.nodes| && !r.Client? && r.node == i
    requires n.kind == sys.nodes[i].kind && n.mailbox == sys.nodes[i].mailbox
    requires n.phase.Answering? == sys.nodes[i].phase.Answering?
    requires n.phase.Answering? ==> n.phase.to == sys.nodes[i].phase.to
    requires r.slot < |Sources(n.kind)| && Sources(n.kind)[r.slot] < i
    requires Accepts(sys, Sources(n.kind)[r.slot])
    requires forall q | Awaits(n, q) && q.node == i :: q == r || Awaits(sys.nodes[i], q)
    ensures InFlight(Put(Post(sys, Sources(n.kind)[r.slot], Get(r)), i, n).nodes)
  {
    var s := Sources(n.kind)[r.slot];
    var sent := Post(sys, s, Get(r));
    PostInFlight(sys, s, Get(r));
    assert sent.nodes[s].mailbox[|sys.nodes[s].mailbox|] == Get(r);
    assert Serves(sent.nodes[s], r);
    var nodes' := Put(sent, i, n).nodes;
    forall q | Pending(nodes', q)
      ensures Tracked(nodes', q)
    {
      if q != r {
        assert Pending(sent.nodes, q);
      }
    }
  }

  /** The answer to `to` has reached its node, which no longer awaits it. */
  lemma HandedOver<V>(nodes: seq<Node<V>>, d: nat, n: Node<V>, to: Requester)
    requires InFlightBut(nodes, to) && d < |nodes| && n.kind == nodes[d].kind
    requires forall r | Serves(nodes[d], r) :: Serves(n, r)
    requires forall r: Requester | !r.Client? && r.node == d && Awaits(n, r) :: r != to && Awaits(nodes[d], r)
    requires !to.Client? && to.node == d
    ensures InFlight(nodes[d := n])
  {
    var nodes' := nodes[d := n];
    forall r | Pending(nodes', r)
      ensures Tracked(nodes', r)
    {
      assert Pending(nodes, r) && Tracked(nodes, r);
    }
  }

  lemma ReplyTaskInFlight<V>(sys: Sys<V>, to: Requester, v: V)
    requires InFlightBut(sys.nodes, to) && to.ByTask?
    ensures InFlight(Reply(sys, to, v).nodes)
  {
    var d, t, k := to.node, to.task, to.slot;
    if d < |sys.nodes| && t < |sys.nodes[d].tasks| && Unanswered(sys.nodes[d].tasks[t], k) {
      HandedOver(sys.nodes, d, Answered(sys.nodes[d], t, k, v), to);
    } else {
      assert !Pending(sys.nodes, to);
    }
  }

  lemma ReplyInFlight<V>(sys: Sys<V>, to: Requester, v: V)
    requires InFlightBut(sys.nodes, to)
    ensures InFlight(Reply(sys, to, v).nodes)
  {
    match to
    case Client => assert !Pending(sys.nodes, to);
    case ByTask(_, _, _) => ReplyTaskInFlight(sys, to, v);
    case ByHandler(d, k) =>
      if d < |sys.nodes| && sys.nodes[d].phase.Answering? && Unanswered(sys.nodes[d].phase.snap, k) {
        HandedOver(sys.nodes, d, Reply(sys, to, v).nodes[d], to);
      } else {
        assert !Pending(sys.nodes, to);
      }
  }

  /** A source takes up the question `to` and leaves all others where they are. */
  lemma TakeInFlight<V>(nodes: seq<Node<V>>, i: nat, n: Node<V>, to: Requester)
    requires InFlight(nodes) && i < |nodes| && n.kind == nodes[i].kind
    requires forall r | Serves(nodes[i], r) :: r == to || Serves(n, r)
    requires forall r | Awaits(n, r) :: Awaits(nodes[i], r)
    ensures InFlightBut(nodes[i := n], to)
  {
    var nodes' := nodes[i := n];
    forall r | Pending(nodes', r)
      ensures r == to || Tracked(nodes', r)
    {
      assert Pending(nodes, r) && Tracked(nodes, r);
    }
  }

  lemma PopServes<V>(n: Node<V>, n': Node<V>)
    requires n.mailbox != [] && n'.mailbox == n.mailbox[1..] && !n.phase.Answering?
    ensures forall r | Serves(n, r) :: n.mailbox[0] == Get(r) || Serves(n', r)
  {
    forall r | Serves(n, r)
      ensures n.mailbox[0] == Get(r) || Serves(n', r)
    {
      var j :| 0 <= j < |n.mailbox| && n.mailbox[j] == Get(r);
      if j > 0 {
        assert n'.mailbox[j - 1] == Get(r);
      }
    }
  }

  lemma AbsorbedAwaits<V>(nodes: seq<Node<V>>, n: Node<V>)
    requires n.mailbox != [] && !n.phase.Answering?
    ensures var n' := Absorbed(nodes, Popped(n), n.mailbox[0]);
            && n'.kind == n.kind && n'.mailbox == n.mailbox[1..]
            && (forall r | Awaits(n', r) :: Awaits(n, r))
            && (n.mailbox[0].Get? && n.value.None? && n.kind.Derived? ==> Serves(n', n.mailbox[0].from))
  {
  }

  lemma AbsorbInFlight<V>(sys: Sys<V>, i: nat)
    requires InFlight(sys.nodes) && Enabled(sys, Receive(i))
    requires sys.nodes[i].mailbox[0].Get? ==> sys.nodes[i].value.None? && sys.nodes[i].kind.Derived?
    ensures InFlight(sys.nodes[i := Absorbed(sys.nodes, Popped(sys.nodes[i]), sys.nodes[i].mailbox[0])])
  {
    var n := sys.nodes[i];
    var n' := Absorbed(sys.nodes, Popped(n), n.mailbox[0]);
    AbsorbedAwaits(sys.nodes, n);
    PopServes(n, n');
    PutInFlight(sys.nodes, i, n');
  }

  lemma GetInFlight<V>(sys: Sys<V>, i: nat)
    requires InFlight(sys.nodes) && Enabled(sys, Receive(i))
    requires sys.nodes[i].mailbox[0].Get? && sys.nodes[i].value.Some?
    ensures InFlight(Next(sys, Receive(i)).nodes)
  {
    var n := sys.nodes[i];
    var to := n.mailbox[0].from;
    PopServes(n, Popped(n));
    TakeInFlight(sys.nodes, i, Popped(n), to);
    ReplyInFlight(Put(sys, i, Popped(n)), to, n.value.value);
  }

  lemma ReceiveInFlight<V>(sys: Sys<V>, i: nat)
    requires Inv(sys) && InFlight(sys.nodes) && Enabled(sys, Receive(i))
    ensures InFlight(Next(sys, Receive(i)).nodes)
  {
    var n := sys.nodes[i];
    var m := n.mailbox[0];
    if m.Get? && n.value.Some? {
      GetInFlight(sys, i);
    } else {
      SameStamps(sys.nodes, i, Popped(n), Sources(n.kind));
      assert NodeInv(sys, i);
      AbsorbInFlight(sys, i);
      assert Next(sys, Receive(i)).nodes == sys.nodes[i := Absorbed(sys.nodes, Popped(n), m)];
    }
  }

  lemma AnswerInFlight<V>(sys: Sys<V>, i: nat)
    requires InFlight(sys.nodes) && Enabled(sys, Answer(i))
    ensures InFlight(Next(sys, Answer(i)).nodes)
  {
    var n := sys.nodes[i];
    var v := Computed(n.kind, n.phase.snap);
    var n' := n.(held := n.held + [v], phase := Draining);
    TakeInFlight(sys.nodes, i, n', n.phase.to);
    ReplyInFlight(Put(sys, i, n'), n.phase.to, v);
  }

  lemma SendInFlight<V>(sys: Sys<V>, a: Action<V>)
    requires Inv(sys) && InFlight(sys.nodes) && Enabled(sys, a)
    requires a.SubscribeNext? || a.NotifyNext?
    ensures InFlight(Next(sys, a).nodes)
  {
    var n := sys.nodes[a.i];
    var to := if a.SubscribeNext? then Sources(n.kind)[n.phase.subscribed] else n.subscribers[n.phase.next];
    var m := if a.SubscribeNext? then Subscribe(a.i) else Notify;
    PostInFlight(sys, to, m);
    PutInFlight(Post(sys, to, m).nodes, a.i, Next(sys, a).nodes[a.i]);
  }

  lemma TaskSendInFlight<V>(sys: Sys<V>, i: nat, t: nat)
    requires Inv(sys) && InFlight(sys.nodes) && Enabled(sys, TaskSend(i, t)) && !Next(sys, TaskSend(i, t)).overflow
    ensures InFlight(Next(sys, TaskSend(i, t)).nodes)
  {
    var n := sys.nodes[i];
    assert NodeInv(sys, i);
    AskInFlight(sys, i, ByTask(i, t, n.tasks[t].sent), n.(tasks := n.tasks[t := Asked(n.tasks[t])]));
  }

  lemma HandlerSendInFlight<V>(sys: Sys<V>, i: nat)
    requires Inv(sys) && InFlight(sys.nodes) && Enabled(sys, HandlerSend(i)) && !Next(sys, HandlerSend(i)).overflow
    ensures InFlight(Next(sys, HandlerSend(i)).nodes)
  {
    var n := sys.nodes[i];
    assert NodeInv(sys, i);
    AskInFlight(sys, i, ByHandler(i, n.phase.snap.sent), n.(phase := n.phase.(snap := Asked(n.phase.snap))));
  }

  lemma StepInFlight<V>(sys: Sys<V>, a: Action<V>)
    requires Inv(sys) && InFlight(sys.nodes) && Enabled(sys, a) && !Next(sys, a).overflow
    ensures InFlight(Next(sys, a).nodes)
  {
    match a
    case ClientSend(to, m) => PostInFlight(sys, to, m);
    case SubscribeNext(_) => SendInFlight(sys, a);
    case NotifyNext(_) => SendInFlight(sys, a);
    case Receive(i) => ReceiveInFlight(sys, i);
    case TaskSend(i, t) => TaskSendInFlight(sys, i, t);
    case HandlerSend(i) => HandlerSendInFlight(sys, i);
    case Answer(i) => AnswerInFlight(sys, i);
    case _ => PutInFlight(sys.nodes, a.i, Next(sys, a).nodes[a.i]);
  }

  lemma {:induction false} RunInFlight<V>(sys: Sys<V>, acts: seq<Action<V>>)
    requires Inv(sys) && InFlight(sys.nodes) && Legal(sys, acts) && !Exec(sys, acts).overflow
    ensures InFlight(Exec(sys, acts).nodes)
    decreases |acts|
  {
    if acts != [] {
      var before := acts[..|acts| - 1];
      if Exec(sys, before).overflow {
        OverflowStays(Exec(sys, before), acts[|acts| - 1]);
      }
      RunKeeps(sys, before);
      RunInFlight(sys, before);
      StepInFlight(Exec(sys, before), acts[|acts| - 1]);
    }
  }

  lemma ReachableInFlight<V(!new)>(sys: Sys<V>)
    requires Reachable(sys) && !sys.overflow
    ensures Inv(sys) && InFlight(sys.nodes)
  {
    var init: Sys<V>, acts :| Init(init) && Legal(init, acts) && Exec(init, acts) == sys;
    InitInv(init);
    forall r: Requester
      ensures !Pending(init.nodes, r)
    {
      if !r.Client? && r.node < |init.nodes| {
        assert Fresh(init.nodes[r.node], r.node);
      }
    }
    RunKeeps(init, acts);
    RunInFlight(init, acts);
  }

  // ----- A network that cannot move is quiet

  /** Nothing but a client can make a step. */
  ghost predicate Settled<V(!new)>(sys: Sys<V>) {
    forall a: Action<V> | Enabled(sys, a) :: a.ClientSend?
  }

  ghost predicate Resting<V>(n: Node<V>) {
    n.phase.Waiting? && n.mailbox == [] && forall t | 0 <= t < |n.tasks| :: n.tasks[t].done
  }

  /** Nobody waits for a source that is at rest. */
  lemma RestingAnswers<V>(sys: Sys<V>, i: nat, r: Requester)
    requires Inv(sys) && InFlight(sys.nodes) && i < |sys.nodes| && !r.Client? && r.node == i
    requires forall s | 0 <= s < i :: Resting(sys.nodes[s])
    ensures !Pending(sys.nodes, r)
  {
    assert NodeInv(sys, i);
    if r.slot < |Sources(sys.nodes[i].kind)| {
      assert Resting(sys.nodes[Sources(sys.nodes[i].kind)[r.slot]]);
    }
  }

  lemma SettledTask<V(!new)>(sys: Sys<V>, i: nat, t: nat)
    requires Inv(sys) && InFlight(sys.nodes) && Settled(sys) && i < |sys.nodes| && t < |sys.nodes[i].tasks|
    requires forall s | 0 <= s < i :: Resting(sys.nodes[s])
    ensures sys.nodes[i].tasks[t].done
  {
    var n := sys.nodes[i];
    assert NodeInv(sys, i);
    assert !Enabled(sys, TaskSend(i, t));
    assert !Enabled(sys, Deliver(i, t));
    if !n.tasks[t].done {
      var k :| 0 <= k < |n.tasks[t].replies| && n.tasks[t].replies[k].None?;
      RestingAnswers(sys, i, ByTask(i, t, k));
      assert false;
    }
  }

  lemma SettledPhase<V(!new)>(sys: Sys<V>, i: nat)
    requires Inv(sys) && InFlight(sys.nodes) && Settled(sys) && i < |sys.nodes|
    requires forall s | 0 <= s < i :: Resting(sys.nodes[s])
    ensures sys.nodes[i].phase.Waiting? && sys.nodes[i].mailbox == []
  {
    var n := sys.nodes[i];
    assert NodeInv(sys, i);
    assert !Enabled(sys, SubscribeNext(i)) && !Enabled(sys, EnterLoop(i));
    assert !Enabled(sys, Receive(i)) && !Enabled(sys, Drained(i)) && !Enabled(sys, RunIdle(i));
    assert !Enabled(sys, NotifyNext(i)) && !Enabled(sys, NotifyDone(i));
    assert !Enabled(sys, HandlerSend(i)) && !Enabled(sys, Answer(i));
    if n.phase.Answering? {
      var k :| 0 <= k < |n.phase.snap.replies| && n.phase.snap.replies[k].None?;
      RestingAnswers(sys, i, ByHandler(i, k));
      assert false;
    }
  }

  /** No deadlock: when no actor and no task can move, every mailbox is empty and every task has delivered. */
  lemma {:induction false} SettledRests<V(!new)>(sys: Sys<V>, i: nat)
    requires Inv(sys) && InFlight(sys.nodes) && Settled(sys) && i < |sys.nodes|
    ensures Resting(sys.nodes[i])
    decreases i
  {
    forall s | 0 <= s < i
      ensures Resting(sys.nodes[s])
    {
      SettledRests(sys, s);
    }
    SettledPhase(sys, i);
    forall t | 0 <= t < |sys.nodes[i].tasks|
      ensures sys.nodes[i].tasks[t].done
    {
      SettledTask(sys, i, t);
    }
  }
}
