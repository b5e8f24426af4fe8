/**
 Why a network cannot keep itself busy for ever, whoever is subscribed to whom: a value changes only when something
 stale is applied, or the right value at last; and nothing becomes stale unless a node below has changed.
 */
module ReactiveStaleness {
  import opened Options
  import opened Collections
  import opened Reactive
  import opened ReactiveSteps
  import opened ReactiveProvenance
  import opened ReactiveTheorems

  // ----- What a node would answer now

  ghost function AnswerNow<V>(nodes: seq<Node<V>>, i: nat): V
    requires Grounded(nodes) && i < |nodes|
    decreases i, 1
  {
    assert GroundedAt(nodes[i], i);
    if nodes[i].value.Some? then nodes[i].value.value else nodes[i].kind.selector(AnswersNow(nodes, i))
  }

  /** What the sources of node `i` would answer now. */
  ghost function AnswersNow<V>(nodes: seq<Node<V>>, i: nat): (r: seq<V>)
    requires Grounded(nodes) && i < |nodes|
    ensures |r| == |Sources(nodes[i].kind)|
    decreases i, 0
  {
    assert GroundedAt(nodes[i], i);
    var sources := Sources(nodes[i].kind);
    seq(|sources|, k requires 0 <= k < |sources| => AnswerNow(nodes, sources[k]))
  }

  /** The same values below node k. */
  ghost predicate SameBelow<V>(nodes: seq<Node<V>>, nodes': seq<Node<V>>, k: nat) {
    && |nodes'| == |nodes| && k <= |nodes|
    && forall i | 0 <= i < k :: nodes'[i].kind == nodes[i].kind && nodes'[i].value == nodes[i].value
  }

  lemma {:induction false} SameAnswer<V>(nodes: seq<Node<V>>, nodes': seq<Node<V>>, k: nat, i: nat)
    requires Grounded(nodes) && Grounded(nodes') && SameBelow(nodes, nodes', k) && i < k
    ensures AnswerNow(nodes', i) == AnswerNow(nodes, i)
    decreases i, 1
  {
    SameAnswers(nodes, nodes', k, i);
  }

  lemma {:induction false} SameAnswers<V>(nodes: seq<Node<V>>, nodes': seq<Node<V>>, k: nat, i: nat)
    requires Grounded(nodes) && Grounded(nodes') && SameBelow(nodes, nodes', k)
    requires i <= k && i < |nodes| && nodes'[i].kind == nodes[i].kind
    ensures AnswersNow(nodes', i) == AnswersNow(nodes, i)
    decreases i, 0
  {
    var sources := Sources(nodes[i].kind);
    assert GroundedAt(nodes[i], i);
    forall j | 0 <= j < |sources|
      ensures AnswersNow(nodes', i)[j] == AnswersNow(nodes, i)[j]
    {
      SameAnswer(nodes, nodes', k, sources[j]);
    }
  }

  // ----- Stale things at one node, when its sources would give these answers

  ghost predicate Current<V>(answers: seq<V>, task: Task<V>) {
    forall k | 0 <= k < |task.replies| && task.replies[k].Some? ::
      k < |answers| && task.replies[k].value == answers[k]
  }

  ghost function One(b: bool): nat {
    if b then 1 else 0
  }

  ghost function StaleTask<V>(answers: seq<V>, task: Task<V>): nat {
    One(!task.done && !Current(answers, task))
  }

  ghost function StaleTasks<V>(answers: seq<V>): Task<V> -> nat {
    (task: Task<V>) => StaleTask(answers, task)
  }

  /** A write to a `StateActor`, or an update of a cache to something other than its sources give. */
  ghost function StaleMsg<V>(kind: Kind<V>, answers: seq<V>, m: Msg<V>): nat {
    match m
    case Set(_) => 1
    case Mutate(_) => 1
    case UpdateCache(_, v) => One(!(kind.Derived? && v == kind.selector(answers)))
    case _ => 0
  }

  ghost function StaleMsgs<V>(kind: Kind<V>, answers: seq<V>): Msg<V> -> nat {
    (m: Msg<V>) => StaleMsg(kind, answers, m)
  }

  ghost function StaleSnap<V>(answers: seq<V>, phase: Phase<V>): nat {
    One(phase.Answering? && !Current(answers, phase.snap))
  }

  ghost function Stale<V>(n: Node<V>, answers: seq<V>): nat {
    Sum(StaleMsgs(n.kind, answers), n.mailbox) + Sum(StaleTasks(answers), n.tasks) + StaleSnap(answers, n.phase)
  }

  lemma AppendStale<V>(n: Node<V>, answers: seq<V>, m: Msg<V>)
    ensures Stale(n.(mailbox := n.mailbox + [m]), answers) == Stale(n, answers) + StaleMsg(n.kind, answers, m)
  {
    SumSnoc(StaleMsgs(n.kind, answers), n.mailbox, m);
  }

  lemma PopStale<V>(n: Node<V>, answers: seq<V>)
    requires n.mailbox != [] && !n.phase.Answering?
    ensures Stale(Popped(n), answers) + StaleMsg(n.kind, answers, n.mailbox[0]) == Stale(n, answers)
  {
    SumHead(StaleMsgs(n.kind, answers), n.mailbox);
  }

  lemma SpawnStale<V>(nodes: seq<Node<V>>, n: Node<V>, answers: seq<V>)
    ensures Stale(Spawned(nodes, n), answers) == Stale(n, answers)
  {
    SumSnoc(StaleTasks(answers), n.tasks, NewTask(nodes, Sources(n.kind)));
  }

  /** Task t replaced by another. */
  lemma TaskStale<V>(n: Node<V>, answers: seq<V>, t: nat, task: Task<V>)
    requires t < |n.tasks|
    ensures Stale(n.(tasks := n.tasks[t := task]), answers) + StaleTask(answers, n.tasks[t])
         == Stale(n, answers) + StaleTask(answers, task)
  {
    SumUpdate(StaleTasks(answers), n.tasks, t, task);
  }

  lemma CurrentComputes<V>(kind: Kind<V>, answers: seq<V>, task: Task<V>)
    requires kind.Derived? && Complete(task) && Current(answers, task) && |task.replies| == |answers|
    ensures Computed(kind, task) == kind.selector(answers)
  {
    assert Values(task.replies) == answers;
  }

  /** A task that hands over its result is stale as a task or as an update, not both. */
  lemma HandStale<V>(n: Node<V>, answers: seq<V>, t: nat)
    requires n.kind.Derived? && t < |n.tasks| && !n.tasks[t].done && Complete(n.tasks[t])
    requires |n.tasks[t].replies| == |answers|
    ensures Stale(Handed(n, t), answers) <= Stale(n, answers)
    ensures Stale(n.(tasks := n.tasks[t := n.tasks[t].(done := true)]), answers) <= Stale(n, answers)
  {
    var task := n.tasks[t];
    var m := UpdateCache(t, Computed(n.kind, task));
    TaskStale(n, answers, t, task.(done := true));
    var n' := n.(tasks := n.tasks[t := task.(done := true)], delivered := Some(t));
    AppendStale(n', answers, m);
    assert Handed(n, t) == n'.(mailbox := n'.mailbox + [m]);
    if Current(answers, task) {
      CurrentComputes(n.kind, answers, task);
    }
  }

  /** A reply: if it is what the source would answer now, it makes nothing stale. */
  lemma ReplyCurrent<V>(answers: seq<V>, task: Task<V>, k: nat, v: V)
    requires Unanswered(task, k) && |task.replies| == |answers|
    ensures var task' := task.(replies := task.replies[k := Some(v)]);
            Current(answers, task') <==> Current(answers, task) && v == answers[k]
  {
    var task' := task.(replies := task.replies[k := Some(v)]);
    if Current(answers, task') {
      assert task'.replies[k] == Some(v);
      forall j | 0 <= j < |task.replies| && task.replies[j].Some?
        ensures task.replies[j].value == answers[j]
      {
        assert task'.replies[j] == task.replies[j];
      }
    }
  }

  // ----- Stale things in the network

  lemma SoundGrounded<V>(nodes: seq<Node<V>>)
    requires AllSound(nodes)
    ensures Grounded(nodes)
  {
    forall i | 0 <= i < |nodes|
      ensures GroundedAt(nodes[i], i)
    {
      assert SoundAt(nodes, i);
    }
  }

  /** All that is stale at the nodes below e. */
  ghost function Below<V>(nodes: seq<Node<V>>, e: nat): nat
    requires Grounded(nodes) && e <= |nodes|
  {
    if e == 0 then 0 else Below(nodes, e - 1) + Stale(nodes[e - 1], AnswersNow(nodes, e - 1))
  }

  ghost function Wrong<V>(nodes: seq<Node<V>>, i: nat): nat
    requires Grounded(nodes) && i < |nodes|
  {
    var n := nodes[i];
    One(n.kind.Derived? && n.value != Some(n.kind.selector(AnswersNow(nodes, i))))
  }

  /** How often node `i` can still change as long as no node below it does: at most this often. */
  ghost function Digit<V>(nodes: seq<Node<V>>, i: nat): nat
    requires Grounded(nodes) && i < |nodes|
  {
    2 * Below(nodes, i + 1) + Wrong(nodes, i)
  }

  lemma {:induction false} BelowSame<V>(nodes: seq<Node<V>>, nodes': seq<Node<V>>, e: nat)
    requires Grounded(nodes) && Grounded(nodes') && |nodes'| == |nodes| && e <= |nodes|
    requires forall i | 0 <= i < e :: nodes'[i] == nodes[i]
    ensures Below(nodes', e) == Below(nodes, e)
    decreases e
  {
    if e > 0 {
      BelowSame(nodes, nodes', e - 1);
      SameAnswers(nodes, nodes', e - 1, e - 1);
    }
  }

  /** No value is new, and nothing more is stale. */
  ghost predicate Calm<V>(nodes: seq<Node<V>>, nodes': seq<Node<V>>) {
    && Grounded(nodes) && Grounded(nodes') && SameBelow(nodes, nodes', |nodes|)
    && forall e | 0 <= e <= |nodes| :: Below(nodes', e) <= Below(nodes, e)
  }

  lemma CalmDigit<V>(nodes: seq<Node<V>>, nodes': seq<Node<V>>, i: nat)
    requires Calm(nodes, nodes') && i < |nodes|
    ensures Digit(nodes', i) <= Digit(nodes, i)
  {
    SameAnswers(nodes, nodes', |nodes|, i);
  }

  /** Node `i` is replaced by one with the same value. */
  lemma {:induction false} BelowPut<V>(nodes: seq<Node<V>>, i: nat, n: Node<V>, e: nat)
    requires i < |nodes| && Grounded(nodes) && Grounded(nodes[i := n]) && e <= |nodes|
    requires n.kind == nodes[i].kind && n.value == nodes[i].value
    ensures Below(nodes[i := n], e) + (if i < e then Stale(nodes[i], AnswersNow(nodes, i)) else 0)
         == Below(nodes, e) + (if i < e then Stale(n, AnswersNow(nodes, i)) else 0)
    decreases e
  {
    if e > 0 {
      BelowPut(nodes, i, n, e - 1);
      SameAnswers(nodes, nodes[i := n], |nodes|, e - 1);
    }
  }

  lemma PutGrounded<V>(nodes: seq<Node<V>>, i: nat, n: Node<V>)
    requires Grounded(nodes) && i < |nodes| && n.kind == nodes[i].kind && (nodes[i].value.Some? ==> n.value.Some?)
    ensures Grounded(nodes[i := n])
  {
    assert GroundedAt(nodes[i], i);
  }

  lemma PutCalm<V>(nodes: seq<Node<V>>, i: nat, n: Node<V>)
    requires Grounded(nodes) && i < |nodes| && n.kind == nodes[i].kind && n.value == nodes[i].value
    requires Stale(n, AnswersNow(nodes, i)) <= Stale(nodes[i], AnswersNow(nodes, i))
    ensures Calm(nodes, nodes[i := n])
  {
    PutGrounded(nodes, i, n);
    forall e | 0 <= e <= |nodes|
      ensures Below(nodes[i := n], e) <= Below(nodes, e)
    {
      BelowPut(nodes, i, n, e);
    }
  }

  lemma PostCalm<V>(sys: Sys<V>, to: nat, m: Msg<V>)
    requires Grounded(sys.nodes) && (m.Notify? || m.Subscribe? || m.Get?)
    ensures Calm(sys.nodes, Post(sys, to, m).nodes)
  {
    if to < |sys.nodes| && Accepts(sys, to) {
      var n := sys.nodes[to];
      AppendStale(n, AnswersNow(sys.nodes, to), m);
      PutCalm(sys.nodes, to, n.(mailbox := n.mailbox + [m]));
    }
  }

  lemma CalmThenPut<V>(nodes: seq<Node<V>>, mid: seq<Node<V>>, i: nat, n: Node<V>)
    requires Calm(nodes, mid) && i < |nodes| && n.kind == mid[i].kind && n.value == mid[i].value
    requires Stale(n, AnswersNow(mid, i)) <= Stale(mid[i], AnswersNow(mid, i))
    ensures Calm(nodes, mid[i := n])
  {
    PutCalm(mid, i, n);
    forall e | 0 <= e <= |nodes|
      ensures Below(mid[i := n], e) <= Below(nodes, e)
    {
      assert Below(mid[i := n], e) <= Below(mid, e);
    }
  }

  // ----- Answers

  ghost function AnsweredSnap<V>(n: Node<V>, k: nat, v: V): Node<V>
    requires n.phase.Answering? && k < |n.phase.snap.replies|
  {
    n.(phase := n.phase.(snap := n.phase.snap.(replies := n.phase.snap.replies[k := Some(v)])))
  }

  /** An answer can make one thing stale, above the node that gave it, and only if it is not the present answer. */
  lemma ReplyNode<V>(n: Node<V>, answers: seq<V>, t: nat, k: nat, v: V)
    requires t < |n.tasks| && Unanswered(n.tasks[t], k) && |n.tasks[t].replies| == |answers|
    ensures Stale(Answered(n, t, k, v), answers) <= Stale(n, answers) + One(v != answers[k])
  {
    TaskStale(n, answers, t, n.tasks[t].(replies := n.tasks[t].replies[k := Some(v)]));
    ReplyCurrent(answers, n.tasks[t], k, v);
  }

  lemma ReplySnap<V>(n: Node<V>, answers: seq<V>, k: nat, v: V)
    requires n.phase.Answering? && Unanswered(n.phase.snap, k) && |n.phase.snap.replies| == |answers|
    ensures Stale(AnsweredSnap(n, k, v), answers) <= Stale(n, answers) + One(v != answers[k])
  {
    ReplyCurrent(answers, n.phase.snap, k, v);
  }

  /** One node above `i` may have one stale thing more. */
  lemma RaisedBelow<V>(nodes: seq<Node<V>>, i: nat, d: nat, n: Node<V>, more: nat)
    requires Grounded(nodes) && i < d < |nodes| && n.kind == nodes[d].kind && n.value == nodes[d].value
    requires Stale(n, AnswersNow(nodes, d)) <= Stale(nodes[d], AnswersNow(nodes, d)) + more
    ensures Grounded(nodes[d := n]) && SameBelow(nodes, nodes[d := n], |nodes|)
    ensures forall e | 0 <= e <= |nodes| :: Below(nodes[d := n], e) <= Below(nodes, e) + if i < e then more else 0
  {
    PutGrounded(nodes, d, n);
    forall e | 0 <= e <= |nodes|
      ensures Below(nodes[d := n], e) <= Below(nodes, e) + if i < e then more else 0
    {
      BelowPut(nodes, d, n, e);
    }
  }

  lemma ReplyTaskBelow<V>(nodes: seq<Node<V>>, i: nat, d: nat, t: nat, k: nat, v: V)
    requires Grounded(nodes) && i < d < |nodes| && k < |Sources(nodes[d].kind)| && Sources(nodes[d].kind)[k] == i
    requires t < |nodes[d].tasks| && Unanswered(nodes[d].tasks[t], k)
    requires |nodes[d].tasks[t].replies| == |Sources(nodes[d].kind)|
    ensures var nodes' := nodes[d := Answered(nodes[d], t, k, v)];
            && Grounded(nodes') && SameBelow(nodes, nodes', |nodes|)
            && forall e | 0 <= e <= |nodes| ::
                 Below(nodes', e) <= Below(nodes, e) + if i < e then One(v != AnswerNow(nodes, i)) else 0
  {
    ReplyNode(nodes[d], AnswersNow(nodes, d), t, k, v);
    RaisedBelow(nodes, i, d, Answered(nodes[d], t, k, v), One(v != AnswerNow(nodes, i)));
  }

  lemma ReplySnapBelow<V>(nodes: seq<Node<V>>, i: nat, d: nat, k: nat, v: V)
    requires Grounded(nodes) && i < d < |nodes| && k < |Sources(nodes[d].kind)| && Sources(nodes[d].kind)[k] == i
    requires nodes[d].phase.Answering? && Unanswered(nodes[d].phase.snap, k)
    requires |nodes[d].phase.snap.replies| == |Sources(nodes[d].kind)|
    ensures var nodes' := nodes[d := AnsweredSnap(nodes[d], k, v)];
            && Grounded(nodes') && SameBelow(nodes, nodes', |nodes|)
            && forall e | 0 <= e <= |nodes| ::
                 Below(nodes', e) <= Below(nodes, e) + if i < e then One(v != AnswerNow(nodes, i)) else 0
  {
    ReplySnap(nodes[d], AnswersNow(nodes, d), k, v);
    RaisedBelow(nodes, i, d, AnsweredSnap(nodes[d], k, v), One(v != AnswerNow(nodes, i)));
  }

  lemma ReplyBelow<V>(was: seq<Node<V>>, sys: Sys<V>, i: nat, to: Requester, v: V)
    requires AllSound(was) && Grounded(sys.nodes) && |sys.nodes| == |was| && i < |was| && Addressed(was, i, to)
    requires forall d | 0 <= d < |was| && d != i :: sys.nodes[d] == was[d]
    ensures Grounded(Reply(sys, to, v).nodes) && SameBelow(sys.nodes, Reply(sys, to, v).nodes, |was|)
    ensures forall e | 0 <= e <= |was| ::
              Below(Reply(sys, to, v).nodes, e) <=
              Below(sys.nodes, e) + if i < e then One(v != AnswerNow(sys.nodes, i)) else 0
  {
    if !to.Client? {
      var d := to.node;
      assert SoundAt(was, d);
      var n := sys.nodes[d];
      if to.ByTask? && to.task < |n.tasks| && Unanswered(n.tasks[to.task], to.slot) {
        assert ReadsOk(was, Sources(n.kind), n.tasks[to.task]);
        ReplyTaskBelow(sys.nodes, i, d, to.task, to.slot, v);
      } else if to.ByHandler? && n.phase.Answering? && Unanswered(n.phase.snap, to.slot) {
        ReplySnapBelow(sys.nodes, i, d, to.slot, v);
      }
    }
  }

  lemma AnswerCalm<V>(sys: Sys<V>, i: nat)
    requires AllSound(sys.nodes) && Enabled(sys, Answer(i))
    ensures Calm(sys.nodes, Next(sys, Answer(i)).nodes)
  {
    SoundGrounded(sys.nodes);
    var n := sys.nodes[i];
    var v, answers := Computed(n.kind, n.phase.snap), AnswersNow(sys.nodes, i);
    var n' := n.(held := n.held + [v], phase := Draining);
    assert SoundAt(sys.nodes, i);
    PutCalm(sys.nodes, i, n');
    var put := Put(sys, i, n');
    ReplyBelow(sys.nodes, put, i, n.phase.to, v);
    SameAnswer(sys.nodes, put.nodes, |sys.nodes|, i);
    if Current(answers, n.phase.snap) {
      CurrentComputes(n.kind, answers, n.phase.snap);
    }
    forall e | 0 <= e <= |sys.nodes|
      ensures Below(Next(sys, Answer(i)).nodes, e) <= Below(sys.nodes, e)
    {
      BelowPut(sys.nodes, i, n', e);
    }
  }

  // ----- The other steps

  lemma PhaseStale<V>(n: Node<V>, n': Node<V>, answers: seq<V>)
    requires n'.kind == n.kind && n'.mailbox == n.mailbox && n'.tasks == n.tasks
    requires StaleSnap(answers, n'.phase) <= StaleSnap(answers, n.phase)
    ensures Stale(n', answers) <= Stale(n, answers)
  {
  }

  lemma LoopCalm<V>(sys: Sys<V>, a: Action<V>)
    requires Grounded(sys.nodes) && Enabled(sys, a) && (a.Drained? || a.RunIdle? || a.NotifyDone? || a.EnterLoop?)
    ensures Calm(sys.nodes, Next(sys, a).nodes)
  {
    var n, n' := sys.nodes[a.i], Next(sys, a).nodes[a.i];
    if a.EnterLoop? && n.kind.Derived? {
      SpawnStale(sys.nodes, n, AnswersNow(sys.nodes, a.i));
    } else {
      PhaseStale(n, n', AnswersNow(sys.nodes, a.i));
    }
    PutCalm(sys.nodes, a.i, n');
  }

  lemma SubscribeNextCalm<V>(sys: Sys<V>, i: nat)
    requires Grounded(sys.nodes) && Enabled(sys, SubscribeNext(i))
    ensures Calm(sys.nodes, Next(sys, SubscribeNext(i)).nodes)
  {
    var n := sys.nodes[i];
    var s := Sources(n.kind)[n.phase.subscribed];
    var mid, n' := Post(sys, s, Subscribe(i)).nodes, Next(sys, SubscribeNext(i)).nodes[i];
    PostCalm(sys, s, Subscribe(i));
    PhaseStale(mid[i], n', AnswersNow(mid, i));
    CalmThenPut(sys.nodes, mid, i, n');
  }

  lemma NotifyNextCalm<V>(sys: Sys<V>, i: nat)
    requires Grounded(sys.nodes) && Enabled(sys, NotifyNext(i))
    ensures Calm(sys.nodes, Next(sys, NotifyNext(i)).nodes)
  {
    var n := sys.nodes[i];
    var to := n.subscribers[n.phase.next];
    var mid, n' := Post(sys, to, Notify).nodes, Next(sys, NotifyNext(i)).nodes[i];
    PostCalm(sys, to, Notify);
    PhaseStale(mid[i], n', AnswersNow(mid, i));
    CalmThenPut(sys.nodes, mid, i, n');
  }

  lemma TaskSendCalm<V>(sys: Sys<V>, i: nat, t: nat)
    requires Grounded(sys.nodes) && Enabled(sys, TaskSend(i, t))
    ensures Calm(sys.nodes, Next(sys, TaskSend(i, t)).nodes)
  {
    var n := sys.nodes[i];
    var k := n.tasks[t].sent;
    var m := Get(ByTask(i, t, k));
    var mid := Post(sys, Sources(n.kind)[k], m).nodes;
    PostCalm(sys, Sources(n.kind)[k], m);
    TaskStale(mid[i], AnswersNow(mid, i), t, Asked(mid[i].tasks[t]));
    CalmThenPut(sys.nodes, mid, i, mid[i].(tasks := mid[i].tasks[t := Asked(mid[i].tasks[t])]));
  }

  lemma HandlerSendCalm<V>(sys: Sys<V>, i: nat)
    requires Grounded(sys.nodes) && Enabled(sys, HandlerSend(i))
    ensures Calm(sys.nodes, Next(sys, HandlerSend(i)).nodes)
  {
    var n := sys.nodes[i];
    var k := n.phase.snap.sent;
    var m := Get(ByHandler(i, k));
    var mid := Post(sys, Sources(n.kind)[k], m).nodes;
    PostCalm(sys, Sources(n.kind)[k], m);
    var n' := mid[i].(phase := n.phase.(snap := Asked(n.phase.snap)));
    PhaseStale(mid[i], n', AnswersNow(mid, i));
    CalmThenPut(sys.nodes, mid, i, n');
  }

  lemma DeliverCalm<V>(sys: Sys<V>, i: nat, t: nat)
    requires AllSound(sys.nodes) && Enabled(sys, Deliver(i, t))
    ensures Calm(sys.nodes, Next(sys, Deliver(i, t)).nodes)
  {
    SoundGrounded(sys.nodes);
    var n := sys.nodes[i];
    assert SoundAt(sys.nodes, i);
    assert ReadsOk(sys.nodes, Sources(n.kind), n.tasks[t]);
    HandStale(n, AnswersNow(sys.nodes, i), t);
    PutCalm(sys.nodes, i, Next(sys, Deliver(i, t)).nodes[i]);
  }

  // ----- Handling a message

  /** Handling a message changes its node alone, but for the answer to a `Get`. */
  lemma HandleIsAbsorb<V>(sys: Sys<V>, i: nat, m: Msg<V>)
    requires i < |sys.nodes|
    ensures var put := Put(sys, i, Absorbed(sys.nodes, sys.nodes[i], m));
            Handle(sys, i, m) == if m.Get? && sys.nodes[i].value.Some? then Reply(put, m.from, sys.nodes[i].value.value)
                                 else put
  {
    var n := sys.nodes[i];
    assert sys.nodes[i := n] == sys.nodes;
  }

  /** Node `i` once it has handled the next message in its mailbox. */
  ghost function Handled<V>(sys: Sys<V>, i: nat): Node<V>
    requires i < |sys.nodes| && sys.nodes[i].mailbox != []
  {
    Absorbed(sys.nodes[i := Popped(sys.nodes[i])], Popped(sys.nodes[i]), sys.nodes[i].mailbox[0])
  }

  /** The next message in the mailbox of node `i` is one that changes its value. */
  ghost predicate Changes<V>(sys: Sys<V>, i: nat)
    requires i < |sys.nodes| && sys.nodes[i].mailbox != []
  {
    Handled(sys, i).changes != sys.nodes[i].changes
  }

  lemma ReceiveIs<V>(sys: Sys<V>, i: nat)
    requires Enabled(sys, Receive(i))
    ensures var n, put := sys.nodes[i], Put(sys, i, Handled(sys, i));
            Next(sys, Receive(i)) ==
            if n.mailbox[0].Get? && n.value.Some? then Reply(put, n.mailbox[0].from, n.value.value) else put
  {
    var popped := Put(sys, i, Popped(sys.nodes[i]));
    HandleIsAbsorb(popped, i, sys.nodes[i].mailbox[0]);
    assert popped.nodes[i := Handled(sys, i)] == sys.nodes[i := Handled(sys, i)];
  }

  lemma QuietNode<V>(nodes: seq<Node<V>>, n: Node<V>, answers: seq<V>)
    requires n.mailbox != [] && !n.phase.Answering?
    requires Absorbed(nodes, Popped(n), n.mailbox[0]).changes == n.changes
    ensures var n' := Absorbed(nodes, Popped(n), n.mailbox[0]);
            n'.kind == n.kind && n'.value == n.value && Stale(n', answers) <= Stale(n, answers)
  {
    PopStale(n, answers);
    SpawnStale(nodes, Popped(n), answers);
    match n.mailbox[0]
    case Notify =>
    case _ => PhaseStale(Popped(n), Absorbed(nodes, Popped(n), n.mailbox[0]), answers);
  }

  lemma QuietReceive<V>(sys: Sys<V>, i: nat)
    requires AllSound(sys.nodes) && Enabled(sys, Receive(i)) && !Changes(sys, i)
    ensures Calm(sys.nodes, Next(sys, Receive(i)).nodes)
  {
    SoundGrounded(sys.nodes);
    var n := sys.nodes[i];
    var put := Put(sys, i, Handled(sys, i));
    QuietNode(sys.nodes[i := Popped(n)], n, AnswersNow(sys.nodes, i));
    PutCalm(sys.nodes, i, Handled(sys, i));
    ReceiveIs(sys, i);
    if n.mailbox[0].Get? && n.value.Some? {
      assert SoundAt(sys.nodes, i) && MessageOk(sys.nodes, i, n, n.mailbox[0]);
      ReplyBelow(sys.nodes, put, i, n.mailbox[0].from, n.value.value);
    }
  }

  /** A change is the application of something stale, or brings the one value that is not. */
  lemma ChangedNode<V>(nodes: seq<Node<V>>, n: Node<V>, answers: seq<V>)
    requires n.mailbox != [] && !n.phase.Answering? && (n.kind.Source? ==> n.value.Some?)
    requires Absorbed(nodes, Popped(n), n.mailbox[0]).changes != n.changes
    ensures var n' := Absorbed(nodes, Popped(n), n.mailbox[0]);
            && n'.kind == n.kind && n'.value.Some?
            && 2 * Stale(n', answers) + One(n.kind.Derived? && n'.value != Some(n.kind.selector(answers)))
             < 2 * Stale(n, answers) + One(n.kind.Derived? && n.value != Some(n.kind.selector(answers)))
  {
    var n' := Absorbed(nodes, Popped(n), n.mailbox[0]);
    PopStale(n, answers);
    PhaseStale(Popped(n), n', answers);
  }

  /** So the node's digit falls, and those of the nodes below stay. */
  lemma ChangeDigits<V>(nodes: seq<Node<V>>, i: nat, n: Node<V>)
    requires Grounded(nodes) && i < |nodes| && n.kind == nodes[i].kind && n.value.Some?
    requires var answers := AnswersNow(nodes, i);
             2 * Stale(n, answers) + One(n.kind.Derived? && n.value != Some(n.kind.selector(answers)))
             < 2 * Stale(nodes[i], answers) + Wrong(nodes, i)
    ensures Grounded(nodes[i := n]) && Digit(nodes[i := n], i) < Digit(nodes, i)
    ensures forall e | 0 <= e < i :: Digit(nodes[i := n], e) == Digit(nodes, e)
  {
    var nodes' := nodes[i := n];
    PutGrounded(nodes, i, n);
    BelowSame(nodes, nodes', i);
    SameAnswers(nodes, nodes', i, i);
    forall e | 0 <= e < i
      ensures Digit(nodes', e) == Digit(nodes, e)
    {
      BelowSame(nodes, nodes', e + 1);
      SameAnswers(nodes, nodes', i, e);
    }
  }

  lemma ChangingReceive<V>(sys: Sys<V>, i: nat)
    requires AllSound(sys.nodes) && Enabled(sys, Receive(i)) && Changes(sys, i)
    ensures Next(sys, Receive(i)).nodes == sys.nodes[i := Handled(sys, i)]
    ensures Grounded(sys.nodes) && Grounded(sys.nodes[i := Handled(sys, i)])
    ensures Digit(sys.nodes[i := Handled(sys, i)], i) < Digit(sys.nodes, i)
    ensures forall e | 0 <= e < i :: Digit(sys.nodes[i := Handled(sys, i)], e) == Digit(sys.nodes, e)
  {
    SoundGrounded(sys.nodes);
    ReceiveIs(sys, i);
    assert SoundAt(sys.nodes, i);
    ChangedNode(sys.nodes[i := Popped(sys.nodes[i])], sys.nodes[i], AnswersNow(sys.nodes, i));
    ChangeDigits(sys.nodes, i, Handled(sys, i));
  }

  // ----- Every step

  lemma QuietStep<V>(sys: Sys<V>, a: Action<V>)
    requires AllSound(sys.nodes) && Enabled(sys, a) && !a.ClientSend? && !(a.Receive? && Changes(sys, a.i))
    ensures Calm(sys.nodes, Next(sys, a).nodes)
  {
    SoundGrounded(sys.nodes);
    match a
    case SubscribeNext(i) => SubscribeNextCalm(sys, i);
    case Receive(i) => QuietReceive(sys, i);
    case NotifyNext(i) => NotifyNextCalm(sys, i);
    case TaskSend(i, t) => TaskSendCalm(sys, i, t);
    case HandlerSend(i) => HandlerSendCalm(sys, i);
    case Deliver(i, t) => DeliverCalm(sys, i, t);
    case Answer(i) => AnswerCalm(sys, i);
    case _ => LoopCalm(sys, a);
  }
}
