/**
 What a cached value is made of, in every run: with any scheduling, any order of deliveries and any overflow.
 */
module ReactiveProvenance {
  import opened Options
  import opened Reactive

  /** `v` is one of the values held from number `since` on. */
  ghost predicate HeldSince<V>(held: seq<V>, since: nat, v: V) {
    exists j | 0 <= j < |held| && since <= j + 1 :: held[j] == v
  }

  ghost predicate ReadsOk<V>(nodes: seq<Node<V>>, sources: seq<nat>, task: Task<V>) {
    && |task.replies| == |sources| && |task.since| == |sources|
    && (forall k | 0 <= k < |sources| ::
          && sources[k] < |nodes|
          && task.since[k] <= Latest(nodes[sources[k]])
          && (task.replies[k].Some? ==>
                HeldSince(nodes[sources[k]].held, task.since[k], task.replies[k].value)))
  }

  /** A `Get` of a recompute or of a blocked handler is addressed to the source its slot stands for. */
  ghost predicate Addressed<V>(nodes: seq<Node<V>>, i: nat, r: Requester) {
    !r.Client? ==>
      && r.node < |nodes| && r.slot < |Sources(nodes[r.node].kind)|
      && Sources(nodes[r.node].kind)[r.slot] == i
  }

  ghost predicate Proposed<V>(n: Node<V>, task: nat, v: V) {
    n.kind.Derived? && task < |n.tasks| && Complete(n.tasks[task]) && v == Computed(n.kind, n.tasks[task])
  }

  ghost predicate MessageOk<V>(nodes: seq<Node<V>>, i: nat, n: Node<V>, m: Msg<V>) {
    && (m.Get? ==> Addressed(nodes, i, m.from))
    && (m.UpdateCache? ==> Proposed(n, m.task, m.v))
  }

  ghost predicate Sound<V>(nodes: seq<Node<V>>, i: nat, n: Node<V>) {
    && (forall k | 0 <= k < |Sources(n.kind)| :: Sources(n.kind)[k] < i)
    && (forall t | 0 <= t < |n.tasks| :: ReadsOk(nodes, Sources(n.kind), n.tasks[t]))
    && (n.phase.Answering? ==>
          n.value.None? && ReadsOk(nodes, Sources(n.kind), n.phase.snap) && Addressed(nodes, i, n.phase.to))
    && (forall j | 0 <= j < |n.mailbox| :: MessageOk(nodes, i, n, n.mailbox[j]))
    && (n.kind.Source? ==> n.value.Some?)
    && (n.value.Some? ==> n.held != [] && n.held[|n.held| - 1] == n.value.value)
    && (n.kind.Derived? && n.value.Some? ==> n.applied.Some? && Proposed(n, n.applied.value, n.value.value))
    && n.rounds + (if n.dirty then 1 else 0) <= n.changes
  }

  ghost predicate SoundAt<V>(nodes: seq<Node<V>>, i: nat)
    requires i < |nodes|
  {
    Sound(nodes, i, nodes[i])
  }

  ghost predicate AllSound<V>(nodes: seq<Node<V>>) {
    forall i | 0 <= i < |nodes| :: SoundAt(nodes, i)
  }

  /** A node may be replaced by one with the same topology that has held at least as much. */
  ghost predicate Grows<V>(n: Node<V>, n': Node<V>) {
    && n'.kind == n.kind && |n.held| <= |n'.held| && n'.held[..|n.held|] == n.held
    && Latest(n) <= Latest(n')
  }

  lemma HeldGrows<V>(held: seq<V>, held': seq<V>, since: nat, v: V)
    requires |held| <= |held'| && held'[..|held|] == held && HeldSince(held, since, v)
    ensures HeldSince(held', since, v)
  {
    var j :| 0 <= j < |held| && since <= j + 1 && held[j] == v;
    assert held'[j] == held'[..|held|][j];
  }

  lemma ReadsGrow<V>(nodes: seq<Node<V>>, i: nat, n': Node<V>, sources: seq<nat>, task: Task<V>)
    requires i < |nodes| && Grows(nodes[i], n') && ReadsOk(nodes, sources, task)
    ensures ReadsOk(nodes[i := n'], sources, task)
  {
    forall k | 0 <= k < |sources| && task.replies[k].Some?
      ensures HeldSince(nodes[i := n'][sources[k]].held, task.since[k], task.replies[k].value)
    {
      if sources[k] == i {
        HeldGrows(nodes[i].held, n'.held, task.since[k], task.replies[k].value);
      }
    }
  }

  lemma SoundGrows<V>(nodes: seq<Node<V>>, i: nat, n': Node<V>, j: nat, n: Node<V>)
    requires i < |nodes| && Grows(nodes[i], n') && Sound(nodes, j, n)
    ensures Sound(nodes[i := n'], j, n)
  {
    forall t | 0 <= t < |n.tasks|
      ensures ReadsOk(nodes[i := n'], Sources(n.kind), n.tasks[t])
    {
      ReadsGrow(nodes, i, n', Sources(n.kind), n.tasks[t]);
    }
    if n.phase.Answering? {
      ReadsGrow(nodes, i, n', Sources(n.kind), n.phase.snap);
    }
    forall k | 0 <= k < |n.mailbox|
      ensures MessageOk(nodes[i := n'], j, n, n.mailbox[k])
    {
      assert MessageOk(nodes, j, n, n.mailbox[k]);
    }
  }

  lemma PutSound<V>(nodes: seq<Node<V>>, i: nat, n': Node<V>)
    requires AllSound(nodes) && i < |nodes| && Grows(nodes[i], n') && Sound(nodes, i, n')
    ensures AllSound(nodes[i := n'])
  {
    var nodes' := nodes[i := n'];
    forall j | 0 <= j < |nodes'|
      ensures SoundAt(nodes', j)
    {
      assert SoundAt(nodes, j);
      SoundGrows(nodes, i, n', j, nodes'[j]);
    }
  }

  lemma PostSound<V>(sys: Sys<V>, to: nat, m: Msg<V>)
    requires AllSound(sys.nodes) && !m.UpdateCache?
    requires m.Get? ==> Addressed(sys.nodes, to, m.from)
    ensures AllSound(Post(sys, to, m).nodes)
  {
    if to < |sys.nodes| && Accepts(sys, to) {
      var n := sys.nodes[to];
      assert SoundAt(sys.nodes, to);
      var n' := n.(mailbox := n.mailbox + [m]);
      forall j | 0 <= j < |n'.mailbox|
        ensures MessageOk(sys.nodes, to, n', n'.mailbox[j])
      {
        if j < |n.mailbox| {
          assert MessageOk(sys.nodes, to, n, n.mailbox[j]);
        }
      }
      PutSound(sys.nodes, to, n');
    }
  }

  /** The last value of source `i` is recent enough for whoever asked. */
  ghost predicate Awaits<V>(nodes: seq<Node<V>>, i: nat, r: Requester)
    requires i < |nodes|
  {
    match r
    case Client => true
    case ByTask(d, t, k) =>
      d < |nodes| && t < |nodes[d].tasks| && k < |nodes[d].tasks[t].since| ==>
        nodes[d].tasks[t].since[k] <= |nodes[i].held|
    case ByHandler(d, k) =>
      d < |nodes| && nodes[d].phase.Answering? && k < |nodes[d].phase.snap.since| ==>
        nodes[d].phase.snap.since[k] <= |nodes[i].held|
  }

  lemma SoundAwaits<V>(nodes: seq<Node<V>>, i: nat, r: Requester)
    requires AllSound(nodes) && i < |nodes| && Addressed(nodes, i, r) && nodes[i].value.Some?
    ensures Awaits(nodes, i, r)
  {
    if !r.Client? {
      assert SoundAt(nodes, r.node);
    }
  }

  /** A source without a value has one more number to give than it has held values. */
  lemma AnswerAwaits<V>(nodes: seq<Node<V>>, i: nat, r: Requester, n': Node<V>)
    requires AllSound(nodes) && i < |nodes| && Addressed(nodes, i, r) && |n'.held| == |nodes[i].held| + 1
    ensures Awaits(nodes[i := n'], i, r)
  {
    if !r.Client? {
      assert SoundAt(nodes, r.node) && r.node != i;
    }
  }

  lemma AnsweredReads<V>(nodes: seq<Node<V>>, i: nat, sources: seq<nat>, task: Task<V>, k: nat, v: V)
    requires ReadsOk(nodes, sources, task) && k < |sources| && i < |nodes| && sources[k] == i
    requires nodes[i].held != [] && nodes[i].held[|nodes[i].held| - 1] == v && task.since[k] <= |nodes[i].held|
    ensures ReadsOk(nodes, sources, task.(replies := task.replies[k := Some(v)]))
  {
    var last := |nodes[i].held| - 1;
    assert task.since[k] <= last + 1 && nodes[i].held[last] == v;
  }

  lemma AnsweredMessages<V>(nodes: seq<Node<V>>, d: nat, n: Node<V>, t: nat, k: nat, v: V)
    requires Sound(nodes, d, n) && t < |n.tasks| && Unanswered(n.tasks[t], k)
    ensures var n' := Answered(n, t, k, v);
            && (forall j | 0 <= j < |n'.mailbox| :: MessageOk(nodes, d, n', n'.mailbox[j]))
            && (n.kind.Derived? && n.value.Some? ==> Proposed(n', n.applied.value, n.value.value))
  {
    var n' := Answered(n, t, k, v);
    assert !Complete(n.tasks[t]);
    forall j | 0 <= j < |n'.mailbox|
      ensures MessageOk(nodes, d, n', n'.mailbox[j])
    {
      assert MessageOk(nodes, d, n, n.mailbox[j]);
    }
  }

  lemma ReplyTaskSound<V>(nodes: seq<Node<V>>, i: nat, d: nat, t: nat, k: nat, v: V)
    requires AllSound(nodes) && i < |nodes| && d < |nodes| && k < |Sources(nodes[d].kind)|
    requires Sources(nodes[d].kind)[k] == i && t < |nodes[d].tasks| && Unanswered(nodes[d].tasks[t], k)
    requires nodes[i].held != [] && nodes[i].held[|nodes[i].held| - 1] == v && Awaits(nodes, i, ByTask(d, t, k))
    ensures AllSound(nodes[d := Answered(nodes[d], t, k, v)])
  {
    var n := nodes[d];
    assert SoundAt(nodes, d);
    AnsweredReads(nodes, i, Sources(n.kind), n.tasks[t], k, v);
    AnsweredMessages(nodes, d, n, t, k, v);
    PutSound(nodes, d, Answered(n, t, k, v));
  }

  lemma ReplyHandlerSound<V>(nodes: seq<Node<V>>, i: nat, d: nat, k: nat, v: V)
    requires AllSound(nodes) && i < |nodes| && d < |nodes| && k < |Sources(nodes[d].kind)|
    requires Sources(nodes[d].kind)[k] == i && nodes[d].phase.Answering? && Unanswered(nodes[d].phase.snap, k)
    requires nodes[i].held != [] && nodes[i].held[|nodes[i].held| - 1] == v && Awaits(nodes, i, ByHandler(d, k))
    ensures var snap := nodes[d].phase.snap.(replies := nodes[d].phase.snap.replies[k := Some(v)]);
            AllSound(nodes[d := nodes[d].(phase := nodes[d].phase.(snap := snap))])
  {
    var n := nodes[d];
    var n' := n.(phase := n.phase.(snap := n.phase.snap.(replies := n.phase.snap.replies[k := Some(v)])));
    assert SoundAt(nodes, d);
    AnsweredReads(nodes, i, Sources(n.kind), n.phase.snap, k, v);
    forall j | 0 <= j < |n'.mailbox|
      ensures MessageOk(nodes, d, n', n'.mailbox[j])
    {
      assert MessageOk(nodes, d, n, n.mailbox[j]);
    }
    PutSound(nodes, d, n');
  }

  /** A source answers with the value it holds at this very moment. */
  lemma ReplySound<V>(sys: Sys<V>, i: nat, to: Requester, v: V)
    requires AllSound(sys.nodes) && i < |sys.nodes| && Addressed(sys.nodes, i, to)
    requires sys.nodes[i].held != [] && sys.nodes[i].held[|sys.nodes[i].held| - 1] == v && Awaits(sys.nodes, i, to)
    ensures AllSound(Reply(sys, to, v).nodes)
  {
    match to
    case Client =>
    case ByTask(d, t, k) =>
      if t < |sys.nodes[d].tasks| && Unanswered(sys.nodes[d].tasks[t], k) {
        ReplyTaskSound(sys.nodes, i, d, t, k, v);
      }
    case ByHandler(d, k) =>
      if sys.nodes[d].phase.Answering? && Unanswered(sys.nodes[d].phase.snap, k) {
        ReplyHandlerSound(sys.nodes, i, d, k, v);
      }
  }

  /** A change of bookkeeping: no message, no value, no read is new. */
  lemma TidySound<V>(nodes: seq<Node<V>>, i: nat, n': Node<V>)
    requires AllSound(nodes) && i < |nodes| && n'.kind == nodes[i].kind && n'.held == nodes[i].held
    requires n'.value == nodes[i].value && n'.applied == nodes[i].applied
    requires n'.mailbox == nodes[i].mailbox
             || (nodes[i].mailbox != [] && n'.mailbox == nodes[i].mailbox[1..])
    requires |n'.tasks| >= |nodes[i].tasks|
    requires forall t | 0 <= t < |nodes[i].tasks| :: n'.tasks[t].replies == nodes[i].tasks[t].replies
                                                     && n'.tasks[t].since == nodes[i].tasks[t].since
    requires forall t | |nodes[i].tasks| <= t < |n'.tasks| :: ReadsOk(nodes, Sources(n'.kind), n'.tasks[t])
    requires n'.phase.Answering? ==>
               && n'.value.None? && ReadsOk(nodes, Sources(n'.kind), n'.phase.snap)
               && Addressed(nodes, i, n'.phase.to)
    requires n'.rounds + (if n'.dirty then 1 else 0) <= n'.changes
    ensures AllSound(nodes[i := n'])
  {
    var n := nodes[i];
    assert SoundAt(nodes, i);
    forall j | 0 <= j < |n'.mailbox|
      ensures MessageOk(nodes, i, n', n'.mailbox[j])
    {
      assert MessageOk(nodes, i, n, n'.mailbox[j]) by {
        assert n'.mailbox[j] == n.mailbox[if n'.mailbox == n.mailbox then j else j + 1];
      }
    }
    PutSound(nodes, i, n');
  }

  lemma NewTaskReads<V>(nodes: seq<Node<V>>, sources: seq<nat>)
    requires forall k | 0 <= k < |sources| :: sources[k] < |nodes|
    ensures ReadsOk(nodes, sources, NewTask(nodes, sources))
  {
  }

  /** Storing a value: it is held from now on. */
  lemma StoredSound<V>(nodes: seq<Node<V>>, i: nat, n': Node<V>, v: V)
    requires AllSound(nodes) && i < |nodes| && !nodes[i].phase.Answering?
    requires n' == Stored(nodes[i].(applied := n'.applied), v)
    requires n'.kind.Derived? ==> n'.applied.Some? && Proposed(n', n'.applied.value, v)
    ensures AllSound(nodes[i := n'])
  {
    var n := nodes[i];
    assert SoundAt(nodes, i);
    forall j | 0 <= j < |n'.mailbox|
      ensures MessageOk(nodes, i, n', n'.mailbox[j])
    {
      assert MessageOk(nodes, i, n, n.mailbox[j]);
    }
    PutSound(nodes, i, n');
  }

  lemma HandleSound<V>(sys: Sys<V>, i: nat, m: Msg<V>)
    requires AllSound(sys.nodes) && i < |sys.nodes| && MessageOk(sys.nodes, i, sys.nodes[i], m)
    requires sys.nodes[i].phase.Draining?
    ensures AllSound(Handle(sys, i, m).nodes)
  {
    var n := sys.nodes[i];
    assert SoundAt(sys.nodes, i);
    NewTaskReads(sys.nodes, Sources(n.kind));
    match m
    case Notify => TidySound(sys.nodes, i, Handle(sys, i, m).nodes[i]);
    case Subscribe(_) => TidySound(sys.nodes, i, Handle(sys, i, m).nodes[i]);
    case Set(v) =>
      if n.kind.Source? {
        StoredSound(sys.nodes, i, Stored(n, v), v);
      }
    case Mutate(f) =>
      if n.kind.Source? && n.value.Some? {
        StoredSound(sys.nodes, i, Stored(n, f(n.value.value)), f(n.value.value));
      }
    case UpdateCache(t, v) =>
      if n.value != Some(v) {
        StoredSound(sys.nodes, i, Cached(n, t, v), v);
      } else {
        CachedAgain(sys.nodes, i, t, v);
      }
    case Get(from) =>
      if n.value.Some? {
        SoundAwaits(sys.nodes, i, from);
        ReplySound(sys, i, from, n.value.value);
      } else if n.kind.Derived? {
        TidySound(sys.nodes, i, Handle(sys, i, m).nodes[i]);
      }
  }

  /** Applying an update that changes nothing: the cache now also stands for this task. */
  lemma CachedAgain<V>(nodes: seq<Node<V>>, i: nat, t: nat, v: V)
    requires AllSound(nodes) && i < |nodes| && nodes[i].value == Some(v) && Proposed(nodes[i], t, v)
    ensures AllSound(nodes[i := nodes[i].(applied := Some(t))])
  {
    var n := nodes[i];
    var n' := n.(applied := Some(t));
    assert SoundAt(nodes, i);
    forall j | 0 <= j < |n'.mailbox|
      ensures MessageOk(nodes, i, n', n'.mailbox[j])
    {
      assert MessageOk(nodes, i, n, n.mailbox[j]);
    }
    PutSound(nodes, i, n');
  }

  lemma ReceiveSound<V>(sys: Sys<V>, i: nat)
    requires AllSound(sys.nodes) && Enabled(sys, Receive(i))
    ensures AllSound(Next(sys, Receive(i)).nodes)
  {
    var n := sys.nodes[i];
    assert SoundAt(sys.nodes, i);
    assert MessageOk(sys.nodes, i, n, n.mailbox[0]);
    TidySound(sys.nodes, i, Popped(n));
    HandleSound(Put(sys, i, Popped(n)), i, n.mailbox[0]);
  }

  lemma AnswerSound<V>(sys: Sys<V>, i: nat)
    requires AllSound(sys.nodes) && Enabled(sys, Answer(i))
    ensures AllSound(Next(sys, Answer(i)).nodes)
  {
    var n := sys.nodes[i];
    var v := Computed(n.kind, n.phase.snap);
    var n' := n.(held := n.held + [v], phase := Draining);
    assert SoundAt(sys.nodes, i);
    forall j | 0 <= j < |n'.mailbox|
      ensures MessageOk(sys.nodes, i, n', n'.mailbox[j])
    {
      assert MessageOk(sys.nodes, i, n, n.mailbox[j]);
    }
    PutSound(sys.nodes, i, n');
    AnswerAwaits(sys.nodes, i, n.phase.to, n');
    ReplySound(Put(sys, i, n'), i, n.phase.to, v);
  }

  lemma ProposeSound<V>(nodes: seq<Node<V>>, i: nat, t: nat, v: V, n': Node<V>)
    requires AllSound(nodes) && i < |nodes| && Proposed(nodes[i], t, v)
    requires n' == nodes[i].(mailbox := nodes[i].mailbox + [UpdateCache(t, v)])
    ensures AllSound(nodes[i := n'])
  {
    assert SoundAt(nodes, i);
    forall j | 0 <= j < |n'.mailbox|
      ensures MessageOk(nodes, i, n', n'.mailbox[j])
    {
      if j < |nodes[i].mailbox| {
        assert MessageOk(nodes, i, nodes[i], nodes[i].mailbox[j]);
      }
    }
    PutSound(nodes, i, n');
  }

  lemma HandedSound<V>(nodes: seq<Node<V>>, i: nat, t: nat)
    requires AllSound(nodes) && i < |nodes| && nodes[i].kind.Derived? && t < |nodes[i].tasks|
    requires Complete(nodes[i].tasks[t])
    ensures AllSound(nodes[i := Handed(nodes[i], t)])
  {
    var n := nodes[i];
    var n' := Handed(n, t);
    var n1 := n'.(mailbox := n.mailbox);
    assert SoundAt(nodes, i);
    TidySound(nodes, i, n1);
    assert Complete(n1.tasks[t]);
    ProposeSound(nodes[i := n1], i, t, Computed(n.kind, n.tasks[t]), n');
    assert nodes[i := n1][i := n'] == nodes[i := n'];
  }

  lemma DeliverSound<V>(sys: Sys<V>, i: nat, t: nat)
    requires AllSound(sys.nodes) && Enabled(sys, Deliver(i, t))
    ensures AllSound(Next(sys, Deliver(i, t)).nodes)
  {
    if Accepts(sys, i) {
      HandedSound(sys.nodes, i, t);
    } else {
      assert SoundAt(sys.nodes, i);
      TidySound(sys.nodes, i, Next(sys, Deliver(i, t)).nodes[i]);
    }
  }

  lemma AskSound<V>(sys: Sys<V>, i: nat, r: Requester, n': Node<V>)
    requires AllSound(sys.nodes) && i < |sys.nodes| && !r.Client? && r.node == i
    requires r.slot < |Sources(n'.kind)| && n'.kind == sys.nodes[i].kind
    requires n' == sys.nodes[i].(tasks := n'.tasks, phase := n'.phase) && |n'.tasks| == |sys.nodes[i].tasks|
    requires forall t | 0 <= t < |n'.tasks| :: n'.tasks[t] == sys.nodes[i].tasks[t].(sent := n'.tasks[t].sent)
    requires n'.phase.Answering? ==>
               && sys.nodes[i].phase.Answering? && n'.phase.to == sys.nodes[i].phase.to
               && n'.phase.snap == sys.nodes[i].phase.snap.(sent := n'.phase.snap.sent)
    ensures AllSound(Put(Post(sys, Sources(n'.kind)[r.slot], Get(r)), i, n').nodes)
  {
    var s := Sources(n'.kind)[r.slot];
    PostSound(sys, s, Get(r));
    assert SoundAt(sys.nodes, i);
    var sent := Post(sys, s, Get(r));
    assert SoundAt(sent.nodes, i);
    TidySound(sent.nodes, i, n');
  }

  lemma PostOnlyAppends<V>(sys: Sys<V>, to: nat, m: Msg<V>, i: nat)
    requires i < |sys.nodes|
    ensures |Post(sys, to, m).nodes| == |sys.nodes|
    ensures var n' := Post(sys, to, m).nodes[i];
            n' == sys.nodes[i].(mailbox := n'.mailbox)
  {
  }

  lemma NotifySound<V>(sys: Sys<V>, i: nat)
    requires AllSound(sys.nodes) && Enabled(sys, NotifyNext(i))
    ensures AllSound(Next(sys, NotifyNext(i)).nodes)
  {
    var n := sys.nodes[i];
    var to := n.subscribers[n.phase.next];
    PostSound(sys, to, Notify);
    var sent := Post(sys, to, Notify);
    PostOnlyAppends(sys, to, Notify, i);
    assert SoundAt(sent.nodes, i);
    if Accepts(sys, to) {
      TidySound(sent.nodes, i, sent.nodes[i].(phase := Notifying(n.phase.next + 1)));
    } else {
      var k := n.phase.next;
      TidySound(sent.nodes, i, sent.nodes[i].(subscribers := n.subscribers[..k] + n.subscribers[k + 1..]));
    }
  }

  lemma SubscribeSound<V>(sys: Sys<V>, i: nat)
    requires AllSound(sys.nodes) && Enabled(sys, SubscribeNext(i))
    ensures AllSound(Next(sys, SubscribeNext(i)).nodes)
  {
    var n := sys.nodes[i];
    var s := Sources(n.kind)[n.phase.subscribed];
    PostSound(sys, s, Subscribe(i));
    PostOnlyAppends(sys, s, Subscribe(i), i);
    var sent := Post(sys, s, Subscribe(i));
    assert SoundAt(sent.nodes, i);
    TidySound(sent.nodes, i, sent.nodes[i].(phase := Starting(n.phase.subscribed + 1)));
  }

  lemma LoopSound<V>(sys: Sys<V>, a: Action<V>)
    requires AllSound(sys.nodes) && Enabled(sys, a)
    requires a.EnterLoop? || a.Drained? || a.RunIdle? || a.NotifyDone?
    ensures AllSound(Next(sys, a).nodes)
  {
    assert SoundAt(sys.nodes, a.i);
    NewTaskReads(sys.nodes, Sources(sys.nodes[a.i].kind));
    TidySound(sys.nodes, a.i, Next(sys, a).nodes[a.i]);
  }

  lemma AskStepSound<V>(sys: Sys<V>, a: Action<V>)
    requires AllSound(sys.nodes) && Enabled(sys, a)
    requires a.TaskSend? || a.HandlerSend?
    ensures AllSound(Next(sys, a).nodes)
  {
    var n := sys.nodes[a.i];
    assert SoundAt(sys.nodes, a.i);
    if a.TaskSend? {
      AskSound(sys, a.i, ByTask(a.i, a.t, n.tasks[a.t].sent), n.(tasks := n.tasks[a.t := Asked(n.tasks[a.t])]));
    } else {
      AskSound(sys, a.i, ByHandler(a.i, n.phase.snap.sent), n.(phase := n.phase.(snap := Asked(n.phase.snap))));
    }
  }

  lemma StepSound<V>(sys: Sys<V>, a: Action<V>)
    requires AllSound(sys.nodes) && Enabled(sys, a)
    ensures AllSound(Next(sys, a).nodes)
  {
    match a
    case ClientSend(to, m) => PostSound(sys, to, m);
    case SubscribeNext(i) => SubscribeSound(sys, i);
    case EnterLoop(_) => LoopSound(sys, a);
    case Receive(i) => ReceiveSound(sys, i);
    case Drained(_) => LoopSound(sys, a);
    case RunIdle(_) => LoopSound(sys, a);
    case NotifyNext(i) => NotifySound(sys, i);
    case NotifyDone(_) => LoopSound(sys, a);
    case TaskSend(_, _) => AskStepSound(sys, a);
    case HandlerSend(_) => AskStepSound(sys, a);
    case Deliver(i, t) => DeliverSound(sys, i, t);
    case Answer(i) => AnswerSound(sys, i);
  }

  lemma {:induction false} RunSound<V>(sys: Sys<V>, acts: seq<Action<V>>)
    requires AllSound(sys.nodes) && Legal(sys, acts)
    ensures AllSound(Exec(sys, acts).nodes)
    decreases |acts|
  {
    if acts != [] {
      RunSound(sys, acts[..|acts| - 1]);
      StepSound(Exec(sys, acts[..|acts| - 1]), acts[|acts| - 1]);
    }
  }

  lemma ReachableSound<V(!new)>(sys: Sys<V>)
    requires Reachable(sys)
    ensures AllSound(sys.nodes)
  {
    var init: Sys<V>, acts :| Init(init) && Legal(init, acts) && Exec(init, acts) == sys;
    forall i | 0 <= i < |init.nodes|
      ensures SoundAt(init.nodes, i)
    {
      assert Fresh(init.nodes[i], i);
    }
    RunSound(init, acts);
  }

  /**
   Whatever the schedule, a cached value is the selector applied to values its sources really held, each at some
   moment from the spawning of the recompute that produced it on.
   */
  lemma CacheWitnessed<V(!new)>(sys: Sys<V>, d: nat)
    requires Reachable(sys) && d < |sys.nodes|
    requires sys.nodes[d].kind.Derived? && sys.nodes[d].value.Some?
    ensures exists t | 0 <= t < |sys.nodes[d].tasks| ::
              && Complete(sys.nodes[d].tasks[t])
              && sys.nodes[d].value.value == Computed(sys.nodes[d].kind, sys.nodes[d].tasks[t])
              && ReadsOk(sys.nodes, sys.nodes[d].kind.sources, sys.nodes[d].tasks[t])
  {
    ReachableSound(sys);
    var n := sys.nodes[d];
    assert SoundAt(sys.nodes, d);
    var t := n.applied.value;
    assert Proposed(n, t, n.value.value);
    assert ReadsOk(sys.nodes, n.kind.sources, n.tasks[t]);
  }

  // ----- Who is notified, and when

  /** A step makes a node dirty only by a change, and a derived node changes only to a different value. */
  ghost predicate DirtyOk<V>(n: Node<V>, n': Node<V>) {
    && n'.kind == n.kind && n.changes <= n'.changes
    && (n'.dirty ==> n.dirty || n.changes < n'.changes)
    && (n.kind.Derived? && n.changes < n'.changes ==> n'.value != n.value)
  }

  lemma HandleDirty<V>(sys: Sys<V>, j: nat, m: Msg<V>, i: nat)
    requires j < |sys.nodes| && i < |sys.nodes|
    ensures i < |Handle(sys, j, m).nodes| && DirtyOk(sys.nodes[i], Handle(sys, j, m).nodes[i])
  {
  }

  lemma ReplyDirty<V>(sys: Sys<V>, to: Requester, v: V, i: nat)
    requires i < |sys.nodes|
    ensures i < |Reply(sys, to, v).nodes| && DirtyOk(sys.nodes[i], Reply(sys, to, v).nodes[i])
  {
  }

  lemma SendDirty<V>(sys: Sys<V>, a: Action<V>, i: nat)
    requires Enabled(sys, a) && i < |sys.nodes|
    requires a.ClientSend? || a.SubscribeNext? || a.NotifyNext? || a.TaskSend? || a.HandlerSend?
    ensures i < |Next(sys, a).nodes| && DirtyOk(sys.nodes[i], Next(sys, a).nodes[i])
  {
    match a
    case ClientSend(to, m) => PostOnlyAppends(sys, to, m, i);
    case SubscribeNext(j) =>
      var k := sys.nodes[j].phase.subscribed;
      PostOnlyAppends(sys, Sources(sys.nodes[j].kind)[k], Subscribe(j), i);
    case NotifyNext(j) => PostOnlyAppends(sys, sys.nodes[j].subscribers[sys.nodes[j].phase.next], Notify, i);
    case TaskSend(j, t) =>
      var k := sys.nodes[j].tasks[t].sent;
      PostOnlyAppends(sys, Sources(sys.nodes[j].kind)[k], Get(ByTask(j, t, k)), i);
    case HandlerSend(j) =>
      var k := sys.nodes[j].phase.snap.sent;
      PostOnlyAppends(sys, Sources(sys.nodes[j].kind)[k], Get(ByHandler(j, k)), i);
  }

  lemma StepDirty<V>(sys: Sys<V>, a: Action<V>, i: nat)
    requires Enabled(sys, a) && i < |sys.nodes|
    ensures i < |Next(sys, a).nodes| && DirtyOk(sys.nodes[i], Next(sys, a).nodes[i])
  {
    if a.ClientSend? || a.SubscribeNext? || a.NotifyNext? || a.TaskSend? || a.HandlerSend? {
      SendDirty(sys, a, i);
    } else if a.Receive? {
      HandleDirty(Put(sys, a.i, Popped(sys.nodes[a.i])), a.i, sys.nodes[a.i].mailbox[0], i);
    } else if a.Answer? {
      var n := sys.nodes[a.i];
      var v := Computed(n.kind, n.phase.snap);
      ReplyDirty(Put(sys, a.i, n.(held := n.held + [v], phase := Draining)), n.phase.to, v, i);
    }
  }

  /** Along any run, a clean node becomes dirty, and so notifies again, only after its value has changed. */
  lemma {:induction false} NotifiesOnlyChanges<V>(sys: Sys<V>, acts: seq<Action<V>>, i: nat)
    requires Legal(sys, acts) && i < |sys.nodes| && !sys.nodes[i].dirty
    ensures i < |Exec(sys, acts).nodes| && sys.nodes[i].changes <= Exec(sys, acts).nodes[i].changes
    ensures Exec(sys, acts).nodes[i].dirty ==> sys.nodes[i].changes < Exec(sys, acts).nodes[i].changes
    decreases |acts|
  {
    if acts != [] {
      var before := acts[..|acts| - 1];
      NotifiesOnlyChanges(sys, before, i);
      StepDirty(Exec(sys, before), acts[|acts| - 1], i);
    }
  }

  /** In all, a node notifies its subscribers at most once for every change. */
  lemma RoundsBounded<V(!new)>(sys: Sys<V>, i: nat)
    requires Reachable(sys) && i < |sys.nodes|
    ensures sys.nodes[i].rounds <= sys.nodes[i].changes
  {
    ReachableSound(sys);
    assert SoundAt(sys.nodes, i);
  }
}
