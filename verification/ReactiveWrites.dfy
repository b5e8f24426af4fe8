/**
 What the clients wrote and what the network makes of it, read off the actions of a run: a `StateActor` holds its
 writes applied one after the other, and a network at rest holds the selectors applied to that.
 */
module ReactiveWrites {
  import opened Options
  import opened Reactive
  import opened ReactiveInvariant
  import opened ReactiveSteps
  import opened ReactiveProgress
  import opened ReactiveTheorems
  import ReactiveProvenance

  ghost predicate IsWrite<V>(m: Msg<V>) {
    m.Set? || m.Mutate?
  }

  ghost function Write<V>(v: V, m: Msg<V>): V
    requires IsWrite(m)
  {
    if m.Set? then m.v else m.f(v)
  }

  /** The writes among queued messages, in order. */
  ghost function WritesIn<V>(mailbox: seq<Msg<V>>): (r: seq<Msg<V>>)
    ensures forall m | m in r :: IsWrite(m)
  {
    if mailbox == [] then [] else (if IsWrite(mailbox[0]) then [mailbox[0]] else []) + WritesIn(mailbox[1..])
  }

  /** Writes applied one after the other. */
  ghost function Result<V>(v: V, writes: seq<Msg<V>>): V
    requires forall m | m in writes :: IsWrite(m)
  {
    if writes == [] then v
    else
      var last := |writes| - 1;
      assert writes[last] in writes;
      Write(Result(v, writes[..last]), writes[last])
  }

  lemma {:induction false} WritesAppend<V>(mailbox: seq<Msg<V>>, m: Msg<V>)
    ensures WritesIn(mailbox + [m]) == WritesIn(mailbox) + if IsWrite(m) then [m] else []
    decreases |mailbox|
  {
    if mailbox == [] {
      assert mailbox + [m] == [m];
    } else {
      assert (mailbox + [m])[1..] == mailbox[1..] + [m];
      WritesAppend(mailbox[1..], m);
    }
  }

  // ----- One step

  /** The write to node i that its mailbox accepts in this step, if any. */
  ghost function NewWrite<V>(sys: Sys<V>, a: Action<V>, i: nat): (r: seq<Msg<V>>)
    ensures forall m | m in r :: IsWrite(m)
  {
    if a.ClientSend? && a.to == i && IsWrite(a.m) && Accepts(sys, i) then [a.m] else []
  }

  /** Nothing that concerns what is written in this node. */
  ghost predicate Unwritten<V>(n: Node<V>, n': Node<V>) {
    && n'.kind == n.kind && n'.value == n.value && n'.held == n.held
    && WritesIn(n'.mailbox) == WritesIn(n.mailbox)
  }

  lemma PostUnwritten<V>(sys: Sys<V>, to: nat, m: Msg<V>, i: nat)
    requires i < |sys.nodes| && (to == i ==> !IsWrite(m) || !Accepts(sys, i))
    ensures |Post(sys, to, m).nodes| == |sys.nodes| && Unwritten(sys.nodes[i], Post(sys, to, m).nodes[i])
  {
    WritesAppend(sys.nodes[i].mailbox, m);
  }

  lemma SendUnwritten<V>(sys: Sys<V>, a: Action<V>, i: nat)
    requires Enabled(sys, a) && i < |sys.nodes| && (a.SubscribeNext? || a.NotifyNext?)
    ensures i < |Next(sys, a).nodes| && Unwritten(sys.nodes[i], Next(sys, a).nodes[i])
  {
    match a
    case SubscribeNext(j) =>
      PostUnwritten(sys, Sources(sys.nodes[j].kind)[sys.nodes[j].phase.subscribed], Subscribe(j), i);
    case NotifyNext(j) => PostUnwritten(sys, sys.nodes[j].subscribers[sys.nodes[j].phase.next], Notify, i);
  }

  lemma AskUnwritten<V>(sys: Sys<V>, a: Action<V>, i: nat)
    requires Enabled(sys, a) && i < |sys.nodes| && (a.TaskSend? || a.HandlerSend?)
    ensures i < |Next(sys, a).nodes| && Unwritten(sys.nodes[i], Next(sys, a).nodes[i])
  {
    match a
    case TaskSend(j, t) =>
      var k := sys.nodes[j].tasks[t].sent;
      PostUnwritten(sys, Sources(sys.nodes[j].kind)[k], Get(ByTask(j, t, k)), i);
    case HandlerSend(j) =>
      var k := sys.nodes[j].phase.snap.sent;
      PostUnwritten(sys, Sources(sys.nodes[j].kind)[k], Get(ByHandler(j, k)), i);
  }

  lemma ReplyUnwritten<V>(sys: Sys<V>, to: Requester, v: V, i: nat)
    requires i < |sys.nodes|
    ensures i < |Reply(sys, to, v).nodes| && Unwritten(sys.nodes[i], Reply(sys, to, v).nodes[i])
  {
  }

  lemma HandleUnwritten<V>(sys: Sys<V>, j: nat, m: Msg<V>, i: nat)
    requires i < |sys.nodes| && j < |sys.nodes| && sys.nodes[i].kind.Source? && sys.nodes[i].value.Some?
    requires i == j ==> !IsWrite(m)
    ensures i < |Handle(sys, j, m).nodes| && Unwritten(sys.nodes[i], Handle(sys, j, m).nodes[i])
  {
  }

  /** A write carried out: the new value is stored and is going to be announced. */
  ghost predicate Performed<V>(n: Node<V>, n': Node<V>)
    requires n.value.Some? && n.mailbox != [] && IsWrite(n.mailbox[0])
  {
    var v := Write(n.value.value, n.mailbox[0]);
    && n'.kind == n.kind && n'.value == Some(v) && n'.held == n.held + [v] && n'.dirty
    && n'.subscribers == n.subscribers && WritesIn(n.mailbox) == [n.mailbox[0]] + WritesIn(n'.mailbox)
  }

  lemma WriteReceived<V>(sys: Sys<V>, i: nat)
    requires Enabled(sys, Receive(i)) && sys.nodes[i].kind.Source? && sys.nodes[i].value.Some?
    requires IsWrite(sys.nodes[i].mailbox[0])
    ensures i < |Next(sys, Receive(i)).nodes| && Performed(sys.nodes[i], Next(sys, Receive(i)).nodes[i])
  {
  }

  lemma OtherReceived<V>(sys: Sys<V>, j: nat, i: nat)
    requires Enabled(sys, Receive(j)) && i < |sys.nodes| && sys.nodes[i].kind.Source? && sys.nodes[i].value.Some?
    requires i == j ==> !IsWrite(sys.nodes[i].mailbox[0])
    ensures i < |Next(sys, Receive(j)).nodes| && Unwritten(sys.nodes[i], Next(sys, Receive(j)).nodes[i])
  {
    HandleUnwritten(Put(sys, j, Popped(sys.nodes[j])), j, sys.nodes[j].mailbox[0], i);
  }

  /** A write accepted, a write carried out, or nothing that matters here. */
  ghost predicate Effect<V>(sys: Sys<V>, a: Action<V>, i: nat, n: Node<V>, n': Node<V>)
    requires n.value.Some?
  {
    if NewWrite(sys, a, i) != [] then
      && n'.kind == n.kind && n'.value == n.value && n'.held == n.held
      && WritesIn(n'.mailbox) == WritesIn(n.mailbox) + NewWrite(sys, a, i)
    else if a == Receive(i) && n.mailbox != [] && IsWrite(n.mailbox[0]) then Performed(n, n')
    else Unwritten(n, n')
  }

  lemma ClientWrites<V>(sys: Sys<V>, to: nat, m: Msg<V>, i: nat)
    requires i < |sys.nodes| && to < |sys.nodes| && sys.nodes[i].value.Some?
    ensures i < |Post(sys, to, m).nodes| && Effect(sys, ClientSend(to, m), i, sys.nodes[i], Post(sys, to, m).nodes[i])
  {
    if NewWrite(sys, ClientSend(to, m), i) == [] {
      PostUnwritten(sys, to, m, i);
    } else {
      WritesAppend(sys.nodes[i].mailbox, m);
    }
  }

  lemma AnswerUnwritten<V>(sys: Sys<V>, j: nat, i: nat)
    requires Enabled(sys, Answer(j)) && i < |sys.nodes| && sys.nodes[i].kind.Source?
    ensures i < |Next(sys, Answer(j)).nodes| && Unwritten(sys.nodes[i], Next(sys, Answer(j)).nodes[i])
  {
    var n := sys.nodes[j];
    var v := Computed(n.kind, n.phase.snap);
    ReplyUnwritten(Put(sys, j, n.(held := n.held + [v], phase := Draining)), n.phase.to, v, i);
  }

  /** What a step does to a `StateActor`. */
  lemma StepWrites<V>(sys: Sys<V>, a: Action<V>, i: nat)
    requires Enabled(sys, a) && i < |sys.nodes| && sys.nodes[i].kind.Source? && sys.nodes[i].value.Some?
    ensures i < |Next(sys, a).nodes| && Effect(sys, a, i, sys.nodes[i], Next(sys, a).nodes[i])
  {
    match a
    case ClientSend(to, m) => ClientWrites(sys, to, m, i);
    case Receive(j) =>
      if j == i && IsWrite(sys.nodes[i].mailbox[0]) {
        WriteReceived(sys, i);
      } else {
        OtherReceived(sys, j, i);
      }
    case Answer(j) => AnswerUnwritten(sys, j, i);
    case SubscribeNext(_) => SendUnwritten(sys, a, i);
    case NotifyNext(_) => SendUnwritten(sys, a, i);
    case TaskSend(_, _) => AskUnwritten(sys, a, i);
    case HandlerSend(_) => AskUnwritten(sys, a, i);
    case _ =>
  }

  // ----- Runs

  /** The writes to node i that its mailbox accepted. */
  ghost function Written<V>(init: Sys<V>, acts: seq<Action<V>>, i: nat): (r: seq<Msg<V>>)
    requires Legal(init, acts)
    ensures forall m | m in r :: IsWrite(m)
    decreases |acts|
  {
    if acts == [] then []
    else
      Written(init, acts[..|acts| - 1], i) + NewWrite(Exec(init, acts[..|acts| - 1]), acts[|acts| - 1], i)
  }

  /** `done` of the writes accepted by a `StateActor` have been carried out, the rest are queued. */
  ghost predicate CarriedOut<V>(v: V, written: seq<Msg<V>>, n: Node<V>, done: nat)
    requires forall m | m in written :: IsWrite(m)
  {
    && n.kind.Source? && done <= |written| && WritesIn(n.mailbox) == written[done..]
    && n.value == Some(Result(v, written[..done]))
    && |n.held| == done + 1 && forall k | 0 <= k <= done :: n.held[k] == Result(v, written[..k])
  }

  lemma AcceptedWrite<V>(v: V, written: seq<Msg<V>>, n: Node<V>, n': Node<V>, done: nat, new1: seq<Msg<V>>)
    requires (forall w | w in written :: IsWrite(w)) && (forall w | w in new1 :: IsWrite(w))
    requires CarriedOut(v, written, n, done)
    requires n'.kind == n.kind && n'.value == n.value && n'.held == n.held
    requires WritesIn(n'.mailbox) == WritesIn(n.mailbox) + new1
    ensures CarriedOut(v, written + new1, n', done)
  {
    var more := written + new1;
    assert forall k | 0 <= k <= done :: more[..k] == written[..k];
    assert more[done..] == written[done..] + new1;
  }

  lemma CarriedOutWrite<V>(v: V, written: seq<Msg<V>>, n: Node<V>, n': Node<V>, done: nat, m: Msg<V>)
    requires (forall w | w in written :: IsWrite(w)) && IsWrite(m) && CarriedOut(v, written, n, done)
    requires n'.kind == n.kind && n'.value == Some(Write(n.value.value, m)) && n'.held == n.held + [n'.value.value]
    requires WritesIn(n.mailbox) == [m] + WritesIn(n'.mailbox)
    ensures CarriedOut(v, written, n', done + 1)
  {
    assert written[done..][0] == m;
    assert written[done + 1..] == written[done..][1..];
    assert written[..done + 1][..done] == written[..done];
  }

  lemma WriteStep<V>(sys: Sys<V>, a: Action<V>, i: nat, v: V, written: seq<Msg<V>>, done: nat)
    returns (done': nat)
    requires Enabled(sys, a) && i < |sys.nodes| && forall w | w in written :: IsWrite(w)
    requires CarriedOut(v, written, sys.nodes[i], done)
    ensures i < |Next(sys, a).nodes|
    ensures CarriedOut(v, written + NewWrite(sys, a, i), Next(sys, a).nodes[i], done')
  {
    StepWrites(sys, a, i);
    var n, n' := sys.nodes[i], Next(sys, a).nodes[i];
    done' := done;
    assert written + [] == written;
    if NewWrite(sys, a, i) == [] && a == Receive(i) && IsWrite(n.mailbox[0]) {
      CarriedOutWrite(v, written, n, n', done, n.mailbox[0]);
      done' := done + 1;
    } else {
      AcceptedWrite(v, written, n, n', done, NewWrite(sys, a, i));
    }
  }

  /**
   A `StateActor` holds its initial value with the accepted writes applied in the order in which they were accepted,
   except the queued ones, which are the last; its history holds every value in between.
   */
  lemma {:induction false} HoldsWrites<V>(init: Sys<V>, acts: seq<Action<V>>, i: nat) returns (done: nat)
    requires Init(init) && Legal(init, acts) && i < |init.nodes| && init.nodes[i].kind.Source?
    ensures i < |Exec(init, acts).nodes| && init.nodes[i].value.Some?
    ensures CarriedOut(init.nodes[i].value.value, Written(init, acts, i), Exec(init, acts).nodes[i], done)
    decreases |acts|
  {
    assert Fresh(init.nodes[i], i);
    if acts == [] {
      done := 0;
    } else {
      var before := acts[..|acts| - 1];
      done := HoldsWrites(init, before, i);
      done := WriteStep(Exec(init, before), acts[|acts| - 1], i, init.nodes[i].value.value, Written(init, before, i),
                        done);
    }
  }

  // ----- Nothing refused, everything delivered in order

  /** The mailbox a step sends to. */
  ghost function Recipient<V>(sys: Sys<V>, a: Action<V>): Option<nat>
    requires Enabled(sys, a)
  {
    match a
    case ClientSend(to, _) => Some(to)
    case SubscribeNext(i) => Some(Sources(sys.nodes[i].kind)[sys.nodes[i].phase.subscribed])
    case NotifyNext(i) => Some(sys.nodes[i].subscribers[sys.nodes[i].phase.next])
    case TaskSend(i, t) => Some(Sources(sys.nodes[i].kind)[sys.nodes[i].tasks[t].sent])
    case HandlerSend(i) => Some(Sources(sys.nodes[i].kind)[sys.nodes[i].phase.snap.sent])
    case Deliver(i, _) => Some(i)
    case _ => None
  }

  /** The step finds the mailbox full. */
  ghost predicate Refuses<V>(sys: Sys<V>, a: Action<V>)
    requires Enabled(sys, a)
  {
    Recipient(sys, a).Some? && !Accepts(sys, Recipient(sys, a).value)
  }

  lemma OverflowStep<V>(sys: Sys<V>, a: Action<V>)
    requires Enabled(sys, a)
    ensures Next(sys, a).overflow <==> sys.overflow || Refuses(sys, a)
  {
  }

  ghost predicate RefusedAt<V>(init: Sys<V>, acts: seq<Action<V>>, k: nat)
    requires Legal(init, acts)
  {
    k < |acts| && Legal(init, acts[..k]) && Enabled(Exec(init, acts[..k]), acts[k])
    && Refuses(Exec(init, acts[..k]), acts[k])
  }

  /** Some send of the run found a full mailbox. */
  ghost predicate Refused<V>(init: Sys<V>, acts: seq<Action<V>>)
    requires Legal(init, acts)
  {
    exists k :: RefusedAt(init, acts, k)
  }

  lemma RefusedSnoc<V>(init: Sys<V>, acts: seq<Action<V>>, a: Action<V>)
    requires Legal(init, acts) && Legal(init, acts + [a]) && Enabled(Exec(init, acts), a)
    ensures Refused(init, acts + [a]) <==> Refused(init, acts) || Refuses(Exec(init, acts), a)
  {
    var n, more := |acts|, acts + [a];
    assert acts[..n] == acts && more[..n] == acts;
    if Refuses(Exec(init, acts), a) {
      assert RefusedAt(init, more, n);
    }
    if Refused(init, acts) {
      var k: nat :| RefusedAt(init, acts, k);
      assert more[..k] == acts[..k];
      assert RefusedAt(init, more, k);
    }
    if Refused(init, more) {
      var k: nat :| RefusedAt(init, more, k);
      if k < n {
        assert more[..k] == acts[..k];
        assert RefusedAt(init, acts, k);
      }
    }
  }

  lemma {:induction false} OverflowIff<V>(init: Sys<V>, acts: seq<Action<V>>)
    requires Init(init) && Legal(init, acts)
    ensures Exec(init, acts).overflow <==> Refused(init, acts)
    decreases |acts|
  {
    if acts != [] {
      var before, last := acts[..|acts| - 1], acts[|acts| - 1];
      OverflowIff(init, before);
      assert acts == before + [last];
      RefusedSnoc(init, before, last);
      OverflowStep(Exec(init, before), last);
    }
  }

  ghost predicate DoneAt<V>(sys: Sys<V>, i: nat, t: nat) {
    i < |sys.nodes| && t < |sys.nodes[i].tasks| && sys.nodes[i].tasks[t].done
  }

  lemma PostDone<V>(sys: Sys<V>, to: nat, m: Msg<V>, i: nat, t: nat)
    ensures DoneAt(Post(sys, to, m), i, t) <==> DoneAt(sys, i, t)
  {
  }

  lemma SendDone<V>(sys: Sys<V>, a: Action<V>, i: nat, t: nat)
    requires Enabled(sys, a) && (a.ClientSend? || a.SubscribeNext? || a.NotifyNext?)
    ensures DoneAt(Next(sys, a), i, t) <==> DoneAt(sys, i, t)
  {
    match a
    case ClientSend(to, m) => PostDone(sys, to, m, i, t);
    case SubscribeNext(j) =>
      PostDone(sys, Sources(sys.nodes[j].kind)[sys.nodes[j].phase.subscribed], Subscribe(j), i, t);
    case NotifyNext(j) => PostDone(sys, sys.nodes[j].subscribers[sys.nodes[j].phase.next], Notify, i, t);
  }

  lemma AskDone<V>(sys: Sys<V>, a: Action<V>, i: nat, t: nat)
    requires Enabled(sys, a) && (a.TaskSend? || a.HandlerSend?)
    ensures DoneAt(Next(sys, a), i, t) <==> DoneAt(sys, i, t)
  {
    match a
    case TaskSend(j, u) =>
      var k := sys.nodes[j].tasks[u].sent;
      PostDone(sys, Sources(sys.nodes[j].kind)[k], Get(ByTask(j, u, k)), i, t);
    case HandlerSend(j) =>
      var k := sys.nodes[j].phase.snap.sent;
      PostDone(sys, Sources(sys.nodes[j].kind)[k], Get(ByHandler(j, k)), i, t);
  }

  lemma HandleDone<V>(sys: Sys<V>, j: nat, m: Msg<V>, i: nat, t: nat)
    requires j < |sys.nodes|
    ensures DoneAt(Handle(sys, j, m), i, t) <==> DoneAt(sys, i, t)
  {
  }

  lemma ReplyDone<V>(sys: Sys<V>, to: Requester, v: V, i: nat, t: nat)
    ensures DoneAt(Reply(sys, to, v), i, t) <==> DoneAt(sys, i, t)
  {
  }

  lemma DoneStep<V>(sys: Sys<V>, a: Action<V>, i: nat, t: nat)
    requires Enabled(sys, a)
    ensures DoneAt(Next(sys, a), i, t) <==> DoneAt(sys, i, t) || a == Deliver(i, t)
  {
    if a.ClientSend? || a.SubscribeNext? || a.NotifyNext? {
      SendDone(sys, a, i, t);
    } else if a.TaskSend? || a.HandlerSend? {
      AskDone(sys, a, i, t);
    } else if a.Receive? {
      HandleDone(Put(sys, a.i, Popped(sys.nodes[a.i])), a.i, sys.nodes[a.i].mailbox[0], i, t);
    } else if a.Answer? {
      var n := sys.nodes[a.i];
      var v := Computed(n.kind, n.phase.snap);
      ReplyDone(Put(sys, a.i, n.(held := n.held + [v], phase := Draining)), n.phase.to, v, i, t);
    }
  }

  /** Task t of node i is done once it has handed over its result. */
  lemma {:induction false} DoneIff<V>(init: Sys<V>, acts: seq<Action<V>>, i: nat, t: nat)
    requires Init(init) && Legal(init, acts)
    ensures DoneAt(Exec(init, acts), i, t) <==> Deliver(i, t) in acts
    decreases |acts|
  {
    if acts == [] {
      assert i < |init.nodes| ==> Fresh(init.nodes[i], i);
    } else {
      var before, last := acts[..|acts| - 1], acts[|acts| - 1];
      DoneIff(init, before, i, t);
      DoneStep(Exec(init, before), last, i, t);
      assert acts == before + [last];
    }
  }

  /** Delivery k comes after those of all tasks the node had spawned before. */
  ghost predicate InTurn<V>(acts: seq<Action<V>>, k: nat)
    requires k < |acts|
  {
    acts[k].Deliver? ==> forall u: nat | u < acts[k].t :: Deliver(acts[k].i, u) in acts[..k]
  }

  ghost predicate AllInTurn<V>(acts: seq<Action<V>>) {
    forall k: nat | k < |acts| :: InTurn(acts, k)
  }

  lemma InTurnSnoc<V>(acts: seq<Action<V>>, a: Action<V>)
    ensures AllInTurn(acts + [a]) <==>
            AllInTurn(acts) && (a.Deliver? ==> forall u: nat | u < a.t :: Deliver(a.i, u) in acts)
  {
    var n, more := |acts|, acts + [a];
    assert more[..n] == acts;
    forall k: nat | k < n
      ensures InTurn(more, k) <==> InTurn(acts, k)
    {
      assert more[..k] == acts[..k];
    }
    assert InTurn(more, n) <==> (a.Deliver? ==> forall u: nat | u < a.t :: Deliver(a.i, u) in acts);
  }

  lemma InOrderStep<V>(sys: Sys<V>, a: Action<V>)
    requires Enabled(sys, a)
    ensures Next(sys, a).inOrder <==>
            sys.inOrder && (a.Deliver? ==> forall u: nat | u < a.t :: DoneAt(sys, a.i, u))
  {
    if a.Deliver? {
      assert forall u: nat | u < a.t :: DoneAt(sys, a.i, u) <==> sys.nodes[a.i].tasks[u].done;
    }
  }

  lemma {:induction false} InOrderIff<V>(init: Sys<V>, acts: seq<Action<V>>)
    requires Init(init) && Legal(init, acts)
    ensures Exec(init, acts).inOrder <==> AllInTurn(acts)
    decreases |acts|
  {
    if acts != [] {
      var before, last := acts[..|acts| - 1], acts[|acts| - 1];
      InOrderIff(init, before);
      assert acts == before + [last];
      InTurnSnoc(before, last);
      InOrderStep(Exec(init, before), last);
      if last.Deliver? {
        forall u: nat | u < last.t
          ensures DoneAt(Exec(init, before), last.i, u) <==> Deliver(last.i, u) in before
        {
          DoneIff(init, before, last.i, u);
        }
      }
    }
  }

  // ----- What the network should hold

  /** What the clients sent to node i, in the order in which they sent it. */
  ghost function Sent<V>(acts: seq<Action<V>>, i: nat): (r: seq<Msg<V>>)
    ensures forall m | m in r :: IsWrite(m)
    decreases |acts|
  {
    if acts == [] then []
    else
      var last := acts[|acts| - 1];
      Sent(acts[..|acts| - 1], i) + if last.ClientSend? && last.to == i && IsWrite(last.m) then [last.m] else []
  }

  /** Where nothing was refused, everything sent was accepted. */
  lemma {:induction false} SentIsWritten<V>(init: Sys<V>, acts: seq<Action<V>>, i: nat)
    requires Legal(init, acts) && !Exec(init, acts).overflow
    ensures Written(init, acts, i) == Sent(acts, i)
    decreases |acts|
  {
    if acts != [] {
      var before, last := acts[..|acts| - 1], acts[|acts| - 1];
      OverflowStep(Exec(init, before), last);
      SentIsWritten(init, before, i);
    }
  }

  /** The selectors, composed along the network, of the clients' writes applied to the initial states. */
  ghost function Expected<V>(init: Sys<V>, acts: seq<Action<V>>, i: nat): V
    requires Grounded(init.nodes) && i < |init.nodes|
    decreases i
  {
    assert GroundedAt(init.nodes[i], i);
    if init.nodes[i].kind.Source? then Result(init.nodes[i].value.value, Sent(acts, i))
    else
      var sources := init.nodes[i].kind.sources;
      init.nodes[i].kind.selector(
        seq(|sources|, k requires 0 <= k < |sources| =>
          assert sources[k] == Sources(init.nodes[i].kind)[k];
          Expected(init, acts, sources[k])))
  }

  lemma InitGrounded<V>(init: Sys<V>)
    requires Init(init)
    ensures Grounded(init.nodes)
  {
    forall i | 0 <= i < |init.nodes|
      ensures GroundedAt(init.nodes[i], i)
    {
      assert Fresh(init.nodes[i], i);
    }
  }

  lemma {:induction false} KindsStay<V>(init: Sys<V>, acts: seq<Action<V>>, i: nat)
    requires Legal(init, acts) && i < |init.nodes|
    ensures i < |Exec(init, acts).nodes| && Exec(init, acts).nodes[i].kind == init.nodes[i].kind
    decreases |acts|
  {
    if acts != [] {
      KindsStay(init, acts[..|acts| - 1], i);
      ReactiveProvenance.StepDirty(Exec(init, acts[..|acts| - 1]), acts[|acts| - 1], i);
    }
  }

  /** At rest a `StateActor` has carried out everything that was sent to it. */
  lemma RestingHoldsSent<V>(init: Sys<V>, acts: seq<Action<V>>, i: nat)
    requires Init(init) && Legal(init, acts) && i < |init.nodes| && init.nodes[i].kind.Source?
    requires !Exec(init, acts).overflow && i < |Exec(init, acts).nodes| && Exec(init, acts).nodes[i].mailbox == []
    ensures init.nodes[i].value.Some?
    ensures Exec(init, acts).nodes[i].value == Some(Result(init.nodes[i].value.value, Sent(acts, i)))
  {
    var done := HoldsWrites(init, acts, i);
    SentIsWritten(init, acts, i);
    var written := Written(init, acts, i);
    assert |written[done..]| == 0;
    assert written[..done] == written;
  }

  lemma MeaningIs<V>(nodes: seq<Node<V>>, i: nat, values: seq<V>)
    requires Grounded(nodes) && i < |nodes| && nodes[i].kind.Derived? && |values| == |nodes[i].kind.sources|
    requires forall k | 0 <= k < |values| ::
               nodes[i].kind.sources[k] < |nodes| && values[k] == Meaning(nodes, nodes[i].kind.sources[k])
    ensures Meaning(nodes, i) == nodes[i].kind.selector(values)
  {
    var sources := nodes[i].kind.sources;
    assert GroundedAt(nodes[i], i);
    assert values == seq(|sources|, k requires 0 <= k < |sources| => Meaning(nodes, sources[k]));
  }

  lemma ExpectedIs<V>(init: Sys<V>, acts: seq<Action<V>>, i: nat, values: seq<V>)
    requires Grounded(init.nodes) && i < |init.nodes| && init.nodes[i].kind.Derived?
    requires |values| == |init.nodes[i].kind.sources|
    requires forall k | 0 <= k < |values| ::
               && init.nodes[i].kind.sources[k] < |init.nodes|
               && values[k] == Expected(init, acts, init.nodes[i].kind.sources[k])
    ensures Expected(init, acts, i) == init.nodes[i].kind.selector(values)
  {
    var sources := init.nodes[i].kind.sources;
    assert GroundedAt(init.nodes[i], i);
    assert values == seq(|sources|, k requires 0 <= k < |sources| => Expected(init, acts, sources[k]));
  }

  lemma {:induction false} MeaningIsExpected<V>(init: Sys<V>, acts: seq<Action<V>>, i: nat, sys: Sys<V>)
    requires Init(init) && Legal(init, acts) && sys == Exec(init, acts) && !sys.overflow
    requires Grounded(init.nodes) && Grounded(sys.nodes) && i < |init.nodes| && i < |sys.nodes|
    requires forall j | 0 <= j < |sys.nodes| :: sys.nodes[j].mailbox == []
    ensures Meaning(sys.nodes, i) == Expected(init, acts, i)
    decreases i
  {
    assert GroundedAt(init.nodes[i], i);
    KindsStay(init, acts, i);
    var kind := sys.nodes[i].kind;
    if kind.Source? {
      RestingHoldsSent(init, acts, i);
    } else {
      forall k | 0 <= k < |kind.sources|
        ensures kind.sources[k] < i && Meaning(sys.nodes, kind.sources[k]) == Expected(init, acts, kind.sources[k])
      {
        assert kind.sources[k] == Sources(init.nodes[i].kind)[k];
        MeaningIsExpected(init, acts, kind.sources[k], sys);
      }
      var values := seq(|kind.sources|, k requires 0 <= k < |kind.sources| => Meaning(sys.nodes, kind.sources[k]));
      MeaningIs(sys.nodes, i, values);
      ExpectedIs(init, acts, i, values);
    }
  }

  /**
   When no actor and no task can make a step, no send was refused and every task delivered in its turn, every node
   holds the selectors, composed along the network, of the clients' writes applied to the initial states.
   */
  lemma ConvergesToSent<V(!new)>(init: Sys<V>, acts: seq<Action<V>>, i: nat)
    requires Init(init) && Legal(init, acts) && !Refused(init, acts) && AllInTurn(acts)
    requires Settled(Exec(init, acts)) && i < |init.nodes|
    ensures Grounded(init.nodes) && i < |Exec(init, acts).nodes|
    ensures Exec(init, acts).nodes[i].value == Some(Expected(init, acts, i))
  {
    var sys := Exec(init, acts);
    OverflowIff(init, acts);
    InOrderIff(init, acts);
    InitGrounded(init);
    KindsStay(init, acts, i);
    assert Reachable(sys);
    Converges(sys, i);
    ReachableInv(sys);
    ReachableInFlight(sys);
    forall j | 0 <= j < |sys.nodes|
      ensures sys.nodes[j].mailbox == []
    {
      SettledRests(sys, j);
    }
    MeaningIsExpected(init, acts, i, sys);
  }
}
