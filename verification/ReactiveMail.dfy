/**
 Mailboxes, subscriptions and announcements of the reactive network, read off the actions of a run: every message is
 handled once and in order, the subscribers are those whose `Subscribe` was handled, and a node is dirty exactly from
 a change to the next `idle`.
 */
module ReactiveMail {
  import opened Collections
  import opened Options
  import opened Reactive
  import ReactiveWrites

  // ----- One message after the other

  datatype Letter<!V> = Letter(to: nat, m: Msg<V>)

  /** What a step sends, and to whom. */
  ghost function Sends<V>(sys: Sys<V>, a: Action<V>): Option<Letter<V>>
    requires Enabled(sys, a)
  {
    match a
    case ClientSend(to, m) => Some(Letter(to, m))
    case SubscribeNext(i) => Some(Letter(Sources(sys.nodes[i].kind)[sys.nodes[i].phase.subscribed], Subscribe(i)))
    case NotifyNext(i) => Some(Letter(sys.nodes[i].subscribers[sys.nodes[i].phase.next], Notify))
    case TaskSend(i, t) =>
      var k := sys.nodes[i].tasks[t].sent;
      Some(Letter(Sources(sys.nodes[i].kind)[k], Get(ByTask(i, t, k))))
    case HandlerSend(i) =>
      var k := sys.nodes[i].phase.snap.sent;
      Some(Letter(Sources(sys.nodes[i].kind)[k], Get(ByHandler(i, k))))
    case Deliver(i, t) =>
      Some(Letter(i, UpdateCache(t, sys.nodes[i].kind.selector(Values(sys.nodes[i].tasks[t].replies)))))
    case _ => None
  }

  /** What a step puts into the mailbox of node i. */
  ghost function Given<V>(sys: Sys<V>, a: Action<V>, i: nat): seq<Msg<V>>
    requires Enabled(sys, a)
  {
    if Sends(sys, a).Some? && Sends(sys, a).value.to == i && Accepts(sys, i) then [Sends(sys, a).value.m] else []
  }

  /** What node i handles in a step. */
  ghost function Took<V>(sys: Sys<V>, a: Action<V>, i: nat): seq<Msg<V>>
    requires Enabled(sys, a)
  {
    if a == Receive(i) then [sys.nodes[i].mailbox[0]] else []
  }

  ghost predicate MailMoves<V>(sys: Sys<V>, a: Action<V>, i: nat)
    requires Enabled(sys, a) && i < |sys.nodes|
  {
    && i < |Next(sys, a).nodes|
    && sys.nodes[i].mailbox + Given(sys, a, i) == Took(sys, a, i) + Next(sys, a).nodes[i].mailbox
  }

  lemma SendMoves<V>(sys: Sys<V>, a: Action<V>, i: nat)
    requires Enabled(sys, a) && i < |sys.nodes| && (a.ClientSend? || a.SubscribeNext?)
    ensures MailMoves(sys, a, i)
  {
  }

  lemma NotifyMoves<V>(sys: Sys<V>, j: nat, i: nat)
    requires Enabled(sys, NotifyNext(j)) && i < |sys.nodes|
    ensures MailMoves(sys, NotifyNext(j), i)
  {
  }

  lemma AskMoves<V>(sys: Sys<V>, a: Action<V>, i: nat)
    requires Enabled(sys, a) && i < |sys.nodes| && (a.TaskSend? || a.HandlerSend?)
    ensures MailMoves(sys, a, i)
  {
  }

  lemma DeliverMoves<V>(sys: Sys<V>, a: Action<V>, i: nat)
    requires Enabled(sys, a) && i < |sys.nodes| && a.Deliver?
    ensures MailMoves(sys, a, i)
  {
  }

  lemma ReplyMail<V>(sys: Sys<V>, to: Requester, v: V, i: nat)
    requires i < |sys.nodes|
    ensures i < |Reply(sys, to, v).nodes| && Reply(sys, to, v).nodes[i].mailbox == sys.nodes[i].mailbox
    ensures Reply(sys, to, v).nodes[i].subscribers == sys.nodes[i].subscribers
  {
  }

  lemma HandleMail<V>(sys: Sys<V>, j: nat, m: Msg<V>, i: nat)
    requires i < |sys.nodes| && j < |sys.nodes|
    ensures i < |Handle(sys, j, m).nodes| && Handle(sys, j, m).nodes[i].mailbox == sys.nodes[i].mailbox
    ensures Handle(sys, j, m).nodes[i].subscribers ==
            sys.nodes[i].subscribers + if i == j && m.Subscribe? then [m.who] else []
  {
  }

  lemma ReceiveMoves<V>(sys: Sys<V>, j: nat, i: nat)
    requires Enabled(sys, Receive(j)) && i < |sys.nodes|
    ensures MailMoves(sys, Receive(j), i)
  {
    HandleMail(Put(sys, j, Popped(sys.nodes[j])), j, sys.nodes[j].mailbox[0], i);
  }

  lemma MailStep<V>(sys: Sys<V>, a: Action<V>, i: nat)
    requires Enabled(sys, a) && i < |sys.nodes|
    ensures MailMoves(sys, a, i)
  {
    match a
    case ClientSend(_, _) => SendMoves(sys, a, i);
    case SubscribeNext(_) => SendMoves(sys, a, i);
    case NotifyNext(j) => NotifyMoves(sys, j, i);
    case TaskSend(_, _) => AskMoves(sys, a, i);
    case HandlerSend(_) => AskMoves(sys, a, i);
    case Deliver(_, _) => DeliverMoves(sys, a, i);
    case Receive(j) => ReceiveMoves(sys, j, i);
    case Answer(j) =>
      var n := sys.nodes[j];
      var v := Computed(n.kind, n.phase.snap);
      ReplyMail(Put(sys, j, n.(held := n.held + [v], phase := Draining)), n.phase.to, v, i);
    case _ =>
  }

  ghost function Accepted<V>(init: Sys<V>, acts: seq<Action<V>>, i: nat): seq<Msg<V>>
    requires Legal(init, acts)
    decreases |acts|
  {
    if acts == [] then []
    else Accepted(init, acts[..|acts| - 1], i) + Given(Exec(init, acts[..|acts| - 1]), acts[|acts| - 1], i)
  }

  ghost function Handled<V>(init: Sys<V>, acts: seq<Action<V>>, i: nat): seq<Msg<V>>
    requires Legal(init, acts)
    decreases |acts|
  {
    if acts == [] then []
    else Handled(init, acts[..|acts| - 1], i) + Took(Exec(init, acts[..|acts| - 1]), acts[|acts| - 1], i)
  }

  /** Every message accepted by a node is handled once, in the order of acceptance, or is still queued. */
  lemma {:induction false} MailInOrder<V>(init: Sys<V>, acts: seq<Action<V>>, i: nat)
    requires Init(init) && Legal(init, acts) && i < |init.nodes|
    ensures i < |Exec(init, acts).nodes|
    ensures Accepted(init, acts, i) == Handled(init, acts, i) + Exec(init, acts).nodes[i].mailbox
    decreases |acts|
  {
    assert Fresh(init.nodes[i], i);
    if acts != [] {
      var before, last := acts[..|acts| - 1], acts[|acts| - 1];
      MailInOrder(init, before, i);
      var sys := Exec(init, before);
      MailStep(sys, last, i);
      LedgerStep(Accepted(init, before, i), Handled(init, before, i), sys.nodes[i].mailbox, Given(sys, last, i),
                 Took(sys, last, i), Next(sys, last).nodes[i].mailbox);
    }
  }

  // ----- Subscribers

  ghost function Subscribing<V>(m: Msg<V>): seq<nat> {
    if m.Subscribe? then [m.who] else []
  }

  /** The subscriptions among handled messages, in order. */
  ghost function Subscriptions<V>(handled: seq<Msg<V>>): seq<nat> {
    if handled == [] then []
    else Subscriptions(handled[..|handled| - 1]) + Subscribing(handled[|handled| - 1])
  }

  lemma SubscriptionsSnoc<V>(handled: seq<Msg<V>>, took: seq<Msg<V>>)
    requires |took| <= 1
    ensures Subscriptions(handled + took) == Subscriptions(handled) + if took == [] then [] else Subscribing(took[0])
  {
    if took == [] {
      assert handled + took == handled;
    } else {
      assert (handled + took)[..|handled|] == handled;
    }
  }

  lemma SendSubscribers<V>(sys: Sys<V>, a: Action<V>, i: nat)
    requires Enabled(sys, a) && i < |sys.nodes| && !ReactiveWrites.Refuses(sys, a)
    requires a.ClientSend? || a.SubscribeNext? || a.NotifyNext? || a.TaskSend? || a.HandlerSend? || a.Deliver?
    ensures i < |Next(sys, a).nodes| && Next(sys, a).nodes[i].subscribers == sys.nodes[i].subscribers
  {
  }

  lemma SubscribersStep<V>(sys: Sys<V>, a: Action<V>, i: nat)
    requires Enabled(sys, a) && i < |sys.nodes| && !ReactiveWrites.Refuses(sys, a)
    ensures i < |Next(sys, a).nodes|
    ensures Next(sys, a).nodes[i].subscribers ==
            sys.nodes[i].subscribers + if a == Receive(i) then Subscribing(sys.nodes[i].mailbox[0]) else []
  {
    if a.ClientSend? || a.SubscribeNext? || a.NotifyNext? || a.TaskSend? || a.HandlerSend? || a.Deliver? {
      SendSubscribers(sys, a, i);
    } else if a.Receive? {
      HandleMail(Put(sys, a.i, Popped(sys.nodes[a.i])), a.i, sys.nodes[a.i].mailbox[0], i);
    } else if a.Answer? {
      var n := sys.nodes[a.i];
      var v := Computed(n.kind, n.phase.snap);
      ReplyMail(Put(sys, a.i, n.(held := n.held + [v], phase := Draining)), n.phase.to, v, i);
    }
  }

  /** Where no send was refused, a node's subscribers are those whose `Subscribe` it has handled, in that order. */
  lemma {:induction false} SubscribersAre<V>(init: Sys<V>, acts: seq<Action<V>>, i: nat)
    requires Init(init) && Legal(init, acts) && i < |init.nodes| && !Exec(init, acts).overflow
    ensures i < |Exec(init, acts).nodes|
    ensures Exec(init, acts).nodes[i].subscribers == Subscriptions(Handled(init, acts, i))
    decreases |acts|
  {
    assert Fresh(init.nodes[i], i);
    if acts != [] {
      var before, last := acts[..|acts| - 1], acts[|acts| - 1];
      var sys := Exec(init, before);
      ReactiveWrites.OverflowStep(sys, last);
      SubscribersAre(init, before, i);
      SubscribersStep(sys, last, i);
      SubscriptionsSnoc(Handled(init, before, i), Took(sys, last, i));
    }
  }

  // ----- Announcements

  /** A `StateActor` changes with every write, a `DerivedActor` when its cache gets a different value. */
  ghost predicate Changes<V>(sys: Sys<V>, a: Action<V>, i: nat)
    requires Enabled(sys, a) && i < |sys.nodes|
  {
    if sys.nodes[i].kind.Source? then a == Receive(i) && ReactiveWrites.IsWrite(sys.nodes[i].mailbox[0])
    else i < |Next(sys, a).nodes| && Next(sys, a).nodes[i].value != sys.nodes[i].value
  }

  ghost predicate DirtyMoves<V>(sys: Sys<V>, a: Action<V>, i: nat)
    requires Enabled(sys, a) && i < |sys.nodes|
  {
    && i < |Next(sys, a).nodes| && Next(sys, a).nodes[i].kind == sys.nodes[i].kind
    && (sys.nodes[i].value.Some? ==> Next(sys, a).nodes[i].value.Some?)
    && (Next(sys, a).nodes[i].dirty <==> Changes(sys, a, i) || (sys.nodes[i].dirty && a != RunIdle(i)))
  }

  ghost predicate HasState<V>(n: Node<V>) {
    n.kind.Source? ==> n.value.Some?
  }

  /** Neither the value nor the dirty flag is touched. */
  ghost predicate Untouched<V>(n: Node<V>, n': Node<V>) {
    n'.kind == n.kind && n'.value == n.value && n'.dirty == n.dirty
  }

  lemma SendUntouched<V>(sys: Sys<V>, a: Action<V>, i: nat)
    requires Enabled(sys, a) && i < |sys.nodes| && (a.ClientSend? || a.SubscribeNext?)
    ensures i < |Next(sys, a).nodes| && Untouched(sys.nodes[i], Next(sys, a).nodes[i])
  {
  }

  lemma NotifyUntouched<V>(sys: Sys<V>, j: nat, i: nat)
    requires Enabled(sys, NotifyNext(j)) && i < |sys.nodes|
    ensures i < |Next(sys, NotifyNext(j)).nodes| && Untouched(sys.nodes[i], Next(sys, NotifyNext(j)).nodes[i])
  {
  }

  lemma AskUntouched<V>(sys: Sys<V>, a: Action<V>, i: nat)
    requires Enabled(sys, a) && i < |sys.nodes| && (a.TaskSend? || a.HandlerSend?)
    ensures i < |Next(sys, a).nodes| && Untouched(sys.nodes[i], Next(sys, a).nodes[i])
  {
    var to := Sends(sys, a).value.to;
    assert |Post(sys, to, Sends(sys, a).value.m).nodes| == |sys.nodes|;
  }

  lemma ReplyUntouched<V>(sys: Sys<V>, to: Requester, v: V, i: nat)
    requires i < |sys.nodes|
    ensures i < |Reply(sys, to, v).nodes| && Untouched(sys.nodes[i], Reply(sys, to, v).nodes[i])
  {
  }

  lemma HandleUntouched<V>(sys: Sys<V>, j: nat, m: Msg<V>, i: nat)
    requires i < |sys.nodes| && j < |sys.nodes| && i != j
    ensures i < |Handle(sys, j, m).nodes| && Untouched(sys.nodes[i], Handle(sys, j, m).nodes[i])
  {
  }

  /** What a node's own handler does to its value and its flag. */
  lemma HandleDirty<V>(sys: Sys<V>, i: nat, m: Msg<V>)
    requires i < |sys.nodes| && HasState(sys.nodes[i])
    ensures i < |Handle(sys, i, m).nodes|
    ensures var n, n' := sys.nodes[i], Handle(sys, i, m).nodes[i];
            && n'.kind == n.kind && (n.value.Some? ==> n'.value.Some?)
            && (n.kind.Source? ==> (n'.dirty <==> n.dirty || ReactiveWrites.IsWrite(m)))
            && (n.kind.Derived? ==> (n'.dirty <==> n.dirty || n'.value != n.value))
  {
  }

  lemma ReceiveDirty<V>(sys: Sys<V>, j: nat, i: nat)
    requires Enabled(sys, Receive(j)) && i < |sys.nodes| && HasState(sys.nodes[i])
    ensures DirtyMoves(sys, Receive(j), i)
  {
    var popped := Put(sys, j, Popped(sys.nodes[j]));
    if i == j {
      HandleDirty(popped, i, sys.nodes[i].mailbox[0]);
    } else {
      HandleUntouched(popped, j, sys.nodes[j].mailbox[0], i);
    }
  }

  lemma AnswerUntouched<V>(sys: Sys<V>, j: nat, i: nat)
    requires Enabled(sys, Answer(j)) && i < |sys.nodes|
    ensures i < |Next(sys, Answer(j)).nodes| && Untouched(sys.nodes[i], Next(sys, Answer(j)).nodes[i])
  {
    var n := sys.nodes[j];
    var v := Computed(n.kind, n.phase.snap);
    ReplyUntouched(Put(sys, j, n.(held := n.held + [v], phase := Draining)), n.phase.to, v, i);
  }

  lemma DirtyStep<V>(sys: Sys<V>, a: Action<V>, i: nat)
    requires Enabled(sys, a) && i < |sys.nodes| && HasState(sys.nodes[i])
    ensures DirtyMoves(sys, a, i)
  {
    if a.ClientSend? || a.SubscribeNext? {
      SendUntouched(sys, a, i);
    } else if a.NotifyNext? {
      NotifyUntouched(sys, a.i, i);
    } else if a.TaskSend? || a.HandlerSend? {
      AskUntouched(sys, a, i);
    } else if a.Receive? {
      ReceiveDirty(sys, a.i, i);
    } else if a.Answer? {
      AnswerUntouched(sys, a.i, i);
    }
  }

  /** A node has changed since it last called `idle`. */
  ghost predicate Unannounced<V>(init: Sys<V>, acts: seq<Action<V>>, i: nat)
    requires Legal(init, acts) && i < |init.nodes|
    decreases |acts|
  {
    acts != [] &&
    var before, last := acts[..|acts| - 1], acts[|acts| - 1];
    (i < |Exec(init, before).nodes| && Changes(Exec(init, before), last, i))
    || (Unannounced(init, before, i) && last != RunIdle(i))
  }

  /** The dirty flag says exactly that: so `idle` tells the subscribers if and only if there is a change to tell. */
  lemma {:induction false} DirtyIs<V>(init: Sys<V>, acts: seq<Action<V>>, i: nat)
    requires Init(init) && Legal(init, acts) && i < |init.nodes|
    ensures i < |Exec(init, acts).nodes| && HasState(Exec(init, acts).nodes[i])
    ensures Exec(init, acts).nodes[i].dirty <==> Unannounced(init, acts, i)
    decreases |acts|
  {
    assert Fresh(init.nodes[i], i);
    if acts != [] {
      DirtyIs(init, acts[..|acts| - 1], i);
      DirtyStep(Exec(init, acts[..|acts| - 1]), acts[|acts| - 1], i);
    }
  }

  ghost function ChangeCount<V>(init: Sys<V>, acts: seq<Action<V>>, i: nat): nat
    requires Legal(init, acts) && i < |init.nodes|
    decreases |acts|
  {
    if acts == [] then 0
    else
      var before, last := acts[..|acts| - 1], acts[|acts| - 1];
      ChangeCount(init, before, i)
      + if i < |Exec(init, before).nodes| && Changes(Exec(init, before), last, i) then 1 else 0
  }

  /** How often the node set out to notify its subscribers. */
  ghost function Walks<V>(init: Sys<V>, acts: seq<Action<V>>, i: nat): nat
    requires Legal(init, acts)
    decreases |acts|
  {
    if acts == [] then 0
    else
      var before, last := acts[..|acts| - 1], acts[|acts| - 1];
      var next := Exec(init, acts);
      Walks(init, before, i)
      + if last == RunIdle(i) && i < |next.nodes| && next.nodes[i].phase.Notifying? then 1 else 0
  }

  lemma IdleWalks<V>(sys: Sys<V>, i: nat)
    requires Enabled(sys, RunIdle(i))
    ensures Next(sys, RunIdle(i)).nodes[i].phase.Notifying? <==> sys.nodes[i].dirty
    ensures !Next(sys, RunIdle(i)).nodes[i].dirty
  {
  }

  /** A node notifies at most once for every change, and changes made between two `idle`s are announced together. */
  lemma {:induction false} WalksBounded<V>(init: Sys<V>, acts: seq<Action<V>>, i: nat)
    requires Init(init) && Legal(init, acts) && i < |init.nodes|
    ensures Walks(init, acts, i) + (if Unannounced(init, acts, i) then 1 else 0) <= ChangeCount(init, acts, i)
    decreases |acts|
  {
    if acts != [] {
      var before, last := acts[..|acts| - 1], acts[|acts| - 1];
      WalksBounded(init, before, i);
      DirtyIs(init, before, i);
      DirtyIs(init, acts, i);
      if last == RunIdle(i) {
        IdleWalks(Exec(init, before), i);
      }
    }
  }
}
