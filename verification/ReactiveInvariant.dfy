/**
 What every step of the reactive network keeps, as long as no mailbox has overflowed.

 The heart is `Current`: for every derived node and every one of its sources, the newest recompute task has not
 read that source yet, or what it read is still the source's value, or the source still owes the node a
 `Notify`.
 */
module ReactiveInvariant {
  import opened Options
  import opened Reactive

  // ----- Local facts about one node

  ghost predicate Shape<V>(n: Node<V>, i: nat) {
    && (forall k | 0 <= k < |Sources(n.kind)| :: Sources(n.kind)[k] < i)
    && (n.kind.Source? ==> n.value.Some? && n.tasks == [])
    && (forall t | 0 <= t < |n.tasks| ::
          |n.tasks[t].replies| == |Sources(n.kind)|)
    && (n.phase.Starting? ==> n.phase.subscribed <= |Sources(n.kind)| && n.tasks == [])
    && (n.kind.Derived? && !n.phase.Starting? ==> n.tasks != [])
    && (n.phase.Answering? ==> n.kind.Derived? && n.value.None? && |n.phase.snap.replies| == |Sources(n.kind)|)
    && (n.dirty ==> n.phase.Draining? || n.phase.Idle? || n.phase.Answering?)
  }

  /** The recompute of the last `UpdateCache` queued, or of the one last applied when none is queued. */
  ghost function LastUpdate<V>(mailbox: seq<Msg<V>>, applied: Option<nat>): Option<nat> {
    if mailbox == [] then applied
    else LastUpdate(mailbox[1..], if mailbox[0].UpdateCache? then Some(mailbox[0].task) else applied)
  }

  ghost predicate Finished<V>(n: Node<V>, t: nat) {
    t < |n.tasks| && n.tasks[t].done && Complete(n.tasks[t])
  }

  ghost predicate UpdateOk<V>(n: Node<V>, m: Msg<V>)
    requires n.kind.Derived?
  {
    m.UpdateCache? ==> Finished(n, m.task) && m.v == Computed(n.kind, n.tasks[m.task])
  }

  /** The cache holds what the recompute last applied computed; queued updates come from finished tasks. */
  ghost predicate Updates<V>(n: Node<V>)
    requires n.kind.Derived?
  {
    && (n.applied.None? <==> n.value.None?)
    && (n.applied.Some? ==> Finished(n, n.applied.value)
                            && n.value == Some(Computed(n.kind, n.tasks[n.applied.value])))
    && (n.delivered.Some? ==> Finished(n, n.delivered.value))
    && (forall t | 0 <= t < |n.tasks| :: n.tasks[t].done ==> Complete(n.tasks[t]) && n.delivered.Some?)
    && (forall j | 0 <= j < |n.mailbox| :: UpdateOk(n, n.mailbox[j]))
    && LastUpdate(n.mailbox, n.applied) == n.delivered
  }

  /** The finished tasks are exactly those up to the one last delivered. */
  ghost predicate Ordered<V>(n: Node<V>) {
    forall t | 0 <= t < |n.tasks| :: n.tasks[t].done <==> n.delivered.Some? && t <= n.delivered.value
  }

  // ----- Facts about a node and one of its sources

  ghost predicate AskedBy<V>(m: Msg<V>, d: nat) {
    m.Get? && m.from.ByTask? && m.from.node == d
  }

  /** A `Subscribe(d)` is queued ahead of every `Get` of a task of `d`. */
  ghost predicate Covered<V>(mailbox: seq<Msg<V>>, d: nat) {
    mailbox != [] &&
    (mailbox[0] == Subscribe(d) || (!AskedBy(mailbox[0], d) && Covered(mailbox[1..], d)))
  }

  ghost predicate Subscribes<V>(s: Node<V>, d: nat) {
    d in s.subscribers || Covered(s.mailbox, d)
  }

  ghost predicate HasNotify<V>(n: Node<V>) {
    exists j | 0 <= j < |n.mailbox| :: n.mailbox[j].Notify?
  }

  /** Source `s` still has a `Notify` for `d` to send, or `d` one to handle. */
  ghost predicate Owed<V>(s: Node<V>, d: nat, n: Node<V>) {
    || (s.dirty && d in s.subscribers)
    || (s.phase.Notifying? && exists j | s.phase.next <= j < |s.subscribers| :: s.subscribers[j] == d)
    || HasNotify(n)
  }

  ghost predicate StillHolds<V>(s: Node<V>, v: V) {
    s.value.None? || s.value.value == v
  }

  ghost predicate Current<V>(s: Node<V>, d: nat, n: Node<V>, k: nat)
    requires n.tasks != [] && k < |n.tasks[|n.tasks| - 1].replies|
  {
    var r := n.tasks[|n.tasks| - 1].replies[k];
    r.None? || StillHolds(s, r.value) || Owed(s, d, n)
  }

  ghost predicate HasRead<V>(n: Node<V>, k: nat) {
    exists t | 0 <= t < |n.tasks| && k < |n.tasks[t].replies| :: n.tasks[t].replies[k].Some?
  }

  ghost function SubscribedTo<V>(n: Node<V>): nat {
    if n.phase.Starting? then n.phase.subscribed else |Sources(n.kind)|
  }

  ghost predicate Link<V>(s: Node<V>, d: nat, n: Node<V>, k: nat)
    requires Shape(n, d) && k < |Sources(n.kind)|
  {
    && (k < SubscribedTo(n) ==> Subscribes(s, d))
    && (HasRead(n, k) ==> d in s.subscribers)
    && (n.tasks != [] ==> Current(s, d, n, k))
  }

  /** The slot a recompute's `Get` names exists, and node `i` is the source it asks. */
  ghost predicate SlotOk<V>(nodes: seq<Node<V>>, i: nat, from: Requester) {
    from.ByTask? ==>
      && from.node < |nodes|
      && nodes[from.node].kind.Derived?
      && from.task < |nodes[from.node].tasks|
      && from.slot < |Sources(nodes[from.node].kind)|
      && Sources(nodes[from.node].kind)[from.slot] == i
  }

  ghost predicate GetsOk<V>(nodes: seq<Node<V>>, i: nat)
    requires i < |nodes|
  {
    && (forall j | 0 <= j < |nodes[i].mailbox| ::
          nodes[i].mailbox[j].Get? ==> SlotOk(nodes, i, nodes[i].mailbox[j].from))
    && (nodes[i].phase.Answering? ==>
          && SlotOk(nodes, i, nodes[i].phase.to)
          && (nodes[i].phase.to.ByTask? ==> nodes[i].phase.to.node in nodes[i].subscribers))
  }

  ghost predicate NodeInv<V>(sys: Sys<V>, i: nat)
    requires i < |sys.nodes|
  {
    && Shape(sys.nodes[i], i)
    && GetsOk(sys.nodes, i)
    && (sys.nodes[i].kind.Derived? ==>
          && Updates(sys.nodes[i])
          && (sys.inOrder ==> Ordered(sys.nodes[i])))
  }

  ghost predicate LinkInv<V>(nodes: seq<Node<V>>, d: nat, k: nat)
    requires d < |nodes| && k < |Sources(nodes[d].kind)|
  {
    Shape(nodes[d], d) && Link(nodes[Sources(nodes[d].kind)[k]], d, nodes[d], k)
  }

  ghost predicate Inv<V>(sys: Sys<V>) {
    && (forall i | 0 <= i < |sys.nodes| :: NodeInv(sys, i))
    && (forall d, k | 0 <= d < |sys.nodes| && 0 <= k < |Sources(sys.nodes[d].kind)| :: LinkInv(sys.nodes, d, k))
  }

  // ----- Queue lemmas

  lemma {:induction false} LastUpdateAppend<V>(mailbox: seq<Msg<V>>, m: Msg<V>, applied: Option<nat>)
    ensures LastUpdate(mailbox + [m], applied)
         == if m.UpdateCache? then Some(m.task) else LastUpdate(mailbox, applied)
    decreases |mailbox|
  {
    if mailbox == [] {
      assert ([m])[1..] == [];
      assert mailbox + [m] == [m];
    } else {
      var applied' := if mailbox[0].UpdateCache? then Some(mailbox[0].task) else applied;
      LastUpdateAppend(mailbox[1..], m, applied');
      assert (mailbox + [m])[1..] == mailbox[1..] + [m];
    }
  }

  lemma {:induction false} LastUpdateNone<V>(mailbox: seq<Msg<V>>, applied: Option<nat>)
    requires forall j | 0 <= j < |mailbox| :: !mailbox[j].UpdateCache?
    ensures LastUpdate(mailbox, applied) == applied
    decreases |mailbox|
  {
    if mailbox != [] {
      LastUpdateNone(mailbox[1..], applied);
    }
  }

  /** A queued subscription stays ahead whatever is appended. */
  lemma {:induction false} CoveredAppend<V>(mailbox: seq<Msg<V>>, m: Msg<V>, d: nat)
    requires Covered(mailbox, d)
    ensures Covered(mailbox + [m], d)
    decreases |mailbox|
  {
    if mailbox[0] != Subscribe(d) {
      CoveredAppend(mailbox[1..], m, d);
      assert (mailbox + [m])[1..] == mailbox[1..] + [m];
    }
  }

  /** A subscription appended before the first `Get` is ahead of all of them. */
  lemma {:induction false} CoveredFirst<V>(mailbox: seq<Msg<V>>, d: nat)
    requires forall j | 0 <= j < |mailbox| :: !AskedBy(mailbox[j], d)
    ensures Covered(mailbox + [Subscribe(d)], d)
    decreases |mailbox|
  {
    if mailbox != [] {
      CoveredFirst(mailbox[1..], d);
      assert (mailbox + [Subscribe(d)])[1..] == mailbox[1..] + [Subscribe(d)];
    }
  }

  // ----- Replacing one node, or appending one message, keeps the invariant

  lemma PutKeeps<V>(sys: Sys<V>, i: nat, n: Node<V>)
    requires Inv(sys) && i < |sys.nodes| && n.kind == sys.nodes[i].kind
    requires |n.tasks| >= |sys.nodes[i].tasks|
    requires Shape(n, i) && GetsOk(sys.nodes[i := n], i)
    requires n.kind.Derived? ==> Updates(n) && (sys.inOrder ==> Ordered(n))
    requires forall k | 0 <= k < |Sources(n.kind)| :: Link(sys.nodes[Sources(n.kind)[k]], i, n, k)
    requires forall d, k | 0 <= d < |sys.nodes| && 0 <= k < |Sources(sys.nodes[d].kind)|
                           && Sources(sys.nodes[d].kind)[k] == i ::
               Shape(sys.nodes[d], d) && Link(n, d, sys.nodes[d], k)
    ensures Inv(Put(sys, i, n))
  {
    var sys' := Put(sys, i, n);
    forall j | 0 <= j < |sys'.nodes|
      ensures NodeInv(sys', j)
    {
      assert NodeInv(sys, j);
    }
    forall d, k | 0 <= d < |sys'.nodes| && 0 <= k < |Sources(sys'.nodes[d].kind)|
      ensures LinkInv(sys'.nodes, d, k)
    {
      assert LinkInv(sys.nodes, d, k);
    }
  }

  /** What appending a message does not disturb for the node it is appended to. */
  lemma AppendLocal<V>(n: Node<V>, m: Msg<V>)
    requires !m.UpdateCache?
    ensures HasNotify(n) || m.Notify? ==> HasNotify(n.(mailbox := n.mailbox + [m]))
    ensures n.kind.Derived? && Updates(n) ==> Updates(n.(mailbox := n.mailbox + [m]))
  {
    var n' := n.(mailbox := n.mailbox + [m]);
    LastUpdateAppend(n.mailbox, m, n.applied);
    if HasNotify(n) {
      var j :| 0 <= j < |n.mailbox| && n.mailbox[j].Notify?;
      assert n'.mailbox[j].Notify?;
    }
    if m.Notify? {
      assert n'.mailbox[|n.mailbox|].Notify?;
    }
  }

  lemma AppendLink<V>(s: Node<V>, m: Msg<V>, d: nat, n: Node<V>, k: nat)
    requires Shape(n, d) && k < |Sources(n.kind)| && Link(s, d, n, k)
    ensures Link(s.(mailbox := s.mailbox + [m]), d, n, k)
  {
    if Covered(s.mailbox, d) {
      CoveredAppend(s.mailbox, m, d);
    }
  }

  lemma PostKeeps<V>(sys: Sys<V>, to: nat, m: Msg<V>)
    requires Inv(sys) && Accepts(sys, to)
    requires !m.UpdateCache?
    requires m.Get? ==> SlotOk(sys.nodes, to, m.from)
    ensures Inv(Post(sys, to, m))
  {
    if to < |sys.nodes| {
      var n := sys.nodes[to];
      var n' := n.(mailbox := n.mailbox + [m]);
      assert NodeInv(sys, to);
      AppendLocal(n, m);
      forall k | 0 <= k < |Sources(n.kind)|
        ensures Link(sys.nodes[Sources(n.kind)[k]], to, n', k)
      {
        assert LinkInv(sys.nodes, to, k);
      }
      forall d, k | 0 <= d < |sys.nodes| && 0 <= k < |Sources(sys.nodes[d].kind)|
                    && Sources(sys.nodes[d].kind)[k] == to
        ensures Shape(sys.nodes[d], d) && Link(n', d, sys.nodes[d], k)
      {
        assert LinkInv(sys.nodes, d, k);
        AppendLink(n, m, d, sys.nodes[d], k);
      }
      PutKeeps(sys, to, n');
    }
  }
}
