/** The promises of the reactive layer, for every topology, every selector and every schedule. */
module ReactiveTheorems {
  import opened Options
  import opened Reactive
  import opened ReactiveInvariant
  import opened ReactiveSteps
  import opened ReactiveProgress

  // ----- What a derived node should hold

  ghost predicate SourcesReady<V>(nodes: seq<Node<V>>, d: nat)
    requires d < |nodes|
  {
    forall k | 0 <= k < |Sources(nodes[d].kind)| ::
      Sources(nodes[d].kind)[k] < |nodes| && nodes[Sources(nodes[d].kind)[k]].value.Some?
  }

  ghost function SourceValues<V>(nodes: seq<Node<V>>, d: nat): seq<V>
    requires d < |nodes| && SourcesReady(nodes, d)
  {
    seq(|Sources(nodes[d].kind)|, k requires 0 <= k < |Sources(nodes[d].kind)| =>
      nodes[Sources(nodes[d].kind)[k]].value.value)
  }

  /** The cache is the selector applied to what the sources hold now. */
  ghost predicate Agrees<V>(nodes: seq<Node<V>>, d: nat)
    requires d < |nodes| && nodes[d].kind.Derived?
  {
    SourcesReady(nodes, d) && nodes[d].value == Some(nodes[d].kind.selector(SourceValues(nodes, d)))
  }

  /** Some work is under way that can still change the cache of `d`. */
  ghost predicate Outstanding<V>(nodes: seq<Node<V>>, d: nat)
    requires d < |nodes|
  {
    var n := nodes[d];
    || n.phase.Starting?
    || (exists j | 0 <= j < |n.mailbox| :: n.mailbox[j].Notify? || n.mailbox[j].UpdateCache?)
    || (exists t | 0 <= t < |n.tasks| :: !n.tasks[t].done)
    || (exists k | 0 <= k < |Sources(n.kind)| :: SourceBusy(nodes, d, Sources(n.kind)[k]))
  }

  /** Source `s` has no value yet, or has a change to announce to `d`. */
  ghost predicate SourceBusy<V>(nodes: seq<Node<V>>, d: nat, s: nat) {
    s < |nodes| ==>
      || nodes[s].value.None?
      || (nodes[s].dirty && d in nodes[s].subscribers)
      || (nodes[s].phase.Notifying? &&
          exists j | nodes[s].phase.next <= j < |nodes[s].subscribers| :: nodes[s].subscribers[j] == d)
  }

  ghost predicate NewestDone<V>(n: Node<V>) {
    n.tasks != [] && Complete(n.tasks[|n.tasks| - 1])
  }

  /** With nothing outstanding, the newest task has read exactly what the sources hold. */
  lemma NewestIsCurrent<V>(sys: Sys<V>, d: nat)
    requires Inv(sys) && d < |sys.nodes| && sys.nodes[d].kind.Derived? && !Outstanding(sys.nodes, d)
    ensures SourcesReady(sys.nodes, d) && NewestDone(sys.nodes[d])
    ensures Values(sys.nodes[d].tasks[|sys.nodes[d].tasks| - 1].replies) == SourceValues(sys.nodes, d)
  {
    var n := sys.nodes[d];
    assert NodeInv(sys, d);
    var newest := n.tasks[|n.tasks| - 1];
    assert Complete(newest);
    forall k | 0 <= k < |Sources(n.kind)|
      ensures Sources(n.kind)[k] < |sys.nodes| && sys.nodes[Sources(n.kind)[k]].value.Some?
      ensures newest.replies[k] == sys.nodes[Sources(n.kind)[k]].value
    {
      assert LinkInv(sys.nodes, d, k);
      assert !SourceBusy(sys.nodes, d, Sources(n.kind)[k]);
    }
  }

  /** With no update queued, the recompute last delivered is the one last applied. */
  lemma AppliedIsDelivered<V>(sys: Sys<V>, d: nat)
    requires Inv(sys) && d < |sys.nodes| && sys.nodes[d].kind.Derived? && !Outstanding(sys.nodes, d)
    ensures sys.nodes[d].applied == sys.nodes[d].delivered && sys.nodes[d].applied.Some?
    ensures Finished(sys.nodes[d], sys.nodes[d].applied.value)
  {
    var n := sys.nodes[d];
    assert NodeInv(sys, d);
    LastUpdateNone(n.mailbox, n.applied);
    assert n.tasks[|n.tasks| - 1].done;
  }

  /**
   Whatever the order in which the recomputes delivered: once nothing is outstanding, the cache agrees with the
   sources if and only if the recompute applied last computed what the newest task computed.
   */
  lemma AgreesIffNewestApplied<V(!new)>(sys: Sys<V>, d: nat)
    requires Reachable(sys) && !sys.overflow
    requires d < |sys.nodes| && sys.nodes[d].kind.Derived? && !Outstanding(sys.nodes, d)
    ensures NewestDone(sys.nodes[d])
    ensures sys.nodes[d].applied.Some? && Finished(sys.nodes[d], sys.nodes[d].applied.value)
    ensures Agrees(sys.nodes, d) <==>
            Computed(sys.nodes[d].kind, sys.nodes[d].tasks[sys.nodes[d].applied.value])
              == Computed(sys.nodes[d].kind, sys.nodes[d].tasks[|sys.nodes[d].tasks| - 1])
  {
    ReachableInv(sys);
    assert NodeInv(sys, d);
    NewestIsCurrent(sys, d);
    AppliedIsDelivered(sys, d);
  }

  lemma NewestApplied<V>(sys: Sys<V>, d: nat)
    requires Inv(sys) && sys.inOrder && d < |sys.nodes| && sys.nodes[d].kind.Derived? && !Outstanding(sys.nodes, d)
    ensures sys.nodes[d].tasks != [] && sys.nodes[d].applied == Some(|sys.nodes[d].tasks| - 1)
  {
    assert NodeInv(sys, d);
    AppliedIsDelivered(sys, d);
    assert sys.nodes[d].tasks[|sys.nodes[d].tasks| - 1].done;
  }

  /** No lost update: as long as tasks deliver in spawn order, a cache is right or work on it is under way. */
  lemma NoLostUpdate<V(!new)>(sys: Sys<V>, d: nat)
    requires Reachable(sys) && !sys.overflow && sys.inOrder
    requires d < |sys.nodes| && sys.nodes[d].kind.Derived?
    ensures Agrees(sys.nodes, d) || Outstanding(sys.nodes, d)
  {
    if !Outstanding(sys.nodes, d) {
      ReachableInv(sys);
      NewestApplied(sys, d);
      AgreesIffNewestApplied(sys, d);
    }
  }

  // ----- The whole network

  ghost predicate Grounded<V>(nodes: seq<Node<V>>) {
    forall i | 0 <= i < |nodes| :: GroundedAt(nodes[i], i)
  }

  ghost predicate GroundedAt<V>(n: Node<V>, i: nat) {
    && (n.kind.Source? ==> n.value.Some?)
    && (forall k | 0 <= k < |Sources(n.kind)| :: Sources(n.kind)[k] < i)
  }

  /** The composition of the selectors along the network, from the states of the `StateActor`s up. */
  ghost function Meaning<V>(nodes: seq<Node<V>>, i: nat): V
    requires Grounded(nodes) && i < |nodes|
    decreases i
  {
    assert GroundedAt(nodes[i], i);
    if nodes[i].kind.Source? then nodes[i].value.value
    else
      var sources := nodes[i].kind.sources;
      nodes[i].kind.selector(
        seq(|sources|, k requires 0 <= k < |sources| =>
          assert sources[k] == Sources(nodes[i].kind)[k];
          Meaning(nodes, sources[k])))
  }

  lemma ReachableGrounded<V(!new)>(sys: Sys<V>)
    requires Reachable(sys) && !sys.overflow
    ensures Grounded(sys.nodes)
  {
    ReachableInv(sys);
    forall i | 0 <= i < |sys.nodes|
      ensures GroundedAt(sys.nodes[i], i)
    {
      assert NodeInv(sys, i);
    }
  }

  lemma SettledNotOutstanding<V(!new)>(sys: Sys<V>, d: nat)
    requires Inv(sys) && d < |sys.nodes| && sys.nodes[d].kind.Derived?
    requires forall i | 0 <= i < |sys.nodes| :: Resting(sys.nodes[i])
    requires forall s | 0 <= s < d :: sys.nodes[s].value.Some?
    ensures !Outstanding(sys.nodes, d)
  {
    assert NodeInv(sys, d);
    assert Resting(sys.nodes[d]);
    forall k | 0 <= k < |Sources(sys.nodes[d].kind)|
      ensures !SourceBusy(sys.nodes, d, Sources(sys.nodes[d].kind)[k])
    {
      var s := Sources(sys.nodes[d].kind)[k];
      assert Resting(sys.nodes[s]) && NodeInv(sys, s);
    }
  }

  /** Agreement of every node with its sources is agreement with the composition of the selectors. */
  lemma {:induction false} AgreementComposes<V>(nodes: seq<Node<V>>, i: nat)
    requires Grounded(nodes) && i < |nodes|
    requires forall d | 0 <= d <= i && nodes[d].kind.Derived? :: Agrees(nodes, d)
    ensures nodes[i].value == Some(Meaning(nodes, i))
    decreases i
  {
    assert GroundedAt(nodes[i], i);
    if nodes[i].kind.Derived? {
      var sources := nodes[i].kind.sources;
      assert sources == Sources(nodes[i].kind);
      forall k | 0 <= k < |sources|
        ensures nodes[sources[k]].value == Some(Meaning(nodes, sources[k]))
      {
        AgreementComposes(nodes, sources[k]);
      }
      assert Agrees(nodes, i);
      assert SourceValues(nodes, i) ==
             seq(|sources|, k requires 0 <= k < |sources| => Meaning(nodes, sources[k]));
    }
  }

  lemma {:induction false} SettledAgrees<V(!new)>(sys: Sys<V>, i: nat)
    requires Reachable(sys) && !sys.overflow && sys.inOrder && Settled(sys) && i < |sys.nodes|
    requires forall j | 0 <= j < |sys.nodes| :: Resting(sys.nodes[j])
    ensures sys.nodes[i].value.Some?
    ensures sys.nodes[i].kind.Derived? ==> Agrees(sys.nodes, i)
    decreases i
  {
    ReachableInv(sys);
    assert NodeInv(sys, i);
    forall s | 0 <= s < i
      ensures sys.nodes[s].value.Some?
    {
      SettledAgrees(sys, s);
    }
    if sys.nodes[i].kind.Derived? {
      SettledNotOutstanding(sys, i);
      NoLostUpdate(sys, i);
    }
  }

  /**
   When no actor and no task can make a step, every node of the network holds the composition of the selectors
   along every path up to it, applied to the states of the `StateActor`s.
   */
  lemma Converges<V(!new)>(sys: Sys<V>, i: nat)
    requires Reachable(sys) && !sys.overflow && sys.inOrder && Settled(sys) && i < |sys.nodes|
    ensures Grounded(sys.nodes) && sys.nodes[i].value == Some(Meaning(sys.nodes, i))
  {
    ReachableGrounded(sys);
    ReachableInFlight(sys);
    forall j | 0 <= j < |sys.nodes|
      ensures Resting(sys.nodes[j])
    {
      SettledRests(sys, j);
    }
    forall d | 0 <= d <= i && sys.nodes[d].kind.Derived?
      ensures Agrees(sys.nodes, d)
    {
      SettledAgrees(sys, d);
    }
    AgreementComposes(sys.nodes, i);
  }
}
