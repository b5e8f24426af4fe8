/**
 Both assumptions of the convergence theorem are needed: two runs of the smallest network, one `StateActor`
 holding a number and one `DerivedActor` copying it, that come to rest with a stale cache.
 */
module ReactiveTraces {
  import opened Options
  import opened Reactive
  import opened ReactiveProgress
  import opened ReactiveTheorems

  ghost function Copy(values: seq<int>): int {
    if |values| == 1 then values[0] else 0
  }

  ghost const COPIER: Kind<int> := Derived([0], Copy)

  ghost function State(phase: Phase<int>, mailbox: seq<Msg<int>>, v: int, dirty: bool, subscribers: seq<nat>,
                       held: seq<int>, changes: nat, rounds: nat): Node<int> {
    Node(Source, phase, mailbox, Some(v), dirty, subscribers, [], held, None, None, changes, rounds)
  }

  ghost function Copied(phase: Phase<int>, mailbox: seq<Msg<int>>, v: Option<int>, dirty: bool,
                        tasks: seq<Task<int>>, held: seq<int>, applied: Option<nat>, delivered: Option<nat>,
                        changes: nat, rounds: nat): Node<int> {
    Node(COPIER, phase, mailbox, v, dirty, [], tasks, held, applied, delivered, changes, rounds)
  }

  ghost function Reading(sent: nat, reply: Option<int>, since: nat, done: bool): Task<int> {
    Task(sent, [reply], [since], done)
  }

  ghost function Start(capacity: nat): Sys<int> {
    Sys([State(Starting(0), [], 0, false, [], [0], 0, 0),
         Copied(Starting(0), [], None, false, [], [], None, None, 0, 0)], capacity, false, true)
  }

  // ----- Walking through a run

  ghost predicate SameTask(a: Task<int>, b: Task<int>) {
    a.sent == b.sent && a.replies == b.replies && a.since == b.since && a.done == b.done
  }

  ghost predicate SameNode(a: Node<int>, b: Node<int>) {
    && a.kind == b.kind && a.phase == b.phase && a.mailbox == b.mailbox && a.value == b.value
    && a.dirty == b.dirty && a.subscribers == b.subscribers && a.held == b.held
    && a.applied == b.applied && a.delivered == b.delivered && a.changes == b.changes && a.rounds == b.rounds
    && |a.tasks| == |b.tasks| && forall t | 0 <= t < |a.tasks| :: SameTask(a.tasks[t], b.tasks[t])
  }

  ghost predicate Same(a: Sys<int>, b: Sys<int>) {
    && a.capacity == b.capacity && a.overflow == b.overflow && a.inOrder == b.inOrder
    && |a.nodes| == |b.nodes| && forall i | 0 <= i < |a.nodes| :: SameNode(a.nodes[i], b.nodes[i])
  }

  lemma SameIsEqual(a: Sys<int>, b: Sys<int>)
    requires Same(a, b)
    ensures a == b
  {
    forall i | 0 <= i < |a.nodes|
      ensures a.nodes[i] == b.nodes[i]
    {
      assert SameNode(a.nodes[i], b.nodes[i]);
      assert a.nodes[i].tasks == b.nodes[i].tasks;
    }
    assert a.nodes == b.nodes;
  }

  ghost predicate Leads(from: Sys<int>, to: Sys<int>) {
    exists acts :: Legal(from, acts) && Exec(from, acts) == to
  }

  lemma Stay(from: Sys<int>)
    ensures Leads(from, from)
  {
    assert Legal(from, []) && Exec(from, []) == from;
  }

  lemma Move(from: Sys<int>, mid: Sys<int>, a: Action<int>, to: Sys<int>)
    requires Leads(from, mid) && Enabled(mid, a) && Same(Next(mid, a), to)
    ensures Leads(from, to)
  {
    var acts :| Legal(from, acts) && Exec(from, acts) == mid;
    SameIsEqual(Next(mid, a), to);
    assert (acts + [a])[..|acts|] == acts;
    assert Legal(from, acts + [a]);
  }

  /** What the copier computes from the one value it read. */
  lemma Copies(v: int, since: nat, done: bool)
    ensures Complete(Reading(1, Some(v), since, done))
    ensures Computed(COPIER, Reading(1, Some(v), since, done)) == v
  {
    assert Values([Some(v)]) == [v];
  }

  /** Nothing is under way for the copier, and still it does not hold what its source holds. */
  ghost predicate Stuck(sys: Sys<int>) {
    && |sys.nodes| == 2 && sys.nodes[1].kind.Derived?
    && !Outstanding(sys.nodes, 1) && !Agrees(sys.nodes, 1)
  }

  // ----- Two recomputes that deliver in the wrong order

  ghost function Orderly(capacity: nat, n0: Node<int>, n1: Node<int>): Sys<int> {
    Sys([n0, n1], capacity, false, true)
  }

  ghost const ASLEEP: Node<int> := Copied(Starting(0), [], None, false, [], [], None, None, 0, 0)
  ghost const STARTED: Node<int> := Copied(Starting(1), [], None, false, [], [], None, None, 0, 0)

  /** The copier, waiting, with these tasks. */
  ghost function Working(mailbox: seq<Msg<int>>, tasks: seq<Task<int>>): Node<int> {
    Copied(Waiting, mailbox, None, false, tasks, [], None, None, 0, 0)
  }

  ghost const ZERO: Node<int> := State(Draining, [], 0, false, [1], [0], 0, 0)
  ghost const FIRST: Task<int> := Reading(1, Some(0), 1, false)

  lemma ReachSubscribing(c: nat)
    requires c >= 1
    ensures Leads(Start(c), Orderly(c, State(Waiting, [Subscribe(1)], 0, false, [], [0], 0, 0), STARTED))
  {
    var s0 := Start(c);
    Stay(s0);
    var s1 := Orderly(c, State(Waiting, [], 0, false, [], [0], 0, 0), ASLEEP);
    Move(s0, s0, EnterLoop(0), s1);
    Move(s0, s1, SubscribeNext(1), Orderly(c, State(Waiting, [Subscribe(1)], 0, false, [], [0], 0, 0), STARTED));
  }

  lemma ReachSubscribed(c: nat)
    requires c >= 1
    ensures Leads(Start(c), Orderly(c, ZERO, STARTED))
  {
    ReachSubscribing(c);
    Move(Start(c), Orderly(c, State(Waiting, [Subscribe(1)], 0, false, [], [0], 0, 0), STARTED), Receive(0),
         Orderly(c, ZERO, STARTED));
  }

  lemma ReachAsked(c: nat)
    requires c >= 1
    ensures Leads(Start(c), Orderly(c, ZERO.(mailbox := [Get(ByTask(1, 0, 0))]),
                                    Working([], [Reading(1, None, 1, false)])))
  {
    ReachSubscribed(c);
    var s1 := Orderly(c, ZERO, Working([], [Reading(0, None, 1, false)]));
    Move(Start(c), Orderly(c, ZERO, STARTED), EnterLoop(1), s1);
    Move(Start(c), s1, TaskSend(1, 0),
         Orderly(c, ZERO.(mailbox := [Get(ByTask(1, 0, 0))]), Working([], [Reading(1, None, 1, false)])));
  }

  /** The first recompute has read 0; now the state becomes 1. */
  lemma ReachReadOld(c: nat)
    requires c >= 1
    ensures Leads(Start(c), Orderly(c, ZERO.(mailbox := [Set(1)]), Working([], [FIRST])))
  {
    ReachAsked(c);
    var s0 := Orderly(c, ZERO.(mailbox := [Get(ByTask(1, 0, 0))]), Working([], [Reading(1, None, 1, false)]));
    var s1 := Orderly(c, ZERO, Working([], [FIRST]));
    Move(Start(c), s0, Receive(0), s1);
    Move(Start(c), s1, ClientSend(0, Set(1)), Orderly(c, ZERO.(mailbox := [Set(1)]), Working([], [FIRST])));
  }

  lemma ReachChanged(c: nat)
    requires c >= 1
    ensures Leads(Start(c), Orderly(c, State(Idle, [], 1, true, [1], [0, 1], 1, 0), Working([], [FIRST])))
  {
    ReachReadOld(c);
    var s1 := Orderly(c, State(Draining, [], 1, true, [1], [0, 1], 1, 0), Working([], [FIRST]));
    Move(Start(c), Orderly(c, ZERO.(mailbox := [Set(1)]), Working([], [FIRST])), Receive(0), s1);
    Move(Start(c), s1, Drained(0),
         Orderly(c, State(Idle, [], 1, true, [1], [0, 1], 1, 0), Working([], [FIRST])));
  }

  /** The state actor, holding 1, after its last batch; the copier is told. */
  ghost function One(phase: Phase<int>, mailbox: seq<Msg<int>>): Node<int> {
    State(phase, mailbox, 1, false, [1], [0, 1], 1, 1)
  }

  lemma ReachTold(c: nat)
    requires c >= 1
    ensures Leads(Start(c), Orderly(c, One(Waiting, []), Working([Notify], [FIRST])))
  {
    ReachChanged(c);
    var s0 := Orderly(c, State(Idle, [], 1, true, [1], [0, 1], 1, 0), Working([], [FIRST]));
    var s1 := Orderly(c, One(Notifying(0), []), Working([], [FIRST]));
    Move(Start(c), s0, RunIdle(0), s1);
    var s2 := Orderly(c, One(Notifying(1), []), Working([Notify], [FIRST]));
    Move(Start(c), s1, NotifyNext(0), s2);
    Move(Start(c), s2, NotifyDone(0), Orderly(c, One(Waiting, []), Working([Notify], [FIRST])));
  }

  /** The copier in its drain loop with both recomputes. */
  ghost function Both(second: Task<int>): Node<int> {
    Working([], [FIRST, second]).(phase := Draining)
  }

  lemma ReachSecond(c: nat)
    requires c >= 1
    ensures Leads(Start(c), Orderly(c, One(Waiting, [Get(ByTask(1, 1, 0))]), Both(Reading(1, None, 2, false))))
  {
    ReachTold(c);
    var s1 := Orderly(c, One(Waiting, []), Both(Reading(0, None, 2, false)));
    Move(Start(c), Orderly(c, One(Waiting, []), Working([Notify], [FIRST])), Receive(1), s1);
    Move(Start(c), s1, TaskSend(1, 1),
         Orderly(c, One(Waiting, [Get(ByTask(1, 1, 0))]), Both(Reading(1, None, 2, false))));
  }

  /** From here on the deliveries are out of order. */
  ghost function Disorderly(capacity: nat, n1: Node<int>): Sys<int> {
    Sys([One(Draining, []), n1], capacity, false, false)
  }

  lemma ReachSecondRead(c: nat)
    requires c >= 1
    ensures Leads(Start(c), Orderly(c, One(Draining, []), Both(Reading(1, Some(1), 2, false))))
  {
    ReachSecond(c);
    Move(Start(c), Orderly(c, One(Waiting, [Get(ByTask(1, 1, 0))]), Both(Reading(1, None, 2, false))), Receive(0),
         Orderly(c, One(Draining, []), Both(Reading(1, Some(1), 2, false))));
  }

  lemma ReachSecondDelivered(c: nat)
    requires c >= 1
    ensures Leads(Start(c), Disorderly(c, Copied(Draining, [UpdateCache(1, 1)], None, false,
                                                 [FIRST, Reading(1, Some(1), 2, true)], [], None, Some(1), 0, 0)))
  {
    ReachSecondRead(c);
    Copies(1, 2, false);
    var s1 := Orderly(c, One(Draining, []), Both(Reading(1, Some(1), 2, false)));
    assert !s1.nodes[1].tasks[0].done;
    Move(Start(c), s1, Deliver(1, 1),
         Disorderly(c, Copied(Draining, [UpdateCache(1, 1)], None, false,
                              [FIRST, Reading(1, Some(1), 2, true)], [], None, Some(1), 0, 0)));
  }

  /** Both recomputes have delivered; this is what the cache goes through. */
  ghost function Settling(mailbox: seq<Msg<int>>, v: Option<int>, held: seq<int>, applied: Option<nat>): Node<int> {
    Copied(Draining, mailbox, v, v.Some?, [Reading(1, Some(0), 1, true), Reading(1, Some(1), 2, true)],
           held, applied, Some(0), |held|, 0)
  }

  lemma ReachBothDelivered(c: nat)
    requires c >= 1
    ensures Leads(Start(c), Disorderly(c, Settling([UpdateCache(0, 0)], Some(1), [1], Some(1))))
  {
    ReachSecondDelivered(c);
    Copies(0, 1, false);
    var s0 := Disorderly(c, Copied(Draining, [UpdateCache(1, 1)], None, false,
                                   [FIRST, Reading(1, Some(1), 2, true)], [], None, Some(1), 0, 0));
    var s1 := Disorderly(c, Copied(Draining, [], Some(1), true,
                                   [FIRST, Reading(1, Some(1), 2, true)], [1], Some(1), Some(1), 1, 0));
    Move(Start(c), s0, Receive(1), s1);
    Move(Start(c), s1, Deliver(1, 0), Disorderly(c, Settling([UpdateCache(0, 0)], Some(1), [1], Some(1))));
  }

  /**
   Convergence fails when recomputes deliver out of order: no overflow, nothing under way, and the copier of a
   state that is 1 holds 0.
   */
  lemma StaleOutOfOrder(c: nat)
    requires c >= 1
    ensures exists sys: Sys<int> ::
              Reachable(sys) && sys.capacity == c && !sys.overflow && !sys.inOrder && Stuck(sys)
  {
    ReachBothDelivered(c);
    var s0 := Disorderly(c, Settling([UpdateCache(0, 0)], Some(1), [1], Some(1)));
    var s := Disorderly(c, Settling([], Some(0), [1, 0], Some(0)));
    Move(Start(c), s0, Receive(1), s);
    assert Init(Start(c));
    assert Reachable(s);
    StaleOne(s, One(Draining, []));
  }

  lemma StaleOne(sys: Sys<int>, source: Node<int>)
    requires |sys.nodes| == 2 && sys.nodes[0] == source && sys.nodes[1].kind == COPIER
    requires source.value == Some(1) && sys.nodes[1].value == Some(0)
    requires !source.phase.Notifying? && !(source.dirty && 1 in source.subscribers)
    requires !sys.nodes[1].phase.Starting? && sys.nodes[1].mailbox == []
    requires forall t | 0 <= t < |sys.nodes[1].tasks| :: sys.nodes[1].tasks[t].done
    ensures Stuck(sys)
  {
    assert Sources(COPIER) == [0];
    assert !SourceBusy(sys.nodes, 1, 0);
    if SourcesReady(sys.nodes, 1) {
      assert SourceValues(sys.nodes, 1) == [1];
      assert Copy([1]) == 1;
    }
  }

  // ----- A subscription dropped by a full mailbox

  ghost function Dropped(capacity: nat, n0: Node<int>, n1: Node<int>): Sys<int> {
    Sys([n0, n1], capacity, true, true)
  }

  /** The state actor, holding 0, that never saw the subscription. */
  ghost function Unaware(phase: Phase<int>, mailbox: seq<Msg<int>>): Node<int> {
    State(phase, mailbox, 0, false, [], [0], 0, 0)
  }

  ghost function Reads(n: nat): seq<Msg<int>> {
    seq(n, _ => Get(Client))
  }

  lemma {:induction false} ReachFilled(c: nat, n: nat)
    requires n <= c
    ensures Leads(Start(c), Orderly(c, Unaware(Starting(0), Reads(n)), ASLEEP))
    decreases n
  {
    if n == 0 {
      Stay(Start(c));
      assert Reads(0) == [];
      assert Start(c) == Orderly(c, Unaware(Starting(0), Reads(0)), ASLEEP);
    } else {
      ReachFilled(c, n - 1);
      assert Reads(n - 1) + [Get(Client)] == Reads(n);
      Move(Start(c), Orderly(c, Unaware(Starting(0), Reads(n - 1)), ASLEEP), ClientSend(0, Get(Client)),
           Orderly(c, Unaware(Starting(0), Reads(n)), ASLEEP));
    }
  }

  lemma ReachDropped(c: nat)
    requires c >= 1
    ensures Leads(Start(c), Dropped(c, Unaware(Waiting, Reads(c)), STARTED))
  {
    ReachFilled(c, c);
    var s1 := Dropped(c, Unaware(Starting(0), Reads(c)), STARTED);
    Move(Start(c), Orderly(c, Unaware(Starting(0), Reads(c)), ASLEEP), SubscribeNext(1), s1);
    Move(Start(c), s1, EnterLoop(0), Dropped(c, Unaware(Waiting, Reads(c)), STARTED));
  }

  /** n of the reads that kept the subscription out are still queued. */
  lemma {:induction false} ReachDrained(c: nat, n: nat)
    requires n < c
    ensures Leads(Start(c), Dropped(c, Unaware(Draining, Reads(n)), STARTED))
    decreases c - n
  {
    var phase: Phase<int> := if n + 1 == c then Waiting else Draining;
    if n + 1 == c {
      ReachDropped(c);
    } else {
      ReachDrained(c, n + 1);
    }
    assert Reads(n + 1)[1..] == Reads(n);
    Move(Start(c), Dropped(c, Unaware(phase, Reads(n + 1)), STARTED), Receive(0),
         Dropped(c, Unaware(Draining, Reads(n)), STARTED));
  }

  lemma ReachEmptied(c: nat)
    requires c >= 1
    ensures Leads(Start(c), Dropped(c, Unaware(Draining, []), STARTED))
  {
    ReachDrained(c, 0);
    assert Reads(0) == [];
  }

  lemma ReachDroppedAsked(c: nat)
    requires c >= 1
    ensures Leads(Start(c), Dropped(c, Unaware(Draining, [Get(ByTask(1, 0, 0))]),
                                    Working([], [Reading(1, None, 1, false)])))
  {
    ReachEmptied(c);
    var s1 := Dropped(c, Unaware(Draining, []), Working([], [Reading(0, None, 1, false)]));
    Move(Start(c), Dropped(c, Unaware(Draining, []), STARTED), EnterLoop(1), s1);
    Move(Start(c), s1, TaskSend(1, 0),
         Dropped(c, Unaware(Draining, [Get(ByTask(1, 0, 0))]), Working([], [Reading(1, None, 1, false)])));
  }

  ghost const RIGHT: Node<int> :=
    Copied(Draining, [], Some(0), true, [Reading(1, Some(0), 1, true)], [0], Some(0), Some(0), 1, 0)

  lemma ReachDroppedRead(c: nat)
    requires c >= 1
    ensures Leads(Start(c), Dropped(c, Unaware(Draining, []),
                                    Copied(Waiting, [UpdateCache(0, 0)], None, false,
                                           [Reading(1, Some(0), 1, true)], [], None, Some(0), 0, 0)))
  {
    ReachDroppedAsked(c);
    Copies(0, 1, false);
    var s0 := Dropped(c, Unaware(Draining, [Get(ByTask(1, 0, 0))]), Working([], [Reading(1, None, 1, false)]));
    var s1 := Dropped(c, Unaware(Draining, []), Working([], [FIRST]));
    Move(Start(c), s0, Receive(0), s1);
    Move(Start(c), s1, Deliver(1, 0),
         Dropped(c, Unaware(Draining, []), Copied(Waiting, [UpdateCache(0, 0)], None, false,
                                               [Reading(1, Some(0), 1, true)], [], None, Some(0), 0, 0)));
  }

  lemma ReachDroppedSet(c: nat)
    requires c >= 1
    ensures Leads(Start(c), Dropped(c, Unaware(Draining, [Set(1)]), RIGHT))
  {
    ReachDroppedRead(c);
    var s0 := Dropped(c, Unaware(Draining, []), Copied(Waiting, [UpdateCache(0, 0)], None, false,
                                                    [Reading(1, Some(0), 1, true)], [], None, Some(0), 0, 0));
    var s1 := Dropped(c, Unaware(Draining, []), RIGHT);
    Move(Start(c), s0, Receive(1), s1);
    Move(Start(c), s1, ClientSend(0, Set(1)), Dropped(c, Unaware(Draining, [Set(1)]), RIGHT));
  }

  ghost const CHANGED: Node<int> := State(Draining, [], 1, true, [], [0, 1], 1, 0)

  lemma ReachWrong(c: nat)
    requires c >= 1
    ensures Leads(Start(c), Dropped(c, CHANGED, RIGHT))
  {
    ReachDroppedSet(c);
    Move(Start(c), Dropped(c, Unaware(Draining, [Set(1)]), RIGHT), Receive(0), Dropped(c, CHANGED, RIGHT));
  }

  /**
   Convergence fails when a full mailbox drops a subscription: every delivery in order, nothing under way, and
   the copier of a state that is 1 holds 0.
   */
  lemma StaleAfterOverflow(c: nat)
    requires c >= 1
    ensures exists sys: Sys<int> ::
              Reachable(sys) && sys.capacity == c && sys.overflow && sys.inOrder && Stuck(sys)
  {
    ReachWrong(c);
    var s := Dropped(c, CHANGED, RIGHT);
    assert Init(Start(c));
    assert Reachable(s);
    StaleOne(s, CHANGED);
  }
}
