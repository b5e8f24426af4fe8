/**
 The mailbox loop (crates/actor/src/mailbox.rs), `signal_stop` and `System::shutdown`
 (crates/actor/src/system.rs) as a step system with any number of actors and senders.

 `Context` keeps a sender of its own actor's channel, so `recv` never sees a closed channel and an actor leaves
 its loop only through the stop flag.
 */
module Shutdown {
  import opened Options

  datatype Envelope = Noop | User(id: nat)

  /** Where the loop is; `Done` is after `stopped()`, when `done` has been signalled and the receiver dropped. */
  datatype Phase = Starting | Receiving | Draining | Idling | Checking | Stopping | Done

  /**
   `stored` and `signalled`: `signal_stop` has set the flag, and has also tried to send its no-op.
   `sleepy` is history: the actor asked itself to stop inside `started`.
   */
  datatype Actor = Actor(
    queue: seq<Envelope>, capacity: nat, phase: Phase, stop: bool, stored: bool, signalled: bool,
    sleepy: bool)

  // ----- One actor

  datatype LoopStep = Enter | Receive | Drained | Idle | Check | Finish

  predicate LoopEnabled(a: Actor, s: LoopStep) {
    match s
    case Enter => a.phase == Starting
    case Receive => (a.phase == Receiving || a.phase == Draining) && a.queue != []
    case Drained => a.phase == Draining && a.queue == []
    case Idle => a.phase == Idling
    case Check => a.phase == Checking
    case Finish => a.phase == Stopping
  }

  function Loop(a: Actor, s: LoopStep): Actor
    requires LoopEnabled(a, s)
  {
    match s
    case Enter => a.(phase := Receiving)
    case Receive => a.(phase := Draining, queue := a.queue[1..])
    case Drained => a.(phase := Idling)
    case Idle => a.(phase := Checking)
    case Check => a.(phase := if a.stop then Stopping else Receiving)
    case Finish => a.(phase := Done)
  }

  /** `Sender::send`: refused when the mailbox is full or the receiver is gone. */
  function Send(a: Actor, m: Envelope): Actor {
    if a.phase == Done || |a.queue| >= a.capacity then a
    else a.(queue := a.queue + [m])
  }

  /** `ctx.stop()`, from `started` or from a handler or `idle`. */
  function StopSelf(a: Actor): Actor {
    a.(stop := true, sleepy := a.sleepy || a.phase == Starting)
  }

  function StoreStop(a: Actor): Actor {
    a.(stop := true, stored := true)
  }

  function SendNoop(a: Actor): Actor {
    Send(a, Noop).(signalled := true)
  }

  function Spawned(capacity: nat): Actor {
    Actor([], capacity, Starting, false, false, false, false)
  }

  ghost predicate ActorInv(a: Actor) {
    && a.capacity >= 1
    && |a.queue| <= a.capacity
    && (a.signalled ==> a.stored) && (a.stored ==> a.stop) && (a.sleepy ==> a.stop)
    && (a.signalled && a.phase in {Starting, Receiving} ==> a.queue != [])
    && (a.stop && a.phase in {Starting, Receiving} ==> a.stored || a.sleepy)
    && (a.phase == Stopping || a.phase == Done ==> a.stop)
  }

  lemma LoopKeeps(a: Actor, s: LoopStep)
    requires ActorInv(a) && LoopEnabled(a, s)
    ensures ActorInv(Loop(a, s))
  {
  }

  lemma SendKeeps(a: Actor, m: Envelope)
    requires ActorInv(a)
    ensures ActorInv(Send(a, m)) && ActorInv(SendNoop(StoreStop(a)))
    ensures a.stored ==> ActorInv(SendNoop(a))
  {
  }

  /** How far a signalled actor is from the end of its loop. */
  function Remaining(a: Actor): nat {
    |a.queue| + (match a.phase
                 case Starting => 6 case Receiving => 5 case Draining => 4 case Idling => 3
                 case Checking => 2 case Stopping => 1 case Done => 0)
  }

  /** No lost wake-up: a signalled actor that is not done can always take a step, and each brings it nearer. */
  lemma SignalledProgress(a: Actor)
    requires ActorInv(a) && a.signalled
    ensures a.phase != Done <==> exists s :: LoopEnabled(a, s)
    ensures forall s | LoopEnabled(a, s) :: Loop(a, s).signalled && Remaining(Loop(a, s)) < Remaining(a)
  {
    var s := match a.phase
      case Starting => Enter case Receiving => Receive
      case Draining => if a.queue == [] then Drained else Receive
      case Idling => Idle case Checking => Check case Stopping => Finish case Done => Enter;
    assert a.phase != Done ==> LoopEnabled(a, s);
  }

  /** Nothing is queued, and the next thing the loop does is to wait for a message, whatever the stop flag says. */
  predicate Sleeps(a: Actor) {
    (a.phase == Starting || a.phase == Receiving) && a.queue == []
  }

  /** With the stop flag set every step leads nearer the end, and none falls asleep or wakes up. */
  lemma StoppedProgress(a: Actor)
    requires a.stop
    ensures (exists s :: LoopEnabled(a, s)) <==> a.phase != Done && !(a.phase == Receiving && a.queue == [])
    ensures forall s | LoopEnabled(a, s) ::
              && Loop(a, s).stop && Remaining(Loop(a, s)) < Remaining(a)
              && (Sleeps(Loop(a, s)) <==> Sleeps(a)) && Loop(a, s).signalled == a.signalled
  {
    var s := match a.phase
      case Starting => Enter case Receiving => Receive
      case Draining => if a.queue == [] then Drained else Receive
      case Idling => Idle case Checking => Check case Stopping => Finish case Done => Enter;
    assert a.phase != Done && !(a.phase == Receiving && a.queue == []) ==> LoopEnabled(a, s);
  }

  // ----- The system

  datatype SysMsg = Register(actor: nat) | ShutdownMsg

  /**
   `System::shutdown`: not called, its message queued, the handler working through the entries it took,
   the caller awaiting `done` receivers, or returned; `served` is false when the message was refused.
   */
  datatype Call =
    | NotCalled
    | Queued
    | Signalling(todo: seq<nat>, stored: bool, awaits: seq<nat>)
    | Awaiting(awaits: seq<nat>)
    | Returned(served: bool)

  /** `early` is history: the actors whose registration was accepted before `shutdown` was called. */
  datatype World = World(
    actors: seq<Actor>, sysQueue: seq<SysMsg>, sysCapacity: nat, entries: seq<nat>, call: Call, early: set<nat>)

  datatype Action =
    | Spawn(capacity: nat)
    | RegisterActor(i: nat)
    | Step(i: nat, s: LoopStep)
    | SendTo(i: nat, m: Envelope)
    | SelfStop(i: nat)
    | CallShutdown
    | SysHandle
    | SignalStore
    | SignalNoop
    | SignalsDone
    | AwaitNext
    | AwaitDone

  predicate Enabled(w: World, a: Action) {
    match a
    case Spawn(capacity) => capacity >= 1
    case RegisterActor(i) => i < |w.actors|
    case Step(i, s) => i < |w.actors| && LoopEnabled(w.actors[i], s)
    case SendTo(i, _) => i < |w.actors|
    case SelfStop(i) => i < |w.actors| && w.actors[i].phase in {Starting, Draining, Idling}
    case CallShutdown => w.call.NotCalled?
    case SysHandle => w.sysQueue != [] && !w.call.Signalling?
    case SignalStore => w.call.Signalling? && w.call.todo != [] && !w.call.stored && w.call.todo[0] < |w.actors|
    case SignalNoop => w.call.Signalling? && w.call.todo != [] && w.call.stored && w.call.todo[0] < |w.actors|
    case SignalsDone => w.call.Signalling? && w.call.todo == []
    case AwaitNext =>
      w.call.Awaiting? && w.call.awaits != [] && w.call.awaits[0] < |w.actors|
      && w.actors[w.call.awaits[0]].phase == Done
    case AwaitDone => w.call.Awaiting? && w.call.awaits == []
  }

  function Put(w: World, i: nat, a: Actor): World
    requires i < |w.actors|
  {
    w.(actors := w.actors[i := a])
  }

  function Next(w: World, a: Action): World
    requires Enabled(w, a)
  {
    match a
    case Spawn(capacity) => w.(actors := w.actors + [Spawned(capacity)])
    case RegisterActor(i) =>
      if |w.sysQueue| >= w.sysCapacity then w
      else w.(sysQueue := w.sysQueue + [Register(i)], early := if w.call.NotCalled? then w.early + {i} else w.early)
    case Step(i, s) => Put(w, i, Loop(w.actors[i], s))
    case SendTo(i, m) => Put(w, i, Send(w.actors[i], m))
    case SelfStop(i) => Put(w, i, StopSelf(w.actors[i]))
    case CallShutdown =>
      if |w.sysQueue| >= w.sysCapacity then w.(call := Returned(false))
      else w.(sysQueue := w.sysQueue + [ShutdownMsg], call := Queued)
    case SysHandle =>
      var w' := w.(sysQueue := w.sysQueue[1..]);
      if w.sysQueue[0].Register? then w'.(entries := w.entries + [w.sysQueue[0].actor])
      else w'.(entries := [], call := Signalling(w.entries, false, []))
    case SignalStore => Put(w, w.call.todo[0], StoreStop(w.actors[w.call.todo[0]])).(call := w.call.(stored := true))
    case SignalNoop =>
      Put(w, w.call.todo[0], SendNoop(w.actors[w.call.todo[0]]))
      .(call := Signalling(w.call.todo[1..], false, w.call.awaits + [w.call.todo[0]]))
    case SignalsDone => w.(call := Awaiting(w.call.awaits))
    case AwaitNext => w.(call := Awaiting(w.call.awaits[1..]))
    case AwaitDone => w.(call := Returned(true))
  }

  ghost predicate Init(w: World) {
    w.actors == [] && w.sysQueue == [] && w.entries == [] && w.call == NotCalled && w.early == {}
  }

  ghost predicate Legal(w: World, acts: seq<Action>)
    decreases |acts|, 0
  {
    acts == [] ||
    (Legal(w, acts[..|acts| - 1]) && Enabled(Exec(w, acts[..|acts| - 1]), acts[|acts| - 1]))
  }

  ghost function Exec(w: World, acts: seq<Action>): World
    requires Legal(w, acts)
    decreases |acts|, 1
  {
    if acts == [] then w else Next(Exec(w, acts[..|acts| - 1]), acts[|acts| - 1])
  }

  ghost predicate Reachable(w: World) {
    exists init, acts :: Init(init) && Legal(init, acts) && Exec(init, acts) == w
  }

  // ----- Invariants

  /** Registrations ahead of the shutdown message, or all of them if there is none. */
  ghost function Ahead(queue: seq<SysMsg>): set<nat> {
    if queue == [] || queue[0].ShutdownMsg? then {} else {queue[0].actor} + Ahead(queue[1..])
  }

  ghost function Shutdowns(queue: seq<SysMsg>): nat {
    if queue == [] then 0 else (if queue[0].ShutdownMsg? then 1 else 0) + Shutdowns(queue[1..])
  }

  ghost predicate CallOk(w: World) {
    match w.call
    case NotCalled => Shutdowns(w.sysQueue) == 0 && w.early <= Elements(w.entries) + Ahead(w.sysQueue)
    case Queued => Shutdowns(w.sysQueue) == 1 && w.early <= Elements(w.entries) + Ahead(w.sysQueue)
    case Signalling(todo, stored, awaits) =>
      && Shutdowns(w.sysQueue) == 0
      && (forall i | i in todo :: i < |w.actors|)
      && (forall i | i in awaits :: i < |w.actors| && w.actors[i].signalled)
      && (todo != [] ==> todo[0] < |w.actors| && (stored ==> w.actors[todo[0]].stored))
      && (forall i | i in w.early :: i in todo || i in awaits)
    case Awaiting(awaits) =>
      && Shutdowns(w.sysQueue) == 0
      && (forall i | i in awaits :: i < |w.actors| && w.actors[i].signalled)
      && (forall i | i in w.early :: i < |w.actors| && (i in awaits || w.actors[i].phase == Done))
    case Returned(served) =>
      && Shutdowns(w.sysQueue) == 0
      && (served ==> forall i | i in w.early :: i < |w.actors| && w.actors[i].phase == Done)
  }

  ghost function Elements(s: seq<nat>): set<nat> {
    set i | i in s
  }

  ghost predicate Inv(w: World) {
    && (forall i | 0 <= i < |w.actors| :: ActorInv(w.actors[i]))
    && (forall i | i in w.entries :: i < |w.actors|)
    && (forall m | m in w.sysQueue && m.Register? :: m.actor < |w.actors|)
    && CallOk(w)
  }

  lemma {:induction false} AheadAppend(queue: seq<SysMsg>, m: SysMsg)
    ensures Ahead(queue) <= Ahead(queue + [m])
    ensures Shutdowns(queue + [m]) == Shutdowns(queue) + if m.ShutdownMsg? then 1 else 0
    ensures Shutdowns(queue) == 0 && m.Register? ==> Ahead(queue + [m]) == Ahead(queue) + {m.actor}
    decreases |queue|
  {
    if queue == [] {
      assert queue + [m] == [m];
    } else {
      assert (queue + [m])[1..] == queue[1..] + [m];
      AheadAppend(queue[1..], m);
    }
  }

  /** Replacing one actor by a later state of itself. */
  lemma PutKeeps(w: World, i: nat, a: Actor)
    requires Inv(w) && i < |w.actors| && ActorInv(a)
    requires (w.actors[i].stored ==> a.stored) && (w.actors[i].signalled ==> a.signalled)
    requires w.actors[i].phase == Done ==> a.phase == Done
    ensures Inv(Put(w, i, a))
  {
    assert CallOk(w);
    assert CallOk(Put(w, i, a));
  }

  lemma SysSendKeeps(w: World, a: Action)
    requires Inv(w) && Enabled(w, a) && (a.RegisterActor? || a.CallShutdown?)
    ensures Inv(Next(w, a))
  {
    AheadAppend(w.sysQueue, if a.RegisterActor? then Register(a.i) else ShutdownMsg);
  }

  lemma SysHandleKeeps(w: World)
    requires Inv(w) && Enabled(w, SysHandle)
    ensures Inv(Next(w, SysHandle))
  {
    var w' := Next(w, SysHandle);
    if w.sysQueue[0].Register? {
      assert w'.entries[|w.entries|] == w.sysQueue[0].actor;
      assert Elements(w'.entries) == Elements(w.entries) + {w.sysQueue[0].actor};
    } else {
      assert w.call.Queued?;
      assert Ahead(w.sysQueue) == {};
      assert w.entries != [] ==> w.entries[0] in w.entries;
    }
  }

  lemma SignalStoreKeeps(w: World)
    requires Inv(w) && Enabled(w, SignalStore)
    ensures Inv(Next(w, SignalStore))
  {
    var i := w.call.todo[0];
    assert ActorInv(w.actors[i]);
    PutKeeps(w, i, StoreStop(w.actors[i]));
  }

  lemma SignalNoopKeeps(w: World)
    requires Inv(w) && Enabled(w, SignalNoop)
    ensures Inv(Next(w, SignalNoop))
  {
    var i := w.call.todo[0];
    SendKeeps(w.actors[i], Noop);
    var put := Put(w, i, SendNoop(w.actors[i]));
    PutKeeps(w, i, SendNoop(w.actors[i]));
    MoveToAwaits(put, i);
  }

  lemma MoveToAwaits(w: World, i: nat)
    requires Inv(w) && w.call.Signalling? && w.call.todo != [] && w.call.todo[0] == i && w.actors[i].signalled
    ensures Inv(w.(call := Signalling(w.call.todo[1..], false, w.call.awaits + [i])))
  {
    var call := Signalling(w.call.todo[1..], false, w.call.awaits + [i]);
    assert forall j | j in call.awaits :: j == i || j in w.call.awaits;
    assert call.awaits[|w.call.awaits|] == i;
    assert forall j | j in w.call.awaits :: j in call.awaits;
    assert forall j | j in w.call.todo :: j == i || j in call.todo;
    assert forall j | j in call.todo :: j in w.call.todo;
    assert call.todo != [] ==> call.todo[0] in call.todo;
  }

  lemma AwaitKeeps(w: World, a: Action)
    requires Inv(w) && Enabled(w, a) && (a.SignalsDone? || a.AwaitNext? || a.AwaitDone?)
    ensures Inv(Next(w, a))
  {
    if a.AwaitNext? {
      AwaitedOne(w);
    }
  }

  lemma AwaitedOne(w: World)
    requires Inv(w) && Enabled(w, AwaitNext)
    ensures Inv(w.(call := Awaiting(w.call.awaits[1..])))
  {
    var awaits := w.call.awaits[1..];
    assert forall i | i in w.call.awaits :: i == w.call.awaits[0] || i in awaits;
    assert forall i | i in awaits :: i in w.call.awaits;
    assert CallOk(w.(call := Awaiting(awaits)));
  }

  lemma SpawnKeeps(w: World, capacity: nat)
    requires Inv(w) && capacity >= 1
    ensures Inv(w.(actors := w.actors + [Spawned(capacity)]))
  {
    assert ActorInv(Spawned(capacity));
  }

  lemma StepKeeps(w: World, a: Action)
    requires Inv(w) && Enabled(w, a)
    ensures Inv(Next(w, a))
  {
    match a
    case Spawn(capacity) => SpawnKeeps(w, capacity);
    case Step(i, s) =>
      LoopKeeps(w.actors[i], s);
      PutKeeps(w, i, Loop(w.actors[i], s));
    case SendTo(i, m) =>
      SendKeeps(w.actors[i], m);
      PutKeeps(w, i, Send(w.actors[i], m));
    case SelfStop(i) =>
      PutKeeps(w, i, StopSelf(w.actors[i]));
    case RegisterActor(_) => SysSendKeeps(w, a);
    case CallShutdown => SysSendKeeps(w, a);
    case SysHandle => SysHandleKeeps(w);
    case SignalStore => SignalStoreKeeps(w);
    case SignalNoop => SignalNoopKeeps(w);
    case SignalsDone => AwaitKeeps(w, a);
    case AwaitNext => AwaitKeeps(w, a);
    case AwaitDone => AwaitKeeps(w, a);
  }

  lemma {:induction false} RunKeeps(w: World, acts: seq<Action>)
    requires Inv(w) && Legal(w, acts)
    ensures Inv(Exec(w, acts))
    decreases |acts|
  {
    if acts != [] {
      RunKeeps(w, acts[..|acts| - 1]);
      StepKeeps(Exec(w, acts[..|acts| - 1]), acts[|acts| - 1]);
    }
  }

  lemma ReachableInv(w: World)
    requires Reachable(w)
    ensures Inv(w)
  {
    var init, acts :| Init(init) && Legal(init, acts) && Exec(init, acts) == w;
    RunKeeps(init, acts);
  }

  // ----- The promises

  /** Nobody sends anything to actor `i`; what happens to others is up to them. */
  ghost predicate LeftAlone(w: World, acts: seq<Action>, i: nat)
    requires Legal(w, acts)
    decreases |acts|
  {
    acts == [] ||
    var before, last := acts[..|acts| - 1], acts[|acts| - 1];
    && LeftAlone(w, before, i)
    && !(last.SendTo? && last.i == i)
    && !(last.SignalNoop? && Exec(w, before).call.todo[0] == i)
  }

  ghost function StepsOf(acts: seq<Action>, i: nat): nat {
    if acts == [] then 0
    else StepsOf(acts[..|acts| - 1], i) + if acts[|acts| - 1].Step? && acts[|acts| - 1].i == i then 1 else 0
  }

  /** While nobody sends to it, every step of an actor with its stop flag set uses up some of what remains. */
  lemma {:induction false} StepsBounded(w: World, acts: seq<Action>, i: nat)
    requires Legal(w, acts) && LeftAlone(w, acts, i) && i < |w.actors| && w.actors[i].stop
    ensures i < |Exec(w, acts).actors| && Exec(w, acts).actors[i].stop
    ensures StepsOf(acts, i) + Remaining(Exec(w, acts).actors[i]) <= Remaining(w.actors[i])
    ensures Sleeps(Exec(w, acts).actors[i]) <==> Sleeps(w.actors[i])
    ensures w.actors[i].signalled ==> Exec(w, acts).actors[i].signalled
    decreases |acts|
  {
    if acts != [] {
      var before, last := acts[..|acts| - 1], acts[|acts| - 1];
      StepsBounded(w, before, i);
      StoppedProgress(Exec(w, before).actors[i]);
      assert Exec(w, acts) == Next(Exec(w, before), last);
    }
  }

  /**
   Shutdown wakes everybody: once `signal_stop` has returned, and as long as nobody sends to it, an actor makes
   at most `Remaining` more steps whatever the others do, and when it has no step left it is done.
   */
  lemma SignalledActorsStop(w: World, acts: seq<Action>, i: nat)
    requires Reachable(w) && Legal(w, acts) && LeftAlone(w, acts, i) && i < |w.actors| && w.actors[i].signalled
    ensures StepsOf(acts, i) <= Remaining(w.actors[i])
    ensures i < |Exec(w, acts).actors|
    ensures (forall s :: !Enabled(Exec(w, acts), Step(i, s))) ==> Exec(w, acts).actors[i].phase == Done
  {
    ReachableInv(w);
    StepsBounded(w, acts, i);
    RunKeeps(w, acts);
    var a := Exec(w, acts).actors[i];
    assert ActorInv(a);
    SignalledProgress(a);
    if a.phase != Done {
      var s :| LoopEnabled(a, s);
      assert Enabled(Exec(w, acts), Step(i, s));
    }
  }

  /** Left alone, the actor can come to its end. */
  ghost predicate CanStop(w: World, i: nat) {
    exists acts | Legal(w, acts) && LeftAlone(w, acts, i) :: Stopped(Exec(w, acts), i)
  }

  ghost predicate Stopped(w: World, i: nat) {
    i < |w.actors| && w.actors[i].phase == Done
  }

  lemma {:induction false} RunsToEnd(w: World, acts: seq<Action>, i: nat)
    requires Legal(w, acts) && LeftAlone(w, acts, i) && i < |w.actors| && w.actors[i].stop && !Sleeps(w.actors[i])
    requires i < |Exec(w, acts).actors|
    ensures CanStop(w, i)
    decreases Remaining(Exec(w, acts).actors[i])
  {
    var now := Exec(w, acts);
    StepsBounded(w, acts, i);
    if now.actors[i].phase == Done {
      assert Stopped(now, i);
    } else {
      StoppedProgress(now.actors[i]);
      var s :| LoopEnabled(now.actors[i], s);
      var more := acts + [Step(i, s)];
      assert more[..|acts|] == acts;
      assert Legal(w, more) && LeftAlone(w, more, i);
      RunsToEnd(w, more, i);
    }
  }

  /**
   When a stop is noticed, whoever asked for it: an actor whose stop flag is set, and to which nobody sends, makes at
   most `Remaining` more steps whatever the others do; and when it has none left it is done if and only if it was not
   about to wait with nothing queued.  If it was, it goes on waiting through every such run.
   */
  lemma StopNoticedIff(w: World, acts: seq<Action>, i: nat)
    requires i < |w.actors| && w.actors[i].stop && Legal(w, acts) && LeftAlone(w, acts, i)
    ensures StepsOf(acts, i) <= Remaining(w.actors[i]) && i < |Exec(w, acts).actors|
    ensures (forall s :: !Enabled(Exec(w, acts), Step(i, s))) ==>
              (Exec(w, acts).actors[i].phase == Done <==> !Sleeps(w.actors[i]))
    ensures Sleeps(w.actors[i]) ==> Sleeps(Exec(w, acts).actors[i])
    ensures CanStop(w, i) <==> !Sleeps(w.actors[i])
  {
    StepsBounded(w, acts, i);
    var a := Exec(w, acts).actors[i];
    StoppedProgress(a);
    if a.phase != Done && !(a.phase == Receiving && a.queue == []) {
      var s :| LoopEnabled(a, s);
      assert Enabled(Exec(w, acts), Step(i, s));
    }
    if Sleeps(w.actors[i]) {
      forall more | Legal(w, more) && LeftAlone(w, more, i)
        ensures !Stopped(Exec(w, more), i)
      {
        StepsBounded(w, more, i);
      }
    } else {
      assert Legal(w, []) && LeftAlone(w, [], i);
      RunsToEnd(w, [], i);
    }
  }

  /** Any one message accepted wakes it. */
  lemma MessageWakes(w: World, i: nat, m: Envelope)
    requires Reachable(w) && i < |w.actors| && w.actors[i].stop && Sleeps(w.actors[i])
    ensures CanStop(Next(w, SendTo(i, m)), i)
  {
    ReachableInv(w);
    assert ActorInv(w.actors[i]);
    var woken := Next(w, SendTo(i, m));
    assert Legal(woken, []) && LeftAlone(woken, [], i);
    RunsToEnd(woken, [], i);
  }

  /**
   Stopping in `started` is not noticed: for every capacity there is a reachable actor that asked itself to stop there
   and waits for a message through every run in which nobody sends it one.
   */
  lemma StopInStartedSleeps(capacity: nat)
    requires capacity >= 1
    ensures exists w: World ::
              && Reachable(w) && |w.actors| == 1 && w.actors[0].capacity == capacity
              && w.actors[0].sleepy && w.actors[0].phase == Receiving
              && forall acts | Legal(w, acts) && LeftAlone(w, acts, 0) ::
                   !Stopped(Exec(w, acts), 0)
  {
    var w0 := Crowd(0, 1);
    assert w0.actors == [] && w0.sysQueue == [] && w0.early == {};
    assert Legal(w0, []) && Exec(w0, []) == w0 && Init(w0);
    var a := Spawned(capacity);
    var w1, w2 := w0.(actors := [a]), w0.(actors := [StopSelf(a)]);
    var w := w0.(actors := [Loop(StopSelf(a), Enter)]);
    Move(w0, w0, Spawn(capacity), w1);
    Move(w0, w1, SelfStop(0), w2);
    Move(w0, w2, Step(0, Enter), w);
    assert Reachable(w);
    forall acts | Legal(w, acts) && LeftAlone(w, acts, 0)
      ensures !Stopped(Exec(w, acts), 0)
    {
      StepsBounded(w, acts, 0);
    }
  }

  /** `shutdown()` that was served returns only after every actor registered before it was called is done. */
  lemma ShutdownWaits(w: World, i: nat)
    requires Reachable(w) && w.call == Returned(true) && i in w.early
    ensures i < |w.actors| && w.actors[i].phase == Done
  {
    ReachableInv(w);
  }

  ghost predicate AllDone(w: World, who: set<nat>) {
    forall i | i in who :: i < |w.actors| && w.actors[i].phase == Done
  }

  /** A call that was accepted is never refused later, and who counts as registered before it is settled. */
  lemma {:induction false} CallGoesOn(w: World, acts: seq<Action>)
    requires Legal(w, acts) && !w.call.NotCalled?
    ensures !Exec(w, acts).call.NotCalled? && Exec(w, acts).early == w.early
    ensures w.call != Returned(false) ==> Exec(w, acts).call != Returned(false)
    decreases |acts|
  {
    if acts != [] {
      CallGoesOn(w, acts[..|acts| - 1]);
    }
  }

  lemma {:induction false} ReturnStays(w: World, acts: seq<Action>)
    requires Inv(w) && Legal(w, acts) && w.call.Returned?
    ensures Exec(w, acts).call == w.call
    decreases |acts|
  {
    if acts != [] {
      var before := acts[..|acts| - 1];
      ReturnStays(w, before);
      RunKeeps(w, before);
      var mid := Exec(w, before);
      assert acts[|acts| - 1].SysHandle? && mid.sysQueue[0].ShutdownMsg? ==> Shutdowns(mid.sysQueue) > 0;
    }
  }

  /**
   From the call to the step in which it returns: everybody registered before the call has stopped if and only if
   the system actor's mailbox had room at the call, or they had all stopped by then anyway.
   */
  lemma ShutdownWaitsIff(w: World, acts: seq<Action>)
    requires Reachable(w) && w.call.NotCalled? && Legal(Next(w, CallShutdown), acts)
    requires Exec(Next(w, CallShutdown), acts).call.Returned?
    requires acts != [] ==> !Exec(Next(w, CallShutdown), acts[..|acts| - 1]).call.Returned?
    ensures AllDone(Exec(Next(w, CallShutdown), acts), w.early) <==>
            |w.sysQueue| < w.sysCapacity || AllDone(w, w.early)
  {
    ReachableInv(w);
    var called := Next(w, CallShutdown);
    StepKeeps(w, CallShutdown);
    CallGoesOn(called, acts);
    RunKeeps(called, acts);
    if called.call == Returned(false) {
      if acts != [] {
        ReturnStays(called, acts[..|acts| - 1]);
        assert false;
      }
    }
  }

  ghost function UpTo(n: nat): (r: set<nat>)
    ensures forall i: nat :: i in r <==> i < n
  {
    if n == 0 then {} else UpTo(n - 1) + {n - 1}
  }

  /** Actors 0 to n - 1, all registered before the call and none of them even started. */
  ghost function Crowd(n: nat, capacity: nat): World {
    World(seq(n, _ => Spawned(1)), seq(n, i requires 0 <= i < n => Register(i)), capacity, [], NotCalled, UpTo(n))
  }

  lemma CrowdGrows(n: nat, capacity: nat)
    requires n < capacity
    ensures Crowd(n + 1, capacity).actors == Crowd(n, capacity).actors + [Spawned(1)]
    ensures Crowd(n + 1, capacity).sysQueue == Crowd(n, capacity).sysQueue + [Register(n)]
    ensures Crowd(n + 1, capacity).early == Crowd(n, capacity).early + {n}
  {
  }

  lemma {:induction false} ReachCrowd(n: nat, capacity: nat)
    requires n <= capacity
    ensures Leads(Crowd(0, capacity), Crowd(n, capacity))
    decreases n
  {
    var w0 := Crowd(0, capacity);
    if n == 0 {
      assert Legal(w0, []) && Exec(w0, []) == w0;
    } else {
      ReachCrowd(n - 1, capacity);
      CrowdGrows(n - 1, capacity);
      var w := Crowd(n - 1, capacity);
      var w' := w.(actors := w.actors + [Spawned(1)]);
      Move(w0, w, Spawn(1), w');
      Move(w0, w', RegisterActor(n - 1), Crowd(n, capacity));
    }
  }

  /**
   The other case happens for every capacity of the system actor's mailbox: with that many registrations waiting in
   it, `shutdown()` returns at once, and not one of those actors has as much as started.
   */
  lemma ShutdownRefused(capacity: nat)
    requires capacity >= 1
    ensures exists w: World ::
              && Reachable(w) && w.sysCapacity == capacity && w.call == Returned(false)
              && w.early == UpTo(capacity) && |w.actors| == capacity
              && forall i | 0 <= i < capacity :: w.actors[i].phase == Starting
  {
    ReachCrowd(capacity, capacity);
    var w := Crowd(capacity, capacity);
    var w' := w.(call := Returned(false));
    Move(Crowd(0, capacity), w, CallShutdown, w');
    var w0 := Crowd(0, capacity);
    assert w0.actors == [] && w0.sysQueue == [] && w0.early == {};
    assert Init(w0);
    assert Reachable(w');
  }

  ghost predicate Leads(w: World, w': World) {
    exists acts :: Legal(w, acts) && Exec(w, acts) == w'
  }

  lemma Move(w0: World, w: World, a: Action, w': World)
    requires Leads(w0, w) && Enabled(w, a) && Next(w, a) == w'
    ensures Leads(w0, w')
  {
    var acts :| Legal(w0, acts) && Exec(w0, acts) == w;
    assert (acts + [a])[..|acts|] == acts;
    assert Legal(w0, acts + [a]);
  }

  // ----- A shutdown that was accepted comes to its end

  /** A step of the runtime itself: nobody sends, spawns, registers or asks to stop. */
  ghost predicate Internal(a: Action) {
    a.Step? || a.SysHandle? || a.SignalStore? || a.SignalNoop? || a.SignalsDone? || a.AwaitNext? || a.AwaitDone?
  }

  function Weight(a: Actor): nat {
    5 * |a.queue| + (match a.phase
                     case Starting => 1 case Receiving => 0 case Draining => 4 case Idling => 3
                     case Checking => 2 case Stopping => 1 case Done => 0)
  }

  ghost function Weights(actors: seq<Actor>): nat {
    if actors == [] then 0 else Weights(actors[..|actors| - 1]) + Weight(actors[|actors| - 1])
  }

  ghost function CallWeight(c: Call): nat {
    match c
    case NotCalled => 0
    case Queued => 3
    case Signalling(todo, stored, awaits) => 8 * |todo| + |awaits| + 2 - (if stored && todo != [] then 1 else 0)
    case Awaiting(awaits) => |awaits| + 1
    case Returned(_) => 0
  }

  /** How many steps the runtime can make at most before it has to wait for somebody. */
  ghost function Pending(w: World): nat {
    Weights(w.actors) + 10 * |w.sysQueue| + 9 * |w.entries| + CallWeight(w.call)
  }

  lemma {:induction false} WeightsUpdate(actors: seq<Actor>, i: nat, a: Actor)
    requires i < |actors|
    ensures Weights(actors[i := a]) + Weight(actors[i]) == Weights(actors) + Weight(a)
    decreases |actors|
  {
    var n := |actors| - 1;
    if i == n {
      assert actors[i := a][..n] == actors[..n];
    } else {
      assert actors[i := a][..n] == actors[..n][i := a];
      WeightsUpdate(actors[..n], i, a);
    }
  }

  lemma LoopWeight(a: Actor, s: LoopStep)
    requires LoopEnabled(a, s)
    ensures Weight(Loop(a, s)) < Weight(a)
  {
  }

  lemma LocalStep(w: World, a: Action)
    requires Enabled(w, a) && (a.Step? || a.SelfStop?)
    ensures a.Step? ==> Pending(Next(w, a)) < Pending(w)
    ensures a.SelfStop? ==> Pending(Next(w, a)) == Pending(w)
  {
    WeightsUpdate(w.actors, a.i, Next(w, a).actors[a.i]);
    if a.Step? {
      LoopWeight(w.actors[a.i], a.s);
    }
  }

  lemma SignalStep(w: World, a: Action)
    requires Enabled(w, a) && (a.SignalStore? || a.SignalNoop?)
    ensures Pending(Next(w, a)) < Pending(w)
  {
    var i := w.call.todo[0];
    WeightsUpdate(w.actors, i, Next(w, a).actors[i]);
  }

  lemma SystemStep(w: World, a: Action)
    requires Inv(w) && Enabled(w, a) && (a.SysHandle? || a.SignalsDone? || a.AwaitNext? || a.AwaitDone?)
    ensures Pending(Next(w, a)) < Pending(w)
  {
  }

  lemma InternalStep(w: World, a: Action)
    requires Inv(w) && Enabled(w, a)
    ensures Internal(a) ==> Pending(Next(w, a)) < Pending(w)
    ensures a.SelfStop? ==> Pending(Next(w, a)) == Pending(w)
  {
    if a.Step? || a.SelfStop? {
      LocalStep(w, a);
    } else if a.SignalStore? || a.SignalNoop? {
      SignalStep(w, a);
    } else if Internal(a) {
      SystemStep(w, a);
    }
  }

  ghost function InternalSteps(acts: seq<Action>): nat {
    if acts == [] then 0 else InternalSteps(acts[..|acts| - 1]) + if Internal(acts[|acts| - 1]) then 1 else 0
  }

  lemma {:induction false} InternalBounded(w: World, acts: seq<Action>)
    requires Inv(w) && Legal(w, acts) && forall k | 0 <= k < |acts| :: Internal(acts[k]) || acts[k].SelfStop?
    ensures InternalSteps(acts) + Pending(Exec(w, acts)) <= Pending(w)
    decreases |acts|
  {
    if acts != [] {
      var before := acts[..|acts| - 1];
      InternalBounded(w, before);
      RunKeeps(w, before);
      InternalStep(Exec(w, before), acts[|acts| - 1]);
    }
  }

  /** An accepted `shutdown()` that has not returned is never stuck: the runtime itself can make a step. */
  lemma ShutdownNeverStuck(w: World)
    requires Reachable(w) && (w.call.Queued? || w.call.Signalling? || w.call.Awaiting?)
    ensures exists a :: Internal(a) && Enabled(w, a)
  {
    ReachableInv(w);
    match w.call
    case Queued => assert Enabled(w, SysHandle);
    case Signalling(todo, stored, _) =>
      assert Enabled(w, if todo == [] then SignalsDone else if stored then SignalNoop else SignalStore);
    case Awaiting(awaits) =>
      if awaits == [] {
        assert Enabled(w, AwaitDone);
      } else {
        var i := awaits[0];
        assert i in awaits;
        assert ActorInv(w.actors[i]);
        SignalledProgress(w.actors[i]);
        if w.actors[i].phase == Done {
          assert Enabled(w, AwaitNext);
        } else {
          var s :| LoopEnabled(w.actors[i], s);
          assert Enabled(w, Step(i, s));
        }
      }
  }

  /**
   So, as long as nobody interferes, an accepted `shutdown()` returns: the runtime makes at most `Pending` steps,
   in whatever order, and it does not run out of steps before the call has returned with everybody stopped.
   */
  lemma ShutdownReturns(w: World, acts: seq<Action>)
    requires Reachable(w) && (w.call.Queued? || w.call.Signalling? || w.call.Awaiting?)
    requires Legal(w, acts) && forall k | 0 <= k < |acts| :: Internal(acts[k]) || acts[k].SelfStop?
    ensures InternalSteps(acts) <= Pending(w)
    ensures (forall a | Enabled(Exec(w, acts), a) :: !Internal(a)) ==>
              Exec(w, acts).call == Returned(true) && AllDone(Exec(w, acts), w.early)
  {
    ReachableInv(w);
    InternalBounded(w, acts);
    RunKeeps(w, acts);
    CallGoesOn(w, acts);
    ExecReachable(w, acts);
    var end := Exec(w, acts);
    if end.call.Queued? || end.call.Signalling? || end.call.Awaiting? {
      ShutdownNeverStuck(end);
    }
  }

  lemma {:induction false} ExecReachable(w: World, acts: seq<Action>)
    requires Reachable(w) && Legal(w, acts)
    ensures Reachable(Exec(w, acts))
    decreases |acts|
  {
    if acts != [] {
      ExecReachable(w, acts[..|acts| - 1]);
      var mid := Exec(w, acts[..|acts| - 1]);
      var init, pre :| Init(init) && Legal(init, pre) && Exec(init, pre) == mid;
      assert Leads(init, mid);
      Move(init, mid, acts[|acts| - 1], Exec(w, acts));
    }
  }

  // ----- The system actor, updated in place

  /** The channel and the stop flag an `ActorEntry` closes over. */
  class Cell {
    const capacity: nat
    var queue: seq<Envelope>
    var stop: bool
    var closed: bool

    /** This is the shared part of actor `a` of the step system. */
    ghost predicate Shows(a: Actor)
      reads this
    {
      capacity == a.capacity && queue == a.queue && stop == a.stop && closed == (a.phase == Done)
    }

    constructor (capacity: nat)
      requires capacity >= 1
      ensures Shows(Spawned(capacity))
    {
      this.capacity := capacity;
      queue, stop, closed := [], false, false;
    }

    /** Sets the flag and wakes the actor; a full mailbox drops the no-op but is itself a wake-up. */
    method SignalStop(ghost a: Actor)
      requires Shows(a)
      modifies this
      ensures Shows(SendNoop(StoreStop(a)))
      ensures !closed && capacity >= 1 ==> queue != []
    {
      stop := true;
      if !closed && |queue| < capacity {
        queue := queue + [Noop];
      }
    }
  }

  class SystemActor {
    var entries: seq<Cell>

    /** Every spawn makes its own channel, so no cell is registered twice. */
    ghost predicate Valid()
      reads this
    {
      forall i, j | 0 <= i < j < |entries| :: entries[i] != entries[j]
    }

    constructor ()
      ensures Valid() && entries == []
    {
      entries := [];
    }

    method HandleRegister(entry: Cell)
      requires Valid() && entry !in entries
      modifies this
      ensures Valid() && entries == old(entries) + [entry]
    {
      entries := entries + [entry];
    }

    /**
     Takes every entry and does to each exactly what the two halves of `signal_stop` do in the step system, once;
     returns what the caller has to await, in registration order.
     */
    method HandleShutdown(ghost actors: seq<Actor>) returns (done: seq<Cell>)
      requires Valid() && |actors| == |entries|
      requires forall k | 0 <= k < |entries| :: entries[k].Shows(actors[k])
      modifies this, entries
      ensures Valid() && entries == [] && done == old(entries)
      ensures forall k | 0 <= k < |done| :: done[k].Shows(SendNoop(StoreStop(actors[k])))
    {
      var taken := entries;
      entries := [];
      done := [];
      while |done| < |taken|
        invariant |done| <= |taken| && done == taken[..|done|] && entries == []
        invariant forall k | |done| <= k < |taken| :: taken[k].Shows(actors[k])
        invariant forall k | 0 <= k < |done| :: taken[k].Shows(SendNoop(StoreStop(actors[k])))
      {
        taken[|done|].SignalStop(actors[|done|]);
        done := done + [taken[|done|]];
      }
    }
  }
}
