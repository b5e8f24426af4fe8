/** `Debounce` (crates/actor/src/debounce.rs): its handlers, its timers and its mailbox, in every interleaving. */
module Debounce {
  import opened Options
  import opened Timers

  /** `Flush` carries the number of its timer as history. */
  datatype Msg<M> = Enqueue(m: M) | Flush(timer: nat)

  /**
   From `enqueued` on, history: the messages handled, the messages forwarded, and for each of those how many had
   been enqueued; `armedAt` is when the newest message was handled; `dropped` says that a full mailbox refused a
   `Flush`.
   */
  datatype State<M> = State(
    delay: nat, pending: Option<M>, timer: Option<nat>, timers: seq<Timer>, mailbox: seq<Msg<M>>, capacity: nat,
    now: nat, enqueued: seq<M>, forwarded: seq<M>, marks: seq<nat>, armedAt: nat, dropped: bool)

  datatype Action<M> = Send(m: M) | Handle | Tick(ticks: nat) | Wake(id: nat) | Fire(id: nat)

  // ----- Handlers

  function OnEnqueue<M>(s: State<M>, m: M): State<M> {
    s.(pending := Some(m),
       timers := (if s.timer.Some? then Cancelled(s.timers, s.timer.value) else s.timers)
                 + [Timer(s.now + s.delay, false, Sleeping)],
       timer := Some(|s.timers|),
       enqueued := s.enqueued + [m], armedAt := s.now)
  }

  function OnFlush<M>(s: State<M>): State<M> {
    if s.pending.None? then s
    else s.(pending := None, forwarded := s.forwarded + [s.pending.value], marks := s.marks + [|s.enqueued|])
  }

  predicate Enabled<M>(s: State<M>, a: Action<M>) {
    match a
    case Send(_) => true
    case Handle => s.mailbox != []
    case Tick(_) => true
    case Wake(id) => id < |s.timers| && s.timers[id].stage.Sleeping? && s.timers[id].due <= s.now
    case Fire(id) => id < |s.timers| && s.timers[id].stage.Passed?
  }

  function Next<M>(s: State<M>, a: Action<M>): State<M>
    requires Enabled(s, a)
  {
    match a
    case Send(m) => if |s.mailbox| < s.capacity then s.(mailbox := s.mailbox + [Enqueue(m)]) else s
    case Handle =>
      var rest := s.(mailbox := s.mailbox[1..]);
      if s.mailbox[0].Enqueue? then OnEnqueue(rest, s.mailbox[0].m) else OnFlush(rest)
    case Tick(ticks) => s.(now := s.now + ticks)
    case Wake(id) => s.(timers := s.timers[id := Woken(s.timers[id])])
    case Fire(id) =>
      var gone := s.(timers := s.timers[id := s.timers[id].(stage := Gone)]);
      if |s.mailbox| < s.capacity then gone.(mailbox := s.mailbox + [Flush(id)]) else gone.(dropped := true)
  }

  ghost predicate Init<M>(s: State<M>) {
    && s.pending.None? && s.timer.None? && s.timers == [] && s.mailbox == [] && s.capacity >= 1
    && s.enqueued == [] && s.forwarded == [] && s.marks == [] && !s.dropped
  }

  ghost predicate Legal<M>(s: State<M>, acts: seq<Action<M>>)
    decreases |acts|, 0
  {
    acts == [] ||
    (Legal(s, acts[..|acts| - 1]) && Enabled(Exec(s, acts[..|acts| - 1]), acts[|acts| - 1]))
  }

  ghost function Exec<M>(s: State<M>, acts: seq<Action<M>>): State<M>
    requires Legal(s, acts)
    decreases |acts|, 1
  {
    if acts == [] then s else Next(Exec(s, acts[..|acts| - 1]), acts[|acts| - 1])
  }

  ghost predicate Reachable<M(!new)>(s: State<M>) {
    exists init: State<M>, acts :: Init(init) && Legal(init, acts) && Exec(init, acts) == s
  }

  // ----- Invariants

  ghost predicate OwnTimerAlive<M>(s: State<M>) {
    s.timer.Some? && s.timer.value < |s.timers| && Alive(s.timers[s.timer.value])
  }

  ghost predicate FlushQueued<M>(s: State<M>) {
    exists j | 0 <= j < |s.mailbox| :: s.mailbox[j].Flush?
  }

  ghost predicate TimersOk<M>(s: State<M>) {
    && (s.timer.Some? ==>
          && s.timer.value == |s.timers| - 1 && !s.timers[s.timer.value].cancelled
          && s.timers[s.timer.value].due == s.armedAt + s.delay)
    && (s.timer.None? ==> s.timers == [])
    && (forall id | 0 <= id < |s.timers| :: !s.timers[id].stage.Sleeping? ==> s.timers[id].due <= s.now)
    && (forall j | 0 <= j < |s.mailbox| :: s.mailbox[j].Flush? ==>
          s.mailbox[j].timer < |s.timers| && s.timers[s.mailbox[j].timer].due <= s.now)
  }

  /** A pending message is the newest one; otherwise the newest one has been forwarded. */
  ghost predicate PendingOk<M>(s: State<M>) {
    && (s.pending.Some? ==> s.enqueued != [] && s.pending.value == s.enqueued[|s.enqueued| - 1] && s.timer.Some?)
    && (s.pending.Some? && s.marks != [] ==> s.marks[|s.marks| - 1] < |s.enqueued|)
    && (s.pending.None? && s.enqueued != [] ==> s.marks != [] && s.marks[|s.marks| - 1] == |s.enqueued|)
  }

  /** Forward k sent the newest message enqueued so far, and a new one had been enqueued since forward k - 1. */
  ghost predicate ForwardsOk<M>(s: State<M>) {
    && |s.forwarded| == |s.marks|
    && (forall k | 0 <= k < |s.marks| ::
          1 <= s.marks[k] <= |s.enqueued| && s.forwarded[k] == s.enqueued[s.marks[k] - 1])
    && (forall j, k | 0 <= j < k < |s.marks| :: s.marks[j] < s.marks[k])
  }

  ghost predicate Inv<M>(s: State<M>) {
    && s.capacity >= 1 && TimersOk(s) && PendingOk(s) && ForwardsOk(s)
    && (s.pending.Some? ==> OwnTimerAlive(s) || s.mailbox != [])
    && (s.pending.Some? && !s.dropped ==> OwnTimerAlive(s) || FlushQueued(s))
  }

  lemma EnqueueKeeps<M>(s: State<M>)
    requires Inv(s) && s.mailbox != [] && s.mailbox[0].Enqueue?
    ensures Inv(Next(s, Handle))
  {
    var s' := Next(s, Handle);
    assert OwnTimerAlive(s');
  }

  lemma FlushKeeps<M>(s: State<M>)
    requires Inv(s) && s.mailbox != [] && s.mailbox[0].Flush?
    ensures Inv(Next(s, Handle))
  {
    ForwardOnce(s.(mailbox := s.mailbox[1..]));
    FlushTimers(s);
  }

  lemma FlushTimers<M>(s: State<M>)
    requires TimersOk(s) && s.mailbox != [] && s.mailbox[0].Flush?
    ensures TimersOk(Next(s, Handle))
  {
    var s' := Next(s, Handle);
    assert forall j | 0 <= j < |s'.mailbox| :: s'.mailbox[j] == s.mailbox[j + 1];
  }

  lemma ForwardOnce<M>(s: State<M>)
    requires PendingOk(s) && ForwardsOk(s)
    ensures PendingOk(OnFlush(s)) && ForwardsOk(OnFlush(s))
  {
  }

  lemma AppendKeepsFlush<M>(s: State<M>, s': State<M>, m: Msg<M>)
    requires s'.mailbox == s.mailbox || s'.mailbox == s.mailbox + [m]
    ensures FlushQueued(s) ==> FlushQueued(s')
    ensures s'.mailbox == s.mailbox + [m] && m.Flush? ==> FlushQueued(s')
  {
    if FlushQueued(s) {
      var j :| 0 <= j < |s.mailbox| && s.mailbox[j].Flush?;
      assert s'.mailbox[j].Flush?;
    }
    if s'.mailbox == s.mailbox + [m] && m.Flush? {
      assert s'.mailbox[|s.mailbox|].Flush?;
    }
  }

  lemma TimerTimers<M>(s: State<M>, a: Action<M>)
    requires TimersOk(s) && Enabled(s, a) && (a.Wake? || a.Fire?)
    ensures TimersOk(Next(s, a))
  {
  }

  lemma TimerKeeps<M>(s: State<M>, a: Action<M>)
    requires Inv(s) && Enabled(s, a) && (a.Wake? || a.Fire?)
    ensures Inv(Next(s, a))
  {
    TimerTimers(s, a);
    HistoryKept(s, Next(s, a));
    AppendKeepsFlush(s, Next(s, a), Flush(a.id));
  }

  lemma HistoryKept<M>(s: State<M>, s': State<M>)
    requires PendingOk(s) && ForwardsOk(s)
    requires s' == s.(timers := s'.timers, mailbox := s'.mailbox, dropped := s'.dropped)
    ensures PendingOk(s') && ForwardsOk(s')
  {
  }

  lemma SendKeeps<M>(s: State<M>, m: M)
    requires Inv(s)
    ensures Inv(Next(s, Send(m)))
  {
    AppendKeepsFlush(s, Next(s, Send(m)), Enqueue(m));
  }

  lemma TickKeeps<M>(s: State<M>, ticks: nat)
    requires Inv(s)
    ensures Inv(Next(s, Tick(ticks)))
  {
    var s' := Next(s, Tick(ticks));
    assert TimersOk(s');
    assert PendingOk(s') && ForwardsOk(s');
    assert OwnTimerAlive(s') <==> OwnTimerAlive(s);
    assert FlushQueued(s') <==> FlushQueued(s);
  }

  lemma StepKeeps<M>(s: State<M>, a: Action<M>)
    requires Inv(s) && Enabled(s, a)
    ensures Inv(Next(s, a))
  {
    match a
    case Send(m) => SendKeeps(s, m);
    case Handle =>
      if s.mailbox[0].Enqueue? {
        EnqueueKeeps(s);
      } else {
        FlushKeeps(s);
      }
    case Tick(ticks) => TickKeeps(s, ticks);
    case Wake(_) => TimerKeeps(s, a);
    case Fire(_) => TimerKeeps(s, a);
  }

  lemma {:induction false} RunKeeps<M>(s: State<M>, acts: seq<Action<M>>)
    requires Inv(s) && Legal(s, acts)
    ensures Inv(Exec(s, acts))
    decreases |acts|
  {
    if acts != [] {
      RunKeeps(s, acts[..|acts| - 1]);
      StepKeeps(Exec(s, acts[..|acts| - 1]), acts[|acts| - 1]);
    }
  }

  lemma ReachableInv<M(!new)>(s: State<M>)
    requires Reachable(s)
    ensures Inv(s)
  {
    var init: State<M>, acts :| Init(init) && Legal(init, acts) && Exec(init, acts) == s;
    RunKeeps(init, acts);
  }

  // ----- The promises

  /**
   In every run and every race: each forward sends the newest message so far, never the same one twice, and a
   pending message has its own timer armed or something queued that deals with it -- a `Flush`, unless a full
   mailbox has refused one.
   */
  lemma NothingStranded<M(!new)>(s: State<M>)
    requires Reachable(s)
    ensures ForwardsOk(s)
    ensures s.pending.Some? ==> OwnTimerAlive(s) || s.mailbox != []
    ensures s.pending.Some? && !s.dropped ==> OwnTimerAlive(s) || FlushQueued(s)
  {
    ReachableInv(s);
  }

  /** At rest -- nothing queued, no timer alive -- the last message forwarded is the last one enqueued. */
  lemma QuietMeansForwarded<M(!new)>(s: State<M>)
    requires Reachable(s) && s.mailbox == [] && (forall id | 0 <= id < |s.timers| :: !Alive(s.timers[id]))
    requires s.enqueued != []
    ensures s.pending.None? && s.forwarded != []
    ensures s.forwarded[|s.forwarded| - 1] == s.enqueued[|s.enqueued| - 1]
  {
    ReachableInv(s);
  }

  /** A flush by the message's own timer comes no earlier than `delay` after that message was handled. */
  lemma OwnFlushIsLate<M(!new)>(s: State<M>)
    requires Reachable(s) && s.mailbox != [] && s.mailbox[0].Flush? && s.pending.Some?
    requires s.timer == Some(s.mailbox[0].timer)
    ensures s.armedAt + s.delay <= s.now
  {
    ReachableInv(s);
  }

  // ----- When a message can go out early

  /** Every timer but the newest has been cancelled. */
  ghost predicate Superseding<M>(s: State<M>) {
    forall id | 0 <= id < |s.timers| - 1 :: s.timers[id].cancelled
  }

  lemma SupersedingStep<M>(s: State<M>, a: Action<M>)
    requires Superseding(s) && TimersOk(s) && Enabled(s, a)
    ensures Superseding(Next(s, a))
  {
  }

  lemma {:induction false} SupersedingRun<M>(s: State<M>, acts: seq<Action<M>>)
    requires Superseding(s) && Inv(s) && Legal(s, acts)
    ensures Superseding(Exec(s, acts))
    decreases |acts|
  {
    if acts != [] {
      SupersedingRun(s, acts[..|acts| - 1]);
      RunKeeps(s, acts[..|acts| - 1]);
      SupersedingStep(Exec(s, acts[..|acts| - 1]), acts[|acts| - 1]);
    }
  }

  ghost predicate SomePassed<M>(s: State<M>) {
    exists id | 0 <= id < |s.timers| :: s.timers[id].stage.Passed?
  }

  /** A flush is next in the mailbox, or would be as soon as a timer sends that has read its cancel flag already. */
  ghost predicate FlushAtHand<M>(s: State<M>) {
    if s.mailbox != [] then s.mailbox[0].Flush? else SomePassed(s)
  }

  /** Within `acts` nothing newer is handled, and at their end the delay of the pending message is not over. */
  ghost predicate TooSoon<M>(s: State<M>, acts: seq<Action<M>>) {
    Legal(s, acts) && Exec(s, acts).enqueued == s.enqueued && Exec(s, acts).now < s.armedAt + s.delay
  }

  lemma QuietStep<M>(s: State<M>, a: Action<M>)
    requires Inv(s) && Superseding(s) && s.pending.Some? && Enabled(s, a) && !FlushAtHand(s)
    requires Next(s, a).enqueued == s.enqueued && Next(s, a).now < s.armedAt + s.delay
    ensures Next(s, a).forwarded == s.forwarded && Next(s, a).pending == s.pending
    ensures Next(s, a).armedAt == s.armedAt && Next(s, a).delay == s.delay && !FlushAtHand(Next(s, a))
  {
    var s' := Next(s, a);
    if a.Handle? {
      assert false;
    }
    if SomePassed(s') {
      var id :| 0 <= id < |s'.timers| && s'.timers[id].stage.Passed?;
      assert s.timers[id].stage.Passed? || (a.Wake? && a.id == id && !s.timers[id].cancelled);
    }
  }

  /** Enqueuing and the clock only go forward. */
  lemma OnlyForward<M>(s: State<M>, a: Action<M>)
    requires Enabled(s, a)
    ensures |s.enqueued| <= |Next(s, a).enqueued| && s.now <= Next(s, a).now
    ensures |s.enqueued| == |Next(s, a).enqueued| ==> s.enqueued == Next(s, a).enqueued
  {
  }

  lemma {:induction false} OnlyForwardRun<M>(s: State<M>, acts: seq<Action<M>>)
    requires Legal(s, acts)
    ensures |s.enqueued| <= |Exec(s, acts).enqueued| && s.now <= Exec(s, acts).now
    ensures |s.enqueued| == |Exec(s, acts).enqueued| ==> s.enqueued == Exec(s, acts).enqueued
    decreases |acts|
  {
    if acts != [] {
      OnlyForwardRun(s, acts[..|acts| - 1]);
      OnlyForward(Exec(s, acts[..|acts| - 1]), acts[|acts| - 1]);
    }
  }

  /** With no flush at hand nothing is forwarded before the delay is over or a newer message is handled. */
  lemma {:induction false} HeldBack<M>(s: State<M>, acts: seq<Action<M>>)
    requires Inv(s) && Superseding(s) && s.pending.Some? && !FlushAtHand(s) && TooSoon(s, acts)
    ensures var e := Exec(s, acts);
            && e.forwarded == s.forwarded && e.pending == s.pending
            && e.armedAt == s.armedAt && e.delay == s.delay && !FlushAtHand(e)
    decreases |acts|
  {
    if acts != [] {
      var before, last := acts[..|acts| - 1], acts[|acts| - 1];
      OnlyForwardRun(s, before);
      OnlyForward(Exec(s, before), last);
      HeldBack(s, before);
      RunKeeps(s, before);
      SupersedingRun(s, before);
      QuietStep(Exec(s, before), last);
    }
  }

  /** Some run forwards the pending message, and nothing else, before its delay is over. */
  ghost predicate CanGoEarly<M(!new)>(s: State<M>)
    requires s.pending.Some?
  {
    exists acts: seq<Action<M>> ::
      TooSoon(s, acts) && Exec(s, acts).forwarded == s.forwarded + [s.pending.value]
  }

  lemma RunOne<M>(s: State<M>, a: Action<M>)
    requires Enabled(s, a)
    ensures Legal(s, [a]) && Exec(s, [a]) == Next(s, a)
  {
    assert [a][..0] == [];
    assert Legal(s, []);
  }

  lemma RunTwo<M>(s: State<M>, a: Action<M>, b: Action<M>)
    requires Enabled(s, a) && Enabled(Next(s, a), b)
    ensures Legal(s, [a, b]) && Exec(s, [a, b]) == Next(Next(s, a), b)
  {
    RunOne(s, a);
    assert [a, b][..1] == [a];
  }

  /**
   While its delay is not over, the pending message can still be forwarded early if and only if a flush is at hand:
   the next thing in the mailbox is a `Flush`, or the mailbox is empty and some timer has read its cancel flag.
   */
  lemma EarlyIff<M(!new)>(s: State<M>)
    requires Reachable(s) && s.pending.Some? && s.now < s.armedAt + s.delay
    ensures CanGoEarly(s) <==> FlushAtHand(s)
  {
    var init: State<M>, run :| Init(init) && Legal(init, run) && Exec(init, run) == s;
    RunKeeps(init, run);
    SupersedingRun(init, run);
    if FlushAtHand(s) {
      EarlyRun(s);
    } else if CanGoEarly(s) {
      var acts: seq<Action<M>> :| TooSoon(s, acts) && Exec(s, acts).forwarded == s.forwarded + [s.pending.value];
      HeldBack(s, acts);
      assert false;
    }
  }

  lemma EarlyRun<M(!new)>(s: State<M>)
    requires Inv(s) && s.pending.Some? && s.now < s.armedAt + s.delay && FlushAtHand(s)
    ensures CanGoEarly(s)
  {
    if s.mailbox != [] {
      RunOne(s, Handle);
      assert TooSoon(s, [Handle]);
    } else {
      var id :| 0 <= id < |s.timers| && s.timers[id].stage.Passed?;
      RunTwo(s, Fire(id), Handle);
      assert TooSoon(s, [Fire(id), Handle]);
    }
  }

  ghost predicate Leads(s: State<int>, s': State<int>) {
    exists acts :: Legal(s, acts) && Exec(s, acts) == s'
  }

  lemma Move(s0: State<int>, s: State<int>, a: Action<int>, s': State<int>)
    requires Leads(s0, s) && Enabled(s, a) && Next(s, a) == s'
    ensures Leads(s0, s')
  {
    var acts :| Legal(s0, acts) && Exec(s0, acts) == s;
    assert (acts + [a])[..|acts|] == acts;
    assert Legal(s0, acts + [a]);
  }

  ghost function Fresh(delay: nat, capacity: nat): State<int> {
    State(delay, None, None, [], [], capacity, 0, [], [], [], 0, false)
  }

  /** One message handled; its timer is in this stage, the clock at `now`, and this is queued. */
  ghost function Armed(delay: nat, capacity: nat, stage: Stage, now: nat, mailbox: seq<Msg<int>>): State<int> {
    State(delay, Some(1), Some(0), [Timer(delay, false, stage)], mailbox, capacity, now, [1], [], [], 0, false)
  }

  lemma ReachArmed(delay: nat, capacity: nat)
    requires capacity >= 1
    ensures Leads(Fresh(delay, capacity), Armed(delay, capacity, Passed, delay, []))
  {
    var s0 := Fresh(delay, capacity);
    assert Legal(s0, []) && Exec(s0, []) == s0;
    Move(s0, s0, Send(1), s0.(mailbox := [Enqueue(1)]));
    Move(s0, s0.(mailbox := [Enqueue(1)]), Handle, Armed(delay, capacity, Sleeping, 0, []));
    Move(s0, Armed(delay, capacity, Sleeping, 0, []), Tick(delay), Armed(delay, capacity, Sleeping, delay, []));
    Move(s0, Armed(delay, capacity, Sleeping, delay, []), Wake(0), Armed(delay, capacity, Passed, delay, []));
  }

  /** A second message handled after the first one's timer had read its cancel flag. */
  ghost function Superseded(delay: nat, capacity: nat, stage: Stage, mailbox: seq<Msg<int>>): State<int> {
    State(delay, Some(2), Some(1), [Timer(delay, true, stage), Timer(delay + delay, false, Sleeping)], mailbox,
          capacity, delay, [1, 2], [], [], delay, false)
  }

  lemma ReachRace(delay: nat, capacity: nat)
    requires capacity >= 1
    ensures Leads(Fresh(delay, capacity), Superseded(delay, capacity, Passed, []))
  {
    ReachArmed(delay, capacity);
    var s0, s1 := Fresh(delay, capacity), Armed(delay, capacity, Passed, delay, []);
    var s2 := Armed(delay, capacity, Passed, delay, [Enqueue(2)]);
    Move(s0, s1, Send(2), s2);
    assert Cancelled(s2.timers, 0) + [Timer(delay + delay, false, Sleeping)]
        == Superseded(delay, capacity, Passed, []).timers;
    Move(s0, s2, Handle, Superseded(delay, capacity, Passed, []));
  }

  /**
   A flush by an older timer that lost the race against its cancellation may come at once: whatever the delay and
   the capacity of the mailbox, a message can be forwarded in the very tick in which it was handled.
   */
  lemma StaleFlushIsEarly(delay: nat, capacity: nat)
    requires capacity >= 1
    ensures exists s: State<int> ::
              && Reachable(s) && Enabled(s, Handle) && s.delay == delay && s.capacity == capacity && s.armedAt == s.now
              && s.pending.Some? && |Next(s, Handle).forwarded| == |s.forwarded| + 1
  {
    ReachRace(delay, capacity);
    var s, s' := Superseded(delay, capacity, Passed, []), Superseded(delay, capacity, Gone, [Flush(0)]);
    assert s.timers[0 := s.timers[0].(stage := Gone)] == s'.timers;
    Move(Fresh(delay, capacity), s, Fire(0), s');
    assert Init(Fresh(delay, capacity));
    assert Reachable(s');
  }

  // ----- The actor, updated in place

  /** `Debounce` with the timers its context has spawned. */
  class Actor<M> {
    const delay: nat
    var pending: Option<M>
    var timer: Option<nat>
    var timers: seq<Timer>

    constructor (delay: nat)
      ensures this.delay == delay && pending == None && timer == None && timers == []
    {
      this.delay := delay;
      pending, timer, timers := None, None, [];
    }

    /** The part of the state this actor owns agrees with `s`. */
    ghost predicate Is(s: State<M>)
      reads this
    {
      s.delay == delay && s.pending == pending && s.timer == timer && s.timers == timers
    }

    method RunAfter(now: nat) returns (id: nat)
      modifies this`timers
      ensures id == |old(timers)| && timers == old(timers) + [Timer(now + delay, false, Sleeping)]
    {
      id := |timers|;
      timers := timers + [Timer(now + delay, false, Sleeping)];
    }

    method HandleEnqueue(m: M, now: nat, ghost s: State<M>)
      requires Is(s) && s.now == now
      modifies this
      ensures Is(OnEnqueue(s, m))
    {
      pending := Some(m);
      if timer.Some? {
        timers := Cancelled(timers, timer.value);
        timer := None;
      }
      var id := RunAfter(now);
      timer := Some(id);
    }

    method HandleFlush(ghost s: State<M>) returns (sent: Option<M>)
      requires Is(s)
      modifies this
      ensures Is(OnFlush(s)) && sent == s.pending
    {
      sent := pending;
      pending := None;
    }
  }
}
