/**
 The supervised mailbox loop and its restarts (crates/actor/src/supervisor.rs); the inline loop is the one of
 crates/actor/src/mailbox.rs on a borrowed receiver.

 The channel outlives the instances, so its history is one sequence `inbox` of accepted messages.  Timing is an
 arbitrary function: `quiet(n)` says that `try_recv` finds nothing right after n messages have been taken.  The
 supervisor keeps a sender and the receiver, so the channel never closes and `tx.is_closed()` is never true: an
 instance that has taken all of `inbox` stays blocked in `recv`.
 */
module Supervisor {

  /**
   What an actor does to its own state, and when it calls `ctx.stop()`: in `started`, in its handlers, in `idle`.
   */
  datatype Behaviour<!S, !M> = Behaviour(
    started: S -> S, stopsAtStart: S -> bool,
    apply: (S, M) -> S, stops: (S, M) -> bool,
    idle: S -> S, stopsAtIdle: S -> bool)

  datatype RestartPolicy =
    | Never
    | OnFailure(max: nat)
    | Backoff(initial: nat, maxDelay: nat, maxRetries: nat)

  /** An instance at some moment: its state, and whether it has asked to stop. */
  datatype Life<S> = Life(state: S, stop: bool)

  /** After n messages the queue is found empty. */
  predicate Pause<M>(inbox: seq<M>, quiet: nat -> bool, n: nat) {
    n == |inbox| || quiet(n)
  }

  /** An instance that began after `from` messages, when it has handled the one before n. */
  function Handled<S, M>(b: Behaviour<S, M>, s: S, inbox: seq<M>, quiet: nat -> bool, from: nat, n: nat): Life<S>
    requires from <= n <= |inbox|
    decreases n, 0
  {
    if n == from then Life(b.started(s), b.stopsAtStart(s))
    else
      var l := Rested(b, s, inbox, quiet, from, n - 1);
      Life(b.apply(l.state, inbox[n - 1]), l.stop || b.stops(l.state, inbox[n - 1]))
  }

  /** The same after `idle`, which is called in every pause that ends a batch. */
  function Rested<S, M>(b: Behaviour<S, M>, s: S, inbox: seq<M>, quiet: nat -> bool, from: nat, n: nat): Life<S>
    requires from <= n <= |inbox|
    decreases n, 1
  {
    var l := Handled(b, s, inbox, quiet, from, n);
    if from < n && Pause(inbox, quiet, n) then Life(b.idle(l.state), l.stop || b.stopsAtIdle(l.state)) else l
  }

  /** The instance that began after `from` messages could leave its loop after n: a batch is over, the flag is set. */
  predicate MayLeave<S, M>(b: Behaviour<S, M>, s: S, inbox: seq<M>, quiet: nat -> bool, from: nat, n: nat) {
    from < n <= |inbox| && Pause(inbox, quiet, n) && Rested(b, s, inbox, quiet, from, n).stop
  }

  /** It leaves at the first occasion. */
  ghost predicate Leaves<S, M>(b: Behaviour<S, M>, s: S, inbox: seq<M>, quiet: nat -> bool, from: nat, n: nat) {
    MayLeave(b, s, inbox, quiet, from, n) && forall m | from < m < n :: !MayLeave(b, s, inbox, quiet, from, m)
  }

  /** It never leaves: it waits for more messages. */
  ghost predicate Waits<S, M>(b: Behaviour<S, M>, s: S, inbox: seq<M>, quiet: nat -> bool, from: nat) {
    forall m: nat :: !MayLeave(b, s, inbox, quiet, from, m)
  }

  // ----- What an instance has done

  /** What happens to an instance after its start: it takes a message, or finds nothing queued and calls `idle`. */
  datatype Event<M> = Took(m: M) | Paused

  /** From the message after `from` to message n: each message, and each pause where it occurs. */
  ghost function Log<M>(inbox: seq<M>, quiet: nat -> bool, from: nat, n: nat): seq<Event<M>>
    requires from <= n <= |inbox|
  {
    if n == from then []
    else Log(inbox, quiet, from, n - 1) + [Took(inbox[n - 1])] + if Pause(inbox, quiet, n) then [Paused] else []
  }

  ghost function Taken<M>(log: seq<Event<M>>): seq<M> {
    if log == [] then []
    else
      var n := |log| - 1;
      Taken(log[..n]) + if log[n].Took? then [log[n].m] else []
  }

  lemma TakenSnoc<M>(log: seq<Event<M>>, e: Event<M>)
    ensures Taken(log + [e]) == Taken(log) + if e.Took? then [e.m] else []
  {
    assert (log + [e])[..|log|] == log;
  }

  lemma TakenOne<M>(log: seq<Event<M>>, m: M, pause: bool)
    ensures Taken(log + [Took(m)] + if pause then [Paused] else []) == Taken(log) + [m]
  {
    var took := log + [Took(m)];
    TakenSnoc(log, Took(m));
    if pause {
      TakenSnoc(took, Paused);
    } else {
      assert took + [] == took;
    }
  }

  lemma LogStep<M>(inbox: seq<M>, quiet: nat -> bool, from: nat, n: nat)
    requires from < n <= |inbox|
    ensures Taken(Log(inbox, quiet, from, n)) == Taken(Log(inbox, quiet, from, n - 1)) + [inbox[n - 1]]
  {
    TakenOne(Log(inbox, quiet, from, n - 1), inbox[n - 1], Pause(inbox, quiet, n));
  }

  lemma SliceStep<M>(inbox: seq<M>, from: nat, n: nat)
    requires from < n <= |inbox|
    ensures inbox[from..n] == inbox[from..n - 1] + [inbox[n - 1]]
  {
  }

  /** The messages of the log are those accepted, one after the other, each once. */
  lemma {:induction false} LogTakes<M>(inbox: seq<M>, quiet: nat -> bool, from: nat, n: nat)
    requires from <= n <= |inbox|
    ensures Taken(Log(inbox, quiet, from, n)) == inbox[from..n]
    decreases n
  {
    if from < n {
      LogTakes(inbox, quiet, from, n - 1);
      LogStep(inbox, quiet, from, n);
      SliceStep(inbox, from, n);
    }
  }

  /** Event k of the log is a pause, and m messages had been taken by then. */
  ghost predicate PausedAt<M>(log: seq<Event<M>>, from: nat, k: nat, m: nat) {
    k < |log| && log[k].Paused? && from + |Taken(log[..k])| == m
  }

  lemma PausedAtSnoc<M>(log: seq<Event<M>>, e: Event<M>, from: nat, k: nat, m: nat)
    ensures PausedAt(log + [e], from, k, m) <==>
            PausedAt(log, from, k, m) || (k == |log| && e.Paused? && from + |Taken(log)| == m)
  {
    if k < |log| {
      assert (log + [e])[..k] == log[..k];
    } else if k == |log| {
      assert (log + [e])[..k] == log;
    }
  }

  /** There is a pause in the log after message m exactly if nothing was queued then, and at most one. */
  lemma {:induction false} LogPauses<M>(inbox: seq<M>, quiet: nat -> bool, from: nat, n: nat, m: nat)
    requires from <= n <= |inbox|
    ensures (exists k :: PausedAt(Log(inbox, quiet, from, n), from, k, m)) <==>
            from < m <= n && (m == |inbox| || quiet(m))
    ensures forall j, k | PausedAt(Log(inbox, quiet, from, n), from, j, m)
                          && PausedAt(Log(inbox, quiet, from, n), from, k, m) :: j == k
    decreases n
  {
    if from < n {
      LogPauses(inbox, quiet, from, n - 1, m);
      LogTakes(inbox, quiet, from, n - 1);
      var old1 := Log(inbox, quiet, from, n - 1);
      var took := old1 + [Took(inbox[n - 1])];
      TakenSnoc(old1, Took(inbox[n - 1]));
      forall k
        ensures PausedAt(took, from, k, m) <==> PausedAt(old1, from, k, m)
        ensures PausedAt(took + [Paused], from, k, m) <==> PausedAt(old1, from, k, m) || (k == |took| && m == n)
      {
        PausedAtSnoc(old1, Took(inbox[n - 1]), from, k, m);
        PausedAtSnoc(took, Paused, from, k, m);
      }
      assert Log(inbox, quiet, from, n) == if Pause(inbox, quiet, n) then took + [Paused] else took;
      if Pause(inbox, quiet, n) && m == n {
        assert PausedAt(Log(inbox, quiet, from, n), from, |took|, m);
      } else if from < m < n && Pause(inbox, quiet, m) {
        var k :| PausedAt(old1, from, k, m);
        assert PausedAt(Log(inbox, quiet, from, n), from, k, m);
      }
    }
  }

  /** The state after these events. */
  ghost function Fold<S, M>(b: Behaviour<S, M>, s: S, log: seq<Event<M>>): S {
    if log == [] then s
    else
      var n := |log| - 1;
      var before := Fold(b, s, log[..n]);
      if log[n].Took? then b.apply(before, log[n].m) else b.idle(before)
  }

  /** The actor asks to stop in this event. */
  ghost predicate Stops<S, M>(b: Behaviour<S, M>, s: S, e: Event<M>) {
    if e.Took? then b.stops(s, e.m) else b.stopsAtIdle(s)
  }

  ghost predicate StopsAt<S, M>(b: Behaviour<S, M>, s: S, log: seq<Event<M>>, k: nat) {
    k < |log| && Stops(b, Fold(b, s, log[..k]), log[k])
  }

  ghost predicate StoppedIn<S, M>(b: Behaviour<S, M>, s: S, log: seq<Event<M>>) {
    exists k :: StopsAt(b, s, log, k)
  }

  lemma StopsAtSnoc<S, M>(b: Behaviour<S, M>, s: S, log: seq<Event<M>>, e: Event<M>, k: nat)
    ensures StopsAt(b, s, log + [e], k) <==> if k == |log| then Stops(b, Fold(b, s, log), e) else StopsAt(b, s, log, k)
  {
    if k <= |log| {
      assert (log + [e])[..k] == log[..k];
      assert log[..|log|] == log;
    }
  }

  lemma FoldSnoc<S, M>(b: Behaviour<S, M>, s: S, log: seq<Event<M>>, e: Event<M>)
    ensures Fold(b, s, log + [e]) == if e.Took? then b.apply(Fold(b, s, log), e.m) else b.idle(Fold(b, s, log))
  {
    assert (log + [e])[..|log|] == log;
  }

  lemma StoppedSnoc<S, M>(b: Behaviour<S, M>, s: S, log: seq<Event<M>>, e: Event<M>)
    ensures StoppedIn(b, s, log + [e]) <==> StoppedIn(b, s, log) || Stops(b, Fold(b, s, log), e)
  {
    forall k: nat
      ensures StopsAt(b, s, log + [e], k) <==>
              if k == |log| then Stops(b, Fold(b, s, log), e) else StopsAt(b, s, log, k)
    {
      StopsAtSnoc(b, s, log, e, k);
    }
    if StoppedIn(b, s, log) {
      var k: nat :| StopsAt(b, s, log, k);
      assert StopsAt(b, s, log + [e], k);
    }
    if Stops(b, Fold(b, s, log), e) {
      assert StopsAt(b, s, log + [e], |log|);
    }
  }

  ghost predicate FoldsTo<S, M>(b: Behaviour<S, M>, s: S, log: seq<Event<M>>, l: Life<S>) {
    && l.state == Fold(b, b.started(s), log)
    && (l.stop <==> b.stopsAtStart(s) || StoppedIn(b, b.started(s), log))
  }

  lemma FoldsOn<S, M>(b: Behaviour<S, M>, s: S, log: seq<Event<M>>, l: Life<S>, e: Event<M>, l': Life<S>)
    requires FoldsTo(b, s, log, l) && (l'.stop <==> l.stop || Stops(b, l.state, e))
    requires l'.state == if e.Took? then b.apply(l.state, e.m) else b.idle(l.state)
    ensures FoldsTo(b, s, log + [e], l')
  {
    FoldSnoc(b, b.started(s), log, e);
    StoppedSnoc(b, b.started(s), log, e);
  }

  /**
   An instance's state is what its messages and pauses make of the actor as it was after `started`, one after the
   other; its stop flag is set exactly if it asked for that in `started` or in one of them.
   */
  lemma {:induction false} RestedIsFold<S, M>(b: Behaviour<S, M>, s: S, inbox: seq<M>, quiet: nat -> bool, from: nat,
                                              n: nat)
    requires from <= n <= |inbox|
    ensures FoldsTo(b, s, Log(inbox, quiet, from, n), Rested(b, s, inbox, quiet, from, n))
    decreases n
  {
    if from < n {
      RestedIsFold(b, s, inbox, quiet, from, n - 1);
      var log, handled := Log(inbox, quiet, from, n - 1), Handled(b, s, inbox, quiet, from, n);
      var took := log + [Took(inbox[n - 1])];
      FoldsOn(b, s, log, Rested(b, s, inbox, quiet, from, n - 1), Took(inbox[n - 1]), handled);
      if Pause(inbox, quiet, n) {
        FoldsOn(b, s, took, handled, Paused, Rested(b, s, inbox, quiet, from, n));
      }
      assert took + [] == took;
    }
  }

  /** Seen from inside: an actor that writes down what happens to it ends with what it began with and its log. */
  lemma {:induction false} RecorderSees<M>(b: Behaviour<seq<Event<M>>, M>, s: seq<Event<M>>, log: seq<Event<M>>)
    requires forall t, m :: b.apply(t, m) == t + [Took(m)]
    requires forall t :: b.idle(t) == t + [Paused]
    ensures Fold(b, s, log) == s + log
    decreases |log|
  {
    if log != [] {
      var n := |log| - 1;
      RecorderSees(b, s, log[..n]);
      assert log == log[..n] + [log[n]];
      assert (s + log[..n]) + [log[n]] == s + (log[..n] + [log[n]]);
    }
  }

  ghost function Applied<S, M>(b: Behaviour<S, M>, s: S, ms: seq<M>): S {
    if ms == [] then s else b.apply(Applied(b, s, ms[..|ms| - 1]), ms[|ms| - 1])
  }

  lemma AppliedSnoc<S, M>(b: Behaviour<S, M>, s: S, ms: seq<M>, m: M)
    ensures Applied(b, s, ms + [m]) == b.apply(Applied(b, s, ms), m)
  {
    assert (ms + [m])[..|ms|] == ms;
  }

  lemma {:induction false} FoldTaken<S(!new), M>(b: Behaviour<S, M>, s: S, log: seq<Event<M>>)
    requires forall t :: b.idle(t) == t
    ensures Fold(b, s, log) == Applied(b, s, Taken(log))
    decreases |log|
  {
    if log != [] {
      var n := |log| - 1;
      FoldTaken(b, s, log[..n]);
      if log[n].Took? {
        AppliedSnoc(b, s, Taken(log[..n]), log[n].m);
      } else {
        assert Taken(log) == Taken(log[..n]);
      }
    }
  }

  /** Without an `idle` of its own an actor's state is its handlers applied to the messages taken, in that order. */
  lemma WithoutIdle<S(!new), M>(b: Behaviour<S, M>, s: S, inbox: seq<M>, quiet: nat -> bool, from: nat, n: nat)
    requires from <= n <= |inbox| && forall t :: b.idle(t) == t
    ensures Fold(b, s, Log(inbox, quiet, from, n)) == Applied(b, s, inbox[from..n])
  {
    FoldTaken(b, s, Log(inbox, quiet, from, n));
    LogTakes(inbox, quiet, from, n);
  }

  /** It leaves in a pause, if by then it has asked to stop: in `started`, in a handler or in `idle`. */
  lemma LeavesWhenAsked<S, M>(b: Behaviour<S, M>, s: S, inbox: seq<M>, quiet: nat -> bool, from: nat, n: nat)
    ensures MayLeave(b, s, inbox, quiet, from, n) <==>
            && from < n <= |inbox| && (n == |inbox| || quiet(n))
            && (b.stopsAtStart(s) || StoppedIn(b, b.started(s), Log(inbox, quiet, from, n)))
  {
    if from < n <= |inbox| {
      RestedIsFold(b, s, inbox, quiet, from, n);
    }
  }

  // ----- The loop

  /**
   One instance, from its start to `stopped()` or to the point where it blocks: it leaves at the first pause after a
   batch in which the stop flag is set, and else takes everything and waits.
   */
  method RunMailboxInline<S, M>(b: Behaviour<S, M>, actor: S, inbox: seq<M>, from: nat, quiet: nat -> bool)
    returns (state: S, upto: nat, blocked: bool)
    requires from <= |inbox|
    ensures from <= upto <= |inbox| && state == Fold(b, b.started(actor), Log(inbox, quiet, from, upto))
    ensures blocked ==> upto == |inbox| && Waits(b, actor, inbox, quiet, from)
    ensures !blocked ==> Leaves(b, actor, inbox, quiet, from, upto)
  {
    var stop := b.stopsAtStart(actor);
    state, upto, blocked := b.started(actor), from, false;
    while true
      invariant from <= upto <= |inbox| && !blocked
      invariant Life(state, stop) == Rested(b, actor, inbox, quiet, from, upto)
      invariant forall m | from < m <= upto :: !MayLeave(b, actor, inbox, quiet, from, m)
      decreases |inbox| - upto
    {
      if upto == |inbox| {
        blocked := true;
        RestedIsFold(b, actor, inbox, quiet, from, upto);
        return;
      }
      stop, state, upto := stop || b.stops(state, inbox[upto]), b.apply(state, inbox[upto]), upto + 1;
      while upto < |inbox| && !quiet(upto)
        invariant from < upto <= |inbox| && Life(state, stop) == Handled(b, actor, inbox, quiet, from, upto)
        invariant forall m | from < m < upto :: !MayLeave(b, actor, inbox, quiet, from, m)
      {
        stop, state, upto := stop || b.stops(state, inbox[upto]), b.apply(state, inbox[upto]), upto + 1;
      }
      stop, state := stop || b.stopsAtIdle(state), b.idle(state);
      if stop {
        RestedIsFold(b, actor, inbox, quiet, from, upto);
        return;
      }
    }
  }

  // ----- Restarts

  function Budget(policy: RestartPolicy): nat {
    match policy
    case Never => 0
    case OnFailure(max) => max
    case Backoff(_, _, maxRetries) => maxRetries
  }

  function Pow2(k: nat): nat {
    if k == 0 then 1 else 2 * Pow2(k - 1)
  }

  function Min(x: nat, y: nat): nat {
    if x <= y then x else y
  }

  /** The first delay is `initial` itself, even when that exceeds `max_delay`. */
  function BackoffDelay(initial: nat, maxDelay: nat, k: nat): nat {
    if k == 0 then initial else Min(initial * Pow2(k), maxDelay)
  }

  /** Doubling under a cap is the cap of the power. */
  lemma DelayDoubles(initial: nat, maxDelay: nat, k: nat)
    ensures Min(BackoffDelay(initial, maxDelay, k) * 2, maxDelay) == BackoffDelay(initial, maxDelay, k + 1)
  {
    assert initial * Pow2(k + 1) == initial * Pow2(k) * 2;
  }

  /** Everything a supervised actor is made of and is sent. */
  datatype Case<!S, !M> = Case(b: Behaviour<S, M>, actor: S, inbox: seq<M>, quiet: nat -> bool)

  /** One instance: how many messages had been taken when it began and when it ended, and its state then. */
  datatype Instance<S> = Instance(from: nat, upto: nat, state: S)

  /** Each instance began where the one before it ended. */
  ghost predicate Consecutive<S>(lives: seq<Instance<S>>) {
    && (forall k | 0 <= k < |lives| :: lives[k].from <= lives[k].upto)
    && (lives != [] ==> lives[0].from == 0)
    && (forall j, k | 0 <= j < |lives| && 0 <= k < |lives| && k == j + 1 :: lives[k].from == lives[j].upto)
  }

  /** What the instances handled, one after the other. */
  ghost function HandledBy<S, M>(inbox: seq<M>, lives: seq<Instance<S>>): seq<M>
    requires forall k | 0 <= k < |lives| :: lives[k].from <= lives[k].upto <= |inbox|
  {
    if lives == [] then []
    else HandledBy(inbox, lives[..|lives| - 1]) + inbox[lives[|lives| - 1].from..lives[|lives| - 1].upto]
  }

  lemma PrefixGrows<M>(inbox: seq<M>, from: nat, upto: nat)
    requires from <= upto <= |inbox|
    ensures inbox[..from] + inbox[from..upto] == inbox[..upto]
  {
  }

  /** Across restarts nothing is skipped, repeated or reordered. */
  lemma {:induction false} HandledIsPrefix<S, M>(inbox: seq<M>, lives: seq<Instance<S>>)
    requires Consecutive(lives) && forall k | 0 <= k < |lives| :: lives[k].upto <= |inbox|
    ensures HandledBy(inbox, lives) == inbox[..if lives == [] then 0 else lives[|lives| - 1].upto]
    decreases |lives|
  {
    if lives != [] {
      var n := |lives| - 1;
      HandledIsPrefix(inbox, lives[..n]);
      assert n > 0 ==> lives[n].from == lives[n - 1].upto;
      PrefixGrows(inbox, lives[n].from, lives[n].upto);
    }
  }

  /** Its state is its own: what it took, applied to a clone of the original actor. */
  ghost predicate Lived<S, M>(c: Case<S, M>, x: Instance<S>) {
    && x.from <= x.upto <= |c.inbox|
    && x.state == Fold(c.b, c.b.started(c.actor), Log(c.inbox, c.quiet, x.from, x.upto))
  }

  /** It ran to its own stop. */
  ghost predicate Left<S, M>(c: Case<S, M>, x: Instance<S>) {
    Leaves(c.b, c.actor, c.inbox, c.quiet, x.from, x.upto)
  }

  /** It has taken everything and waits for more. */
  ghost predicate Stays<S, M>(c: Case<S, M>, x: Instance<S>) {
    x.upto == |c.inbox| && Waits(c.b, c.actor, c.inbox, c.quiet, x.from)
  }

  ghost predicate DelaysOk(policy: RestartPolicy, delays: seq<nat>, restarts: nat) {
    && |delays| == (if policy.Backoff? then restarts else 0)
    && forall k | 0 <= k < |delays| :: delays[k] == BackoffDelay(policy.initial, policy.maxDelay, k)
  }

  /** One more sleep: the delay in force now, then the doubled one. */
  lemma Slept(policy: RestartPolicy, delays: seq<nat>, restarts: nat, current: nat)
    requires policy.Backoff? && DelaysOk(policy, delays, restarts)
    requires current == BackoffDelay(policy.initial, policy.maxDelay, restarts)
    ensures DelaysOk(policy, delays + [current], restarts + 1)
    ensures Min(current * 2, policy.maxDelay) == BackoffDelay(policy.initial, policy.maxDelay, restarts + 1)
  {
    DelayDoubles(policy.initial, policy.maxDelay, restarts);
  }

  /** Every instance lived on its own segment; all but the last have left, and the last one has left or waits. */
  ghost predicate Chronicle<S, M>(c: Case<S, M>, lives: seq<Instance<S>>, waiting: bool) {
    && lives != [] && Consecutive(lives)
    && (forall k | 0 <= k < |lives| :: Lived(c, lives[k]))
    && (forall k | 0 <= k < |lives| - 1 :: Left(c, lives[k]))
    && (if waiting then Stays(c, lives[|lives| - 1]) else Left(c, lives[|lives| - 1]))
  }

  /** Runs one more instance from a clone of the original actor. */
  method RunInstance<S, M>(c: Case<S, M>, from: nat) returns (x: Instance<S>, waiting: bool)
    requires from <= |c.inbox|
    ensures x.from == from && Lived(c, x) && if waiting then Stays(c, x) else Left(c, x)
  {
    var state, upto, blocked := RunMailboxInline(c.b, c.actor, c.inbox, from, c.quiet);
    x, waiting := Instance(from, upto, state), blocked;
  }

  lemma ConsecutiveGoesOn<S>(lives: seq<Instance<S>>, x: Instance<S>)
    requires lives != [] && Consecutive(lives) && x.from == lives[|lives| - 1].upto && x.from <= x.upto
    ensures Consecutive(lives + [x])
  {
  }

  lemma ChronicleGoesOn<S, M>(c: Case<S, M>, lives: seq<Instance<S>>, x: Instance<S>, waiting: bool)
    requires Chronicle(c, lives, false) && x.from == lives[|lives| - 1].upto
    requires Lived(c, x) && if waiting then Stays(c, x) else Left(c, x)
    ensures Chronicle(c, lives + [x], waiting)
  {
    var lives' := lives + [x];
    assert forall k | 0 <= k < |lives| :: lives'[k] == lives[k];
    assert lives'[|lives|] == x;
    ConsecutiveGoesOn(lives, x);
  }

  lemma ChronicleHandled<S, M>(c: Case<S, M>, lives: seq<Instance<S>>, waiting: bool)
    requires Chronicle(c, lives, waiting)
    ensures forall k | 0 <= k < |lives| :: lives[k].from <= lives[k].upto <= |c.inbox|
    ensures HandledBy(c.inbox, lives) == c.inbox[..lives[|lives| - 1].upto]
  {
    forall k | 0 <= k < |lives|
      ensures lives[k].from <= lives[k].upto <= |c.inbox|
    {
      assert Lived(c, lives[k]);
    }
    HandledIsPrefix(c.inbox, lives);
  }

  /**
   The whole life of a supervised actor.  Every instance starts from the original actor and takes up the messages
   where the one before it left; `delays` are the sleeps before restarts.  The budget bounds the restarts and, unless
   the last instance is still waiting for messages, is used up.
   */
  method SupervisorLoop<S, M>(c: Case<S, M>, policy: RestartPolicy)
    returns (lives: seq<Instance<S>>, delays: seq<nat>, waiting: bool)
    ensures Chronicle(c, lives, waiting)
    ensures policy.Never? ==> |lives| == 1
    ensures policy.OnFailure? ==> |lives| <= policy.max + 1 && (!waiting ==> |lives| == policy.max + 1)
    ensures policy.Backoff? ==> |lives| <= policy.maxRetries + 1 && (!waiting ==> |lives| == policy.maxRetries + 1)
    ensures DelaysOk(policy, delays, |lives| - 1)
  {
    var restarts: nat, currentDelay: nat := 0, if policy.Backoff? then policy.initial else 0;
    delays := [];
    var x;
    x, waiting := RunInstance(c, 0);
    lives := [x];
    while !waiting && restarts < Budget(policy)
      invariant restarts + 1 == |lives| <= Budget(policy) + 1
      invariant Chronicle(c, lives, waiting) && DelaysOk(policy, delays, restarts)
      invariant policy.Backoff? ==> currentDelay == BackoffDelay(policy.initial, policy.maxDelay, restarts)
      decreases Budget(policy) - restarts
    {
      if policy.Backoff? {
        Slept(policy, delays, restarts, currentDelay);
        delays := delays + [currentDelay];
        currentDelay := Min(currentDelay * 2, policy.maxDelay);
      }
      restarts := restarts + 1;
      assert Lived(c, lives[|lives| - 1]);
      x, waiting := RunInstance(c, lives[|lives| - 1].upto);
      ChronicleGoesOn(c, lives, x, waiting);
      lives := lives + [x];
    }
  }
}
