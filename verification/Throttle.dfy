/** `Throttle` (crates/actor/src/debounce.rs): its handlers, its timers and its mailbox, in every timed run. */
module Throttle {
  import opened Options
  import opened Timers

  datatype Msg<M> = Enqueue(m: M) | CooldownExpired

  /**
   From `enqueued` on, history: the messages handled, the messages forwarded, and for each of those how many had
   been enqueued and what time it was; `dropped` says that a full mailbox refused a `CooldownExpired`.
   */
  datatype State<M> = State(
    interval: nat, pending: Option<M>, cooling: bool, timer: Option<nat>, timers: seq<Timer>,
    mailbox: seq<Msg<M>>, capacity: nat, now: nat,
    enqueued: seq<M>, forwarded: seq<M>, marks: seq<nat>, times: seq<nat>, dropped: bool)

  datatype Action<M> = Send(m: M) | Handle | Tick(ticks: nat) | Wake(id: nat) | Fire(id: nat)

  // ----- Handlers

  /** The timers after a forward: all the old ones, none of them alive, and the new one. */
  function WithNew(timers: seq<Timer>, handle: Option<nat>, due: nat): seq<Timer> {
    (if handle.Some? then Cancelled(timers, handle.value) else timers) + [Timer(due, false, Sleeping)]
  }

  /** Forward `m` and start cooling down; storing the new handle drops, and so cancels, the old one. */
  function Forward<M>(s: State<M>, m: M): State<M> {
    s.(forwarded := s.forwarded + [m], marks := s.marks + [|s.enqueued|], times := s.times + [s.now],
       cooling := true, pending := None,
       timers := WithNew(s.timers, s.timer, s.now + s.interval),
       timer := Some(|s.timers|))
  }

  function OnEnqueue<M>(s: State<M>, m: M): State<M> {
    var s' := s.(enqueued := s.enqueued + [m]);
    if s.cooling then s'.(pending := Some(m)) else Forward(s', m).(pending := s.pending)
  }

  function OnExpired<M>(s: State<M>): State<M> {
    var s' := s.(cooling := false,
                 timers := if s.timer.Some? then Cancelled(s.timers, s.timer.value) else s.timers,
                 timer := None);
    if s.pending.Some? then Forward(s', s.pending.value) else s'
  }

  predicate Enabled<M>(s: State<M>, a: Action<M>) {
    match a
    case Send(_) => true
    case Handle => s.mailbox != []
    case Tick(_) => true
    case Wake(id) => id < |s.timers| && s.timers[id].stage.Sleeping? && s.timers[id].due <= s.now
    case Fire(id) => id < |s.timers| && s.timers[id].stage.Passed?
  }

  function Next<M>(s: State<M>, a: Action<M>): State<M>
    requires Enabled(s, a)
  {
    match a
    case Send(m) => if |s.mailbox| < s.capacity then s.(mailbox := s.mailbox + [Enqueue(m)]) else s
    case Handle =>
      var rest := s.(mailbox := s.mailbox[1..]);
      if s.mailbox[0].Enqueue? then OnEnqueue(rest, s.mailbox[0].m) else OnExpired(rest)
    case Tick(ticks) => s.(now := s.now + ticks)
    case Wake(id) => s.(timers := s.timers[id := Woken(s.timers[id])])
    case Fire(id) =>
      var gone := s.(timers := s.timers[id := s.timers[id].(stage := Gone)]);
      if |s.mailbox| < s.capacity then gone.(mailbox := s.mailbox + [CooldownExpired]) else gone.(dropped := true)
  }

  ghost predicate Init<M>(s: State<M>) {
    && s.pending.None? && !s.cooling && s.timer.None? && s.timers == [] && s.mailbox == [] && s.capacity >= 1
    && s.enqueued == [] && s.forwarded == [] && s.marks == [] && s.times == [] && !s.dropped
  }

  ghost predicate Legal<M>(s: State<M>, acts: seq<Action<M>>)
    decreases |acts|, 0
  {
    acts == [] ||
    (Legal(s, acts[..|acts| - 1]) && Enabled(Exec(s, acts[..|acts| - 1]), acts[|acts| - 1]))
  }

  ghost function Exec<M>(s: State<M>, acts: seq<Action<M>>): State<M>
    requires Legal(s, acts)
    decreases |acts|, 1
  {
    if acts == [] then s else Next(Exec(s, acts[..|acts| - 1]), acts[|acts| - 1])
  }

  ghost predicate Reachable<M(!new)>(s: State<M>) {
    exists init: State<M>, acts :: Init(init) && Legal(init, acts) && Exec(init, acts) == s
  }

  // ----- What is outstanding

  function One(b: bool): nat {
    if b then 1 else 0
  }

  function AliveTimers(timers: seq<Timer>): nat {
    if timers == [] then 0 else AliveTimers(timers[..|timers| - 1]) + One(Alive(timers[|timers| - 1]))
  }

  function Expiries<M>(mailbox: seq<Msg<M>>): nat {
    if mailbox == [] then 0
    else One(mailbox[0].CooldownExpired?) + Expiries(mailbox[1..])
  }

  /** Timers that will still send, and expiries sent but not handled. */
  function Outstanding<M>(s: State<M>): nat {
    AliveTimers(s.timers) + Expiries(s.mailbox)
  }

  lemma {:induction false} AliveUpdate(timers: seq<Timer>, id: nat, t: Timer)
    requires id < |timers|
    ensures AliveTimers(timers[id := t]) + One(Alive(timers[id])) == AliveTimers(timers) + One(Alive(t))
    decreases |timers|
  {
    var n := |timers| - 1;
    if id == n {
      assert timers[id := t][..n] == timers[..n];
    } else {
      assert timers[id := t][..n] == timers[..n][id := t];
      AliveUpdate(timers[..n], id, t);
    }
  }

  lemma {:induction false} AliveAt(timers: seq<Timer>, id: nat)
    requires id < |timers| && AliveTimers(timers) == 0
    ensures !Alive(timers[id])
    decreases |timers|
  {
    if id < |timers| - 1 {
      AliveAt(timers[..|timers| - 1], id);
    }
  }

  lemma {:induction false} ExpiriesAppend<M>(mailbox: seq<Msg<M>>, m: Msg<M>)
    ensures Expiries(mailbox + [m]) == Expiries(mailbox) + One(m.CooldownExpired?)
    decreases |mailbox|
  {
    if mailbox == [] {
      assert mailbox + [m] == [m];
    } else {
      assert (mailbox + [m])[1..] == mailbox[1..] + [m];
      ExpiriesAppend(mailbox[1..], m);
    }
  }

  // ----- Invariants

  ghost predicate Spaced<M>(s: State<M>) {
    forall k | 0 < k < |s.times| :: s.times[k - 1] + s.interval <= s.times[k]
  }

  /** When the last forward was made, and that its interval is over wherever the actor could act on that. */
  ghost predicate Timed<M>(s: State<M>) {
    && |s.times| == |s.forwarded| && (s.cooling ==> s.times != [])
    && (forall id | 0 <= id < |s.timers| :: !s.timers[id].stage.Sleeping? ==> s.timers[id].due <= s.now)
    && (s.times != [] ==>
          var last := s.times[|s.times| - 1];
          && last <= s.now
          && (forall id | 0 <= id < |s.timers| :: Alive(s.timers[id]) ==> s.timers[id].due == last + s.interval)
          && (!s.cooling || Expiries(s.mailbox) > 0 ==> last + s.interval <= s.now))
    && (s.times == [] ==> s.timers == [])
  }

  /** Forwarded messages are enqueued ones, in order, none twice. */
  ghost predicate Subsequence<M>(s: State<M>) {
    && |s.forwarded| == |s.marks|
    && (forall k | 0 <= k < |s.marks| ::
          1 <= s.marks[k] <= |s.enqueued| && s.forwarded[k] == s.enqueued[s.marks[k] - 1])
    && (forall j, k | 0 <= j < k < |s.marks| :: s.marks[j] < s.marks[k])
  }

  /** The newest message is pending or has been forwarded. */
  ghost predicate NewestKept<M>(s: State<M>) {
    && (s.pending.Some? ==>
          && s.cooling && s.enqueued != [] && s.pending.value == s.enqueued[|s.enqueued| - 1]
          && (s.marks != [] ==> s.marks[|s.marks| - 1] < |s.enqueued|))
    && (s.pending.None? && s.enqueued != [] ==> s.marks != [] && s.marks[|s.marks| - 1] == |s.enqueued|)
  }

  ghost predicate Cooldown<M>(s: State<M>) {
    && Outstanding(s) == One(s.cooling && !s.dropped)
    && (s.dropped ==> s.cooling)
    && (s.cooling <==> s.timer.Some?)
  }

  ghost predicate Inv<M>(s: State<M>) {
    Cooldown(s) && Timed(s) && Spaced(s) && Subsequence(s) && NewestKept(s)
  }

  /** Cancelling the handle of a timer that is not alive changes nothing that counts. */
  lemma CancelDead(timers: seq<Timer>, id: nat)
    requires AliveTimers(timers) == 0
    ensures AliveTimers(Cancelled(timers, id)) == 0
  {
    if id < |timers| {
      AliveAt(timers, id);
      AliveUpdate(timers, id, timers[id].(cancelled := true));
    }
  }

  lemma NoneAlive(timers: seq<Timer>)
    requires AliveTimers(timers) == 0
    ensures forall id | 0 <= id < |timers| :: !Alive(timers[id])
  {
    forall id | 0 <= id < |timers|
      ensures !Alive(timers[id])
    {
      AliveAt(timers, id);
    }
  }

  lemma WithNewCount(timers: seq<Timer>, handle: Option<nat>, due: nat)
    requires AliveTimers(timers) == 0
    ensures AliveTimers(WithNew(timers, handle, due)) == 1
    ensures forall id | 0 <= id < |timers| :: !Alive(WithNew(timers, handle, due)[id])
  {
    var all := WithNew(timers, handle, due);
    var earlier := if handle.Some? then Cancelled(timers, handle.value) else timers;
    if handle.Some? {
      CancelDead(timers, handle.value);
    }
    assert all[..|timers|] == earlier;
    NoneAlive(earlier);
    forall id | 0 <= id < |timers|
      ensures !Alive(all[id])
    {
      assert all[id] == earlier[id];
    }
  }

  lemma WithNewKeeps(timers: seq<Timer>, handle: Option<nat>, due: nat, id: nat)
    requires id < |timers|
    ensures WithNew(timers, handle, due)[id].stage == timers[id].stage
    ensures WithNew(timers, handle, due)[id].due == timers[id].due
  {
  }

  lemma ForwardTimed<M>(s: State<M>, m: M)
    requires AliveTimers(s.timers) == 0 && Expiries(s.mailbox) == 0 && Timed(s)
    ensures Timed(Forward(s, m))
  {
    var s' := Forward(s, m);
    var n := |s.timers|;
    WithNewCount(s.timers, s.timer, s.now + s.interval);
    assert s'.timers == WithNew(s.timers, s.timer, s.now + s.interval);
    forall id | 0 <= id < |s'.timers| && !s'.timers[id].stage.Sleeping?
      ensures s'.timers[id].due <= s'.now
    {
      WithNewKeeps(s.timers, s.timer, s.now + s.interval, id);
    }
    assert forall id | 0 <= id < |s'.timers| :: Alive(s'.timers[id]) ==> id == n;
    assert s'.times[|s'.times| - 1] == s.now;
  }

  lemma ForwardCooldown<M>(s: State<M>, m: M)
    requires !s.dropped && Outstanding(s) == 0
    ensures Cooldown(Forward(s, m))
  {
    WithNewCount(s.timers, s.timer, s.now + s.interval);
  }

  lemma ForwardHistory<M>(s: State<M>, m: M)
    requires |s.times| == |s.forwarded| && Spaced(s) && Subsequence(s)
    requires s.enqueued != [] && m == s.enqueued[|s.enqueued| - 1]
    requires s.marks != [] ==> s.marks[|s.marks| - 1] < |s.enqueued|
    requires s.times != [] ==> s.times[|s.times| - 1] + s.interval <= s.now
    ensures Spaced(Forward(s, m)) && Subsequence(Forward(s, m)) && NewestKept(Forward(s, m))
  {
  }

  /** Forwarding `m`, the newest message, when nothing is outstanding and the last interval is over. */
  lemma ForwardKeeps<M>(s: State<M>, m: M)
    requires !s.dropped && Outstanding(s) == 0 && Timed(s) && Spaced(s) && Subsequence(s)
    requires s.enqueued != [] && m == s.enqueued[|s.enqueued| - 1]
    requires s.marks != [] ==> s.marks[|s.marks| - 1] < |s.enqueued|
    requires s.times != [] ==> s.times[|s.times| - 1] + s.interval <= s.now
    ensures Inv(Forward(s, m))
  {
    ForwardCooldown(s, m);
    ForwardTimed(s, m);
    ForwardHistory(s, m);
  }

  /** A message handled: what does not depend on whether it is forwarded. */
  lemma EnqueuedKeeps<M>(s: State<M>)
    requires Timed(s) && Spaced(s) && Subsequence(s) && s.mailbox != [] && s.mailbox[0].Enqueue?
    ensures var s1 := s.(mailbox := s.mailbox[1..], enqueued := s.enqueued + [s.mailbox[0].m]);
            Timed(s1) && Spaced(s1) && Subsequence(s1) && Outstanding(s1) == Outstanding(s)
  {
  }

  lemma HeldBackKeeps<M>(s: State<M>, m: M)
    requires Cooldown(s) && Timed(s) && Spaced(s) && Subsequence(s) && s.cooling
    requires s.enqueued != [] && m == s.enqueued[|s.enqueued| - 1]
    requires s.marks != [] ==> s.marks[|s.marks| - 1] < |s.enqueued|
    ensures Inv(s.(pending := Some(m)))
  {
    var s' := s.(pending := Some(m));
    assert Timed(s') && Subsequence(s');
  }

  lemma EnqueueKeeps<M>(s: State<M>)
    requires Inv(s) && s.mailbox != [] && s.mailbox[0].Enqueue?
    ensures Inv(Next(s, Handle))
  {
    var s1 := s.(mailbox := s.mailbox[1..], enqueued := s.enqueued + [s.mailbox[0].m]);
    EnqueuedKeeps(s);
    if s.cooling {
      HeldBackKeeps(s1, s.mailbox[0].m);
    } else {
      ForwardKeeps(s1, s.mailbox[0].m);
    }
  }

  lemma ExpiredKeeps<M>(s: State<M>)
    requires Inv(s) && s.mailbox != [] && s.mailbox[0].CooldownExpired?
    ensures Inv(Next(s, Handle))
  {
    var s1 := s.(mailbox := s.mailbox[1..], cooling := false, timer := None,
                 timers := if s.timer.Some? then Cancelled(s.timers, s.timer.value) else s.timers);
    CancelDead(s.timers, s.timer.value);
    NoneAlive(s1.timers);
    assert Timed(s1) && Subsequence(s1);
    if s.pending.Some? {
      ForwardKeeps(s1, s.pending.value);
    }
  }

  lemma TimerKeeps<M>(s: State<M>, a: Action<M>)
    requires Inv(s) && Enabled(s, a) && (a.Wake? || a.Fire?)
    ensures Inv(Next(s, a))
  {
    TimerCooldown(s, a);
    TimerTimed(s, a);
    HistoryKept(s, Next(s, a));
  }

  lemma HistoryKept<M>(s: State<M>, s': State<M>)
    requires Spaced(s) && Subsequence(s) && NewestKept(s)
    requires s' == s.(timers := s'.timers, mailbox := s'.mailbox, dropped := s'.dropped)
    ensures Spaced(s') && Subsequence(s') && NewestKept(s')
  {
  }

  lemma TimerCooldown<M>(s: State<M>, a: Action<M>)
    requires Cooldown(s) && Enabled(s, a) && (a.Wake? || a.Fire?)
    ensures Cooldown(Next(s, a))
  {
    var s' := Next(s, a);
    AliveUpdate(s.timers, a.id, s'.timers[a.id]);
    ExpiriesAppend(s.mailbox, CooldownExpired);
    if AliveTimers(s.timers) == 0 {
      AliveAt(s.timers, a.id);
    }
  }

  lemma TimerTimed<M>(s: State<M>, a: Action<M>)
    requires Timed(s) && Cooldown(s) && Enabled(s, a) && (a.Wake? || a.Fire?)
    ensures Timed(Next(s, a))
  {
    var s' := Next(s, a);
    ExpiriesAppend(s.mailbox, CooldownExpired);
    assert a.Fire? ==> Alive(s.timers[a.id]);
    assert forall id | 0 <= id < |s.timers| :: Alive(s'.timers[id]) ==> Alive(s.timers[id]);
  }

  lemma StepKeeps<M>(s: State<M>, a: Action<M>)
    requires Inv(s) && Enabled(s, a)
    ensures Inv(Next(s, a))
  {
    match a
    case Send(m) => ExpiriesAppend(s.mailbox, Enqueue(m));
    case Handle =>
      if s.mailbox[0].Enqueue? {
        EnqueueKeeps(s);
      } else {
        ExpiredKeeps(s);
      }
    case Tick(_) =>
    case Wake(_) => TimerKeeps(s, a);
    case Fire(_) => TimerKeeps(s, a);
  }

  lemma {:induction false} RunKeeps<M>(s: State<M>, acts: seq<Action<M>>)
    requires Inv(s) && Legal(s, acts)
    ensures Inv(Exec(s, acts))
    decreases |acts|
  {
    if acts != [] {
      RunKeeps(s, acts[..|acts| - 1]);
      StepKeeps(Exec(s, acts[..|acts| - 1]), acts[|acts| - 1]);
    }
  }

  lemma ReachableInv<M(!new)>(s: State<M>)
    requires Reachable(s)
    ensures Inv(s)
  {
    var init: State<M>, acts :| Init(init) && Legal(init, acts) && Exec(init, acts) == s;
    RunKeeps(init, acts);
  }

  // ----- The promises

  /**
   In every timed run, even after a refused expiry: consecutive forwards are at least `interval` apart, they form
   a subsequence of what was enqueued, and the newest message is pending or forwarded.
   */
  lemma ForwardsSpaced<M(!new)>(s: State<M>)
    requires Reachable(s)
    ensures |s.times| == |s.forwarded|
    ensures forall k | 0 < k < |s.times| :: s.times[k - 1] + s.interval <= s.times[k]
    ensures Subsequence(s) && NewestKept(s)
  {
    ReachableInv(s);
  }

  /** `cooling_down` holds exactly when one timer or expiry is outstanding, unless an expiry was refused. */
  lemma CoolingIffOutstanding<M(!new)>(s: State<M>)
    requires Reachable(s)
    ensures Outstanding(s) <= 1
    ensures !s.dropped ==> (s.cooling <==> Outstanding(s) == 1)
    ensures s.dropped <==> s.cooling && Outstanding(s) == 0
  {
    ReachableInv(s);
  }

  lemma WedgedStep<M>(s: State<M>, a: Action<M>)
    requires Cooldown(s) && s.dropped && Enabled(s, a)
    ensures Next(s, a).forwarded == s.forwarded && Next(s, a).dropped
  {
  }

  /** After a refused expiry nothing is ever forwarded again, whatever is enqueued and however long one waits. */
  lemma {:induction false} WedgedForever<M(!new)>(s: State<M>, acts: seq<Action<M>>)
    requires Reachable(s) && s.dropped && Legal(s, acts)
    ensures Exec(s, acts).forwarded == s.forwarded && Exec(s, acts).dropped
    decreases |acts|
  {
    if acts != [] {
      var before := acts[..|acts| - 1];
      WedgedForever(s, before);
      ReachableInv(s);
      RunKeeps(s, before);
      WedgedStep(Exec(s, before), acts[|acts| - 1]);
    }
  }

  // ----- When it goes on forwarding

  /** Within `acts` something is forwarded; without the help of a sender, if `alone`. */
  ghost predicate Forwards<M>(s: State<M>, acts: seq<Action<M>>, alone: bool) {
    && Legal(s, acts) && |Exec(s, acts).forwarded| > |s.forwarded|
    && (alone ==> forall k | 0 <= k < |acts| :: !acts[k].Send?)
  }

  ghost predicate CanForward<M(!new)>(s: State<M>, alone: bool) {
    exists acts: seq<Action<M>> :: Forwards(s, acts, alone)
  }

  lemma {:induction false} Prepend<M>(s: State<M>, a: Action<M>, acts: seq<Action<M>>)
    requires Enabled(s, a) && Legal(Next(s, a), acts)
    ensures Legal(s, [a] + acts) && Exec(s, [a] + acts) == Exec(Next(s, a), acts)
    decreases |acts|
  {
    if acts == [] {
      assert [a] + acts == [a] && [a][..0] == [];
      assert Legal(s, []);
    } else {
      var n := |acts| - 1;
      Prepend(s, a, acts[..n]);
      assert ([a] + acts)[..n + 1] == [a] + acts[..n];
    }
  }

  /** One step that forwards, or after which something can still be forwarded. */
  lemma First<M(!new)>(s: State<M>, a: Action<M>, alone: bool)
    requires Enabled(s, a) && !(alone && a.Send?)
    requires |Next(s, a).forwarded| > |s.forwarded|
             || (|Next(s, a).forwarded| == |s.forwarded| && CanForward(Next(s, a), alone))
    ensures CanForward(s, alone)
  {
    var acts: seq<Action<M>> := [];
    if |Next(s, a).forwarded| == |s.forwarded| {
      acts :| Forwards(Next(s, a), acts, alone);
    }
    Prepend(s, a, acts);
    assert Forwards(s, [a] + acts, alone);
  }

  lemma RestingForwards<M(!new)>(s: State<M>, m: M)
    requires s.mailbox == [] && !s.cooling && s.capacity >= 1
    ensures CanForward(s, false)
  {
    var s' := Next(s, Send(m));
    First(s', Handle, false);
    First(s, Send(m), false);
  }

  lemma ExpiredForwards<M(!new)>(s: State<M>, m: M, alone: bool)
    requires s.mailbox == [CooldownExpired] && s.capacity >= 1 && (alone ==> s.pending.Some?)
    ensures CanForward(s, alone)
  {
    if s.pending.None? {
      RestingForwards(Next(s, Handle), m);
    }
    First(s, Handle, alone);
  }

  lemma PassedForwards<M(!new)>(s: State<M>, m: M, alone: bool, id: nat)
    requires s.mailbox == [] && s.capacity >= 1 && (alone ==> s.pending.Some?)
    requires id < |s.timers| && s.timers[id].stage.Passed?
    ensures CanForward(s, alone)
  {
    ExpiredForwards(Next(s, Fire(id)), m, alone);
    First(s, Fire(id), alone);
  }

  lemma AliveForwards<M(!new)>(s: State<M>, m: M, alone: bool, id: nat)
    requires s.mailbox == [] && s.capacity >= 1 && (alone ==> s.pending.Some?)
    requires id < |s.timers| && Alive(s.timers[id])
    ensures CanForward(s, alone)
  {
    if s.timers[id].stage.Passed? {
      PassedForwards(s, m, alone, id);
    } else {
      var due := Next(s, Tick(s.timers[id].due));
      PassedForwards(Next(due, Wake(id)), m, alone, id);
      First(due, Wake(id), alone);
      First(s, Tick(s.timers[id].due), alone);
    }
  }

  lemma {:induction false} FindAlive(timers: seq<Timer>) returns (id: nat)
    requires AliveTimers(timers) > 0
    ensures id < |timers| && Alive(timers[id])
    decreases |timers|
  {
    id := |timers| - 1;
    if !Alive(timers[id]) {
      id := FindAlive(timers[..id]);
    }
  }

  /** What is queued is handled first; then the one timer that is alive is waited for, or a new message sent. */
  lemma {:induction false} OnForwards<M(!new)>(s: State<M>, m: M, alone: bool)
    requires Inv(s) && !s.dropped && s.capacity >= 1 && (alone ==> s.pending.Some?)
    ensures CanForward(s, alone)
    decreases |s.mailbox|
  {
    if s.mailbox != [] {
      StepKeeps(s, Handle);
      HandleOnce(s);
      if |Next(s, Handle).forwarded| == |s.forwarded| {
        OnForwards(Next(s, Handle), m, alone);
      }
      First(s, Handle, alone);
    } else if s.cooling {
      var id := FindAlive(s.timers);
      AliveForwards(s, m, alone, id);
    } else {
      RestingForwards(s, m);
    }
  }

  lemma HandleOnce<M>(s: State<M>)
    requires s.mailbox != [] && Cooldown(s) && NewestKept(s)
    ensures var s' := Next(s, Handle);
            && |s.forwarded| <= |s'.forwarded| && s'.dropped == s.dropped && s'.capacity == s.capacity
            && (|s'.forwarded| == |s.forwarded| && s.pending.Some? ==> s'.pending.Some?)
  {
  }

  lemma {:induction false} CapacityStays<M>(s: State<M>, acts: seq<Action<M>>)
    requires Legal(s, acts)
    ensures Exec(s, acts).capacity == s.capacity
    decreases |acts|
  {
    if acts != [] {
      CapacityStays(s, acts[..|acts| - 1]);
    }
  }

  /**
   The throttle can still forward if and only if no expiry has been refused; and a message it holds back can then go
   out without a sender's help.  `m` is any message to be sent.
   */
  lemma ForwardsIff<M(!new)>(s: State<M>, m: M)
    requires Reachable(s)
    ensures CanForward(s, false) <==> !s.dropped
    ensures s.pending.Some? ==> (CanForward(s, true) <==> !s.dropped)
  {
    var init: State<M>, run :| Init(init) && Legal(init, run) && Exec(init, run) == s;
    CapacityStays(init, run);
    RunKeeps(init, run);
    if s.dropped {
      forall acts: seq<Action<M>>, alone | Legal(s, acts)
        ensures !Forwards(s, acts, alone)
      {
        WedgedForever(s, acts);
      }
    } else {
      OnForwards(s, m, false);
      if s.pending.Some? {
        OnForwards(s, m, true);
      }
    }
  }

  ghost predicate Leads(s: State<int>, s': State<int>) {
    exists acts :: Legal(s, acts) && Exec(s, acts) == s'
  }

  lemma Move(s0: State<int>, s: State<int>, a: Action<int>, s': State<int>)
    requires Leads(s0, s) && Enabled(s, a) && Next(s, a) == s'
    ensures Leads(s0, s')
  {
    var acts :| Legal(s0, acts) && Exec(s0, acts) == s;
    assert (acts + [a])[..|acts|] == acts;
    assert Legal(s0, acts + [a]);
  }

  ghost function Unused(interval: nat, capacity: nat): State<int> {
    State(interval, None, false, None, [], [], capacity, 0, [], [], [], [], false)
  }

  /** One message forwarded at time 0, and n more waiting in the mailbox. */
  ghost function Busy(interval: nat, capacity: nat, stage: Stage, now: nat, n: nat): State<int> {
    State(interval, None, true, Some(0), [Timer(interval, false, stage)], seq(n, _ => Enqueue(2)), capacity, now,
          [1], [1], [1], [0], false)
  }

  lemma ReachForward(interval: nat, capacity: nat)
    requires capacity >= 1
    ensures Leads(Unused(interval, capacity), Busy(interval, capacity, Sleeping, 0, 0))
  {
    var s0 := Unused(interval, capacity);
    assert Legal(s0, []) && Exec(s0, []) == s0;
    var s1 := s0.(mailbox := [Enqueue(1)]);
    Move(s0, s0, Send(1), s1);
    assert Busy(interval, capacity, Sleeping, 0, 0).mailbox == [];
    Move(s0, s1, Handle, Busy(interval, capacity, Sleeping, 0, 0));
  }

  lemma {:induction false} ReachFull(interval: nat, capacity: nat, n: nat)
    requires 1 <= capacity && n <= capacity
    ensures Leads(Unused(interval, capacity), Busy(interval, capacity, Passed, interval, n))
    decreases n
  {
    var s0 := Unused(interval, capacity);
    if n == 0 {
      ReachForward(interval, capacity);
      Move(s0, Busy(interval, capacity, Sleeping, 0, 0), Tick(interval),
           Busy(interval, capacity, Sleeping, interval, 0));
      Move(s0, Busy(interval, capacity, Sleeping, interval, 0), Wake(0),
           Busy(interval, capacity, Passed, interval, 0));
    } else {
      ReachFull(interval, capacity, n - 1);
      var s, s' := Busy(interval, capacity, Passed, interval, n - 1), Busy(interval, capacity, Passed, interval, n);
      assert s.mailbox + [Enqueue(2)] == s'.mailbox;
      Move(s0, s, Send(2), s');
    }
  }

  /** Such a refusal happens for every interval and capacity, and a message stays pending for good. */
  lemma RefusalHappens(interval: nat, capacity: nat)
    requires capacity >= 1
    ensures exists s: State<int> ::
              && Reachable(s) && s.interval == interval && s.capacity == capacity
              && s.dropped && s.pending == Some(2)
  {
    var s0, full := Unused(interval, capacity), Busy(interval, capacity, Passed, interval, capacity);
    ReachFull(interval, capacity, capacity);
    var refused := Busy(interval, capacity, Gone, interval, capacity).(dropped := true);
    assert full.timers[0 := full.timers[0].(stage := Gone)] == refused.timers;
    Move(s0, full, Fire(0), refused);
    Move(s0, refused, Handle, Next(refused, Handle));
    assert Init(s0);
    assert Reachable(Next(refused, Handle));
  }

  // ----- The actor, updated in place

  /** `Throttle` with the timers its context has spawned. */
  class Actor<M> {
    const interval: nat
    var pending: Option<M>
    var cooling: bool
    var timer: Option<nat>
    var timers: seq<Timer>

    constructor (interval: nat)
      ensures this.interval == interval && pending == None && !cooling && timer == None && timers == []
    {
      this.interval := interval;
      pending, cooling, timer, timers := None, false, None, [];
    }

    /** The part of the state this actor owns agrees with `s`. */
    ghost predicate Is(s: State<M>)
      reads this
    {
      && s.interval == interval && s.pending == pending && s.cooling == cooling
      && s.timer == timer && s.timers == timers
    }

    method StoreTimer(now: nat)
      modifies this`timer, this`timers
      ensures timer == Some(|old(timers)|)
      ensures timers == (if old(timer).Some? then Cancelled(old(timers), old(timer).value) else old(timers))
                        + [Timer(now + interval, false, Sleeping)]
    {
      var id := |timers|;
      if timer.Some? {
        timers := Cancelled(timers, timer.value);
      }
      timers := timers + [Timer(now + interval, false, Sleeping)];
      timer := Some(id);
    }

    method HandleEnqueue(m: M, now: nat, ghost s: State<M>) returns (sent: Option<M>)
      requires Is(s) && s.now == now
      modifies this
      ensures Is(OnEnqueue(s, m)) && sent == if s.cooling then None else Some(m)
    {
      sent := None;
      if !cooling {
        sent := Some(m);
        cooling := true;
        StoreTimer(now);
      } else {
        pending := Some(m);
      }
    }

    method HandleCooldownExpired(now: nat, ghost s: State<M>) returns (sent: Option<M>)
      requires Is(s) && s.now == now
      modifies this
      ensures Is(OnExpired(s)) && sent == s.pending
    {
      cooling := false;
      if timer.Some? {
        timers := Cancelled(timers, timer.value);
        timer := None;
      }
      sent := pending;
      if pending.Some? {
        pending := None;
        cooling := true;
        StoreTimer(now);
      }
    }
  }
}
