/**
 What a run of `Throttle` (crates/actor/src/debounce.rs) comes to, read off its actions: what was handled, and when,
 decides what is forwarded and which timers there are.
 */
module ThrottleRuns {
  import opened Collections
  import opened Options
  import opened Timers
  import opened Throttle

  // ----- The mailbox

  /** What an action puts into the mailbox: a message, or the `CooldownExpired` of a timer. */
  ghost function Given<M>(s: State<M>, a: Action<M>): seq<Msg<M>> {
    if |s.mailbox| >= s.capacity then []
    else if a.Send? then [Enqueue(a.m)]
    else if a.Fire? then [CooldownExpired]
    else []
  }

  ghost function Took<M>(s: State<M>, a: Action<M>): seq<Msg<M>>
    requires Enabled(s, a)
  {
    if a.Handle? then [s.mailbox[0]] else []
  }

  ghost function Accepted<M>(init: State<M>, acts: seq<Action<M>>): seq<Msg<M>>
    requires Legal(init, acts)
    decreases |acts|
  {
    if acts == [] then []
    else Accepted(init, acts[..|acts| - 1]) + Given(Exec(init, acts[..|acts| - 1]), acts[|acts| - 1])
  }

  ghost function Handled<M>(init: State<M>, acts: seq<Action<M>>): seq<Msg<M>>
    requires Legal(init, acts)
    decreases |acts|
  {
    if acts == [] then []
    else Handled(init, acts[..|acts| - 1]) + Took(Exec(init, acts[..|acts| - 1]), acts[|acts| - 1])
  }

  lemma MailStep<M>(s: State<M>, a: Action<M>)
    requires Enabled(s, a)
    ensures s.mailbox + Given(s, a) == Took(s, a) + Next(s, a).mailbox
  {
  }

  /** Every message accepted is handled once, in order, or is still queued. */
  lemma {:induction false} MailInOrder<M>(init: State<M>, acts: seq<Action<M>>)
    requires Init(init) && Legal(init, acts)
    ensures Accepted(init, acts) == Handled(init, acts) + Exec(init, acts).mailbox
    decreases |acts|
  {
    if acts != [] {
      var before, last := acts[..|acts| - 1], acts[|acts| - 1];
      MailInOrder(init, before);
      var s := Exec(init, before);
      MailStep(s, last);
      LedgerStep(Accepted(init, before), Handled(init, before), s.mailbox, Given(s, last), Took(s, last),
                 Next(s, last).mailbox);
    }
  }

  // ----- What is forwarded

  /** The messages among those handled. */
  ghost function Messages<M>(handled: seq<Msg<M>>): seq<M> {
    if handled == [] then []
    else
      var n := |handled| - 1;
      Messages(handled[..n]) + if handled[n].Enqueue? then [handled[n].m] else []
  }

  /**
   Cooling down: the last thing handled was a message, or an expiry that released the message handled just before it,
   which had been held back in the cool-down before.
   */
  ghost predicate Cool<M>(handled: seq<Msg<M>>)
    decreases |handled|
  {
    handled != [] &&
    var n := |handled| - 1;
    handled[n].Enqueue? || (n > 0 && handled[n - 1].Enqueue? && Cool(handled[..n - 1]))
  }

  /** The last thing handled was a message, and it came during a cool-down. */
  ghost predicate HeldBack<M>(handled: seq<Msg<M>>) {
    handled != [] && handled[|handled| - 1].Enqueue? && Cool(handled[..|handled| - 1])
  }

  /** A message outside a cool-down at once, one within it when an expiry comes next. */
  ghost function PassedOn<M>(handled: seq<Msg<M>>): seq<M> {
    if handled == [] then []
    else
      var n := |handled| - 1;
      var before, last := handled[..n], handled[n];
      PassedOn(before) +
      if last.Enqueue? then (if Cool(before) then [] else [last.m])
      else if HeldBack(before) then [before[n - 1].m]
      else []
  }

  lemma Snoc<M>(handled: seq<Msg<M>>, m: Msg<M>)
    ensures var more := handled + [m];
            && Messages(more) == Messages(handled) + (if m.Enqueue? then [m.m] else [])
            && (Cool(more) <==> m.Enqueue? || HeldBack(handled))
            && (HeldBack(more) <==> m.Enqueue? && Cool(handled))
            && PassedOn(more) == PassedOn(handled) +
                                 if m.Enqueue? then (if Cool(handled) then [] else [m.m])
                                 else if HeldBack(handled) then [handled[|handled| - 1].m] else []
  {
    var more, n := handled + [m], |handled|;
    assert more[..n] == handled;
    if n > 0 {
      assert more[..n - 1] == handled[..n - 1];
    }
  }

  /** What the actor holds and has sent, told by the messages it has handled. */
  ghost predicate TellsOf<M>(s: State<M>, handled: seq<Msg<M>>) {
    && s.enqueued == Messages(handled) && s.forwarded == PassedOn(handled) && (s.cooling <==> Cool(handled))
    && s.pending == if HeldBack(handled) then Some(handled[|handled| - 1].m) else None
  }

  lemma OthersTell<M>(s: State<M>, a: Action<M>, handled: seq<Msg<M>>)
    requires Enabled(s, a) && !a.Handle? && TellsOf(s, handled)
    ensures TellsOf(Next(s, a), handled)
  {
  }

  lemma HandleTells<M>(s: State<M>, handled: seq<Msg<M>>)
    requires Enabled(s, Handle) && TellsOf(s, handled)
    ensures TellsOf(Next(s, Handle), handled + [s.mailbox[0]])
  {
    Snoc(handled, s.mailbox[0]);
  }

  /**
   Over every run: a message handled outside a cool-down is forwarded at once, one handled within it is pending while
   it is the last thing handled, and is forwarded exactly if an expiry is handled next; nothing else is forwarded.
   */
  lemma {:induction false} ForwardsPassedOn<M>(init: State<M>, acts: seq<Action<M>>)
    requires Init(init) && Legal(init, acts)
    ensures TellsOf(Exec(init, acts), Handled(init, acts))
    decreases |acts|
  {
    if acts != [] {
      var before, last := acts[..|acts| - 1], acts[|acts| - 1];
      ForwardsPassedOn(init, before);
      if last.Handle? {
        HandleTells(Exec(init, before), Handled(init, before));
      } else {
        OthersTell(Exec(init, before), last, Handled(init, before));
        assert Handled(init, before) + [] == Handled(init, before);
      }
    }
  }

  // ----- Times and timers

  /** When something was forwarded. */
  ghost function ForwardedAt<M>(init: State<M>, acts: seq<Action<M>>): seq<nat>
    requires Legal(init, acts)
    decreases |acts|
  {
    if acts == [] then []
    else
      var s, last := Exec(init, acts[..|acts| - 1]), acts[|acts| - 1];
      ForwardedAt(init, acts[..|acts| - 1]) + if |Next(s, last).forwarded| > |s.forwarded| then [s.now] else []
  }

  /** Timer k is the one of forward k, due an interval after it. */
  ghost predicate TimersOf<M>(s: State<M>, interval: nat, times: seq<nat>) {
    && s.interval == interval && s.times == times && |s.timers| == |times|
    && forall k | 0 <= k < |times| :: s.timers[k].due == times[k] + interval
  }

  lemma TimersStep<M>(s: State<M>, a: Action<M>, interval: nat, times: seq<nat>)
    requires Enabled(s, a) && TimersOf(s, interval, times)
    ensures TimersOf(Next(s, a), interval, times + if |Next(s, a).forwarded| > |s.forwarded| then [s.now] else [])
  {
    assert times + [] == times;
  }

  /** Over every run: every forward starts one timer and nothing else does. */
  lemma {:induction false} TimersAre<M>(init: State<M>, acts: seq<Action<M>>)
    requires Init(init) && Legal(init, acts)
    ensures TimersOf(Exec(init, acts), init.interval, ForwardedAt(init, acts))
    decreases |acts|
  {
    if acts != [] {
      var before := acts[..|acts| - 1];
      TimersAre(init, before);
      TimersStep(Exec(init, before), acts[|acts| - 1], init.interval, ForwardedAt(init, before));
    }
  }

  // ----- Refused expiries

  ghost predicate RefusedAt<M>(init: State<M>, acts: seq<Action<M>>, k: nat)
    requires Legal(init, acts)
  {
    k < |acts| && acts[k].Fire? && Legal(init, acts[..k])
    && |Exec(init, acts[..k]).mailbox| >= Exec(init, acts[..k]).capacity
  }

  ghost predicate SomeRefused<M>(init: State<M>, acts: seq<Action<M>>)
    requires Legal(init, acts)
  {
    exists k :: RefusedAt(init, acts, k)
  }

  lemma RefusedSnoc<M>(init: State<M>, acts: seq<Action<M>>, a: Action<M>)
    requires Legal(init, acts) && Legal(init, acts + [a])
    ensures var s := Exec(init, acts);
            SomeRefused(init, acts + [a]) <==> SomeRefused(init, acts) || (a.Fire? && |s.mailbox| >= s.capacity)
  {
    var s, n, more := Exec(init, acts), |acts|, acts + [a];
    assert acts[..n] == acts && more[..n] == acts;
    if a.Fire? && |s.mailbox| >= s.capacity {
      assert RefusedAt(init, more, n);
    }
    if SomeRefused(init, acts) {
      var k: nat :| RefusedAt(init, acts, k);
      assert more[..k] == acts[..k];
      assert RefusedAt(init, more, k);
    }
    if SomeRefused(init, more) {
      var k: nat :| RefusedAt(init, more, k);
      if k < n {
        assert more[..k] == acts[..k];
        assert RefusedAt(init, acts, k);
      }
    }
  }

  /** `dropped` says that some timer found the mailbox full. */
  lemma {:induction false} DroppedIff<M>(init: State<M>, acts: seq<Action<M>>)
    requires Init(init) && Legal(init, acts)
    ensures Exec(init, acts).dropped <==> SomeRefused(init, acts)
    decreases |acts|
  {
    if acts != [] {
      var before, last := acts[..|acts| - 1], acts[|acts| - 1];
      DroppedIff(init, before);
      assert acts == before + [last];
      RefusedSnoc(init, before, last);
    }
  }
}
