/**
 What a run of `Debounce` (crates/actor/src/debounce.rs) comes to, read off its actions: what was handled, and when,
 decides what is forwarded and which timers there are.
 */
module DebounceRuns {
  import opened Collections
  import opened Options
  import opened Timers
  import opened Debounce

  // ----- The mailbox

  /** What an action puts into the mailbox: a message, or the `Flush` of a timer. */
  ghost function Given<M>(s: State<M>, a: Action<M>): seq<Msg<M>> {
    if |s.mailbox| >= s.capacity then []
    else if a.Send? then [Enqueue(a.m)]
    else if a.Fire? then [Flush(a.id)]
    else []
  }

  ghost function Took<M>(s: State<M>, a: Action<M>): seq<Msg<M>>
    requires Enabled(s, a)
  {
    if a.Handle? then [s.mailbox[0]] else []
  }

  ghost function Accepted<M>(init: State<M>, acts: seq<Action<M>>): seq<Msg<M>>
    requires Legal(init, acts)
    decreases |acts|
  {
    if acts == [] then []
    else Accepted(init, acts[..|acts| - 1]) + Given(Exec(init, acts[..|acts| - 1]), acts[|acts| - 1])
  }

  ghost function Handled<M>(init: State<M>, acts: seq<Action<M>>): seq<Msg<M>>
    requires Legal(init, acts)
    decreases |acts|
  {
    if acts == [] then []
    else Handled(init, acts[..|acts| - 1]) + Took(Exec(init, acts[..|acts| - 1]), acts[|acts| - 1])
  }

  lemma MailStep<M>(s: State<M>, a: Action<M>)
    requires Enabled(s, a)
    ensures s.mailbox + Given(s, a) == Took(s, a) + Next(s, a).mailbox
  {
  }

  /** Every message accepted is handled once, in order, or is still queued. */
  lemma {:induction false} MailInOrder<M>(init: State<M>, acts: seq<Action<M>>)
    requires Init(init) && Legal(init, acts)
    ensures Accepted(init, acts) == Handled(init, acts) + Exec(init, acts).mailbox
    decreases |acts|
  {
    if acts != [] {
      var before, last := acts[..|acts| - 1], acts[|acts| - 1];
      MailInOrder(init, before);
      var s := Exec(init, before);
      MailStep(s, last);
      LedgerStep(Accepted(init, before), Handled(init, before), s.mailbox, Given(s, last), Took(s, last),
                 Next(s, last).mailbox);
    }
  }

  // ----- What is forwarded

  /** The messages among those handled. */
  ghost function Messages<M>(handled: seq<Msg<M>>): seq<M> {
    if handled == [] then []
    else
      var n := |handled| - 1;
      Messages(handled[..n]) + if handled[n].Enqueue? then [handled[n].m] else []
  }

  /** The messages that a `Flush` followed at once. */
  ghost function Flushed<M>(handled: seq<Msg<M>>): seq<M> {
    if |handled| < 2 then []
    else
      var n := |handled| - 1;
      Flushed(handled[..n]) + if handled[n].Flush? && handled[n - 1].Enqueue? then [handled[n - 1].m] else []
  }

  lemma Snoc<M>(handled: seq<Msg<M>>, m: Msg<M>)
    ensures Messages(handled + [m]) == Messages(handled) + if m.Enqueue? then [m.m] else []
    ensures Flushed(handled + [m]) ==
            Flushed(handled) +
            if handled != [] && m.Flush? && handled[|handled| - 1].Enqueue? then [handled[|handled| - 1].m] else []
  {
    assert (handled + [m])[..|handled|] == handled;
  }

  /** What the actor holds and has sent, told by the messages it has handled. */
  ghost predicate TellsOf<M>(s: State<M>, handled: seq<Msg<M>>) {
    && s.enqueued == Messages(handled) && s.forwarded == Flushed(handled)
    && s.pending == (if handled != [] && handled[|handled| - 1].Enqueue? then Some(handled[|handled| - 1].m) else None)
  }

  lemma OthersTell<M>(s: State<M>, a: Action<M>, handled: seq<Msg<M>>)
    requires Enabled(s, a) && !a.Handle? && TellsOf(s, handled)
    ensures TellsOf(Next(s, a), handled)
  {
  }

  lemma HandleTells<M>(s: State<M>, handled: seq<Msg<M>>)
    requires Enabled(s, Handle) && TellsOf(s, handled)
    ensures TellsOf(Next(s, Handle), handled + [s.mailbox[0]])
  {
    Snoc(handled, s.mailbox[0]);
  }

  /**
   Over every run: exactly those messages are forwarded, in order, that were the last thing handled before a `Flush`;
   a message is pending while it is the last thing handled.
   */
  lemma {:induction false} ForwardsFlushed<M>(init: State<M>, acts: seq<Action<M>>)
    requires Init(init) && Legal(init, acts)
    ensures TellsOf(Exec(init, acts), Handled(init, acts))
    decreases |acts|
  {
    if acts != [] {
      var before, last := acts[..|acts| - 1], acts[|acts| - 1];
      ForwardsFlushed(init, before);
      if last.Handle? {
        HandleTells(Exec(init, before), Handled(init, before));
      } else {
        OthersTell(Exec(init, before), last, Handled(init, before));
        assert Handled(init, before) + [] == Handled(init, before);
      }
    }
  }

  // ----- Timers

  /** When each message was handled. */
  ghost function HandledAt<M>(init: State<M>, acts: seq<Action<M>>): seq<nat>
    requires Legal(init, acts)
    decreases |acts|
  {
    if acts == [] then []
    else
      var s, last := Exec(init, acts[..|acts| - 1]), acts[|acts| - 1];
      HandledAt(init, acts[..|acts| - 1]) + if last.Handle? && s.mailbox[0].Enqueue? then [s.now] else []
  }

  /** Timer k is the one of message k, due its delay after that was handled, and all but the last are cancelled. */
  ghost predicate TimersOf<M>(s: State<M>, delay: nat, times: seq<nat>) {
    && s.delay == delay && |s.timers| == |times|
    && s.timer == (if times == [] then None else Some(|times| - 1))
    && (times != [] ==> s.armedAt == times[|times| - 1])
    && forall k | 0 <= k < |times| ::
         s.timers[k].due == times[k] + delay && (s.timers[k].cancelled <==> k < |times| - 1)
  }

  lemma EnqueueArms<M>(s: State<M>, delay: nat, times: seq<nat>)
    requires Enabled(s, Handle) && s.mailbox[0].Enqueue? && TimersOf(s, delay, times)
    ensures TimersOf(Next(s, Handle), delay, times + [s.now])
  {
    var s' := Next(s, Handle);
    assert forall k | 0 <= k < |times| :: s'.timers[k].due == s.timers[k].due;
  }

  lemma TimersStep<M>(s: State<M>, a: Action<M>, delay: nat, times: seq<nat>)
    requires Enabled(s, a) && TimersOf(s, delay, times)
    ensures TimersOf(Next(s, a), delay, times + if a.Handle? && s.mailbox[0].Enqueue? then [s.now] else [])
  {
    if a.Handle? && s.mailbox[0].Enqueue? {
      EnqueueArms(s, delay, times);
    } else {
      assert times + [] == times;
    }
  }

  /** Over every run: handling a message arms one timer for it and cancels the one before. */
  lemma {:induction false} TimersAre<M>(init: State<M>, acts: seq<Action<M>>)
    requires Init(init) && Legal(init, acts)
    ensures TimersOf(Exec(init, acts), init.delay, HandledAt(init, acts))
    decreases |acts|
  {
    if acts != [] {
      TimersAre(init, acts[..|acts| - 1]);
      TimersStep(Exec(init, acts[..|acts| - 1]), acts[|acts| - 1], init.delay, HandledAt(init, acts[..|acts| - 1]));
    }
  }

  // ----- Refused flushes

  ghost predicate RefusedAt<M>(init: State<M>, acts: seq<Action<M>>, k: nat)
    requires Legal(init, acts)
  {
    k < |acts| && acts[k].Fire? && Legal(init, acts[..k])
    && |Exec(init, acts[..k]).mailbox| >= Exec(init, acts[..k]).capacity
  }

  ghost predicate SomeRefused<M>(init: State<M>, acts: seq<Action<M>>)
    requires Legal(init, acts)
  {
    exists k :: RefusedAt(init, acts, k)
  }

  lemma RefusedSnoc<M>(init: State<M>, acts: seq<Action<M>>, a: Action<M>)
    requires Legal(init, acts) && Legal(init, acts + [a])
    ensures var s := Exec(init, acts);
            SomeRefused(init, acts + [a]) <==> SomeRefused(init, acts) || (a.Fire? && |s.mailbox| >= s.capacity)
  {
    var s, n, more := Exec(init, acts), |acts|, acts + [a];
    assert acts[..n] == acts && more[..n] == acts;
    if a.Fire? && |s.mailbox| >= s.capacity {
      assert RefusedAt(init, more, n);
    }
    if SomeRefused(init, acts) {
      var k: nat :| RefusedAt(init, acts, k);
      assert more[..k] == acts[..k];
      assert RefusedAt(init, more, k);
    }
    if SomeRefused(init, more) {
      var k: nat :| RefusedAt(init, more, k);
      if k < n {
        assert more[..k] == acts[..k];
        assert RefusedAt(init, acts, k);
      }
    }
  }

  /** `dropped` says that some timer found the mailbox full. */
  lemma {:induction false} DroppedIff<M>(init: State<M>, acts: seq<Action<M>>)
    requires Init(init) && Legal(init, acts)
    ensures Exec(init, acts).dropped <==> SomeRefused(init, acts)
    decreases |acts|
  {
    if acts != [] {
      var before, last := acts[..|acts| - 1], acts[|acts| - 1];
      DroppedIff(init, before);
      assert acts == before + [last];
      RefusedSnoc(init, before, last);
    }
  }
}
