/**
 What a run of the mailboxes and of a shutdown comes to, read off its actions: what was sent and handled, who was
 asked to stop, who was registered in time.
 */
module ShutdownRuns {
  import opened Collections
  import opened Shutdown

  // ----- Envelopes

  ghost predicate HasRoom(w: World, i: nat) {
    i < |w.actors| && w.actors[i].phase != Done && |w.actors[i].queue| < w.actors[i].capacity
  }

  /** What an action puts into actor i's mailbox: a message, or the no-op of `signal_stop`. */
  ghost function Given(w: World, a: Action, i: nat): seq<Envelope>
    requires Enabled(w, a)
  {
    if !HasRoom(w, i) then []
    else if a.SendTo? && a.i == i then [a.m]
    else if a.SignalNoop? && w.call.todo[0] == i then [Noop]
    else []
  }

  /** What actor i handles in an action. */
  ghost function Took(w: World, a: Action, i: nat): seq<Envelope>
    requires Enabled(w, a)
  {
    if a == Step(i, Receive) then [w.actors[i].queue[0]] else []
  }

  ghost function Accepted(init: World, acts: seq<Action>, i: nat): seq<Envelope>
    requires Legal(init, acts)
    decreases |acts|
  {
    if acts == [] then []
    else
      var before, last := acts[..|acts| - 1], acts[|acts| - 1];
      Accepted(init, before, i) + Given(Exec(init, before), last, i)
  }

  ghost function Handled(init: World, acts: seq<Action>, i: nat): seq<Envelope>
    requires Legal(init, acts)
    decreases |acts|
  {
    if acts == [] then []
    else
      var before, last := acts[..|acts| - 1], acts[|acts| - 1];
      Handled(init, before, i) + Took(Exec(init, before), last, i)
  }

  ghost function Queued(w: World, i: nat): seq<Envelope> {
    if i < |w.actors| then w.actors[i].queue else []
  }

  lemma StepLedger(w: World, a: Action, i: nat)
    requires Enabled(w, a)
    ensures Queued(w, i) + Given(w, a, i) == Took(w, a, i) + Queued(Next(w, a), i)
  {
  }

  /** What was accepted has been handled, once and in order, or is still queued. */
  lemma {:induction false} FirstInFirstOut(init: World, acts: seq<Action>, i: nat)
    requires Init(init) && Legal(init, acts)
    ensures Accepted(init, acts, i) == Handled(init, acts, i) + Queued(Exec(init, acts), i)
    decreases |acts|
  {
    if acts != [] {
      var before, last := acts[..|acts| - 1], acts[|acts| - 1];
      FirstInFirstOut(init, before, i);
      var w := Exec(init, before);
      StepLedger(w, last, i);
      LedgerStep(Accepted(init, before, i), Handled(init, before, i), Queued(w, i), Given(w, last, i), Took(w, last, i),
                 Queued(Next(w, last), i));
    }
  }

  // ----- The last round of the loop

  ghost predicate NoStepIn(acts: seq<Action>, i: nat, from: nat, upto: nat) {
    forall k | from <= k < upto && k < |acts| :: !(acts[k].Step? && acts[k].i == i)
  }

  /** At position d `try_recv` came back empty, and the actor has made no step since before `upto`. */
  ghost predicate DrainedAt(init: World, acts: seq<Action>, i: nat, d: nat, upto: nat)
    requires Legal(init, acts)
  {
    && d < upto <= |acts| && acts[d] == Step(i, Drained) && NoStepIn(acts, i, d + 1, upto)
    && Legal(init, acts[..d]) && Queued(Exec(init, acts[..d]), i) == []
  }

  ghost predicate IdledAt(init: World, acts: seq<Action>, i: nat, d: nat, j: nat, upto: nat)
    requires Legal(init, acts)
  {
    d < j < upto <= |acts| && DrainedAt(init, acts, i, d, j) && acts[j] == Step(i, Idle)
    && NoStepIn(acts, i, j + 1, upto)
  }

  ghost predicate CheckedAt(init: World, acts: seq<Action>, i: nat, d: nat, j: nat, c: nat, upto: nat)
    requires Legal(init, acts)
  {
    && j < c < upto <= |acts| && IdledAt(init, acts, i, d, j, c) && acts[c] == Step(i, Check)
    && NoStepIn(acts, i, c + 1, upto)
    && Legal(init, acts[..c]) && i < |Exec(init, acts[..c]).actors| && Exec(init, acts[..c]).actors[i].stop
  }

  /**
   Its last four steps: it found nothing queued, called `idle`, saw the stop flag set and finished.
   */
  ghost predicate LastRound(init: World, acts: seq<Action>, i: nat, d: nat, j: nat, c: nat, f: nat)
    requires Legal(init, acts)
  {
    c < f < |acts| && CheckedAt(init, acts, i, d, j, c, f) && acts[f] == Step(i, Finish)
    && NoStepIn(acts, i, f + 1, |acts|)
  }

  lemma DrainedGoesOn(init: World, acts: seq<Action>, a: Action, i: nat, d: nat, upto: nat)
    requires Legal(init, acts) && Legal(init, acts + [a]) && DrainedAt(init, acts, i, d, upto)
    ensures DrainedAt(init, acts + [a], i, d, upto)
    ensures upto == |acts| && !(a.Step? && a.i == i) ==> DrainedAt(init, acts + [a], i, d, upto + 1)
  {
    assert (acts + [a])[..d] == acts[..d];
  }

  lemma IdledGoesOn(init: World, acts: seq<Action>, a: Action, i: nat, d: nat, j: nat, upto: nat)
    requires Legal(init, acts) && Legal(init, acts + [a]) && IdledAt(init, acts, i, d, j, upto)
    ensures IdledAt(init, acts + [a], i, d, j, upto)
    ensures upto == |acts| && !(a.Step? && a.i == i) ==> IdledAt(init, acts + [a], i, d, j, upto + 1)
  {
    DrainedGoesOn(init, acts, a, i, d, j);
  }

  lemma CheckedGoesOn(init: World, acts: seq<Action>, a: Action, i: nat, d: nat, j: nat, c: nat, upto: nat)
    requires Legal(init, acts) && Legal(init, acts + [a]) && CheckedAt(init, acts, i, d, j, c, upto)
    ensures CheckedAt(init, acts + [a], i, d, j, c, upto)
    ensures upto == |acts| && !(a.Step? && a.i == i) ==> CheckedAt(init, acts + [a], i, d, j, c, upto + 1)
  {
    IdledGoesOn(init, acts, a, i, d, j, c);
    assert (acts + [a])[..c] == acts[..c];
  }

  lemma LastRoundGoesOn(init: World, acts: seq<Action>, a: Action, i: nat, d: nat, j: nat, c: nat, f: nat)
    requires Legal(init, acts) && Legal(init, acts + [a]) && LastRound(init, acts, i, d, j, c, f)
    requires !(a.Step? && a.i == i)
    ensures LastRound(init, acts + [a], i, d, j, c, f)
  {
    CheckedGoesOn(init, acts, a, i, d, j, c, f);
  }

  /** Only its own steps move an actor through its loop. */
  lemma OthersLeavePhase(w: World, a: Action, i: nat)
    requires Enabled(w, a) && !(a.Step? && a.i == i)
    ensures i < |w.actors| ==> i < |Next(w, a).actors| && Next(w, a).actors[i].phase == w.actors[i].phase
    ensures |w.actors| <= i < |Next(w, a).actors| ==> Next(w, a).actors[i].phase == Starting
  {
  }

  /** Where the loop is, told by what the actor did last. */
  ghost predicate RoundIn(init: World, acts: seq<Action>, i: nat, phase: Phase)
    requires Legal(init, acts)
  {
    match phase
    case Idling => exists d :: DrainedAt(init, acts, i, d, |acts|)
    case Checking => exists d, j :: IdledAt(init, acts, i, d, j, |acts|)
    case Stopping => exists d, j, c :: CheckedAt(init, acts, i, d, j, c, |acts|)
    case Done => exists d, j, c, f :: LastRound(init, acts, i, d, j, c, f)
    case _ => true
  }

  ghost predicate Round(init: World, acts: seq<Action>, i: nat)
    requires Legal(init, acts)
  {
    i < |Exec(init, acts).actors| ==> RoundIn(init, acts, i, Exec(init, acts).actors[i].phase)
  }

  lemma EarlyRoundGoesOn(init: World, acts: seq<Action>, a: Action, i: nat, phase: Phase)
    requires Legal(init, acts) && Legal(init, acts + [a]) && !(a.Step? && a.i == i)
    requires RoundIn(init, acts, i, phase) && (phase == Idling || phase == Checking)
    ensures RoundIn(init, acts + [a], i, phase)
  {
    if phase == Idling {
      var d :| DrainedAt(init, acts, i, d, |acts|);
      DrainedGoesOn(init, acts, a, i, d, |acts|);
    } else {
      var d, j :| IdledAt(init, acts, i, d, j, |acts|);
      IdledGoesOn(init, acts, a, i, d, j, |acts|);
    }
  }

  lemma LateRoundGoesOn(init: World, acts: seq<Action>, a: Action, i: nat, phase: Phase)
    requires Legal(init, acts) && Legal(init, acts + [a]) && !(a.Step? && a.i == i)
    requires RoundIn(init, acts, i, phase) && (phase == Stopping || phase == Done)
    ensures RoundIn(init, acts + [a], i, phase)
  {
    if phase == Stopping {
      var d, j, c :| CheckedAt(init, acts, i, d, j, c, |acts|);
      CheckedGoesOn(init, acts, a, i, d, j, c, |acts|);
    } else {
      var d, j, c, f :| LastRound(init, acts, i, d, j, c, f);
      LastRoundGoesOn(init, acts, a, i, d, j, c, f);
    }
  }

  lemma RoundGoesOn(init: World, acts: seq<Action>, a: Action, i: nat, phase: Phase)
    requires Legal(init, acts) && Legal(init, acts + [a]) && !(a.Step? && a.i == i)
    requires RoundIn(init, acts, i, phase)
    ensures RoundIn(init, acts + [a], i, phase)
  {
    if phase == Idling || phase == Checking {
      EarlyRoundGoesOn(init, acts, a, i, phase);
    } else if phase == Stopping || phase == Done {
      LateRoundGoesOn(init, acts, a, i, phase);
    }
  }

  lemma RoundAdvances(init: World, acts: seq<Action>, i: nat, s: LoopStep)
    requires Legal(init, acts) && Legal(init, acts + [Step(i, s)]) && Enabled(Exec(init, acts), Step(i, s))
    requires Exec(init, acts + [Step(i, s)]) == Next(Exec(init, acts), Step(i, s)) && Round(init, acts, i)
    ensures Round(init, acts + [Step(i, s)], i)
  {
    var n, a := |acts|, Step(i, s);
    assert (acts + [a])[..n] == acts;
    match s
    case Drained => assert DrainedAt(init, acts + [a], i, n, n + 1);
    case Idle =>
      var d :| DrainedAt(init, acts, i, d, n);
      DrainedGoesOn(init, acts, a, i, d, n);
      assert IdledAt(init, acts + [a], i, d, n, n + 1);
    case Check =>
      var d, j :| IdledAt(init, acts, i, d, j, n);
      IdledGoesOn(init, acts, a, i, d, j, n);
      if Exec(init, acts).actors[i].stop {
        assert CheckedAt(init, acts + [a], i, d, j, n, n + 1);
      }
    case Finish =>
      var d, j, c :| CheckedAt(init, acts, i, d, j, c, n);
      CheckedGoesOn(init, acts, a, i, d, j, c, n);
      assert LastRound(init, acts + [a], i, d, j, c, n);
    case _ =>
  }

  lemma {:induction false} EndsInRound(init: World, acts: seq<Action>, i: nat)
    requires Init(init) && Legal(init, acts)
    ensures Round(init, acts, i)
    decreases |acts|
  {
    if acts != [] {
      var before, last := acts[..|acts| - 1], acts[|acts| - 1];
      EndsInRound(init, before, i);
      assert acts == before + [last];
      if last.Step? && last.i == i {
        RoundAdvances(init, before, i, last.s);
      } else {
        var w := Exec(init, before);
        OthersLeavePhase(w, last, i);
        if i < |w.actors| {
          RoundGoesOn(init, before, last, i, w.actors[i].phase);
        }
      }
    }
  }

  /** Between two positions without a step of the actor nothing is handled. */
  lemma {:induction false} NothingHandled(init: World, acts: seq<Action>, i: nat, d: nat)
    requires Legal(init, acts) && d <= |acts| && Step(i, Receive) !in acts[d..]
    ensures Legal(init, acts[..d]) && Handled(init, acts, i) == Handled(init, acts[..d], i)
    decreases |acts|
  {
    if d == |acts| {
      assert acts[..d] == acts;
    } else {
      var before := acts[..|acts| - 1];
      assert acts[d..] == before[d..] + [acts[|acts| - 1]];
      assert acts[|acts| - 1] in acts[d..];
      assert forall a | a in before[d..] :: a in acts[d..];
      NothingHandled(init, before, i, d);
      assert before[..d] == acts[..d];
    }
  }

  /** It has handled exactly what it had been given when it last found nothing queued. */
  ghost predicate DrainedFirst(init: World, acts: seq<Action>, i: nat, d: nat, j: nat, c: nat, f: nat)
    requires Legal(init, acts)
  {
    LastRound(init, acts, i, d, j, c, f) && Handled(init, acts, i) == Accepted(init, acts[..d], i)
  }

  lemma LastRoundTakesNothing(init: World, acts: seq<Action>, i: nat, d: nat, j: nat, c: nat, f: nat)
    requires Legal(init, acts) && LastRound(init, acts, i, d, j, c, f)
    ensures Step(i, Receive) !in acts[d..]
  {
    forall k | d <= k < |acts|
      ensures acts[k] != Step(i, Receive)
    {
      assert k == d || k == j || k == c || k == f || !(acts[k].Step? && acts[k].i == i);
    }
  }

  lemma LastRoundDrained(init: World, acts: seq<Action>, i: nat, d: nat, j: nat, c: nat, f: nat)
    requires Init(init) && Legal(init, acts) && LastRound(init, acts, i, d, j, c, f)
    ensures DrainedFirst(init, acts, i, d, j, c, f)
  {
    LastRoundTakesNothing(init, acts, i, d, j, c, f);
    NothingHandled(init, acts, i, d);
    FirstInFirstOut(init, acts[..d], i);
  }

  /**
   Every envelope accepted is handled once, in order, or is still queued.  An actor that is done found its mailbox
   empty, called `idle` and saw its stop flag set; it had then handled everything accepted before, and what was
   accepted later was never handled.
   */
  lemma HandledInOrder(init: World, acts: seq<Action>, i: nat)
    requires Init(init) && Legal(init, acts) && i < |Exec(init, acts).actors|
    ensures Accepted(init, acts, i) == Handled(init, acts, i) + Exec(init, acts).actors[i].queue
    ensures Exec(init, acts).actors[i].phase == Done ==>
              exists d, j, c, f :: DrainedFirst(init, acts, i, d, j, c, f)
  {
    FirstInFirstOut(init, acts, i);
    EndsInRound(init, acts, i);
    if Exec(init, acts).actors[i].phase == Done {
      var d, j, c, f :| LastRound(init, acts, i, d, j, c, f);
      LastRoundDrained(init, acts, i, d, j, c, f);
    }
  }

  // ----- Who is asked to stop

  /** Action k of the run has `signal_stop` set the flag of actor i. */
  ghost predicate StoresOn(init: World, acts: seq<Action>, k: nat, i: nat)
    requires Legal(init, acts)
  {
    k < |acts| && acts[k].SignalStore? && Legal(init, acts[..k]) && Enabled(Exec(init, acts[..k]), SignalStore)
    && Exec(init, acts[..k]).call.todo[0] == i
  }

  ghost predicate SignalledIn(init: World, acts: seq<Action>, i: nat)
    requires Legal(init, acts)
  {
    exists k :: StoresOn(init, acts, k, i)
  }

  ghost predicate StopsItself(acts: seq<Action>, i: nat) {
    exists k | 0 <= k < |acts| :: acts[k] == SelfStop(i)
  }

  lemma SignalledSnoc(init: World, acts: seq<Action>, a: Action, i: nat)
    requires Legal(init, acts) && Legal(init, acts + [a]) && Enabled(Exec(init, acts), a)
    ensures SignalledIn(init, acts + [a], i) <==>
            SignalledIn(init, acts, i) || (a.SignalStore? && Exec(init, acts).call.todo[0] == i)
  {
    var n, more := |acts|, acts + [a];
    forall k: nat
      ensures StoresOn(init, more, k, i) <==>
              StoresOn(init, acts, k, i) || (k == n && a.SignalStore? && Exec(init, acts).call.todo[0] == i)
    {
      if k <= n {
        assert more[..k] == acts[..k];
        assert acts[..n] == acts;
      }
    }
    if a.SignalStore? && Exec(init, acts).call.todo[0] == i {
      assert StoresOn(init, more, n, i);
    }
    if SignalledIn(init, acts, i) {
      var k :| StoresOn(init, acts, k, i);
      assert StoresOn(init, more, k, i);
    }
  }

  lemma StopsItselfSnoc(acts: seq<Action>, a: Action, i: nat)
    ensures StopsItself(acts + [a], i) <==> StopsItself(acts, i) || a == SelfStop(i)
  {
    assert (acts + [a])[|acts|] == a;
    if StopsItself(acts, i) {
      var k :| 0 <= k < |acts| && acts[k] == SelfStop(i);
      assert (acts + [a])[k] == SelfStop(i);
    }
  }

  lemma StopStep(w: World, a: Action, i: nat)
    requires Enabled(w, a) && i < |Next(w, a).actors|
    ensures Next(w, a).actors[i].stored <==>
            (i < |w.actors| && w.actors[i].stored) || (a.SignalStore? && w.call.todo[0] == i)
    ensures Next(w, a).actors[i].stop <==>
            || (i < |w.actors| && w.actors[i].stop)
            || (a.SignalStore? && w.call.todo[0] == i) || a == SelfStop(i)
  {
  }

  /** An actor's stop flag is set exactly if it asked to stop itself or `signal_stop` was called on it. */
  lemma {:induction false} StopIff(init: World, acts: seq<Action>, i: nat)
    requires Init(init) && Legal(init, acts)
    ensures var w := Exec(init, acts);
            if i < |w.actors| then
              && (w.actors[i].stored <==> SignalledIn(init, acts, i))
              && (w.actors[i].stop <==> StopsItself(acts, i) || SignalledIn(init, acts, i))
            else !StopsItself(acts, i) && !SignalledIn(init, acts, i)
    decreases |acts|
  {
    if acts != [] {
      var before, last := acts[..|acts| - 1], acts[|acts| - 1];
      StopIff(init, before, i);
      assert acts == before + [last];
      SignalledSnoc(init, before, last, i);
      StopsItselfSnoc(before, last, i);
      if i < |Exec(init, acts).actors| {
        StopStep(Exec(init, before), last, i);
      }
    }
  }

  /** Action k of the run is a `ctx.stop()` of actor i inside `started`. */
  ghost predicate StopsInStarted(init: World, acts: seq<Action>, k: nat, i: nat)
    requires Legal(init, acts)
  {
    k < |acts| && acts[k] == SelfStop(i) && Legal(init, acts[..k])
    && i < |Exec(init, acts[..k]).actors| && Exec(init, acts[..k]).actors[i].phase == Starting
  }

  ghost predicate StoppedInStarted(init: World, acts: seq<Action>, i: nat)
    requires Legal(init, acts)
  {
    exists k :: StopsInStarted(init, acts, k, i)
  }

  lemma StoppedInStartedSnoc(init: World, acts: seq<Action>, a: Action, i: nat)
    requires Legal(init, acts) && Legal(init, acts + [a])
    ensures StoppedInStarted(init, acts, i) ==> StoppedInStarted(init, acts + [a], i)
    ensures var w := Exec(init, acts);
            a == SelfStop(i) && i < |w.actors| && w.actors[i].phase == Starting ==>
              StoppedInStarted(init, acts + [a], i)
  {
    var n := |acts|;
    assert (acts + [a])[..n] == acts;
    if StoppedInStarted(init, acts, i) {
      var k: nat :| StopsInStarted(init, acts, k, i);
      assert (acts + [a])[..k] == acts[..k];
      assert StopsInStarted(init, acts + [a], k, i);
    }
    if a == SelfStop(i) && i < |Exec(init, acts).actors| && Exec(init, acts).actors[i].phase == Starting {
      assert StopsInStarted(init, acts + [a], n, i);
    }
  }

  lemma SleepyStep(w: World, a: Action, i: nat)
    requires Enabled(w, a) && i < |Next(w, a).actors| && Next(w, a).actors[i].sleepy
    ensures i < |w.actors| && (w.actors[i].sleepy || (a == SelfStop(i) && w.actors[i].phase == Starting))
  {
  }

  lemma {:induction false} SleepyIs(init: World, acts: seq<Action>, i: nat)
    requires Init(init) && Legal(init, acts) && i < |Exec(init, acts).actors| && Exec(init, acts).actors[i].sleepy
    ensures StoppedInStarted(init, acts, i)
    decreases |acts|
  {
    if acts != [] {
      var before, last := acts[..|acts| - 1], acts[|acts| - 1];
      var w := Exec(init, before);
      assert acts == before + [last];
      SleepyStep(w, last, i);
      if w.actors[i].sleepy {
        SleepyIs(init, before, i);
      }
      StoppedInStartedSnoc(init, before, last, i);
    }
  }

  lemma InitInv(w: World)
    requires Init(w)
    ensures Inv(w)
  {
  }

  /** `signal_stop` has set the flag of actor i and not yet tried to send the no-op. */
  ghost predicate BetweenHalves(w: World, i: nat) {
    w.call.Signalling? && w.call.stored && w.call.todo != [] && w.call.todo[0] == i
  }

  ghost predicate HalvesOk(w: World) {
    forall i | 0 <= i < |w.actors| && w.actors[i].stored && !w.actors[i].signalled :: BetweenHalves(w, i)
  }

  lemma {:induction false} HalvesRun(init: World, acts: seq<Action>)
    requires Init(init) && Legal(init, acts)
    ensures Inv(Exec(init, acts)) && HalvesOk(Exec(init, acts))
    decreases |acts|
  {
    InitInv(init);
    RunKeeps(init, acts);
    if acts != [] {
      HalvesRun(init, acts[..|acts| - 1]);
      HalvesStep(Exec(init, acts[..|acts| - 1]), acts[|acts| - 1]);
    }
  }

  lemma HalvesStep(w: World, a: Action)
    requires Inv(w) && HalvesOk(w) && Enabled(w, a)
    ensures HalvesOk(Next(w, a))
  {
  }

  /**
   Who can wait for a message with its stop flag set and nothing queued: it asked itself to stop in `started`, or
   `signal_stop` has set its flag and not yet sent the no-op.
   */
  lemma SleepersAre(init: World, acts: seq<Action>, i: nat)
    requires Init(init) && Legal(init, acts) && i < |Exec(init, acts).actors|
    requires Exec(init, acts).actors[i].stop && Sleeps(Exec(init, acts).actors[i])
    ensures StoppedInStarted(init, acts, i) || BetweenHalves(Exec(init, acts), i)
  {
    HalvesRun(init, acts);
    assert ActorInv(Exec(init, acts).actors[i]);
    if Exec(init, acts).actors[i].sleepy {
      SleepyIs(init, acts, i);
    }
  }

  /** Actor i's registration was accepted by the system actor's mailbox before `shutdown` was called. */
  ghost predicate RegisteredAt(init: World, acts: seq<Action>, k: nat, i: nat)
    requires Legal(init, acts)
  {
    k < |acts| && acts[k] == RegisterActor(i) && CallShutdown !in acts[..k]
    && Legal(init, acts[..k]) && |Exec(init, acts[..k]).sysQueue| < Exec(init, acts[..k]).sysCapacity
  }

  ghost predicate RegisteredInTime(init: World, acts: seq<Action>, i: nat)
    requires Legal(init, acts)
  {
    exists k :: RegisteredAt(init, acts, k, i)
  }

  lemma RegisteredSnoc(init: World, acts: seq<Action>, a: Action, i: nat)
    requires Legal(init, acts) && Legal(init, acts + [a])
    ensures var w := Exec(init, acts);
            RegisteredInTime(init, acts + [a], i) <==>
            || RegisteredInTime(init, acts, i)
            || (a == RegisterActor(i) && CallShutdown !in acts && |w.sysQueue| < w.sysCapacity)
  {
    var w, n, more := Exec(init, acts), |acts|, acts + [a];
    forall k: nat
      ensures RegisteredAt(init, more, k, i) <==>
              || RegisteredAt(init, acts, k, i)
              || (k == n && a == RegisterActor(i) && CallShutdown !in acts && |w.sysQueue| < w.sysCapacity)
    {
      if k <= n {
        assert more[..k] == acts[..k];
        assert acts[..n] == acts;
      }
    }
    if a == RegisterActor(i) && CallShutdown !in acts && |w.sysQueue| < w.sysCapacity {
      assert RegisteredAt(init, more, n, i);
    }
    if RegisteredInTime(init, acts, i) {
      var k :| RegisteredAt(init, acts, k, i);
      assert RegisteredAt(init, more, k, i);
    }
  }

  lemma CallStep(w: World, a: Action)
    requires Inv(w) && Enabled(w, a)
    ensures Next(w, a).call.NotCalled? <==> w.call.NotCalled? && a != CallShutdown
    ensures Next(w, a).early ==
            if a.RegisterActor? && w.call.NotCalled? && |w.sysQueue| < w.sysCapacity then w.early + {a.i} else w.early
  {
    if a.SysHandle? && w.call.NotCalled? {
      assert w.sysQueue[0].Register?;
    }
  }

  /** Who counts as registered before the call. */
  lemma {:induction false} EarlyIs(init: World, acts: seq<Action>, i: nat)
    requires Init(init) && Legal(init, acts)
    ensures Exec(init, acts).call.NotCalled? <==> CallShutdown !in acts
    ensures i in Exec(init, acts).early <==> RegisteredInTime(init, acts, i)
    decreases |acts|
  {
    if acts != [] {
      var before, last := acts[..|acts| - 1], acts[|acts| - 1];
      EarlyIs(init, before, i);
      InitInv(init);
      RunKeeps(init, before);
      assert acts == before + [last];
      RegisteredSnoc(init, before, last, i);
      CallStep(Exec(init, before), last);
    }
  }

  // ----- A served shutdown signals exactly those registered in time

  ghost predicate NobodySignalled(w: World) {
    forall i | 0 <= i < |w.actors| :: !w.actors[i].stored
  }

  ghost predicate Timely(w: World) {
    match w.call
    case NotCalled => NobodySignalled(w) && Elements(w.entries) + Ahead(w.sysQueue) == w.early
    case Queued => NobodySignalled(w) && Elements(w.entries) + Ahead(w.sysQueue) == w.early
    case Signalling(todo, stored, awaits) =>
      && Elements(todo) + Elements(awaits) == w.early
      && (forall i | 0 <= i < |w.actors| && w.actors[i].stored ::
            i in awaits || (stored && todo != [] && i == todo[0]))
    case Awaiting(_) => forall i | 0 <= i < |w.actors| :: w.actors[i].stored <==> i in w.early
    case Returned(served) =>
      if served then forall i | 0 <= i < |w.actors| :: w.actors[i].stored <==> i in w.early else NobodySignalled(w)
  }

  lemma {:induction false} AheadSame(queue: seq<SysMsg>, m: SysMsg)
    requires Shutdowns(queue) > 0 || m.ShutdownMsg?
    ensures Ahead(queue + [m]) == Ahead(queue)
    decreases |queue|
  {
    if queue == [] {
      assert queue + [m] == [m];
    } else {
      assert (queue + [m])[1..] == queue[1..] + [m];
      if queue[0].Register? {
        AheadSame(queue[1..], m);
      }
    }
  }

  /** A step that neither signals nor concerns the call. */
  lemma PutTimely(w: World, i: nat, a: Actor)
    requires Timely(w) && i < |w.actors| && (a.stored <==> w.actors[i].stored)
    ensures Timely(Put(w, i, a))
  {
  }

  lemma SpawnTimely(w: World, capacity: nat)
    requires Inv(w) && Timely(w) && capacity >= 1
    ensures Timely(Next(w, Spawn(capacity)))
  {
    assert forall i | i in w.early && w.call.Awaiting? :: i < |w.actors|;
  }

  lemma SysSendTimely(w: World, a: Action)
    requires Inv(w) && Timely(w) && Enabled(w, a) && (a.RegisterActor? || a.CallShutdown?)
    ensures Timely(Next(w, a))
  {
    var m := if a.RegisterActor? then Register(a.i) else ShutdownMsg;
    AheadAppend(w.sysQueue, m);
    if Shutdowns(w.sysQueue) > 0 || m.ShutdownMsg? {
      AheadSame(w.sysQueue, m);
    }
  }

  lemma SysHandleTimely(w: World)
    requires Inv(w) && Timely(w) && Enabled(w, SysHandle)
    ensures Timely(Next(w, SysHandle))
  {
    var w' := Next(w, SysHandle);
    if w.sysQueue[0].Register? {
      assert w'.entries[|w.entries|] == w.sysQueue[0].actor;
      assert Elements(w'.entries) == Elements(w.entries) + {w.sysQueue[0].actor};
    } else {
      assert w.call.Queued?;
      assert Ahead(w.sysQueue) == {};
    }
  }

  lemma SignalTimely(w: World, a: Action)
    requires Inv(w) && Timely(w) && Enabled(w, a) && (a.SignalStore? || a.SignalNoop?)
    ensures Timely(Next(w, a))
  {
    if a.SignalNoop? {
      var call, call' := w.call, Next(w, a).call;
      assert call'.awaits[|call.awaits|] == call.todo[0];
      assert Elements(call.todo) == {call.todo[0]} + Elements(call'.todo);
      assert Elements(call'.awaits) == Elements(call.awaits) + {call.todo[0]};
    }
  }

  lemma SignalsDoneTimely(w: World)
    requires Inv(w) && Timely(w) && Enabled(w, SignalsDone)
    ensures Timely(Next(w, SignalsDone))
  {
    forall i | 0 <= i < |w.actors|
      ensures w.actors[i].stored <==> i in w.early
    {
      if i in w.call.awaits {
        assert ActorInv(w.actors[i]);
        assert i in Elements(w.call.awaits);
      }
    }
  }

  lemma TimelyStep(w: World, a: Action)
    requires Inv(w) && Timely(w) && Enabled(w, a)
    ensures Timely(Next(w, a))
  {
    match a
    case Spawn(capacity) => SpawnTimely(w, capacity);
    case Step(i, s) => PutTimely(w, i, Loop(w.actors[i], s));
    case SendTo(i, m) => PutTimely(w, i, Send(w.actors[i], m));
    case SelfStop(i) => PutTimely(w, i, StopSelf(w.actors[i]));
    case RegisterActor(_) => SysSendTimely(w, a);
    case CallShutdown => SysSendTimely(w, a);
    case SysHandle => SysHandleTimely(w);
    case SignalStore => SignalTimely(w, a);
    case SignalNoop => SignalTimely(w, a);
    case SignalsDone => SignalsDoneTimely(w);
    case AwaitNext =>
    case AwaitDone =>
  }

  lemma {:induction false} TimelyRun(init: World, acts: seq<Action>)
    requires Init(init) && Legal(init, acts)
    ensures Inv(Exec(init, acts)) && Timely(Exec(init, acts))
    decreases |acts|
  {
    InitInv(init);
    RunKeeps(init, acts);
    if acts != [] {
      TimelyRun(init, acts[..|acts| - 1]);
      TimelyStep(Exec(init, acts[..|acts| - 1]), acts[|acts| - 1]);
    }
  }

  /**
   A served `shutdown()` called `signal_stop` on exactly the actors whose registration was accepted before the call,
   and returned only after they were done; a refused one called it on nobody.
   */
  lemma ShutdownSignals(init: World, acts: seq<Action>, i: nat)
    requires Init(init) && Legal(init, acts) && Exec(init, acts).call.Returned?
    ensures var w := Exec(init, acts);
            if w.call.served then
              && (SignalledIn(init, acts, i) <==> RegisteredInTime(init, acts, i))
              && (RegisteredInTime(init, acts, i) ==> i < |w.actors| && w.actors[i].phase == Done)
            else !SignalledIn(init, acts, i)
  {
    TimelyRun(init, acts);
    StopIff(init, acts, i);
    EarlyIs(init, acts, i);
  }
}
