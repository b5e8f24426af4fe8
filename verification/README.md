# Willow in Dafny

A model of the hard parts of Willow, a peer-to-peer chat system written in Rust, with proofs about it: the actor
runtime of `crates/actor` and the join protocol, text processing and presence logic of `crates/client`.

`dafny verify dfyconfig.toml` checks the whole project.

## What is modelled

**Concurrency** is modelled as step systems. A world holds every mailbox, every detached task, every timer and
every half-finished handler; an action is one atomic step of one of them; a run is any sequence of enabled
actions. A statement about all reachable worlds is therefore a statement about all interleavings. Mailboxes are
the native bounded channels: FIFO, and a send to a full or closed one fails. Fields called history in the comments
record what happened and are read by no step. What they hold is itself proved from the actions of the run, in the
files named `...Runs`, `ReactiveWrites`, `ReactiveMail` and `FanOutDeliveries`: what was sent, accepted, handled, refused
and by whom, read off the actions alone, decides what the world looks like at the end.

| files | component |
|---|---|
| `Reactive*.dfy`, `Countdown.dfy` | `StateActor` and `DerivedActor` networks: subscriptions, batched notification, detached recomputes, chains of any shape |
| `Shutdown.dfy`, `ShutdownRuns.dfy` | the mailbox loop, stop signals, the system actor and `System::shutdown` |
| `Supervisor.dfy` | the supervised mailbox loop and its restart policies |
| `Debounce*.dfy`, `Throttle*.dfy`, `Timers.dfy` | rate limiting over timed runs, with timers that can lose the race against their cancellation |
| `FanOut*.dfy`, `Retaining.dfy`, `Channels.dfy` | broker and stream output: one-to-many delivery with pruning in place |
| `Pool.dfy` | the round-robin pool with a wrapping counter |
| `JoinLinks.dfy`, `JoinNetwork.dfy`, `JoinRuns.dfy` | use-counted join links over a network that drops, duplicates, delays, reorders and forges |
| `Presence.dfy` | presence over clock ticks |
| `Base64.dfy`, `Mentions.dfy`, `Suggestions.dfy`, `Emoji.dfy` | codecs and text transformers, with `Sorting.dfy`, `Characters.dfy` and `Collections.dfy` |

Code that updates objects in place is written as classes and loops (`ReactiveActors`, `FanOutActors`, `Channels`, the
classes in `Shutdown`, `Debounce`, `Throttle`, `JoinLinks`, `Presence`, `Pool` and `Emoji`, the loops of `Supervisor`,
`Base64`, `Mentions`, `Suggestions` and `Emoji`). Each is proved against a function of the values involved, and the
step systems are built from those same functions.

Clocks, UUIDs, generated invites, the built-in emoji table, `str::to_lowercase` and the iteration order of hash maps
are parameters or arbitrary choices. A signature identifies its signer.

## Where the promise does not hold

Each of these has a counterexample and, beside it, what does hold: as an if-and-only-if where the code decides it by
a condition.

- A quiet reactive network need not agree with its sources. It does whenever no mailbox has overflowed and
  recomputes deliver in spawn order; without the second assumption a cache is right if and only if the recompute
  applied last computed the same value as the newest one (`AgreesIffNewestApplied`). Both assumptions can fail for
  every mailbox capacity (`StaleOutOfOrder`, `StaleAfterOverflow`).
- `System::shutdown` returns at once, with nobody stopped, when the system actor's mailbox is full, whatever its
  capacity (`ShutdownRefused`). When it returns, everybody registered before the call has stopped if and only if that
  mailbox had room at the call or they had stopped already (`ShutdownWaitsIff`).
- A stop is not always noticed: an actor that calls `ctx.stop()` inside `started` goes on sleeping until somebody sends
  it a message (`StopInStartedSleeps`, `MessageWakes`). Left alone, an actor with its stop flag set comes to its end if
  and only if it is not about to wait with nothing queued (`StopNoticedIff`, `SleepersAre`).
- `Debounce` can forward a message before its delay is over, even in the tick it arrived (`StaleFlushIsEarly`). It
  still can if and only if the next thing in its mailbox is a `Flush`, or the mailbox is empty and a timer has already
  read its cancel flag (`EarlyIff`).
- `Throttle` may stop forwarding for good: for every interval and capacity a full mailbox can refuse a
  `CooldownExpired` (`RefusalHappens`, `WedgedForever`). It can still forward if and only if that has not happened
  (`ForwardsIff`), and then `cooling_down` holds exactly while one timer or expiry is outstanding
  (`CoolingIffOutstanding`).
- A reply with a wrong signature can undo a join attempt made while it is being rejected (`AttemptLost`). It leaves
  the whole world as if it had never come if and only if the last such attempt names the inviter already recorded
  (`SpoofLeavesNoTrace`). The window lies between two lock acquisitions without an await, so the attempt has to be a
  `send_join_request` on another thread; the only callers are in `crates/web`, where it shares one thread with the
  listener. The listener that holds the window handles no other reply meanwhile.
- `decode(encode(x))` is `x` if and only if `x` is not empty; `encode(decode(s))` is `s` if and only if `s` is canonical
  (`RoundTrip`, `DecodeReencodes`, `AcceptsMore`).
- Suggestions depend on the iteration order of a hash map unless eight entries rank strictly above any two that share
  tier and handle (`TiesShow`, `HashOrderIrrelevantIff`, `AnswerDeterminedIff`).
- Pool loads stay within one of each other for ever if and only if the pool size divides the range of the counter
  (`FairIffDivides`, `UnfairAfterWrap`).
- A connected peer can show as away for every idle threshold, when it connects between a tick's read and its stamp
  (`LateArrivalHappens`); it does exactly after `idle_ticks` of silence (`LateArrivalIsAway`, `ReachableShown`).

Where the code and its comments disagree the model follows the code:

- The supervisor's policies speak of panics and errors. The loop restarts after every graceful stop and has nothing
  that catches a panic; it keeps a sender, so its `tx.is_closed()` test is never true.
- Actors are said to stop when all addresses are dropped. `Context` keeps a sender, so `recv` never sees a closed
  channel.
- The first backoff delay is `initial` even when that exceeds `max_delay`.
- Presence is documented with `queued` above `gone` and `whispering` above both. In the code a silent peer is gone
  however deep its queue, and whispering counts only for a reachable peer.
- `(?i)[a-z]` in the mention pattern also matches U+017F and U+212A.

## Model

| member | source | states |
|---|---|---|
| ReactiveInvariant.CoveredFirst | crates/actor/src/derived.rs:117-137 | a `Subscribe` sent before the first `Get` stays ahead of every `Get` in the source's mailbox |
| ReactiveSteps.NotAskedYet | crates/actor/src/derived.rs:117-137 | while a derived actor is still in `started`, no source holds a question of one of its recomputes |
| ReactiveSteps.AskerSubscribed | crates/actor/src/derived.rs:117-137 | the recompute whose `Get` a source is about to answer belongs to an actor that source will notify |
| ReactiveSteps.StepKeeps | crates/actor/src/derived.rs:116-234 | every step of any actor, task, blocked handler or client keeps the invariant that a newest recompute's reading is missing, current, or owed a `Notify` |
| ReactiveSteps.ReachableInv | crates/actor/src/mailbox.rs:34-56 | that invariant in every system any run without overflow leads to |
| ReactiveProgress.StepInFlight | crates/actor/src/derived.rs:214-234 | an unanswered question is always queued at its source or being worked on by it |
| ReactiveProgress.ReachableInFlight | crates/actor/src/derived.rs:214-234 | so in every run without overflow |
| ReactiveProgress.SettledRests | crates/actor/src/derived.rs:214-234 | no deadlock: when nothing but a client can move, every mailbox is empty and every recompute has delivered, through chains of any depth |
| ReactiveTheorems.NewestIsCurrent | crates/actor/src/derived.rs:148-182 | with nothing outstanding, the newest recompute read exactly what the sources hold |
| ReactiveTheorems.AgreesIffNewestApplied | crates/actor/src/derived.rs:148-182 | in any order of delivery, a quiet cache agrees with its sources if and only if the recompute applied last computed what the newest one computed |
| ReactiveTheorems.NoLostUpdate | crates/actor/src/derived.rs:117-182 | in every reachable state without overflow and with in-order delivery, a cache equals selector(sources) or its actor is starting, or a `Notify`, recompute or update for it is on its way, or a source has no value yet or a change to announce to it |
| ReactiveTheorems.AgreementComposes | crates/actor/src/derived.rs:238-283 | agreement node by node is agreement with the composition of all selectors |
| ReactiveTheorems.Converges | crates/actor/src/derived.rs:116-234 | a settled network of any shape and depth holds the composition of its selectors applied to the states its `StateActor`s hold, including when a `Get` met an empty cache on the way |
| ReactiveWrites.WriteReceived | crates/actor/src/state.rs:115-147 | handling a `Set` or `Mutate` stores the written or computed value and marks the node dirty |
| ReactiveWrites.HoldsWrites | crates/actor/src/state.rs:115-147 | in every run a `StateActor` holds its initial value with the accepted writes applied in order, except the queued ones, which are the last; its history holds every value in between |
| ReactiveWrites.OverflowIff | crates/actor/src/runtime.rs:57-66 | `overflow` says exactly that some send of the run found a full mailbox |
| ReactiveWrites.InOrderIff | crates/actor/src/derived.rs:148-162 | `inOrder` says exactly that every recompute delivered after all those spawned before it |
| ReactiveWrites.ConvergesToSent | crates/actor/src/derived.rs:116-234 | when nothing can move, no send was refused and every recompute delivered in its turn, every node holds the selectors, composed along the network, of what the clients sent, applied in order to the initial states |
| ReactiveMail.MailInOrder | crates/actor/src/mailbox.rs:34-56 | in every run every message a node accepted is handled once, in order, or still queued |
| ReactiveMail.SubscribersAre | crates/actor/src/state.rs:149-158 | with no send refused, the subscribers are exactly those whose `Subscribe` was handled, in that order, repeated if they subscribed again |
| ReactiveMail.DirtyIs | crates/actor/src/state.rs:94-121 | in every run a node is dirty exactly if it changed since its last `idle`, a `StateActor` with every write, a `DerivedActor` only to a different value |
| ReactiveMail.WalksBounded | crates/actor/src/state.rs:94-102 | a node sets out to notify at most once for every change |
| ReactiveStaleness.QuietStep | crates/actor/src/derived.rs:116-234 | a step that changes no value makes nothing stale, at any node and for any subscriptions: no recompute, snapshot or update becomes different from what the sources would answer now |
| ReactiveStaleness.ChangingReceive | crates/actor/src/derived.rs:164-182 | a change uses up something stale at its own node or below, or brings the one value that is not, and touches nothing below |
| ReactiveTermination.StepFalls | crates/actor/src/derived.rs:116-234 | every step that is not a client's uses up part of a cost charged in advance, unless it changes a value, which is granted one round of notifications |
| ReactiveTermination.StepRank | crates/actor/src/derived.rs:116-234 | so every such step lowers a rank, with overflow, in any order and whoever is subscribed to whom |
| ReactiveTermination.RunsEnd | crates/actor/src/derived.rs:116-234 | no run without clients is longer than the rank of the state it starts in, for every reachable state |
| ReactiveTermination.UpdatesArrive | crates/actor/src/derived.rs:116-234 | every run without clients continues, within that bound, to a settled state; without overflow and in order every node then holds the composition of its selectors |
| ReactiveTraces.StaleOutOfOrder | crates/actor/src/derived.rs:148-162 | for every capacity of at least 1, a reachable quiet network whose recomputes delivered out of order holds a stale cache |
| ReactiveTraces.StaleAfterOverflow | crates/actor/src/runtime.rs:57-66 | for every capacity of at least 1, a reachable quiet network that dropped a `Subscribe` holds a stale cache |
| ReactiveProvenance.StepSound | crates/actor/src/derived.rs:116-234 | every step, even with overflow and in any order, keeps the record of where cached values come from |
| ReactiveProvenance.CacheWitnessed | crates/actor/src/derived.rs:61-67 | every cached value is the selector applied to values each source really held at some moment from the spawning of that recompute on |
| ReactiveProvenance.NotifiesOnlyChanges | crates/actor/src/derived.rs:139-182 | along any run a node that is not dirty becomes dirty, and so notifies again, only after its value changed |
| ReactiveProvenance.StepDirty | crates/actor/src/derived.rs:164-182 | a step makes a node dirty only by a change, and a derived node changes only to a different value |
| ReactiveProvenance.RoundsBounded | crates/actor/src/state.rs:94-102 | a node notifies at most once per change |
| ReactiveActors.StateActor.constructor | crates/actor/src/state.rs:83-92 | the initial state, not dirty, without subscribers |
| ReactiveActors.StateActor.HandleGet | crates/actor/src/state.rs:104-113 | returns the state, which is what `Get` of the step system replies with |
| ReactiveActors.StateActor.HandleSet | crates/actor/src/state.rs:115-121 | takes the object to the node after `Set` of the step system: that value, dirty even when it is the same |
| ReactiveActors.StateActor.HandleMutate | crates/actor/src/state.rs:135-147 | takes the object to the node after `Mutate` of the step system: new state and result are the closure's on the old state |
| ReactiveActors.StateActor.HandleSubscribe | crates/actor/src/state.rs:149-158 | takes the object to the node after `Subscribe`: one more subscriber, at the end, and nothing else |
| ReactiveActors.StateActor.Idle | crates/actor/src/state.rs:94-102 | only when dirty: clears the flag, sends to every subscriber in order, keeps exactly those whose send succeeded |
| ReactiveActors.DerivedActor.constructor | crates/actor/src/derived.rs:100-114 | an empty cache, not dirty, without subscribers |
| ReactiveActors.DerivedActor.Started | crates/actor/src/derived.rs:117-137 | subscribes to all sources in order, then spawns one recompute |
| ReactiveActors.DerivedActor.HandleNotify | crates/actor/src/derived.rs:148-162 | takes the object to the node after `Notify`: one more recompute spawned and nothing else |
| ReactiveActors.DerivedActor.HandleUpdateCache | crates/actor/src/derived.rs:164-182 | takes the object to the node after `UpdateCache`: that value, newly dirty exactly when it differs from the cache |
| ReactiveActors.DerivedActor.HandleSubscribe | crates/actor/src/derived.rs:184-195 | as for the state actor |
| ReactiveActors.DerivedActor.HandleGet | crates/actor/src/derived.rs:214-234 | the cached value, which is what the step system replies with, or none when a snapshot has to be taken |
| ReactiveActors.DerivedActor.Idle | crates/actor/src/derived.rs:139-145 | as for the state actor |
| ReactiveActors.WalkIsRetain | crates/actor/src/state.rs:95-101 | whatever the rest of the system does during `idle`, the walk has decided about a prefix of the old list, in order |
| ReactiveActors.FinishedWalk | crates/actor/src/derived.rs:139-145 | a finished walk leaves what `retain` leaves for the sends that succeeded |
| Shutdown.LoopKeeps | crates/actor/src/mailbox.rs:24-61 | every step of the mailbox loop keeps: signalled and not past the receive means something is queued |
| Shutdown.SendKeeps | crates/actor/src/system.rs:199-207 | a send, and both halves of `signal_stop`, keep it, also when the no-op is dropped by a full mailbox |
| Shutdown.SignalledProgress | crates/actor/src/mailbox.rs:34-56 | no lost wake-up: a signalled actor that has not exited can always step, and each step brings it nearer the exit |
| Shutdown.ReachableInv | crates/actor/src/system.rs:185-217 | the invariants of all actors and of the system actor in every run |
| ShutdownRuns.HandledInOrder | crates/actor/src/mailbox.rs:34-61 | over every run: the envelopes accepted, read off the sends that found room, are handled once and in order or still queued; an actor that is done found its mailbox empty, called `idle`, saw its stop flag set and finished, and has handled exactly what was accepted before it found the mailbox empty |
| ShutdownRuns.StopIff | crates/actor/src/system.rs:199-207 | in every run an actor's stop flag is set exactly if it asked to stop itself or `signal_stop` was called on it |
| ShutdownRuns.EarlyIs | crates/actor/src/system.rs:40-49 | `early` is exactly who was registered, with room in the system mailbox, before `shutdown` was called |
| ShutdownRuns.ShutdownSignals | crates/actor/src/system.rs:57-73 | a served `shutdown()` has called `signal_stop` on exactly the actors registered before the call and returned after they were done; a refused one has called it on nobody |
| Shutdown.StepsBounded | crates/actor/src/mailbox.rs:34-61 | while nobody sends to it, every step of an actor with its stop flag set uses up its measure, whatever is sent and signalled to the others, and it neither falls asleep nor wakes up |
| Shutdown.SignalledActorsStop | crates/actor/src/system.rs:199-217 | so it makes boundedly many steps, and when it has none left it is done, also while a shutdown goes on signalling others |
| Shutdown.StopNoticedIff | crates/actor/src/mailbox.rs:31-61 | whoever asked for it: left alone, an actor with its stop flag set makes boundedly many steps and, when it has none left, is done if and only if it was not about to wait with nothing queued; it can come to its end under exactly that condition |
| ShutdownRuns.SleepersAre | crates/actor/src/context.rs:44-46 | in every run an actor with the flag set that is about to wait with nothing queued called `ctx.stop()` inside `started`, or `signal_stop` is just between its two halves on it |
| Shutdown.MessageWakes | crates/actor/src/mailbox.rs:34-61 | after one message such an actor can come to its end |
| Shutdown.StopInStartedSleeps | crates/actor/src/mailbox.rs:31-37 | for every capacity a reachable actor that asked for it in `started` stays in its loop through every run in which nobody sends to it |
| Shutdown.ShutdownWaits | crates/actor/src/system.rs:147-156 | a served `shutdown()` returns only after every actor registered before the call has stopped |
| Shutdown.ShutdownWaitsIff | crates/actor/src/system.rs:147-156 | over every run from the call to its return: everybody registered before the call is done at the return if and only if the system mailbox had room at the call or they were all done by then |
| Shutdown.ShutdownRefused | crates/actor/src/system.rs:147-151 | for every capacity of the system mailbox, a reachable world in which `shutdown()` returned with that many registered actors none of which has started |
| Shutdown.ShutdownNeverStuck | crates/actor/src/system.rs:57-73 | while a served `shutdown()` has not returned, the runtime itself can make a step |
| Shutdown.ShutdownReturns | crates/actor/src/system.rs:147-156 | with nothing sent, spawned or registered meanwhile it makes boundedly many, in any order, and when it has none left the call has returned and everybody registered before it is done |
| Shutdown.Cell.SignalStop | crates/actor/src/system.rs:199-207 | takes the cell through both halves of the step system's `signal_stop`; unless closed, its mailbox is not empty afterwards |
| Shutdown.SystemActor.HandleShutdown | crates/actor/src/system.rs:57-73 | takes every entry, takes each through both halves of `signal_stop` exactly once, returns them in registration order |
| Supervisor.RunMailboxInline | crates/actor/src/supervisor.rs:99-128 | an instance's state is what its log of messages and pauses, folded one after the other, makes of the actor after `started`; it leaves at the first pause after a message at which a stop asked for in `started`, a handler or `idle` is seen, and else takes everything and waits |
| Supervisor.LogTakes | crates/actor/src/supervisor.rs:108-117 | the messages of an instance's log are those accepted from where it began, one after the other, each once |
| Supervisor.LogPauses | crates/actor/src/supervisor.rs:115-119 | `idle` is called exactly once wherever nothing is queued after a message, and nowhere else |
| Supervisor.RestedIsFold | crates/actor/src/supervisor.rs:106-124 | state and stop flag after any number of messages are the fold of the log and whether a stop was asked for at the start or in an event of it |
| Supervisor.RecorderSees | crates/actor/src/supervisor.rs:106-124 | an actor that writes down what happens to it ends with what it began with, followed by its log |
| Supervisor.WithoutIdle | crates/actor/src/supervisor.rs:106-117 | without an `idle` of its own an actor's state is the left fold of its handlers over the messages taken |
| Supervisor.LeavesWhenAsked | crates/actor/src/supervisor.rs:119-123 | an instance may leave exactly in a pause by which it has asked to stop |
| Supervisor.DelayDoubles | crates/actor/src/supervisor.rs:86-89 | doubling under the cap is the cap of `initial * 2^k` |
| Supervisor.HandledIsPrefix | crates/actor/src/supervisor.rs:46-96 | what consecutive instances took, concatenated, is a prefix of the accepted sequence |
| Supervisor.ChronicleHandled | crates/actor/src/supervisor.rs:46-96 | that holds of the lives the loop goes through |
| Supervisor.RunInstance | crates/actor/src/supervisor.rs:61-72 | one more instance, from a clone of the original actor, which left or waits by the rule above |
| Supervisor.SupervisorLoop | crates/actor/src/supervisor.rs:46-96 | every instance starts from the original actor where the one before it left, and all but the last have left; starts never exceed the budget plus one and use it up unless the last instance still waits; delay k is `initial` for 0 and min(initial * 2^k, max_delay) after |
| Debounce.NothingStranded | crates/actor/src/debounce.rs:57-81 | under every timer race: each forward sends the newest message so far, none twice, and a pending one has its timer alive or a `Flush` queued (any message queued, once a flush was refused) |
| Debounce.QuietMeansForwarded | crates/actor/src/debounce.rs:57-81 | at rest the last forwarded message is the last enqueued one |
| Debounce.OwnFlushIsLate | crates/actor/src/context.rs:124-145 | a flush by the message's own timer comes no earlier than `delay` |
| Debounce.HeldBack | crates/actor/src/debounce.rs:57-81 | with no flush at hand nothing is forwarded in any run before the delay is over or a newer message is handled |
| Debounce.EarlyIff | crates/actor/src/context.rs:124-145 | while its delay is not over, some run still forwards the pending message early if and only if a `Flush` is next in the mailbox, or the mailbox is empty and a timer has read its cancel flag |
| Debounce.StaleFlushIsEarly | crates/actor/src/context.rs:133-142 | for every delay and capacity, a reachable state forwards a message in the tick it was handled |
| DebounceRuns.MailInOrder | crates/actor/src/mailbox.rs:34-56 | in every run every message and every timer's `Flush` that found room is handled once, in order, or still queued |
| DebounceRuns.ForwardsFlushed | crates/actor/src/debounce.rs:57-81 | over every run exactly those messages are forwarded, in order, that were the last thing handled before a `Flush`; a message is pending while it is the last thing handled |
| DebounceRuns.TimersAre | crates/actor/src/debounce.rs:57-72 | over every run each message handled has one timer, due `delay` after the moment it was handled, and all but the newest are cancelled |
| DebounceRuns.DroppedIff | crates/actor/src/context.rs:133-142 | `dropped` says exactly that some timer found the mailbox full |
| Debounce.Actor.HandleEnqueue | crates/actor/src/debounce.rs:57-72 | refines the step: newest message pending, old timer cancelled, new one armed |
| Debounce.Actor.HandleFlush | crates/actor/src/debounce.rs:74-81 | refines the step: forwards what is pending, at most once |
| Throttle.ForwardsSpaced | crates/actor/src/debounce.rs:118-153 | consecutive forwards are at least `interval` apart and a subsequence of what was enqueued; the newest message is pending or forwarded |
| Throttle.CoolingIffOutstanding | crates/actor/src/debounce.rs:118-153 | `cooling_down` exactly when one timer or expiry is outstanding, unless an expiry was refused |
| Throttle.WedgedForever | crates/actor/src/context.rs:133-142 | after a refused expiry nothing is forwarded in any continuation |
| Throttle.ForwardsIff | crates/actor/src/debounce.rs:118-153 | some continuation forwards something if and only if no expiry has been refused; a message held back then goes out without a sender's help |
| Throttle.RefusalHappens | crates/actor/src/context.rs:133-142 | for every interval and capacity such a state is reachable, with a message stuck in it |
| ThrottleRuns.MailInOrder | crates/actor/src/mailbox.rs:34-56 | in every run every message and every expiry that found room is handled once, in order, or still queued |
| ThrottleRuns.ForwardsPassedOn | crates/actor/src/debounce.rs:118-153 | over every run a message handled outside a cool-down is forwarded at once; one handled within it is pending while it is the last thing handled and is forwarded exactly if an expiry is handled next; nothing else is forwarded |
| ThrottleRuns.TimersAre | crates/actor/src/debounce.rs:118-153 | over every run each forward starts one timer, due `interval` after it, and nothing else does |
| ThrottleRuns.DroppedIff | crates/actor/src/context.rs:133-142 | `dropped` says exactly that some timer found the mailbox full |
| Throttle.Actor.StoreTimer | crates/actor/src/context.rs:160-164 | storing a new handle drops, and so cancels, the old timer |
| Throttle.Actor.HandleEnqueue | crates/actor/src/debounce.rs:118-133 | refines the step |
| Throttle.Actor.HandleCooldownExpired | crates/actor/src/debounce.rs:135-153 | refines the step |
| FanOutRuns.StepKeeps | crates/actor/src/broker.rs:82-129 | every step of publisher, subscribers, receivers and unrelated senders keeps each subscription's record of what it was given |
| FanOutRuns.ReachableInv | crates/actor/src/stream.rs:40-69 | so in every run of a broker or a stream |
| FanOutRuns.WalkGoesOn | crates/actor/src/broker.rs:88-89 | a walk through the subscribers is never stuck |
| FanOutRuns.BrokerWindow | crates/actor/src/broker.rs:82-129 | a subscriber gets a gap-free window of what is published, from registration to unsubscription or first refused delivery, and everything while it stays |
| FanOutRuns.StreamSubsequence | crates/actor/src/stream.rs:40-69 | a consumer gets, in order, the values emitted since it subscribed except those recorded as dropped |
| FanOutRuns.FateDecided | crates/actor/src/stream.rs:45-55 | a value is delivered or dropped only in the walk, and dropped only when the open buffer was full |
| FanOutRuns.EndDecided | crates/actor/src/stream.rs:41-55 | a subscription ends only by request, or in a walk that found its channel closed or, for a broker, full |
| FanOutRuns.IdsNeverReused | crates/actor/src/broker.rs:100-103 | along any run an identifier keeps naming the subscription it was handed out for, and an ended one never changes again |
| FanOutRuns.IdsUnique | crates/actor/src/broker.rs:100-103 | list entries have distinct identifiers below the next one |
| FanOutDeliveries.PublishedIs | crates/actor/src/broker.rs:82-92 | what counts as published is what the publish actions of the run carried, in order |
| FanOutDeliveries.BoxLedger | crates/actor/src/runtime.rs:57-66 | what was taken from a mailbox, whether it is open and how much unrelated mail it was given are counted by the actions of the run |
| FanOutDeliveries.PlacedRun | crates/actor/src/broker.rs:82-92 | a published value lies in no mailbox but that of the subscription it was sent through |
| FanOutDeliveries.Delivers | crates/actor/src/stream.rs:40-69 | over every run a subscription is given, in order, exactly those of the values published since it subscribed for which its mailbox had room when offered; it is offered all of them unless it was refused or unsubscribed |
| FanOutDeliveries.BrokerDelivers | crates/actor/src/broker.rs:82-129 | a broker delivers everything published since the subscription, up to the first `Unsubscribe` if there is one, and less than that only if a walk found the mailbox full or closed |
| FanOutDeliveries.UnsubscribedForGood | crates/actor/src/broker.rs:120-129 | an unsubscription takes its subscriber off the list and nobody else, in the same order, and in no continuation does anything come through it again, into any mailbox |
| FanOutActors.WalkIsRetain | crates/actor/src/broker.rs:88-89 | under any interference a walk has decided about a prefix of the old list |
| FanOutActors.FinishedWalk | crates/actor/src/stream.rs:41-56 | a whole walk leaves what `retain` leaves of the list |
| FanOutActors.Broker.constructor | crates/actor/src/broker.rs:64-72 | no subscribers, first identifier 0 |
| FanOutActors.Broker.HandleSubscribe | crates/actor/src/broker.rs:94-118 | takes the object to the step system's world after `Subscribe` and returns the identifier handed out there |
| FanOutActors.Broker.HandleUnsubscribe | crates/actor/src/broker.rs:120-129 | the loop takes the object to the world after `Unsubscribe` |
| FanOutActors.ServeListed | crates/actor/src/broker.rs:88-89 | one turn of the walk: the mailbox itself decides whether it takes the value, and list, position and mailboxes become those of the step system |
| FanOutActors.Meanwhile | crates/actor/src/broker.rs:88-89 | any number of receives, foreign sends and closes at any mailboxes are a run of the step system that leaves the walk where it is |
| FanOutActors.WalkListed | crates/actor/src/broker.rs:88-89 | the whole walk, with anything of that kind before every send, leaves list and mailboxes as a run publish, serve, ..., serve, finish of the step system leaves them |
| FanOutActors.Broker.HandlePublish | crates/actor/src/broker.rs:82-92 | the same of the object |
| FanOutActors.StreamOutput.SubscribeWithCapacity | crates/actor/src/stream.rs:65-69 | takes the object, with its fresh channel, to the world after `SubscribeNew` |
| FanOutActors.ServeChannel | crates/actor/src/stream.rs:45-55 | one turn of the walk: a closed channel is removed, a full one stays without the value, any other takes it, as in the step system |
| FanOutActors.WalkChannels | crates/actor/src/stream.rs:41-56 | the same for the walk of a stream |
| FanOutActors.StreamOutput.Emit | crates/actor/src/stream.rs:40-57 | the same of the object |
| Retaining.Retain | crates/actor/src/broker.rs:88-89 | the walk in place computes the list of those that stay |
| Retaining.SurvivingAt | crates/actor/src/broker.rs:88-89 | what stays comes through in order: element k is preceded by those before it that stay and by nothing else |
| Pool.LoadSplits | crates/actor/src/pool.rs:35-36 | the load of a worker after any number of laps of the counter is its share of each lap |
| Pool.TurnsGoRound | crates/actor/src/pool.rs:35-36 | the first call goes to worker 0, each other one to the next worker, or to worker 0 when the counter wraps |
| Pool.LoadsBalanced | crates/actor/src/pool.rs:30-49 | loads differ by at most one before the counter wraps and by at most w + 1 after w wraps |
| Pool.FairIffDivides | crates/actor/src/pool.rs:30-49 | loads stay within one of each other for ever if and only if the pool size divides the counter's range |
| Pool.UnfairAfterWrap | crates/actor/src/pool.rs:36-36 | otherwise one call past the first wrap the first worker is two ahead of the last |
| Pool.RoundRobin.constructor | crates/actor/src/pool.rs:19-26 | the given workers, no call made, counter 0; there must be a worker, as the source asserts |
| Pool.RoundRobin.Dispatch | crates/actor/src/pool.rs:30-49 | call n goes to worker (n mod range) mod size and to no other; its mailbox takes the message exactly when it has room, and the turn is over either way |
| Pool.RoundRobin.Balanced | crates/actor/src/pool.rs:30-49 | the bound for the calls the object has given to each worker |
| JoinLinks.SanitizedIsClean | crates/client/src/listeners.rs:60-78 | a shown reason has no control characters and at most 256 characters, and exactly such reasons are shown unchanged |
| JoinLinks.DisplayableSplits | crates/client/src/listeners.rs:60-78 | cleaning a reason is cleaning its parts, in order |
| JoinLinks.SanitizedIsPrefix | crates/client/src/listeners.rs:60-78 | exactly the control characters are dropped, and what is shown is the beginning of the rest: all of it, or 256 characters |
| JoinLinks.FindLink | crates/client/src/listeners.rs:807-808 | the first link with that identifier, or none |
| JoinLinks.Client.constructor | crates/client/src/listeners.rs:108-115 | hydrated links, nothing pending |
| JoinLinks.Client.SendJoinRequest | crates/client/src/joining.rs:228-244 | records the inviter and signs a request naming itself |
| JoinLinks.Client.CreateJoinLink | crates/client/src/joining.rs:246-308 | takes the client to the peer of the network after `Create` |
| JoinLinks.RetainOthers | crates/client/src/joining.rs:314-328 | the loop keeps exactly the links with another identifier, in order |
| JoinLinks.Client.DeleteJoinLink | crates/client/src/joining.rs:314-328 | the loop takes the client to the peer of the network after `Delete`: every link with that identifier is gone and no other |
| JoinLinks.Client.HandleJoinRequest | crates/client/src/listeners.rs:767-982 | charges the first matching valid link and answers the signer, denies an unusable one with its reason, ignores the rest |
| JoinLinks.Client.HandleReply | crates/client/src/listeners.rs:983-1075 | takes out the pending entry; shows the outcome only when the recorded inviter signed |
| JoinLinks.Client.Reinsert | crates/client/src/listeners.rs:1013-1020 | puts a rejected entry back, over whatever is there |
| JoinNetwork.StepKeeps | crates/client/src/listeners.rs:767-1075 | every client operation, delivery and forgery keeps the counting invariants |
| JoinNetwork.ReachableInv | crates/client/src/ops.rs:107-120 | so in every run |
| JoinNetwork.AdmissionsCapped | crates/client/src/listeners.rs:767-1030 | distinct peers ever shown an admission by an honest inviter's link <= targets it answered <= responses <= `used` <= `max_uses`, also after deletion |
| JoinNetwork.OnlyAskersAnswered | crates/client/src/listeners.rs:767-784 | every answered peer signed a request for that link itself |
| JoinNetwork.JoinerAccounting | crates/client/src/listeners.rs:983-1075 | for every client, link and set of inviters: outcomes shown from them plus attempts at them still open never exceed requests made to them |
| JoinNetwork.OutcomesAuthentic | crates/client/src/listeners.rs:983-1075 | every outcome shown was signed by an inviter that client had asked for that link: an admission word for word, a denial up to the cleaning of its reason |
| JoinNetwork.SpoofLeavesNoTrace | crates/client/src/listeners.rs:983-1075 | a reply with a wrong signature, whatever happens until its entry is put back, leaves the whole world as if it had never come if and only if the last request made meanwhile for that link names the inviter already recorded |
| JoinNetwork.AttemptLost | crates/client/src/listeners.rs:983-1030 | a reachable world in which putting the entry back loses an attempt made in between |
| JoinRuns.SentIff | crates/client/src/listeners.rs:767-982 | over every run an honest client has sent a response exactly if it was delivered a request its signer made for itself, the first link with that identifier was switched on, had a use left and had not run out, and an invite was made; a denial exactly if such a link failed one of these, `link_disabled` exactly when switched off; a request exactly if its user made it |
| JoinRuns.LinkLedger | crates/client/src/ops.rs:107-120 | from its creation on, through any run that does not delete it, a link stays switched on with the same limits, and `used` is the number of requests delivered for it in time, up to `max_uses` |
| JoinRuns.DeletedForGood | crates/client/src/joining.rs:314-328 | a deleted link is gone in every continuation, and no other link goes with it |
| JoinRuns.StepRecords | crates/client/src/listeners.rs:767-1075 | requests, responses and outcomes are recorded in the step in which they happen, and nowhere else |
| JoinRuns.FirstReplyDecides | crates/client/src/listeners.rs:983-1075 | whatever else happens in between, the first reply about an attempt that reaches the client closes it, and is shown, word for word or cleaned, exactly if the inviter asked has signed it |
| Presence.StepKeeps | crates/client/src/connect.rs:58-70 | connecting, disconnecting and both halves of a tick keep clock and stamps equal to the tick history, up to the clock's ceiling |
| Presence.ReachableInv | crates/client/src/connect.rs:58-70 | in every run `last_seen` is the last tick that stamped the peer |
| Presence.TicksSee | crates/client/src/connect.rs:58-70 | over every run tick k stamps exactly the peers whose last connection event before that tick read the list was a connect |
| Presence.UnreachableShown | crates/client/src/presence.rs:149-179 | an unreachable peer is gone exactly from `gone_ticks` ticks of silence on, otherwise queued or away |
| Presence.ReachableShown | crates/client/src/presence.rs:149-179 | a reachable peer is away exactly after `idle_ticks` of silence and never queued or gone |
| Presence.FreshAfterTick | crates/client/src/connect.rs:58-70 | right after a tick no peer it saw that is still connected shows as away, queued or gone |
| Presence.LateArrivalIsAway | crates/client/src/connect.rs:63-70 | a connected peer the tick did not see goes on ageing |
| Presence.LateArrivalHappens | crates/client/src/connect.rs:63-70 | for every `idle_ticks` from 1 to the clock's ceiling, a reachable tick leaves a connected peer shown as away |
| Presence.AbsentKeeps | crates/client/src/connect.rs:58-70 | over any run without a connection of that peer, its last tick stays and the tick count grows by the ticks |
| Presence.CountsDown | crates/client/src/views.rs:965-976 | over any such run the state shown is that of its silence: gone with the tick that completes `gone_ticks`, and from then on |
| Presence.FrozenAtCeiling | crates/client/src/connect.rs:65-65 | a peer stamped at the clock's ceiling never becomes gone |
| Presence.Meta.Tick | crates/client/src/connect.rs:64-70 | advances the clock with saturation and stamps exactly the peers on the list, with the clock's new value |
| Base64.LetterInverse | crates/client/src/base64.rs:29-38 | the alphabet and `char_val` are inverse to each other |
| Base64.SextetsOf | crates/client/src/base64.rs:8-23 | shifts and masks of a chunk are its 6-bit groups |
| Base64.OctetsOf | crates/client/src/base64.rs:44-58 | shifts and masks of a quad are its bytes |
| Base64.Encode | crates/client/src/base64.rs:4-26 | the loop computes the chunk-by-chunk encoding |
| Base64.Decode | crates/client/src/base64.rs:28-61 | the loop computes the quad-by-quad decoding, or none |
| Base64.ChunkRoundTrip | crates/client/src/base64.rs:4-61 | decoding the encoding of one to three bytes gives them back |
| Base64.QuadCanonical | crates/client/src/base64.rs:28-61 | a decodable quad is the encoding of its bytes exactly when its padding is at the end and its unused bits are zero |
| Base64.EncodedLength | crates/client/src/base64.rs:4-26 | the length is 4 * ceil(n / 3) |
| Base64.RoundTrip | crates/client/src/base64.rs:4-61 | decode(encode(x)) is x exactly for non-empty x |
| Base64.EncodeInjective | crates/client/src/base64.rs:4-26 | different inputs, the empty one included, have different encodings |
| Base64.EncodedIsCanonical | crates/client/src/base64.rs:4-26 | what `encode` produces is canonical |
| Base64.CanonicalIff | crates/client/src/base64.rs:4-61 | the canonical texts are exactly the encodings of non-empty inputs, and `decode` accepts them all |
| Base64.DecodeReencodes | crates/client/src/base64.rs:28-61 | encode(decode(s)) is s if and only if s is canonical in the sense of sections 3.2 and 3.5 of RFC 4648 |
| Base64.EncodedAt | crates/client/src/base64.rs:7-24 | the k-th four characters are the letters of the k-th three bytes, six bits at a time, most significant first, padded at the end |
| Base64.Examples | crates/client/src/base64.rs:4-26 | examples of section 10 of RFC 4648, and one with the last two letters of the alphabet |
| Base64.AcceptsMore | crates/client/src/base64.rs:28-61 | padding in the middle, stray bits and an ignored fourth character are all accepted |
| Mentions.FindPeerFirst | crates/client/src/mentions.rs:205-247 | a search finds the first peer that fits, or none fits |
| Mentions.ResolvesIff | crates/client/src/mentions.rs:205-247 | a handle resolves exactly when it reads `you` or fits some peer by handle, first segment or display name |
| Mentions.ResolvesTo | crates/client/src/mentions.rs:205-247 | who is found: the local peer for `you`, else the first peer with that handle, else the first with it as first segment, else the first with that display name |
| Mentions.StripKeepsOrder | crates/client/src/mentions.rs:196-200 | the three zero-width characters are removed and nothing else, in order |
| Mentions.FirstSegmentIs | crates/client/src/mentions.rs:226-234 | the first segment of a handle is what comes before its first dot |
| Mentions.TurnAt | crates/client/src/mentions.rs:79-119 | the next match is the leftmost, its handle maximal, and its pill stands for exactly that part of the body |
| Mentions.Emit | crates/client/src/mentions.rs:119-138 | flushes the text before a match and appends its pill |
| Mentions.ParseMatches | crates/client/src/mentions.rs:104-150 | the cursor loop computes the recursive segmentation |
| Mentions.ParseMentions | crates/client/src/mentions.rs:104-155 | the same with the single empty text for an empty body |
| Mentions.Lossless | crates/client/src/mentions.rs:104-155 | texts and `@` + full labels, concatenated, are the body |
| Mentions.TextsMaximal | crates/client/src/mentions.rs:104-155 | no two texts adjacent, none empty except for the empty body |
| Mentions.NoMatchInside | crates/client/src/mentions.rs:79-85 | no match starts inside a handle |
| Mentions.MentionsComplete | crates/client/src/mentions.rs:104-155 | position by position, a mention starts exactly where the pattern matches and its longest handle resolves, and it is the pill for it |
| Mentions.SelfMentions | crates/client/src/mentions.rs:117-137 | self mention exactly when the peer is the local one, exactly when the label reads `you` |
| Mentions.MentionsShow | crates/client/src/mentions.rs:87-138 | every mention's handle resolves to its peer, and it shows `you` or the handle, whole up to 32 characters and otherwise 28 and an ellipsis |
| Suggestions.LexTotal | crates/client/src/mentions.rs:293-293 | the handle order is total and antisymmetric |
| Suggestions.LexLeqIff | crates/client/src/mentions.rs:293-293 | a prefix comes first, otherwise the first character that differs decides, upwards |
| Suggestions.LeadingIs | crates/client/src/mentions.rs:307-310 | the first segment of a name is its first word between whitespace |
| Suggestions.TierIff | crates/client/src/mentions.rs:312-326 | the tier says exactly whether handle, else first segment, else display name starts with the query, or none of them |
| Suggestions.BestIsTightest | crates/client/src/mentions.rs:302-338 | the map holds exactly the peers with a match, each with the first of its tightest matches |
| Suggestions.RankedIsTop | crates/client/src/mentions.rs:340-344 | the first eight of the (tier, handle) order: no peer repeated, no omitted match ranking strictly above a returned one, as many as there are up to eight |
| Suggestions.HashOrderIrrelevantIff | crates/client/src/mentions.rs:340-344 | the result is the same for every hash order if and only if eight entries rank strictly above any two that share tier and handle |
| Suggestions.AnswerDeterminedIff | crates/client/src/mentions.rs:300-344 | a query has one possible answer, as a list of candidates, if and only if its tightest matches meet that condition |
| Suggestions.TiesShow | crates/client/src/mentions.rs:340-344 | any other tie makes two hash orders give different results |
| Suggestions.DistinctHandlesSuffice | crates/client/src/mentions.rs:340-344 | with pairwise distinct handles the result does not depend on hash order |
| Suggestions.AlphabeticalIsTop | crates/client/src/mentions.rs:288-298 | with no query: handle order, no peer twice, and a missing peer was crowded out by eight that do not come after it |
| Suggestions.CollectBest | crates/client/src/mentions.rs:300-338 | the loop computes the map |
| Suggestions.Drain | crates/client/src/mentions.rs:341-341 | some order that yields every key once |
| Suggestions.KeepFirst | crates/client/src/mentions.rs:294-295 | `retain` with a `seen` set keeps the first candidate of each peer |
| Suggestions.Filter | crates/client/src/mentions.rs:285-345 | the result is one of these two rankings |
| Sorting.SortSorts | crates/client/src/mentions.rs:342-342 | sorted, and a permutation |
| Sorting.SortStable | crates/client/src/mentions.rs:293-293 | equal elements keep their order |
| Sorting.SortedUnique | crates/client/src/mentions.rs:342-342 | elements the order tells apart can be sorted in one way only |
| Emoji.FindEnd | crates/client/src/emoji.rs:63-73 | the inner scan finds the closing colon exactly when no whitespace comes first |
| Emoji.MatchAt | crates/client/src/emoji.rs:57-88 | finds the known code at a position if there is one, with its replacement and its closing colon |
| Emoji.ExpandShortcodes | crates/client/src/emoji.rs:51-99 | the index scanner computes the leftmost recursive expansion |
| Emoji.ExpandsCode | crates/client/src/emoji.rs:75-88 | a known code at the head is replaced, whatever follows |
| Emoji.OthersStay | crates/client/src/emoji.rs:90-96 | where no known code begins, the character stands for itself and the scan goes on behind it |
| Emoji.CustomExpands | crates/client/src/emoji.rs:36-42 | a custom entry is used whenever there is one, whatever the built-in table says |
| Emoji.BuiltinExpands | crates/client/src/emoji.rs:36-42 | without a custom entry the built-in one is used |
| Emoji.CodeFreeUnchanged | crates/client/src/emoji.rs:51-99 | text in which no known code starts is unchanged |
| Emoji.UnknownUnchanged | crates/client/src/emoji.rs:51-99 | expansion is the identity when no lookup succeeds |
| Emoji.ExpandSplits | crates/client/src/emoji.rs:63-73 | expand(a w b) = expand(a) w expand(b) for any whitespace w |
| Emoji.MalformedNeverExpands | crates/client/src/emoji.rs:21-24 | an entry whose name is empty or holds a colon or whitespace changes no expansion |
| Emoji.Registry.ExpandText | crates/client/src/emoji.rs:36-47 | expansion with custom entries before built-in ones |

## Left out

- Networking, gossip, relays, signatures, invite encryption and wire packing: I/O and cryptography; the network is an adversarial bag of signed messages.
- The event DAG, sync, storage and persistence, including the `GrantPermission` event after a join and the hydration of links after a restart.
- The WASM channel, panics, relaxed memory, overflow of `Duration` arithmetic, handlers that do not terminate.
- `Select`, `FsmActor`, `run_interval`, `add_stream`: the other actor kinds and sources of messages of the runtime; an actor here gets its messages from addresses and `run_after` only.
- Token scopes, the queue view and typing indicators: views the client derives for its screens.
- `mentions_me`, `extract_mention_peers`, `derive_self_presence`: the questions whether the local peer is mentioned, who is, and how the local peer shows to itself.
- The setters `add` and `remove` of the emoji registry, `Register` of the system actor and `run_after` are in the model without a statement of their own.
- Shutdown.ShutdownWaits: supervised actors are not registered with the system in the source and so are not waited for.
- Supervisor.SupervisorLoop: does not model wall-clock time, only the list of sleeps, and takes the accepted messages as one sequence.
- FanOutActors.Broker.HandleSubscribe: identifiers are unbounded, where the source counts in a `u64`.
- FanOutActors.StreamOutput.SubscribeWithCapacity: capacity 0 is excluded, for which the channel constructor panics.
- JoinLinks.Client.CreateJoinLink: does not model the permission check, the token or persistence; identifiers are fresh UUIDs.
- JoinLinks.Client.HandleJoinRequest: charges and answers in one step where the source awaits in between; a message on the network may be delayed for any time, so this loses no behaviour.
- JoinNetwork.AdmissionsCapped: is about inviters whose key signs only what their client sends; nobody can bound what a forger shows.
- JoinRuns.FirstReplyDecides: leaves out an attempt made while an earlier one at the same link is just being put back, which `AttemptLost` is about.
- Mentions.SelfMentions: assumes that lower-casing `you` gives `you`, since lower-casing is a parameter.
- Emoji.ExpandShortcodes: counts characters where the source counts bytes.
- Presence.Meta.Tick: does not model the sweep of typing indicators in the same tick.
