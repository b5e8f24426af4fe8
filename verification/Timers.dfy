/**
 One-shot timers (`Context::run_after`, `TimerHandle`, crates/actor/src/context.rs).  A timer task sleeps, then
 reads its cancel flag, then sends: a cancel that comes after the read is too late.
 */
module Timers {
  datatype Stage = Sleeping | Passed | Gone

  datatype Timer = Timer(due: nat, cancelled: bool, stage: Stage)

  /** The timer will still send its message. */
  predicate Alive(t: Timer) {
    t.stage.Passed? || (t.stage.Sleeping? && !t.cancelled)
  }

  function Woken(t: Timer): Timer {
    t.(stage := if t.cancelled then Gone else Passed)
  }

  function Cancelled(timers: seq<Timer>, id: nat): seq<Timer> {
    if id < |timers| then timers[id := timers[id].(cancelled := true)] else timers
  }
}
