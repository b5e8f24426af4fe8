/** A native bounded channel (crates/actor/src/runtime.rs) as an object its senders and its receiver share. */
module Channels {

  class Mailbox<M> {
    const capacity: nat
    var queue: seq<M>
    var open: bool

    constructor (capacity: nat)
      ensures this.capacity == capacity && queue == [] && open
    {
      this.capacity := capacity;
      queue, open := [], true;
    }

    predicate HasRoom()
      reads this
    {
      open && |queue| < capacity
    }

    /** Refused when the channel is full or closed; otherwise appended. */
    method TrySend(m: M) returns (ok: bool)
      modifies this
      ensures ok == old(HasRoom()) && open == old(open)
      ensures queue == if ok then old(queue) + [m] else old(queue)
    {
      ok := HasRoom();
      if ok {
        queue := queue + [m];
      }
    }

    method Receive() returns (m: M)
      requires queue != []
      modifies this
      ensures m == old(queue)[0] && queue == old(queue)[1..] && open == old(open)
    {
      m, queue := queue[0], queue[1..];
    }

    /** The receiver is dropped. */
    method Close()
      modifies this
      ensures !open && queue == old(queue)
    {
      open := false;
    }
  }
}
