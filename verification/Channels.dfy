/**
 * Go channels as values.
 *
 * A channel is its buffered values, its capacity and whether it was closed.  The operations
 * are total: one that would panic (a send on, or a close of, a closed channel) or one that
 * would park the sender (a send into a full buffer) sets `faulted`, and nothing resets it.
 * A proof that a channel is never faulted therefore says that no such operation happens.
 */
module Channels {
  datatype Chan<T> = Chan(buf: seq<T>, cap: nat, closed: bool, faulted: bool)

  function Make<T>(cap: nat): Chan<T> {
    Chan([], cap, false, false)
  }

  function Send<T>(c: Chan<T>, x: T): Chan<T> {
    if c.closed || |c.buf| >= c.cap then c.(faulted := true) else c.(buf := c.buf + [x])
  }

  function Close<T>(c: Chan<T>): Chan<T> {
    if c.closed then c.(faulted := true) else c.(closed := true)
  }

  /** The channel after its oldest buffered value was received. */
  function Received<T>(c: Chan<T>): Chan<T>
    requires c.buf != []
  {
    c.(buf := c.buf[1..])
  }

  /** What every channel of the model must satisfy. */
  predicate Sound<T>(c: Chan<T>) {
    !c.faulted && |c.buf| <= c.cap
  }
}
