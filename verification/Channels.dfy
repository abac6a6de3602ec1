/** Go channels as values, with the outcomes the language gives them.

    A send to a closed channel and a second close are panics, which is what several
    theorems of this project rule out, so they are outcomes here and not preconditions. */
module Channels {

  datatype Option<+T> = None | Some(value: T)

  /** A buffered channel. With `cap == 0` it can only be closed: the completion signals. */
  datatype Chan<T> = Chan(cap: nat, buf: seq<T>, closed: bool)

  datatype SendOutcome<T> = Sent(ch: Chan<T>) | SendBlocks | SendPanics

  datatype CloseOutcome<T> = Closed(ch: Chan<T>) | ClosePanics

  /** `Zero` is what a receive on a closed, drained channel yields. */
  datatype ReceiveOutcome<T> = Got(value: T, ch: Chan<T>) | Zero | ReceiveBlocks

  function Make<T>(cap: nat): Chan<T> {
    Chan(cap, [], false)
  }

  function Send<T>(ch: Chan<T>, v: T): SendOutcome<T> {
    if ch.closed then SendPanics
    else if |ch.buf| < ch.cap then Sent(ch.(buf := ch.buf + [v]))
    else SendBlocks
  }

  function Close<T>(ch: Chan<T>): CloseOutcome<T> {
    if ch.closed then ClosePanics else Closed(ch.(closed := true))
  }

  function Receive<T>(ch: Chan<T>): ReceiveOutcome<T> {
    if ch.buf != [] then Got(ch.buf[0], ch.(buf := ch.buf[1..]))
    else if ch.closed then Zero
    else ReceiveBlocks
  }
}
