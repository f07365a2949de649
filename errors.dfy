/**
 The two error types the launcher distinguishes: an `anyhow::Error`, reduced
 to the messages of its cause chain, and the integrator's own error, whose
 step-limit variant is recognised by shape.
 */
module Errors {
  import opened Text

  /**
   An error with its chain of causes: its own message first, then the
   message of each source, outermost first (what `Error::chain` walks).
   */
  datatype Failure = Failure(message: Bytes, sources: seq<Bytes>) {

    function Chain(): seq<Bytes>
    {
      [message] + sources
    }
  }

  /** `anyhow!(msg)` and `ensure!(cond, msg)`: an error with no cause beneath it. */
  function Message(msg: Bytes): (f: Failure)
    ensures f.Chain() == [msg]
  {
    Failure(msg, [])
  }

  /** `.context(msg)`: `msg` becomes the outermost message, the old chain follows it. */
  function Context(msg: Bytes, inner: Failure): (f: Failure)
    ensures f.Chain() == [msg] + inner.Chain()
  {
    Failure(msg, inner.Chain())
  }

  /**
   The integrator's error: it ran out of steps at time `x` after `nStep`
   steps, or it failed in some other way, with that failure's chain.
   */
  datatype IntegratorError =
    | StepLimitReached(x: real, nStep: nat)
    | Other(failure: Failure)
}
