/** The daemon's bookkeeping for interactive sign-in. */
module SignInGate {
  import opened Common

  type AttemptId = nat

  /** `signIn` is the handle of the attempt last started, until it completes or
      a sign-out takes it; `cancelling` is set while a sign-out waits for it. */
  datatype Gate = Gate(generation: nat, signIn: Option<AttemptId>, cancelling: bool)

  predicate Busy(g: Gate, finished: set<AttemptId>) {
    g.cancelling || (g.signIn.Some? && g.signIn.value !in finished)
  }

  /** A new attempt; its generation is the gate's new one. */
  function Begin(g: Gate, a: AttemptId): Gate {
    Gate(g.generation + 1, Some(a), g.cancelling)
  }

  /** A sign-out takes the attempt in order to abort it. While another sign-out
      is still waiting this does nothing, not even to the generation. */
  function Cancel(g: Gate): (Gate, Option<AttemptId>) {
    if g.cancelling then (g, None)
    else (Gate(g.generation + 1, None, g.signIn.Some?), g.signIn)
  }

  /** The end of that wait; an attempt that did not stop in time is put back. */
  function FinishCancel(g: Gate, unfinished: Option<AttemptId>): Gate {
    Gate(g.generation, if unfinished.Some? then unfinished else g.signIn, false)
  }

  /** The attempt with this generation claims the right to complete. */
  function Claim(g: Gate, generation: nat): Gate {
    if g.generation == generation then g.(signIn := None) else g
  }
}
