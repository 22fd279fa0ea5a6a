/** The decision model: a shot on a target error, and the shooter that fires it. */
module ErrorShooting {
  import opened Errors

  /** One decision per handled error: `Miss` retries the source, `Hit(e)`
      throws `e` on to the next handler, `Sink` recovers gracefully. */
  datatype Shot = Miss | Hit(error: Error) | Sink

  /** What the single-valued reply of a shooter delivers: a shot, or a
      failure of the shooter itself. */
  datatype Reply = Answer(shot: Shot) | Raise(failure: Error)

  /** A shooter: given the target error and the attempt number, one reply. */
  type Shooter = (Error, nat) -> Reply

  /** An `ErrorShooting` object: given the target error and the attempt
      number, the shot it hands to its completion handler. */
  type CallbackShooter = (Error, nat) -> Shot

  /** Adapts a callback-style shooter into a shooter: every call completes
      with exactly the one shot the object passed to its completion, and
      the adapted shooter never fails. */
  function FromCallback(shoot: CallbackShooter): (s: Shooter)
    ensures forall e: Error, a: nat :: s(e, a).Answer? && s(e, a).shot == shoot(e, a)
  {
    (e: Error, a: nat) => Answer(shoot(e, a))
  }
}
