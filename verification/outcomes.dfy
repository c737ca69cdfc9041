/** Failure outcomes. Every failure in the library is a panic; the model returns it as a value. */
module Outcomes {

  /** Why a call panics. */
  datatype Error =
    | InvalidAction   // Blackjack step with an action other than hit (0) or stick (1) on the player's turn
    | NotImplemented  // a state-value operation that a selector or environment does not provide
    | EmptyRange      // a uniform index drawn from an empty range of actions

  /** The value of a call that either returns normally or panics. */
  datatype Result<T> = Ok(value: T) | Err(error: Error)
}
