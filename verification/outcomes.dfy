/** What the engine's operations return: a value or nothing, and the errors they throw. */
module Outcomes {

  datatype Option<+T> = None | Some(value: T)

  /** The errors the engine throws: a tick or start request before initialisation, a failed
      oracle setup, and the TypeError of reading candles or ticks that were never assigned. */
  datatype Failure = NotInitialized | OracleSetupFailure | Unassigned

  /** The result of a query that can throw. */
  datatype Result<+T> = Ok(value: T) | Err(error: Failure)

  /** The result of an operation that returns nothing but can throw. */
  datatype Outcome = Done | Failed(error: Failure)
}
