/** What the rest of the program sees of a provider: server states and classified errors. */
module Providers {

  datatype ServerState =
    | Pending | Running | Stopping | Stopped | Rebooting | Suspended | ErrorState | Unknown

  /** A `providers.Error`, or any other error (`classified` is false), which is never retried. */
  datatype Error = Error(classified: bool, code: string, message: string, retryable: bool)

  /** The error's third result in `operationError`, and the worker's RetryableError test. */
  predicate Retryable(error: Error) {
    error.classified && error.retryable
  }

  /** An error of the program itself. */
  const LOCAL := Error(false, "", "", false)

  datatype Capabilities = Capabilities(canStart: bool, canStop: bool, canReboot: bool)
}
