/**
  The bot's exception taxonomy as a result type. `NonCritical` and
  `Critical` stand for the bot's own exception classes (`NonCritical`,
  `CriticalErrors`); `Uncaught` is any built-in exception the main loop does
  not catch. The unused `KeyNotFoundError` class never arises.
 */
module Errors {
  import opened Py

  datatype Outcome<T> =
    | Ok(value: T)
    | NonCritical(msg: string)
    | Critical(msg: string)
    | Uncaught(error: PyError)
  {
    /** Re-raises a failure unchanged, at another value type. */
    function Propagate<U>(): Outcome<U>
      requires !Ok?
    {
      match this
      case NonCritical(m) => NonCritical(m)
      case Critical(m) => Critical(m)
      case Uncaught(e) => Uncaught(e)
    }
  }
}
