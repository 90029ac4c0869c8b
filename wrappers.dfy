/** Failure-carrying values shared by the whole model. */
module Wrappers {

  /** A Python value that may be `None`. */
  datatype Option<+T> = None | Some(value: T) {
    function GetOr(default: T): T {
      match this
      case Some(v) => v
      case None => default
    }
  }

  /** The Python exceptions that escape a handler. */
  datatype Exception =
    | IndexError       // indexing past the end of `str.split` output
    | ValueError       // `int()` of a string that is not an integer
    | AttributeError   // `.startswith` on an image url that is not a string
    | ValidationError  // a Telegram object built from `None` (a button label, a message text)
    | KeyError         // a state name missing from the echo bot's dispatch table
    | TelegramError    // a Bot API request that failed

  /** Either a value or the exception raised while computing it. */
  datatype Result<+T> = Ok(value: T) | Raise(error: Exception)
}
