/** Values that come back from the chain library and reach the catch blocks of the orchestrators. */
module Outcomes {

  /** An optional value; JavaScript's `undefined` is `None`. */
  datatype Option<+T> = None | Some(value: T)

  /** A value a library call throws: an `Error` instance with its message, or any other value. */
  datatype Thrown = ErrorInstance(message: string) | NonErrorValue

  /** The outcome of one awaited library call: the value it resolved to, or what it threw. */
  datatype Outcome<+T> = Ok(value: T) | Threw(thrown: Thrown)

  /** The text every catch block reports: the message of an `Error`, otherwise the block's fallback. */
  function ErrorText(thrown: Thrown, fallback: string): string
  {
    match thrown
    case ErrorInstance(message) => message
    case NonErrorValue => fallback
  }

  /** `process.argv[2] || fallback`: an absent or empty command-line argument selects the fallback. */
  function ArgOr(arg: Option<string>, fallback: string): string
  {
    if arg == None || arg.value == "" then fallback else arg.value
  }
}
