/** Ruby exceptions as values: the class name and the message. */
module Exceptions {

  datatype Exception = Exception(className: string, message: string)

  /** What a rescue clause records: the class name, a colon and the message. */
  function Describe(e: Exception): string
  {
    e.className + ": " + e.message
  }

  /** `raise "..."` raises a RuntimeError. */
  function RuntimeError(message: string): Exception
  {
    Exception("RuntimeError", message)
  }

  /** Calling a method the receiver does not have. */
  function NoMethodError(message: string): Exception
  {
    Exception("NoMethodError", message)
  }

  /** `exit 1` raises SystemExit, whose message is "exit". */
  const SystemExit := Exception("SystemExit", "exit")
}
