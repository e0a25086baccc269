/** Exceptions the backends' model code can raise, in the three backend
    languages, and the outcome of a call that may raise one. A raised
    exception ends the backend's command loop, so it is a result of its
    own rather than an error status. */
module Exceptions {
  datatype Exception =
    // .NET
    | KeyNotFoundException | ArgumentException | InvalidCastException
    | EndOfStreamException | ArgumentOutOfRangeException | OverflowException
    | FormatException | NotImplementedException | NullReferenceException
    | ArgumentNullException | IOException
    // Java
    | NullPointerException | ArithmeticException | ClassCastException
    | IllegalArgumentException | NumberFormatException | IndexOutOfBoundsException
    // Python
    | KeyError | AttributeError | TypeError | RuntimeError | NotImplementedError
    | ValueError | NameError

  /** A call either returns a value or raises. */
  datatype Outcome<+T> = Returned(value: T) | Threw(exception: Exception)
}
