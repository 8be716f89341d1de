/** The crate's `Error`: invalid input and invalid operations carry the
    check that failed instead of the message text. */
module Errors {
  datatype Problem =
    | UnsupportedBaudRate
    | CommandTooLong
    | StartNotBelowStop
    | StartOutOfRange
    | StopOutOfRange
    | SpanOutOfRange
    | MinAmpNotBelowMax
    | MinAmpOutOfRange
    | MaxAmpOutOfRange
    | BufferTooSmall
    | NoSweepMeasured
    | NotPlusModel
    | MainAlreadyActive
    | NoExpansionModule
    | ExpansionAlreadyActive

  datatype Error =
    | InvalidInput(problem: Problem)
    | InvalidOperation(problem: Problem)
    | TimedOut
    | Io
}
