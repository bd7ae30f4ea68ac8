/** The error kinds the driver reports, one constructor per distinct failure. */
module Errors {

  /** The three sweep bounds that SetSweepConfig checks, in the order it checks them. */
  datatype Bound = StartBelowMin | StopAboveMax | TooManyPoints

  /** The two queries of RunSweep whose failure aborts the sweep. */
  datatype Query = FrequencyQuery | S11Query

  datatype Error =
    | NotOpen                           // no port handle: "device not open"
    | Timeout                           // the port's read error "timeout"
    | OutOfRange(bound: Bound)          // a sweep parameter violates the active record
    | CommandFailed(cause: Error)       // every sweep command form failed; wraps the first error
    | QueryFailed(query: Query, cause: Error)  // "failed to get frequencies / S11 data"
    | NoData                            // "no valid measurement data received"
    | Unrecognized(response: string)    // DetectVersion matched no rule
}
