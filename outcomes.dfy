/** Optional values, results, and the ways one basin's bias correction can end without output. */
module Outcomes {

  /** A value that may be absent: a missing (NaN) daily value, or a file that could not be read. */
  datatype Option<+T> = None | Some(value: T)

  /** The outcome of a step that can fail with an error. */
  datatype Result<+T, +E> = Success(value: T) | Failure(error: E)

  /**
   * What stops the correction of one basin. Each is an exception the script does not catch,
   * so it also ends the loop over the remaining basins.
   */
  datatype Error =
    | DateOutOfRange          // `define_dates` raised: strftime before 1900, or a year past 9999
    | ObservationUnavailable  // the observation archive could not be read over a window (uncaught)
    | HindcastNeverOpened     // no hindcast file opened, so the final `close` names an unbound variable
    | HindcastUnavailable     // the hindcast climatology collapsed to NaN, so `len` of it raises
    | MethodTableTooShort     // the basin's method table has no entry for the run month
    | UndefinedName           // the pass-through branch copies an undefined name
    | EmptyReference          // quantile mapping over an empty hindcast climatology
    | RankOutOfRange          // the chosen rank has no observation at that position
}
