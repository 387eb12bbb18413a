/** Option and Result, and the failures the billing engine can raise. */
module Wrappers {

  datatype Option<+T> = None | Some(value: T)

  datatype Result<+R, +E> = Success(value: R) | Failure(error: E) {
    predicate IsFailure() { Failure? }

    function PropagateFailure<U>(): Result<U, E>
      requires Failure?
    {
      Failure(error)
    }

    function Extract(): R
      requires Success?
    {
      value
    }
  }

  /** The exceptions the source raises on the paths that are modelled. */
  datatype Error =
    | UnsupportedRegion(region: string)     // convert_to_jakarta_time_iso, any region but "jkt"
    | BadTimestamp(text: string)            // strptime / fromisoformat reject the text
    | BadDuration(text: string)             // parse_time_duration: wrong field count or a non-integer field
    | MissingConfig                         // attribute read on the None config of an unknown client
    | MissingCarrierTable                   // INTERNATIONAL_RATES["Atlasat"] absent
    | MissingRate                           // a None rate multiplied by the minutes or seconds
    | ConfigListNotFound                    // no `CONFIG = [` line in the configuration file
}
