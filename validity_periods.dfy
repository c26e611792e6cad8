/**
 * Bounds on the minutes of an SMS validity period. The source imports them
 * from a `ValidityPeriods` constants class; their values are the ones the
 * gateway documents for response code 34 (lib/Constant/ResponseCodes.php:123).
 */
module ValidityPeriods {

  /** Shortest validity period the gateway accepts, in minutes. */
  const MIN: int := 5

  /** Longest validity period the gateway accepts, in minutes (two days). */
  const MAX: int := 2880
}
