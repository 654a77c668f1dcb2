/** Definitions shared by the recycling-claim registry and the waste-volume ledger. */
module Common {

  /** An opaque, comparable caller identity (a ledger principal). */
  type Principal = string

  /** What a state-changing contract call answers: `ok true` or `err <code>`. */
  datatype Response = Ok | Err(code: nat)

  /** A lookup that may miss (the source answers `null` on a miss). */
  datatype Option<T> = None | Some(value: T)

  /** One whole, in basis points (1/10000). */
  const BASIS: nat := 10000

  /** `part` as a fraction of `whole`, in basis points, truncated; 0 when `whole` is 0. */
  function BasisPoints(part: nat, whole: nat): (bp: nat)
    ensures whole == 0 ==> bp == 0
    // bp is the floor of part * BASIS / whole
    ensures whole > 0 ==> bp * whole <= part * BASIS < (bp + 1) * whole
    ensures part <= whole ==> bp <= BASIS
  {
    if whole == 0 then 0 else part * BASIS / whole
  }
}
