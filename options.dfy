/** Optional values: the model of TypeScript's `T | null` / `T | undefined`. */
module Options {

  datatype Option<+T> = None | Some(value: T)

  /** `x ?? 0` on a nullable number: the number when present, 0 otherwise. */
  function OrZero(o: Option<real>): (r: real)
    ensures o.Some? ==> r == o.value
    ensures o.None? ==> r == 0.0
  {
    match o
    case Some(v) => v
    case None => 0.0
  }
}
