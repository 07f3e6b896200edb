/** The JavaScript `null`/`undefined` values the core passes around, as an Option. */
module Optional {

  datatype Option<+T> = None | Some(value: T)

  /** `o ?? fallback` for a nullable value whose fallback is a plain value. */
  function GetOr<T>(o: Option<T>, fallback: T): (r: T)
    ensures o.Some? ==> r == o.value
    ensures o.None? ==> r == fallback
  {
    match o
    case Some(v) => v
    case None => fallback
  }

  /** `o ?? fallback` where the fallback may itself be null. */
  function OrElse<T>(o: Option<T>, fallback: Option<T>): (r: Option<T>)
    ensures o.Some? ==> r == o
    ensures o.None? ==> r == fallback
  {
    if o.Some? then o else fallback
  }
}
