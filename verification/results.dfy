/** Optional values and success/failure results, used for the nullable
    cells of a spreadsheet row and for the errors the converter raises. */
module Results {

  /** A value that may be missing (Python's `None`, pandas' `NA`). */
  datatype Option<+T> = None | Some(value: T)

  /** Either a computed value or the error that was raised instead. */
  datatype Result<+T, +E> = Success(value: T) | Failure(error: E)

  /** Applies `f` to a present value and leaves a missing one missing. */
  function MapOption<T, U>(o: Option<T>, f: T -> U): (r: Option<U>)
    ensures r.Some? <==> o.Some?
    ensures o.Some? ==> r.value == f(o.value)
  {
    match o
    case None => None
    case Some(v) => Some(f(v))
  }
}
