/** Swift's `Optional` and the effect of a `throws` function, as values. */
module Wrappers {

  /** `Optional<Wrapped>`: `.none` is Swift's `nil`, `.some(v)` a present value. */
  datatype Option<+T> = None | Some(value: T) {

    /** `Optional.map`: applies `f` to a present value, passes `nil` through. */
    function Map<U>(f: T -> U): (r: Option<U>)
      ensures r.Some? <==> Some?
      ensures Some? ==> r.value == f(value)
    {
      match this
      case None => None
      case Some(v) => Some(f(v))
    }
  }

  /** The outcome of a Swift function that `throws`: it returns a value or throws an error. */
  datatype Result<+T, +E> = Success(value: T) | Failure(error: E) {

    /** Swift's `try?`: a thrown error becomes `nil`. */
    function ToOption(): (r: Option<T>)
      ensures r.Some? <==> Success?
      ensures Success? ==> r.value == value
    {
      match this
      case Success(v) => Some(v)
      case Failure(_) => None
    }
  }
}
