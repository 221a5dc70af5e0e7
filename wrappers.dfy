/** Option and Result, used for Swift optionals and for Swift's `throws`. */
module Wrappers {

  /** Swift's `T?`: absence is a value of its own. */
  datatype Option<+T> = None | Some(value: T)

  /** The outcome of a Swift function declared `throws`. */
  datatype Result<+T, +E> = Success(value: T) | Failure(error: E) {
    /** Swift's `try?`: a thrown error becomes `nil`. */
    function ToOption(): Option<T> {
      match this
      case Success(v) => Some(v)
      case Failure(_) => None
    }
  }
}
