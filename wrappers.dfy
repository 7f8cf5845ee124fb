/** Optional values, standing in for Rust's `Option`. */
module Wrappers {

  datatype Option<T> = None | Some(value: T) {

    /** Rust's `Option::map_or`: `default` for `None`, `f` of the value otherwise. */
    function MapOr<U>(default: U, f: T -> U): U {
      match this
      case None => default
      case Some(v) => f(v)
    }
  }
}
