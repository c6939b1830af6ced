/** What every module shares: failure-carrying datatypes, and iteration in an arbitrary order. */
module Wrappers {
  datatype Option<+T> = None | Some(value: T)

  datatype Result<+T, +E> = Ok(value: T) | Err(error: E)

  /** The next element of an iteration over a hash map or a set, whose order is unspecified. */
  method AnyOf<T>(items: set<T>) returns (item: T)
    requires items != {}
    ensures item in items
  {
    item :| item in items;
  }
}
