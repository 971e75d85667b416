/** Rust's `Option`, with the one combinator the adapters use (`Option::filter`). */
module Wrappers {

  datatype Option<+T> = None | Some(value: T) {

    /** The value, or `default` when absent (`Option::unwrap_or`). */
    function GetOr(default: T): (r: T)
      ensures Some? ==> r == value
      ensures None? ==> r == default
    {
      match this
      case Some(v) => v
      case None => default
    }

    /** Keeps the value only when `keep` holds of it (`Option::filter`). */
    function Filter(keep: T -> bool): (r: Option<T>)
      ensures r.Some? <==> Some? && keep(value)
      ensures r.Some? ==> r.value == value
    {
      match this
      case Some(v) => if keep(v) then Some(v) else None
      case None => None
    }
  }
}
