/** The optional value that the store code expresses with `undefined` or `null`. */
module Wrappers {

  datatype Option<+T> = None | Some(value: T)

  /**
   * An active-item pointer after item `deleted` is removed: cleared exactly
   * when it named that item, otherwise kept.
   */
  function ClearedIf<T(==)>(pointer: Option<T>, deleted: T): (r: Option<T>)
    ensures r.None? <==> pointer.None? || pointer.value == deleted
    ensures r.Some? ==> r == pointer
  {
    if pointer == Some(deleted) then None else pointer
  }
}
