/** Optional values: JavaScript's `undefined`/`null` for a field that may be absent. */
module Wrappers {

  datatype Option<+T> = None | Some(value: T) {

    /** The value, or `default` when absent (the `x || default` and `x ?? default` idioms). */
    function GetOr(default: T): T {
      match this
      case Some(v) => v
      case None => default
    }
  }

  /** The outcome of a step that may throw: the value, or the error it threw. */
  datatype Result<+T, +E> = Success(value: T) | Failure(error: E)

  /** Picks an optional override: `Some` in `patch` wins, as in `{ ...base, ...patch }`. */
  function Override<T>(base: T, patch: Option<T>): (r: T)
    ensures patch.None? ==> r == base
    ensures patch.Some? ==> r == patch.value
  {
    match patch
    case Some(v) => v
    case None => base
  }

  /** A field after `{ ...base, ...patch }`: the patch's value when it sets one, the old value otherwise. */
  predicate Follows<T(==)>(r: T, base: T, patch: Option<T>) {
    (patch.Some? ==> r == patch.value) && (patch.None? ==> r == base)
  }

  /** The same for an optional field: a set patch replaces it, an unset one keeps it. */
  predicate FollowsOptional<T(==)>(r: Option<T>, base: Option<T>, patch: Option<T>) {
    (patch.Some? ==> r == patch) && (patch.None? ==> r == base)
  }

  /** A filter choice of the user interface: `'all'` or one particular value. */
  datatype Choice<T(==)> = All | Only(value: T) {
    predicate Admits(x: T) {
      match this
      case All => true
      case Only(v) => v == x
    }
  }
}
