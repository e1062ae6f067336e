/** Optional values and results with an error message: the model of
    TypeScript's `undefined` and of a thrown `Error`. */
module Wrappers {

  datatype Option<+T> = None | Some(value: T) {
    /** The value, or `default` when there is none. */
    function GetOr(default: T): T {
      match this
      case Some(v) => v
      case None => default
    }
  }

  datatype Result<+T> = Ok(value: T) | Err(error: string)

  /** JavaScript's `s || d` on an optional string: the default replaces a
      missing and an empty string alike. */
  function OrDefault(s: Option<string>, d: string): string {
    if s.Some? && s.value != "" then s.value else d
  }

  /** A record field after `{ ...record, ...patch }`: the patch's value when
      the patch carries the key, the record's value otherwise. */
  function Pick<T>(patch: Option<T>, current: T): T {
    patch.GetOr(current)
  }
}
