/** The optional values of the extension: a JavaScript field that may be
    `null` or `undefined`, a storage key that may be missing. */
module Wrappers {

  datatype Option<+T> = None | Some(value: T) {

    /** The value, or `default` when there is none. */
    function GetOr(default: T): (r: T)
      ensures Some? ==> r == value
      ensures None? ==> r == default
    {
      match this
      case Some(v) => v
      case None => default
    }
  }

  /** JavaScript's `value || ""` on an optional string: a missing or empty
      string gives `""`. For strings the falsy fallback never changes a
      present value, so this is the value or `""`. */
  function OrEmpty(value: Option<string>): (r: string)
    ensures r == value.GetOr("")
  {
    if value.Some? && value.value != "" then value.value else ""
  }

  /** Either a value or the message of the error that replaced it. */
  datatype Result<+R, +E> = Success(value: R) | Failure(error: E)
}
