/** Kotlin's nullable values, exceptions and `kotlin.Result`, as the repositories and view models use them. */
module Results {

  /** A nullable value: `None` is Kotlin's `null`. */
  datatype Option<T> = None | Some(value: T) {

    /** Kotlin's elvis operator `this ?: fallback`. */
    function GetOr(fallback: T): (r: T)
      ensures Some? ==> r == value
      ensures None? ==> r == fallback
    {
      match this
      case Some(v) => v
      case None => fallback
    }
  }

  /** A thrown `Exception`; only its (nullable) message is observable here. */
  datatype Exception = Exception(message: Option<string>) {

    /** `e.message ?: fallback`, the text a view model shows for a failure. */
    function MessageOr(fallback: string): (r: string)
      ensures message.Some? ==> r == message.value
      ensures message.None? ==> r == fallback
    {
      message.GetOr(fallback)
    }
  }

  /** `kotlin.Result<T>`: a value, or the exception that replaced it. */
  datatype Result<T> = Success(value: T) | Failure(exception: Exception)
}

/** Kotlin's `String.ifEmpty`, used by the display-name helpers of the records. */
module Text {

  /** `s.ifEmpty { fallback }`. */
  function IfEmpty(s: string, fallback: string): (r: string)
    ensures s != "" ==> r == s
    ensures s == "" ==> r == fallback
  {
    if s == "" then fallback else s
  }
}
