/** Small vocabulary shared by every component: optional values (the
    source's `null`/`undefined`), JavaScript truthiness of optional strings,
    and the toast notifications the forms raise. */
module Common {

  /** A value that may be absent: `null` or `undefined` in the source. */
  datatype Option<+T> = None | Some(value: T) {

    /** The value, or `default` when absent (the source's `x ?? default`). */
    function GetOr(default: T): T {
      match this
      case Some(v) => v
      case None => default
    }
  }

  /** JavaScript truthiness of an optional string: present and non-empty. */
  predicate Truthy(s: Option<string>) {
    s.Some? && s.value != ""
  }

  /** The source's `a || b` on optional strings. */
  function OrElse(a: Option<string>, b: Option<string>): (r: Option<string>)
    ensures Truthy(a) ==> r == a
    ensures !Truthy(a) ==> r == b
  {
    if Truthy(a) then a else b
  }

  /** The source's `s || fallback` where the fallback is a literal. */
  function TextOr(s: Option<string>, fallback: string): (r: string)
    ensures Truthy(s) ==> r == s.value
    ensures !Truthy(s) ==> r == fallback
  {
    if Truthy(s) then s.value else fallback
  }

  /** A notification shown to the user (the `sonner` toasts). */
  datatype Toast = NoToast | SuccessToast(text: string) | ErrorToast(text: string)
}
