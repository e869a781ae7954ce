/** Shared value types of the model: optional values, JavaScript-style
    "returned or threw" outcomes and route replies. */
module Common {

  /** A value that may be absent (`null` / `undefined` in the source). */
  datatype Option<T> = None | Some(value: T)
  {
    function GetOr(default: T): T {
      match this
      case Some(v) => v
      case None => default
    }
  }

  /** JavaScript truthiness of an optional string: present and non-empty. */
  predicate Truthy(s: Option<string>) {
    s.Some? && s.value != ""
  }

  /** `a || b` on optional strings: the first when it is truthy, else the second. */
  function OrElse(a: Option<string>, b: string): (r: string)
    ensures Truthy(a) ==> r == a.value
    ensures !Truthy(a) ==> r == b
  {
    if Truthy(a) then a.value else b
  }

  /** The result of a JavaScript call that either returns a value or throws. */
  datatype Outcome<T> = Threw(error: string) | Returned(value: T)

  /** A route's reply: a JSON reply with a status code and a tag naming the
      body the route sends, or a redirect to a location. */
  datatype Reply =
    | Json(status: int, tag: string)
    | Redirect(location: string)
  {
    function Status(): int {
      match this
      case Json(s, _) => s
      case Redirect(_) => 307
    }
  }
}
