/** The JavaScript conventions the storefront code leans on.

    `a || b` falls through on every falsy value: absent (undefined or null),
    the empty string and the number 0. Absent fields are `None`; the model
    does not distinguish undefined from null. A backend call either resolves
    with a value or throws an error whose `message` may be missing; a missing
    or empty message is the empty string here. */
module Js {

  datatype Option<+T> = None | Some(value: T) {
    /** `o || fallback` when `T` is an object type (objects are truthy) */
    function GetOr(fallback: T): T {
      match this
      case Some(v) => v
      case None => fallback
    }
  }

  /** What an awaited backend call produces: its value, or a thrown error. */
  datatype Reply<+T> = Ok(value: T) | Err(message: string)

  /** How an async handler ends for its caller: it returns, or it throws. */
  datatype Outcome = Pass | Raised(message: string)

  /** JavaScript truthiness of an optional string. */
  predicate Truthy(s: Option<string>) {
    s.Some? && s.value != ""
  }

  /** JavaScript truthiness of an optional number (NaN is not modelled). */
  predicate TruthyNum(n: Option<int>) {
    n.Some? && n.value != 0
  }

  /** `a || b` for an optional string and a string fallback. */
  function OrStr(a: Option<string>, b: string): string {
    if Truthy(a) then a.value else b
  }

  /** `a || b || c` for two optional strings and a string fallback: the
      first truthy candidate, else the fallback. */
  function OrStr3(a: Option<string>, b: Option<string>, c: string): (r: string)
    ensures Truthy(a) ==> r == a.value
    ensures !Truthy(a) && Truthy(b) ==> r == b.value
    ensures !Truthy(a) && !Truthy(b) ==> r == c
  {
    OrStr(a, OrStr(b, c))
  }

  /** `err.message || fallback`, the text every handler records for a failure.
      Whatever the thrown error carries, the recorded text is never empty. */
  function ErrorText(message: string, fallback: string): (text: string)
    requires fallback != ""
    ensures text != ""
    ensures message != "" ==> text == message
    ensures text == message || text == fallback
  {
    if message != "" then message else fallback
  }

  /** How a handler that rethrows every failure ends, given its backend reply. */
  function Rethrown<T>(reply: Reply<T>): (o: Outcome)
    ensures o.Pass? <==> reply.Ok?
    ensures reply.Err? ==> o.message == reply.message
  {
    match reply
    case Ok(_) => Pass
    case Err(m) => Raised(m)
  }
}
