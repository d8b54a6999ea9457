/** Small value wrappers shared by every module of the model. */
module Wrappers {

  /** A value that may be absent: JSON `null` / `undefined`, a missing row. */
  datatype Option<+T> = None | Some(value: T)

  /** The outcome of an operation that can throw: the error carries the message. */
  datatype Result<+R> = Ok(value: R) | Err(message: string)

  /** JavaScript truthiness of an optional string: present and not empty. */
  predicate Truthy(o: Option<string>) {
    o.Some? && o.value != ""
  }

  /** `a || b` on optional strings: the first truthy one, else `b`. */
  function OrElse(a: Option<string>, b: Option<string>): (r: Option<string>)
    ensures Truthy(a) ==> r == a
    ensures !Truthy(a) ==> r == b
  {
    if Truthy(a) then a else b
  }
}

/** HTTP replies of the route handlers. */
module Http {

  /** A JSON reply: the HTTP status and a typed body. */
  datatype Reply<+B> = Reply(status: int, body: B)
}
