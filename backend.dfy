/**
 The hosted backend (authentication, object storage, the `profiles` table) as
 seen from the client: every call is replaced by the outcome it produced,
 which the caller is handed as a parameter.
 */
module Backend {

  /** What an awaited call produced: a value, or an exception that propagates
      out of the `await` (its message may be empty). */
  datatype Reply<T> = Returns(value: T) | Throws(message: string)

  /** The `{ error }` part of a backend response: absent or present. */
  datatype Status = Ok | Failed(message: string)

  /** The signed-in user as the auth context exposes it. */
  datatype SessionUser = SessionUser(id: string, email: Option<string>, fullNameHint: Option<string>)

  datatype Option<T> = None | Some(value: T)

  /** The JavaScript falsiness test `x || ''` applied to an optional string:
      absent and empty both give "". */
  function OrEmpty(x: Option<string>): (r: string)
    ensures r == "" <==> (x.None? || x.value == "")
    ensures r != "" ==> x == Some(r)
  {
    match x
    case None => ""
    case Some(v) => v
  }
}
