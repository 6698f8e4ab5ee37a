/** Values shared by the pages: optional fields, JavaScript truthiness of an
    `error` field, the outcome of a `fetch`, and the observable effects a page
    emits (requests, toasts, query-cache invalidations). */
module Common {

  datatype Option<T> = None | Some(value: T)

  /** JavaScript truthiness of an optional string field: an absent field
      (`undefined`) and the empty string are both falsy. */
  predicate Truthy(field: Option<string>) {
    field.Some? && field.value != ""
  }

  /** The expression `field || fallback`. */
  function ErrorOr(field: Option<string>, fallback: string): string {
    if Truthy(field) then field.value else fallback
  }

  /** What `await fetch(...)` followed by `await res.json()` produced. Every
      handler in the client parses the body before it looks at `res.ok`, so a
      network failure and an unparsable body both surface as a thrown error,
      given by its `name` and its `message`. */
  datatype Reply<B> = Threw(name: string, message: string) | Answered(ok: bool, body: B)

  /** `String(error)` for a thrown error, as `Error.prototype.toString` builds
      it from the error's name and message. */
  function ErrorString(name: string, message: string): string {
    if name == "" then message
    else if message == "" then name
    else name + ": " + message
  }

  /** The body of an auth mutation response, of which the client reads only
      the `error` field. */
  datatype ErrorBody = ErrorBody(error: Option<string>)

  /** JSON bodies the client sends. */
  datatype Payload =
    | NoPayload
    | Credentials(username: string, password: string)
    | Registration(email: string, username: string, fullName: string, password: string)

  /** Observable effects: a request issued, a toast shown, a cached query
      invalidated or refetched. */
  datatype Event =
    | Request(endpoint: string, payload: Payload)
    | SuccessToast(text: string)
    | ErrorToast(text: string)
    | Invalidate(queryKey: string)
    | Refetch(queryKey: string)

  /** The query key under which the session is cached. */
  const AuthUserKey := "authUser"

  /** Outcome of a client-side guard chain: reject with a message, or send. */
  datatype Check = Reject(message: string) | Send(payload: Payload)

  /** Outcome of a mutation: success, or an error whose `message` the page
      displays. */
  datatype MutationResult = Succeeded | Failed(message: string)

  /** An auth page's `mutationFn` together with the `error.message` the page
      displays: a non-ok reply throws an error carrying the backend's `error`,
      or the page's fallback text; a thrown error keeps its own message. */
  function MutationOutcome(reply: Reply<ErrorBody>, fallback: string): (r: MutationResult)
    ensures r.Succeeded? <==> reply.Answered? && reply.ok
    ensures reply.Threw? ==> r == Failed(reply.message)
    ensures reply.Answered? && !reply.ok && Truthy(reply.body.error) ==> r == Failed(reply.body.error.value)
    ensures reply.Answered? && !reply.ok && !Truthy(reply.body.error) ==> r == Failed(fallback)
  {
    match reply
    case Threw(_, message) => Failed(message)
    case Answered(ok, body) => if ok then Succeeded else Failed(ErrorOr(body.error, fallback))
  }
}
