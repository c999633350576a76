/** Values and results shared by every part of the console: JavaScript values as they
    arrive in request bodies, JavaScript truthiness, thrown errors, and HTTP replies. */
module Common {

  datatype Option<+T> = None | Some(value: T)

  /** A JavaScript value as found in a parsed JSON body (plus `Date`, which zod schemas
      accept). A key missing from a body map is `undefined`. */
  datatype Value =
    | Null
    | Bool(b: bool)
    | Num(n: real)
    | Str(s: string)
    | Date(t: int)
    | Arr(items: seq<Value>)
    | Obj(fields: map<string, Value>)

  /** A parsed JSON request body. */
  type Body = map<string, Value>

  /** `body.key`: `None` stands for `undefined`. */
  function Field(body: Body, key: string): (r: Option<Value>)
    ensures r.Some? <==> key in body
  {
    if key in body then Some(body[key]) else None
  }

  /** JavaScript truthiness of a possibly-undefined value (`!!v`). */
  predicate Truthy(v: Option<Value>) {
    match v
    case None => false
    case Some(Null) => false
    case Some(Bool(b)) => b
    case Some(Num(n)) => n != 0.0
    case Some(Str(s)) => s != ""
    case Some(_) => true
  }

  /** Truthiness of a `string | null | undefined`: present and not empty. */
  predicate Present(s: Option<string>) {
    s.Some? && s.value != ""
  }

  /** `a || b` on optional strings. */
  function OrElse(a: Option<string>, b: string): (r: string)
    ensures Present(a) ==> r == a.value
    ensures !Present(a) ==> r == b
  {
    if Present(a) then a.value else b
  }

  /** An exception: its `name` and its `message` (an empty message stands for a missing one). */
  datatype Failure = Failure(name: string, message: string)

  /** The outcome of an awaited call: a value, or a thrown exception. */
  datatype Outcome<+T> = Done(value: T) | Threw(failure: Failure)

  /** `error.message || fallback`. */
  function MessageOr(f: Failure, fallback: string): (r: string)
    ensures f.message != "" ==> r == f.message
    ensures f.message == "" ==> r == fallback
  {
    if f.message != "" then f.message else fallback
  }

  /** An HTTP JSON reply: a payload with a status code, or `{ error }` with a status code. */
  datatype Reply<+T> = Json(code: int, payload: T) | ErrorJson(code: int, error: string)
  {
    function Code(): int {
      match this
      case Json(c, _) => c
      case ErrorJson(c, _) => c
    }
  }

  /** The reply every handler gives when the session carries no user id. */
  function Unauthorized<T>(): (r: Reply<T>)
    ensures r.ErrorJson? && r.code == 401
  {
    ErrorJson(401, "Unauthorized")
  }

  /** The `catch` of the handlers that validate with zod: a `ZodError` becomes 400, any other
      failure 500 with the handler's own message. */
  function CatchZod<T>(f: Failure, message: string): (r: Reply<T>)
    ensures r.ErrorJson?
    ensures r.code == 400 <==> f.name == "ZodError"
    ensures r.code == 400 ==> r.error == "Invalid input data"
    ensures r.code != 400 ==> r.code == 500 && r.error == message
  {
    if f.name == "ZodError" then ErrorJson(400, "Invalid input data") else ErrorJson(500, message)
  }
}
