/** What the components see of the network and of the browser: the outcome of one
    `fetch`, the requests they issue, and the navigations and timers they schedule.
    Nothing here performs I/O; each handler receives the outcome of its request as
    a parameter. */
module Client {

  datatype Option<+T> = None | Some(value: T)

  /** The fields of a JSON response body that the components read. A field the
      server left out is None; `hasStore` is the JavaScript truthiness of
      `has_store` (false when absent). */
  datatype Json = Json(error: Option<string>, name: Option<string>, hasStore: bool, storeName: Option<string>)

  /** A response body as `await res.json()` sees it: not JSON, so that the promise
      rejects; the JSON literal `null`, any field of which throws when read; or
      another JSON value, of which only the fields read are kept (a value that is
      not an object reads every field as `undefined`). */
  datatype Body = NotJson | Null | Value(data: Json)

  /** A response that arrived: `ok` is a 2xx status. */
  datatype Response = Response(ok: bool, body: Body)

  /** What `await fetch(...)` produced: a response, or a rejection (the network
      could not be reached). */
  datatype FetchOutcome = Responded(response: Response) | NetworkError

  /** A file picked in an `<input type="file">`; only its presence matters here. */
  datatype Upload = Upload(fileName: string)

  /** The requests the components issue, with the fields of their bodies. */
  datatype Request =
    | AuthCheck(path: string)
    | LoginUser(email: string, password: string)
    | SendVerificationEmail(email: string, name: string)
    | VerifyCodeAndRegister(name: string, email: string, password: string, code: string,
                            acceptedTerms: bool, timezone: string)
    | CheckStore
    | CreateStore(storeName: string)
    | SellItem(itemName: string, price: string, image: Upload)

  /** Something a component asks `setTimeout` to do later. */
  datatype Action = NavigateTo(path: string) | CloseCreateStoreModal | CloseSellModal

  datatype Timer = Timer(delayMs: nat, action: Action)

  /** The session check of the guards and of the landing page. */
  const AuthCheckPath := "/api/auth/check/"

  /** How the `try` block around one request ended: the response was 2xx, it was
      not (carrying the body's `error` field), or something threw into `catch`. */
  datatype Settled = Succeeded | Failed(error: Option<string>) | Caught

  /** `res.ok` of a response that arrived. */
  predicate Is2xx(o: FetchOutcome) {
    o.Responded? && o.response.ok
  }

  /** The body of a response that arrived parses as JSON. */
  predicate Parses(o: FetchOutcome) {
    o.Responded? && !o.response.body.NotJson?
  }

  /** The body parses to a value whose fields can be read without throwing. */
  predicate Readable(o: FetchOutcome) {
    o.Responded? && o.response.body.Value?
  }

  /** `const data = await res.json(); if (res.ok) ... else ...`: the body is read
      BEFORE the status is looked at, so a body that is not JSON throws into
      `catch` even on a 2xx response. A 2xx `null` body succeeds, since `data` is
      not read on success; a non-2xx one throws at `data.error`. */
  function JsonThenOk(o: FetchOutcome): (s: Settled)
    ensures s == Succeeded <==> Is2xx(o) && Parses(o)
    ensures s.Caught? <==> !Parses(o) || (!Is2xx(o) && !Readable(o))
    ensures s.Failed? <==> !Is2xx(o) && Readable(o)
    ensures s.Failed? ==> s.error == o.response.body.data.error
  {
    match o
    case NetworkError => Caught
    case Responded(res) =>
      match res.body
      case NotJson => Caught
      case Null => if res.ok then Succeeded else Caught
      case Value(data) => if res.ok then Succeeded else Failed(data.error)
  }

  /** `if (res.ok) { ... } else { const data = await res.json(); ... }`: the body
      is read only on a non-2xx response. */
  function OkThenJson(o: FetchOutcome): (s: Settled)
    ensures s == Succeeded <==> Is2xx(o)
    ensures s.Caught? <==> o.NetworkError? || (!Is2xx(o) && !Readable(o))
    ensures s.Failed? <==> !Is2xx(o) && Readable(o)
    ensures s.Failed? ==> s.error == o.response.body.data.error
  {
    match o
    case NetworkError => Caught
    case Responded(res) =>
      if res.ok then Succeeded
      else
        match res.body
        case Value(data) => Failed(data.error)
        case _ => Caught
  }

  /** The two orders disagree on exactly one kind of outcome: a 2xx response whose
      body is not JSON, which the first order reports as an error and the second as
      a success. */
  lemma ParseOrderMatters(o: FetchOutcome)
    ensures JsonThenOk(o) != OkThenJson(o) <==> Is2xx(o) && !Parses(o)
    ensures Is2xx(o) && !Parses(o) ==> JsonThenOk(o) == Caught && OkThenJson(o) == Succeeded
  {
  }

  /** `data.error || fallback`: the server's error text when it is a non-empty
      string, the fallback otherwise. */
  function ErrorOr(error: Option<string>, fallback: string): (msg: string)
    ensures error.Some? && error.value != "" ==> msg == error.value
    ensures msg != fallback ==> error == Some(msg) && msg != ""
    ensures error == None || error == Some("") ==> msg == fallback
    ensures fallback != "" ==> msg != ""
  {
    match error
    case Some(e) => if e != "" then e else fallback
    case None => fallback
  }

  /** The message a handler shows once its request has settled: a fixed text on
      success, the server's error or a fallback on failure, another fixed text on
      a throw. */
  function Feedback(s: Settled, onSuccess: string, onFailure: string, onThrow: string): string
  {
    match s
    case Succeeded => onSuccess
    case Failed(e) => ErrorOr(e, onFailure)
    case Caught => onThrow
  }

  /** The message of a handler that reads the body before the status (send code,
      register, create store, sell): the success text only for a 2xx response whose
      body parses, the throw text whenever the body does not parse, the network
      failed or a non-2xx body is `null`, and the server's error or the fallback
      for any other non-2xx body. */
  function BodyFirstFeedback(o: FetchOutcome, onSuccess: string, onFailure: string, onThrow: string): (msg: string)
    ensures Is2xx(o) && Parses(o) ==> msg == onSuccess
    ensures !Parses(o) || (!Is2xx(o) && !Readable(o)) ==> msg == onThrow
    ensures Readable(o) && !Is2xx(o) ==> msg == ErrorOr(o.response.body.data.error, onFailure)
  {
    Feedback(JsonThenOk(o), onSuccess, onFailure, onThrow)
  }
}
