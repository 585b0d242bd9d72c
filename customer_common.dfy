/**
 * What the two customer functions on OCI Functions share: the customer
 * record, the JSON error envelope written by `httpError`, the replies a
 * handler writes, the NoSQL client setup, the table-name and id fallbacks,
 * and the read of one row by its `customerId` key.
 *
 * The NoSQL service, the JSON encoder and decoder and the client setup are
 * parameters: a read is a function from the request to the service's answer.
 */
module CustomerCommon {
  import opened Wrappers
  import opened JsonValue

  /** The HTTP status the function's response carries when the handler never writes one. */
  const DefaultStatus := 200
  const BadRequestStatus := 400
  const NotFoundStatus := 404
  const MethodNotAllowedStatus := 405
  const InternalStatus := 500

  const InvalidInputMessage := "Invalid input"
  const NotFoundMessage := "Customer not found"
  const MethodNotAllowedMessage := "Method not allowed"
  const InternalErrorMessage := "Internal error"

  const DefaultId := "123"
  const DefaultTableName := "customer_info"
  const CustomerIdColumn := "customerId"

  const ProviderPrefix := "failed to create resource principal provider: "
  const ClientPrefix := "failed to create NoSQL client: "
  const GetRowPrefix := "failed to get row: "
  const NotFoundPrefix := "customer not found for id: "
  const MarshalPrefix := "failed to marshal result: "
  const UnmarshalPrefix := "failed to unmarshal result: "

  /** The `CustomerInfo` struct; its zero value has every field empty. */
  datatype CustomerInfo = CustomerInfo(id: string, name: string, address: string, email: string, phone: string)

  const EmptyInfo := CustomerInfo("", "", "", "", "")

  /** The object `httpError` encodes: `{"error": ..., "status": ..., "details": ...}`. */
  datatype Envelope = Envelope(error: string, status: int, details: string)

  /** What a handler encodes into the response body. */
  datatype Body =
    | EnvelopeBody(envelope: Envelope)
    | InfoBody(info: CustomerInfo)
    | SavedBody(message: string, data: CustomerInfo)
    | RawBody(text: string)

  /** The HTTP response the function produces: its status and its body. */
  datatype Response = Response(status: int, body: Body)

  /**
   * What a handler decides to write:
   * a call of `httpError` with its message, code and error (`None` for nil),
   * a JSON-encoded body with no status written,
   * or an explicitly written status with a raw body.
   */
  datatype Reply =
    | Failure(message: string, code: int, err: Option<string>)
    | Encoded(body: Body)
    | Raw(status: int, text: string)

  /** The `details` of the envelope: the error's text, or "" for a nil error. */
  function Details(err: Option<string>): (d: string)
    ensures err.None? ==> d == ""
    ensures err.Some? ==> d == err.value
  {
    match err
    case None => ""
    case Some(text) => text
  }

  /**
   * `httpError` as written: it encodes the envelope but never writes the
   * status, so the response keeps the default 200 whatever `code` is.
   */
  function HttpError(msg: string, code: int, err: Option<string>): (r: Response)
    ensures r.status == DefaultStatus
    ensures r.body.EnvelopeBody?
    ensures r.body.envelope.error == msg && r.body.envelope.status == code
    ensures r.body.envelope.details == Details(err)
  {
    Response(DefaultStatus, EnvelopeBody(Envelope(msg, code, Details(err))))
  }

  /** An `httpError` call whose code is not 200 produces a response whose status disagrees with its body. */
  lemma HttpErrorLosesCode(msg: string, code: int, err: Option<string>)
    requires code != DefaultStatus
    ensures HttpError(msg, code, err).status != HttpError(msg, code, err).body.envelope.status
  {
  }

  /**
   * The evidently intended `httpError`: the same envelope, with `code`
   * written as the response status, so status and body agree.
   */
  function HttpErrorWithStatus(msg: string, code: int, err: Option<string>): (r: Response)
    ensures r.status == code
    ensures r.body == HttpError(msg, code, err).body
    ensures r.body.envelope.status == r.status
  {
    Response(code, HttpError(msg, code, err).body)
  }

  /** The response a reply produces, as the functions are written. */
  function Render(reply: Reply): (r: Response)
    ensures reply.Failure? ==> r.status == DefaultStatus
    ensures reply.Encoded? ==> r == Response(DefaultStatus, reply.body)
  {
    match reply
    case Failure(msg, code, err) => HttpError(msg, code, err)
    case Encoded(body) => Response(DefaultStatus, body)
    case Raw(status, text) => Response(status, RawBody(text))
  }

  /** The response a reply produces once `httpError` writes its code. */
  function RenderWithStatus(reply: Reply): (r: Response)
    ensures reply.Failure? ==> r.status == reply.code
    ensures r.body == Render(reply).body
    ensures !reply.Failure? ==> r == Render(reply)
  {
    match reply
    case Failure(msg, code, err) => HttpErrorWithStatus(msg, code, err)
    case _ => Render(reply)
  }

  /**
   * How creating the NoSQL client went: the resource-principal provider or
   * the client itself failing with the given error text, or connected.
   */
  datatype Setup = ProviderFailed(text: string) | ClientFailed(text: string) | Connected

  /** The wrapped error of a failed setup. */
  function SetupError(setup: Setup): string
    requires !setup.Connected?
  {
    match setup
    case ProviderFailed(text) => ProviderPrefix + text
    case ClientFailed(text) => ClientPrefix + text
  }

  /** `getTableName`: NOSQL_TABLE_NAME, or customer_info when it is empty or unset. */
  function GetTableName(env: string): (t: string)
    ensures t != ""
    ensures env != "" ==> t == env
    ensures env == "" ==> t == DefaultTableName
  {
    if env == "" then DefaultTableName else env
  }

  /** The customer id after the fallback: an empty id becomes 123. */
  function IdOrDefault(id: string): (r: string)
    ensures r != ""
    ensures id != "" ==> r == id
    ensures id == "" ==> r == DefaultId
  {
    if id == "" then DefaultId else id
  }

  /** A NoSQL get: the table and the primary key. */
  datatype GetRequest = GetRequest(tableName: string, key: map<string, string>)

  /** The primary key of a customer's row. */
  function KeyFor(customerId: string): (k: map<string, string>)
    ensures k.Keys == {CustomerIdColumn}
    ensures k[CustomerIdColumn] == customerId
  {
    map[CustomerIdColumn := customerId]
  }

  /** The service's answer to a get: an error, no such row, or the row's columns. */
  datatype GetReply = GetFailed(text: string) | Missing | Found(row: map<string, Json>)

  /**
   * Re-encoding a row and decoding it into a `CustomerInfo`: the marshal
   * error, or the struct `json.Unmarshal` leaves behind together with its
   * error, if any (a field of the wrong type is skipped, the rest is filled).
   */
  datatype RowDecode = MarshalFailed(text: string) | Unmarshalled(info: CustomerInfo, failure: Option<string>)

  /** The error text of a row that does not exist. */
  function NotFoundText(customerId: string): string {
    NotFoundPrefix + customerId
  }

  /**
   * The not-found text tells the id it was built from, and no other error of
   * a read (which all start with "failed to") can be mistaken for it.
   */
  lemma {:induction false} NotFoundTextDistinct(customerId: string, other: string, text: string)
    ensures NotFoundText(customerId) == NotFoundText(other) ==> customerId == other
    ensures GetRowPrefix + text != NotFoundText(customerId)
    ensures MarshalPrefix + text != NotFoundText(customerId)
    ensures UnmarshalPrefix + text != NotFoundText(customerId)
  {
    if NotFoundText(customerId) == NotFoundText(other) {
      assert customerId == NotFoundText(customerId)[|NotFoundPrefix|..];
      assert other == NotFoundText(other)[|NotFoundPrefix|..];
    }
    assert NotFoundText(customerId)[0] == 'c';
    assert (GetRowPrefix + text)[0] == 'f';
    assert (MarshalPrefix + text)[0] == 'f';
    assert (UnmarshalPrefix + text)[0] == 'f';
  }
}
