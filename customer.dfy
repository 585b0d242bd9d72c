/**
 * The customer function: one HTTP-triggered handler that reads a customer
 * with GET and creates or updates one with POST, on an Oracle NoSQL table.
 *
 * Request bodies are bytes; the JSON decoder is a parameter (`decodeId`,
 * `decodeInfo` give what `json.Unmarshal` yields for the bytes, or its error
 * text), and so are the service's answers to a get and a put.
 */
module CustomerFunction {
  import opened Wrappers
  import opened JsonValue
  import opened CustomerCommon

  const ParseInputPrefix := "failed to parse input: "
  const IdRequiredText := "customer ID is required"
  const PutRowPrefix := "failed to put row: "
  const UnsupportedMethodPrefix := "unsupported HTTP method: "
  const SavedMessage := "Customer created or updated successfully"
  const NotHttpText := "{\"error\":\"function not invoked via http trigger\"}"

  const IdColumn := "id"
  const NameColumn := "name"
  const AddressColumn := "address"
  const EmailColumn := "email"
  const PhoneColumn := "phone"

  /** The six columns `putCustomer` writes. */
  const RowColumns := {CustomerIdColumn, IdColumn, NameColumn, AddressColumn, EmailColumn, PhoneColumn}

  /**
   * Decoding the request body into `Request`: its raw `data` (empty when
   * absent), an empty body (io.EOF, which leaves the zero request), or a
   * decode error.
   */
  datatype RequestDecode = Decoded(data: seq<bv8>) | Eof | Malformed(error: string)

  /** A NoSQL put: the table and the row. */
  datatype PutRequest = PutRequest(tableName: string, row: map<string, string>)

  /**
   * `parseGetRequest`: a non-empty input that does not decode is an error;
   * otherwise the decoded `id`, where an empty input, a missing `id` and an
   * empty `id` all give 123.
   */
  function ParseGetRequest(input: seq<bv8>, decodeId: seq<bv8> -> Result<string, string>): (r: Result<string, string>)
    ensures r.Err? <==> |input| > 0 && decodeId(input).Err?
    ensures r.Err? ==> r.error == ParseInputPrefix + decodeId(input).error
    ensures r.Ok? ==> r.value != ""
    ensures |input| == 0 ==> r == Ok(DefaultId)
    ensures |input| > 0 && decodeId(input).Ok? && decodeId(input).value != "" ==> r == Ok(decodeId(input).value)
    ensures |input| > 0 && decodeId(input) == Ok("") ==> r == Ok(DefaultId)
  {
    if |input| > 0 && decodeId(input).Err? then Err(ParseInputPrefix + decodeId(input).error)
    else
      var id := if |input| > 0 then decodeId(input).value else "";
      Ok(IdOrDefault(id))
  }

  /**
   * `parsePostRequest`: the decoded info when it has an id; a decode error or
   * an empty id is an error. The info is passed on unchanged.
   */
  function ParsePostRequest(input: seq<bv8>, decodeInfo: seq<bv8> -> Result<CustomerInfo, string>): (r: Result<CustomerInfo, string>)
    ensures r.Ok? <==> decodeInfo(input).Ok? && decodeInfo(input).value.id != ""
    ensures r.Ok? ==> r.value == decodeInfo(input).value
    ensures decodeInfo(input).Err? ==> r == Err(ParseInputPrefix + decodeInfo(input).error)
    ensures decodeInfo(input).Ok? && decodeInfo(input).value.id == "" ==> r == Err(IdRequiredText)
  {
    match decodeInfo(input)
    case Err(e) => Err(ParseInputPrefix + e)
    case Ok(info) => if info.id == "" then Err(IdRequiredText) else Ok(info)
  }

  /**
   * `getCustomer`: reads the row keyed by `customerId`. The not-found error
   * comes exactly from an absent row; the info comes exactly from a row that
   * re-encodes and decodes without error.
   */
  function GetCustomer(
    tableName: string, customerId: string,
    get: GetRequest -> GetReply, decodeRow: map<string, Json> -> RowDecode): (r: Result<CustomerInfo, string>)
    ensures var reply := get(GetRequest(tableName, KeyFor(customerId)));
            && (r == Err(NotFoundText(customerId)) <==> reply.Missing?)
            && (reply.GetFailed? ==> r == Err(GetRowPrefix + reply.text))
            && (r.Ok? <==> reply.Found? && decodeRow(reply.row).Unmarshalled? && decodeRow(reply.row).failure.None?)
            && (r.Ok? ==> r.value == decodeRow(reply.row).info)
  {
    var reply := get(GetRequest(tableName, KeyFor(customerId)));
    match reply
    case GetFailed(text) => NotFoundTextDistinct(customerId, customerId, text); Err(GetRowPrefix + text)
    case Missing => Err(NotFoundText(customerId))
    case Found(row) =>
      match decodeRow(row)
      case MarshalFailed(text) => NotFoundTextDistinct(customerId, customerId, text); Err(MarshalPrefix + text)
      case Unmarshalled(info, failure) =>
        if failure.Some? then (NotFoundTextDistinct(customerId, customerId, failure.value); Err(UnmarshalPrefix + failure.value))
        else Ok(info)
  }

  lemma ColumnsDistinct()
    ensures CustomerIdColumn != IdColumn && CustomerIdColumn != NameColumn && CustomerIdColumn != AddressColumn
    ensures CustomerIdColumn != EmailColumn && CustomerIdColumn != PhoneColumn
    ensures IdColumn != NameColumn && IdColumn != AddressColumn && IdColumn != EmailColumn && IdColumn != PhoneColumn
    ensures NameColumn != AddressColumn && NameColumn != EmailColumn && NameColumn != PhoneColumn
    ensures AddressColumn != EmailColumn && AddressColumn != PhoneColumn && EmailColumn != PhoneColumn
  {
    assert CustomerIdColumn[0] == 'c' && IdColumn[0] == 'i' && NameColumn[0] == 'n';
    assert AddressColumn[0] == 'a' && EmailColumn[0] == 'e' && PhoneColumn[0] == 'p';
  }

  /**
   * The row `putCustomer` writes: exactly the six columns, where both
   * `customerId` (the primary key) and `id` hold the customer's id.
   */
  function CustomerRow(info: CustomerInfo): (row: map<string, string>)
    ensures row.Keys == RowColumns
    ensures row[CustomerIdColumn] == info.id && row[IdColumn] == info.id
    ensures row[NameColumn] == info.name && row[AddressColumn] == info.address
    ensures row[EmailColumn] == info.email && row[PhoneColumn] == info.phone
  {
    ColumnsDistinct();
    map[CustomerIdColumn := info.id, IdColumn := info.id, NameColumn := info.name,
        AddressColumn := info.address, EmailColumn := info.email, PhoneColumn := info.phone]
  }

  /** The successive `row.Put` calls of `putCustomer`. */
  method BuildCustomerRow(info: CustomerInfo) returns (row: map<string, string>)
    ensures row == CustomerRow(info)
  {
    row := map[];
    row := row[CustomerIdColumn := info.id];
    row := row[IdColumn := info.id];
    row := row[NameColumn := info.name];
    row := row[AddressColumn := info.address];
    row := row[EmailColumn := info.email];
    row := row[PhoneColumn := info.phone];
  }

  /** `putCustomer`: `put` is the service's error for the request, if any. */
  function PutCustomer(tableName: string, info: CustomerInfo, put: PutRequest -> Option<string>): (err: Option<string>)
    ensures err.None? <==> put(PutRequest(tableName, CustomerRow(info))).None?
    ensures err.Some? ==> err.value == PutRowPrefix + put(PutRequest(tableName, CustomerRow(info))).value
  {
    match put(PutRequest(tableName, CustomerRow(info)))
    case None => None
    case Some(text) => Some(PutRowPrefix + text)
  }

  /**
   * `handleGetRequest`: bad input is 400, an absent row 404 with the
   * not-found text, any other read error 500, and a read row is encoded.
   */
  function HandleGetRequest(
    input: seq<bv8>, tableName: string, decodeId: seq<bv8> -> Result<string, string>,
    get: GetRequest -> GetReply, decodeRow: map<string, Json> -> RowDecode): (reply: Reply)
    ensures ParseGetRequest(input, decodeId).Err? ==>
              reply == Failure(InvalidInputMessage, BadRequestStatus, Some(ParseGetRequest(input, decodeId).error))
    ensures ParseGetRequest(input, decodeId).Ok? ==>
              var id := ParseGetRequest(input, decodeId).value;
              var answer := get(GetRequest(tableName, KeyFor(id)));
              && (answer.Missing? <==> reply.Failure? && reply.code == NotFoundStatus)
              && (answer.Missing? ==> reply == Failure(NotFoundMessage, NotFoundStatus, Some(NotFoundText(id))))
              && (answer.GetFailed? ==> reply == Failure(InternalErrorMessage, InternalStatus, Some(GetRowPrefix + answer.text)))
              && (reply.Encoded? <==> GetCustomer(tableName, id, get, decodeRow).Ok?)
              && (reply.Encoded? ==> reply.body == InfoBody(GetCustomer(tableName, id, get, decodeRow).value))
              && (!answer.Missing? && !reply.Encoded? ==> reply.Failure? && reply.code == InternalStatus)
  {
    match ParseGetRequest(input, decodeId)
    case Err(e) => Failure(InvalidInputMessage, BadRequestStatus, Some(e))
    case Ok(id) =>
      match GetCustomer(tableName, id, get, decodeRow)
      case Err(e) =>
        if e == NotFoundText(id) then Failure(NotFoundMessage, NotFoundStatus, Some(e))
        else Failure(InternalErrorMessage, InternalStatus, Some(e))
      case Ok(info) => Encoded(InfoBody(info))
  }

  /**
   * `handlePostRequest`: bad input or a missing id is 400 and writes
   * nothing; a failed put is 500; otherwise the saved info is echoed back.
   */
  function HandlePostRequest(
    input: seq<bv8>, tableName: string, decodeInfo: seq<bv8> -> Result<CustomerInfo, string>,
    put: PutRequest -> Option<string>): (reply: Reply)
    ensures ParsePostRequest(input, decodeInfo).Err? ==>
              reply == Failure(InvalidInputMessage, BadRequestStatus, Some(ParsePostRequest(input, decodeInfo).error))
    ensures ParsePostRequest(input, decodeInfo).Ok? ==>
              var info := ParsePostRequest(input, decodeInfo).value;
              && info.id != ""
              && (put(PutRequest(tableName, CustomerRow(info))).Some? ==>
                    reply == Failure(InternalErrorMessage, InternalStatus, Some(PutRowPrefix + put(PutRequest(tableName, CustomerRow(info))).value)))
              && (put(PutRequest(tableName, CustomerRow(info))).None? ==> reply == Encoded(SavedBody(SavedMessage, info)))
  {
    match ParsePostRequest(input, decodeInfo)
    case Err(e) => Failure(InvalidInputMessage, BadRequestStatus, Some(e))
    case Ok(info) =>
      match PutCustomer(tableName, info, put)
      case Some(e) => Failure(InternalErrorMessage, InternalStatus, Some(e))
      case None => Encoded(SavedBody(SavedMessage, info))
  }

  /** The raw `data` of the decoded request; an empty body leaves it empty. */
  function RequestData(request: RequestDecode): seq<bv8>
    requires !request.Malformed?
  {
    if request.Decoded? then request.data else []
  }

  /**
   * `myHandler`: a malformed body is 400, a call not made through an HTTP
   * trigger an explicit 400, a failed client setup 500; then GET and POST go
   * to their handlers on the configured table, any other method is 405.
   */
  function MyHandler(
    request: RequestDecode, viaHttp: bool, httpMethod: string, setup: Setup, tableEnv: string,
    decodeId: seq<bv8> -> Result<string, string>, decodeInfo: seq<bv8> -> Result<CustomerInfo, string>,
    get: GetRequest -> GetReply, put: PutRequest -> Option<string>,
    decodeRow: map<string, Json> -> RowDecode): (reply: Reply)
    ensures request.Malformed? ==> reply == Failure(InvalidInputMessage, BadRequestStatus, Some(request.error))
    ensures !request.Malformed? && !viaHttp ==> reply == Raw(BadRequestStatus, NotHttpText)
    ensures !request.Malformed? && viaHttp && !setup.Connected? ==>
              reply == Failure(InternalErrorMessage, InternalStatus, Some(SetupError(setup)))
    ensures !request.Malformed? && viaHttp && setup.Connected? ==>
              && (httpMethod == "GET" ==>
                    reply == HandleGetRequest(RequestData(request), GetTableName(tableEnv), decodeId, get, decodeRow))
              && (httpMethod == "POST" ==>
                    reply == HandlePostRequest(RequestData(request), GetTableName(tableEnv), decodeInfo, put))
              && (httpMethod != "GET" && httpMethod != "POST" ==>
                    reply == Failure(MethodNotAllowedMessage, MethodNotAllowedStatus, Some(UnsupportedMethodPrefix + httpMethod)))
  {
    if request.Malformed? then Failure(InvalidInputMessage, BadRequestStatus, Some(request.error))
    else if !viaHttp then Raw(BadRequestStatus, NotHttpText)
    else if !setup.Connected? then Failure(InternalErrorMessage, InternalStatus, Some(SetupError(setup)))
    else
      var data := RequestData(request);
      var tableName := GetTableName(tableEnv);
      if httpMethod == "GET" then HandleGetRequest(data, tableName, decodeId, get, decodeRow)
      else if httpMethod == "POST" then HandlePostRequest(data, tableName, decodeInfo, put)
      else Failure(MethodNotAllowedMessage, MethodNotAllowedStatus, Some(UnsupportedMethodPrefix + httpMethod))
  }

  /** The message each error code of the function is sent with. */
  function MessageFor(code: int): Option<string> {
    if code == BadRequestStatus then Some(InvalidInputMessage)
    else if code == NotFoundStatus then Some(NotFoundMessage)
    else if code == MethodNotAllowedStatus then Some(MethodNotAllowedMessage)
    else if code == InternalStatus then Some(InternalErrorMessage)
    else None
  }

  /**
   * Every error the function sends is 400, 404, 405 or 500 with that code's
   * message and a non-nil error; a write at 200 is always a success body,
   * never an error envelope; and nothing is written to the table unless the
   * call is a POST through an HTTP trigger with a decodable body that names
   * a customer.
   */
  lemma {:induction false} MyHandlerReplies(
    request: RequestDecode, viaHttp: bool, httpMethod: string, setup: Setup, tableEnv: string,
    decodeId: seq<bv8> -> Result<string, string>, decodeInfo: seq<bv8> -> Result<CustomerInfo, string>,
    get: GetRequest -> GetReply, put: PutRequest -> Option<string>,
    decodeRow: map<string, Json> -> RowDecode)
    ensures var reply := MyHandler(request, viaHttp, httpMethod, setup, tableEnv, decodeId, decodeInfo, get, put, decodeRow);
            && (reply.Failure? ==> MessageFor(reply.code) == Some(reply.message) && reply.err.Some?)
            && (reply.Raw? ==> reply.status == BadRequestStatus)
            && (reply.Encoded? ==> reply.body.InfoBody? || reply.body.SavedBody?)
            && (reply.Encoded? && reply.body.SavedBody? ==>
                  && httpMethod == "POST" && viaHttp && setup.Connected? && !request.Malformed?
                  && reply.body.data == ParsePostRequest(RequestData(request), decodeInfo).value
                  && reply.body.data.id != "")
  {
  }
}
