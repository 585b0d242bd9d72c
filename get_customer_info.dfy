/**
 * The get-customer-info function: one handler that reads a customer by the
 * id in the request body, falling back to 123, with no other routing.
 *
 * The JSON decoder, the client setup, the service's answer to the get and
 * the re-encoding of the row are parameters; the errors the handler
 * ignores are modelled as the values Go leaves behind.
 */
module GetCustomerInfo {
  import opened Wrappers
  import opened JsonValue
  import opened CustomerCommon

  /**
   * What decoding the body into `req` leaves behind: the `ID` field as the
   * decoder filled it (empty when it never got to it) and the error, if any.
   * A decoder that fails after filling the field keeps what it filled.
   */
  datatype IdDecode = IdDecode(id: string, failure: Option<string>)

  /**
   * The id the handler looks up. The decode error is ignored: whatever id the
   * decoder filled is used, and an empty one falls back to 123.
   */
  function RequestedId(input: seq<bv8>, decodeId: seq<bv8> -> IdDecode): (id: string)
    ensures id != ""
    ensures decodeId(input).id != "" ==> id == decodeId(input).id
    ensures decodeId(input).id == "" ==> id == DefaultId
  {
    IdOrDefault(decodeId(input).id)
  }

  /** The decode error plays no part: two decodes that filled the same id look up the same customer. */
  lemma RequestedIdIgnoresFailure(input: seq<bv8>, decodeId: seq<bv8> -> IdDecode, other: seq<bv8> -> IdDecode)
    requires decodeId(input).id == other(input).id
    ensures RequestedId(input, decodeId) == RequestedId(input, other)
  {
  }

  /**
   * What the handler encodes for a read row. Both errors are ignored: a
   * failed marshal leaves nothing to decode and the zero struct is sent; a
   * failed unmarshal sends whatever fields it filled.
   */
  function ProjectRow(decoded: RowDecode): (info: CustomerInfo)
    ensures decoded.MarshalFailed? ==> info == EmptyInfo
    ensures decoded.Unmarshalled? ==> info == decoded.info
  {
    match decoded
    case MarshalFailed(_) => EmptyInfo
    case Unmarshalled(info, _) => info
  }

  /**
   * `myHandler`. Returns what it writes and the get it sent, if any. A failed
   * setup or read is 500, an absent row 404 with the not-found text; any row
   * read is encoded.
   */
  method MyHandler(
    input: seq<bv8>, decodeId: seq<bv8> -> IdDecode, setup: Setup, tableEnv: string,
    get: GetRequest -> GetReply, decodeRow: map<string, Json> -> RowDecode)
    returns (reply: Reply, sent: Option<GetRequest>)
    ensures sent.Some? <==> setup.Connected?
    ensures !setup.Connected? ==> reply == Failure(InternalErrorMessage, InternalStatus, Some(SetupError(setup)))
    ensures setup.Connected? ==>
              && sent.value == GetRequest(GetTableName(tableEnv), KeyFor(RequestedId(input, decodeId)))
              && (get(sent.value).GetFailed? ==>
                    reply == Failure(InternalErrorMessage, InternalStatus, Some(GetRowPrefix + get(sent.value).text)))
              && (get(sent.value).Missing? ==>
                    reply == Failure(NotFoundMessage, NotFoundStatus, Some(NotFoundText(RequestedId(input, decodeId)))))
              && (get(sent.value).Found? ==> reply == Encoded(InfoBody(ProjectRow(decodeRow(get(sent.value).row)))))
  {
    var decoded := decodeId(input);
    var id := decoded.id;
    if id == "" {
      id := DefaultId;
    }

    if setup.ProviderFailed? {
      return Failure(InternalErrorMessage, InternalStatus, Some(ProviderPrefix + setup.text)), None;
    }
    if setup.ClientFailed? {
      return Failure(InternalErrorMessage, InternalStatus, Some(ClientPrefix + setup.text)), None;
    }

    var key := map[CustomerIdColumn := id];
    var tableName := tableEnv;
    if tableName == "" {
      tableName := DefaultTableName;
    }
    var request := GetRequest(tableName, key);
    sent := Some(request);
    var answer := get(request);
    if answer.GetFailed? {
      return Failure(InternalErrorMessage, InternalStatus, Some(GetRowPrefix + answer.text)), sent;
    }
    if answer.Missing? {
      return Failure(NotFoundMessage, NotFoundStatus, Some(NotFoundText(id))), sent;
    }

    var info := EmptyInfo;
    match decodeRow(answer.row) {
      case MarshalFailed(_) =>
      case Unmarshalled(filled, _) => info := filled;
    }
    reply := Encoded(InfoBody(info));
  }
}
