/**
 * The place-order producer function: it validates the POST body, serialises
 * the whole payload into one queue message and shapes a success or error
 * reply. Every exception inside the handler becomes
 * `{"status": "error", "message": str(e)}`, so the handler is a total function
 * from its inputs to a reply.
 */
module PlaceOrder {
  import opened Wrappers
  import opened JsonValue
  import opened OrderPayload
  import Text

  const NoQueueText := "QUEUE_OCID not found in function configuration"
  const NoPayloadText := "No payload provided in POST body"
  const IndexErrorText := "list index out of range"

  /**
   * What the handler reads from its environment: whether obtaining the signer
   * or building the queue client raised (and with what text), the configured
   * QUEUE_OCID, and the POST body (None when no data was passed).
   */
  datatype Invocation = Invocation(
    signerFault: Option<string>,
    clientFault: Option<string>,
    queueOcid: Option<string>,
    body: Option<string>)

  /** How `put_messages` answered: a status and the ids of the stored messages, or an exception. */
  datatype PutReply = PutAnswered(status: int, messageIds: seq<string>) | PutRaised(text: string)

  /** The reply dict: `{"status": "success", "messageId": ...}` or `{"status": "error", "message": ...}`. */
  datatype OrderResponse = Success(messageId: string) | Failure(message: string)

  /** The reply together with the content handed to `put_messages`, if the handler got that far. */
  datatype Handled = Handled(response: OrderResponse, submitted: Option<string>)

  function FailedPostText(status: int): string {
    "Failed to post message: " + Text.IntToString(status)
  }

  /** Everything before `put_messages` succeeded, and the body parsed to a payload that passed validation. */
  predicate ReachesPut(inv: Invocation, parse: string -> Result<Json, string>) {
    && inv.signerFault.None?
    && inv.clientFault.None?
    && Text.NonEmpty(inv.queueOcid)
    && inv.body.Some?
    && parse(inv.body.value).Ok?
    && CheckOrder(parse(inv.body.value).value) == CheckPassed
  }

  /**
   * The handler. `parse` is `json.loads` (an error carries `str(e)`), `dumps`
   * is `json.dumps`, and `put` is the queue service's answer to the single
   * `put_messages` call.
   */
  function Handle(inv: Invocation, parse: string -> Result<Json, string>, dumps: Json -> string, put: PutReply): (r: Handled)
    // nothing is submitted unless every check before the call passed, and then exactly the serialised payload
    ensures r.submitted.Some? <==> ReachesPut(inv, parse)
    ensures r.submitted.Some? ==> r.submitted == Some(dumps(parse(inv.body.value).value))
    // success exactly when the queue answered 200 with at least one message id, and then the first id
    ensures r.response.Success? <==> ReachesPut(inv, parse) && put.PutAnswered? && put.status == 200 && |put.messageIds| > 0
    ensures r.response.Success? ==> r.response.messageId == put.messageIds[0]
    ensures ReachesPut(inv, parse) && put.PutAnswered? && put.status != 200 ==> r.response == Failure(FailedPostText(put.status))
    // an exception from put_messages, or a 200 answer without messages, is reported as str(e)
    ensures ReachesPut(inv, parse) && put.PutRaised? ==> r.response == Failure(put.text)
    ensures ReachesPut(inv, parse) && put.PutAnswered? && put.status == 200 && |put.messageIds| == 0 ==>
              r.response == Failure(IndexErrorText)
    // the error cases before any call to the queue, in the order the handler meets them
    ensures inv.signerFault.Some? ==> r == Handled(Failure(inv.signerFault.value), None)
    ensures inv.signerFault.None? && inv.clientFault.Some? ==> r == Handled(Failure(inv.clientFault.value), None)
    ensures inv.signerFault.None? && inv.clientFault.None? && !Text.NonEmpty(inv.queueOcid) ==> r.response == Failure(NoQueueText)
    ensures inv.signerFault.None? && inv.clientFault.None? && Text.NonEmpty(inv.queueOcid) && inv.body.None? ==>
              r.response == Failure(NoPayloadText)
    ensures inv.signerFault.None? && inv.clientFault.None? && Text.NonEmpty(inv.queueOcid) && inv.body.Some? ==>
              match parse(inv.body.value)
              case Err(e) => r.response == Failure(e)
              case Ok(p) =>
                (CheckOrder(p) == NotAnEnvelope ==> r.response == Failure(InvalidFormatText))
                && (CheckOrder(p) == MissingFields ==> r.response == Failure(MissingFieldsText))
                && (CheckOrder(p).CheckRaised? ==> r.response == Failure(CheckOrder(p).text))
  {
    if inv.signerFault.Some? then Handled(Failure(inv.signerFault.value), None)
    else if inv.clientFault.Some? then Handled(Failure(inv.clientFault.value), None)
    else if !Text.NonEmpty(inv.queueOcid) then Handled(Failure(NoQueueText), None)
    else if inv.body.None? then Handled(Failure(NoPayloadText), None)
    else match parse(inv.body.value)
      case Err(e) => Handled(Failure(e), None)
      case Ok(payload) =>
        match CheckOrder(payload)
        case NotAnEnvelope => Handled(Failure(InvalidFormatText), None)
        case MissingFields => Handled(Failure(MissingFieldsText), None)
        case CheckRaised(e) => Handled(Failure(e), None)
        case CheckPassed =>
          var content := dumps(payload);
          var response :=
            match put
            case PutRaised(e) => Failure(e)
            case PutAnswered(status, ids) =>
              if status == 200 then
                if |ids| > 0 then Success(ids[0]) else Failure(IndexErrorText)
              else Failure(FailedPostText(status));
          Handled(response, Some(content))
  }

  /**
   * Finding, as written: a body whose `data` is a list naming the three keys
   * is accepted and enqueued, although it carries no order fields.
   */
  lemma ListDataIsEnqueued(inv: Invocation, parse: string -> Result<Json, string>, dumps: Json -> string, put: PutReply)
    requires inv.signerFault.None? && inv.clientFault.None? && Text.NonEmpty(inv.queueOcid) && inv.body.Some?
    requires parse(inv.body.value) == Ok(ListDataPayload())
    ensures Handle(inv, parse, dumps, put).submitted == Some(dumps(ListDataPayload()))
  {
    ListDataPassesButHasNoFields();
  }
}
