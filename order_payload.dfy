/**
 * The order envelope `{"data": {"order_id", "customer_id", "amount"}}` and the
 * validation that both the place-order producer and the process-order relay
 * apply to it, with Python's own semantics for `isinstance`, `in` and `[...]`.
 */
module OrderPayload {
  import opened Wrappers
  import opened JsonValue

  const RequiredKeys: seq<string> := ["order_id", "customer_id", "amount"]

  const InvalidFormatText := "Invalid payload format: 'data' key is missing"
  const MissingFieldsText := "Invalid payload: 'order_id', 'customer_id', and 'amount' are required in 'data'"

  /** How the two validation statements end: a failed check, an exception raised by `in`, or a pass. */
  datatype Check = NotAnEnvelope | MissingFields | CheckRaised(text: string) | CheckPassed

  /** The three business fields copied out of `payload["data"]`. */
  datatype OrderFields = OrderFields(orderId: Json, customerId: Json, amount: Json)

  /** The envelope test: a dict that has a `data` key. */
  predicate IsEnvelope(payload: Json) {
    payload.JObject? && "data" in payload.fields
  }

  /** `all(key in data for key in keys)`: stops at the first key that is absent or whose test raises. */
  function AllIn(data: Json, keys: seq<string>): (r: Result<bool, string>)
    ensures r == Ok(true) <==> forall i :: 0 <= i < |keys| ==> PyContains(data, keys[i]) == Ok(true)
    ensures r.Err? <==> |keys| > 0 && PyContains(data, keys[0]).Err?
    ensures r.Err? ==> PyContains(data, keys[0]) == Err(r.error)
  {
    if |keys| == 0 then Ok(true)
    else match PyContains(data, keys[0])
      case Err(e) => Err(e)
      case Ok(found) => if found then AllIn(data, keys[1..]) else Ok(false)
  }

  /** Both validation statements, as written in the producer and in the relay. */
  function CheckOrder(payload: Json): (r: Check)
    ensures r == NotAnEnvelope <==> !IsEnvelope(payload)
    ensures r.CheckRaised? <==> IsEnvelope(payload) && var d := payload.fields["data"]; d.JNull? || d.JBool? || d.JNumber?
    ensures IsEnvelope(payload) && payload.fields["data"].JObject? ==>
              (r == CheckPassed <==> forall k :: k in RequiredKeys ==> k in payload.fields["data"].fields)
  {
    if !IsEnvelope(payload) then NotAnEnvelope
    else match AllIn(payload.fields["data"], RequiredKeys)
      case Err(e) => CheckRaised(e)
      case Ok(all) => if all then CheckPassed else MissingFields
  }

  /** The record fields `payload["data"]["order_id"]`, `["customer_id"]`, `["amount"]`, evaluated in that order. */
  function ExtractFields(payload: Json): (r: Result<OrderFields, string>)
    ensures r.Ok? <==> IsEnvelope(payload) && payload.fields["data"].JObject?
                       && forall k :: k in RequiredKeys ==> k in payload.fields["data"].fields
    ensures r.Ok? ==> var d := payload.fields["data"].fields;
                      r.value == OrderFields(d["order_id"], d["customer_id"], d["amount"])
  {
    match PyIndex(payload, "data")
    case Err(e) => Err(e)
    case Ok(data) =>
      match PyIndex(data, "order_id")
      case Err(e) => Err(e)
      case Ok(orderId) =>
        match PyIndex(data, "customer_id")
        case Err(e) => Err(e)
        case Ok(customerId) =>
          match PyIndex(data, "amount")
          case Err(e) => Err(e)
          case Ok(amount) => Ok(OrderFields(orderId, customerId, amount))
  }

  /**
   * The validation as evidently intended: `data` itself must be a dict holding
   * the three keys, so that a payload that passes can always be turned into a record.
   */
  function CheckOrderStrict(payload: Json): (r: Check)
    ensures !r.CheckRaised?
    ensures r == CheckPassed <==> ExtractFields(payload).Ok?
    ensures r == NotAnEnvelope <==> !IsEnvelope(payload)
  {
    if !IsEnvelope(payload) then NotAnEnvelope
    else
      var data := payload.fields["data"];
      if data.JObject? && forall k :: k in RequiredKeys ==> k in data.fields then CheckPassed
      else MissingFields
  }

  /** The correction changes nothing for a payload whose `data` is a dict. */
  lemma StrictAgreesOnDictData(payload: Json)
    requires IsEnvelope(payload) && payload.fields["data"].JObject?
    ensures CheckOrderStrict(payload) == CheckOrder(payload)
  {
  }

  /** `{"data": ["order_id", "customer_id", "amount"]}`: a list that names the three keys. */
  function ListDataPayload(): Json {
    JObject(map["data" := JArray([JString("order_id"), JString("customer_id"), JString("amount")])])
  }

  /**
   * As written, the list payload passes validation (each key is an element of
   * the list), yet its fields cannot be read: `data["order_id"]` raises TypeError.
   */
  lemma ListDataPassesButHasNoFields()
    ensures CheckOrder(ListDataPayload()) == CheckPassed
    ensures ExtractFields(ListDataPayload()).Err?
    ensures CheckOrderStrict(ListDataPayload()) == MissingFields
  {
    var data := ListDataPayload().fields["data"];
    assert PyContains(data, "order_id") == Ok(true) by { assert data.items[0] == JString("order_id"); }
    assert PyContains(data, "customer_id") == Ok(true) by { assert data.items[1] == JString("customer_id"); }
    assert PyContains(data, "amount") == Ok(true) by { assert data.items[2] == JString("amount"); }
    assert forall i :: 0 <= i < |RequiredKeys| ==> PyContains(data, RequiredKeys[i]) == Ok(true);
  }
}
