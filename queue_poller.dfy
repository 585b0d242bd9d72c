/**
 * The process-order relay: an endless loop that receives a batch of queue
 * messages, turns each valid order message into a record, inserts the record
 * into the NoSQL table only if no row with its `order_id` exists
 * (`option="IF_ABSENT"`), and deletes the message by its receipt only after an
 * insert that answered 200.
 *
 * The queue service and the table service are reduced to their observable
 * state: the queue is the sequence of stored messages, the table is a map from
 * `order_id` to record, and each service call is represented by the answer it
 * gave (a status, a ServiceError, or another exception). The clock reading for
 * `created_at` travels with each delivery.
 */
module QueuePoller {
  import opened Wrappers
  import opened JsonValue
  import opened OrderPayload
  import PlaceOrder
  import Text

  /** Seconds slept after an empty or failed receive. */
  const IdleWait: nat := 10
  /** Seconds slept after a batch has been handled. */
  const BatchPause: nat := 1
  /** Seconds slept after an exception escaped the cycle. */
  const ErrorWait: nat := 10

  const DefaultRegion := "us-ashburn-1"
  const NoQueueOcidText := "QUEUE_OCID not found in environment variables"
  const NoTableOcidText := "TABLE_OCID not found in environment variables"

  /** Why the relay did not reach its polling loop; each of these is re-raised and ends the process. */
  datatype StartFailure =
    | SignerFailed            // no resource principal signer
    | Misconfigured(text: string) // the ValueError raised for a missing setting
    | QueueInaccessible       // get_queue raised

  /** What the relay reads and calls before polling. */
  datatype Startup = Startup(
    signerFault: bool, region: Option<string>, queueOcid: Option<string>, tableOcid: Option<string>,
    getQueue: Call)

  /** The queue endpoint for a region. */
  function QueueEndpoint(region: string): (url: string)
    ensures |url| == 31 + |region| + 20
    ensures url[..31] == "https://cell-1.queue.messaging." && url[31..|url| - 20] == region
    ensures url[|url| - 20..] == ".oci.oraclecloud.com"
  {
    "https://cell-1.queue.messaging." + region + ".oci.oraclecloud.com"
  }

  /** Lines 16-58: on success, the endpoint the queue client talks to. */
  function Initialize(st: Startup): (r: Result<string, StartFailure>)
    ensures r.Ok? <==> !st.signerFault && Text.NonEmpty(st.queueOcid) && Text.NonEmpty(st.tableOcid)
                       && !st.getQueue.ServiceFailure? && !st.getQueue.Unexpected?
    ensures r.Ok? ==> r.value == QueueEndpoint(st.region.GetOr(DefaultRegion))
    ensures !st.signerFault && !Text.NonEmpty(st.queueOcid) ==> r == Err(Misconfigured(NoQueueOcidText))
    ensures !st.signerFault && Text.NonEmpty(st.queueOcid) && !Text.NonEmpty(st.tableOcid) ==>
              r == Err(Misconfigured(NoTableOcidText))
    ensures st.signerFault ==> r == Err(SignerFailed)
  {
    if st.signerFault then Err(SignerFailed)
    else if !Text.NonEmpty(st.queueOcid) then Err(Misconfigured(NoQueueOcidText))
    else if !Text.NonEmpty(st.tableOcid) then Err(Misconfigured(NoTableOcidText))
    else if !st.getQueue.Answered? then Err(QueueInaccessible)
    else Ok(QueueEndpoint(st.region.GetOr(DefaultRegion)))
  }

  /** Different regions give different endpoints. */
  lemma EndpointDeterminesRegion(a: string, b: string)
    requires QueueEndpoint(a) == QueueEndpoint(b)
    ensures a == b
  {
  }

  datatype Message = Message(id: string, content: string, receipt: string)

  /** The row written to the table. */
  datatype Record = Record(orderId: Json, customerId: Json, amount: Json, createdAt: string)

  /** How one service call ended: an answer with an HTTP status, `oci.exceptions.ServiceError`, or any other exception. */
  datatype Call = Answered(status: int) | ServiceFailure | Unexpected

  /**
   * One received message, the clock reading used for `created_at`, and the
   * answers of the `update_row` and `delete_message` calls made for it (an
   * answer is ignored when the call is not reached).
   */
  datatype Delivery = Delivery(message: Message, now: string, insert: Call, delete: Call)

  /** The answer to one `get_messages` call. */
  datatype Poll = Polled(status: int, batch: seq<Delivery>) | PollServiceFailure | PollUnexpected

  /** What parsing, validating and reading the fields of a message content gave. */
  datatype Verdict =
    | Unparsable         // json.loads raised JSONDecodeError
    | NotAnOrder         // not a dict, or no "data" key
    | MissingOrderFields // a required key is not in data
    | Faulted(text: string) // a TypeError from `in` or from indexing data
    | Accepted(fields: OrderFields)

  /** How the handling of one message ended. */
  datatype Outcome =
    | Skipped(verdict: Verdict) // logged and `continue`: no store call, no delete
    | Acknowledged              // inserted with status 200, then deleted
    | DeleteServiceError        // inserted with status 200, delete raised ServiceError
    | InsertRefused(status: int) // insert answered a status other than 200
    | InsertServiceError        // insert raised ServiceError
    | Crashed                   // another exception left the batch

  datatype RelayState = RelayState(queue: seq<Message>, store: map<Json, Record>)

  datatype BatchResult = BatchResult(state: RelayState, outcomes: seq<Outcome>, aborted: bool)

  datatype CycleResult = CycleResult(state: RelayState, wait: nat, outcomes: seq<Outcome>)

  /** Lines 83-103 as written. */
  function Classify(parsed: Result<Json, string>): (v: Verdict)
    ensures v.Accepted? ==> parsed.Ok? && ExtractFields(parsed.value) == Ok(v.fields)
    ensures parsed.Err? <==> v == Unparsable
  {
    match parsed
    case Err(_) => Unparsable
    case Ok(payload) =>
      match CheckOrder(payload)
      case NotAnEnvelope => NotAnOrder
      case MissingFields => MissingOrderFields
      case CheckRaised(e) => Faulted(e)
      case CheckPassed =>
        match ExtractFields(payload)
        case Err(e) => Faulted(e)
        case Ok(fields) => Accepted(fields)
  }

  /** The same lines with the strict validation: `data` must itself be a dict. */
  function ClassifyStrict(parsed: Result<Json, string>): (v: Verdict)
    ensures !v.Faulted?
    ensures !Classify(parsed).Faulted? ==> v == Classify(parsed)
    ensures Classify(parsed).Faulted? ==> v == MissingOrderFields
  {
    match parsed
    case Err(_) => Unparsable
    case Ok(payload) =>
      match CheckOrderStrict(payload)
      case NotAnEnvelope => NotAnOrder
      case CheckPassed => Accepted(ExtractFields(payload).value)
      case _ => MissingOrderFields
  }

  /** The relay as written judges a message content by `Classify(json.loads(content))`. */
  function AsWritten(parse: string -> Result<Json, string>): string -> Verdict {
    content => Classify(parse(content))
  }

  /** The relay with the corrected validation. */
  function Corrected(parse: string -> Result<Json, string>): string -> Verdict {
    content => ClassifyStrict(parse(content))
  }

  /** Records 'order_id', 'customer_id' and 'amount' copied from data, plus the timestamp. */
  function RecordOf(f: OrderFields, now: string): Record {
    Record(f.orderId, f.customerId, f.amount, now)
  }

  /** The table is keyed by `order_id`: every row sits under its own key. */
  ghost predicate StoreKeyed(store: map<Json, Record>) {
    forall k :: k in store ==> store[k].orderId == k
  }

  /** `before` is contained in `after`: no row removed and no row changed. */
  ghost predicate Extends(before: map<Json, Record>, after: map<Json, Record>) {
    forall k :: k in before ==> k in after && after[k] == before[k]
  }

  /** `update_row` with `option="IF_ABSENT"`: a row with the same key is left as it is. */
  function InsertIfAbsent(store: map<Json, Record>, r: Record): (t: map<Json, Record>)
    ensures t.Keys == store.Keys + {r.orderId}
    ensures Extends(store, t)
    ensures r.orderId !in store ==> t[r.orderId] == r
    ensures StoreKeyed(store) ==> StoreKeyed(t)
  {
    if r.orderId in store then store else store[r.orderId := r]
  }

  /** `delete_message` by receipt: the messages holding that receipt leave the queue, the others stay in order. */
  function RemoveReceipt(q: seq<Message>, receipt: string): (r: seq<Message>)
    ensures forall m :: m in r <==> m in q && m.receipt != receipt
  {
    if |q| == 0 then []
    else (if q[0].receipt == receipt then [] else [q[0]]) + RemoveReceipt(q[1..], receipt)
  }

  /** How handling `d` ends; it depends on the message and the service answers only, not on the state. */
  function OutcomeOf(judge: string -> Verdict, d: Delivery): (o: Outcome)
    ensures o.Skipped? <==> judge(d.message.content) in {Unparsable, NotAnOrder, MissingOrderFields}
    ensures o in {Acknowledged, DeleteServiceError} ==> judge(d.message.content).Accepted? && d.insert == Answered(200)
    ensures o == Acknowledged <==> judge(d.message.content).Accepted? && d.insert == Answered(200) && d.delete.Answered?
    ensures o == Crashed <==>
              || judge(d.message.content).Faulted?
              || (judge(d.message.content).Accepted? && d.insert == Unexpected)
              || (judge(d.message.content).Accepted? && d.insert == Answered(200) && d.delete == Unexpected)
    ensures o.InsertRefused? <==>
              judge(d.message.content).Accepted? && d.insert.Answered? && d.insert.status != 200
    ensures o.InsertRefused? ==> o.status == d.insert.status
    ensures o == InsertServiceError <==> judge(d.message.content).Accepted? && d.insert == ServiceFailure
    ensures o == DeleteServiceError <==>
              judge(d.message.content).Accepted? && d.insert == Answered(200) && d.delete == ServiceFailure
  {
    match judge(d.message.content)
    case Faulted(_) => Crashed
    case Accepted(_) =>
      (match d.insert
       case Unexpected => Crashed
       case ServiceFailure => InsertServiceError
       case Answered(status) =>
         if status != 200 then InsertRefused(status)
         else match d.delete
           case Answered(_) => Acknowledged
           case ServiceFailure => DeleteServiceError
           case Unexpected => Crashed)
    case v => Skipped(v)
  }

  /** The state after handling `d`: the insert happens on status 200, the delete only after it. */
  function Step(judge: string -> Verdict, s: RelayState, d: Delivery): (t: RelayState)
    ensures StoreKeyed(s.store) ==> StoreKeyed(t.store)
    ensures Extends(s.store, t.store)
    ensures t.store != s.store ==>
              judge(d.message.content).Accepted? && d.insert == Answered(200)
              && t.store == s.store[judge(d.message.content).fields.orderId := RecordOf(judge(d.message.content).fields, d.now)]
    ensures judge(d.message.content).Accepted? && d.insert == Answered(200) ==>
              judge(d.message.content).fields.orderId in t.store
    ensures OutcomeOf(judge, d) != Acknowledged ==> t.queue == s.queue
    ensures OutcomeOf(judge, d) == Acknowledged ==> t.queue == RemoveReceipt(s.queue, d.message.receipt)
  {
    match judge(d.message.content)
    case Accepted(fields) =>
      if d.insert == Answered(200) then
        var store := InsertIfAbsent(s.store, RecordOf(fields, d.now));
        if d.delete.Answered? then RelayState(RemoveReceipt(s.queue, d.message.receipt), store)
        else RelayState(s.queue, store)
      else s
    case _ => s
  }

  /** The `for` loop over a batch: messages in order, until one of them crashes the cycle. */
  function RunBatch(judge: string -> Verdict, s: RelayState, ds: seq<Delivery>): (r: BatchResult)
    ensures |r.outcomes| <= |ds|
    ensures forall i :: 0 <= i < |r.outcomes| ==> r.outcomes[i] == OutcomeOf(judge, ds[i])
    ensures !r.aborted ==> |r.outcomes| == |ds| && forall i :: 0 <= i < |ds| ==> OutcomeOf(judge, ds[i]) != Crashed
    ensures r.aborted ==> 0 < |r.outcomes| && r.outcomes[|r.outcomes| - 1] == Crashed
    ensures forall i :: 0 <= i < |r.outcomes| - 1 ==> r.outcomes[i] != Crashed
    decreases |ds|
  {
    if |ds| == 0 then BatchResult(s, [], false)
    else
      var prev := RunBatch(judge, s, ds[..|ds| - 1]);
      if prev.aborted then prev
      else
        var d := ds[|ds| - 1];
        var o := OutcomeOf(judge, d);
        BatchResult(Step(judge, prev.state, d), prev.outcomes + [o], o == Crashed)
  }

  /** One turn of the `while True` loop. */
  function Cycle(judge: string -> Verdict, s: RelayState, p: Poll): (r: CycleResult)
    ensures !(p.Polled? && p.status == 200 && |p.batch| > 0) ==> r.state == s && r.outcomes == []
    ensures p.Polled? && (p.status != 200 || |p.batch| == 0) ==> r.wait == IdleWait
    ensures !p.Polled? ==> r.wait == ErrorWait
    // a non-empty batch: the loop's state and outcomes, then the short pause, or the error wait after a crash
    ensures p.Polled? && p.status == 200 && |p.batch| > 0 ==>
              var b := RunBatch(judge, s, p.batch);
              && r.state == b.state && r.outcomes == b.outcomes
              && (r.wait == ErrorWait <==> b.aborted)
              && (!b.aborted ==> r.wait == BatchPause)
  {
    match p
    case PollServiceFailure => CycleResult(s, ErrorWait, [])
    case PollUnexpected => CycleResult(s, ErrorWait, [])
    case Polled(status, batch) =>
      if status != 200 || |batch| == 0 then CycleResult(s, IdleWait, [])
      else
        var b := RunBatch(judge, s, batch);
        CycleResult(b.state, if b.aborted then ErrorWait else BatchPause, b.outcomes)
  }

  /** The state after one cycle per poll answer, in order. */
  function RunCycles(judge: string -> Verdict, s: RelayState, polls: seq<Poll>): RelayState
    decreases |polls|
  {
    if |polls| == 0 then s
    else Cycle(judge, RunCycles(judge, s, polls[..|polls| - 1]), polls[|polls| - 1]).state
  }

  /** Once a batch has crashed, the messages after the crash are not looked at. */
  lemma {:induction false} AbortIsFinal(judge: string -> Verdict, s: RelayState, ds: seq<Delivery>, j: nat)
    requires j <= |ds|
    requires RunBatch(judge, s, ds[..j]).aborted
    ensures RunBatch(judge, s, ds) == RunBatch(judge, s, ds[..j])
    decreases |ds|
  {
    if j < |ds| {
      var init := ds[..|ds| - 1];
      assert init[..j] == ds[..j];
      AbortIsFinal(judge, s, init, j);
    } else {
      assert ds[..j] == ds;
    }
  }

  /** The batch never removes or changes a row, and keeps the table keyed by `order_id`. */
  lemma {:induction false} BatchExtendsStore(judge: string -> Verdict, s: RelayState, ds: seq<Delivery>)
    requires StoreKeyed(s.store)
    ensures StoreKeyed(RunBatch(judge, s, ds).state.store)
    ensures Extends(s.store, RunBatch(judge, s, ds).state.store)
    decreases |ds|
  {
    if |ds| > 0 {
      BatchExtendsStore(judge, s, ds[..|ds| - 1]);
    }
  }

  /**
   * Bad messages never reach the table: every row the batch added comes from
   * a delivery whose content was judged a valid order with that `order_id` and
   * whose insert answered 200.
   */
  lemma {:induction false} NewRowsComeFromAcceptedInserts(judge: string -> Verdict, s: RelayState, ds: seq<Delivery>, k: Json)
    requires k in RunBatch(judge, s, ds).state.store && k !in s.store
    ensures exists i :: 0 <= i < |ds| && judge(ds[i].message.content).Accepted?
                        && judge(ds[i].message.content).fields.orderId == k && ds[i].insert == Answered(200)
    decreases |ds|
  {
    var init := ds[..|ds| - 1];
    var prev := RunBatch(judge, s, init);
    if k in prev.state.store {
      NewRowsComeFromAcceptedInserts(judge, s, init, k);
      var i :| 0 <= i < |init| && judge(init[i].message.content).Accepted?
               && judge(init[i].message.content).fields.orderId == k && init[i].insert == Answered(200);
      assert ds[i] == init[i];
    } else {
      var i := |ds| - 1;
      assert judge(ds[i].message.content).Accepted? && judge(ds[i].message.content).fields.orderId == k
             && ds[i].insert == Answered(200);
    }
  }

  /**
   * No deletion without a successful insert: a message leaves the queue only
   * through a delivery with the same receipt whose outcome was Acknowledged,
   * which in turn requires an insert that answered 200.
   */
  lemma {:induction false} RemovedOnlyByAcknowledgement(judge: string -> Verdict, s: RelayState, ds: seq<Delivery>, m: Message)
    requires m in s.queue && m !in RunBatch(judge, s, ds).state.queue
    ensures exists i :: 0 <= i < |RunBatch(judge, s, ds).outcomes| && ds[i].message.receipt == m.receipt
                        && RunBatch(judge, s, ds).outcomes[i] == Acknowledged && ds[i].insert == Answered(200)
    decreases |ds|
  {
    var r := RunBatch(judge, s, ds);
    var init := ds[..|ds| - 1];
    var prev := RunBatch(judge, s, init);
    if m !in prev.state.queue {
      RemovedOnlyByAcknowledgement(judge, s, init, m);
      var i :| 0 <= i < |prev.outcomes| && init[i].message.receipt == m.receipt
               && prev.outcomes[i] == Acknowledged && init[i].insert == Answered(200);
      assert ds[i] == init[i] && r.outcomes[i] == prev.outcomes[i];
    } else {
      var i := |ds| - 1;
      assert r.outcomes[i] == Acknowledged && ds[i].message.receipt == m.receipt;
    }
  }

  /** The queue only loses messages. */
  lemma {:induction false} BatchOnlyRemoves(judge: string -> Verdict, s: RelayState, ds: seq<Delivery>, m: Message)
    requires m in RunBatch(judge, s, ds).state.queue
    ensures m in s.queue
    decreases |ds|
  {
    if |ds| > 0 {
      var init := ds[..|ds| - 1];
      if m in RunBatch(judge, s, init).state.queue {
        BatchOnlyRemoves(judge, s, init, m);
      }
    }
  }

  /**
   * Idempotent re-delivery: once a message has been inserted, handling the
   * same content again (with any later clock reading) leaves the table as it
   * is, and a 200 answer lets the redelivered copy be deleted too.
   */
  lemma RedeliveryKeepsStore(judge: string -> Verdict, s: RelayState, d1: Delivery, d2: Delivery)
    requires d2.message.content == d1.message.content
    requires judge(d1.message.content).Accepted? && d1.insert == Answered(200)
    ensures Step(judge, Step(judge, s, d1), d2).store == Step(judge, s, d1).store
    ensures d2.insert == Answered(200) && d2.delete.Answered? ==> OutcomeOf(judge, d2) == Acknowledged
  {
  }

  /**
   * Finding, as written: a message whose `data` is a list naming the three
   * keys passes validation, then `data["order_id"]` raises TypeError, which
   * is caught by the cycle's `except Exception`. The later messages of the batch
   * are not handled and the message is not deleted, so it comes back forever.
   */
  lemma ListDataCrashesBatch(parse: string -> Result<Json, string>, s: RelayState, d1: Delivery, d2: Delivery)
    requires parse(d1.message.content) == Ok(ListDataPayload())
    ensures RunBatch(AsWritten(parse), s, [d1, d2]) == BatchResult(s, [Crashed], true)
    ensures Cycle(AsWritten(parse), s, Polled(200, [d1, d2])) == CycleResult(s, ErrorWait, [Crashed])
  {
    ListDataPassesButHasNoFields();
    assert AsWritten(parse)(d1.message.content).Faulted?;
    var ds := [d1, d2];
    assert ds[..1] == [d1];
    assert ds[..1][..0] == [];
    AbortIsFinal(AsWritten(parse), s, ds, 1);
  }

  /**
   * Corrected: with the strict validation a cycle is left early only when a
   * service call raised something other than ServiceError; bad messages are
   * skipped and the rest of the batch is handled.
   */
  lemma CorrectedCrashesOnlyOnServiceFault(parse: string -> Result<Json, string>, s: RelayState, ds: seq<Delivery>)
    requires RunBatch(Corrected(parse), s, ds).aborted
    ensures exists i :: 0 <= i < |ds| && (ds[i].insert == Unexpected || ds[i].delete == Unexpected)
  {
    var r := RunBatch(Corrected(parse), s, ds);
    var i := |r.outcomes| - 1;
    assert OutcomeOf(Corrected(parse), ds[i]) == Crashed;
    assert Corrected(parse)(ds[i].message.content) == ClassifyStrict(parse(ds[i].message.content));
  }

  /**
   * Producer to relay: an order that passes the strict validation is enqueued
   * as its serialisation; the relay stores exactly one row for its `order_id`
   * with the three fields unchanged, deletes the message, and a redelivery of
   * the same message changes nothing in the table.
   */
  lemma PlacedOrderIsStoredOnce(
    inv: PlaceOrder.Invocation, parse: string -> Result<Json, string>, dumps: Json -> string,
    put: PlaceOrder.PutReply, s: RelayState, m: Message, t1: string, t2: string)
    requires PlaceOrder.ReachesPut(inv, parse)
    requires CheckOrderStrict(parse(inv.body.value).value) == CheckPassed
    requires m.content == dumps(parse(inv.body.value).value)
    requires parse(m.content) == parse(inv.body.value)
    ensures PlaceOrder.Handle(inv, parse, dumps, put).submitted == Some(m.content)
    ensures var payload := parse(inv.body.value).value;
            var data := payload.fields["data"].fields;
            var d1 := Delivery(m, t1, Answered(200), Answered(200));
            var d2 := Delivery(m, t2, Answered(200), Answered(200));
            var s1 := Step(AsWritten(parse), s, d1);
            && data["order_id"] in s1.store
            && (data["order_id"] !in s.store ==>
                  s1.store[data["order_id"]] == Record(data["order_id"], data["customer_id"], data["amount"], t1))
            && s1.store.Keys == s.store.Keys + {data["order_id"]}
            && OutcomeOf(AsWritten(parse), d1) == Acknowledged
            && Step(AsWritten(parse), s1, d2).store == s1.store
            && OutcomeOf(AsWritten(parse), d2) == Acknowledged
  {
    var payload := parse(inv.body.value).value;
    StrictAgreesOnDictData(payload);
  }

  /** The relay process: its queue and table, and the parser it applies to message contents. */
  class Relay {
    const parse: string -> Result<Json, string>
    var queue: seq<Message>
    var store: map<Json, Record>

    ghost predicate Valid()
      reads this
    {
      StoreKeyed(store)
    }

    function State(): RelayState
      reads this
    {
      RelayState(queue, store)
    }

    /** Starts the relay against an existing queue and a table keyed by `order_id`. */
    constructor (parse: string -> Result<Json, string>, queue: seq<Message>, store: map<Json, Record>)
      requires StoreKeyed(store)
      ensures Valid()
      ensures this.parse == parse && this.queue == queue && this.store == store
    {
      this.parse := parse;
      this.queue := queue;
      this.store := store;
    }

    /** The body of the `for` loop for one message (lines 77-129): classify then, for a valid order, insert and delete. */
    method HandleMessage(d: Delivery) returns (outcome: Outcome)
      requires Valid()
      modifies this
      ensures Valid()
      ensures State() == Step(AsWritten(parse), old(State()), d)
      ensures outcome == OutcomeOf(AsWritten(parse), d)
    {
      var verdict := Classify(parse(d.message.content));
      assert verdict == AsWritten(parse)(d.message.content);
      match verdict {
        case Faulted(_) =>
          outcome := Crashed;
        case Accepted(fields) =>
          var record := RecordOf(fields, d.now);
          match d.insert {
            case Unexpected =>
              outcome := Crashed;
            case ServiceFailure =>
              outcome := InsertServiceError;
            case Answered(status) =>
              if status == 200 {
                store := InsertIfAbsent(store, record);
                match d.delete {
                  case Answered(_) =>
                    queue := RemoveReceipt(queue, d.message.receipt);
                    outcome := Acknowledged;
                  case ServiceFailure =>
                    outcome := DeleteServiceError;
                  case Unexpected =>
                    outcome := Crashed;
                }
              } else {
                outcome := InsertRefused(status);
              }
          }
        case _ =>
          outcome := Skipped(verdict);
      }
    }

    /** The `for message in messages` loop of one cycle (lines 76-129), left on the first crash. */
    method HandleBatch(batch: seq<Delivery>) returns (outcomes: seq<Outcome>, aborted: bool)
      requires Valid()
      modifies this
      ensures Valid()
      ensures var r := RunBatch(AsWritten(parse), old(State()), batch);
              State() == r.state && outcomes == r.outcomes && aborted == r.aborted
    {
      ghost var start := State();
      ghost var judge := AsWritten(parse);
      outcomes, aborted := [], false;
      var i := 0;
      while i < |batch|
        invariant 0 <= i <= |batch|
        invariant Valid()
        invariant RunBatch(judge, start, batch[..i]) == BatchResult(State(), outcomes, false)
      {
        assert batch[..i + 1][..i] == batch[..i];
        var outcome := HandleMessage(batch[i]);
        outcomes := outcomes + [outcome];
        if outcome == Crashed {
          aborted := true;
          AbortIsFinal(judge, start, batch, i + 1);
          return;
        }
        i := i + 1;
      }
      assert batch[..i] == batch;
    }

    /** One turn of the polling loop: receive, handle the batch, and the wait that follows. */
    method PollOnce(p: Poll) returns (wait: nat, outcomes: seq<Outcome>)
      requires Valid()
      modifies this
      ensures Valid()
      ensures var r := Cycle(AsWritten(parse), old(State()), p);
              State() == r.state && wait == r.wait && outcomes == r.outcomes
    {
      match p {
        case PollServiceFailure =>
          wait, outcomes := ErrorWait, [];
        case PollUnexpected =>
          wait, outcomes := ErrorWait, [];
        case Polled(status, batch) =>
          if status != 200 || |batch| == 0 {
            wait, outcomes := IdleWait, [];
          } else {
            var aborted;
            outcomes, aborted := HandleBatch(batch);
            wait := if aborted then ErrorWait else BatchPause;
          }
      }
    }

    /**
     * The `while True` loop, run for as many cycles as there are poll answers:
     * no answer ends the loop; every cycle ends with a wait and the next poll.
     */
    method Serve(polls: seq<Poll>) returns (waits: seq<nat>)
      requires Valid()
      modifies this
      ensures Valid()
      ensures |waits| == |polls|
      ensures forall i :: 0 <= i < |polls| ==> waits[i] > 0
      ensures State() == RunCycles(AsWritten(parse), old(State()), polls)
      ensures Extends(old(store), store)
    {
      ghost var start := State();
      waits := [];
      var i := 0;
      while i < |polls|
        invariant 0 <= i <= |polls|
        invariant Valid()
        invariant |waits| == i
        invariant forall j :: 0 <= j < i ==> waits[j] > 0
        invariant State() == RunCycles(AsWritten(parse), start, polls[..i])
        invariant Extends(start.store, store)
      {
        ghost var before := State();
        assert polls[..i + 1][..i] == polls[..i];
        var wait, _ := PollOnce(polls[i]);
        if polls[i].Polled? && polls[i].status == 200 && |polls[i].batch| > 0 {
          BatchExtendsStore(AsWritten(parse), before, polls[i].batch);
        }
        waits := waits + [wait];
        i := i + 1;
      }
      assert polls[..i] == polls;
    }
  }
}
