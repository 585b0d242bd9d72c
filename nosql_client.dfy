/**
 * The NoSQL tools of the MCP server: reading the compartment and table name
 * from the environment, checking or creating the table, uploading one
 * sentiment result and querying stored results.
 *
 * `clientFault` is the error text when no NoSQL client can be created
 * (configuration file or workload identity); the service's answers are
 * parameters, the row id and the time are parameters too.
 */
module McpServerNoSql {
  import opened Wrappers
  import opened Text
  import opened JsonValue
  import opened SentimentStore

  const CompartmentRequiredText := "COMPARTMENT_ID environment variable is required"
  const ServiceErrorPrefix := "Service error: "
  const TotalColumn := "total"

  /** The environment variables the tools read. */
  datatype ServerEnv = ServerEnv(compartmentId: Option<string>, tableName: Option<string>)

  /** `get_compartment_id`: the variable's value, or ValueError when it is unset or empty. */
  function CompartmentId(env: ServerEnv): (r: Result<string, string>)
    ensures r.Ok? <==> NonEmpty(env.compartmentId)
    ensures r.Ok? ==> r.value == env.compartmentId.value
    ensures r.Err? ==> r.error == CompartmentRequiredText
  {
    if NonEmpty(env.compartmentId) then Ok(env.compartmentId.value) else Err(CompartmentRequiredText)
  }

  /**
   * `create_table_if_not_exists`: a client that cannot be created makes the
   * answer False; otherwise the decision of `EnsureTable`.
   */
  function CreateTableIfNotExists(clientFault: Option<string>, calls: TableCalls): (ok: bool)
    ensures ok <==> clientFault.None? && (calls.get.Done? || (NotFound(calls.get) && calls.create.Done? && calls.wait.Done?))
  {
    clientFault.None? && EnsureTable(calls).Ready()
  }

  /** How an exception from the service surfaces in a tool's answer: a ServiceError shows its message. */
  function FailureText(reply: SdkReply): string
    requires !reply.Done?
  {
    match reply
    case ServiceFailure(_, message, _) => ServiceErrorPrefix + message
    case Raised(text) => text
  }

  /**
   * `upload_sentiment_result`. `serialized` is `json.dumps(sentiment_result)`,
   * `recordId` the generated UUID, `timestamp` the current time; `update` is
   * the answer to update_row. A row is written exactly when the compartment
   * is set, the table is ready and update_row succeeds; the answer then
   * carries the row's id and time, and the row holds the defaults for a
   * missing user or session id.
   */
  function UploadSentimentResult(
    env: ServerEnv, textContent: string, serialized: string, userId: Option<string>, sessionId: Option<string>,
    recordId: string, timestamp: string, clientFault: Option<string>, calls: TableCalls, update: SdkReply): (r: UploadResult)
    ensures r.written.Some? <==> NonEmpty(env.compartmentId) && CreateTableIfNotExists(clientFault, calls) && update.Done?
    ensures r.answer.Uploaded? <==> r.written.Some?
    ensures r.written.Some? ==>
              && r.answer.recordId == r.written.value.id
              && r.answer.timestamp == r.written.value.analysisTimestamp
              && r.written.value == NewRow(recordId, textContent, serialized, timestamp, userId, sessionId)
    ensures !NonEmpty(env.compartmentId) ==> r.answer == UploadFailed(CompartmentRequiredText)
    ensures NonEmpty(env.compartmentId) && !CreateTableIfNotExists(clientFault, calls) ==>
              r.answer == UploadFailed(TableFailureText)
    ensures NonEmpty(env.compartmentId) && CreateTableIfNotExists(clientFault, calls) && !update.Done? ==>
              r.answer == UploadFailed(FailureText(update))
  {
    match CompartmentId(env)
    case Err(e) => UploadResult(UploadFailed(e), None)
    case Ok(compartment) =>
      if !CreateTableIfNotExists(clientFault, calls) then UploadResult(UploadFailed(TableFailureText), None)
      else
        var row := NewRow(recordId, textContent, serialized, timestamp, userId, sessionId);
        if !update.Done? then UploadResult(UploadFailed(FailureText(update)), None)
        else UploadResult(Uploaded(recordId, timestamp), Some(row))
  }

  /**
   * `query_sentiment_results`. Returns the answer and the statement sent to
   * the service, if one was sent.
   */
  method QuerySentimentResults(
    env: ServerEnv, userId: Option<string>, sessionId: Option<string>, limit: int,
    clientFault: Option<string>, reply: QueryReply, parse: string -> Result<Json, string>)
    returns (answer: QueryAnswer, sent: Option<string>)
    ensures sent.Some? <==> NonEmpty(env.compartmentId) && clientFault.None?
    ensures sent.Some? ==> sent.value == QueryText(TableName(env.tableName), userId, sessionId, limit)
    ensures !NonEmpty(env.compartmentId) ==> answer == QueryFailed(CompartmentRequiredText)
    ensures NonEmpty(env.compartmentId) && clientFault.Some? ==> answer == QueryFailed(clientFault.value)
    ensures sent.Some? && !reply.Rows? ==> answer == QueryFailed(FailureText(reply.Failure()))
    ensures sent.Some? && reply.Rows? ==> answer == ResultsAnswer(reply.items, parse)
  {
    sent := None;
    var compartment := CompartmentId(env);
    if compartment.Err? {
      return QueryFailed(compartment.error), None;
    }
    var table := TableName(env.tableName);
    var query := BuildQuery(table, userId, sessionId, limit);
    if clientFault.Some? {
      return QueryFailed(clientFault.value), None;
    }
    sent := Some(query);
    if !reply.Rows? {
      return QueryFailed(FailureText(reply.Failure())), sent;
    }
    var results := CollectResults(reply.items, parse);
    if results.Err? {
      return QueryFailed(results.error), sent;
    }
    answer := Queried(|results.value|, results.value);
  }

  /** The `total_rows` of `get_table_stats`: the first item's `total`, or 0 when no item comes back. */
  function TotalRows(items: seq<map<string, int>>): (r: Result<int, string>)
    ensures |items| == 0 ==> r == Ok(0)
    ensures |items| > 0 && TotalColumn in items[0] ==> r == Ok(items[0][TotalColumn])
    ensures |items| > 0 && TotalColumn !in items[0] ==> r == Err(KeyErrorText(TotalColumn))
  {
    if |items| == 0 then Ok(0)
    else if TotalColumn in items[0] then Ok(items[0][TotalColumn])
    else Err(KeyErrorText(TotalColumn))
  }
}
