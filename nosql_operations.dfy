/**
 * The NoSQL operations of the sentiment MCP service: an object built once
 * from the OCI configuration and the environment, holding the table name
 * and compartment, that checks or creates the table, uploads results and
 * queries them; and the module-level instance created on first use.
 *
 * Loading the OCI configuration file and creating the NoSQL client are not
 * modelled beyond whether they succeed; the service's answers, the row id
 * and the time are parameters.
 */
module McpSentimentOps {
  import opened Wrappers
  import opened Text
  import opened JsonValue
  import opened SentimentStore

  const CompartmentRequiredText := "COMPARTMENT_ID environment variable is required"
  const InsufficientConfigText :=
    "Insufficient OCI configuration. Please set OCI environment variables or provide a valid config file."
  const DefaultConfigFile := "~/.oci/config"
  const DefaultProfile := "DEFAULT"
  const DefaultRegion := "us-ashburn-1"

  /** The environment variables the service reads. */
  datatype OpsEnv = OpsEnv(
    configFile: Option<string>, configProfile: Option<string>,
    tenancy: Option<string>, user: Option<string>, fingerprint: Option<string>, keyFile: Option<string>,
    region: Option<string>, tableName: Option<string>, compartmentId: Option<string>)

  /** The OCI configuration in use: the one loaded from a file, or the one assembled from the environment. */
  datatype OciConfig =
    | FileConfig(path: string, profile: string)
    | EnvConfig(tenancy: string, user: string, fingerprint: string, keyFile: string, region: string)

  /**
   * `_get_oci_config`. `fileLoads` says whether the configuration file at the
   * path and profile given (by default ~/.oci/config and DEFAULT) loads. When
   * it does not, the four identity settings must all be set and non-empty;
   * the region defaults to us-ashburn-1.
   */
  function GetOciConfig(env: OpsEnv, fileLoads: bool): (r: Result<OciConfig, string>)
    ensures fileLoads ==> r == Ok(FileConfig(env.configFile.GetOr(DefaultConfigFile), env.configProfile.GetOr(DefaultProfile)))
    ensures !fileLoads ==>
              (r.Ok? <==> NonEmpty(env.tenancy) && NonEmpty(env.user) && NonEmpty(env.fingerprint) && NonEmpty(env.keyFile))
    ensures !fileLoads && r.Ok? ==>
              r.value == EnvConfig(env.tenancy.value, env.user.value, env.fingerprint.value, env.keyFile.value,
                                   env.region.GetOr(DefaultRegion))
    ensures r.Err? ==> r.error == InsufficientConfigText
  {
    var path := env.configFile.GetOr(DefaultConfigFile);
    var profile := env.configProfile.GetOr(DefaultProfile);
    if fileLoads then Ok(FileConfig(path, profile))
    else if !(NonEmpty(env.tenancy) && NonEmpty(env.user) && NonEmpty(env.fingerprint) && NonEmpty(env.keyFile)) then
      Err(InsufficientConfigText)
    else Ok(EnvConfig(env.tenancy.value, env.user.value, env.fingerprint.value, env.keyFile.value,
                      env.region.GetOr(DefaultRegion)))
  }

  /**
   * Why the constructor raises, in the order it checks: the OCI
   * configuration, then COMPARTMENT_ID, then the client. `clientFault` is the
   * error text when the NoSQL client cannot be created.
   */
  function OpenFailure(env: OpsEnv, fileLoads: bool, clientFault: Option<string>): (f: Option<string>)
    ensures f.None? <==> GetOciConfig(env, fileLoads).Ok? && NonEmpty(env.compartmentId) && clientFault.None?
    ensures GetOciConfig(env, fileLoads).Err? ==> f == Some(InsufficientConfigText)
    ensures GetOciConfig(env, fileLoads).Ok? && !NonEmpty(env.compartmentId) ==> f == Some(CompartmentRequiredText)
  {
    match GetOciConfig(env, fileLoads)
    case Err(e) => Some(e)
    case Ok(_) =>
      if !NonEmpty(env.compartmentId) then Some(CompartmentRequiredText)
      else clientFault
  }

  class NoSQLOperations {
    const config: OciConfig
    const tableName: string
    const compartmentId: string

    /** The fields `__init__` sets once its checks have passed. */
    constructor (config: OciConfig, tableName: string, compartmentId: string)
      requires compartmentId != ""
      ensures this.config == config && this.tableName == tableName && this.compartmentId == compartmentId
    {
      this.config := config;
      this.tableName := tableName;
      this.compartmentId := compartmentId;
    }

    /** `create_table_if_not_exists`: every failure is caught and reported as False. */
    function CreateTableIfNotExists(calls: TableCalls): (ok: bool)
      ensures ok <==> calls.get.Done? || (NotFound(calls.get) && calls.create.Done? && calls.wait.Done?)
    {
      EnsureTable(calls).Ready()
    }

    /**
     * `upload_sentiment_result`: every failure becomes the answer's error
     * text, `str(e)`; only a ready table and a successful update_row write
     * the row.
     */
    function UploadSentimentResult(
      textContent: string, serialized: string, userId: Option<string>, sessionId: Option<string>,
      recordId: string, timestamp: string, calls: TableCalls, update: SdkReply): (r: UploadResult)
      ensures r.written.Some? <==> CreateTableIfNotExists(calls) && update.Done?
      ensures !CreateTableIfNotExists(calls) ==> r == UploadResult(UploadFailed(TableFailureText), None)
      ensures CreateTableIfNotExists(calls) && !update.Done? ==> r == UploadResult(UploadFailed(update.text), None)
      ensures r.written.Some? ==>
                && r.answer == Uploaded(r.written.value.id, r.written.value.analysisTimestamp)
                && r.written.value == NewRow(recordId, textContent, serialized, timestamp, userId, sessionId)
    {
      if !CreateTableIfNotExists(calls) then UploadResult(UploadFailed(TableFailureText), None)
      else
        var row := NewRow(recordId, textContent, serialized, timestamp, userId, sessionId);
        if !update.Done? then UploadResult(UploadFailed(update.text), None)
        else UploadResult(Uploaded(recordId, timestamp), Some(row))
    }

    /** `query_sentiment_results`: returns the answer and the statement sent. */
    method QuerySentimentResults(
      userId: Option<string>, sessionId: Option<string>, limit: int,
      reply: QueryReply, parse: string -> Result<Json, string>)
      returns (answer: QueryAnswer, query: string)
      ensures query == QueryText(tableName, userId, sessionId, limit)
      ensures !reply.Rows? ==> answer == QueryFailed(reply.text)
      ensures reply.Rows? ==> answer == ResultsAnswer(reply.items, parse)
    {
      query := BuildQuery(tableName, userId, sessionId, limit);
      if !reply.Rows? {
        return QueryFailed(reply.text), query;
      }
      var results := CollectResults(reply.items, parse);
      if results.Err? {
        return QueryFailed(results.error), query;
      }
      answer := Queried(|results.value|, results.value);
    }
  }

  /**
   * `NoSQLOperations()`: the checks of `__init__`, then the object. The
   * table name falls back to sentiment_analysis_results.
   */
  method Open(env: OpsEnv, fileLoads: bool, clientFault: Option<string>) returns (r: Result<NoSQLOperations, string>)
    ensures r.Err? <==> OpenFailure(env, fileLoads, clientFault).Some?
    ensures r.Err? ==> r.error == OpenFailure(env, fileLoads, clientFault).value
    ensures r.Ok? ==> && fresh(r.value)
                      && r.value.config == GetOciConfig(env, fileLoads).value
                      && r.value.tableName == TableName(env.tableName)
                      && r.value.compartmentId == env.compartmentId.value
  {
    var config := GetOciConfig(env, fileLoads);
    if config.Err? {
      return Err(config.error);
    }
    var tableName := TableName(env.tableName);
    if !NonEmpty(env.compartmentId) {
      return Err(CompartmentRequiredText);
    }
    if clientFault.Some? {
      return Err(clientFault.value);
    }
    var ops := new NoSQLOperations(config.value, tableName, env.compartmentId.value);
    return Ok(ops);
  }

  /** The module-level `nosql_ops`, created by the first successful `get_nosql_ops`. */
  class OpsRegistry {
    var instance: Option<NoSQLOperations>

    constructor ()
      ensures instance.None?
    {
      instance := None;
    }

    /**
     * `get_nosql_ops`: the existing instance, or a new one when none exists
     * yet. A failed creation raises and leaves no instance; once an instance
     * exists, every later call returns that same object.
     */
    method GetNoSqlOps(env: OpsEnv, fileLoads: bool, clientFault: Option<string>) returns (r: Result<NoSQLOperations, string>)
      modifies this
      ensures old(instance).Some? ==> instance == old(instance) && r == Ok(old(instance).value)
      ensures old(instance).None? ==>
                && (r.Err? <==> OpenFailure(env, fileLoads, clientFault).Some?)
                && (r.Err? ==> instance.None? && r.error == OpenFailure(env, fileLoads, clientFault).value)
                && (r.Ok? ==> fresh(r.value) && r.value.tableName == TableName(env.tableName))
      ensures r.Ok? <==> instance.Some?
      ensures r.Ok? ==> instance == Some(r.value)
    {
      if instance.None? {
        var created := Open(env, fileLoads, clientFault);
        if created.Err? {
          return created;
        }
        instance := Some(created.value);
      }
      return Ok(instance.value);
    }
  }
}
