/**
 * The sentiment results table as both MCP services use it: the table name,
 * the row an upload writes, the SELECT statement a query sends, the decision
 * whether the table is usable, and how returned rows become results.
 *
 * The NoSQL service is not modelled; each of its calls is represented by the
 * answer it gives (`SdkReply`), and the rows a query returns are plain
 * string maps.
 */
module SentimentStore {
  import opened Wrappers
  import opened Text
  import opened JsonValue

  const DefaultTableName := "sentiment_analysis_results"
  const AnonymousUser := "anonymous"
  const DefaultSession := "default"

  // Pieces of the SELECT statement.
  const SelectPrefix := "SELECT * FROM "
  const WhereText := " WHERE "
  const AndText := " AND "
  const OrderLimitText := " ORDER BY analysis_timestamp DESC LIMIT "
  const UserConditionPrefix := "user_id = '"
  const SessionConditionPrefix := "session_id = '"

  // The six columns of a row.
  const IdColumn := "id"
  const TextColumn := "text_content"
  const ResultColumn := "sentiment_result"
  const TimestampColumn := "analysis_timestamp"
  const UserColumn := "user_id"
  const SessionColumn := "session_id"

  /**
   * `os.environ.get("NOSQL_TABLE_NAME", "sentiment_analysis_results")`: the
   * default applies only when the variable is unset; an empty value is kept.
   */
  function TableName(env: Option<string>): (name: string)
    ensures env.Some? ==> name == env.value
    ensures env.None? ==> name == DefaultTableName
  {
    env.GetOr(DefaultTableName)
  }

  /** A row of the table as an upload writes it. */
  datatype SentimentRow = SentimentRow(
    id: string, textContent: string, sentimentResult: string,
    analysisTimestamp: string, userId: string, sessionId: string)

  /**
   * The row an upload writes: the generated id, the text, the serialised
   * result and the time, with "anonymous" and "default" standing in for a
   * user or session id that is None or empty.
   */
  function NewRow(
    recordId: string, textContent: string, serialized: string, timestamp: string,
    userId: Option<string>, sessionId: Option<string>): (row: SentimentRow)
    ensures row.id == recordId && row.textContent == textContent
    ensures row.sentimentResult == serialized && row.analysisTimestamp == timestamp
    ensures row.userId == if NonEmpty(userId) then userId.value else AnonymousUser
    ensures row.sessionId == if NonEmpty(sessionId) then sessionId.value else DefaultSession
  {
    SentimentRow(recordId, textContent, serialized, timestamp,
                 OrDefault(userId, AnonymousUser), OrDefault(sessionId, DefaultSession))
  }

  function UserCondition(user: string): string {
    UserConditionPrefix + user + "'"
  }

  function SessionCondition(session: string): string {
    SessionConditionPrefix + session + "'"
  }

  /** The WHERE conditions: the user's first, then the session's; an empty id adds none. */
  function Conditions(userId: Option<string>, sessionId: Option<string>): (cs: seq<string>)
    ensures |cs| == (if NonEmpty(userId) then 1 else 0) + (if NonEmpty(sessionId) then 1 else 0)
  {
    (if NonEmpty(userId) then [UserCondition(userId.value)] else [])
    + (if NonEmpty(sessionId) then [SessionCondition(sessionId.value)] else [])
  }

  /** ` WHERE c1 AND c2`, or nothing when there are no conditions. */
  function WhereClause(cs: seq<string>): string {
    if cs == [] then "" else WhereText + Join(cs, AndText)
  }

  /** ` ORDER BY analysis_timestamp DESC LIMIT <limit>` */
  function LimitClause(limit: int): string {
    OrderLimitText + IntToString(limit)
  }

  /** The statement a query sends. The ids are pasted in as they are, without escaping. */
  function QueryText(table: string, userId: Option<string>, sessionId: Option<string>, limit: int): string {
    SelectPrefix + table + WhereClause(Conditions(userId, sessionId)) + LimitClause(limit)
  }

  /** The query building of `query_sentiment_results`: `+=` on the statement and appends to the conditions. */
  method BuildQuery(table: string, userId: Option<string>, sessionId: Option<string>, limit: int)
    returns (query: string)
    ensures query == QueryText(table, userId, sessionId, limit)
  {
    query := SelectPrefix + table;
    var whereConditions: seq<string> := [];
    if NonEmpty(userId) {
      whereConditions := whereConditions + [UserCondition(userId.value)];
    }
    if NonEmpty(sessionId) {
      whereConditions := whereConditions + [SessionCondition(sessionId.value)];
    }
    if whereConditions != [] {
      query := query + (WhereText + Join(whereConditions, AndText));
    }
    query := query + LimitClause(limit);
  }

  /** The four shapes of the statement, one for each combination of filters. */
  lemma QueryTextCases(table: string, userId: Option<string>, sessionId: Option<string>, limit: int)
    ensures var head := SelectPrefix + table;
            var tail := LimitClause(limit);
            var q := QueryText(table, userId, sessionId, limit);
            && (!NonEmpty(userId) && !NonEmpty(sessionId) ==> q == head + tail)
            && (NonEmpty(userId) && !NonEmpty(sessionId) ==>
                  q == head + (WhereText + UserCondition(userId.value)) + tail)
            && (!NonEmpty(userId) && NonEmpty(sessionId) ==>
                  q == head + (WhereText + SessionCondition(sessionId.value)) + tail)
            && (NonEmpty(userId) && NonEmpty(sessionId) ==>
                  q == head + (WhereText + (UserCondition(userId.value) + AndText + SessionCondition(sessionId.value))) + tail)
  {
    var cs := Conditions(userId, sessionId);
    var head := SelectPrefix + table;
    if !NonEmpty(userId) && !NonEmpty(sessionId) {
      assert head + WhereClause(cs) == head;
    }
    if NonEmpty(userId) && NonEmpty(sessionId) {
      assert cs == [UserCondition(userId.value), SessionCondition(sessionId.value)];
      assert Join(cs, AndText) == UserCondition(userId.value) + AndText + SessionCondition(sessionId.value);
    }
  }

  /**
   * Every statement starts with `SELECT * FROM <table>` and ends with the
   * ORDER BY and LIMIT; what lies between is empty exactly when neither id
   * is given, and otherwise starts with ` WHERE `.
   */
  lemma QueryFrame(table: string, userId: Option<string>, sessionId: Option<string>, limit: int)
    ensures var q := QueryText(table, userId, sessionId, limit);
            var head := SelectPrefix + table;
            var tail := LimitClause(limit);
            && |q| >= |head| + |tail|
            && q[..|head|] == head
            && q[|q| - |tail|..] == tail
            && (|q| == |head| + |tail| <==> !NonEmpty(userId) && !NonEmpty(sessionId))
            && (|q| > |head| + |tail| ==> q[|head|..|head| + |WhereText|] == WhereText)
  {
    var head := SelectPrefix + table;
    var tail := LimitClause(limit);
    var middle := WhereClause(Conditions(userId, sessionId));
    var q := QueryText(table, userId, sessionId, limit);
    assert q == head + middle + tail;
    assert q[..|head|] == head;
    assert q[|q| - |tail|..] == tail;
    if NonEmpty(userId) || NonEmpty(sessionId) {
      assert |middle| >= |WhereText|;
      assert q[|head|..|head| + |WhereText|] == middle[..|WhereText|];
    }
  }

  /** The answer of one call to the NoSQL service. `text` is `str(e)` of the exception raised. */
  datatype SdkReply =
    | Done
    | ServiceFailure(status: int, message: string, text: string)
    | Raised(text: string)

  /** The answers to the calls `create_table_if_not_exists` may make: get_table, create_table, then the wait. */
  datatype TableCalls = TableCalls(get: SdkReply, create: SdkReply, wait: SdkReply)

  /** How `create_table_if_not_exists` ends. */
  datatype TableOutcome = Existing | Created | CreateFailed | CheckFailed {
    /** The boolean it returns. */
    predicate Ready() {
      this == Existing || this == Created
    }
  }

  predicate NotFound(reply: SdkReply) {
    reply.ServiceFailure? && reply.status == 404
  }

  /**
   * The decision of `create_table_if_not_exists`: a table get_table finds is
   * used as it is; a 404 leads to create_table and the wait, and only their
   * success makes the table ready; any other failure of get_table is
   * re-raised, caught by the outer handler and reported as not ready.
   */
  function EnsureTable(calls: TableCalls): (r: TableOutcome)
    ensures r == Existing <==> calls.get.Done?
    ensures r.Ready() <==> calls.get.Done? || (NotFound(calls.get) && calls.create.Done? && calls.wait.Done?)
    ensures (r == Created || r == CreateFailed) <==> NotFound(calls.get)
    ensures r == CheckFailed <==> !calls.get.Done? && !NotFound(calls.get)
  {
    if calls.get.Done? then Existing
    else if !NotFound(calls.get) then CheckFailed
    else if calls.create.Done? && calls.wait.Done? then Created
    else CreateFailed
  }

  /** A result of a query: the row's columns, the serialised result parsed back. */
  datatype ResultEntry = ResultEntry(
    id: string, textContent: string, sentimentResult: Json,
    analysisTimestamp: string, userId: string, sessionId: string)

  /** `str(KeyError(k))`: the key in quotes. */
  function KeyErrorText(key: string): string {
    "'" + key + "'"
  }

  /**
   * One iteration of the result loop. `json.loads(row["sentiment_result"])`
   * runs first, then the dict reads the other columns in order; a missing
   * column raises KeyError and a bad result JSON raises the parser's error.
   */
  function MapRow(row: map<string, string>, parse: string -> Result<Json, string>): (r: Result<ResultEntry, string>)
    ensures r.Ok? <==> && ResultColumn in row && parse(row[ResultColumn]).Ok?
                       && IdColumn in row && TextColumn in row && TimestampColumn in row
                       && UserColumn in row && SessionColumn in row
    ensures r.Ok? ==> r.value == ResultEntry(row[IdColumn], row[TextColumn], parse(row[ResultColumn]).value,
                                             row[TimestampColumn], row[UserColumn], row[SessionColumn])
    ensures ResultColumn !in row ==> r == Err(KeyErrorText(ResultColumn))
    ensures ResultColumn in row && parse(row[ResultColumn]).Err? ==> r == Err(parse(row[ResultColumn]).error)
  {
    if ResultColumn !in row then Err(KeyErrorText(ResultColumn))
    else match parse(row[ResultColumn])
      case Err(e) => Err(e)
      case Ok(sentiment) =>
        if IdColumn !in row then Err(KeyErrorText(IdColumn))
        else if TextColumn !in row then Err(KeyErrorText(TextColumn))
        else if TimestampColumn !in row then Err(KeyErrorText(TimestampColumn))
        else if UserColumn !in row then Err(KeyErrorText(UserColumn))
        else if SessionColumn !in row then Err(KeyErrorText(SessionColumn))
        else Ok(ResultEntry(row[IdColumn], row[TextColumn], sentiment,
                            row[TimestampColumn], row[UserColumn], row[SessionColumn]))
  }

  /** The results of the loop over `rows`: the first failing row ends it with that row's error. */
  function MapRows(rows: seq<map<string, string>>, parse: string -> Result<Json, string>): Result<seq<ResultEntry>, string>
    decreases |rows|
  {
    if |rows| == 0 then Ok([])
    else match MapRows(rows[..|rows| - 1], parse)
      case Err(e) => Err(e)
      case Ok(done) =>
        match MapRow(rows[|rows| - 1], parse)
        case Err(e) => Err(e)
        case Ok(entry) => Ok(done + [entry])
  }

  /** The result loop of `query_sentiment_results`. */
  method CollectResults(rows: seq<map<string, string>>, parse: string -> Result<Json, string>)
    returns (r: Result<seq<ResultEntry>, string>)
    ensures r == MapRows(rows, parse)
  {
    var results: seq<ResultEntry> := [];
    for i := 0 to |rows|
      invariant MapRows(rows[..i], parse) == Ok(results)
    {
      assert rows[..i + 1][..i] == rows[..i];
      var entry := MapRow(rows[i], parse);
      if entry.Err? {
        MapRowsStopsAtError(rows, parse, i + 1);
        return Err(entry.error);
      }
      results := results + [entry.value];
    }
    assert rows[..|rows|] == rows;
    return Ok(results);
  }

  /** Once the first `k` rows fail, so do all of them, with the same error. */
  lemma {:induction false} MapRowsStopsAtError(rows: seq<map<string, string>>, parse: string -> Result<Json, string>, k: nat)
    requires k <= |rows| && MapRows(rows[..k], parse).Err?
    ensures MapRows(rows, parse) == MapRows(rows[..k], parse)
    decreases |rows| - k
  {
    if k < |rows| {
      assert rows[..k + 1][..k] == rows[..k];
      MapRowsStopsAtError(rows, parse, k + 1);
    } else {
      assert rows[..k] == rows;
    }
  }

  /**
   * The loop succeeds exactly when every row maps, and then it keeps one
   * result per row, in order, each with that row's six columns.
   */
  lemma {:induction false} MapRowsSucceeds(rows: seq<map<string, string>>, parse: string -> Result<Json, string>)
    ensures MapRows(rows, parse).Ok? <==> forall i :: 0 <= i < |rows| ==> MapRow(rows[i], parse).Ok?
    ensures MapRows(rows, parse).Ok? ==>
              && |MapRows(rows, parse).value| == |rows|
              && forall i :: 0 <= i < |rows| ==> MapRows(rows, parse).value[i] == MapRow(rows[i], parse).value
    decreases |rows|
  {
    if |rows| > 0 {
      var front := rows[..|rows| - 1];
      MapRowsSucceeds(front, parse);
      assert forall i :: 0 <= i < |front| ==> front[i] == rows[i];
    }
  }

  /** A failed loop reports the error of the first row that does not map. */
  lemma {:induction false} MapRowsFails(rows: seq<map<string, string>>, parse: string -> Result<Json, string>)
    requires MapRows(rows, parse).Err?
    ensures exists i :: && 0 <= i < |rows|
                        && MapRow(rows[i], parse) == Err(MapRows(rows, parse).error)
                        && forall j :: 0 <= j < i ==> MapRow(rows[j], parse).Ok?
    decreases |rows|
  {
    var front := rows[..|rows| - 1];
    assert forall i :: 0 <= i < |front| ==> front[i] == rows[i];
    if MapRows(front, parse).Err? {
      MapRowsFails(front, parse);
      var i :| && 0 <= i < |front|
                && MapRow(front[i], parse) == Err(MapRows(front, parse).error)
                && forall j :: 0 <= j < i ==> MapRow(front[j], parse).Ok?;
      assert MapRow(rows[i], parse) == Err(MapRows(rows, parse).error);
    } else {
      MapRowsSucceeds(front, parse);
      var i := |rows| - 1;
      assert MapRow(rows[i], parse) == Err(MapRows(rows, parse).error);
    }
  }

  const TableFailureText := "Failed to create or verify table existence"

  /** The dict an upload returns: the record id and time, or the error text. */
  datatype UploadAnswer = Uploaded(recordId: string, timestamp: string) | UploadFailed(error: string)

  /** An upload's answer together with the row written, if any. */
  datatype UploadResult = UploadResult(answer: UploadAnswer, written: Option<SentimentRow>)

  /** The answer of the query call: the rows, or the exception raised. */
  datatype QueryReply =
    | Rows(items: seq<map<string, string>>)
    | QueryServiceFailure(status: int, message: string, text: string)
    | QueryRaised(text: string)
  {
    /** The exception of a failed query, as any other call's. */
    function Failure(): (f: SdkReply)
      requires !Rows?
      ensures !f.Done?
    {
      match this
      case QueryServiceFailure(status, message, text) => ServiceFailure(status, message, text)
      case QueryRaised(text) => Raised(text)
    }
  }

  /** The dict a query returns: the count and the results, or the error text. */
  datatype QueryAnswer = Queried(count: nat, results: seq<ResultEntry>) | QueryFailed(error: string)

  /** The end of `query_sentiment_results` once the rows are in: the results and their count, or the loop's error. */
  function ResultsAnswer(rows: seq<map<string, string>>, parse: string -> Result<Json, string>): (a: QueryAnswer)
    ensures a.Queried? <==> MapRows(rows, parse).Ok?
    ensures a.Queried? ==> a.count == |a.results| && a.results == MapRows(rows, parse).value
    ensures a.QueryFailed? ==> a.error == MapRows(rows, parse).error
  {
    match MapRows(rows, parse)
    case Ok(results) => Queried(|results|, results)
    case Err(e) => QueryFailed(e)
  }

  /** A successful query reports one result per row, with the row's columns, and their number. */
  lemma QueriedCountsRows(rows: seq<map<string, string>>, parse: string -> Result<Json, string>)
    requires ResultsAnswer(rows, parse).Queried?
    ensures ResultsAnswer(rows, parse).count == |rows|
    ensures forall i :: 0 <= i < |rows| ==>
              MapRow(rows[i], parse).Ok? && ResultsAnswer(rows, parse).results[i] == MapRow(rows[i], parse).value
  {
    MapRowsSucceeds(rows, parse);
  }
}
