# Oracle Cloud serverless samples: a verified model of their core logic

This project models, in Dafny, the request handling and data logic of seven
sample programs for Oracle Cloud Infrastructure (OCI), and proves what each
of them promises:

- **place-order** (`func.py`, module `PlaceOrder`). This function checks an order
  envelope `{"data": {"order_id", "customer_id", "amount"}}` and enqueues its
  serialisation as one queue message.
- **process-order relay** (`queue_poller.py`, module `QueuePoller`). This endless
  loop receives queue batches and inserts each valid order into a NoSQL table
  only if no row with its key exists (`IF_ABSENT`). It deletes a message only
  after an insert that answered 200. The validation shared by both programs
  is in `OrderPayload`.
- **log generator** (`logen.py`, module `LogGen`). It merges the configuration
  from a file, the environment and defaults, validates and converts it, and
  generates random log lines. It sends them in one batch and maps every
  exception to an HTTP status.
- **sentiment MCP tools** (`nosql_client.py`, module `McpServerNoSql`) and
  **sentiment operations** (`nosql_operations.py`, module `McpSentimentOps`).
  Both store sentiment results in an Oracle NoSQL table and query them back.
  The second is a class with a lazily created module-level instance. The
  table logic they share (query text, row layout, table check, result
  mapping) is in `SentimentStore`.
- **customer** and **get-customer-info** (Go, modules `CustomerFunction` and
  `GetCustomerInfo`). These HTTP functions read and write customer records.
  What they share (record, error envelope, fallbacks) is in
  `CustomerCommon`.

Shared modules: `Wrappers` (Option and Result), `Text` (joining, decimal
rendering, Python's `int(str)`, substrings) and `JsonValue` (a decoded JSON
tree with Python's `in` and `[...]` on it).

Cloud services are not modelled. Every SDK call appears as the answer it
gave: a status, a service error or another exception. A read is a function
from the request to the answer. JSON parsing and serialisation are
function parameters. The clock, UUIDs and random draws are parameters
too. The relay and the log-merging loop are imperative. They are methods
proved equal to specification functions, and the properties are proved as
lemmas about those functions.

Where the code and its documentation disagree, the model follows the code.
Examples:

- In the Python services, `os.environ.get(name, default)` keeps an empty
  value, so an empty `NOSQL_TABLE_NAME` is used as the table name. The Go
  `getTableName` does treat an empty value as unset.
- `int()` of an infinite float raises `OverflowError`, which escapes
  `get_config`'s `except (ValueError, TypeError)`. The handler then answers
  500, not 400.
- After a successful `get_config`, the handler's "No log entries were
  successfully generated" error cannot happen.

## Model

| member | source | states |
|---|---|---|
| JsonValue.PyContains | api-gateway-function-queue-async/functions/process-order/queue_poller.py:93 | `key in data` is a TypeError exactly for None, booleans and numbers, naming the Python type (float for a fraction, an exponent, NaN or an infinity); on a dict it is key membership |
| JsonValue.NonFiniteNumbersAreFloats | api-gateway-function-queue-async/functions/place-order/func.py:58-63 | `key in` a decoded NaN, Infinity or -Infinity fails with the float TypeError |
| JsonValue.PyIndex | api-gateway-function-queue-async/functions/process-order/queue_poller.py:99-101 | `data[key]` yields a value exactly when data is a dict holding the key, and then that key's value |
| OrderPayload.AllIn | api-gateway-function-queue-async/functions/process-order/queue_poller.py:93 | `all(key in data for key in keys)` is true iff every test is true; it raises iff the first test raises, with that error |
| OrderPayload.CheckOrder | api-gateway-function-queue-async/functions/place-order/func.py:61-64 | not an envelope iff the payload is not a dict with `data`; raises iff `data` is a scalar; for dict data, passes iff all three keys are present |
| OrderPayload.ExtractFields | api-gateway-function-queue-async/functions/process-order/queue_poller.py:98-101 | the three fields can be read iff `data` is a dict holding all three keys, and then they are its values |
| OrderPayload.CheckOrderStrict | api-gateway-function-queue-async/functions/process-order/queue_poller.py:90-95 | corrected validation: never raises, and passes exactly when the fields can be read |
| OrderPayload.StrictAgreesOnDictData | api-gateway-function-queue-async/functions/process-order/queue_poller.py:90-95 | the correction changes nothing when `data` is a dict |
| OrderPayload.ListDataPassesButHasNoFields | api-gateway-function-queue-async/functions/process-order/queue_poller.py:93-101 | the list payload passes the validation as written, yet reading its fields fails; the strict check rejects it |
| PlaceOrder.Handle | api-gateway-function-queue-async/functions/place-order/func.py:26-103 | something is enqueued iff every check passes, and it is then the serialised payload; success iff status 200 with an id, carrying the first id; every exception becomes its str(e): the signer and client faults, the missing QUEUE_OCID or body, the json.loads error, the TypeError of the key test, the two validation messages, put_messages raising, a non-200 status and the IndexError of an empty message list |
| PlaceOrder.ListDataIsEnqueued | api-gateway-function-queue-async/functions/place-order/func.py:61-79 | a body whose `data` is a list naming the keys is enqueued |
| QueuePoller.QueueEndpoint | api-gateway-function-queue-async/functions/process-order/queue_poller.py:31 | the endpoint is the fixed prefix, the region and the fixed suffix |
| QueuePoller.Initialize | api-gateway-function-queue-async/functions/process-order/queue_poller.py:16-58 | startup succeeds iff there is a signer, both OCIDs are non-empty and get_queue answered; the endpoint uses the region, defaulting to us-ashburn-1; the error for each missing OCID |
| QueuePoller.EndpointDeterminesRegion | api-gateway-function-queue-async/functions/process-order/queue_poller.py:31 | equal endpoints mean equal regions |
| QueuePoller.Classify | api-gateway-function-queue-async/functions/process-order/queue_poller.py:83-103 | unparsable iff json.loads failed; an accepted message's fields are those read from `data` |
| QueuePoller.ClassifyStrict | api-gateway-function-queue-async/functions/process-order/queue_poller.py:83-103 | corrected classification: never a fault, agrees with Classify elsewhere, and a fault becomes "missing fields" |
| QueuePoller.InsertIfAbsent | api-gateway-function-queue-async/functions/process-order/queue_poller.py:107-114 | IF_ABSENT insert: the keys grow by one; no existing row changes; a new key holds the record; the table stays keyed by order_id |
| QueuePoller.RemoveReceipt | api-gateway-function-queue-async/functions/process-order/queue_poller.py:120-123 | exactly the messages with that receipt leave the queue |
| QueuePoller.OutcomeOf | api-gateway-function-queue-async/functions/process-order/queue_poller.py:106-129 | skipped iff invalid; acknowledged iff an accepted order's insert answered 200 and the delete answered; refused iff the insert answered another status, which it carries; an insert or delete ServiceError each iff it was raised; crashes exactly on a TypeError or a non-service exception |
| QueuePoller.Step | api-gateway-function-queue-async/functions/process-order/queue_poller.py:98-129 | the table only grows, and only by an accepted 200 insert; the queue changes only on acknowledgement, by that receipt |
| QueuePoller.RunBatch | api-gateway-function-queue-async/functions/process-order/queue_poller.py:76-129 | messages are handled in order; outcome i is that message's; a batch stops exactly at the first crash |
| QueuePoller.Cycle | api-gateway-function-queue-async/functions/process-order/queue_poller.py:62-142 | a non-200 or empty receive changes nothing and waits 10 s; a receive that raised waits 10 s; a batch gives RunBatch's state and outcomes, then a 1 s pause, or 10 s iff it crashed |
| QueuePoller.AbortIsFinal | api-gateway-function-queue-async/functions/process-order/queue_poller.py:139-142 | after a crash, later messages of the batch are not looked at |
| QueuePoller.BatchExtendsStore | api-gateway-function-queue-async/functions/process-order/queue_poller.py:107-114 | a batch never removes or changes a row and keeps the table keyed |
| QueuePoller.NewRowsComeFromAcceptedInserts | api-gateway-function-queue-async/functions/process-order/queue_poller.py:90-116 | every new row comes from a message accepted with that order_id whose insert answered 200 |
| QueuePoller.RemovedOnlyByAcknowledgement | api-gateway-function-queue-async/functions/process-order/queue_poller.py:116-124 | a message leaves the queue only through an acknowledged delivery with its receipt and a 200 insert |
| QueuePoller.BatchOnlyRemoves | api-gateway-function-queue-async/functions/process-order/queue_poller.py:120-123 | the queue only loses messages |
| QueuePoller.RedeliveryKeepsStore | api-gateway-function-queue-async/functions/process-order/queue_poller.py:107-124 | redelivering an inserted message leaves the table unchanged and can be acknowledged |
| QueuePoller.ListDataCrashesBatch | api-gateway-function-queue-async/functions/process-order/queue_poller.py:93-101 | as written, the list payload crashes the batch: nothing is stored, nothing deleted, the next message is not handled |
| QueuePoller.CorrectedCrashesOnlyOnServiceFault | api-gateway-function-queue-async/functions/process-order/queue_poller.py:139-142 | with the strict check, a batch aborts only when a service call raised a non-service exception |
| QueuePoller.PlacedOrderIsStoredOnce | api-gateway-function-queue-async/functions/place-order/func.py:67-82 | a placed order is enqueued, then stored once under its order_id with its three fields, deleted, and a redelivery changes nothing |
| QueuePoller.Relay.constructor | api-gateway-function-queue-async/functions/process-order/queue_poller.py:33-49 | the relay starts with the given queue, table and parser |
| QueuePoller.Relay.HandleMessage | api-gateway-function-queue-async/functions/process-order/queue_poller.py:77-129 | the new queue and table are Step of the old ones; the outcome is OutcomeOf |
| QueuePoller.Relay.HandleBatch | api-gateway-function-queue-async/functions/process-order/queue_poller.py:76-129 | the loop's state, outcomes and abort flag are RunBatch's |
| QueuePoller.Relay.PollOnce | api-gateway-function-queue-async/functions/process-order/queue_poller.py:62-142 | one turn of the loop gives Cycle's state, wait and outcomes |
| QueuePoller.Relay.Serve | api-gateway-function-queue-async/functions/process-order/queue_poller.py:61-142 | the loop never ends on an error: one positive wait per poll, the table only grows, the state is RunCycles |
| LogGen.AlphabetChar | functions-logging/functions/logen.py:192 | every alphabet position is an ASCII letter or digit |
| LogGen.AlphabetIndex | functions-logging/functions/logen.py:192 | every ASCII letter or digit has a position in the alphabet |
| LogGen.FloatToInt | functions-logging/functions/logen.py:116 | `int(float)` truncates finite values; infinity raises OverflowError, NaN ValueError |
| LogGen.StrToInt | functions-logging/functions/logen.py:116 | `int(str)` succeeds iff the text, stripped of Python whitespace (Unicode spaces included), is an optionally signed run of ASCII digits with single underscores between digits, with its value; otherwise ValueError |
| LogGen.UnicodeSpacesAreStripped | functions-logging/functions/logen.py:116 | a no-break space and an ideographic space around the digits are stripped |
| LogGen.ToInt | functions-logging/functions/logen.py:116 | `int(v)` raises TypeError exactly for None, a list or a dict, and OverflowError exactly for infinity |
| LogGen.DecimalStringConverts | functions-logging/functions/logen.py:169-170 | an environment value written from an integer converts back to it |
| LogGen.RangeProblem | functions-logging/functions/logen.py:115-131 | a count is "not an integer", not positive, or above 100000, each an if-and-only-if; no problem iff it is in range |
| LogGen.ProblemList | functions-logging/functions/logen.py:108-131 | at most three problems; each is present iff its check fails; empty iff all pass |
| LogGen.ProblemTexts | functions-logging/functions/logen.py:134 | one message per problem, in order |
| LogGen.ValidationFailedText | functions-logging/functions/logen.py:133-134 | the raised message starts with "Configuration validation failed: " |
| LogGen.ValidationErrors | functions-logging/functions/logen.py:106-134 | at most three errors; none iff the configuration is valid |
| LogGen.ValidationErrorsMeaning | functions-logging/functions/logen.py:106-134 | an OverflowError escapes; otherwise exactly the problem list for log_id and the two counts |
| LogGen.AppendCountProblems | functions-logging/functions/logen.py:115-122 | one numeric block appends exactly the problem found with that count |
| LogGen.ValidateConfig | functions-logging/functions/logen.py:106-134 | raises the ConfigError of the error list, or the escaping OverflowError; passes iff the configuration is valid |
| LogGen.OverridesStep | functions-logging/functions/logen.py:157-159 | one more loop iteration adds the next entry's override |
| LogGen.SetDefaultsLayer | functions-logging/functions/logen.py:163-165 | the three setdefault calls put the defaults underneath what is present |
| LogGen.EnvOverrides | functions-logging/functions/logen.py:150-159 | exactly the set environment variables override, as strings |
| LogGen.OverrideLoopMatches | functions-logging/functions/logen.py:157-159 | the override loop makes exactly the environment's overrides |
| LogGen.Layered | functions-logging/functions/logen.py:139-165 | the merged configuration always holds the three keys |
| LogGen.LayeredPrecedence | functions-logging/functions/logen.py:139-165 | a set environment variable wins, then the file, then the default; no other keys appear |
| LogGen.MergeConfig | functions-logging/functions/logen.py:139-165 | the update, the loop and the setdefaults compute the layered configuration |
| LogGen.Finalize | functions-logging/functions/logen.py:167-178 | succeeds iff log_id is set and both counts convert into range; the error of the first failing conversion; the counts become ints |
| LogGen.GetConfig | functions-logging/functions/logen.py:136-182 | get_config is the layered configuration, converted and validated |
| LogGen.FinalizeDecimalCounts | functions-logging/functions/logen.py:167-175 | decimal counts in range and a log_id pass, with those integer values |
| LogGen.EnvironmentCountsWin | functions-logging/functions/logen.py:149-175 | environment counts and log_id win over any file |
| LogGen.DefaultsAreValid | functions-logging/functions/logen.py:163-175 | with no file and no environment, the defaults 10, 256 and "your-log-id" pass |
| LogGen.GenerateLogMessage | functions-logging/functions/logen.py:184-196 | succeeds iff 1 <= size <= 100000; the error message for each bound |
| LogGen.DrawMessage | functions-logging/functions/logen.py:192 | the drawn message has exactly `size` characters |
| LogGen.DrawMessageAt | functions-logging/functions/logen.py:192 | character i is the alphabet character chosen by draw i |
| LogGen.GeneratedMessageShape | functions-logging/functions/logen.py:186-193 | a generated message has `size` characters, each a letter or a digit |
| LogGen.AnyAlphabetStringCanBeDrawn | functions-logging/functions/logen.py:192 | every alphanumeric string of an allowed length can be generated |
| LogGen.EntryIdIsNumbered | functions-logging/functions/logen.py:264 | the entry id is `log-` followed by a number in 100000..999999 |
| LogGen.DrawnEntries | functions-logging/functions/logen.py:259-270 | the loop yields `count` entries when the size is valid, none otherwise |
| LogGen.NextEntry | functions-logging/functions/logen.py:260-270 | one iteration appends one entry when the size is valid, none otherwise |
| LogGen.DrawnEntriesShape | functions-logging/functions/logen.py:259-270 | entry i holds message i, the id drawn for i and the batch time |
| LogGen.BuildEntries | functions-logging/functions/logen.py:256-270 | the entry loop appends n entries for a valid size and none otherwise |
| LogGen.ErrorResponse | functions-logging/functions/logen.py:295-342 | 400 iff ConfigError, otherwise 500; the body carries str(e) and the exception's title and type |
| LogGen.FinalizeSettles | functions-logging/functions/logen.py:136-182 | get_config returns a settled configuration, or raises ConfigError or an escaping error |
| LogGen.Handler | functions-logging/functions/logen.py:238-342 | the handler's response and the batch sent are Respond of the validated configuration |
| LogGen.HandlerStatus | functions-logging/functions/logen.py:238-342 | the status is 200, 400 or 500; 400 iff ConfigError; 200 iff configuration, client and put_logs succeed; put_logs is called iff a client exists; "no entries" never occurs |
| LogGen.HandlerBatch | functions-logging/functions/logen.py:256-293 | the batch goes to log_id with num_messages entries of message_size alphanumerics and the batch time; a failed send gives its OCIError |
| SentimentStore.TableName | oke-virtual-nodes-mcp/mcp-server/tools/nosql_client.py:41-43 | the value of NOSQL_TABLE_NAME, even if empty; the default only when it is unset |
| SentimentStore.NewRow | oke-virtual-nodes-mcp/mcp-server/tools/nosql_client.py:154-161 | the row holds the id, text, serialised result and time; "anonymous" and "default" replace a None or empty user or session id |
| SentimentStore.Conditions | oke-virtual-nodes-mcp/mcp-server/tools/nosql_client.py:227-232 | one condition per non-empty id |
| SentimentStore.BuildQuery | oke-virtual-nodes-mcp/mcp-server/tools/nosql_client.py:225-237 | the `+=` construction produces the query text |
| SentimentStore.QueryTextCases | oke-virtual-nodes-mcp/mcp-server/tools/nosql_client.py:226-237 | the four shapes of the statement, one per filter combination, with the ids pasted unescaped |
| SentimentStore.QueryFrame | oke-virtual-nodes-mcp/mcp-server/tools/nosql_client.py:226-237 | every statement starts with `SELECT * FROM <table>` and ends with ORDER BY and LIMIT; the middle is empty iff there is no filter, and otherwise starts with ` WHERE ` |
| SentimentStore.EnsureTable | oke-virtual-nodes-mcp/mcp-server/tools/nosql_client.py:56-118 | existing iff get_table succeeds; created or failed iff it answered 404; ready iff found, or 404 followed by a successful create and wait |
| SentimentStore.MapRow | oke-virtual-nodes-mcp/mcp-server/tools/nosql_client.py:253-263 | a row maps iff all six columns are present and the result parses; KeyError for a missing `sentiment_result`; the parse error |
| SentimentStore.CollectResults | oke-virtual-nodes-mcp/mcp-server/tools/nosql_client.py:252-263 | the loop computes MapRows, stopping at the first failing row |
| SentimentStore.MapRowsStopsAtError | oke-virtual-nodes-mcp/mcp-server/tools/nosql_client.py:252-263 | a failure in the first k rows is the failure of the whole loop |
| SentimentStore.MapRowsSucceeds | oke-virtual-nodes-mcp/mcp-server/tools/nosql_client.py:252-263 | the loop succeeds iff every row maps, with one result per row in order |
| SentimentStore.MapRowsFails | oke-virtual-nodes-mcp/mcp-server/tools/nosql_client.py:252-263 | a failed loop reports the error of the first row that does not map |
| SentimentStore.ResultsAnswer | oke-virtual-nodes-mcp/mcp-server/tools/nosql_client.py:265-271 | success iff the loop succeeds, with `count` equal to the number of results |
| SentimentStore.QueriedCountsRows | oke-virtual-nodes-mcp/mcp-server/tools/nosql_client.py:265-271 | a successful query's count is the number of rows, and result i is row i mapped |
| McpServerNoSql.CompartmentId | oke-virtual-nodes-mcp/mcp-server/tools/nosql_client.py:34-39 | the value iff COMPARTMENT_ID is non-empty, otherwise the ValueError message |
| McpServerNoSql.CreateTableIfNotExists | oke-virtual-nodes-mcp/mcp-server/tools/nosql_client.py:45-118 | true iff a client exists and the table is found, or is created after a 404 |
| McpServerNoSql.UploadSentimentResult | oke-virtual-nodes-mcp/mcp-server/tools/nosql_client.py:120-200 | a row is written iff the compartment is set, the table is ready and update_row succeeds; the answer carries the row's id and time; each failure's error text |
| McpServerNoSql.QuerySentimentResults | oke-virtual-nodes-mcp/mcp-server/tools/nosql_client.py:202-286 | a query is sent iff the compartment is set and a client exists, and it is the query text; the error for each failure; otherwise the mapped results |
| McpServerNoSql.TotalRows | oke-virtual-nodes-mcp/mcp-server/tools/nosql_client.py:364 | 0 for no items, the first item's `total`, or a KeyError |
| McpSentimentOps.GetOciConfig | oke-virtual-nodes-mcp/mcp-sentiment/nosql_operations.py:25-56 | the file configuration with the default path and profile; otherwise the environment configuration iff the four identity settings are non-empty, with the region defaulting to us-ashburn-1 |
| McpSentimentOps.OpenFailure | oke-virtual-nodes-mcp/mcp-sentiment/nosql_operations.py:13-23 | construction fails iff the OCI configuration, the compartment or the client fails, checked in that order |
| McpSentimentOps.NoSQLOperations.constructor | oke-virtual-nodes-mcp/mcp-sentiment/nosql_operations.py:13-23 | the object holds the configuration, table name and compartment |
| McpSentimentOps.NoSQLOperations.CreateTableIfNotExists | oke-virtual-nodes-mcp/mcp-sentiment/nosql_operations.py:67-121 | true iff the table is found, or is created after a 404 |
| McpSentimentOps.NoSQLOperations.UploadSentimentResult | oke-virtual-nodes-mcp/mcp-sentiment/nosql_operations.py:123-185 | a row is written iff the table is ready and update_row succeeds; a failure's error is str(e) |
| McpSentimentOps.NoSQLOperations.QuerySentimentResults | oke-virtual-nodes-mcp/mcp-sentiment/nosql_operations.py:187-249 | the query text on the object's table; str(e) for a failed call; otherwise the mapped results |
| McpSentimentOps.Open | oke-virtual-nodes-mcp/mcp-sentiment/nosql_operations.py:13-23 | a new object iff nothing fails, holding the configuration, the table name and the compartment; otherwise the first failure's message |
| McpSentimentOps.OpsRegistry.constructor | oke-virtual-nodes-mcp/mcp-sentiment/nosql_operations.py:252 | no instance exists at first |
| McpSentimentOps.OpsRegistry.GetNoSqlOps | oke-virtual-nodes-mcp/mcp-sentiment/nosql_operations.py:254-263 | an existing instance is returned unchanged; otherwise a new one is created and kept, or the error is raised and none is kept |
| CustomerCommon.Details | OCI_Functions/functions/customer/func.go:235-238 | the details are "" for a nil error, otherwise the error's text |
| CustomerCommon.HttpError | OCI_Functions/functions/customer/func.go:234-246 | the envelope holds the message, the code and the details, and the HTTP status stays 200 |
| CustomerCommon.HttpErrorLosesCode | OCI_Functions/functions/customer/func.go:234-246 | for any code other than 200, the response status and the envelope's status disagree |
| CustomerCommon.HttpErrorWithStatus | OCI_Functions/functions/customer/func.go:234-246 | corrected: the same envelope, with the response status equal to the code |
| CustomerCommon.Render | OCI_Functions/functions/customer/func.go:226-246 | as written, every error envelope and every success body is sent with status 200 |
| CustomerCommon.RenderWithStatus | OCI_Functions/functions/customer/func.go:226-246 | corrected: the same bodies, with an error sent under its own code |
| CustomerCommon.GetTableName | OCI_Functions/functions/customer/func.go:97-103 | NOSQL_TABLE_NAME when it is non-empty, else customer_info; never empty |
| CustomerCommon.IdOrDefault | OCI_Functions/functions/customer/func.go:115-117 | an empty id becomes 123, any other is kept |
| CustomerCommon.KeyFor | OCI_Functions/functions/customer/func.go:135-136 | the key has the single column customerId, holding the id |
| CustomerCommon.NotFoundTextDistinct | OCI_Functions/functions/customer/func.go:194 | the not-found text determines the id, and no other read error equals it |
| CustomerFunction.ParseGetRequest | OCI_Functions/functions/customer/func.go:106-119 | an error iff the input is non-empty and does not decode; the id is never empty; 123 for empty input or a missing or empty id |
| CustomerFunction.ParsePostRequest | OCI_Functions/functions/customer/func.go:122-131 | success iff the input decodes with a non-empty ID, and then the info unchanged; "customer ID is required" for an empty ID |
| CustomerFunction.GetCustomer | OCI_Functions/functions/customer/func.go:134-159 | the not-found error iff the row is absent; success iff the row re-encodes and decodes cleanly, with that info; the wrapped read error |
| CustomerFunction.CustomerRow | OCI_Functions/functions/customer/func.go:163-169 | exactly six columns; customerId and id both hold info.ID; name, address, email and phone hold their fields |
| CustomerFunction.BuildCustomerRow | OCI_Functions/functions/customer/func.go:163-169 | the successive puts build that row |
| CustomerFunction.PutCustomer | OCI_Functions/functions/customer/func.go:162-180 | fails iff the put fails, with the wrapped error; the row sent is CustomerRow |
| CustomerFunction.HandleGetRequest | OCI_Functions/functions/customer/func.go:183-203 | bad input is 400; 404 "Customer not found" iff the row is absent; every other read failure is 500; success encodes the info |
| CustomerFunction.HandlePostRequest | OCI_Functions/functions/customer/func.go:206-224 | bad input or a missing ID is 400; a failed put is 500; otherwise the saved info is echoed back |
| CustomerFunction.MyHandler | OCI_Functions/functions/customer/func.go:36-77 | malformed body 400; not via HTTP an explicit 400; failed client 500; GET and POST go to their handlers on GetTableName; any other method 405 "Method not allowed" |
| CustomerFunction.MyHandlerReplies | OCI_Functions/functions/customer/func.go:36-77 | every error is 400, 404, 405 or 500 with that code's message and an error; a saved body only comes from a POST naming a customer |
| GetCustomerInfo.RequestedId | OCI_Functions/functions/get-customer-info/func.go:32-38 | the id the decoder filled if non-empty, whether or not decoding then failed; otherwise 123 |
| GetCustomerInfo.RequestedIdIgnoresFailure | OCI_Functions/functions/get-customer-info/func.go:34-37 | the ignored decode error does not change the id looked up |
| GetCustomerInfo.ProjectRow | OCI_Functions/functions/get-customer-info/func.go:88-91 | the ignored errors leave the zero record or the fields filled |
| GetCustomerInfo.MyHandler | OCI_Functions/functions/get-customer-info/func.go:30-94 | a get is sent iff the client was set up, on the fallback table with the customerId key of the defaulted id; a failed setup or read is 500 "Internal error"; an absent row is 404 with "customer not found for id: <id>"; a row is encoded |

## Left out

- Cloud SDK calls (queues, NoSQL, logging ingestion, signers) are modelled only as the answers they return. Retries, timeouts and network behaviour are not modelled.
- Clocks, `time.sleep`, `uuid.uuid4()`, `random.choices` and `random.randint` are parameters. A wait appears only as its length in seconds.
- JSON parsing and serialisation, and the loading of INI or JSON configuration files (`load_json_config`, `load_ini_config`, `load_config_file` in logen.py), are abstract. The file's contents arrive as a map.
- Queue visibility and receive timeouts are not modelled. A message that is not deleted simply stays in the queue.
- Logging calls and computing `execution_time` are left out: they do not affect any answer.
- Floating-point amounts are kept as uninterpreted JSON numbers. Only `int()` of a float (truncation, infinity, NaN) is modelled.
- The sentiment services' `delete_sentiment_result` is left out: it is a single SDK call with the same error shaping as the upload and adds no logic. Of `get_table_stats`, only the `total_rows` expression is modelled, as McpServerNoSql.TotalRows. The rest of that function copies SDK fields.
- `create_nosql_client` (choosing the dev configuration or workload identity) and `_initialize_nosql_client` are modelled only as whether they fail and with what text.
- `json.dumps(sentiment_result)` failing inside an upload is not modelled. The serialised text is a parameter.
- The Go handlers' writes to the output stream and their logging are modelled as the reply values. A failure of the JSON encoder while writing is not modelled.
- LogGen.StrToInt: accepts only ASCII digits, whereas Python's `int(str)` also accepts the other Unicode decimal digits (`int("\u0661\u0660") == 10`), because that table depends on the Unicode version of the interpreter; its ValueError text quotes the string with plain single quotes instead of `repr`, which differs for strings holding quotes or unprintable characters.
- Go's JSON decoding into structs (case-insensitive field matching, partial fills) is abstract. Each decode is a function parameter giving the decoded value or the error text.
- McpSentimentOps.NoSQLOperations.QuerySentimentResults: a query's failure text is modelled as one string per exception, without distinguishing how Python prints each exception type.
- The user and session ids in the query text are pasted in without escaping, exactly as the source does; no escaping is modelled.

## Findings

| source | as written | input that shows it | evidently intended | confidence | as-written member | corrected member |
|---|---|---|---|---|---|---|
| api-gateway-function-queue-async/functions/process-order/queue_poller.py:93-101 | `key in payload["data"]` also accepts a list or string `data`, which then fails at `payload["data"]["order_id"]` with a TypeError caught only by the cycle's `except Exception`. The rest of the batch is dropped and the message is redelivered forever. | a message `{"data": ["order_id", "customer_id", "amount"]}` | `data` must be a dict holding the three keys, and a bad message is skipped | high, not executed | QueuePoller.ListDataCrashesBatch | QueuePoller.CorrectedCrashesOnlyOnServiceFault |
| OCI_Functions/functions/customer/func.go:234-246 | `httpError` encodes `"status": code` in the body but never writes the HTTP status, so every error response goes out with status 200 | a GET for an id with no row: the body says 404, the response status is 200 | the response status equals the code, as the explicit `WriteStatus(out, 400)` at line 48 does | medium, not executed | CustomerCommon.HttpErrorLosesCode | CustomerCommon.HttpErrorWithStatus |
