# trex_framework agent/server session core in Dafny

This project models the sequential core of the trex_framework agent and server.

**Agent (`client/`).**
- The agent loop keeps a websocket session to the server alive. It authenticates first with a bounded, capped-exponential-backoff token loop.
- Shutdown is cooperative: a `running` flag is cleared by a signal handler and checked at every one-second sleep step.
- The agent pre-checks a token's expiry locally.
- It derives its identity from the platform's hardware UUID.
- Its RabbitMQ manager declares four durable per-agent queues.

**Server (`server/`).**
- Tokens are issued and checked by password equality and an abstract JWT layer.
- The websocket endpoint guards admission with an ordered chain of checks, closing with 4001 or 4002. Both are private-use codes under section 7.4.2 of RFC 6455.
- A registry maps each agent uuid to its live websocket. It records connect and disconnect events in a MongoDB `agent_status` collection, with upsert and `$setOnInsert` semantics and a conditional disconnect update.
- Singleton managers hold the Mongo and RabbitMQ handles.
- A decorator builds the JSON response envelope.
- Both `rich_logger.py` modules rewrite log prefixes.

External effects are inputs:
- HTTP replies, websocket sessions, broker and database outcomes, and the platform command's output are scripts or outcome parameters.
- The clock is whole seconds passed in, or, for the agent, a field advanced one second per sleep step.
- JWT signing is an encode/decode pair in which a signature check is key equality.

Each core source file becomes one module. Code that mutates state (the agent, the managers, the registry, log records) is a `class` whose methods name what they modify. The string and decision logic is functions. The shared pieces are:
- `Text`: Python's `isspace`, `strip`, `lower`/`upper` and `split`;
- `Backoff`: `min(factor ** k, cap)`;
- `Jwt` and `TokenReply`: the abstract token and the token endpoint's reply;
- `StatusStore`: the status collection;
- `Amqp`: the broker handles.

## Where the code and the design description differ

The model follows the code in each case.

- **Token refresh.** The agent's open-socket loop (client/client.py:123-134) never calls `is_token_expired`, so a session is not re-authenticated in place.
- **Outer-loop errors.** Errors raised inside the open-socket block are caught there (client/client.py:136-137) and do not advance the reconnect counter. A missing token ends `agent` instead of retrying.
- **RabbitMQ connect.** `connect_to_rabbit` in both managers has no "already connected" check and no initialisation guard, so every call opens a new connection.
- **RabbitMQ connect failure.** A failure leaves the new connection in `rabbit_connection`. The client also keeps the queues declared before the failure.
- **RabbitMQ close.** `close` asks the connection to close whenever it is not already closed. An earlier failed close is therefore retried.
- **Expiry at equality.** `is_token_expired` is `now > exp - buffer` (client/auth/core.py:53), so a token is not yet expired when `now == exp - buffer`.
- **UUID normalisation.** The docstring of `normalize_uuid` (client/utils/uuid_info.py:43) promises only digits and lower-case letters. The filtering `re.sub` is commented out (line 44), so the code only lower-cases and keeps hyphens and every other character.
- **Stale disconnect.** `disconnect` pops whatever socket is registered for the uuid. When an older session of the same agent ends after a newer one connected, it unregisters the newer socket and marks the record disconnected. This follows from the contracts of `WsManager.WSManager.Connect` and `WsManager.WSManager.Disconnect`.

## Model

| member | source | states |
|---|---|---|
| Glue.InterruptibleSleep | client/utils/glue.py:3-11 | With `running` true, exactly `duration` one-second steps. With `running` false, or a duration of zero or less, none. Never more than `duration`. |
| Backoff.WaitTime | client/auth/core.py:39-40 | The wait after the k-th failure is `factor ** k` or the cap, whichever is smaller. |
| Backoff.BackoffWaits | client/client.py:74-77 | The waits after failures 1..n, in order: element i is the wait after failure i+1. |
| Backoff.TotalSleep | client/utils/glue.py:7-11 | Seconds slept for a list of waits. Each positive wait is bounded by the total; non-positive waits add nothing. |
| Backoff.BackoffWaitsSnoc | client/client.py:74-77 | One more failure appends exactly its own wait to the wait sequence. |
| Backoff.BackoffSleepTotal | client/client.py:74-77 | The seconds slept by the first n backoff waits, counted one wait at a time, equal the total sleep of the recorded wait sequence. |
| Backoff.PowMonotone | client/client.py:75 | `factor ** k` does not decrease in k for a factor of at least 1. |
| Backoff.WaitNonDecreasing | client/client.py:75 | Waits never decrease from one failure to the next. |
| Backoff.WaitStaysCapped | client/client.py:75 | Once a wait equals the cap, every later wait is the cap. |
| Backoff.DefaultWaits | client/client.py:44 | With factor 2, cap 120 and five failures, the waits are 2, 4, 8, 16, 32: 62 seconds in all. |
| Backoff.DefaultCapReached | client/client.py:144 | With factor 2 and cap 120, the sixth wait is 64 and every wait from the seventh on is 120. |
| TokenReply.ReplyAt | client/client.py:57-72 | The i-th token request gets the i-th scripted reply; past the script, an HTTP error. |
| ClientAgent.Agent.HandleShutdown | client/client.py:20-29 | The signal handler leaves `running` false. |
| ClientAgent.Agent.Tick | client/client.py:42 | A sleep step advances the clock by one second. Afterwards `running` is true exactly when the signal has not yet arrived. |
| ClientAgent.Agent.InterruptibleSleep | client/client.py:34-42 | At most `duration` steps. None if `running` was already false. While the agent keeps running it sleeps exactly `duration` seconds (none for a non-positive one). Cut short only by a shutdown, which ends the sleep at the second the signal arrived. |
| ClientAgent.Agent.AuthBackoff | client/client.py:74-77 | A failed attempt increments `retry_attempts` and records the wait `min(factor ** retry_attempts, max)`. While running, the clock advances by exactly that wait. A shorter sleep means the shutdown signal arrived. |
| ClientAgent.Agent.ObtainJwt | client/client.py:44-80 | At most `max_retries` requests; a shutdown seen first gives None and no request, while a running start makes at least one. Each request is sent before the shutdown second: the clock at its attempt, the start plus the waits so far, is before the signal. A token is returned only while `running` is still true, only if the last reply issued it and only if no earlier reply did. With `running` true throughout, None means all `max_retries` requests failed. The recorded waits are exactly the capped backoff sequence, including one after the final failure. While running, the clock has advanced by exactly the seconds of those waits. |
| ClientAgent.Agent.HoldSession | client/client.py:117-137 | The open-socket loop sleeps 5 seconds per OPEN check. It ends when the socket is not OPEN or on shutdown, and its errors never reach the reconnect counter. |
| ClientAgent.Agent.ReconnectBackoff | client/client.py:139-146 | A failed pass increments `retry_attempts` and records the wait `min(factor ** retry_attempts, max)`. While running, the clock advances by exactly that wait. A shorter sleep means the shutdown signal arrived. |
| ClientAgent.TruthyReplies | client/client.py:108-111 | Counts the token requests in a range whose reply issued a token that `if not token` accepts; at most one per request. |
| ClientAgent.TruthyRepliesSplit | client/client.py:106-111 | The accepted-token count of two adjacent ranges of requests adds up. |
| ClientAgent.TruthyRepliesLastOnly | client/client.py:48-67 | In one `obtain_jwt` call, where no reply before the last issued a token, the call accepted a token exactly when its last reply issued a truthy one. |
| ClientAgent.AuthFailures | client/client.py:48-77 | The failed attempts of one `obtain_jwt` call: all its requests, or all but the last when the last one issued a token. |
| ClientAgent.TrailingRefused | client/client.py:117-143 | The refused websocket opens since the last successful one. It is non-zero only when the latest open was refused. |
| ClientAgent.RefusedOpens | client/client.py:139-146 | Counts the refused opens in a range; at least the trailing refused ones, at most all of them. |
| ClientAgent.Agent.Pass | client/client.py:107-146 | One outer iteration, its result tied to the scripts. It got a token exactly when its last token request was answered with a truthy token; then exactly one websocket is opened, otherwise none. A running start makes at least one request and at most 5. The auth waits are the backoff for the failed requests. If `sessions[opens]` opened, the counter resets to 0 and no wait is recorded. If it was refused, the counter grows by one and that attempt's capped wait is recorded. While running, the clock advances by the auth waits plus 5 seconds per OPEN check or the reconnect wait. |
| ClientAgent.BackoffHistoryStep | client/client.py:143-146 | Across one pass, the reconnect-wait history only grows, by at most one wait. It still ends with the capped backoff sequence for the new `retry_attempts`. |
| ClientAgent.PassKeepsHistory | client/client.py:106-146 | One pass keeps the loop's history: one open per accepted token, `retry_attempts` equal to the trailing refused opens, one reconnect wait per refused open, and the latest waits the backoff sequence for `retry_attempts`. |
| ClientAgent.Agent.AgentLoop | client/client.py:102-146 | Starting from `retry_attempts = 0`, the loop ends only without a token, on shutdown or at the fuel bound. An exit at the fuel bound is reached still running, after exactly `fuel` passes, each of which opened one websocket. It keeps that history across all passes. A no-token exit means the last request did not yield an accepted token. |
| ClientAgent.Agent.Run | client/client.py:83-149 | Returns at once with no effect exactly when SERVER_IP, or else the uuid, is falsy. A shutdown exit means `running` is false and ends at the signal's second. An exit at the fuel bound means still running after exactly `fuel` websocket opens. A no-token exit means the last token request did not yield an accepted token. Exactly one websocket open per accepted token, and at most 5 token requests per open plus 5. The returned `retry_attempts` is the number of refused opens since the last successful one, and one reconnect wait is recorded per refused open. The latest waits are exactly the capped backoff sequence for `retry_attempts`. |
| ClientAuth.ObtainJwtAsWritten | client/auth/core.py:9-45 | As written: with `running` false or no retries, no request. Otherwise exactly one request; either its token, or the TypeError of the one-argument sleep call. |
| ClientAuth.ObtainJwt | client/auth/core.py:9-45 | With the sleep called correctly: at most `max_retries` requests, and none if `running` is false. The token is the last reply's, and all earlier replies failed. None after exactly `max_retries` failures. The waits are the capped backoff sequence, slept in full because `running` is a value. |
| ClientAuth.ArityCounterexample | client/auth/core.py:42 | One unreachable server reply and then a token: the loop as written ends in TypeError, while the corrected loop waits 2 seconds and returns the token. |
| ClientAuth.IsTokenExpired | client/auth/core.py:47-55 | Not expired exactly when the token decodes without signature checking, `exp` is present and an integer, and `now <= exp - buffer`. A decode failure, or a missing or null `exp`, means expired. |
| ClientAuth.ExpiryMonotone | client/auth/core.py:53 | A token expired at time t with buffer b is expired at every later time and for every larger buffer. |
| Text.Strip | client/utils/uuid_info.py:6 | `strip()` is a slice of the input that starts at its first non-whitespace character. Only whitespace lies outside it, and neither of its ends is whitespace. |
| Text.StripIdempotent | client/utils/uuid_info.py:6 | Stripping twice is stripping once. |
| Text.LastSepAt | client/utils/uuid_info.py:33 | A separator with none after it is the last separator. |
| Text.Split | client/utils/uuid_info.py:33 | `split(sep)` has one part exactly when `sep` does not occur. Its last part is the text after the last `sep`. |
| Text.SplitPartsFree | client/utils/uuid_info.py:33 | No part contains the separator. |
| Text.SplitJoin | client/utils/uuid_info.py:33 | Joining the parts with the separator gives back the string. |
| Text.SplitAppendLast | client/utils/uuid_info.py:33 | A trailing separator followed by a separator-free run adds that run as the last part, after the parts of the prefix. |
| Text.SplitQuoted | client/utils/uuid_info.py:33-34 | A separator-free run between the last two separators is the second-to-last part. |
| UuidInfo.FetchStripped | client/utils/uuid_info.py:4-26 | The Linux and Windows fetchers yield a value exactly when the command succeeded, and it has no whitespace at either end. |
| UuidInfo.FetchMac | client/utils/uuid_info.py:28-40 | A failed command gives None. Successful output gives None exactly when it has no `"` (fewer than two parts for `[-2]`). A value never contains `"`. |
| UuidInfo.NormalizeUuid | client/utils/uuid_info.py:42-45 | Lower-casing keeps the length, leaves no upper-case letter and changes no other character. |
| UuidInfo.NormalizeIdempotent | client/utils/uuid_info.py:42-45 | Normalising twice is normalising once. |
| UuidInfo.GetSystemUuidAsWritten | client/utils/uuid_info.py:47-61 | As written: an unsupported OS gives None. A supported OS whose fetcher found nothing crashes in `normalize_uuid(None)`. A found uuid is already normalised. |
| UuidInfo.GetSystemUuid | client/utils/uuid_info.py:47-61 | Corrected: None exactly for an unsupported OS or a failed fetch; otherwise a normalised uuid. |
| UuidInfo.CorrectedAgrees | client/utils/uuid_info.py:47-61 | The corrected dispatch returns what the one as written returns, except where the latter crashes. It crashes exactly where the corrected one gives None for a supported OS. |
| UuidInfo.LinuxFailureCrashes | client/utils/uuid_info.py:61 | A failing `dmidecode` on Linux crashes as written and gives None when corrected. |
| UuidInfo.MacParsesLastQuoted | client/utils/uuid_info.py:33-34 | On `... "<uuid>" <tail>` with no `"` in the uuid or the tail, the parse returns the uuid: the second-to-last segment. |
| Amqp.CloseIfOpen | client/comms/rmq_manager.py:66-72 | Only an existing, unclosed connection is asked to close, once. A failing close is swallowed and leaves it open. |
| Amqp.OpenChannels | client/comms/rmq_manager.py:25-33 | A new connection unless `connect_robust` fails. The three distinct new channels on it only if every `channel()` call succeeds. |
| ClientRmq.ChannelFor | client/comms/rmq_manager.py:36-50 | Every queue is declared on one of the three logical channels. |
| ClientRmq.QueueName | client/comms/rmq_manager.py:37 | The name is the purpose, `_`, then the uuid. |
| ClientRmq.Declared | client/comms/rmq_manager.py:36-50 | After k declarations, `queues` holds the old keys plus the first k purposes. |
| ClientRmq.DeclaredCount | client/comms/rmq_manager.py:36-58 | All four declarations complete exactly when none of the eight awaits fails. |
| ClientRmq.ClientRMQManager.Init | client/comms/rmq_manager.py:15-21 | Fields are set on the first construction only. |
| ClientRmq.ClientRMQManager.DeclareQueue | client/comms/rmq_manager.py:36-50 | One declaration adds the next durable queue on its channel. |
| ClientRmq.ClientRMQManager.ConnectToRabbit | client/comms/rmq_manager.py:23-58 | Success exactly when no await fails, and `rabbit_connected` is set exactly then. The connection is replaced unless `connect_robust` failed. `channels` becomes the three fresh distinct channels only once all exist. `queues` holds exactly the declarations completed before any failure, with earlier entries kept. |
| ClientRmq.ClientRMQManager.GetChannel | client/comms/rmq_manager.py:60-61 | The stored channel, or None; reads only. |
| ClientRmq.ClientRMQManager.GetQueue | client/comms/rmq_manager.py:63-64 | The stored queue, or None; reads only. |
| ClientRmq.ClientRMQManager.Close | client/comms/rmq_manager.py:66-72 | Asks only an existing, unclosed connection to close; a failing close is swallowed and leaves it open. |
| ClientRmq.ClientRMQManagerSingleton.Construct | client/comms/rmq_manager.py:10-21 | The first construction creates and initialises the instance. Later ones return the same object unchanged. |
| ClientRmq.DeclaredAllFour | client/comms/rmq_manager.py:36-50 | A full connect yields `action_<uuid>` on the action channel, `proc_telemetry_<uuid>` on telemetry, and `filestream_in_<uuid>` and `filestream_out_<uuid>` on filestream, all durable. |
| ClientRmq.DeclaredKeysAllFour | client/comms/rmq_manager.py:36-50 | A full connect adds exactly the four purposes as keys. Every other entry of `queues` keeps its old value. |
| ClientRmq.DeclaredEntry | client/comms/rmq_manager.py:36-50 | Once a purpose is declared, its durable queue on its channel survives the later declarations. |
| ClientRmq.DeclaredFrame | client/comms/rmq_manager.py:36-50 | A key that is not one of the four purposes is never overwritten. |
| ClientRmq.QueueKeysDistinct | client/comms/rmq_manager.py:36-50 | The four `queues` keys are pairwise different, so no declaration overwrites an earlier one. |
| ClientRmq.ClientRMQManager.DeclareQueues | client/comms/rmq_manager.py:35-52 | Given the channels exist, the four declarations all complete exactly when no await from step 4 on fails. `queues` then holds exactly the declarations made before the failure. |
| ClientRmq.QueueNamesDistinct | client/comms/rmq_manager.py:37-49 | One agent's four queue names are pairwise different. |
| ClientRmq.QueueNameInjective | client/comms/rmq_manager.py:37 | Equal queue names for one purpose mean equal uuids. |
| ServerRmq.RMQManager.Init | server/comms/rmq_manager.py:23-29 | Fields are set on the first construction only. |
| ServerRmq.RMQManager.ConnectToRabbit | server/comms/rmq_manager.py:31-59 | Success exactly when no await fails, and `rabbit_connected` is set exactly then. Success gives exactly the channels action, telemetry and filestream. A failure leaves `channels` as it was. `queues` is never written. |
| ServerRmq.RMQManager.GetChannel | server/comms/rmq_manager.py:61-65 | The stored channel, or None for a missing name; reads only. |
| ServerRmq.RMQManager.Close | server/comms/rmq_manager.py:67-73 | A no-op without a connection or when it is already closed; errors are swallowed. |
| ServerRmq.RMQManagerSingleton.Construct | server/comms/rmq_manager.py:16-29 | One shared instance, initialised on first construction only. |
| Mongo.MongoManager.Init | server/comms/mongo_manager.py:17-22 | Fields are set on the first construction only. |
| Mongo.MongoManager.ConnectToMongo | server/comms/mongo_manager.py:24-38 | `client` and `db` are always assigned, so `get_db` succeeds afterwards. `connected` becomes true only on a successful ping. A PyMongoError or timeout clears it and raises RuntimeError. Any other exception leaves it unchanged. |
| Mongo.MongoManager.GetDb | server/comms/mongo_manager.py:40-44 | RuntimeError exactly when `db` is None; otherwise `db`. |
| Mongo.MongoManager.Close | server/comms/mongo_manager.py:46-52 | Closes an existing client; a failure is swallowed; `client`, `db` and `connected` are unchanged. |
| Mongo.MongoManagerSingleton.Construct | server/comms/mongo_manager.py:12-22 | One shared instance, initialised on first construction only. |
| StatusStore.LogConnection | server/comms/ws_manager.py:60-74 | Upsert: the record is connected with the org and time. `last_disconnected` is None only on insert and otherwise kept. Other records are unchanged. |
| StatusStore.LogDisconnection | server/comms/ws_manager.py:84-87 | Only a record whose status is connected changes: it becomes disconnected with the time. Afterwards no record for the uuid is connected. |
| StatusStore.DisconnectionIdempotent | server/comms/ws_manager.py:84-87 | A second disconnection write changes nothing. |
| StatusStore.ConnectDisconnectDisconnect | server/comms/ws_manager.py:60-87 | Connect, disconnect, disconnect leaves one record: org, disconnected, connect time, first disconnect time. Other records are unchanged. |
| StatusStore.ReconnectKeepsLastDisconnected | server/comms/ws_manager.py:69-71 | A reconnection keeps the previous disconnection time. |
| WsManager.WebSocket.ReceiveText | server/comms/ws_manager.py:45 | The next received text, or the session's end once all have been read. |
| WsManager.WSManager.Init | server/comms/ws_manager.py:20-23 | The registry is created on the first construction only. |
| WsManager.WSManager.Connect | server/comms/ws_manager.py:25-29 | Accepts the socket and maps the uuid to it, overwriting any earlier entry and leaving others unchanged. It upserts the connected record unless the write fails, in which case the store is unchanged and nothing propagates. |
| WsManager.WSManager.Disconnect | server/comms/ws_manager.py:31-40 | Removes only this uuid. For an absent uuid the registry and the store are unchanged. A present uuid gets the conditional disconnection write, and a failing write is swallowed. |
| WsManager.WSManager.ReceiveData | server/comms/ws_manager.py:42-53 | Reads until the session ends by either kind of exception, then calls `disconnect` exactly once. |
| WsManager.WSManager.LogConnection | server/comms/ws_manager.py:55-77 | The upsert, or, if there is no database or the write fails, no change and no exception. |
| WsManager.WSManager.LogDisconnection | server/comms/ws_manager.py:79-90 | The conditional update, or no change and no exception. |
| WsManager.WSManagerSingleton.Construct | server/comms/ws_manager.py:15-23 | One shared instance whose map is initialised only once. |
| ServerAuth.ValidateAgentCredentials | server/auth/core.py:16-20 | Valid exactly when the password equals AGENT_AUTHPASS. |
| ServerAuth.CredentialsIgnoreUuid | server/auth/core.py:16-20 | The uuid does not affect validity. |
| ServerAuth.ExpiryOf | server/auth/core.py:24-27 | `exp` is now plus the delta when the delta is truthy (present and non-zero); otherwise now plus the configured minutes. |
| ServerAuth.CreateAccessToken | server/auth/core.py:22-30 | The encoded claims are exactly the input claims plus `exp`. |
| ServerAuth.VerifyAccessToken | server/auth/core.py:32-37 | The payload exactly when the signature key matches and `exp` has not passed; otherwise None. |
| ServerAuth.Get | server/auth/router.py:56 | `payload.get(key)`: the claim if present, else None. |
| ServerAuth.VerifyAgentUuid | server/auth/core.py:39-40 | Equal exactly when the claim is the same string. |
| ServerAuth.CreateThenVerify | server/auth/core.py:22-37 | A fresh token verifies exactly until its `exp`, and yields the input claims plus `exp`. |
| ServerAuth.OtherKeyRejected | server/auth/core.py:32-37 | A token signed under another key never verifies. |
| ServerAuth.ZeroDeltaUsesDefault | server/auth/core.py:24-27 | A zero delta falls back to the configured lifetime; 60 minutes gives 3600 seconds. |
| JsonResponse.Wrap | server/decorators/json_response.py:17-38 | HTTP status is the decorator's and status is "ok". For a dict: `message` is its "message" entry or "success", and data is the dict without "message". For a string: `message` is the string and data is empty. Otherwise: "success" and empty data. Data never has a "message" key. |
| JsonResponse.WrapDictLossless | server/decorators/json_response.py:20-23 | Data plus the message entry reassemble the dict result. |
| AuthRouter.GetToken | server/auth/router.py:24-39 | Invalid credentials give HTTP 400 "Invalid credentials" and no token. Otherwise a 200 envelope holds exactly `access_token`, the token for `{system_uuid}`, and `token_type: "bearer"`. |
| AuthRouter.Gate | server/auth/router.py:49-64 | 4001 exactly when the token does not verify or its uuid claim differs. 4002 exactly when those pass and org is missing or empty. Register exactly when all pass. |
| AuthRouter.BadTokenBeatsMissingOrg | server/auth/router.py:50-64 | A bad token gives 4001 even without an org. |
| AuthRouter.IssuedTokenPassesGate | server/auth/router.py:37-59 | An issued token opens the websocket for its own uuid with an org until it expires, and gives 4001 for any other uuid. |
| AuthRouter.WebsocketEndpoint | server/auth/router.py:42-68 | A rejected session is closed with its code, and the registry and the store are untouched. An admitted one is accepted, registered, read to its end and unregistered. When both store writes succeed, its record ends disconnected with its org and the connect and disconnect times. |
| Handshake.PrecheckAgreesWithServer | client/auth/core.py:47-55 | A token the agent's pre-check (buffer of at least 1) accepts also passes the server's verifier under the signing key. |
| Handshake.IssuedTokenLifetime | server/auth/core.py:22-30 | A token issued with the shipped 60-minute lifetime passes the agent's default pre-check exactly during its first 3600 seconds. |
| RichLog.FormatPlain | server/config/rich_logger.py:33 | A message without `%` formats to itself with no arguments, and raises with any. |
| RichLog.GetMessage | server/config/rich_logger.py:33 | Without truthy args the message is returned unformatted. |
| RichLog.FindFrom | server/config/rich_logger.py:36 | The regex search from a position: the first `:` followed by whitespace before any newline, or none. |
| RichLog.FindSeparator | server/config/rich_logger.py:36 | `^(.*?):\s`: the first `:` followed by a whitespace character, with no newline before it. With no match, every such separator has a newline before it. |
| RichLog.TakeLine | server/config/rich_logger.py:36 | The `(.*)` group is the longest newline-free prefix. |
| RichLog.PadRight | server/config/rich_logger.py:40 | Left-justified to 20 with spaces, never truncated. |
| RichLog.Rewrite | server/config/rich_logger.py:36-42 | On a match: `[purple]` + the padded prefix + `[/purple]: ` + the rest of the line. Without a match: none. |
| RichLog.RewriteTagged | server/config/rich_logger.py:36-42 | `tag: rest` with a colon-free tag becomes the purple tag padded to 20, then `rest`. |
| RichLog.NewlineFirstNoRewrite | server/config/rich_logger.py:36 | A newline before any `: ` means no rewrite. |
| RichLog.ServerEmitAsWritten | server/config/rich_logger.py:31-48 | As written: on a match, the rewrite with args None. Otherwise the formatted message with its args kept, which the handler formats again. |
| RichLog.ServerEmit | server/config/rich_logger.py:31-48 | Corrected: renders the rewrite or the original message, with args cleared. |
| RichLog.ClientEmit | client/config/rich_logger.py:37-56 | Renders the rewrite or the original message; args is `()` in both branches. |
| RichLog.ServerEmitCounterexample | server/config/rich_logger.py:44-48 | `logger.info("%s", "ready")`: as written the handler raises; corrected it renders "ready". |
| RichLog.LogLevel | server/config/rich_logger.py:51-60 | The upper-cased LOG_LEVEL (default "INFO") mapped through the level table, else INFO (20). |
| RichLog.LogLevelExamples | client/config/rich_logger.py:59-68 | "debug" is 10 and "Warning" is 30. An unknown or missing name is INFO. |
| Jwt.Encode | server/auth/core.py:29 | An encoded token decodes to its claims, and verifies under its key exactly while `exp` allows. |
| Jwt.DecodeUnverified | client/auth/core.py:49 | Decoding without signature checking succeeds exactly for a well-formed token. |
| Jwt.Decode | server/auth/core.py:34 | Verified decoding succeeds exactly for a token signed under the key whose `exp`, if present, is a later integer time. |

## Left out

- HTTP, websocket, AMQP and MongoDB traffic is not modelled. Replies, sessions and outcomes are scripted inputs, and requests, opens and acknowledgements take no time.
- The `subprocess` calls and `platform.system()` of client/utils/uuid_info.py are inputs (the command's output or failure, and the OS name). The `print` diagnostics are omitted.
- PyJWT's HS256 signing is replaced by key equality. Only `exp` is checked, as an integer NumericDate under section 4.1.4 of RFC 7519 with no leeway. `nbf`, `iat`, `aud` and algorithm negotiation are not modelled.
- Wall-clock readings are whole seconds, and fractional seconds of `datetime` and `time.time()` are dropped.
- asyncio concurrency is not modelled. One session is modelled at a time, and concurrent receive loops are not interleaved. The signal is a write to `running` made when a sleep step reaches the arrival second.
- All logging output, Rich themes and console objects, `logging.basicConfig`, the noisy-logger silencing loops, and terminal escape writes are not modelled.
- server/server.py and server/config/config.py are not part of this model. The one constant used is ACCESS_TOKEN_EXPIRE_MINUTES = 60.
- The websocket URL and query-string construction in the agent is not modelled; the server's gate works on the token and org values directly.
- ClientAgent.Agent.Run: `fuel` bounds the number of outer iterations, because the source loop can run forever. Behaviour beyond that bound is not covered.
- ClientAgent.Agent.AgentLoop: the same `fuel` bound. An `OutOfFuel` exit after `fuel` passes, each with an accepted token and one websocket open, says nothing about later passes.
- ClientAgent.Agent.Run: configuration values of the wrong type (None, floats) are not modelled; the reconnect factor is a natural number.
- Backoff.WaitTime: negative and fractional backoff factors are not modelled.
- UuidInfo.NormalizeUuid: lower-cases ASCII letters only; Python's `lower()` also maps other alphabets.
- RichLog.LogLevel: upper-cases ASCII letters only; Python's `upper()` also maps other alphabets.
- RichLog.Format: handles only the `%s` and `%%` directives on already-converted string arguments. Other conversions are treated as errors, and mapping arguments are not modelled.
- RichLog.GetMessage: a record whose `msg` is not a string is not modelled.
- Mongo.MongoManager.ConnectToMongo: constructing `AsyncIOMotorClient` never fails in the model, and the database named by MONGO_ROOT_DB is passed in.
- WsManager.WSManager.Connect: `websocket.accept()` never fails in the model.
- WsManager.WSManager.ReceiveData: a session delivers finitely many texts before it ends; a session that never ends is not modelled.
- WsManager.WebSocket.Close: a failing `close` is not modelled.
- Amqp.OpenChannels: the broker's own channel numbering and connection recovery (`connect_robust`) are not modelled.

## Findings

| source | as written | input that shows it | evidently intended | confidence | as-written member | corrected member |
|---|---|---|---|---|---|---|
| client/auth/core.py:42 | `interruptible_sleep(wait_time)` passes one argument to a sleep taking `(running, duration)`, assuming `client.utils` exports the sleep of client/utils/glue.py | the first token request fails, the second would succeed: TypeError escapes `obtain_jwt` after one request | `interruptible_sleep(running, wait_time)`, retrying up to `max_retries` | high, not executed | ClientAuth.ArityCounterexample | ClientAuth.ObtainJwt |
| client/utils/uuid_info.py:61 | `normalize_uuid(uuid)` is applied even when the fetcher returned None | Linux host where `dmidecode` fails: AttributeError instead of None | return None, so the agent reports a missing uuid | high, not executed | UuidInfo.LinuxFailureCrashes | UuidInfo.GetSystemUuid |
| server/config/rich_logger.py:44-46 | the no-match branch keeps `record.args`, so the handler formats the already formatted message again | `logger.info("%s", "ready")`: `"ready" % ("ready",)` raises TypeError | clear the args in both branches, as client/config/rich_logger.py:54 does | medium, not executed | RichLog.ServerEmitCounterexample | RichLog.ServerEmit |
