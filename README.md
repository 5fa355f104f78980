# proposal-agent core in Dafny

This project models the deterministic core of *proposal-agent*, which has two parts.

The first part is the MCP agent-messaging protocol. It covers:
- the message envelope and its dict form;
- the lenient and the strict message validators;
- the in-memory agent registry;
- the handler registry with its default handler;
- the server's process/dispatch pipeline, its built-in register and heartbeat handlers, and broadcast fan-out;
- the client's bounded retry loop and how it shapes results;
- the JSON adapter;
- the security helpers: tokens, signatures, expiring tokens and the XOR payload transform.

The second part is the proposal domain. It covers:
- the `Proposal`, `Vote` and `Comment` records;
- the Markdown-ish proposal formatter;
- the section builder of the extractor;
- the action dispatch of the proposal tool.

One module corresponds to each source file:

| source file | module |
|---|---|
| mcp/protocol.py | `Protocol` |
| mcp/utils/validation.py | `Validation` |
| mcp/registry.py | `Registry` |
| mcp/handlers.py | `Handlers` |
| mcp/server.py | `Server` |
| mcp/client.py | `Client` |
| mcp/adapter.py | `Adapter` |
| mcp/utils/security.py | `Security` |
| proposal/models/proposal.py | `Proposals` |
| proposal/models/vote.py | `Votes` |
| proposal/models/comment.py | `Comments` |
| proposal/nlp/proposal_formatter.py | `Formatter` |
| proposal/nlp/proposal_extractor.py | `Extractor` |
| proposal/tools/proposal_tool.py | `ProposalTool` |

Shared modules:
- `Wrappers` holds Option and Result.
- `PyStr` holds Python `str` operations: split, join, strip, lower, `str(int)`/`int(str)`.
- `Dicts` holds insertion-ordered dicts as sequences of pairs.
- `Json` holds JSON values and Python truthiness.
- `Records` holds the typed field readers that `from_dict` uses.

The source works in three styles, and the model follows each:
- **Objects updated in place are classes.** These are `AgentRegistry`, `MessageHandlerRegistry`, `MCPServer`, `MCPClient`, `JSONAdapter` and `Proposal`. Their methods carry `modifies` clauses and state the new state.
- **Loops are methods.** Each one has invariants and is proved equal to a specification function. Examples are the registry sweep, the client retry loop, the XOR loop, the schema checker, `_identify_sections`, `_format_sections`, `_extract_tags` and `_format_proposal_content`.
- **Pure code is functions and lemmas.**

Several outside inputs become parameters:
- **Time.** The clock is a `now` argument or a stamp, an ISO parser is a function parameter, and fresh uuids are supplied `Stamp`s.
- **HTTP.** Transport is an outcome per attempt.
- **Cryptography.** The primitives are fields of a `Primitives` value. The properties the proofs need from them are collected in the `WellBehaved` predicate.

## Model

| member | source | states |
|---|---|---|
| Protocol.ToDict | mcp/protocol.py:70-84 | the dict has the eleven snake_case field names in declaration order, each once |
| Protocol.ToDictLookups | mcp/protocol.py:70-84 | each field name in `to_dict(m)` maps to that field of `m`, with `None` as null |
| Protocol.StrField | mcp/protocol.py:94-97 | `data.get(key, default)` gives the default when the key is absent |
| Protocol.OptStrField | mcp/protocol.py:98-104 | an optional field is `None` when the key is absent |
| Protocol.ObjField | mcp/protocol.py:99 | a missing payload is `{}` |
| Protocol.FromDict | mcp/protocol.py:91-105 | a parsed message has the dict's fields, and every missing key takes its constructor default |
| Protocol.FromDictTyped | mcp/protocol.py:91-105 | parsing succeeds iff every present text field holds text, every present optional field holds text or null, and a present payload holds an object |
| Protocol.FromDictPresent | mcp/protocol.py:91-105 | every key present in the dict gives its field exactly the value it holds (ttl of any JSON kind) |
| Protocol.FromEmptyDict | mcp/protocol.py:91-105 | an empty dict gives the all-defaults message: type `query`, source `unknown`, payload `{}`, ttl 60, optional fields `None` |
| Protocol.ToDictFromDict | mcp/protocol.py:70-105 | `from_dict(to_dict(m))` reproduces all eleven fields of `m` |
| Protocol.CreateResponse | mcp/protocol.py:113-122 | type + `.response`; the original source becomes the target; the original target or `system` becomes the source; correlation = original id; `reply_to` copied; payload as given; no token |
| Protocol.CreateErrorResponse | mcp/protocol.py:124-138 | type `error` with the same addressing swap, correlated with the original id and `reply_to` copied; the payload has exactly `error_code`, `error_message`, `original_message_type`, holding the given code, the given text and the original type |
| Protocol.ErrorCodeOfErrorResponse | mcp/protocol.py:124-138 | the code given to `create_error_response` is the code the reply carries |
| Protocol.TypeAcceptedIffDot | mcp/protocol.py:155-160 | a type passes iff it is an enum value or contains a dot; the `endswith(".response")` clause never changes the outcome |
| Protocol.ValidateMessage | mcp/protocol.py:140-172 | the checks in the source's order: an empty id or type, a type that is neither an enum value, nor dotted, nor `.response`, an unparsable timestamp, then the ttl test; its meaning is proved by `ValidateMessageMeaning` |
| Protocol.ValidateMessageMeaning | mcp/protocol.py:140-172 | valid iff id and type are non-empty, the type passes, ttl is a positive int (bool included) and the timestamp parses; `source_agent` is never checked |
| Protocol.ResponseOfValidIsValid | mcp/protocol.py:113-172 | a response to a valid message is itself valid, given a sound stamp |
| Protocol.ErrorResponseIsValid | mcp/protocol.py:124-172 | every error reply with a sound stamp is valid |
| Validation.IsValidAgentId | mcp/utils/validation.py:12-23 | `re.match` of `^[a-zA-Z0-9_-]+$`: a non-empty word over those characters, optionally followed by the one newline `$` admits; pinned down by the three lemmas below |
| Validation.AgentIdWithoutNewline | mcp/utils/validation.py:12-23 | without a newline, an id is valid iff it is non-empty over `[A-Za-z0-9_-]` |
| Validation.AgentIdTrailingNewline | mcp/utils/validation.py:23 | Python's `$` admits one trailing newline but not two |
| Validation.AgentIdRejectsSpace | mcp/utils/validation.py:23 | an id containing a space is invalid |
| Validation.IsValidMessageType | mcp/utils/validation.py:25-43 | an enum value, or `domain.action` over `[a-z0-9_]` (one trailing newline allowed), or any text ending in `.response` |
| Validation.DomainActionOneDot | mcp/utils/validation.py:42 | a custom `domain.action` type holds exactly one dot |
| Validation.ValidTypeIsAccepted | mcp/utils/validation.py:25-43 | every type the strict validator accepts is accepted by the lenient protocol validator |
| Validation.CapitalisedTypeRejected | mcp/utils/validation.py:25-43 | the two validators differ: `Proposal.Create` passes the lenient one and fails the strict one |
| Validation.UpperStartRejected | mcp/utils/validation.py:36-43 | a non-enum type starting outside `[a-z0-9_]` and not ending in `.response` is rejected |
| Validation.IsExpired | mcp/utils/validation.py:45-67 | expired when the timestamp does not parse, carries a UTC offset, or is more than `max_age` seconds before the clock |
| Validation.ExpiryIgnoresTtl | mcp/utils/validation.py:45-67 | expiry does not depend on the message's `ttl` |
| Validation.ExpiryBoundary | mcp/utils/validation.py:56-64 | the window is strict: exactly `max_age` seconds old is fresh, one second more is expired |
| Validation.ValidatePayloadSchema | mcp/utils/validation.py:69-104 | the errors are the missing-field errors in schema order, followed by the type errors in payload order |
| Validation.CheckRequiredFields | mcp/utils/validation.py:83-85 | the first loop yields one error per required schema field absent from the payload |
| Validation.CheckFieldTypes | mcp/utils/validation.py:88-102 | the second loop yields the type errors of the declared payload fields |
| Validation.MissingFieldErrorsMeaning | mcp/utils/validation.py:83-85 | at most one error per schema field, and none iff every required field is present |
| Validation.MissingFieldErrorsNamed | mcp/utils/validation.py:83-85 | each missing-field error names a required schema field absent from the payload |
| Validation.TypeErrorsMeaning | mcp/utils/validation.py:88-102 | type errors only for payload keys in the schema, at most one each, none iff each declared value has its type (bool counts as number) |
| Validation.UnknownTypeNoError | mcp/utils/validation.py:91-102 | an undeclared or unknown `type` never yields an error |
| Validation.ValidateMessage | mcp/utils/validation.py:106-156 | the error list in the source's order: id, type, source, target, timestamp format, ttl, expiry, payload schema |
| Validation.MessageErrorsEmptyIff | mcp/utils/validation.py:106-156 | `validate_message` returns `[]` iff every check passes; an absent target is not an error |
| Validation.UnparsableTimestampTwoErrors | mcp/utils/validation.py:137-148 | an unparsable timestamp yields both the format error and "Message has expired" |
| Validation.AwareTimestampExpired | mcp/utils/validation.py:56-67 | a timestamp with a UTC offset passes the format check but is always reported expired, since subtracting it from the naive clock raises TypeError |
| Validation.OtherSchemasIgnored | mcp/utils/validation.py:151-154 | the schema table is consulted only under the message's own type |
| Registry.ActiveOnly | mcp/registry.py:123 | exactly the active records, never more than given; order is stated by `ActiveOnlySnoc` |
| Registry.ActiveOnlyIdempotent | mcp/registry.py:123 | filtering active records twice is filtering once |
| Registry.ActiveOnlyAppend | mcp/registry.py:123 | filtering a concatenation is concatenating the filtered parts |
| Registry.ActiveOnlySnoc | mcp/registry.py:123 | a record appended to the list is appended to the result exactly when it is active, so the filter keeps order |
| Registry.HasCapability | mcp/registry.py:138 | Python's `in` on the capabilities value: defined exactly for a list, a string or a dict, and false on an empty list or dict; any other value is the TypeError case |
| Registry.WithCapability | mcp/registry.py:125-139 | exactly the active records whose capabilities contain the capability; an error when a record's capabilities cannot be tested |
| Registry.Stale | mcp/registry.py:155-171 | the sweep's test: active, a non-empty `last_seen` that parses without a UTC offset, and more than `max_inactive_time` seconds before the clock |
| Registry.Sweep | mcp/registry.py:155-171 | a swept record is never stale; only its `active` flag can change, and only from true to false |
| Registry.Swept | mcp/registry.py:141-174 | the table after the sweep keeps every id in place and marks each stale record inactive |
| Registry.AgentRegistry.constructor | mcp/registry.py:15-18 | an empty, valid table |
| Registry.AgentRegistry.RegisterAgent | mcp/registry.py:20-57 | always true; upserts the agent's record and keeps ids distinct |
| Registry.AgentRegistry.UnregisterAgent | mcp/registry.py:59-76 | false and no change for an unknown id; otherwise the record becomes inactive with `last_seen` = now and stays in the table |
| Registry.AgentRegistry.GetAgent | mcp/registry.py:78-89 | a record iff the id is registered, and it is that id's record |
| Registry.AgentRegistry.UpdateAgentStatus | mcp/registry.py:91-107 | false and no change for an unknown id; otherwise sets `active` and `last_seen` on that record only |
| Registry.AgentRegistry.ListAgents | mcp/registry.py:109-123 | all records with `include_inactive`, otherwise exactly the active ones |
| Registry.AgentRegistry.FindAgentsByCapability | mcp/registry.py:125-139 | exactly the active records that have the capability |
| Registry.AgentRegistry.CleanupInactiveAgents | mcp/registry.py:141-174 | the loop leaves the swept table and returns the number of stale records |
| Registry.RegisterOutcome | mcp/registry.py:20-57 | after registering, the agent is present and active with the given capabilities and metadata (`None` → `{}`); re-registering keeps the original `registered_at` and one record; a fresh one has `registered_at == last_seen == now` |
| Registry.StatusOutcome | mcp/registry.py:59-107 | a status change on a known agent leaves the record retrievable with the new flag and time, and every other record unchanged |
| Registry.SweepLeavesNoStale | mcp/registry.py:141-174 | the sweep keeps ids and order, flips only stale active records, and leaves none stale |
| Registry.SweepCount | mcp/registry.py:141-174 | the count returned equals the number of active agents the sweep switched off |
| Handlers.MessageHandlerRegistry.constructor | mcp/handlers.py:20-23 | no handlers and no default handler |
| Handlers.MessageHandlerRegistry.Register | mcp/handlers.py:25-34 | the table maps the type to the handler; other entries and the default are unchanged |
| Handlers.MessageHandlerRegistry.RegisterDefault | mcp/handlers.py:36-44 | sets the default handler and leaves the table unchanged |
| Handlers.MessageHandlerRegistry.Handle | mcp/handlers.py:46-82 | the specific handler wins over the default; a raising handler gives `handler_error`; with neither, `unknown_message_type` |
| Handlers.FailingHandlerAnswered | mcp/handlers.py:59-75 | a failing handler is answered with `handler_error` addressed to the sender and correlated with the request |
| Handlers.HandleSystemError | mcp/handlers.py:84-96 | a `.response` with status `error_acknowledged` echoing `error_code`, default `unknown_error` |
| Handlers.DefaultMessageHandler | mcp/handlers.py:98-106 | a `.response` with status `received` and `original_type` |
| Server.Register | mcp/server.py:73-93 | `handle_register` against the table: a falsy id is refused with the table unchanged, a text id is upserted; proved by `RegisterRefusesMissingId` and `RegisterStoresAgent` |
| Server.Heartbeat | mcp/server.py:95-121 | `handle_heartbeat` against the table: one agent's report, `agent_not_found`, or the active agents with their count; proved by the three heartbeat lemmas |
| Server.Dispatch | mcp/server.py:157-174 | the handler lookup: no handler gives `unknown_message_type`, a raising handler `handler_error`; proved by `MCPServer.DispatchMessage` and `AcceptedCountedOnce` |
| Server.Process | mcp/server.py:123-174 | validate, then authorise, then count and dispatch; the three outcomes are stated by `ProcessSteps` |
| Server.InvalidMessageReply | mcp/server.py:134-143 | an `error` with code `invalid_message` from `system` to the sender, with no correlation id |
| Server.RecordValues | mcp/server.py:116-118 | one JSON object per agent record |
| Server.ProcessSteps | mcp/server.py:123-174 | validate, then check the token, then count and dispatch; the first two failures leave the state unchanged |
| Server.BroadcastCopy | mcp/server.py:224-237 | a fresh id; target = that agent; same type, source, payload and correlation; no `auth_token`, `reply_to` or signature; ttl 60 |
| Server.KnownIds | mcp/server.py:209-213 | an id is a target iff it is in the filter and registered, active or not |
| Server.KnownIdsAppend | mcp/server.py:209-213 | the targets of a concatenated filter are the concatenated targets |
| Server.KnownIdsSnoc | mcp/server.py:209-213 | an id appended to the filter is appended to the targets exactly when it is registered, so the targets keep filter order |
| Server.IdsOf | mcp/server.py:217-220 | the ids of the records, in order |
| Server.MCPServer.constructor | mcp/server.py:25-46 | no handlers, an empty registry, message count 0, and the given auth settings |
| Server.MCPServer.RegisterHandler | mcp/server.py:54-66 | the table maps the type to the handler; the count is unchanged |
| Server.MCPServer.RegisterDefaultHandlers | mcp/server.py:68-71 | installs the built-in register and heartbeat handlers |
| Server.MCPServer.HandleRegister | mcp/server.py:73-93 | the reply and registry table are those of the register handler |
| Server.MCPServer.ProcessMessage | mcp/server.py:123-174 | the reply, message count and registry follow the validate/auth/count/dispatch pipeline |
| Server.MCPServer.DispatchMessage | mcp/server.py:157-174 | a type with no handler gives `unknown_message_type`, with no default fallback; a raising handler gives `handler_error` |
| Server.MCPServer.HandleBroadcast | mcp/server.py:198-249 | each target gets its own copy processed in turn; the replies are collected by target id |
| Server.MCPServer.StatusCounts | mcp/server.py:251-265 | the counts as written, both agent counts over `list_agents()`; `StatusCountsCoincide` and `StatusCountsMissInactive` state what that gives |
| Server.MCPServer.StatusCountsCorrected | mcp/server.py:251-265 | `registered_agents` counts every registered agent, and `active_agents` is at most that |
| Server.InvalidMessageNotCounted | mcp/server.py:134-143 | an invalid message is answered `invalid_message` and changes neither counter nor registry |
| Server.UnauthorizedNotCounted | mcp/server.py:146-151 | under `require_auth`, a non-register message with a missing, empty or unknown token is `unauthorized` and not counted |
| Server.AcceptedCountedOnce | mcp/server.py:154-174 | every accepted message adds exactly 1 to the count, including unknown types and failing handlers |
| Server.RegisterRefusesMissingId | mcp/server.py:73-82 | a missing or empty `agent_id` gives `invalid_request` and leaves the registry unchanged |
| Server.RegisterStoresAgent | mcp/server.py:83-93 | a given id is stored active with its capabilities, the reply says `registered`, and other records are unchanged |
| Server.HeartbeatOutcomes | mcp/server.py:95-121 | a non-empty text id unknown to the registry is answered `agent_not_found` |
| Server.HeartbeatReportsAgent | mcp/server.py:97-113 | a known id gets exactly `agent_id`, `status` (`active`/`inactive` from its record), `last_seen` and `capabilities` of that record |
| Server.HeartbeatListsActive | mcp/server.py:114-121 | with no id, the reply lists exactly the active agents, `count` equal to their number, and the uptime |
| Server.UnfilteredTargets | mcp/server.py:214-220 | without a filter, a broadcast goes to exactly the active agents |
| Server.AuthenticatedBroadcastRefused | mcp/server.py:224-237 | under `require_auth`, copies without a token reach no handler and leave the state unchanged |
| Server.StatusCountsCoincide | mcp/server.py:254-261 | as written, `registered_agents` always equals `active_agents` |
| Server.StatusCountsMissInactive | mcp/server.py:254-261 | as written, one registered but inactive agent is reported as 0 registered agents |
| Client.FailureReply | mcp/client.py:113-133 | the failure code is `http_<status>`, `timeout` or `client_error`, correlated with the request |
| Client.AttemptsOutcome | mcp/client.py:85-137 | with `max_retries <= 0`, None; otherwise the first 200 reply with no later attempts, or the error of the last attempt |
| Client.AttemptsFirst | mcp/client.py:85-137 | when attempt `j` is the first 200 from attempt `k` on, the attempts from `k` answer with its reply |
| Client.AttemptsAllFail | mcp/client.py:113-133 | when every attempt from `k` on fails, the reply is the error of attempt `max_retries - 1` |
| Client.Backoff | mcp/client.py:135-137 | after failed attempt k (not the last), the wait is `retry_delay*(k+1)` |
| Client.MCPClient.constructor | mcp/client.py:19-42 | the agent id and token; `max_retries` 3 and `retry_delay` 1.0 by default |
| Client.MCPClient.Outgoing | mcp/client.py:85-91 | the message carries the client's id as source, its token, and the given type, target and payload |
| Client.MCPClient.SendMessage | mcp/client.py:61-137 | an invalid message raises before any attempt; otherwise the reply of the attempts, with no attempt at all iff `max_retries <= 0`, at most `max_retries`, stopping at the first 200; the waits follow the backoff |
| Client.MCPClient.Retry | mcp/client.py:98-137 | the loop's reply is the reference definition of the attempts; zero attempts iff `max_retries <= 0`; every attempt but the last failed, and a failed last one was number `max_retries`; the waits follow the backoff |
| Client.MCPClient.Broadcast | mcp/client.py:139-214 | invalid → raises; 200 → one parsed message per key; other status → one `error` entry `http_<status>`; exception → `client_error` |
| Client.MCPClient.QueryAgentStatus | mcp/client.py:216-235 | the payload of the heartbeat reply |
| Client.StatusQueryPayload | mcp/client.py:226-228 | `agent_id` is in the payload only when an id is given |
| Client.MCPClient.RegistrationPayload | mcp/client.py:248-252 | exactly `agent_id`, `capabilities`, `metadata`: the client's own id, the capabilities given, and the metadata or `{}` when falsy |
| Client.MCPClient.RegisterAgent | mcp/client.py:237-259 | the reply payload's `success` entry, False when absent |
| Client.ParseReplies | mcp/client.py:187-195 | the loop over a 200 body equals the reference parse of all its entries |
| Client.Parsed | mcp/client.py:187-195 | one result per body key, in body order |
| Client.ParsedMeaning | mcp/client.py:187-195 | results exist iff every entry parses; entry k is then the parse of body entry k under its key |
| Client.ParsedFailureStays | mcp/client.py:187-195 | once an entry fails to parse, the whole body does |
| Client.RegisterNeverSucceeds | mcp/client.py:259 | against this server's register handler, `success` is always false |
| Adapter.ConvertToMcp | mcp/adapter.py:168-179 | type from `type` (default `query`), target from `target`, payload from `data` (default `{}`), source = the adapter's id |
| Adapter.ConvertFromMcp | mcp/adapter.py:181-189 | exactly type, source, data, message id and timestamp |
| Adapter.Response | mcp/adapter.py:183-189 | the five keys of the JSON form, each once, holding the given values |
| Adapter.ErrorObject | mcp/adapter.py:191-200 | type `error` from the adapter, with `data.error` holding the text |
| Adapter.ConvertRoundTrip | mcp/adapter.py:168-189 | JSON and back keeps type and payload; the source becomes the adapter; the target is dropped |
| Adapter.HandlerError | mcp/adapter.py:147-152 | `handler_error` addressed to the sender and correlated with the message |
| Adapter.JSONAdapter.constructor | mcp/adapter.py:27-41 | an empty handler table and a client with the same id and settings |
| Adapter.JSONAdapter.RegisterHandler | mcp/adapter.py:110-123 | overwrites the entry for its type; every other entry is unchanged |
| Adapter.JSONAdapter.HandleMessage | mcp/adapter.py:125-159 | no handler → `unknown_message_type`; a raising handler or unconvertible response → `handler_error`; otherwise the converted response |
| Adapter.JSONAdapter.ProcessRequest | mcp/adapter.py:68-96 | never raises: an ill-typed request, an invalid message or no reply gives the error object; otherwise the reply converted back |
| Security.GenerateAuthToken | mcp/utils/security.py:14-24 | `2*(n//2)` hex digits encoding the `n//2` random bytes |
| Security.Hex | mcp/utils/security.py:24 | two lower-case hex digits per byte |
| Security.UnhexOfHex | mcp/utils/security.py:24 | the hex text reads back as the bytes |
| Security.SignMessage | mcp/utils/security.py:26-48 | base64 of the HMAC-SHA256 under the key of the sorted items of the message without `signature`; `SignIgnoresSignature` and `SignThenVerify` state what it guarantees |
| Security.SignedFields | mcp/utils/security.py:38-44 | the signed dict is `to_dict()` without `signature` |
| Security.SignIgnoresSignature | mcp/utils/security.py:38-48 | messages that differ only in `signature` sign identically |
| Security.VerifySignature | mcp/utils/security.py:50-71 | false without a signature; true iff it equals the recomputed one; fails only on a non-ASCII signature |
| Security.SignThenVerify | mcp/utils/security.py:26-71 | a message carrying its own signature verifies under the same key |
| Security.TokenSignature | mcp/utils/security.py:89-94 | base64 of the HMAC-SHA256 under the key of `user_id:expiry` |
| Security.GenerateExpiringToken | mcp/utils/security.py:73-97 | base64 of `user_id:(now + expiry):signature`; `TokenParts` and `ExpiringTokenRoundTrip` state that it reads back and verifies |
| Security.VerifyExpiringToken | mcp/utils/security.py:99-135 | a verified user id never contains `:` |
| Security.TokenParts | mcp/utils/security.py:85-97 | a generated token's text splits back into user id, expiry and signature |
| Security.ExpiringTokenRoundTrip | mcp/utils/security.py:73-135 | a token for a `:`-free user id verifies as that user at any time up to and including its expiry second |
| Security.GeneratedTokenVerdict | mcp/utils/security.py:110-133 | verifying a generated token reduces to the comparison `int(expiry) < now` |
| Security.VerifyDecoded | mcp/utils/security.py:110-133 | a three-part token verifies iff the expiry is not past and the signature matches |
| Security.ExpiredTokenRefused | mcp/utils/security.py:121-123 | after its expiry second the token is refused |
| Security.ColonInUserIdNeverVerifies | mcp/utils/security.py:112-118 | a user id containing `:` never verifies |
| Security.VerifyNotThree | mcp/utils/security.py:113-118 | a decoded text that is not three parts is refused |
| Security.Xored | mcp/utils/security.py:158-161 | the output has the length of the input |
| Security.XoredInvolution | mcp/utils/security.py:158-161 | applying the transform twice with the same key restores the data |
| Security.XorTransform | mcp/utils/security.py:158-161 | the index loop computes byte i XOR `key_hash[i mod 32]` |
| Security.EncryptPayload | mcp/utils/security.py:137-163 | base64 of the XOR of the UTF-8 of the payload's sorted items |
| Security.DecryptText | mcp/utils/security.py:165-206 | succeeds iff base64 and UTF-8 decode; then the text undoes the XOR |
| Security.EncryptThenDecrypt | mcp/utils/security.py:137-206 | decrypting an encryption gives back the payload's text |
| Proposals.ClosingStatus | proposal/models/proposal.py:72-81 | a whitelisted status is kept, anything else becomes `closed`; never `open` |
| Proposals.CountVote | proposal/models/proposal.py:52-62 | that count rises by 1 (created at 1 if absent); other counts are unchanged; keys stay distinct |
| Proposals.GetAttr | proposal/models/proposal.py:8-37 | a value exactly for the proposal's field names |
| Proposals.SetAttr | proposal/models/proposal.py:46-48 | `setattr` of one known field; unknown keys and values of another kind leave the proposal unchanged, and since no JSON value is a datetime, `created_at` is never set and `updated_at` only to null; stated by `SetAttrGet`, `SetAttrOther` and `SetAttrKeeps` |
| Proposals.SetAttrGet | proposal/models/proposal.py:39-50 | a stored field reads back as the value stored |
| Proposals.SetAttrOther | proposal/models/proposal.py:39-50 | setting one field leaves every other field as it was |
| Proposals.SetAttrKeeps | proposal/models/proposal.py:39-50 | unknown keys change nothing |
| Proposals.Assigned | proposal/models/proposal.py:46-48 | the keyword loop of `update`, one `SetAttr` per item in order; stated by `AssignedAttr` |
| Proposals.AssignedAttr | proposal/models/proposal.py:46-48 | after the loop, each named field holds its given value and unnamed fields are unchanged |
| Proposals.ToDict | proposal/models/proposal.py:83-103 | the dict holds the proposal's field names in order, each once |
| Proposals.ToDictLookups | proposal/models/proposal.py:83-103 | each key maps to its field; times are ISO text; a missing update time is null |
| Proposals.UpdatedAtOf | proposal/models/proposal.py:127-129 | an absent or null `updated_at` gives None; ISO text reads back |
| Proposals.FromDict | proposal/models/proposal.py:114-144 | a missing `created_at` is a KeyError |
| Proposals.FromDictOfFields | proposal/models/proposal.py:114-144 | a dict whose fields all read back builds the proposal of those fields |
| Proposals.FromDictDefaults | proposal/models/proposal.py:125-144 | with only the required keys: no update time, tags and categories `[]`, votes `{"support": 0, "oppose": 0}`, comment count 0, metadata `{}` |
| Proposals.ToDictReadsBackTimes | proposal/models/proposal.py:83-129 | both times of `to_dict()` read back |
| Proposals.ToDictReadsBackTexts | proposal/models/proposal.py:83-144 | the text fields of `to_dict()` read back |
| Proposals.ToDictReadsBackCollections | proposal/models/proposal.py:83-144 | tags, categories, vote counts, comment count and metadata read back |
| Proposals.FromDictToDict | proposal/models/proposal.py:83-144 | `from_dict(to_dict(p))` equals `p` field for field |
| Proposals.Proposal.constructor | proposal/models/proposal.py:8-37 | open; votes support 0 and oppose 0; no comments |
| Proposals.Proposal.SetAttribute | proposal/models/proposal.py:47-48 | the new state is the old one with that attribute set |
| Proposals.Proposal.Update | proposal/models/proposal.py:39-50 | existing attributes set in order; unknown keys ignored; `updated_at` always bumped |
| Proposals.Proposal.AddVote | proposal/models/proposal.py:52-62 | only the vote counts change, by that one vote |
| Proposals.Proposal.IncrementCommentCount | proposal/models/proposal.py:64-66 | adds exactly 1 to `comment_count` and changes nothing else |
| Proposals.Proposal.Close | proposal/models/proposal.py:68-81 | status from the whitelist or `closed`, `updated_at` = now; afterwards `is_open` is false |
| Votes.ValidateVoteType | proposal/models/vote.py:117-128 | the lower-cased type is `support`, `oppose` or `abstain` |
| Votes.ExactlyOneKind | proposal/models/vote.py:37-47 | a valid type is exactly one of support/oppose/abstain; any other type is none |
| Votes.ValidateIgnoresCase | proposal/models/vote.py:117-128 | the check is case-insensitive |
| Votes.ToDict | proposal/models/vote.py:49-66 | the dict holds the vote's field names in order, each once |
| Votes.ToDictLookups | proposal/models/vote.py:49-66 | each key maps to its field |
| Votes.WeightOr | proposal/models/vote.py:98 | weight defaults to 1.0; a stored float reads back |
| Votes.FromDict | proposal/models/vote.py:77-102 | a missing `created_at` is a KeyError |
| Votes.FromDictOfFields | proposal/models/vote.py:77-102 | a dict whose fields all read back builds the vote of those fields |
| Votes.FromDictToDict | proposal/models/vote.py:49-102 | `from_dict(to_dict(v))` equals `v` field for field |
| Votes.FromDictDefaults | proposal/models/vote.py:96-100 | reason `None`, weight 1.0, `is_official` false, metadata `{}` when absent |
| Comments.ValidateSentiment | proposal/models/comment.py:114-125 | the lower-cased sentiment is `positive`, `negative`, `neutral` or `mixed` |
| Comments.PositiveNegativeExclusive | proposal/models/comment.py:38-44 | never both positive and negative; either one implies a valid sentiment |
| Comments.ValidateSentimentIgnoresCase | proposal/models/comment.py:114-125 | the check is case-insensitive |
| Comments.ToDict | proposal/models/comment.py:46-63 | the dict holds the comment's field names in order, each once |
| Comments.ToDictLookups | proposal/models/comment.py:46-63 | each key maps to its field |
| Comments.IsReplyInDict | proposal/models/comment.py:34-36 | a comment is a reply iff its dict's `parent_id` is not null |
| Comments.FromDict | proposal/models/comment.py:74-99 | a missing `created_at` is a KeyError |
| Comments.FromDictOfFields | proposal/models/comment.py:74-99 | a dict whose fields all read back builds the comment of those fields |
| Comments.FromDictToDict | proposal/models/comment.py:46-99 | `from_dict(to_dict(c))` equals `c` field for field |
| Comments.FromDictDefaults | proposal/models/comment.py:93-97 | sentiment `neutral`, `parent_id` `None`, `is_official` false, metadata `{}` when absent |
| Formatter.IsHeader | proposal/nlp/proposal_formatter.py:92 | `^#{1,3}\s+`: one to three `#` followed by whitespace; `Classify` states the consequence per line |
| Formatter.HeaderName | proposal/nlp/proposal_formatter.py:99 | the header line without its marks and the whitespace after them, lower-cased |
| Formatter.LeadingHashes | proposal/nlp/proposal_formatter.py:92 | the longest run of `#` that starts the line |
| Formatter.Classify | proposal/nlp/proposal_formatter.py:90-102 | a line is a header iff it has 1-3 `#` then whitespace; otherwise it is text, unchanged |
| Formatter.IdentifySections | proposal/nlp/proposal_formatter.py:75-108 | the loop's sections are those of the reference scan |
| Formatter.SectionsAreRuns | proposal/nlp/proposal_formatter.py:75-108 | no name twice, and each section is a maximal run of text lines named `main` before any header and otherwise by the lower-cased header |
| Formatter.SectionsComplete | proposal/nlp/proposal_formatter.py:75-108 | conversely, the last run of each name is the section of that name, since a later header of the same name overwrites it |
| Formatter.LastRunSaved | proposal/nlp/proposal_formatter.py:75-108 | a run of text lines with no later run of the same name is the section of that name, holding its joined, stripped text |
| Formatter.RunNamesAreKeys | proposal/nlp/proposal_formatter.py:75-108 | every run's name is a key of the result |
| Formatter.SectionsWithoutHeaders | proposal/nlp/proposal_formatter.py:75-108 | content with no header line is one `main` section holding the stripped content |
| Formatter.FirstMatch | proposal/nlp/proposal_formatter.py:140-145 | the first remaining section, in dict order, whose name contains the keyword |
| Formatter.Leftovers | proposal/nlp/proposal_formatter.py:150-154 | each unmatched section, in order, under `## ` + its capitalised name |
| Formatter.FormattedSectionsAccount | proposal/nlp/proposal_formatter.py:110-156 | each input section is emitted at most once, or dropped for empty text |
| Formatter.FormattedSectionsTraced | proposal/nlp/proposal_formatter.py:137-154 | a dropped section was empty; each emitted part ends with its section's text |
| Formatter.FormattedSectionsMainFirst | proposal/nlp/proposal_formatter.py:122-125 | `main` is emitted first and bare |
| Formatter.TakeFirst | proposal/nlp/proposal_formatter.py:138-145 | the inner search takes the first match out of the remaining sections |
| Formatter.PriorityRound | proposal/nlp/proposal_formatter.py:137-148 | one round of the priority loop adds that section's part, if any |
| Formatter.AppendLeftovers | proposal/nlp/proposal_formatter.py:150-154 | the last loop appends the leftovers in order |
| Formatter.FormatSections | proposal/nlp/proposal_formatter.py:110-156 | the method's text is the reference join of the emitted parts |
| Formatter.HeadingAt | proposal/nlp/proposal_formatter.py:169-171 | `^#\s+(.+)$` under MULTILINE at one line start: the stripped heading text, or `""` when the match backs off into trailing whitespace, or no match |
| Formatter.AfterLineEnd | proposal/nlp/proposal_formatter.py:169 | the rest after the first line end is shorter than the input |
| Formatter.SearchHeading | proposal/nlp/proposal_formatter.py:169-171 | `re.search` over the line starts, first to last; `HeadingTitle` states it for a leading heading |
| Formatter.ExtractTitle | proposal/nlp/proposal_formatter.py:158-178 | the text of the first `# ` heading when there is one; otherwise the first line of the stripped content, stripped and cut to its first 50 characters |
| Formatter.HeadingTitle | proposal/nlp/proposal_formatter.py:169-171 | a text opening with a `# ` heading line gets that line's stripped text as title |
| Formatter.Tags | proposal/nlp/proposal_formatter.py:180-213 | never empty: the default tag stands in when no group matched |
| Formatter.TagsMeaning | proposal/nlp/proposal_formatter.py:180-213 | each matching group's tag once, `一般` iff none matched, never empty |
| Formatter.MatchedTagsMembers | proposal/nlp/proposal_formatter.py:205-207 | the tags found are exactly those of the groups whose keywords occur |
| Formatter.MatchedTagsDistinct | proposal/nlp/proposal_formatter.py:205-207 | with distinct group tags, no tag is listed twice |
| Formatter.ExtractTags | proposal/nlp/proposal_formatter.py:180-213 | the loop's tags are the reference tags |
| Formatter.FormatContent | proposal/nlp/proposal_formatter.py:42-73 | empty content stays empty; otherwise the title line when none of the first three lines starts with `#`, then the body, stripped; stated by the three lemmas below |
| Formatter.FormatContentTitle | proposal/nlp/proposal_formatter.py:42-73 | a title the formatter adds is the one `_extract_title` then finds |
| Formatter.TitledOutput | proposal/nlp/proposal_formatter.py:57-73 | with a title added, the output is the `# title` line and the rest, right-stripped |
| Formatter.HeadingSurvivesRStrip | proposal/nlp/proposal_formatter.py:73 | stripping the end keeps the heading line's title |
| Formatter.TextOrEmpty | proposal/nlp/proposal_formatter.py:25-26 | a missing or falsy field reads as `""`; a non-empty result is the stored text |
| Formatter.FormatProposal | proposal/nlp/proposal_formatter.py:11-40 | a copy of the data with formatted content and completed title and tags; stated by `FormatProposalFails` and `FormatProposalFields` |
| Formatter.FormatProposalFails | proposal/nlp/proposal_formatter.py:11-40 | fails only on a truthy content or title that is not text |
| Formatter.FormatProposalFields | proposal/nlp/proposal_formatter.py:22-40 | content always rewritten; title kept if set, else extracted; tags kept if set, else extracted (never empty); other keys preserved |
| Extractor.ExtractContent | proposal/nlp/proposal_extractor.py:82-109 | the decoded JSON reply, whatever its kind; on failure the dict whose `has_proposal` is false |
| Extractor.HasProposalIntent | proposal/nlp/proposal_extractor.py:66-80 | the reply's `has_proposal`; false when absent or when extraction failed |
| Extractor.Iterated | proposal/nlp/proposal_extractor.py:154-155 | `for x in v`: defined exactly for a list, a string or a dict, with one item per element, character or key |
| Extractor.Bullets | proposal/nlp/proposal_extractor.py:154-163 | one `- item` line per item, in input order |
| Extractor.AppendBlock | proposal/nlp/proposal_extractor.py:152-163 | the loop appends a header, a line per item and a closing part; it fails on a non-iterable |
| Extractor.FormatProposalContent | proposal/nlp/proposal_extractor.py:135-169 | the method's text is the parts joined by line ends |
| Extractor.ContentParts | proposal/nlp/proposal_extractor.py:135-169 | the parts `_format_proposal_content` collects; stated by `ContentPartsFails` and `ContentPartsLayout` |
| Extractor.ContentPartsFails | proposal/nlp/proposal_extractor.py:148-163 | fails only when a truthy list field is not iterable |
| Extractor.ContentPartsLayout | proposal/nlp/proposal_extractor.py:148-167 | background, then main points, then suggestions, each only if truthy; the input text only when none is set |
| Extractor.ExtractAndFormat | proposal/nlp/proposal_extractor.py:111-124 | a reply that is not a dict raises AttributeError (Err); a failed extraction or a falsy or missing `has_proposal` gives None |
| Extractor.Proposal | proposal/nlp/proposal_extractor.py:127-131 | exactly title, content and tags |
| Extractor.FailedExtraction | proposal/nlp/proposal_extractor.py:100-109 | a failed extraction has no intent and gives no proposal |
| Extractor.ExtractAndFormatFields | proposal/nlp/proposal_extractor.py:111-133 | title defaults to `未命名提案`, tags to `[]`, and content is the formatted parts |
| ProposalTool.CreatedText | proposal/tools/proposal_tool.py:52-59 | the reply opens with the created proposal's id |
| ProposalTool.ListLines | proposal/tools/proposal_tool.py:69-72 | one line per proposal, in the manager's order |
| ProposalTool.NormalizeVote | proposal/tools/proposal_tool.py:111-116 | the five words for map to `support`, the five against to `oppose`, anything else is refused; the result is a valid vote type |
| ProposalTool.Create | proposal/tools/proposal_tool.py:43-59 | an empty title or description fails without touching the manager; otherwise exactly one proposal is created and named |
| ProposalTool.List | proposal/tools/proposal_tool.py:61-74 | asks the manager once; no proposals → `当前没有提案`; otherwise the heading and one line each |
| ProposalTool.CastVote | proposal/tools/proposal_tool.py:102-126 | votes are recorded only with a valid type on a proposal found |
| ProposalTool.VoteFlow | proposal/tools/proposal_tool.py:102-126 | missing fields fail first; an unknown word is refused before lookup; then not-found, refused, or success by the manager's answer |
| ProposalTool.Run | proposal/tools/proposal_tool.py:35-155 | dispatches the actions; an unknown action lists the supported ones; every manager call is a safe one |

## Left out

- The `view` and `analyze` actions of the proposal tool: `Run` answers them as unmodelled. They need the proposal manager's full records, float percentages and a language-model call.
- `ProposalManager` is not part of this model. The tool sees it as a parameter through four operations, and every reply records the calls made.
- The language-model chain of the extractor: its decoded JSON reply is an input, None where the chain or `json.loads` raises. A reply of another JSON kind than an object is kept, as in Python; `extract_and_format` then fails at `content.get`.
- Formatter.ExtractTags: `list(set)` has hash order; the model lists the tags in keyword-group order (same elements, no duplicates).
- PyStr.Lower: lower-cases ASCII letters only, where Python's `lower()` folds every cased letter. The model therefore differs on non-ASCII letters: header lines `## ÜBER` and `## über` name one section in Python and two in the model; the refused vote word that `CastVote` echoes keeps such letters upper-case; and a letter whose lower case is ASCII (the Kelvin sign) does not match an ASCII vote word, sentiment or keyword. For ASCII input the model agrees with Python.
- Proposals.Proposal.Update: a value of another kind than the field's is not stored (Python would store an ill-typed attribute). In particular a text given for `created_at` or `updated_at` is not stored: Python stores the `str`, and a later `to_dict` raises AttributeError at `isoformat()`. `setattr` on a method name is not modelled.
- The unused `section_key` of `priority_sections` is dropped; no keyword group holds `|`, so each group is its one keyword.
- Formatter.ExtractTitle: the `提案` fallback cannot be reached, since `split` never gives an empty list.
- Formatter.FormatProposalFails: a truthy non-text title or content is refused (Err). In Python a non-text content raises in the string operations, but a non-text title such as a number is formatted by `f"# {title}\n"` and the call succeeds; the model does not cover that case.
- Json.Show: floats, arrays and objects are shown by a placeholder rather than Python's `str`.
- ProposalTool.Run: keyword arguments are text; non-text kwargs are not modelled.
- HTTP plumbing: aiohttp routes, request decoding, status mapping, server start and the client session lifecycle. Transport is an outcome per attempt, and sleeps are returned as the list of waits (`Client.Backoff`).
- Cryptographic primitives (HMAC-SHA256, SHA-256, base64, UTF-8, `secrets`) are fields of a `Primitives` value. The facts the proofs use are the `WellBehaved` predicate: decoders invert encoders, base64 text has no `:`, a digest is 32 bytes.
- Security.DecryptText: `ast.literal_eval` and the `str(sorted(items))` canonicalisation are abstracted. Decryption stops at the recovered text.
- Clocks, uuids and randomness are parameters: `now`, ISO parsers, `Stamp`s and random byte sources.
- The registry's `RLock` and asyncio scheduling: all operations are sequential.
- `from_dict` of a message, proposal, vote or comment refuses a field of the wrong JSON type (None/Err); Python would build an ill-typed object.
- Adapter.ConvertToMcp: for the same reason a `type`, `target` or `data` of the wrong JSON kind gives None, where `adapter.py` builds a message holding the ill-typed value.
- Integer width: Python integers are unbounded, as Dafny's are, so no wrap-around is modelled. `retry_delay`, `uptime` and `weight` are kept as reals, and waits are counted in units of `retry_delay`.
- Registry.WithCapability: a capabilities value that is neither a list, a string nor a dict gives an error result, the TypeError Python's `in` raises; Python then fails the whole lookup, as the model does.
- Server.Register: a truthy `agent_id` that is not text is answered as a raising handler (`handler_error`) and nothing is stored. Python registers a number under an integer key (and raises only for a list or a dict); the model's registry is keyed by text.
- Formatter.Leftovers: `str.capitalize` is modelled on ASCII letters only (`PyStr.Capitalize`), so a section name starting with a non-ASCII letter keeps its case, and later upper-case non-ASCII letters are not lowered.
- PyStr.ParseInt: `int()` of a token's expiry accepts ASCII digits with an optional sign and surrounding whitespace; Python also accepts `_` between digits and non-ASCII decimal digits. Generated tokens never contain either.
- Validation.IsExpired: time is whole seconds; sub-second ages are not modelled.
- Logging calls are left out.

## Findings

| source | as written | input that shows it | evidently intended | confidence | as-written member | corrected member |
|---|---|---|---|---|---|---|
| mcp/server.py:254-261 | `registered_agents` is `len(list_agents())`, and `list_agents()` returns only active agents, so it always equals `active_agents` | a registry holding one agent whose `active` is false: `registered_agents` is reported as 0 | `registered_agents` counts every registered agent (`list_agents(include_inactive=True)`) | not executed | Server.StatusCountsMissInactive | Server.MCPServer.StatusCountsCorrected |
