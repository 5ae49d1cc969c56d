# Image-analysis relay: the result slot and its three handlers

A Flask server takes raw image bytes from a camera board on `POST /analyze`.
It picks one of two instruction prompts from the `X-Prompt-Type` header and
sends image and prompt to a vision-model API. It stores the answer in one
module-level record, `latest_result`, and replies with the full text and a
copy cut to 200 characters for the board's display. `GET /get_result` lets a
second board poll that record. `GET /health` is a liveness probe.

This Dafny project models that core:

- `backend_server.dfy`, module `BackendServer`. The requests, replies and the
  stored record are datatypes. The pure parts are functions: prompt lookup
  with its default, truncation, the error envelope, and the `/get_result` and
  `/health` replies. `Analyze` is a reference definition of one `/analyze`
  request, stated by cases. The class `Server` holds `latest_result` as its
  field `latest`. Its method `AnalyzeImage` follows the handler step by step,
  and its `ensures` ties the reply, the new store and the upstream request to
  `Analyze`. Lemmas state the per-request properties.
- `server_traces.dfy`, module `ServerTraces`. Sequences of endpoint calls are
  served one after another. Lemmas cover last-write-wins, the sentinel before
  the first write, the shape of every reachable record, reads that never
  write, and a health reply that never depends on history.

Inputs the model takes as parameters:

- The vision-model call is an oracle. Its outcome is the parameter
  `Upstream = Ok(text) | NoContent | Err(message)`. `NoContent` is a
  completion whose content is `None`. `Err` is any exception from building
  the client, from the call, or from reading its first choice (line 87).
- The request the handler builds for the upstream is returned as
  `call: Option<VisionCall>`. It is `None` exactly when the handler returns
  before line 59, so the upstream is never reached. An `Err` outcome still
  carries the built request, even when the failure came from building the
  client.
- Python's `int()` applied to the header text is the parameter
  `parse: string -> IntParse`. An absent header gives selector 1 without parsing.
- The clock is a caller-supplied non-empty `Timestamp`.

Two orderings in the handler decide what the model says:

- A reader might expect a malformed `X-Prompt-Type` to default to prompt 1,
  or an empty body always to give 400. The code parses the header at
  backend_server.py:31, before the empty-body check at line 38, and the
  `ValueError` lands in the catch-all at lines 117-120. The reply is 500, even
  for an empty body (`MalformedSelectorFails`).
- A reader might expect a failed request to leave the stored record alone, and
  every timestamped record to hold a response. The code writes the store
  (lines 95-99) before it takes `len(response_text)` (line 104). A `None`
  content therefore leaves a timestamped record with a null response, and the
  request still answers 500 (`NoContentWritesThenFails`,
  `StampedRecordWithoutResponse`). What does hold is weaker: a record without
  a timestamp is exactly the initial one (`NoTimestampMeansSentinel`).

## Model

| member | source | states |
|---|---|---|
| `BackendServer.PromptFor` | backend_server.py:47-52 | selector 2 gives the object-listing prompt; every other integer gives the step-by-step prompt; the result is always one of the two map entries |
| `BackendServer.SelectorOf` | backend_server.py:31 | an absent header is selector 1 without calling `int()`; a present header is `int()` of its text, an integer or a ValueError |
| `BackendServer.Truncate` | backend_server.py:104 | the display text is a prefix of the response, at most 200 characters long, equal to the response when that has at most 200 characters, and exactly 200 long otherwise |
| `BackendServer.ErrorReply` | backend_server.py:117-120 | every caught exception becomes status 500 whose error text is the fixed prefix `Error processing request: ` followed by the exception's text |
| `BackendServer.Analyze` | backend_server.py:19-120 | `/analyze` answers 200, 400 or 500, and 200 exactly with a success body; without an upstream call the store is unchanged; any change to the store carries the request's timestamp |
| `BackendServer.ResultReply` | backend_server.py:150-158 | `/get_result` answers 200 with exactly the stored response and timestamp |
| `BackendServer.HealthCheck` | backend_server.py:122-124 | `/health` answers 200 with status `Server is running`; the reply takes no state |
| `BackendServer.EmptyBodyRejected` | backend_server.py:31-40 | when the selector parses and the body is empty, the reply is 400 `No image data provided`, the upstream is not called and the store is unchanged |
| `BackendServer.MalformedSelectorFails` | backend_server.py:31 | a present header that `int()` rejects gives 500 with the prefixed ValueError text (the handler at lines 117-120), for any body and any upstream; there is no call and no write |
| `BackendServer.PromptSelection` | backend_server.py:52-84 | with a parsed selector and a non-empty body, the upstream gets the image bytes, the fixed model name, 500 max tokens, and prompt 2 exactly when the selector is 2; an absent header gets prompt 1 |
| `BackendServer.SuccessReplyAndStore` | backend_server.py:95-115 | upstream text T gives 200 with `success` true, `full_response` T and `response` exactly `T[:200]`: a prefix of T of at most 200 characters, equal to T when T has at most 200 characters and to its first 200 otherwise; the store becomes exactly (T, now), keeping nothing of the old record |
| `BackendServer.UpstreamErrorKeepsStore` | backend_server.py:61-99 | an exception from the upstream call gives 500 with the prefixed message and leaves the store as it was |
| `BackendServer.NoContentWritesThenFails` | backend_server.py:87-104 | `None` content gives 500 with the `len(None)` TypeError text, yet the store was already overwritten with a null response and the timestamp |
| `BackendServer.Server.constructor` | backend_server.py:138-141 | the slot starts at the sentinel text with no timestamp |
| `BackendServer.Server.AnalyzeImage` | backend_server.py:18-120 | the handler's reply, the new value of `latest_result` and the request sent upstream are those of the reference definition for the store it found |
| `BackendServer.Server.GetResult` | backend_server.py:143-158 | answers the `/get_result` reply for the current `latest_result` (200, its response and timestamp) and modifies nothing, so the trace lemmas about that reply apply to it |
| `BackendServer.Server.Health` | backend_server.py:122-124 | answers the fixed health reply and modifies nothing |
| `ServerTraces.ServeWrites` | backend_server.py:95-99 | each call either replaces the whole store with the record it writes, or leaves it as it was; what it writes does not depend on the old store |
| `ServerTraces.LastWriteWins` | backend_server.py:95-99 | after any sequence of calls the store is the record of the last writing call, or the starting store if none wrote |
| `ServerTraces.SentinelUntilFirstWrite` | backend_server.py:137-158 | until a call writes, `/get_result` reports the sentinel text with a null timestamp |
| `ServerTraces.LastWriteStamped` | backend_server.py:96-99 | every record an `/analyze` writes carries a timestamp |
| `ServerTraces.NoTimestampMeansSentinel` | backend_server.py:137-141 | from process start, the stored record has no timestamp exactly when it is still the sentinel |
| `ServerTraces.StampedRecordWithoutResponse` | backend_server.py:87-104 | one `/analyze` with `None` content leaves a record with a timestamp and a null response |
| `ServerTraces.ReadAfterSuccess` | backend_server.py:143-158 | a `/get_result` right after a successful `/analyze` returns that request's full response and a non-null timestamp |
| `ServerTraces.RepeatedReads` | backend_server.py:143-158 | a run of calls in which nothing writes (reads, health probes, `/analyze` calls that fail before the store write) leaves the store unchanged, and every `/get_result` in it returns the same reply |
| `ServerTraces.HealthIndependentOfHistory` | backend_server.py:122-124 | every `/health` call, at any position of any sequence of calls, returns the same fixed reply |

## Left out

- Flask routing, header and body access, and `jsonify` serialisation are not modelled. Requests and replies are datatypes. The header lookup (case-insensitive in Flask) is not modelled; `Request.promptType` is the value it returns.
- `get_groq_client` and the chat-completion call (lines 12-15, 61-84) are a foreign network API. Their outcome is the `Upstream` parameter.
- The sampling parameters `temperature=0.7`, `top_p=1` and `stream=False` are not modelled. They are floating-point or fixed switches with no local behaviour. The model name and `max_tokens=500` are kept in `VisionCall`.
- Base64 encoding (RFC 4648 section 4) and the `data:image/jpeg;base64,` URI (RFC 2397) are not modelled. `VisionCall` carries the raw bytes.
- Python's `int()` string parsing (whitespace, signs, underscores) and the text of its ValueError are the `parse` parameter.
- `datetime.now().strftime` is a caller-supplied non-empty timestamp.
- The `/test` endpoint (lines 126-135) is not modelled. It only echoes Flask's JSON parse.
- The `__main__` block (port, `app.run`) and all `print` logging are output or process startup.
- Concurrent requests are not modelled. The code has no locking, and the model is sequential.
- Characters are Dafny's Unicode scalar values. Python strings may also hold lone surrogates; this does not affect the 200-character cut.
