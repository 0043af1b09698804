# LM Studio SDK protocol core, in Dafny

This project models the protocol layer of the LM Studio Python SDK. It also
models one small text builder of the application around it. The model covers:

- **Multiplexer** (`json_api.py`). Channel and remote-call IDs come from two
  counters. A receive queue is registered per ID for the lifetime of a scope,
  and every inbound message is routed to at most one queue.
- **Envelopes** (`json_api.py`). This covers the messages that open, cancel
  and call, and how `ChannelHandler` and `RemoteCallHandler` classify what
  the server sends back. It also covers error classification
  (`LMStudioServerError.from_details`), `_redact_json` and
  `_model_spec_to_api_dict`.
- **Channel endpoints** (`json_api.py`). Model loading and download are
  state machines that turn each payload into events. So is streaming
  prediction, which adds fragment accumulation, cancellation, the structured
  parse and the first-token callback. `PredictionStreamBase` has a
  started, finished and error lifecycle.
- **Chat history** (`history.py`). `Chat` is a class whose message list the
  `add_*` methods update. It merges consecutive user messages and refuses
  consecutive system prompts and assistant responses. `_FileHandleCache`
  holds pending placeholders and fetched handles.
- **KV config mapping** (`_kv_config.py`):
  - the field kinds (plain, checkbox, nested key, GPU split) in both
    directions;
  - the nested key tables flattened into dotted server keys by a worklist;
  - their inversion into client-to-server maps;
  - `parse_server_config`;
  - the config stack sent with a load or a prediction.
- **Key-case conversion** (`schemas.py`). `_snake_case_to_camelCase` has its
  override table. `_snake_case_keys_to_camelCase` is a worklist over dict
  objects that refuses a dict met twice and a list inside a list.
- **Sync API bookkeeping** (`sync_api.py`):
  - channel draining and waiting;
  - message enqueueing and termination broadcast;
  - the `PredictionStream` start, close and cancel states;
  - the per-namespace session cache;
  - the one-shot default client;
  - the `act` round limit.
- **Methodology plan** (`service/agent3.py`). `DesignMethodologyAgent.run`
  builds a fixed five-step plan, headed by the project description when one
  is given.

## How it is modelled

Decoded JSON is the `Json` datatype. A Python dict is a sequence of
`(key, value)` pairs in insertion order. Python's int and float are one
`real` kind, because they compare and hash alike. Exceptions are an `Error`
value inside `Result`. Where the source changes state in place, the model
uses a class:

- the multiplexer;
- the endpoints and the prediction stream;
- the chat;
- the file-handle cache;
- receive queues, channels, websockets, clients and the default client;
- the dict objects of the key translation.

Each method's `ensures` ties the new state and its results to a function of
the old state. Lemmas then prove the source's promises about that function.

## Model

Source paths are relative to the repository root.

| member | source | states |
|---|---|---|
| DesignMethodologyAgent.RunLines | service/agent3.py:12-23 | For a description without newlines, the plan's lines are "Proyecto: " + description (only when the description is non-empty) followed by the five fixed steps in order: 6 lines, or 5 for an empty description |
| DesignMethodologyAgent.RunHeadedByProject | service/agent3.py:21-23 | The plan starts with "Proyecto: " exactly when a description was given |
| DesignMethodologyAgent.StepsHaveNoNewline | service/agent3.py:14-20 | None of the five fixed steps contains a newline, so each is one line of the plan |
| SdkErrors.ServerErrorWithDetails | memoristaIA-main/venv/Lib/site-packages/lmstudio/json_api.py:313-333 | A server error keeps every detail of the server except its "stack" entry, unchanged |
| SdkErrors.FromDetails | memoristaIA-main/venv/Lib/site-packages/lmstudio/json_api.py:366-385 | The error is model-not-found exactly when the display code is "generic.noModelMatchingQuery", and preset-not-found exactly when it is "generic.presetNotFound"; otherwise it is a generic server error; the raw details drop "stack" |
| Multiplexer.Find | memoristaIA-main/venv/Lib/site-packages/lmstudio/json_api.py:595 | `dict.get` on a decoded ID: TypeError exactly for an unhashable ID; a queue exactly when the ID is an integer that is registered, and then that ID's queue |
| Multiplexer.Multiplexer.constructor | memoristaIA-main/venv/Lib/site-packages/lmstudio/json_api.py:534-542 | No channel or call is registered, and both counters start at 0 |
| Multiplexer.Multiplexer.AllQueues | memoristaIA-main/venv/Lib/site-packages/lmstudio/json_api.py:544-548 | Holds the queue of every open channel and every pending call, and nothing else |
| Multiplexer.Multiplexer.NextChannelId | memoristaIA-main/venv/Lib/site-packages/lmstudio/json_api.py:550-555 | Returns the previous channel counter plus one and advances the counter to it; the registrations are unchanged |
| Multiplexer.Multiplexer.AssignChannelId | memoristaIA-main/venv/Lib/site-packages/lmstudio/json_api.py:557-561 | The new channel ID was never registered before; exactly that ID is added, mapped to the given queue; calls are untouched; the invariant that every registered ID was already handed out is kept |
| Multiplexer.Multiplexer.ReleaseChannelId | memoristaIA-main/venv/Lib/site-packages/lmstudio/json_api.py:562-567 | On leaving the scope exactly that ID's entry is removed, and other entries stay; the assertion succeeds exactly when the entry still held the same queue, and otherwise raises AssertionError |
| Multiplexer.Multiplexer.NextCallId | memoristaIA-main/venv/Lib/site-packages/lmstudio/json_api.py:569-574 | Returns the previous call counter plus one and advances the counter to it |
| Multiplexer.Multiplexer.AssignCallId | memoristaIA-main/venv/Lib/site-packages/lmstudio/json_api.py:576-580 | The new call ID was never registered before; exactly that ID is added, mapped to the given queue; channels are untouched |
| Multiplexer.Multiplexer.ReleaseCallId | memoristaIA-main/venv/Lib/site-packages/lmstudio/json_api.py:581-586 | Exactly that call's entry is removed; AssertionError unless it still held the same queue |
| Multiplexer.Multiplexer.MapRxMessage | memoristaIA-main/venv/Lib/site-packages/lmstudio/json_api.py:588-623 | A message is delivered only to a registered queue, and it raises only ClientError or TypeError |
| Multiplexer.RouteToOpenChannel | memoristaIA-main/venv/Lib/site-packages/lmstudio/json_api.py:594-595 | A message naming a registered channel goes to that channel's queue; an unregistered channel ID is dropped, never raised |
| Multiplexer.RouteToPendingCall | memoristaIA-main/venv/Lib/site-packages/lmstudio/json_api.py:611-616 | A reply naming a pending call goes to that call's queue; an unknown call ID is dropped with a warning |
| Multiplexer.RouteClosedChannel | memoristaIA-main/venv/Lib/site-packages/lmstudio/json_api.py:596-610 | An unregistered channel ID is dropped quietly exactly when it is at most the last ID handed out and the message is a channelClose; otherwise it is dropped with a warning |
| Multiplexer.RouteOutcomes | memoristaIA-main/venv/Lib/site-packages/lmstudio/json_api.py:588-623 | ClientError exactly when the message has no channelId, no callId, and is not a communication warning. An error-level drop happens only for a communicationWarning. A delivery goes to a registered queue. Any error is ClientError or TypeError |
| Envelopes.RedactJson | memoristaIA-main/venv/Lib/site-packages/lmstudio/json_api.py:512-528 | None stays None; a dict becomes a new dict with the same keys in order: nested dicts become `{"...": "..."}`, lists become `["..."]`, and other values are kept |
| Envelopes.RedactedIdempotent | memoristaIA-main/venv/Lib/site-packages/lmstudio/json_api.py:512-528 | Redaction keeps the keys and every scalar value, and redacting again changes nothing |
| Envelopes.ModelSpecToApiDict | memoristaIA-main/venv/Lib/site-packages/lmstudio/json_api.py:262-294 | ValueError exactly for an unsupported specifier. A string becomes an identifier query. A dict already typed "query" or "instanceReference" passes through. Every accepted specifier becomes a query or instance reference |
| Envelopes.TextIsIdentifierQuery | memoristaIA-main/venv/Lib/site-packages/lmstudio/json_api.py:271-292 | A plain string gives the same wire form as the identifier query written as a dict or as a ModelQuery struct |
| Envelopes.ModelSpecIdempotent | memoristaIA-main/venv/Lib/site-packages/lmstudio/json_api.py:262-294 | Converting the wire form again gives the same wire form |
| Envelopes.ChannelHandler.CreationMessage | memoristaIA-main/venv/Lib/site-packages/lmstudio/json_api.py:1602-1610 | A channelCreate message carrying the endpoint name, this channel's ID and the creation parameters |
| Envelopes.ChannelHandler.CancelMessage | memoristaIA-main/venv/Lib/site-packages/lmstudio/json_api.py:1612-1618 | A `channelSend` envelope carrying this channel's ID, whose message is `{"type": "cancel"}` |
| Envelopes.ChannelHandler.HandleRxMessage | memoristaIA-main/venv/Lib/site-packages/lmstudio/json_api.py:1626-1659 | For this channel's ID (`==` on the decoded value): the contents exactly for a channelSend with a dict message, None exactly for a channelClose, and the classified server error exactly for a channelError with a dict error. Anything else, a communication warning included, is a ClientError |
| Envelopes.SendEnvelopeRoundTrip | memoristaIA-main/venv/Lib/site-packages/lmstudio/json_api.py:1635-1640 | A channelSend built for this channel is handed back as exactly its contents |
| Envelopes.OtherChannelRejected | memoristaIA-main/venv/Lib/site-packages/lmstudio/json_api.py:1635-1659 | A channelSend for another channel ID is a ClientError |
| Envelopes.RemoteCallHandler.RpcMessage | memoristaIA-main/venv/Lib/site-packages/lmstudio/json_api.py:1677-1688 | An rpcCall with the endpoint and this call's ID; "parameter" is present exactly when parameters are given, and holds them |
| Envelopes.RemoteCallHandler.HandleRxMessage | memoristaIA-main/venv/Lib/site-packages/lmstudio/json_api.py:1695-1709 | Succeeds exactly for an rpcResult with this call's ID, giving its result or None; the server's classified error exactly for an rpcError with a dict error; anything else is a ClientError |
| Envelopes.ResultEnvelopeRoundTrip | memoristaIA-main/venv/Lib/site-packages/lmstudio/json_api.py:1700-1705 | The handler returns the result the server sent for its call, and None for a void call |
| Endpoints.ReadResult | memoristaIA-main/venv/Lib/site-packages/lmstudio/json_api.py:686-700 | A result can be read exactly when the channel is finished and holds one; before that it is a RuntimeError |
| Endpoints.UpdateProgress | memoristaIA-main/venv/Lib/site-packages/lmstudio/json_api.py:854-860 | A value not above the last is dropped and changes nothing. A higher value becomes the last value whether or not a callback is registered, and is reported only with a callback |
| Endpoints.LoadingEndpoint.constructor | memoristaIA-main/venv/Lib/site-packages/lmstudio/json_api.py:842-852 | Unfinished, no result, last progress -1.0 |
| Endpoints.LoadingEndpoint.Progress | memoristaIA-main/venv/Lib/site-packages/lmstudio/json_api.py:854-860 | Updates the last progress and reports as `UpdateProgress` says; finished flag and result unchanged |
| Endpoints.LoadingEndpoint.IterMessageEvents | memoristaIA-main/venv/Lib/site-packages/lmstudio/json_api.py:862-922 | New state and events are those of the loading step function, whose properties the lemmas below state |
| Endpoints.LoadingEndpoint.Result | memoristaIA-main/venv/Lib/site-packages/lmstudio/json_api.py:693-700 | Readable exactly when finished with a result; RuntimeError while active |
| Endpoints.LoadingStepProgress | memoristaIA-main/venv/Lib/site-packages/lmstudio/json_api.py:854-922 | One payload never lowers the last progress, and reports only values above the old last value, strictly increasing and up to the new one |
| Endpoints.LoadingRunProgress | memoristaIA-main/venv/Lib/site-packages/lmstudio/json_api.py:854-922 | Over any sequence of payloads the reported progress values rise strictly, each above the start value and none above the final last value |
| Endpoints.LoadingProgressPayload | memoristaIA-main/venv/Lib/site-packages/lmstudio/json_api.py:882-883 | A progress payload on an unfinished channel goes through `_update_progress` and nothing else |
| Endpoints.LoadingDedupExample | memoristaIA-main/venv/Lib/site-packages/lmstudio/json_api.py:854-860 | With a callback, progress 0.2, 0.2, 0.1, 0.5 reports exactly 0.2 and 0.5, and the last value is 0.5 |
| Endpoints.LoadingFinishedAbsorbs | memoristaIA-main/venv/Lib/site-packages/lmstudio/json_api.py:865-871 | A finished channel raises ClientError for any further payload and stays as it is; a None payload on an open channel raises the channel-closed error |
| Endpoints.LoadingFinishes | memoristaIA-main/venv/Lib/site-packages/lmstudio/json_api.py:905-920 | A payload that finishes the channel reports the finish as its last event, makes the result readable and leaves progress at 1.0 or more |
| Endpoints.LoadingSuccess | memoristaIA-main/venv/Lib/site-packages/lmstudio/json_api.py:905-920 | A success payload first reports 1.0 (only with a callback and a last value below 1.0), then finishes with the result built from the payload's info |
| Endpoints.LoadingJitUnload | memoristaIA-main/venv/Lib/site-packages/lmstudio/json_api.py:884-904 | A JIT-unload notice leaves the state unchanged. It yields no events exactly when its info is a dict holding "modelKey". Other info that passes the `"modelKey" in info` guard (a string or a list) raises TypeError on the lookup, and info failing the guard is an unknown message |
| Endpoints.DownloadEndpoint.constructor | memoristaIA-main/venv/Lib/site-packages/lmstudio/json_api.py:754-766 | Unfinished, with no result; the callbacks are recorded as present or absent |
| Endpoints.DownloadEndpoint.IterMessageEvents | memoristaIA-main/venv/Lib/site-packages/lmstudio/json_api.py:768-798 | New state and events are those of the download step function |
| Endpoints.DownloadEndpoint.Result | memoristaIA-main/venv/Lib/site-packages/lmstudio/json_api.py:693-700 | Readable exactly when finished with a result; RuntimeError while active |
| Endpoints.DownloadOutcomes | memoristaIA-main/venv/Lib/site-packages/lmstudio/json_api.py:776-798 | A payload changes the state only by finishing the download with the identifier it carries, which the result then reads. Progress is reported only to a progress callback, and finalizing only to a finalize callback. Every error is UnknownMessageError and leaves the state unchanged |
| Prediction.MakeResult | memoristaIA-main/venv/Lib/site-packages/lmstudio/json_api.py:463-465 | `structured` holds exactly when the parsed value is not the raw content |
| Prediction.ParseContent | memoristaIA-main/venv/Lib/site-packages/lmstudio/json_api.py:1265-1279 | The content is parsed exactly when the request is structured, not cancelled, and `json.loads` gives a dict, and then the dict is that decoding; otherwise the raw text is kept |
| Prediction.UpdatePromptProgress | memoristaIA-main/venv/Lib/site-packages/lmstudio/json_api.py:1195-1207 | A value not above the last is dropped. A higher value becomes the last value even with no callback. With a callback it is reported, preceded by 0.0 when the last value was negative and this one is positive |
| Prediction.CompleteProcessing | memoristaIA-main/venv/Lib/site-packages/lmstudio/json_api.py:1225-1228 | Before a fragment, prompt processing is brought up to at least 1.0 without reporting any fragment |
| Prediction.PredictionNext | memoristaIA-main/venv/Lib/site-packages/lmstudio/json_api.py:1209-1291 | A payload that is not a fragment taken in by an uncancelled prediction adds no text and reports no fragment |
| Prediction.PredictionEndpoint.constructor | memoristaIA-main/venv/Lib/site-packages/lmstudio/json_api.py:1160-1179 | Not cancelled, not finished, prompt progress -1.0, no text; the first-token callback is pending exactly when one was given |
| Prediction.PredictionEndpoint.PromptProgress | memoristaIA-main/venv/Lib/site-packages/lmstudio/json_api.py:1195-1207 | Updates prompt progress and reports as `UpdatePromptProgress` says; nothing else changes |
| Prediction.PredictionEndpoint.IterMessageEvents | memoristaIA-main/venv/Lib/site-packages/lmstudio/json_api.py:1209-1291 | New state, events and raised error are those of the prediction step function |
| Prediction.PredictionEndpoint.ReceiveFragment | memoristaIA-main/venv/Lib/site-packages/lmstudio/json_api.py:1218-1231 | The fragment branch: state and events as the fragment step gives them |
| Prediction.PredictionEndpoint.Finish | memoristaIA-main/venv/Lib/site-packages/lmstudio/json_api.py:1255-1289 | The success branch: state and events as the success step gives them |
| Prediction.PredictionEndpoint.HandleRxEvent | memoristaIA-main/venv/Lib/site-packages/lmstudio/json_api.py:1293-1326 | Notifications, the raised error and the first-token flag are those of the event handler function; the endpoint's other state is unchanged |
| Prediction.PredictionEndpoint.MarkCancelled | memoristaIA-main/venv/Lib/site-packages/lmstudio/json_api.py:1401-1403 | Sets the cancelled flag and nothing else |
| Prediction.PredictionEndpoint.Result | memoristaIA-main/venv/Lib/site-packages/lmstudio/json_api.py:693-700 | Readable exactly when finished with a result; RuntimeError while active |
| Prediction.CancelledDropsTokens | memoristaIA-main/venv/Lib/site-packages/lmstudio/json_api.py:1222-1224 | After cancellation a fragment or prompt-progress payload yields no event and changes no state |
| Prediction.FragmentAccumulates | memoristaIA-main/venv/Lib/site-packages/lmstudio/json_api.py:1225-1231 | An accepted fragment's text is appended to the accumulated text and reported last, after any progress; prompt progress is then at least 1.0 |
| Prediction.SuccessResult | memoristaIA-main/venv/Lib/site-packages/lmstudio/json_api.py:1255-1289 | On success the channel finishes, and its content is the concatenation of the accumulated fragments. It is structured exactly when parsed, which needs a structured, uncancelled request that decodes to a dict. Otherwise the parsed value is the raw text |
| Prediction.StepAccumulates | memoristaIA-main/venv/Lib/site-packages/lmstudio/json_api.py:1209-1291 | Any payload adds to the accumulated text exactly the texts of the fragment events it yields |
| Prediction.RunAccumulates | memoristaIA-main/venv/Lib/site-packages/lmstudio/json_api.py:1209-1291 | Over any run of payloads the accumulated text grows by exactly the reported fragment texts, in order |
| Prediction.HandleEventFirstToken | memoristaIA-main/venv/Lib/site-packages/lmstudio/json_api.py:1297-1303 | One event fires the first-token callback once exactly when it is a fragment and the callback is still pending, and the fragment clears it |
| Prediction.FirstTokenAtMostOnce | memoristaIA-main/venv/Lib/site-packages/lmstudio/json_api.py:1293-1326 | Over any sequence of events the first-token callback fires at most once, and never when none was pending |
| Prediction.StreamResult | memoristaIA-main/venv/Lib/site-packages/lmstudio/json_api.py:1529-1550 | A result exactly when started, with no stored error and a final result. A started stream with an error re-raises that error |
| Prediction.FirstOutcomeWins | memoristaIA-main/venv/Lib/site-packages/lmstudio/json_api.py:1552-1570 | Once finished, `_set_error` and `_mark_finished` change nothing, so the result stays as it was |
| Prediction.StreamOutcomes | memoristaIA-main/venv/Lib/site-packages/lmstudio/json_api.py:1529-1570 | A started stream that fails reports its error from then on; one that completes reports the endpoint's result, and a later error does not replace it |
| Prediction.PredictionStreamBase.constructor | memoristaIA-main/venv/Lib/site-packages/lmstudio/json_api.py:1485-1497 | Not started, not finished, no error, no result |
| Prediction.PredictionStreamBase.Result | memoristaIA-main/venv/Lib/site-packages/lmstudio/json_api.py:1529-1550 | Readable exactly when started, with no error and a final result, and then that result. A started stream with an error raises it, and a stream not started raises RuntimeError |
| Prediction.PredictionStreamBase.SetError | memoristaIA-main/venv/Lib/site-packages/lmstudio/json_api.py:1552-1558 | The new lifecycle state is `StreamSetError` of the old one |
| Prediction.PredictionStreamBase.MarkStarted | memoristaIA-main/venv/Lib/site-packages/lmstudio/json_api.py:1560-1562 | Only the started flag is set |
| Prediction.PredictionStreamBase.MarkFinished | memoristaIA-main/venv/Lib/site-packages/lmstudio/json_api.py:1564-1570 | The new state is `StreamMarkFinished` of the old state and the endpoint's result. The stream is marked finished before the endpoint's result is read, so an active endpoint raises |
| Prediction.PredictionStreamBase.MarkCancelled | memoristaIA-main/venv/Lib/site-packages/lmstudio/json_api.py:1572-1575 | Marks the endpoint cancelled and changes nothing else on it |
| History.FromJson | memoristaIA-main/venv/Lib/site-packages/lmstudio/history.py:144-150 | A decoded string, dict or list is the Python string, mapping or list it stands for |
| History.LastMessage | memoristaIA-main/venv/Lib/site-packages/lmstudio/history.py:334-342 | The last message exactly when the history is not empty and the last message has the given role |
| History.FileFromDict | memoristaIA-main/venv/Lib/site-packages/lmstudio/history.py:414-420 | A file-handle dict gives a handle with its name and identifier, or a validation error |
| History.ParseUserItem | memoristaIA-main/venv/Lib/site-packages/lmstudio/history.py:401-424 | Accepted exactly when the item is TextData, a FileHandle, a string, a dict whose "text" is a string, or a file-handle dict (string name and identifier, a file type under either spelling) that validates. TextData and strings become text parts and a handle is kept. A text dict gives its text, and any other accepted dict gives the validated file handle. The error is ValueError, or ValidationError from a file-handle dict |
| History.ParseSystemPrompt | memoristaIA-main/venv/Lib/site-packages/lmstudio/history.py:353-371 | Accepted exactly for TextData, a string, or a dict holding "text" (whatever that holds). The part is TextData with that text. Everything else raises ValueError |
| History.ParseAssistantResponse | memoristaIA-main/venv/Lib/site-packages/lmstudio/history.py:430-458 | Accepted exactly for TextData, a FileHandle, a string, a server response, a dict whose "text" is a string, or a validating file-handle dict. Each becomes its text or file part, and a server response its history text. A tool call request, like every other input, is refused with ValueError. A failing file-handle dict raises ValidationError |
| History.ParseToolCallRequest | memoristaIA-main/venv/Lib/site-packages/lmstudio/history.py:460-477 | Accepted exactly for ToolCallRequestData, a ToolCallRequest, a dict whose "type" is "toolCallRequest", or a dict with a list under "toolCallRequest" or "tool_call_request". Request data and a typed dict are kept as they are; a ToolCallRequest and a list-holding dict are wrapped as request data. Everything else raises ValueError |
| History.ParseToolResult | memoristaIA-main/venv/Lib/site-packages/lmstudio/history.py:495-503 | Accepted exactly for ToolCallResultData, or a dict holding "content" and "toolCallId" or "tool_call_id". The part keeps the data or the dict. Everything else raises ValueError |
| History.UserItemIsAssistantResponse | memoristaIA-main/venv/Lib/site-packages/lmstudio/history.py:401-451 | Apart from a server response, which only an assistant response may be, a user item and an assistant response are parsed alike |
| History.TextSpellingsAgree | memoristaIA-main/venv/Lib/site-packages/lmstudio/history.py:359-364 | TextData, a string and a `{"text": ...}` dict with the same text give the same part, for a user item and for a system prompt |
| History.SystemPromptTextUnchecked | memoristaIA-main/venv/Lib/site-packages/lmstudio/history.py:364 | A system prompt dict whose "text" is not a string is still accepted with that value, while the same dict as a user item raises ValueError |
| History.ParseAll | memoristaIA-main/venv/Lib/site-packages/lmstudio/history.py:485-490 | The comprehension succeeds exactly when every item parses, and then holds each item's part in order |
| History.ParsePrefixError | memoristaIA-main/venv/Lib/site-packages/lmstudio/history.py:401-424 | The item loop stops with an error exactly when some item fails to parse |
| History.ParseItems | memoristaIA-main/venv/Lib/site-packages/lmstudio/history.py:401-424 | The loop's parts and error are the prefix parse: every part before the first failure, then that failure |
| History.Chat.constructor | memoristaIA-main/venv/Lib/site-packages/lmstudio/history.py:158-176 | The chat holds the given history |
| History.Chat.GetLastMessage | memoristaIA-main/venv/Lib/site-packages/lmstudio/history.py:334-342 | `LastMessage` of the current history |
| History.Chat.AddUserMessage | memoristaIA-main/venv/Lib/site-packages/lmstudio/history.py:373-428 | History and result are `UserMessageNext` of the old history and the content, files and images in that order; see the merge lemmas |
| History.Chat.AddSystemPrompt | memoristaIA-main/venv/Lib/site-packages/lmstudio/history.py:353-371 | History and result are `SystemPromptNext` of the old history |
| History.Chat.AddAssistantResponse | memoristaIA-main/venv/Lib/site-packages/lmstudio/history.py:479-493 | History and result are `AssistantResponseNext` of the old history |
| History.Chat.AddToolResults | memoristaIA-main/venv/Lib/site-packages/lmstudio/history.py:505-512 | History and result are `ToolResultsNext` of the old history |
| History.Chat.AddToolResult | memoristaIA-main/venv/Lib/site-packages/lmstudio/history.py:514-529 | History and result are `ToolResultNext` of the old history |
| History.Chat.AddEntry | memoristaIA-main/venv/Lib/site-packages/lmstudio/history.py:246-291 | History and result are `EntryNext` of the old history, the role and the content |
| History.Chat.AddEntries | memoristaIA-main/venv/Lib/site-packages/lmstudio/history.py:302-332 | The entries are added in order until the first that fails, as `EntriesNext` gives |
| History.NewChat | memoristaIA-main/venv/Lib/site-packages/lmstudio/history.py:158-176 | A new chat exactly when the initial prompt and history are compatible, holding the initial messages; otherwise their error |
| History.NewChatFromHistory | memoristaIA-main/venv/Lib/site-packages/lmstudio/history.py:201-229 | A new chat holding `FromHistory` of the source, or that source's error |
| History.UserMessageMerges | memoristaIA-main/venv/Lib/site-packages/lmstudio/history.py:397-427 | After a user message, the new parts are merged into it in order. The history keeps its length and the earlier messages |
| History.UserMessageAppends | memoristaIA-main/venv/Lib/site-packages/lmstudio/history.py:397-427 | Otherwise exactly one user message holding the parts is appended; no parts at all raises ValueError and appends nothing |
| History.UserMessageFails | memoristaIA-main/venv/Lib/site-packages/lmstudio/history.py:401-427 | A failing item raises. The history keeps its length, and without a trailing user message it is unchanged |
| History.ConsecutiveRejected | memoristaIA-main/venv/Lib/site-packages/lmstudio/history.py:344-355 | A system prompt after a system prompt, or an assistant response after an assistant response, raises RuntimeError and leaves the history unchanged |
| History.AssistantResponseContent | memoristaIA-main/venv/Lib/site-packages/lmstudio/history.py:479-493 | An accepted response appends one assistant message: the response part, then each tool request's part in the given order |
| History.ToolResultsAppendOne | memoristaIA-main/venv/Lib/site-packages/lmstudio/history.py:505-529 | `add_tool_result` appends one single-part message. `add_tool_results` succeeds exactly when every result parses, and then appends one message holding all results in order; on failure the history is unchanged |
| History.ToolResultAfterToolResult | memoristaIA-main/venv/Lib/site-packages/lmstudio/history.py:514-529 | A tool result right after a tool result is accepted |
| History.EntryRejects | memoristaIA-main/venv/Lib/site-packages/lmstudio/history.py:274-290 | An unknown role, and multi-part content for the system or tool role, raise ValueError and leave the history unchanged |
| History.ConstructionCases | memoristaIA-main/venv/Lib/site-packages/lmstudio/history.py:166-170 | An initial history together with a system prompt raises ValueError. A history alone is kept as given. `from_history` of a string is a single user message holding that text |
| History.UserMessageAlternates | memoristaIA-main/venv/Lib/site-packages/lmstudio/history.py:393-427 | Adding a user message to an alternating history keeps it alternating, since it merges into a trailing user message |
| History.EntryAlternates | memoristaIA-main/venv/Lib/site-packages/lmstudio/history.py:246-291 | Adding one entry of any role to an alternating history keeps it alternating |
| History.EntriesAlternate | memoristaIA-main/venv/Lib/site-packages/lmstudio/history.py:302-332 | Adding entries to an alternating history keeps it alternating, wherever they fail. Alternating means no consecutive system prompts, assistant responses or user messages |
| History.FromHistoryAlternates | memoristaIA-main/venv/Lib/site-packages/lmstudio/history.py:217-229 | Every history that `from_history` builds from a mapping alternates |
| FileHandles.LocalFile | memoristaIA-main/venv/Lib/site-packages/lmstudio/history.py:569-572 | The data are kept. The name is the default exactly when no name, an empty one, or the default itself is given |
| FileHandles.Placeholder | memoristaIA-main/venv/Lib/site-packages/lmstudio/history.py:617-622 | The placeholder carries the file's name and size -1 |
| FileHandles.FileHandleCache.constructor | memoristaIA-main/venv/Lib/site-packages/lmstudio/history.py:595-597 | Nothing pending, nothing cached |
| FileHandles.FileHandleCache.GetFileHandle | memoristaIA-main/venv/Lib/site-packages/lmstudio/history.py:600-624 | A cached key gives the cached handle and a pending key gives its placeholder, both with nothing changed. A new key gets a fresh placeholder, queued as pending. Pending keys stay distinct and uncached |
| FileHandles.FileHandleCache.TakePending | memoristaIA-main/venv/Lib/site-packages/lmstudio/history.py:626-629 | Hands over the pending files and empties the pending set; the cache is unchanged |
| FileHandles.FileHandleCache.FetchOne | memoristaIA-main/venv/Lib/site-packages/lmstudio/history.py:632-645 | The placeholder takes the fetched fields. The fetched handle is a new object, cached under the key; every other cache entry stays |
| FileHandles.FileHandleCache.FetchEach | memoristaIA-main/venv/Lib/site-packages/lmstudio/history.py:641-645 | Uploads run in order until the first that fails, whose error is returned. Each file before it has its placeholder holding the returned fields, and the cache becomes the old cache with each such key bound, in order, to a new handle holding those fields. The later files' placeholders are unchanged |
| FileHandles.FileHandleCache.FetchFileHandles | memoristaIA-main/venv/Lib/site-packages/lmstudio/history.py:639-645 | Afterwards nothing is pending, and the error of the first failing upload, if any, is returned. The cache keys grow by exactly the pending keys before that failure. Each of those is cached with a new handle holding the fetched fields, and its placeholder holds the same fields. Earlier cache entries are unchanged. The files from the failure on are neither pending nor cached, and their placeholders keep their old fields |
| KvConfig.Index | memoristaIA-main/venv/Lib/site-packages/lmstudio/_kv_config.py:55 | `client_config[key]`: the value exactly when the key is present, otherwise KeyError |
| KvConfig.ToKvFieldValues | memoristaIA-main/venv/Lib/site-packages/lmstudio/_kv_config.py:50-72 | For a key the client config holds, a plain field sends the value as is, and a checkbox sends `{"checked": True, "value": v}` |
| KvConfig.NestedKeyToKvField | memoristaIA-main/venv/Lib/site-packages/lmstudio/_kv_config.py:85-95 | A nested-key field gives no server field when the nested key is absent, and the nested value when present |
| KvConfig.CheckboxUpdate | memoristaIA-main/venv/Lib/site-packages/lmstudio/_kv_config.py:74-79 | A checked checkbox value writes its inner value; an unchecked one leaves the client dict alone |
| KvConfig.CheckboxRoundTrip | memoristaIA-main/venv/Lib/site-packages/lmstudio/_kv_config.py:66-79 | Sending a checkbox setting and writing the server value back restores the client value |
| KvConfig.NestedKeyRoundTrip | memoristaIA-main/venv/Lib/site-packages/lmstudio/_kv_config.py:97-101 | Writing back a nested value puts it under `client[key][nested]`, creating the inner dict when missing, and leaves every other client key alone |
| KvConfig.SetDefaultDict | memoristaIA-main/venv/Lib/site-packages/lmstudio/_kv_config.py:97-101 | `setdefault(key, {})`: an empty dict when the key is absent, otherwise the dict already there |
| KvConfig.GpuSettingsToGpuSplitConfig | memoristaIA-main/venv/Lib/site-packages/lmstudio/_kv_config.py:147-171 | Succeeds exactly for a known strategy (none, "evenly", "favorMainGpu") with the disabled GPUs absent, falsy, or iterable (a list, dict or string). A truthy number or boolean raises TypeError, and an unknown strategy ValueError |
| KvConfig.EvenlyToServer | memoristaIA-main/venv/Lib/site-packages/lmstudio/_kv_config.py:152-160 | "evenly" or no strategy gives strategy "evenly" with empty priority, and the disabled GPUs copied, or empty when absent |
| KvConfig.FavorMainGpuToServer | memoristaIA-main/venv/Lib/site-packages/lmstudio/_kv_config.py:161-164 | "favorMainGpu" gives "priorityOrder" with priority `[mainGpu]` when a main GPU is given, and empty otherwise |
| KvConfig.GpuSplitConfigToGpuSettings | memoristaIA-main/venv/Lib/site-packages/lmstudio/_kv_config.py:174-198 | The disabled GPUs are always reported and "evenly" is reported as is. "priorityOrder" with exactly one priority is reported as "favorMainGpu" with that main GPU. Every other client key, and the strategy in the remaining cases, is left alone |
| KvConfig.DecodeGpuSplitConfig | memoristaIA-main/venv/Lib/site-packages/lmstudio/_kv_config.py:178 | A decoded split config has one of the strategies "evenly", "priorityOrder", "custom" |
| KvConfig.FavorMainGpuRoundTrip | memoristaIA-main/venv/Lib/site-packages/lmstudio/_kv_config.py:147-198 | "favorMainGpu" with a main GPU survives the trip to the server's split config and back, with the same main GPU and disabled GPUs |
| KvConfig.EvenlyRoundTrip | memoristaIA-main/venv/Lib/site-packages/lmstudio/_kv_config.py:147-198 | "evenly" survives the round trip with the same disabled GPUs |
| KvConfig.ExcludesSubstrings | memoristaIA-main/venv/Lib/site-packages/lmstudio/_kv_config.py:276-290 | With `excluded` a plain string, every key occurring inside it is excluded, because `in` on a string is a substring test |
| KvConfig.BfsLeaves | memoristaIA-main/venv/Lib/site-packages/lmstudio/_kv_config.py:271-285 | The worklist walk yields exactly the fields of all queued tables that no excluded key hides, under their dotted paths |
| KvConfig.ServerKeysLeaves | memoristaIA-main/venv/Lib/site-packages/lmstudio/_kv_config.py:267-285 | Succeeds exactly when every namespace is in the table, and then yields each unexcluded field as "namespace.key.subkey" and nothing else |
| KvConfig.VisitScope | memoristaIA-main/venv/Lib/site-packages/lmstudio/_kv_config.py:276-285 | The loop over one scope yields its fields and queues its nested tables, as `VisitEntries` gives |
| KvConfig.IterNamespace | memoristaIA-main/venv/Lib/site-packages/lmstudio/_kv_config.py:271-285 | The loop that appends to `scopes` while walking it yields the breadth-first order of the namespace's table, and exactly its unexcluded fields |
| KvConfig.IterServerKeys | memoristaIA-main/venv/Lib/site-packages/lmstudio/_kv_config.py:267-285 | Fails with KeyError exactly when some namespace is missing, and otherwise yields exactly the unexcluded fields of the named namespaces |
| KvConfig.ServerKeysFailFast | memoristaIA-main/venv/Lib/site-packages/lmstudio/_kv_config.py:270-272 | Once a namespace is missing, later namespaces do not change the outcome |
| KvConfig.DictOfKeys | memoristaIA-main/venv/Lib/site-packages/lmstudio/_kv_config.py:288-293 | `dict(pairs)` holds a key exactly when some pair has it, and the final pair's value is stored under its key |
| KvConfig.StrLessTransitive | memoristaIA-main/venv/Lib/site-packages/lmstudio/_kv_config.py:303 | Python's string `<` is transitive |
| KvConfig.StrLessTotal | memoristaIA-main/venv/Lib/site-packages/lmstudio/_kv_config.py:303 | Of two different strings one is smaller, so sorting dict items is by key alone |
| KvConfig.SortByKeySorted | memoristaIA-main/venv/Lib/site-packages/lmstudio/_kv_config.py:303 | `sorted(d.items())` orders the items strictly by key and is a permutation of them |
| KvConfig.InvertBuckets | memoristaIA-main/venv/Lib/site-packages/lmstudio/_kv_config.py:301-309 | Each client key of the inverted map holds exactly the pairs whose field writes it, in order; a client key without pairs is absent |
| KvConfig.BucketSorted | memoristaIA-main/venv/Lib/site-packages/lmstudio/_kv_config.py:303-308 | Each client key's pairs are sorted by server key |
| KvConfig.InvertConfigKeymap | memoristaIA-main/venv/Lib/site-packages/lmstudio/_kv_config.py:301-309 | The loop builds the inverted map of the sorted items: under each client key, exactly its pairs |
| KvConfig.InvertLosesNothing | memoristaIA-main/venv/Lib/site-packages/lmstudio/_kv_config.py:301-314 | Every (server key, field) pair is found under its field's client key, and every list is sorted by server key |
| KvConfig.UpdateClientConfigKeys | memoristaIA-main/venv/Lib/site-packages/lmstudio/_kv_config.py:58-128 | `update_client_config` adds no key other than its own client key |
| KvConfig.ApplyServerFieldsKeys | memoristaIA-main/venv/Lib/site-packages/lmstudio/_kv_config.py:327-338 | The parsed client dict holds only client keys of known fields, and the only errors are Python built-in errors |
| KvConfig.UnknownServerKeysSkipped | memoristaIA-main/venv/Lib/site-packages/lmstudio/_kv_config.py:331-334 | Fields with keys the SDK does not know are skipped: a list made only of them parses to an empty dict |
| KvConfig.ParsePlainField | memoristaIA-main/venv/Lib/site-packages/lmstudio/_kv_config.py:327-338 | A known plain key read back from the server lands under its client key |
| KvConfig.ParseServerConfigWith | memoristaIA-main/venv/Lib/site-packages/lmstudio/_kv_config.py:327-338 | For a given key map, the loop computes `ParsedServerConfig`, and its result holds only client keys of that map's fields |
| KvConfig.ParseServerConfig | memoristaIA-main/venv/Lib/site-packages/lmstudio/_kv_config.py:327-338 | The same with the full key map: only client keys of known fields |
| KvConfig.KeySet | memoristaIA-main/venv/Lib/site-packages/lmstudio/_kv_config.py:372 | `set(config.keys())` holds exactly the config's keys |
| KvConfig.CollectFieldsRemoved | memoristaIA-main/venv/Lib/site-packages/lmstudio/_kv_config.py:373-376 | The client keys struck off are exactly the key map's keys that the config holds |
| KvConfig.CollectFieldsSucceeds | memoristaIA-main/venv/Lib/site-packages/lmstudio/_kv_config.py:371-381 | On a key map with distinct client keys whose conversions all succeed, collecting the fields never fails |
| KvConfig.StackBaseUnknownSettings | memoristaIA-main/venv/Lib/site-packages/lmstudio/_kv_config.py:381-382 | Once collection succeeds, the stack base is built exactly when every client setting is in the key map, and otherwise raises ValueError |
| KvConfig.StackBaseFrom | memoristaIA-main/venv/Lib/site-packages/lmstudio/_kv_config.py:374-380 | Every field sent converts a setting the config holds, through a pair of the key map (fields converting to None are skipped) |
| KvConfig.ConvertClientSetting | memoristaIA-main/venv/Lib/site-packages/lmstudio/_kv_config.py:377-380 | The inner loop gives the converted fields of one client key's pairs, skipping None, or the first conversion error |
| KvConfig.ToKvConfigStackBase | memoristaIA-main/venv/Lib/site-packages/lmstudio/_kv_config.py:368-383 | The loop computes `StackBase`, and every field it sends comes from the key map |
| KvConfig.ApiOverrideKvConfigStack | memoristaIA-main/venv/Lib/site-packages/lmstudio/_kv_config.py:349-365 | The first layer is "apiOverride" holding the fields, followed by the additional layers in order |
| KvConfig.CompletionConfigLayer | memoristaIA-main/venv/Lib/site-packages/lmstudio/_kv_config.py:487-518 | The completion layer is named "completeModeFormatting" |
| KvConfig.ClientConfigToKvConfigStack | memoristaIA-main/venv/Lib/site-packages/lmstudio/_kv_config.py:386-390 | Succeeds exactly when the stack base does, and then is the single apiOverride layer of those fields |
| KvConfig.LoadConfigToKvConfigStack | memoristaIA-main/venv/Lib/site-packages/lmstudio/_kv_config.py:393-408 | No config sends a single, empty apiOverride layer. A given config is converted as a client config, with the LLM load key map for an LLM and the embedding map otherwise |
| KvConfig.CollectFieldsOfEmpty | memoristaIA-main/venv/Lib/site-packages/lmstudio/_kv_config.py:368-383 | An empty client dict gives no fields and leaves no key over |
| KvConfig.ResponseSchema | memoristaIA-main/venv/Lib/site-packages/lmstudio/_kv_config.py:451-469 | A raw dict fails (ValueError) exactly when it has no "type". A raw dict that is not json or gbnf, and a schema class, become a JSON-schema setting |
| KvConfig.PreparedPredictionConfig | memoristaIA-main/venv/Lib/site-packages/lmstudio/_kv_config.py:438-479 | A response format together with a config "structured" raises ValueError. The structured flag holds exactly when a format was given or the config asks for json/gbnf. A format is written under "structured" and leaves other keys alone; without one the config is unchanged |
| KvConfig.PredictionConfigStackWith | memoristaIA-main/venv/Lib/site-packages/lmstudio/_kv_config.py:419-484 | For the key map passed in (the module passes the prediction map), the both-given error and the structured flag as above. The first layer overrides the prepared prediction settings. A text completion adds the completion layer as the second and last layer |
| Schemas.Capitalize | memoristaIA-main/venv/Lib/site-packages/lmstudio/schemas.py:111 | `str.capitalize()` on ASCII: the first character upper case, the rest lower case, same length |
| Schemas.SnakeCaseToCamelCaseHasNoUnderscore | memoristaIA-main/venv/Lib/site-packages/lmstudio/schemas.py:109-112 | A converted key never holds an underscore |
| Schemas.TranslatedKeyProperties | memoristaIA-main/venv/Lib/site-packages/lmstudio/schemas.py:159-163 | A translated key keeps its name exactly when it holds no underscore, and never holds one |
| Schemas.SnakeCaseRoundTrip | memoristaIA-main/venv/Lib/site-packages/lmstudio/schemas.py:109-112 | A canonical snake_case key (lower-case words starting with a letter) converted to camelCase and back is itself, apart from the one override |
| Schemas.KvCacheKeyOverride | memoristaIA-main/venv/Lib/site-packages/lmstudio/schemas.py:96-112 | "use_fp16_for_kv_cache" becomes "useFp16ForKVCache" through the override table |
| Schemas.QueueDict | memoristaIA-main/venv/Lib/site-packages/lmstudio/schemas.py:123-128 | A dict met for the first time gets a fresh empty output dict and joins the worklist; a dict already queued raises ValueError and changes nothing |
| Schemas.TranslateListItem | memoristaIA-main/venv/Lib/site-packages/lmstudio/schemas.py:144-156 | A dict item is queued and replaced by its output dict, a list item raises ValueError, and any other item is kept |
| Schemas.TranslateList | memoristaIA-main/venv/Lib/site-packages/lmstudio/schemas.py:140-157 | The list is translated item by item. It fails with ValueError exactly when it holds a list or a dict already met |
| Schemas.TranslateDictValue | memoristaIA-main/venv/Lib/site-packages/lmstudio/schemas.py:133-139 | A nested dict under "json_schema" or "jsonSchema" is kept verbatim. Any other is queued and replaced by its new output dict, and a dict already met raises ValueError |
| Schemas.TranslateEntryValue | memoristaIA-main/venv/Lib/site-packages/lmstudio/schemas.py:131-158 | A nested dict is queued unless its key is "json_schema" or "jsonSchema", which keeps it verbatim. A list is handled item by item. Any other value is kept |
| Schemas.TranslateEntry | memoristaIA-main/venv/Lib/site-packages/lmstudio/schemas.py:130-163 | One entry's value is translated and stored under the converted key (unchanged when it has no underscore) |
| Schemas.TranslateEntries | memoristaIA-main/venv/Lib/site-packages/lmstudio/schemas.py:130-163 | Every entry of the dict being processed is translated, in insertion order |
| Schemas.Drain | memoristaIA-main/venv/Lib/site-packages/lmstudio/schemas.py:129-163 | Queued dicts are processed in the order they were queued, until none is left or one is refused |
| Schemas.SnakeCaseKeysToCamelCase | memoristaIA-main/venv/Lib/site-packages/lmstudio/schemas.py:118-164 | On success, `data` and every dict reachable from it (except under the skipped keys) are met once each, in breadth-first order. Each gets a distinct fresh output dict holding its translated entries. Otherwise the error is ValueError, raised because a dict was met twice or a list holds a list |
| Schemas.AllDone | memoristaIA-main/venv/Lib/site-packages/lmstudio/schemas.py:129-164 | When the queue is exhausted, every queued dict's copy is complete |
| SyncApi.RxQueue.Put | memoristaIA-main/venv/Lib/site-packages/lmstudio/sync_api.py:307 | `queue.put` appends the item at the back |
| SyncApi.RxQueue.Take | memoristaIA-main/venv/Lib/site-packages/lmstudio/sync_api.py:190 | `queue.get` on a non-empty queue removes and returns the front item |
| SyncApi.RxDrain | memoristaIA-main/venv/Lib/site-packages/lmstudio/sync_api.py:183-196 | The drain consumes the yielded items plus the one that ended it. It never both finishes and raises. Unless ended, it consumes every queued item |
| SyncApi.RxDrainInOrder | memoristaIA-main/venv/Lib/site-packages/lmstudio/sync_api.py:183-196 | The yielded contents are those of the queued messages in arrival order. A finished stream was ended by the server's close. A raised error is the one the ending item gave |
| SyncApi.TerminationIsAnError | memoristaIA-main/venv/Lib/site-packages/lmstudio/sync_api.py:190-191 | The termination None wakes the reader with a client error, not a clean close |
| SyncApi.WaitLoading | memoristaIA-main/venv/Lib/site-packages/lmstudio/sync_api.py:198-205 | Waiting consumes at most the queued items, and all of them when it is still waiting |
| SyncApi.WaitLoadingOutcome | memoristaIA-main/venv/Lib/site-packages/lmstudio/sync_api.py:198-205 | A returned result is the finished endpoint's own result. A channel the server closes before the endpoint finished raises RuntimeError. A wait still in progress has an unfinished endpoint |
| SyncApi.SyncChannel.constructor | memoristaIA-main/venv/Lib/site-packages/lmstudio/sync_api.py:158-170 | An unfinished channel with the given handler and queue that has sent nothing |
| SyncApi.SyncChannel.Cancel | memoristaIA-main/venv/Lib/site-packages/lmstudio/sync_api.py:176-181 | The cancel message is sent exactly when the channel is not finished |
| SyncApi.SyncChannel.RxStream | memoristaIA-main/venv/Lib/site-packages/lmstudio/sync_api.py:183-196 | A finished channel yields nothing. Otherwise it yields `RxDrain`'s contents and error, finishes exactly on the server's close, and removes exactly the consumed items from the queue |
| SyncApi.SyncChannel.WaitForLoadResult | memoristaIA-main/venv/Lib/site-packages/lmstudio/sync_api.py:198-205 | A finished channel returns the endpoint's result at once. Otherwise the outcome, endpoint state and consumed items are those of `WaitLoading` |
| SyncApi.SyncWebsocket.constructor | memoristaIA-main/venv/Lib/site-packages/lmstudio/sync_api.py:241-250 | A fresh multiplexer with nothing registered |
| SyncApi.SyncWebsocket.RegisterChannel | memoristaIA-main/venv/Lib/site-packages/lmstudio/sync_api.py:330-345 | A fresh empty queue is registered under a new channel ID; calls are untouched |
| SyncApi.SyncWebsocket.RegisterCall | memoristaIA-main/venv/Lib/site-packages/lmstudio/sync_api.py:366-380 | A fresh empty queue is registered under a new call ID; channels are untouched |
| SyncApi.SyncWebsocket.EnqueueMessage | memoristaIA-main/venv/Lib/site-packages/lmstudio/sync_api.py:303-308 | A routed message is appended to exactly its queue and reported as taken; a dropped one is reported as not taken, and no queue changes; a routing error is raised |
| SyncApi.SyncWebsocket.NotifyClientTermination | memoristaIA-main/venv/Lib/site-packages/lmstudio/sync_api.py:310-313 | Every registered queue gets exactly one None at its end |
| SyncApi.SyncWebsocket.Disconnect | memoristaIA-main/venv/Lib/site-packages/lmstudio/sync_api.py:290-299 | The connection is dropped. Every queue gets one None exactly when there was a connection, and otherwise no queue changes |
| SyncApi.PredictionStream.constructor | memoristaIA-main/venv/Lib/site-packages/lmstudio/sync_api.py:866-876 | No channel yet |
| SyncApi.PredictionStream.Start | memoristaIA-main/venv/Lib/site-packages/lmstudio/sync_api.py:878-887 | Refused with RuntimeError, and nothing changed, once the result is in or the request was sent. Otherwise the channel is kept and the stream is marked started |
| SyncApi.PredictionStream.Close | memoristaIA-main/venv/Lib/site-packages/lmstudio/sync_api.py:889-899 | A started, unfinished stream records a cancellation error, and any other keeps its state; the channel is released either way |
| SyncApi.PredictionStream.Cancel | memoristaIA-main/venv/Lib/site-packages/lmstudio/sync_api.py:941-946 | Only an unfinished stream holding a channel marks its endpoint cancelled and sends the channel's cancel message; otherwise nothing changes |
| SyncApi.Session.constructor | memoristaIA-main/venv/Lib/site-packages/lmstudio/sync_api.py:385-388 | The session belongs to its namespace |
| SyncApi.Client.constructor | memoristaIA-main/venv/Lib/site-packages/lmstudio/sync_api.py:1489-1500 | A client with the given host, no sessions and nothing on its exit stack |
| SyncApi.Client.GetSession | memoristaIA-main/venv/Lib/site-packages/lmstudio/sync_api.py:1521-1542 | A namespace's existing session is returned unchanged. Otherwise a fresh session is remembered and pushed once on the exit stack, so each namespace has at most one session, registered once |
| SyncApi.DefaultClient.constructor | memoristaIA-main/venv/Lib/site-packages/lmstudio/sync_api.py:1610-1611 | No host configured and no default client |
| SyncApi.DefaultClient.Configure | memoristaIA-main/venv/Lib/site-packages/lmstudio/sync_api.py:1615-1623 | Refused with ClientError, changing nothing, once the default client exists; otherwise the host is recorded |
| SyncApi.DefaultClient.GetDefault | memoristaIA-main/venv/Lib/site-packages/lmstudio/sync_api.py:1626-1634 | A host given after the client exists raises ClientError. Otherwise this is the one default client, created on first use with the given or configured host and returned unchanged afterwards |
| SyncApi.FinalRoundIndex | memoristaIA-main/venv/Lib/site-packages/lmstudio/sync_api.py:1311-1320 | A round limit below 1 raises ValueError. Otherwise the final round's index is the limit minus 1, and it is -1 when there is no limit |

## Left out

- msgspec conversion and validation (`_from_any_dict`, `_from_api_dict`, `to_dict`, `load_struct`, `LlmPredictionStats`, `LlmInfo`): structs are kept as decoded JSON values, and `parse_llm_load_config` and `parse_prediction_config` are not modelled (they are msgspec conversions of the parsed dict).
- `dict_from_kvconfig` (_kv_config.py:323-324) is a dict comprehension over a msgspec struct; `KvConfig.DictOf` states the `dict(...)` semantics it relies on.
- The websocket transport, `connect` and authentication, `_send_json`, the receive loop and `_ws_impl.py` are network I/O and concurrency. A websocket's connectedness is a constructor parameter, and sent messages are recorded in a sequence.
- `async_api.py` repeats the sync logic with `await` and is not part of this model.
- Logging calls are left out. The only trace they leave is the drop level in `Multiplexer.Routing`.
- `json.loads` is a parameter (`jsonLoads`), with None for a decoding error. SHA-256 is a parameter of the cache key. File reads (`_get_file_details`) are not modelled; a local file is its name and bytes.
- Callbacks are side-effect-free hooks. They are booleans ("a callback is registered") plus returned notifications, and a failing callback is not modelled.
- Generators are run to completion: an endpoint step returns all its events plus the error raised after them.
- Progress values are `real`; no floating-point rounding is modelled.
- `LLM.act`'s round loop (thread pool, timing, tool execution) is left out; only the round-limit check is modelled.
- `Chat.append`, `Chat.copy` and the `_get_history*` accessors convert through msgspec structs and are not modelled.
- `SyncRemoteCall.receive_result` is one queue read followed by `RemoteCallHandler.handle_rx_message`, which is modelled; the read itself is `SyncApi.RxQueue.Take`.
- SyncApi.SyncChannel.RxStream: `queue.get` blocks on an empty queue. The model stops there instead, with the stream neither finished nor failed.
- SyncApi.SyncChannel.WaitForLoadResult: modelled for the model-loading endpoint only. `None` means it would still be blocked on an empty queue.
- SyncApi.SyncWebsocket.NotifyClientTermination: `all_queues` is modelled as a set. That is exact because every channel and call gets a queue of its own (the websocket's invariant).
- PredictionStream's `__iter__`/`wait_for_result` event loop over the channel is not modelled separately; its parts (`RxStream`, the prediction step, `HandleRxEvent`, `MarkFinished`) are.
- Schemas.SnakeCaseKeysToCamelCase: the source writes each translated entry into its output dict as it goes. The model collects each output dict's entries and stores them when the queue is exhausted. Nothing reads the output dicts before then, so the final dicts are the same. A refused translation leaves its partial output dicts empty in the model, but the caller never sees them.
- FileHandles.FileHandleCache.FetchFileHandles: the upload call is a server round trip, so its answers are given as a sequence, one per pending file in order: the returned handle, or the error the upload raises.
- History.FileFromDict: the file-type and size checks of `FileHandle._from_any_dict` are abstracted to "valid or ValidationError".
- KvConfig.CompletionConfigLayer: only the layer's name is stated; the Jinja template text is copied as a constant.
- KvConfig.LoadConfigToKvConfigStack: a given config is taken as an already-normalised client dict (the msgspec round trip is left out).
- KvConfig.PredictionConfigStackWith: the config is taken as an already-normalised client dict; the msgspec round trip `LlmPredictionConfig._from_any_dict(config).to_dict()` (and `config.to_dict()` for a struct, _kv_config.py:424-429) is left out.
- Schemas.Capitalize: the case mapping covers ASCII letters only. Python's `str.capitalize` is Unicode-aware; it maps "ñame" to "Ñame" and can change the length ("ß" becomes "Ss"). The length-preserving contract holds only for this ASCII model.
- Endpoints.DownloadOutcomes covers dict payloads; a None payload raises the channel-closed error in `DownloadNext` like every other endpoint.
