# OpenCode protocol layer, modelled in Dafny

This project models the protocol types that Spacebot uses to talk to an
OpenCode server (`src/opencode/types.rs`). It covers three parts.

- **The event dispatcher.** Every server-sent event arrives as an envelope
  `{type, properties}`. `SseEvent::from_envelope` matches `type` against nine
  discriminants and decodes `properties` against a narrow schema for that
  type. It is total:
  - an unrecognised type becomes `Unknown(type)`;
  - a recognised type whose properties do not decode becomes
    `Unknown("<type> (parse error)")`;
  - the exceptions are `message.updated` and `session.error`, which fall back
    to an empty payload.
- **The tagged content model.**
  - `Part` is tagged by `type`, and any other tag is `Other`.
  - `ToolState` is tagged by `status` and has its status queries.
  - `SessionStatusPayload` is tagged by `type`.
  - `PermissionRequest` and `QuestionRequest` are the requests that a later
    reply event refers to by id.
- **The outbound request bodies.** Their serialisation leaves out every absent
  optional field. There is also the configuration handed to the server at
  start-up.

Files:

- `json.dfy` (`Json`): the JSON value with key lookup.
- `serde.dfy` (`Serde`): the decoding rules that serde's derived
  deserialisers follow:
  - a missing required field fails;
  - an `Option` field that is missing or `null` is `None`;
  - a `#[serde(default)]` field that is missing takes its default;
  - a wrongly typed field fails;
  - extra keys are ignored;
  - an internally tagged enum needs a string tag.
- `content.dfy` (`Content`): `TimeSpan`, `MessageInfo`, `ToolState`, `Part`
  and `SessionStatusPayload`.
- `correlation.dfy` (`Correlation`): permission and question requests.
- `events.dfy` (`Events`): the envelope, the properties structs, `SseEvent`
  and the dispatcher.
- `requests.dfy` (`Requests`): request bodies, their encoders, and decoders
  where the source derives them.
- `server_config.dfy` (`ServerConfig`): the permission posture and the
  server configuration.

Decoding returns `Decoded<T>`, which is `Ok(value)` or `Fail`. The model
follows the code on the unknown tool `status` question. `state` is a
`#[serde(default)]` option, and that default covers only a missing key. So
a present `state` with an unrecognised `status` fails the whole `Part`, and
with it the whole `message.part.updated` event.

## Model

| member | source | states |
|---|---|---|
| Json.LookupFindsFirst | src/opencode/types.rs:270-274 | A field is found exactly when some member carries its key, and the value found is that of the first such member. |
| Json.LookupAppend | src/opencode/types.rs:14-88 | Looking up a key in two concatenated member lists consults the second only when the first lacks the key. |
| Json.KeysAppend | src/opencode/types.rs:46-57 | The keys of two concatenated member lists are the keys of the first followed by the keys of the second. |
| Json.Keys | src/opencode/types.rs:14-88 | The keys of an object, one per member, in wire order; the request bodies state their serialised key order through it. |
| Serde.DecodeAll | src/opencode/types.rs:455-456 | A list decodes exactly when every element decodes; the result has the list's length and holds each element's decoding at the same position. |
| Serde.DecodeAllRoundTrip | src/opencode/types.rs:49-50 | When every element survives an encode/decode round trip, the encoded list decodes back to the list. |
| Content.ToolState.StatusStr | src/opencode/types.rs:421-429 | The label is one of the four status labels; it is "pending" exactly for `Pending`, and "running", "completed", "error" exactly when the matching query holds. |
| Content.StatusQueriesExclusive | src/opencode/types.rs:405-419 | At most one of the running, completed and error queries holds, and none holds exactly for `Pending`. |
| Content.DecodeTimeSpan | src/opencode/types.rs:113-119 | A time span decodes exactly when it is an object whose `start` and `end` are each absent, `null` or a number; each instant is then the wire number, or `None` for no value. |
| Content.DecodeMessageInfo | src/opencode/types.rs:121-131 | A message summary decodes exactly when `id` and `role` are strings, `sessionID` is absent, `null` or a string, and `time` is absent, `null` or a valid time span; `id` and `role` are the wire strings and the two optional fields read their keys. |
| Content.DecodeToolState | src/opencode/types.rs:368-403 | A state decodes exactly when it is an object whose `status` is one of the four labels and the fields of that variant are well typed (`title` and `metadata` for running and completed, `output` for completed, `error` for error); the decoded label is the wire `status`, and `input`, `title`, `metadata`, `output` and `error` are each read from their key: `None` for no value, the wire value otherwise. |
| Content.DecodePart | src/opencode/types.rs:310-360 | A decoded part comes from an object with a string `type`. Each of the four known labels is decoded by its variant's schema, so the part decodes exactly when that schema accepts the object. A specific variant's `type` is that variant's label, and `Other` stands exactly for a label outside the four known ones. |
| Content.DecodeTextPart | src/opencode/types.rs:314-325 | A text part decodes exactly when `id` is a string and the other fields are well typed; `id` and the ids are read from the wire, `text` is empty when missing, and `time` is read from its key. |
| Content.DecodeToolPart | src/opencode/types.rs:326-342 | A tool part decodes exactly when `id` is a string, the optional ids and tool name are absent, `null` or strings, and `state` is absent, `null` or a valid state; each field is read from its key. |
| Content.DecodeStepStartPart | src/opencode/types.rs:343-348 | A step-start part decodes exactly when `id` is a string and `sessionID` is absent, `null` or a string; both are read from the wire. |
| Content.DecodeStepFinishPart | src/opencode/types.rs:349-356 | A step-finish part decodes exactly when `id` is a string and `sessionID` and `reason` are absent, `null` or strings; all three are read from the wire. |
| Content.DecodeSessionStatus | src/opencode/types.rs:433-444 | A decoded status's label is the wire `type`. A `retry` decodes exactly when `attempt` is missing or a 32-bit unsigned integer and `message` is absent, `null` or a string; its attempt is then 0 when `attempt` is missing and the wire integer otherwise, and its message reads `message`. |
| Content.UnknownPartTypeIsOther | src/opencode/types.rs:357-359 | A string `type` other than text, tool, step-start and step-finish decodes to `Other`, whatever the other fields hold. |
| Content.KnownPartNeedsId | src/opencode/types.rs:313-356 | A part with a known `type` and no string `id` fails to decode. |
| Content.ToolStateAbsence | src/opencode/types.rs:340-341 | A decoded tool part has no state exactly when `state` is missing or `null`; any other `state` gives `Some` of its decoding, so a missing state is never read as `Some(Pending)`. |
| Content.UnknownToolStatusFailsPart | src/opencode/types.rs:338-341 | A tool part whose `state` has a `status` outside the four labels fails as a whole. |
| Content.SessionStatusCases | src/opencode/types.rs:433-444 | The `idle` and `busy` statuses carry no payload. A bare `retry` is attempt 0 with no message. A given attempt is kept when it fits in 32 bits, and fails otherwise. Any other type fails. |
| Correlation.MinimalPermissionRequest | src/opencode/types.rs:453-458 | With only `id` and `sessionID` present, the request has no permission name, no patterns and no metadata. |
| Correlation.DecodePermissionRequest | src/opencode/types.rs:446-459 | A permission request decodes exactly when `id` and `sessionID` are strings, `permission` is absent, `null` or a string, `patterns` is missing or an array of strings, and `metadata` is missing or an object; each field is then the wire value, and a missing `patterns` or `metadata` is empty. |
| Correlation.DecodeQuestionRequest | src/opencode/types.rs:461-470 | A question request decodes exactly when `id` and `sessionID` are strings and `questions` is missing or an array of valid questions; the ids are the wire strings, a missing `questions` is empty, and a present one decodes element by element to the questions. |
| Correlation.DecodeQuestionInfo | src/opencode/types.rs:472-481 | A question decodes exactly when `question` and `header` are absent, `null` or strings and `options` is missing or an array of valid options; the question and header read their keys, a missing `options` is empty, and a present one decodes element by element to the options. |
| Correlation.DecodeQuestionOption | src/opencode/types.rs:483-489 | An option decodes exactly when `label` is a string and `description` is absent, `null` or a string; both are read from the wire. |
| Correlation.QuestionRequestElements | src/opencode/types.rs:464-470 | The questions are the element-wise decodings of `questions`, in order, and one malformed question fails the whole request. |
| Events.FromEnvelope | src/opencode/types.rs:185-252 | An unrecognised type is returned verbatim in `Unknown`. A recognised type gives either its own variant or, for the seven fallible types only, exactly `Unknown("<type> (parse error)")`. |
| Events.DecodeEnvelope | src/opencode/types.rs:139-146 | An envelope decodes exactly when it is an object with a string `type`; missing `properties` are `null`, and present ones are copied as they are. |
| Events.DecodeMessageUpdatedProps | src/opencode/types.rs:257-261 | The properties decode exactly when they are an object whose `info` is absent, `null` or a valid message summary, which `info` then reads. |
| Events.DecodeMessagePartUpdatedProps | src/opencode/types.rs:263-268 | The properties decode exactly when they are an object whose `part` is present and decodes and whose `delta` is absent, `null` or a string; both are read from the wire. |
| Events.DecodeSessionIdProps | src/opencode/types.rs:270-274 | The properties decode exactly when they are an object with a string `sessionID`, which is copied. |
| Events.DecodeSessionErrorProps | src/opencode/types.rs:276-282 | The properties decode exactly when they are an object whose `sessionID` is absent, `null` or a string; `sessionID` and the opaque `error` are then read from their keys. |
| Events.DecodeSessionStatusProps | src/opencode/types.rs:284-289 | The properties decode exactly when they are an object with a string `sessionID` and a `status` that decodes; both are read from the wire. |
| Events.DecodePermissionRepliedProps | src/opencode/types.rs:291-298 | The properties decode exactly when `sessionID`, `requestID` and `reply` are strings, which are copied. |
| Events.DecodeQuestionRepliedProps | src/opencode/types.rs:300-306 | The properties decode exactly when `sessionID` and `requestID` are strings, which are copied. |
| Events.PermissionAskedDispatch | src/opencode/types.rs:227-230 | `permission.asked` carries the decoded request, and is a parse error exactly when the request does not decode. |
| Events.QuestionAskedDispatch | src/opencode/types.rs:239-242 | `question.asked` carries the decoded request, and is a parse error exactly when the request does not decode. |
| Events.MessageUpdatedNeverFails | src/opencode/types.rs:189-194 | `message.updated` always gives `MessageUpdated`, carrying the decoded `info` when there is one and no info otherwise, malformed properties included. |
| Events.SessionErrorNeverFails | src/opencode/types.rs:213-219 | `session.error` always gives `SessionError`, copying `sessionID` and `error` when the properties decode, and giving both as absent otherwise. |
| Events.SessionIdleCopiesId | src/opencode/types.rs:207-212 | `session.idle` copies a string `sessionID` unchanged and is a parse error exactly when there is none. |
| Events.PermissionRepliedCopiesIds | src/opencode/types.rs:231-238 | For any properties, missing (`null`) ones included: `permission.replied` copies `sessionID`, `requestID` and `reply` unchanged, and is a parse error exactly when the properties are not an object or one of the three is missing or not a string. |
| Events.QuestionRepliedCopiesIds | src/opencode/types.rs:243-249 | For any properties: `question.replied` copies `sessionID` and `requestID` unchanged, and is a parse error exactly when the properties are not an object or one of the two is missing or not a string. |
| Events.SessionStatusDispatch | src/opencode/types.rs:220-226 | For any properties: `session.status` copies a string `sessionID` and carries the decoded status, and is a parse error exactly when the properties are not an object, `sessionID` is missing or not a string, or `status` is missing or does not decode. |
| Events.SessionStatusBareRetry | src/opencode/types.rs:438-443 | A bare `{"type": "retry"}` status gives `Retry` with attempt 0 and no message. |
| Events.PartUpdatedDispatch | src/opencode/types.rs:195-205 | `message.part.updated` is a parse error exactly when the properties are not an object, `part` is missing or does not decode, or `delta` is neither absent, `null` nor a string; otherwise the event carries the decoded part, and its delta is `None` for an absent or `null` wire delta and the wire string otherwise. |
| Events.UnknownToolStatusDropsEvent | src/opencode/types.rs:195-205 | A tool part whose state has an unrecognised `status` turns the whole event into `Unknown("message.part.updated (parse error)")`. |
| Events.PermissionReplyCorrelates | src/opencode/types.rs:227-238 | A permission reply's `requestId` equals the request's `id` exactly when their wire values under `requestID` and `id` are equal. |
| Events.QuestionReplyCorrelates | src/opencode/types.rs:239-249 | A question reply's `requestId` equals the request's `id` exactly when their wire values under `requestID` and `id` are equal. |
| Events.UnknownLabelIsAmbiguous | src/opencode/types.rs:250 | An unrecognised type spelled "session.idle (parse error)" gives the same event as a malformed `session.idle`. |
| Events.ExampleSessionIdle | src/opencode/types.rs:207-212 | `{"sessionID": "s1"}` under `session.idle` gives `SessionIdle("s1")`. |
| Events.ExamplePartDecodes | src/opencode/types.rs:362-367 | A running tool part in the documented shape decodes with its title and no input or metadata. |
| Events.ExampleRunningTool | src/opencode/types.rs:195-200 | The same part under `message.part.updated` with a `null` delta gives `MessagePartUpdated` with no delta. |
| Events.ExampleUnrecognised | src/opencode/types.rs:250 | The type `foo.bar` gives `Unknown("foo.bar")`. |
| Events.ExampleRetry | src/opencode/types.rs:220-226 | A `retry` status with attempt 3 gives `Retry(3, None)`. |
| Requests.EncodeCreateSession | src/opencode/types.rs:14-19 | The body is null-free; it has a `title` key exactly when a title is given, holding that title. |
| Requests.EncodePartInput | src/opencode/types.rs:21-36 | A part encodes to a null-free object: `type` and `text`, plus `synthetic` only when given; or `type`, `mime` and `url`, plus `filename` only when given. |
| Requests.EncodeModelParam | src/opencode/types.rs:38-44 | The model is a null-free object with exactly the camel-case keys `providerId` and `modelId`. |
| Requests.EncodeSendPrompt | src/opencode/types.rs:46-57 | The prompt is null-free, with `parts` always present and `system`, `model` and `agent` only when given, in declaration order; each of the three holds its given value (`model` encoded as a model selection) and is missing otherwise. |
| Requests.ReplyLabel | src/opencode/types.rs:67-74 | `Once` is written "once", `Always` "always" and `Reject` "reject", each label belonging to exactly that reply, as `rename_all = "snake_case"` gives. |
| Requests.ReplyLabelInjective | src/opencode/types.rs:67-74 | Distinct permission replies have distinct labels. |
| Requests.EncodePermissionReplyRequest | src/opencode/types.rs:59-64 | The body is null-free: `reply` holds the reply's label, and `message` is present exactly when given, holding that message. |
| Requests.EncodeQuestionAnswer | src/opencode/types.rs:76-81 | An answer is null-free with `label`, plus `description` only when given. |
| Requests.EncodeQuestionReply | src/opencode/types.rs:84-88 | The body is null-free with the single key `answers`. |
| Requests.KeysAppend4 | src/opencode/types.rs:46-57 | The keys of concatenated member lists are the concatenated keys. |
| Requests.PartInputRoundTrip | src/opencode/types.rs:21-36 | Decoding the encoding of any text or file part gives the part back. |
| Requests.ModelParamRoundTrip | src/opencode/types.rs:38-44 | Decoding the encoding of a model selection gives it back. |
| Requests.PermissionReplyRoundTrip | src/opencode/types.rs:67-74 | Decoding the label of a permission reply gives the reply back. |
| Requests.QuestionAnswerRoundTrip | src/opencode/types.rs:76-81 | Decoding the encoding of an answer gives the answer back. |
| Requests.SendPromptPartsRoundTrip | src/opencode/types.rs:46-50 | The encoded prompt's `parts` array decodes, in order, to the prompt's parts. |
| Requests.QuestionReplyRoundTrip | src/opencode/types.rs:84-88 | The encoded reply's `answers` array decodes, in order, to the reply's answers. |
| Requests.DecodePartInput | src/opencode/types.rs:21-36 | A decoded prompt part's `type` is `text` or `file` according to its variant, and its fields are read from their keys. |
| Requests.DecodeModelParam | src/opencode/types.rs:38-44 | A model selection decodes exactly when `providerId` and `modelId` are strings, which are copied. |
| Requests.DecodePermissionReply | src/opencode/types.rs:67-74 | A decoded reply came from its own label, as a string or as an object mapping only that label to `null`. |
| Requests.DecodeQuestionAnswer | src/opencode/types.rs:76-81 | An answer decodes exactly when `label` is a string and `description` is absent, `null` or a string; both are read from the wire. |
| ServerConfig.DefaultPermissions | src/opencode/types.rs:516-524 | The default posture allows edit, bash and webfetch. |
| ServerConfig.NewEnvConfig | src/opencode/types.rs:526-535 | The configuration keeps the given posture, uses the OpenCode schema URL, and turns language servers and formatters off. |
| ServerConfig.EncodePermissions | src/opencode/types.rs:503-510 | The posture is a null-free object with exactly the keys `edit`, `bash` and `webfetch`. |
| ServerConfig.EncodeEnvConfig | src/opencode/types.rs:493-501 | The configuration is a null-free object with exactly the keys `$schema`, `lsp`, `formatter` and `permission`, holding the schema, the two flags and the encoded posture. |
| ServerConfig.PermissionsRoundTrip | src/opencode/types.rs:503-514 | Decoding an encoded posture gives it back. |
| ServerConfig.DecodePermissions | src/opencode/types.rs:503-514 | A posture decodes exactly when `edit` and `bash` are strings and `webfetch` is missing or a string; the strings are copied, and a missing `webfetch` is "allow". |
| ServerConfig.WebfetchDefaultsToAllow | src/opencode/types.rs:508-514 | A posture without `webfetch` decodes with webfetch "allow". |
| ServerConfig.DefaultConfigJson | src/opencode/types.rs:526-535 | The default configuration serialises to the exact object the server receives. |

## Left out

- `src/conversation/history.rs` is not part of this model. It is database I/O with generated ids and wall-clock timestamps, and its ordering is done by SQL.
- The HTTP and server-sent-event transport is not modelled. The dispatcher starts from an already parsed envelope.
- The `Session` and `HealthResponse` response structs (`src/opencode/types.rs:93-110`) are not modelled.
- The trace log written on a `message.part.updated` parse failure is not modelled; it has no observable result.
- `TimeSpan` start and end are 64-bit floats. They are kept as opaque JSON numbers and never interpreted.
- Tool `input` and `metadata`, the session error value and permission metadata are opaque JSON, copied through unchanged.
- Objects are member sequences, and a lookup takes the first member with a key. A parsed JSON map never repeats a key, so this agrees with the source. The ordering of `HashMap` metadata is not modelled.
- Decoders model only JSON objects for structs and string tags for enums. serde also accepts a JSON array for a struct, and an integer variant index as a tag. Neither form is modelled.
- A failed decode is `Fail`, without serde's error message. No branch of the dispatcher returns that message; the `message.part.updated` branch only passes it to a trace log, which is not modelled.
- `QuestionInfo` and `QuestionOption` derive serialisation, but nothing in the core serialises them, so only their decoding is modelled.
- Requests.EncodeSendPrompt: the contract states the keys, the values of the optional fields and null-freedom of the body, and round-trips only its `parts`. The source does not derive decoding for the whole prompt.
