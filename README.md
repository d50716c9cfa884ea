# Gemini Live API demo client — a verified model

The demo web client for the Gemini Multimodal Live API
(`gemini/multimodal-live-api/websocket-demo-app/frontend/gemini-live-api.js`) has two pieces of
logic. This project models both in Dafny:

- **`GeminiLiveResponseMessage`** classifies one decoded server frame. It works through a
  fixed-priority list of rules: setup complete, text in the first content part, inline audio
  data in the first content part, session resumption update, input transcription, output
  transcription, and a fall-through. The result is a `(type, data, endOfTurn)` triple. Module
  `ResponseMessage` models it as the pure function `Classify` over a frame datatype.
  - Leaves of the frame are JavaScript values (`undefined`, `null`, booleans, strings, objects).
  - Truthiness is explicit, so the empty string counts as "no text".
  - A nested object that is absent or `null` is `None`, which is how optional chaining reads it.
- **`GeminiLiveAPI`** is modelled without its socket, as class `LiveApi.GeminiLiveApi`.
  - It holds the session configuration fields, and the setters change exactly their own fields.
  - `setProjectId` re-derives `modelUri`.
  - `setApiHost` does not re-derive `serviceUrl`: the URL computed by the constructor is kept.
  - Every `sendMessage` appends the frame to the field `outbox`.
  - The frames are values of a JSON datatype (module `JsValues`) whose objects keep their
    members in insertion order.
  - `Set` models JavaScript property assignment for keys that are not array indices, which
    covers every key the client assigns: an existing key is overwritten in place, and a new key
    is added last. The conditional keys of the session setup frame are added this way.

Module `Frames` holds the derived strings (`ModelUri`, `ServiceUrl`) and the frame builders. Each
builder is paired with a reader: the function a receiver would use to get the carried values back
out of that frame. The contracts are round trips through these readers.
- The transport setup reads back as `(accessToken, serviceUrl)`.
- The session setup reads back as the configuration it was built from. Each transcription flag
  is read as the presence of its key. The resumption handle is read only when resumption is
  enabled.
- A text frame reads back as exactly one user turn with one text part and `turn_complete: true`.
- A realtime frame reads back as exactly one media chunk.

Details of the client's behaviour the model keeps:
- The setup-complete type string is `"SETUP COMPLETE"`, with a space.
- A frame that matches no rule gets the type `""`. The model names that case `Unmatched`, and
  its `Type()` is `""`.
- An input transcription whose `text` is falsy but whose `finished` is truthy carries that raw
  `finished` value as its data, whatever its type. An output transcription in the same case gets
  `"Finished: "` followed by the string form of `finished`. When neither `text` nor `finished` is
  truthy, the data stays `""`.
- The client does not guard against sending before the socket is open. The model's outbox
  accepts a frame at any time.

## Model

| member | source | states |
|---|---|---|
| `ResponseMessage.Classify` | gemini/multimodal-live-api/websocket-demo-app/frontend/gemini-live-api.js:1-36 | `endOfTurn` is `serverContent.turnComplete` (or `undefined`) whichever rule fires. A truthy `setupComplete` always yields "SETUP COMPLETE" with empty data. For each other type, the data comes from the right place: TEXT is `parts[0].text`; AUDIO is `parts[0].inlineData.data`; RESUMPTION is `newHandle`. An input transcription gives its text, else its `finished`, else `""`. An output transcription gives its text, else `"Finished: "` + `finished`, else `""`. The fall-through leaves the data `""`. |
| `ResponseMessage.Message.Type` | gemini/multimodal-live-api/websocket-demo-app/frontend/gemini-live-api.js:10-28 | The `type` string is empty exactly for the fall-through; each rule sets its own string, `"SETUP COMPLETE"` (with a space), `"TEXT"`, `"AUDIO"`, `"RESUMPTION"`, `"INPUT_TRANSCRIPTION"` or `"OUTPUT_TRANSCRIPTION"`. |
| `ResponseMessage.TypeNamesKind` | gemini/multimodal-live-api/websocket-demo-app/frontend/gemini-live-api.js:10-28 | Two messages have the same `type` string if and only if the same rule produced them, so the string identifies the rule. |
| `ResponseMessage.ClassifyIsFirstMatch` | gemini/multimodal-live-api/websocket-demo-app/frontend/gemini-live-api.js:9-34 | For every frame and every kind, the frame gets that kind if and only if that rule's guard holds and the guard of no earlier rule holds. So input transcription wins over output transcription, and the fall-through applies exactly when no rule matches. |
| `ResponseMessage.OnlyFirstPartMatters` | gemini/multimodal-live-api/websocket-demo-app/frontend/gemini-live-api.js:7-16 | Two frames that differ only in the content parts after the first are classified identically: only `parts[0]` is ever inspected. |
| `ResponseMessage.Examples` | gemini/multimodal-live-api/websocket-demo-app/frontend/gemini-live-api.js:9-34 | Concrete frames: a text part wins over a later audio part; `{inlineData: {data: "QUJD"}}` gives AUDIO "QUJD"; a resumption handle "h1"; output `{finished: "x"}` gives "Finished: x"; a frame with both transcriptions is INPUT_TRANSCRIPTION; `setupComplete` wins over everything else. |
| `JsValues.Set` | gemini/multimodal-live-api/websocket-demo-app/frontend/gemini-live-api.js:177-187 | Property assignment with a key that is not an array index keeps the key order: if the key exists, the keys stay the same; otherwise the new key is appended at the end. |
| `JsValues.GetSet` | gemini/multimodal-live-api/websocket-demo-app/frontend/gemini-live-api.js:177-187 | After `o[key] = v`, reading `key` gives `v` and every other key reads as before. |
| `Frames.ModelUri` | gemini/multimodal-live-api/websocket-demo-app/frontend/gemini-live-api.js:44 | The URI starts with `projects/`, which is followed by the project id. It ends with the model name. |
| `Frames.ModelUriInjective` | gemini/multimodal-live-api/websocket-demo-app/frontend/gemini-live-api.js:44 | If the project id contains no `/`, the model URI determines both the project id and the model. |
| `Frames.ServiceUrl` | gemini/multimodal-live-api/websocket-demo-app/frontend/gemini-live-api.js:50 | The API host can be recovered from the service URL, between the fixed `wss://` prefix and the fixed service path. |
| `Frames.ServiceSetupFrame` | gemini/multimodal-live-api/websocket-demo-app/frontend/gemini-live-api.js:153-157 | The transport setup frame reads back as exactly the access token and the service URL. |
| `Frames.ReadStringsRoundTrip` | gemini/multimodal-live-api/websocket-demo-app/frontend/gemini-live-api.js:163 | An array of strings (the response modalities) reads back as the same strings, in the same order. |
| `Frames.GenerationConfig` | gemini/multimodal-live-api/websocket-demo-app/frontend/gemini-live-api.js:162-170 | `generation_config` reads back as the response modalities, the voice name and the language code. |
| `Frames.SystemInstruction` | gemini/multimodal-live-api/websocket-demo-app/frontend/gemini-live-api.js:171-173 | `system_instruction` reads back as its single text part. |
| `Frames.SessionSetupKeys` | gemini/multimodal-live-api/websocket-demo-app/frontend/gemini-live-api.js:159-187 | The keys of `setup` are `model`, `generation_config` and `system_instruction`, then each conditional key exactly when its flag is set, in the order of assignment. |
| `Frames.SessionSetupGet` | gemini/multimodal-live-api/websocket-demo-app/frontend/gemini-live-api.js:159-187 | `model` holds the model URI. `input_audio_transcription` and `output_audio_transcription` are `{}` if and only if their flags are set, and absent otherwise. `session_resumption` is `{handle}` if and only if resumption is enabled. |
| `Frames.SessionSetupFrame` | gemini/multimodal-live-api/websocket-demo-app/frontend/gemini-live-api.js:159-190 | Builds `{setup}`: the three fixed members, then the conditional ones added by property assignment in source order. It has no contract of its own; what the frame carries is stated by `SessionSetupKeys`, `SessionSetupGet` and `SessionSetupRoundTrip`. |
| `Frames.SessionSetupRoundTrip` | gemini/multimodal-live-api/websocket-demo-app/frontend/gemini-live-api.js:159-190 | The session setup frame reads back as the configuration it was built from. The resumption handle is included only when resumption is enabled. |
| `Frames.TextFrame` | gemini/multimodal-live-api/websocket-demo-app/frontend/gemini-live-api.js:193-206 | The frame is a `client_content` frame with exactly one turn, whose role is `"user"` and which has exactly one part holding the text, and with `turn_complete: true`. |
| `Frames.RealtimeInputFrame` | gemini/multimodal-live-api/websocket-demo-app/frontend/gemini-live-api.js:208-220 | The frame is a `realtime_input` frame whose `media_chunks` hold exactly one chunk, with the given MIME type and data. |
| `LiveApi.GeminiLiveApi.constructor` | gemini/multimodal-live-api/websocket-demo-app/frontend/gemini-live-api.js:39-75 | The constructor stores its arguments and derives `modelUri` and `serviceUrl`. Modalities start as `["AUDIO"]`. The instruction, token, voice and handle start empty. Every flag starts off, and nothing has been sent yet. |
| `LiveApi.GeminiLiveApi.SetProjectId` | gemini/multimodal-live-api/websocket-demo-app/frontend/gemini-live-api.js:77-80 | Changes only `projectId` and `modelUri`. Afterwards `modelUri` is `ModelUri(projectId, model)`, using the current model. |
| `LiveApi.GeminiLiveApi.SetApiHost` | gemini/multimodal-live-api/websocket-demo-app/frontend/gemini-live-api.js:82-84 | Changes only `apiHost`. `serviceUrl` keeps the value computed at construction. |
| `LiveApi.GeminiLiveApi.SetAccessToken` | gemini/multimodal-live-api/websocket-demo-app/frontend/gemini-live-api.js:86-89 | Changes only `accessToken`. |
| `LiveApi.GeminiLiveApi.SetTranscript` | gemini/multimodal-live-api/websocket-demo-app/frontend/gemini-live-api.js:91-95 | Changes exactly the two transcript flags. |
| `LiveApi.GeminiLiveApi.SetVoice` | gemini/multimodal-live-api/websocket-demo-app/frontend/gemini-live-api.js:97-100 | Changes exactly the voice name and the locale. |
| `LiveApi.GeminiLiveApi.SetResumption` | gemini/multimodal-live-api/websocket-demo-app/frontend/gemini-live-api.js:102-105 | Changes exactly the resumption flag and the handle. |
| `LiveApi.GeminiLiveApi.SendMessage` | gemini/multimodal-live-api/websocket-demo-app/frontend/gemini-live-api.js:116-118 | Appends one frame to the outbox and changes nothing else. |
| `LiveApi.GeminiLiveApi.SendInitialSetupMessages` | gemini/multimodal-live-api/websocket-demo-app/frontend/gemini-live-api.js:152-191 | Appends exactly two frames, in this order: the transport setup (token, service URL), then the session setup for the current configuration. The session setup is built by adding the conditional keys in place. It is not part of the contract, but it follows from the ensures together with `ModelUriIsCurrent` (which the constructor and `setProjectId` establish) and `SessionSetupRoundTrip`: the sent setup then names `ModelUri(projectId, model)`. |
| `LiveApi.GeminiLiveApi.SendTextMessage` | gemini/multimodal-live-api/websocket-demo-app/frontend/gemini-live-api.js:193-206 | Appends exactly one frame: the text frame for `text`. |
| `LiveApi.GeminiLiveApi.SendRealtimeInputMessage` | gemini/multimodal-live-api/websocket-demo-app/frontend/gemini-live-api.js:208-220 | Appends exactly one realtime frame holding one chunk. |
| `LiveApi.GeminiLiveApi.SendAudioMessage` | gemini/multimodal-live-api/websocket-demo-app/frontend/gemini-live-api.js:222-224 | Appends one realtime frame with MIME type `audio/pcm`. |
| `LiveApi.GeminiLiveApi.SendImageMessage` | gemini/multimodal-live-api/websocket-demo-app/frontend/gemini-live-api.js:226-228 | Appends one realtime frame. Its MIME type is the given one, or `image/jpeg` when the argument is missing or `undefined`. |
| `LiveApi.ReconfigureThenSetUp` | gemini/multimodal-live-api/websocket-demo-app/frontend/gemini-live-api.js:77-84 | A client changes the project id and the host, then sets up a session. The session setup names the model of the new project. The transport setup still targets the host given at construction. No optional key is requested. |
| `LiveApi.TranscribedSession` | gemini/multimodal-live-api/websocket-demo-app/frontend/gemini-live-api.js:91-105 | A client enables both transcriptions and resumption with a handle, then sets up a session. The session setup requests all three features and carries the handle. |

## Left out

- The socket lifecycle is not modelled: `connect`, `disconnect`, `setupWebSocketToService` and the
  `onopen`, `onclose`, `onerror` and `onmessage` handlers (lines 107-150). These are event
  plumbing on the browser's WebSocket, and the socket is represented only by `outbox`. So is the
  mismatch between the field names `websocket` and `webSocket`, which matters only there.
- `onReceiveMessage` (lines 120-126) is not modelled beyond `Classify`. It is `JSON.parse`, then
  the classification, then a callback.
- `JSON.stringify` and `JSON.parse` are library calls. Frames are structured values instead of
  text.
- Logging (`console.log`), `alert`, and the callbacks `onReceiveResponse`, `onConnectionStarted`
  and `onErrorMessage` are side effects with nothing to state.
- A send made before `connect` throws in the client, because the socket is unset. In the model
  the outbox accepts it.
- Inbound leaf values cover `undefined`, `null`, booleans, strings and objects. Numbers are not
  modelled, and an array is treated like a plain object. An object stringifies as
  `[object Object]`.
- Some malformed frames are not modelled:
  - A non-object value where the client expects an object (for instance a string in place of
    `serverContent`) is treated as absent.
  - `parts` must be an array.
  - A `null` element as `parts[0]`, on which the client throws, cannot be written in the model.
- The frame itself is always an object. A top-level `null` from `JSON.parse` behaves like a
  frame whose fields are all absent.
- The setters take strings and booleans. The client accepts any JavaScript value there and tests
  the flags only for truthiness.
- The constructor and the send methods take strings too. The client passes any value through
  unchanged: `sendImageMessage(img, null)` sends `mime_type: null`, since only a missing or
  `undefined` argument gets the default `image/jpeg`. `SendImageMessage` can express only a
  string or a missing/`undefined` argument.
- The readers in `Frames` (`ReadSessionSetup` and the others) are not part of the client. They are
  the receiving side, against which the builders are stated.
