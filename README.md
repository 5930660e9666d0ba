# Realtime OBS translator: relay core in Dafny

This project models the relay logic of the `App` component of the Realtime OBS
Translator. The component takes live speech translated by an AI session and
shows it as text on an OBS overlay. It has two independent links:

- a data channel from the AI provider, whose `response.text.delta` messages
  feed a bounded translation buffer;
- a WebSocket to obs-websocket, over which every change of the buffer is
  pushed as a `SetInputSettings` request.

What is modelled:

- `TranslationBuffer` (buffer.dfy): the buffer step `(prev + delta).slice(-charLimit)`.
  JavaScript's `slice` is modelled with its index rules, including `slice(-0)`,
  which keeps the whole string. Lengths count characters, not UTF-16 code
  units (see "## Left out"). The module states the sliding-window properties: the length
  bound, "no truncation when it fits", and that truncating after each fragment
  equals truncating the whole concatenated stream.
- `Configuration` (configuration.dfy): `isError`, `fetchToken` and the
  `startSession` sequence, written as pure functions. The outcomes of the
  network, microphone and WebRTC steps are a parameter (`StartEnv`). The HTTP
  requests the component sends are returned as data, so "no network call" can
  be stated.
- `ObsProtocol` (obs_protocol.dfy): the frames the component sends (op 1
  identify, op 2 authentication, op 6 request) and its reaction to server
  frames. The op numbers are the ones the code checks: 2 for an
  authentication hello, 5 for ready. In the obs-websocket 5.x protocol, op 0
  is Hello, op 2 is Identified and op 5 is Event, so against a real server the
  code's checks do not match; the model follows the code. SHA-256, UTF-8 and
  Base64 are symbolic (`Bytes`). The model therefore fixes the composition
  order of the token and not its value.
- `Relay` (app.dfy): class `App`, whose fields mirror the component state
  (`isSessionActive`, `dataChannel`, `peerConnection`, `translation`,
  `errorMessage`, `ws`, `obsConnected`). Further fields stand for the
  environment: requests sent, handles closed, the sockets created with their
  ready states, frames sent, and pending reconnect timers. There is one method
  per handler. The ghost field `identified` holds the sockets on which a
  ready frame arrived, and the ghost field `stream` holds every fragment
  received. The constructor and the handlers pin both fields exactly. The
  invariant `Valid()` contains the gating property: no `SetInputSettings`
  frame is ever sent on a socket outside `identified`. It also says the
  "connected" indicator is on only while the stored socket is open (in the
  model, see "## Left out"), and, for a positive limit, the buffer is always
  the trailing `charLimit` characters of `stream`.

Things the code does that a reader might not expect (the model does the same):

- `stopSession` closes only the data channel and the peer connection. It
  leaves the overlay socket open, does not cancel pending reconnects and does
  not clear the buffer.
- The overlay connection starts at the end of `startSession`, not on the data
  channel's `open` event.
- The authentication hash concatenates the raw bytes of the inner digest with
  the challenge. The obs-websocket 5.x handshake concatenates the Base64 text
  of the inner digest instead.
- A failed start does not release the data channel it already stored.

Where the code cannot run as written, the model follows the evident intent:

- `setModelConnected` (line 120) is undeclared. Its ReferenceError means
  `connectOBS()` is never reached; this is the first row under "## Findings".
- `socket` (line 181) is assigned without a declaration. The file is an ES
  module, so it runs in strict mode and that assignment itself throws a
  ReferenceError. The model treats `socket` as one component-wide variable
  that always holds the newest socket.
- `OBS_PASSWORD` and `sha256` (line 192) are undeclared. The model uses the
  configured password and SHA-256 of its UTF-8 text; this is the second row
  under "## Findings".

## Model

| member | source | states |
|---|---|---|
| `TranslationBuffer.SliceFrom` | src/components/App.jsx:169 | `slice(start)` returns a suffix of the string; a negative start keeps the last min(-start, length) characters, a non-negative start drops min(start, length) characters |
| `TranslationBuffer.Step` | src/components/App.jsx:169 | for `charLimit >= 1` the new buffer has at most `charLimit` characters and is the last `charLimit` characters of `prev + delta`; if `prev + delta` fits it is kept whole; `charLimit == 0` keeps everything |
| `TranslationBuffer.Receive` | src/components/App.jsx:167-170 | a message that is not a `response.text.delta` (or does not parse) leaves the buffer unchanged; a delta gives the window of `prev + fragment` (a missing `delta` contributes the text "undefined"); the length bound is preserved |
| `TranslationBuffer.SuffixOfSuffix` | src/components/App.jsx:169 | the last n characters of (the last n characters of a) + b equal the last n characters of a + b |
| `TranslationBuffer.ReceiveKeepsWindow` | src/components/App.jsx:166-170 | if the buffer is the window of the stream so far, it stays the window of the stream extended by what the message contributes |
| `TranslationBuffer.FeedIsSuffixOfStream` | src/components/App.jsx:166-172 | applying the step fragment by fragment, starting from a buffer within the limit, gives the last `charLimit` characters of the buffer followed by all fragments |
| `TranslationBuffer.FeedFromEmpty` | src/components/App.jsx:166-172 | from an empty buffer, after any fragments, the buffer is the last min(total length, `charLimit`) characters of their concatenation |
| `TranslationBuffer.HelloWorldScenario` | src/components/App.jsx:169 | fragments "He", "llo wor", "ld!" with limit 5 give "He", "o wor", then "orld!" |
| `Configuration.EachFieldRequired` | src/components/App.jsx:30-39 | each field is required on its own: blanking any one of the key, URL, password, source name or language, or setting the limit to 0, makes any configuration refused whatever the other fields hold; an accepted configuration has only non-empty texts |
| `Configuration.FetchToken` | src/components/App.jsx:43-72 | an empty key fails with "API Key is missing" and sends nothing; otherwise exactly one session request carrying the key, model, voice, text modality and translation instructions is sent; it succeeds exactly on a 2xx status whose body parses, returning the reply's `client_secret`; otherwise it fails with "HTTP Error: <status>", the parse error's message or the transport's message |
| `Configuration.Decimal` | src/components/App.jsx:63 | the status text is non-empty, all digits, and starts with "0" only for status 0 |
| `Configuration.DecimalRoundTrip` | src/components/App.jsx:63 | reading the status text back as decimal digits gives the status itself |
| `Configuration.Start` | src/components/App.jsx:74-127 | a configuration refused by `isError` sets the config error message and sends no request, stores nothing and connects nothing; otherwise the token request comes first; the data channel is stored exactly when the token reply is 2xx, parses and has a `client_secret`, and the microphone is granted; an SDP offer follows exactly when the offer is also created, carrying `client_secret.value` or the text "undefined" when that is missing; the peer connection is stored and the overlay connected exactly when every step succeeds; a rejected status leaves "HTTP Error: <status>", a body that does not parse leaves the parse error, a thrown fetch leaves its message, and a 2xx reply that parses leaves the message empty |
| `Configuration.MissingSecretValue` | src/components/App.jsx:84-111 | a `client_secret` without `value` still stores the channel and sends the SDP offer with "undefined"; a reply without `client_secret` stops after the token request with an empty message |
| `Configuration.StartAsWritten` | src/components/App.jsx:119-126 | as written the start never connects the overlay, while it sends the same requests, sets the same message and still stores the peer connection on full success |
| `Configuration.OverlayUnreachableAsWritten` | src/components/App.jsx:119-121 | for a complete configuration and all-successful external steps, the intended start connects the overlay and the as-written one does not |
| `ObsProtocol.AuthDigestInjective` | src/components/App.jsx:191-200 | under the symbolic, collision-free hash, the token commits to the password: for the same salt, equal digests come from equal passwords and equal challenges |
| `ObsProtocol.React` | src/components/App.jsx:187-214 | a server frame marks the link connected exactly when it has op 5 and `negotiatedRpcVersion`; it is answered exactly when it has op 2 and an authentication challenge, with an op 2 frame whose token is the Base64 of SHA-256 of (SHA-256 of the configured password followed by the salt) joined with the UTF-8 challenge |
| `ObsProtocol.ReactAsWritten` | src/components/App.jsx:190-213 | as written, no frame is ever answered; the op 5 rule is unchanged |
| `ObsProtocol.ChallengeUnansweredAsWritten` | src/components/App.jsx:190-204 | a hello with salt "s" and challenge "c" is answered by the intended handler and ignored as written |
| `Relay.App.constructor` | src/components/App.jsx:7-27 | the initial state: empty buffer and empty stream, no session, no handles, `ws` null, no identified socket, overlay not connected, nothing sent |
| `Relay.App.StartSession` | src/components/App.jsx:74-127 | the new state is `Start` applied to the old one: an incomplete configuration changes only the error message; otherwise the requests, message, data channel, peer connection and the creation of one overlay socket follow the plan, and the buffer is untouched |
| `Relay.App.ApplyStart` | src/components/App.jsx:80-121 | the state updates of one start: message, requests, new data channel on a fresh attempt number, peer connection on success, one new socket when the overlay is connected |
| `Relay.App.StopSession` | src/components/App.jsx:129-140 | afterwards the session is inactive and the channel and peer handles are null; each handle held is closed exactly once; on a stopped session nothing changes, so a second call is a no-op; the overlay and buffer are untouched |
| `Relay.App.OnChannelOpen` | src/components/App.jsx:173-176 | the AI session becomes active when a data channel is stored; nothing else changes |
| `Relay.App.SetFreetypeText` | src/components/App.jsx:142-158 | exactly one frame is sent on the stored socket when it is open: an op 6 `SetInputSettings` request with id `updateText` for the configured source and the given text; otherwise nothing is sent and no error is raised; nothing else changes |
| `Relay.App.UpdateTranslation` | src/components/App.jsx:166-172 | the buffer takes one `Receive` step, the stream grows by exactly the message's contribution, and the buffer stays the window of the stream |
| `Relay.App.OnChannelMessage` | src/components/App.jsx:160-172 | with a stored channel, the buffer takes one `Receive` step and the stream grows by the message's contribution; without one, neither changes; when the buffer's value changed and the stored socket is open, exactly one frame with the new text is sent; otherwise nothing is sent |
| `Relay.App.ConnectObs` | src/components/App.jsx:180-181 | one new socket in the connecting state becomes the newest socket; nothing else changes |
| `Relay.App.OnSocketOpen` | src/components/App.jsx:183-185 | a connecting newest socket becomes open and an op 1 identify frame with rpcVersion 1 is sent on it |
| `Relay.App.OnSocketMessage` | src/components/App.jsx:187-214 | on the open newest socket: a challenge is answered on that socket; a ready frame stores it as `ws`, adds it to the identified sockets and turns the connected flag on; anything else changes nothing, and no other frame identifies a socket |
| `Relay.App.OnSocketError` | src/components/App.jsx:216-219 | the connected flag goes off; `close()` moves a connecting or open socket to closing and leaves a closing or closed one alone |
| `Relay.App.OnSocketClose` | src/components/App.jsx:221-224 | the socket becomes closed, the pending reconnect count grows by exactly one and the connected flag goes off; a socket that is already closed changes nothing |
| `Relay.App.OnReconnectTimer` | src/components/App.jsx:222 | a pending reconnect is consumed and creates exactly one new socket |

## Findings

| source | as written | input that shows it | evidently intended | confidence | as-written member | corrected member |
|---|---|---|---|---|---|---|
| src/components/App.jsx:120 | calls the undeclared `setModelConnected`; the ReferenceError is caught at line 122, so `connectOBS()` at line 121 never runs | a complete configuration, a 200 token reply with a client secret, a granted microphone and an applied answer | after storing the peer connection, connect to the overlay | not executed | `Configuration.StartAsWritten` (shown by `Configuration.OverlayUnreachableAsWritten`) | `Configuration.Start` |
| src/components/App.jsx:192 | `sha256(OBS_PASSWORD + salt)` uses two undeclared names, so the async handler rejects and a password challenge is never answered | an op 2 frame with `authentication` salt "s" and challenge "c" | answer with an op 2 frame whose token is derived from the configured password | not executed | `ObsProtocol.ReactAsWritten` (shown by `ObsProtocol.ChallengeUnansweredAsWritten`) | `ObsProtocol.React` |

## Left out

- src/components/SessionControls.jsx: it only renders a start or stop button; no logic to model.
- JSX markup, the status dots, the form inputs and `localStorage` (src/components/App.jsx:11-22, 227-334): UI and persistence. The configuration is fixed when an `App` is built.
- `charLimit` as a JavaScript value: it is an integer here. The form stores a string, so `"0"` is truthy and passes `isError`; `NaN` and fractional limits are not modelled.
- `fetch`, `RTCPeerConnection`, `getUserMedia` and the audio element (src/components/App.jsx:48-65, 86-117): network and media I/O. Their outcomes are the `StartEnv` parameter: the token reply, the microphone grant, whether `createOffer` and `setLocalDescription` succeed, and whether the answer is applied. The peer connection created before a failed microphone or negotiation step is not stored by the code and is not modelled.
- Interleaving inside `startSession`: each `await` could let other events in; the model runs the whole start as one step. The transient `isActivating` flag is true only during those awaits, so it is left out.
- SHA-256, `TextEncoder` and `btoa` (src/components/App.jsx:192-200): foreign crypto. They are symbolic terms, so the token's value is not computed. The terms are datatype constructors, so the model assumes SHA-256 is collision-free; `ObsProtocol.AuthDigestInjective` rests on that assumption.
- TranslationBuffer.SliceFrom, TranslationBuffer.Step: lengths count Unicode scalar values, not UTF-16 code units. JavaScript's `length` and `slice` count code units, so for text outside the Basic Multilingual Plane the limit bounds different units. A slice that splits a surrogate pair, which leaves a lone surrogate in the page, is not modelled.
- JSON encoding of frames and `JSON.parse` of messages: frames are datatypes, and a payload that does not parse is a separate `Unparsable` case.
- The 5-second `setTimeout` delay (src/components/App.jsx:222): only the count of pending reconnects is modelled.
- The `events` log and `console` output (src/components/App.jsx:41, 69, 123, 171, 175): never read by the core.
- Relay.App.OnSocketOpen, Relay.App.OnSocketMessage, Relay.App.OnSocketError, Relay.App.OnSocketClose: events are delivered only for the newest socket. An older socket's handlers would act on the newest socket through the shared `socket` variable, and the model does not capture that. `stopSession` never closes the overlay socket, so every stop followed by a new start leaves such an older socket live. The intended challenge answer awaits two digests before `socket.send`, so it goes out on whichever socket `socket` holds by then; the model answers at once on the socket that received the challenge.
- Relay.App.OnChannelOpen, Relay.App.OnChannelMessage: the effect that registers the `message` and `open` listeners has no cleanup, and `startSession` overwrites `dataChannel` and `peerConnection.current` without closing them. Listeners on a replaced channel stay registered, and a second full start leaks the first channel and peer connection past `stopSession`. Their deltas keep updating the buffer, and their `open` can set `isSessionActive` after a stop. The model delivers channel events only to the stored channel, and only while one is stored.
- Relay.App.OnChannelMessage: the model renders after every message, so each change sends one frame. In the page, the push is an effect that runs after React commits a render. React 18 batches state updates from native listeners, so several deltas can merge into one render and one push. Updates that return to the committed value send nothing.
- Relay.App.OnSocketError: a browser fires `error` only while failing the connection. By then `readyState` is already CLOSED and `close` follows in the same task. The model also lets `error` arrive on a connecting or open socket, where `close()` moves it to closing; that step does not happen in a page.
- Relay.App.ConnectObs: `new WebSocket(url)` throws a SyntaxError for a URL that does not parse or whose scheme is not ws, wss, http or https. The model always creates a connecting socket. In strict mode the undeclared assignment at line 181 throws as well (see above).
- A close handshake started by the server: the browser moves `readyState` to CLOSING without an event, and the model has no such step. The invariant "the connected indicator is on only while the stored socket is open" therefore holds of the model, not of the page, in the time between the server starting to close and the `close` event.
