# OpenAI WebRTC starter kit: the session controller

This project models the browser-side session controller of the OpenAI WebRTC
starter kit (`script.js`) and proves properties of the model. The controller:

- fetches an ephemeral credential from the local server;
- opens a WebRTC peer connection;
- captures the microphone and adds its tracks;
- opens the `oai-events` data channel;
- exchanges an SDP offer and answer with the realtime API, using the credential as bearer token;
- greets the model once the channel opens;
- logs every inbound control message to a bounded status list;
- tears everything down when the stop button is pressed.

The model has these modules:

- `Js`: the slice of JavaScript value semantics the controller relies on. It covers parsed JSON values, property access that throws on `null` and `undefined`, optional chaining, truthiness, and the string a template literal makes of a value, which throws for an object carrying its own `toString` member.
- `StatusLog`: the status list. New entries go on top and a separate `logCount` is kept. Once the count passes `MAX_LOG_ENTRIES` (100), the bottom entry is removed.
- `ControlProtocol`: the data-channel protocol. It covers the greeting as `JSON.stringify` writes it, and the classification of each inbound frame into one log entry.
- `Session`: every handler and setup step as a pure function over a `State` snapshot. The snapshot holds:
  - the three nullable handles;
  - the log;
  - the two buttons' `disabled` flags;
  - a trace of every call the controller makes into the browser or the network.

  Browser objects are opaque handles. The outcome of each awaited step (fetch, `getUserMedia`, `createOffer`, `setLocalDescription`, the signaling POST, `setRemoteDescription`) is an input, carried in an `Environment`.
- `SessionProperties`: what the controller guarantees, stated over those functions:
  - the setup order;
  - no connection without a credential;
  - what a failed start leaves behind;
  - that cleanup is total and idempotent;
  - that frames only add to the log;
  - the exact greeting, sent once per open event;
  - that the log stays bounded and the buttons opposite over any sequence of clicks and callbacks.
- `Controller`: the class `SessionController`. Its fields are the module-level `state` object, the status list and the two button flags. Its methods update them in place, as the source does. Each method is proved to leave the object in the state its `Session` function computes (`View() == Session.F(old(View()), …)`), so every property above holds of the object. The two `forEach` loops, adding the local tracks and stopping them on cleanup, are `for` loops with their invariants.

The model keeps these behaviours of the code, which a reader might not expect:

- A failed start does not clean up. The catch block only logs and re-enables the start button. The peer connection, data channel and audio stream acquired before the failure stay set (`SessionProperties.StartKeepsAcquired`, `SessionProperties.SignalingRejected`).
- The controls flip to "running" when a start begins, not when it succeeds.
- Only the disabled start button prevents a second start; the controller has no guard of its own.
- A credential response with a `client_secret` but no `client_secret.value` is not an error. The token is then `undefined`, and the offer is posted with `Bearer undefined`.

## Model

| member | source | states |
|---|---|---|
| Js.Get | script.js:86 | `v.key` throws exactly when `v` is null or undefined, and otherwise yields the own property or undefined |
| Js.OptionalGet | script.js:179 | `v?.key` never throws; it is undefined on a nullish `v` and agrees with `v.key` otherwise |
| Js.Render | script.js:176-185 | a template literal yields a string exactly when the value is not an object with its own `toString` member, and otherwise throws `Cannot convert object to primitive value`; a string yields itself |
| StatusLog.Insert | script.js:49-55 | from a consistent log (length equals count, at most 100), an insertion keeps it consistent, with min(count+1, 100) entries |
| StatusLog.InsertEvictsOldest | script.js:49-55 | the new entry goes in front; below capacity every older entry is kept in order; at capacity exactly the oldest (last) one is dropped |
| StatusLog.InsertNewest | script.js:49-55 | one insertion lists the newest 100 of the new entry followed by the old list |
| StatusLog.InsertAllKeepsNewest | script.js:44-58 | after any number of log calls the log is consistent and lists exactly the newest 100 entries of the whole history, most recent first |
| ControlProtocol.EscapeChar | script.js:167 | `JSON.stringify` copies a character unchanged exactly when it is not a quote, a backslash or a control character |
| ControlProtocol.Escape | script.js:167 | a string with nothing to escape is written as it is |
| ControlProtocol.Stringify | script.js:167 | a string is written between quotes, an array between brackets and an object between braces |
| ControlProtocol.GreetingTextIsWire | script.js:159-167 | the greeting serialises to exactly `{"type":"response.create","response":{"modalities":["text","audio"],"instructions":"Hello! Please introduce yourself."}}` |
| ControlProtocol.TypeOf | script.js:173-174 | reading `data.type` fails exactly when the frame did not parse or parsed to null |
| ControlProtocol.ErrorDetail | script.js:179 | the detail of an `error` frame throws exactly when `error.message` is truthy and cannot be printed; a falsy message gives `Unknown error`, a non-empty string message gives itself |
| ControlProtocol.Classify | script.js:171-190 | one entry per frame: success exactly for `audio.created` and for `text.created` with a printable text; info exactly for any other printable type; error for a parse failure, an unreadable type, the `error` type, and a text or type that cannot be printed |
| ControlProtocol.ClassifyText | script.js:175-177 | a `text.created` frame whose `text` is a string is logged as `AI: ` followed by its text |
| ControlProtocol.ClassifyAudio | script.js:181-183 | an `audio.created` frame is logged as `Received audio response` at success level |
| ControlProtocol.ClassifyErrorMessage | script.js:178-180 | an `error` frame whose `error.message` is a non-empty string is logged as `Error: ` and that message |
| ControlProtocol.ClassifyErrorUnknown | script.js:178-180 | an `error` frame whose `error` is missing or not an object, or has no truthy `message`, is logged as `Error: Unknown error` |
| ControlProtocol.ClassifyUnprintable | script.js:171-190 | a `text`, a `type` or an `error.message` that is an object with its own `toString` makes the handler throw, and the catch logs `Error parsing message: Cannot convert object to primitive value` |
| ControlProtocol.ClassifyOther | script.js:184-185 | any other type is logged at info level as `Received event: ` and the type |
| ControlProtocol.ClassifyMalformed | script.js:187-189 | a frame that fails to parse gives one error entry carrying the parser's message |
| Session.AddTracks | script.js:119-121 | one `addTrack` per track of the stream, in order |
| Session.StopTracks | script.js:199 | one `stop` per track, in order |
| Session.GetEphemeralToken | script.js:79-87 | the credential step calls the credential endpoint once and changes nothing but the calls and the log, which stays consistent |
| Session.SetupAudioStreams | script.js:110-123 | the step succeeds exactly when the capture does; it stores the captured stream, keeps the old one on failure, and changes nothing else but calls and log |
| Session.SetupDataChannel | script.js:125-134 | the step creates one `oai-events` channel, stores its handle and changes nothing else |
| Session.CreateAndSendOffer | script.js:136-157 | the offer step changes nothing but the calls and the log, which stays consistent |
| Session.SetupWebRTCConnection | script.js:89-108 | the setup always stores the new peer connection, leaves the buttons alone and keeps the log consistent |
| Session.StartAttempt | script.js:68-70 | the awaited part of a start leaves the buttons alone and keeps the log consistent |
| Session.InitializeSession | script.js:64-77 | after a start the buttons are opposite and the log is consistent |
| Session.SendInitialPrompt | script.js:159-169 | sending the greeting changes nothing but the calls and the log, which stays consistent |
| Session.OnDataChannelOpen | script.js:128-131 | the open handler changes nothing but the calls and the log, which stays consistent |
| Session.HandleDataChannelMessage | script.js:171-190 | the message handler changes nothing but the log; on a consistent log it puts the frame's classification in front and keeps it consistent |
| Session.OnRemoteTrack | script.js:111-116 | the track handler plays the remote stream, as its only call, and changes nothing else but the log |
| Session.Cleanup | script.js:195-215 | cleanup leaves all three handles null, start enabled, stop disabled and the log consistent |
| SessionProperties.TokenStep | script.js:79-87 | the credential step calls the credential endpoint only; it succeeds exactly when the response is ok with a body holding `client_secret`, and then yields `client_secret.value` |
| SessionProperties.AttemptWithoutToken | script.js:68-69 | when no credential is issued, the start's awaited steps stop after the credential step, with a failure |
| SessionProperties.AttemptWithToken | script.js:68-69 | when a credential is issued, the connection setup runs with that token |
| SessionProperties.OfferCalls | script.js:136-157 | the offer step makes the first 1, 2, 3 or 4 calls of create-offer, set-local, POST, set-remote: 1 when the offer fails, 2 when the local description fails or the token cannot be printed, 3 when the POST rejects, its body is unreadable or its status is not ok, 4 otherwise |
| SessionProperties.OfferInOrder | script.js:136-157 | the offer step adds only calls of its four stages, in that order |
| SessionProperties.AudioInOrder | script.js:118-121 | audio capture comes before every `addTrack`, and the step makes no other call |
| SessionProperties.ConnectionInOrder | script.js:89-108 | the connection setup first creates the peer connection, then keeps to the order audio, tracks, channel, offer, local, POST, remote, each stage at most once |
| SessionProperties.AttemptInOrder | script.js:68-69 | a start's awaited steps fetch the credential first, then keep to the setup order |
| SessionProperties.StartConcludes | script.js:64-77 | a start ends with the attempt's handles and calls; success logs `Session initialized successfully` and leaves the controls running; failure logs the reason and re-enables start |
| SessionProperties.StartInSetupOrder | script.js:64-157 | every call of a start is a setup call, made in setup order (credential, peer connection, capture, tracks, channel, offer, local description, POST, remote description), each stage at most once |
| SessionProperties.ConnectionOnlyWithCredential | script.js:64-87 | a start creates a peer connection, right after the credential fetch, exactly when a credential was issued; otherwise the fetch is its only call |
| SessionProperties.CredentialRejected | script.js:64-82 | a non-ok credential response: only the fetch is called, the handles are unchanged, start is re-enabled and stop disabled, and the log gains the start entry and `Session initialization failed: Failed to obtain session token` |
| SessionProperties.OfferOutcome | script.js:136-157 | the offer step succeeds exactly when it set the remote description last and that succeeded |
| SessionProperties.ConnectionOutcome | script.js:89-108 | the connection setup succeeds exactly when it set the remote description last and that succeeded |
| SessionProperties.AttemptOutcome | script.js:68-69 | a start's awaited steps succeed exactly when they set the remote description last and that succeeded |
| SessionProperties.StartOutcome | script.js:64-77 | after a start the buttons are opposite, and start is disabled exactly when the remote description was set last and succeeded |
| SessionProperties.ControlsReflectOutcome | script.js:64-77 | after a start the buttons are opposite, and start is disabled exactly when a remote description was set during the start and succeeded |
| SessionProperties.AttemptSignalingRejected | script.js:150-152 | with a printable token, a non-ok signaling response fails the attempt with `API request failed: ` and the body, right after the POST, with all three handles set |
| SessionProperties.SignalingRejected | script.js:64-157 | with a printable token and a non-ok signaling response the remote description is never set, the failure is logged with the body, the controls are reset, and the peer connection, channel and stream stay set |
| SessionProperties.ConnectionSucceeds | script.js:89-108 | when every step succeeds and the token can be printed, the setup makes exactly the planned calls and sets all three handles |
| SessionProperties.OfferSucceeds | script.js:136-157 | when every step succeeds and the token can be printed, the offer step makes its four calls, with the answer body as remote description, and changes nothing but calls and log |
| SessionProperties.UnprintableTokenStopsOffer | script.js:138-145 | a token that cannot be printed into the authorization header fails the offer step with the conversion error after the local description, before any POST |
| SessionProperties.CaptureRejected | script.js:89-123 | a failed capture ends the setup with its error: only the peer connection and the capture are called, and no channel or stream is stored |
| SessionProperties.ConnectionShape | script.js:89-157 | once the capture succeeds, the setup stores the stream and the channel, and its calls are exactly the peer connection, the capture, every `addTrack`, the channel creation, then the offer step's calls up to the first failing one |
| SessionProperties.StartKeepsAcquired | script.js:64-77 | a start with an issued credential and a successful capture keeps the peer connection, the stream and the channel, however the offer exchange ends; the catch does not release them |
| SessionProperties.SuccessfulStart | script.js:64-157 | a start in which every step succeeds and the issued token can be printed makes exactly the credential fetch and the setup calls, with the issued token as bearer, sets all handles, leaves the controls running, and logs success last |
| SessionProperties.ReleasesCover | script.js:198-211 | releasing calls only stop and close, and covers every track of a present stream, a present channel and a present connection |
| SessionProperties.CleanupCalls | script.js:195-215 | cleanup appends exactly the releases of the present handles to the trace |
| SessionProperties.CleanupReleasesAll | script.js:195-215 | from any state cleanup leaves all three handles null and the controls reset; it stops every track, closes the present channel and connection, and makes no other call |
| SessionProperties.CleanupLogs | script.js:195-215 | cleanup logs `Cleaning up session...` and then `Session ended` |
| SessionProperties.CleanupIdempotent | script.js:195-215 | a second cleanup changes nothing except adding its two log entries again |
| SessionProperties.FrameOnlyLogs | script.js:171-190 | a frame changes nothing but the log; on a consistent log it puts its classification in front, keeps the log consistent with min(count+1, 100) entries and keeps the older entries in order, dropping only the oldest at capacity |
| SessionProperties.MalformedFrame | script.js:187-189 | a frame that does not parse adds exactly one error entry in front of a consistent log; handles, controls and calls are unchanged |
| SessionProperties.GreetingOncePerOpen | script.js:128-131 | each open event sends the exact greeting once on the current channel, and changes no handle |
| SessionProperties.Dispatch | script.js:223-224 | every click or callback keeps the log consistent and the buttons opposite |
| SessionProperties.RunKeepsConsistent | script.js:223-224 | over any sequence of clicks and callbacks, the log holds at most 100 entries, as many as its count, and the buttons stay opposite |
| SessionProperties.InitialIsConsistent | script.js:11-16 | page load has no handles, an empty log with count 0, start enabled and stop disabled, and is consistent |
| SessionProperties.StopClickReleases | script.js:224 | a click on the enabled stop button leaves no session handle and disables stop |
| Controller.SessionController.constructor | script.js:11-16 | the object starts in the page-load state, which is consistent |
| Controller.SessionController.Log | script.js:44-58 | inserting in front and removing the last child once the count passes 100 is the log step; a consistent log stays consistent |
| Controller.SessionController.ToggleControls | script.js:217-220 | start is disabled exactly when the session is active, stop exactly when it is not |
| Controller.SessionController.GetEphemeralToken | script.js:79-87 | the in-place credential step leaves the state and result of `Session.GetEphemeralToken` |
| Controller.SessionController.SetupAudioStreams | script.js:110-123 | the capture and the track-by-track `addTrack` loop leave the state and result of `Session.SetupAudioStreams` |
| Controller.SessionController.SetupDataChannel | script.js:125-134 | creating the `oai-events` channel stores its handle |
| Controller.SessionController.CreateAndSendOffer | script.js:136-157 | the in-place offer step leaves the state and result of `Session.CreateAndSendOffer` |
| Controller.SessionController.SetupWebRTCConnection | script.js:89-108 | the in-place connection setup leaves the state and result of `Session.SetupWebRTCConnection` |
| Controller.SessionController.InitializeSession | script.js:64-77 | the start handler leaves the state of `Session.InitializeSession`, so every start property above holds of it |
| Controller.SessionController.SendInitialPrompt | script.js:159-169 | sends the greeting on the current channel and logs it; with no channel nothing happens |
| Controller.SessionController.OnDataChannelOpen | script.js:128-131 | the open handler logs, then sends the greeting |
| Controller.SessionController.HandleDataChannelMessage | script.js:171-190 | the message handler adds the frame's classification to the log |
| Controller.SessionController.OnRemoteTrack | script.js:111-116 | the track handler logs and plays the remote stream |
| Controller.SessionController.StopLocalTracks | script.js:198-201 | the `forEach` loop stops every track of the local stream in order, then forgets the stream |
| Controller.SessionController.Cleanup | script.js:195-215 | the stop handler leaves the state of `Session.Cleanup`, so cleanup is total and idempotent on the object |
| Controller.SessionController.Handle | script.js:223-224 | delivering an event is `Dispatch`, and the object's invariant (consistent log, opposite buttons) survives it |

## Left out

- `server.js`, the credential proxy, is not part of this model. It is network I/O with no logic of its own; its response is an input.
- DOM work is not modelled: element creation, markup, `scrollIntoView`, timestamps from `toLocaleTimeString`, and `console` output. A log entry is its message and level only.
- The connection, ICE and gathering state observers (script.js:93-103) are not modelled. They only log whatever the browser reports.
- Asynchronous interleaving is not modelled, for example a stop click while a start is still awaiting. Each handler runs to completion, and a start is one sequential run.
- Browser and network behaviour is not modelled: WebRTC, `getUserMedia`, `Audio.play` and SDP contents. Handles are opaque, and each awaited step's outcome and error message are inputs.
- `new RTCPeerConnection()` and `createDataChannel` are taken never to throw.
- The track event's `streams[0]` is taken as given.
- `addTrack` is taken never to throw. A stream that lists the same track twice would make the second call throw (script.js:120); the model records both calls.
- The status element is taken to start with no child nodes, so the count equals the number of entries. Whitespace text nodes in the page's markup would make `lastChild` remove one of them instead of an entry (script.js:53).
- The remote audio element's own state is not modelled; playing it is a recorded call.
- The initial state of the two buttons comes from the page's markup, which is not part of this model. Page load is taken to have start enabled and stop disabled.
- A click on a disabled button does not reach the handlers; the model states this browser behaviour in `Dispatch`.
- `Js.Get` and `Js.Render`: the TypeError message texts (`TypeErrorMessage`, `CONVERSION_FAILED`) follow one engine's wording (V8's). Other engines word these errors differently.
- Property access reads only a value's own data properties. Numbers, booleans and arrays are one abstract `Prim` value, since the controller reads no property of them.
- `Js.Render`: the text of a number, boolean or array is taken as given, and always printable. An array holding an object with its own `toString` would also throw when printed.
- `ControlProtocol.EscapeChar`: the escaping of lone surrogates by `JSON.stringify` is not modelled, because the greeting has none.
- `Session.SendInitialPrompt`: with no data channel the `send` throws out of the open handler. The model states that nothing further happens, not the uncaught error.
