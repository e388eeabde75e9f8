/**
 * The session controller as pure step functions over a snapshot of its
 * state. Browser objects are opaque handles; every call the controller makes
 * into the browser or the network is appended to a trace, so that the order
 * of the setup steps can be stated; every asynchronous step's outcome,
 * success or failure, is an input held in an Environment.
 */
module Session {
  import opened Js
  import opened StatusLog
  import opened ControlProtocol

  // ---------------------------------------------------------------------------
  // Configuration
  // ---------------------------------------------------------------------------

  const SERVER_URL := "http://localhost:3000/session"
  const MODEL := "gpt-4o-realtime-preview-2024-12-17"
  const API_BASE_URL := "https://api.openai.com/v1/realtime"
  const CHANNEL_LABEL := "oai-events"

  /** The signaling endpoint the offer is posted to. */
  function SignalingUrl(): string {
    API_BASE_URL + "?model=" + MODEL
  }

  // ---------------------------------------------------------------------------
  // Opaque browser handles
  // ---------------------------------------------------------------------------

  datatype PeerConnection = PeerConnection(id: nat)
  datatype DataChannel = DataChannel(id: nat)
  datatype Track = Track(id: nat)
  /** A captured local audio stream and the tracks getTracks() lists for it. */
  datatype MediaStream = MediaStream(id: nat, tracks: seq<Track>)

  /** A call the controller makes into the browser or the network. */
  datatype Call =
    | FetchToken(url: string)
    | NewPeerConnection(pc: PeerConnection)
    | GetUserMedia
    | AddTrack(track: Track, stream: MediaStream)
    | CreateDataChannel(name: string)
    | CreateOffer
    | SetLocalDescription(sdp: string)
    | PostOffer(url: string, sdp: string, authorization: string)
    | SetRemoteDescription(sdp: string)
    | Send(channel: DataChannel, text: string)
    | PlayRemoteAudio(stream: MediaStream)
    | StopTrack(track: Track)
    | CloseDataChannel(channel: DataChannel)
    | ClosePeerConnection(pc: PeerConnection)

  /** A fetch response: its ok flag and what reading its body as JSON or as text gives. */
  datatype Response = Response(ok: bool, json: Outcome<JsValue>, text: Outcome<string>)

  /**
   * What the browser and the network do during one initialisation: the
   * outcome of every awaited step, and the handles the constructors return.
   */
  datatype Environment = Environment(
    tokenFetch: Outcome<Response>,
    peer: PeerConnection,
    userMedia: Outcome<MediaStream>,
    channel: DataChannel,
    offer: Outcome<string>,
    setLocal: Outcome<()>,
    signalingFetch: Outcome<Response>,
    setRemote: Outcome<()>)

  // ---------------------------------------------------------------------------
  // Controller state
  // ---------------------------------------------------------------------------

  /**
   * The three nullable session handles, the status log (its entries and its
   * count), the disabled flags of the two buttons, and the calls made so far.
   */
  datatype State = State(
    peerConnection: Option<PeerConnection>,
    dataChannel: Option<DataChannel>,
    audioStream: Option<MediaStream>,
    log: LogState,
    startDisabled: bool,
    stopDisabled: bool,
    calls: seq<Call>)

  datatype Option<+T> = None | Some(value: T)

  /** A state after a step that may throw, with the step's result. */
  datatype Stepped<+T> = Stepped(state: State, result: Outcome<T>)

  /** Page load: no session, an empty log, start enabled and stop disabled. */
  function Initial(): State {
    State(None, None, None, StatusLog.Empty, false, true, [])
  }

  // ---------------------------------------------------------------------------
  // Status messages
  // ---------------------------------------------------------------------------

  const INITIALIZING := "Initializing session..."
  const TOKEN_FAILED := "Failed to obtain session token"
  const TOKEN_OBTAINED := "Obtained ephemeral token"
  const PEER_CREATED := "Created peer connection"
  const AUDIO_ADDED := "Added local audio stream"
  const LOCAL_SET := "Created and set local description"
  const API_FAILED := "API request failed: "
  const REMOTE_SET := "Set remote description"
  const INITIALIZED := "Session initialized successfully"
  const INIT_FAILED := "Session initialization failed: "
  const PROMPT_SENT := "Sent initial prompt"
  const CHANNEL_OPENED := "Data channel opened"
  const REMOTE_AUDIO := "Received remote audio stream"
  const CLEANING_UP := "Cleaning up session..."
  const SESSION_ENDED := "Session ended"
  const BEARER := "Bearer "

  const CLIENT_SECRET_KEY := "client_secret"
  const VALUE_KEY := "value"

  // ---------------------------------------------------------------------------
  // Steps
  // ---------------------------------------------------------------------------

  function Log(s: State, message: string, level: Level): State {
    s.(log := Insert(s.log, Entry(message, level)))
  }

  function ToggleControls(s: State, isSessionActive: bool): State {
    s.(startDisabled := isSessionActive, stopDisabled := !isSessionActive)
  }

  function AddCall(s: State, c: Call): State {
    s.(calls := s.calls + [c])
  }

  /** One addTrack call per track of `stream`, in order. */
  function AddTracks(tracks: seq<Track>, stream: MediaStream): (r: seq<Call>)
    ensures |r| == |tracks|
    ensures forall k :: 0 <= k < |tracks| ==> r[k] == AddTrack(tracks[k], stream)
  {
    if tracks == [] then [] else [AddTrack(tracks[0], stream)] + AddTracks(tracks[1..], stream)
  }

  /** One stop call per track, in order. */
  function StopTracks(tracks: seq<Track>): (r: seq<Call>)
    ensures |r| == |tracks|
    ensures forall k :: 0 <= k < |tracks| ==> r[k] == StopTrack(tracks[k])
  {
    if tracks == [] then [] else [StopTrack(tracks[0])] + StopTracks(tracks[1..])
  }

  /**
   * Fetches the credential; a rejected fetch, a non-ok status, an unreadable
   * body or a missing `client_secret` fails the step. The token is
   * `client_secret.value`, whatever it is.
   */
  function GetEphemeralToken(s: State, fetch: Outcome<Response>): (r: Stepped<JsValue>)
    ensures r.state.calls == s.calls + [FetchToken(SERVER_URL)]
    ensures r.state.(calls := s.calls, log := s.log) == s
    ensures Valid(s.log) ==> Valid(r.state.log)
  {
    var s1 := AddCall(s, FetchToken(SERVER_URL));
    match fetch
    case Fail(reason) => Stepped(s1, Fail(reason))
    case Ok(response) =>
      if !response.ok then Stepped(s1, Fail(TOKEN_FAILED))
      else match response.json
        case Fail(reason) => Stepped(s1, Fail(reason))
        case Ok(data) =>
          var s2 := Log(s1, TOKEN_OBTAINED, Info);
          match Get(data, CLIENT_SECRET_KEY)
          case Fail(reason) => Stepped(s2, Fail(reason))
          case Ok(secret) =>
            match Get(secret, VALUE_KEY)
            case Fail(reason) => Stepped(s2, Fail(reason))
            case Ok(token) => Stepped(s2, Ok(token))
  }

  /** Captures local audio and adds each of its tracks to the peer connection. */
  function SetupAudioStreams(s: State, userMedia: Outcome<MediaStream>): (r: Stepped<()>)
    ensures r.result.Ok? <==> userMedia.Ok?
    ensures r.state.audioStream == if userMedia.Ok? then Some(userMedia.value) else s.audioStream
    ensures r.state.(calls := s.calls, log := s.log, audioStream := s.audioStream) == s
    ensures Valid(s.log) ==> Valid(r.state.log)
  {
    var s1 := AddCall(s, GetUserMedia);
    match userMedia
    case Fail(reason) => Stepped(s1, Fail(reason))
    case Ok(stream) =>
      var s2 := s1.(audioStream := Some(stream), calls := s1.calls + AddTracks(stream.tracks, stream));
      Stepped(Log(s2, AUDIO_ADDED, Info), Ok(()))
  }

  /** Creates the control channel; its open and message handlers are registered here. */
  function SetupDataChannel(s: State, channel: DataChannel): (r: State)
    ensures r.dataChannel == Some(channel) && r.calls == s.calls + [CreateDataChannel(CHANNEL_LABEL)]
    ensures r.(calls := s.calls, dataChannel := s.dataChannel) == s
  {
    AddCall(s, CreateDataChannel(CHANNEL_LABEL)).(dataChannel := Some(channel))
  }

  /**
   * Creates and commits the offer, posts it with the token as bearer
   * authorization, and commits the answer; a non-ok response fails with its
   * body as detail.
   */
  function CreateAndSendOffer(s: State, token: JsValue, env: Environment): (r: Stepped<()>)
    ensures r.state.(calls := s.calls, log := s.log) == s
    ensures Valid(s.log) ==> Valid(r.state.log)
  {
    var s1 := AddCall(s, CreateOffer);
    match env.offer
    case Fail(reason) => Stepped(s1, Fail(reason))
    case Ok(sdp) =>
      var s2 := AddCall(s1, SetLocalDescription(sdp));
      match env.setLocal
      case Fail(reason) => Stepped(s2, Fail(reason))
      case Ok(_) =>
        var s3 := Log(s2, LOCAL_SET, Info);
        match Render(token)
        case Fail(reason) => Stepped(s3, Fail(reason))
        case Ok(printed) =>
          var s4 := AddCall(s3, PostOffer(SignalingUrl(), sdp, BEARER + printed));
          match env.signalingFetch
          case Fail(reason) => Stepped(s4, Fail(reason))
          case Ok(response) =>
            match response.text
            case Fail(reason) => Stepped(s4, Fail(reason))
            case Ok(body) =>
              if !response.ok then Stepped(s4, Fail(API_FAILED + body))
              else
                var s5 := AddCall(s4, SetRemoteDescription(body));
                match env.setRemote
                case Fail(reason) => Stepped(s5, Fail(reason))
                case Ok(_) => Stepped(Log(s5, REMOTE_SET, Info), Ok(()))
  }

  /** Peer connection, then audio, then data channel, then offer/answer. */
  function SetupWebRTCConnection(s: State, token: JsValue, env: Environment): (r: Stepped<()>)
    ensures r.state.peerConnection == Some(env.peer)
    ensures r.state.startDisabled == s.startDisabled && r.state.stopDisabled == s.stopDisabled
    ensures Valid(s.log) ==> Valid(r.state.log)
  {
    var s1 := AddCall(s, NewPeerConnection(env.peer)).(peerConnection := Some(env.peer));
    var s2 := Log(s1, PEER_CREATED, Info);
    var audio := SetupAudioStreams(s2, env.userMedia);
    if audio.result.Fail? then audio
    else CreateAndSendOffer(SetupDataChannel(audio.state, env.channel), token, env)
  }

  /** The awaited steps of the start handler: the credential, then the connection. */
  function StartAttempt(s: State, env: Environment): (r: Stepped<()>)
    ensures r.state.startDisabled == s.startDisabled && r.state.stopDisabled == s.stopDisabled
    ensures Valid(s.log) ==> Valid(r.state.log)
  {
    var credential := GetEphemeralToken(s, env.tokenFetch);
    if credential.result.Fail? then Stepped(credential.state, Fail(credential.result.reason))
    else SetupWebRTCConnection(credential.state, credential.result.value, env)
  }

  /**
   * The start button's handler, run to completion. The controls flip to
   * "session running" first; any failure is logged and flips them back,
   * without releasing what was acquired.
   */
  function InitializeSession(s: State, env: Environment): (r: State)
    ensures r.startDisabled == !r.stopDisabled
    ensures Valid(s.log) ==> Valid(r.log)
  {
    var attempt := StartAttempt(ToggleControls(Log(s, INITIALIZING, Info), true), env);
    match attempt.result
    case Ok(_) => Log(attempt.state, INITIALIZED, Success)
    case Fail(reason) => ToggleControls(Log(attempt.state, INIT_FAILED + reason, Error), false)
  }

  /** Sends the greeting on the current data channel; with none, the send throws and nothing follows. */
  function SendInitialPrompt(s: State): (r: State)
    ensures r.(calls := s.calls, log := s.log) == s
    ensures Valid(s.log) ==> Valid(r.log)
  {
    match s.dataChannel
    case None => s
    case Some(channel) => Log(AddCall(s, Send(channel, GreetingText())), PROMPT_SENT, Info)
  }

  /** The data channel's open handler. */
  function OnDataChannelOpen(s: State): (r: State)
    ensures r.(calls := s.calls, log := s.log) == s
    ensures Valid(s.log) ==> Valid(r.log)
  {
    SendInitialPrompt(Log(s, CHANNEL_OPENED, Info))
  }

  /** The data channel's message handler: one log entry per frame. */
  function HandleDataChannelMessage(s: State, frame: Parsed): (r: State)
    ensures r.(log := s.log) == s
    ensures Valid(s.log) ==> Valid(r.log) && |r.log.entries| > 0 && r.log.entries[0] == Classify(frame)
  {
    var e := Classify(frame);
    Log(s, e.message, e.level)
  }

  /** The peer connection's track handler: plays the remote stream. */
  function OnRemoteTrack(s: State, stream: MediaStream): (r: State)
    ensures r.calls == s.calls + [PlayRemoteAudio(stream)]
    ensures r.(calls := s.calls, log := s.log) == s
    ensures Valid(s.log) ==> Valid(r.log)
  {
    AddCall(Log(s, REMOTE_AUDIO, Info), PlayRemoteAudio(stream))
  }

  /** The stop button's handler: releases whichever handles are present. */
  function Cleanup(s: State): (r: State)
    ensures r.peerConnection == None && r.dataChannel == None && r.audioStream == None
    ensures !r.startDisabled && r.stopDisabled
    ensures Valid(s.log) ==> Valid(r.log)
  {
    var s1 := Log(s, CLEANING_UP, Info);
    var s2 :=
      if s1.audioStream.Some? then
        s1.(calls := s1.calls + StopTracks(s1.audioStream.value.tracks), audioStream := None)
      else s1;
    var s3 :=
      if s2.dataChannel.Some? then
        AddCall(s2, CloseDataChannel(s2.dataChannel.value)).(dataChannel := None)
      else s2;
    var s4 :=
      if s3.peerConnection.Some? then
        AddCall(s3, ClosePeerConnection(s3.peerConnection.value)).(peerConnection := None)
      else s3;
    Log(ToggleControls(s4, false), SESSION_ENDED, Info)
  }
}
