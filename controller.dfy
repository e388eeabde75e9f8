/**
 * The session controller as the page runs it: one object whose fields are the
 * three nullable session handles, the status list and its count, the disabled
 * flags of the two buttons, and the calls made into the browser so far. Each
 * handler updates those fields in place; each is proved to leave the object
 * in the state the matching step function of module Session computes, so
 * every property proved about the step functions holds of the object.
 */
module Controller {
  import opened Js
  import opened StatusLog
  import opened ControlProtocol
  import opened Session
  import opened SessionProperties

  class SessionController {
    var peerConnection: Option<PeerConnection>
    var dataChannel: Option<DataChannel>
    var audioStream: Option<MediaStream>
    /** The children of the status element, newest first. */
    var entries: seq<Entry>
    var logCount: int
    var startDisabled: bool
    var stopDisabled: bool
    var calls: seq<Call>

    /** The object's fields as a State value. */
    function View(): State
      reads this
    {
      State(peerConnection, dataChannel, audioStream, LogState(entries, logCount),
            startDisabled, stopDisabled, calls)
    }

    /** Page load. */
    constructor ()
      ensures View() == Initial()
      ensures Consistent(View())
    {
      peerConnection, dataChannel, audioStream := None, None, None;
      entries, logCount := [], 0;
      startDisabled, stopDisabled := false, true;
      calls := [];
      new;
      InitialIsConsistent();
    }

    /** Puts a new entry on top of the list and drops the bottom one once the count passes the capacity. */
    method Log(message: string, level: Level)
      modifies this
      ensures View() == Session.Log(old(View()), message, level)
      ensures Valid(old(View()).log) ==> Valid(View().log)
    {
      entries := [Entry(message, level)] + entries;
      logCount := logCount + 1;
      if logCount > MAX_LOG_ENTRIES {
        // the list holds at least the entry just inserted
        entries := entries[..|entries| - 1];
        logCount := logCount - 1;
      }
    }

    method ToggleControls(isSessionActive: bool)
      modifies this
      ensures View() == Session.ToggleControls(old(View()), isSessionActive)
      ensures startDisabled == isSessionActive && stopDisabled == !isSessionActive
    {
      startDisabled := isSessionActive;
      stopDisabled := !isSessionActive;
    }

    method GetEphemeralToken(fetch: Outcome<Response>) returns (result: Outcome<JsValue>)
      modifies this
      ensures Stepped(View(), result) == Session.GetEphemeralToken(old(View()), fetch)
    {
      calls := calls + [FetchToken(SERVER_URL)];
      if fetch.Fail? {
        return Fail(fetch.reason);
      }
      var response := fetch.value;
      if !response.ok {
        return Fail(TOKEN_FAILED);
      }
      if response.json.Fail? {
        return Fail(response.json.reason);
      }
      var data := response.json.value;
      Log(TOKEN_OBTAINED, Info);
      var secret := Get(data, CLIENT_SECRET_KEY);
      if secret.Fail? {
        return Fail(secret.reason);
      }
      result := Get(secret.value, VALUE_KEY);
    }

    /** Captures the microphone and adds its tracks to the peer connection one at a time. */
    method SetupAudioStreams(userMedia: Outcome<MediaStream>) returns (result: Outcome<()>)
      modifies this
      ensures Stepped(View(), result) == Session.SetupAudioStreams(old(View()), userMedia)
    {
      calls := calls + [GetUserMedia];
      if userMedia.Fail? {
        return Fail(userMedia.reason);
      }
      var stream := userMedia.value;
      audioStream := Some(stream);
      ghost var before, pre := calls, View();
      var tracks := stream.tracks;
      for i := 0 to |tracks|
        invariant |calls| == |before| + i
        invariant calls[..|before|] == before
        invariant forall k :: 0 <= k < i ==> calls[|before| + k] == AddTrack(tracks[k], stream)
        invariant View() == pre.(calls := calls)
      {
        calls := calls + [AddTrack(tracks[i], stream)];
      }
      assert calls == before + AddTracks(tracks, stream);
      Log(AUDIO_ADDED, Info);
      result := Ok(());
    }

    method SetupDataChannel(channel: DataChannel)
      modifies this
      ensures View() == Session.SetupDataChannel(old(View()), channel)
    {
      calls := calls + [CreateDataChannel(CHANNEL_LABEL)];
      dataChannel := Some(channel);
    }

    method CreateAndSendOffer(token: JsValue, env: Environment) returns (result: Outcome<()>)
      modifies this
      ensures Stepped(View(), result) == Session.CreateAndSendOffer(old(View()), token, env)
    {
      calls := calls + [CreateOffer];
      if env.offer.Fail? {
        return Fail(env.offer.reason);
      }
      var sdp := env.offer.value;
      calls := calls + [SetLocalDescription(sdp)];
      if env.setLocal.Fail? {
        return Fail(env.setLocal.reason);
      }
      Log(LOCAL_SET, Info);
      var printed := Render(token);
      if printed.Fail? {
        return Fail(printed.reason);
      }
      calls := calls + [PostOffer(SignalingUrl(), sdp, BEARER + printed.value)];
      if env.signalingFetch.Fail? {
        return Fail(env.signalingFetch.reason);
      }
      var response := env.signalingFetch.value;
      if response.text.Fail? {
        return Fail(response.text.reason);
      }
      var body := response.text.value;
      if !response.ok {
        return Fail(API_FAILED + body);
      }
      calls := calls + [SetRemoteDescription(body)];
      if env.setRemote.Fail? {
        return Fail(env.setRemote.reason);
      }
      Log(REMOTE_SET, Info);
      result := Ok(());
    }

    method SetupWebRTCConnection(token: JsValue, env: Environment) returns (result: Outcome<()>)
      modifies this
      ensures Stepped(View(), result) == Session.SetupWebRTCConnection(old(View()), token, env)
    {
      calls := calls + [NewPeerConnection(env.peer)];
      peerConnection := Some(env.peer);
      Log(PEER_CREATED, Info);
      result := SetupAudioStreams(env.userMedia);
      if result.Fail? {
        return;
      }
      SetupDataChannel(env.channel);
      result := CreateAndSendOffer(token, env);
    }

    /** The start button's handler: any failure is logged and flips the controls back. */
    method InitializeSession(env: Environment)
      modifies this
      ensures View() == Session.InitializeSession(old(View()), env)
    {
      Log(INITIALIZING, Info);
      ToggleControls(true);
      ghost var begun := View();
      var attempt: Outcome<()>;
      var credential := GetEphemeralToken(env.tokenFetch);
      if credential.Fail? {
        attempt := Fail(credential.reason);
      } else {
        attempt := SetupWebRTCConnection(credential.value, env);
      }
      assert Stepped(View(), attempt) == StartAttempt(begun, env);
      match attempt
      case Ok(_) =>
        Log(INITIALIZED, Success);
      case Fail(reason) =>
        Log(INIT_FAILED + reason, Error);
        ToggleControls(false);
    }

    method SendInitialPrompt()
      modifies this
      ensures View() == Session.SendInitialPrompt(old(View()))
    {
      if dataChannel.Some? {
        calls := calls + [Send(dataChannel.value, GreetingText())];
        Log(PROMPT_SENT, Info);
      }
    }

    method OnDataChannelOpen()
      modifies this
      ensures View() == Session.OnDataChannelOpen(old(View()))
    {
      Log(CHANNEL_OPENED, Info);
      SendInitialPrompt();
    }

    method HandleDataChannelMessage(frame: Parsed)
      modifies this
      ensures View() == Session.HandleDataChannelMessage(old(View()), frame)
    {
      var e := Classify(frame);
      Log(e.message, e.level);
    }

    method OnRemoteTrack(stream: MediaStream)
      modifies this
      ensures View() == Session.OnRemoteTrack(old(View()), stream)
    {
      Log(REMOTE_AUDIO, Info);
      calls := calls + [PlayRemoteAudio(stream)];
    }

    /** Stops the tracks of the local stream one at a time and forgets the stream. */
    method StopLocalTracks()
      requires audioStream.Some?
      modifies this
      ensures View() == old(View()).(calls := old(calls) + StopTracks(old(audioStream).value.tracks),
                                     audioStream := None)
    {
      var tracks := audioStream.value.tracks;
      ghost var before, pre := calls, View();
      for i := 0 to |tracks|
        invariant View() == pre.(calls := calls)
        invariant |calls| == |before| + i
        invariant calls[..|before|] == before
        invariant forall k :: 0 <= k < i ==> calls[|before| + k] == StopTrack(tracks[k])
      {
        calls := calls + [StopTrack(tracks[i])];
      }
      assert calls == before + StopTracks(tracks);
      audioStream := None;
    }

    /** The stop button's handler: stops every local track, then closes the channel and the connection. */
    method Cleanup()
      modifies this
      ensures View() == Session.Cleanup(old(View()))
    {
      Log(CLEANING_UP, Info);
      if audioStream.Some? {
        StopLocalTracks();
      }
      if dataChannel.Some? {
        calls := calls + [CloseDataChannel(dataChannel.value)];
        dataChannel := None;
      }
      if peerConnection.Some? {
        calls := calls + [ClosePeerConnection(peerConnection.value)];
        peerConnection := None;
      }
      ToggleControls(false);
      Log(SESSION_ENDED, Info);
    }

    /**
     * Delivers one page event; a click on a disabled button does nothing.
     * The controller's invariant survives every event.
     */
    method Handle(e: Event)
      modifies this
      ensures View() == Dispatch(old(View()), e)
      ensures Consistent(old(View())) ==> Consistent(View())
    {
      match e {
        case ClickStart(env) =>
          if !startDisabled {
            InitializeSession(env);
          }
        case ClickStop =>
          if !stopDisabled {
            Cleanup();
          }
        case ChannelOpen =>
          OnDataChannelOpen();
        case ChannelMessage(frame) =>
          HandleDataChannelMessage(frame);
        case RemoteTrack(stream) =>
          OnRemoteTrack(stream);
      }
    }
  }
}
