/**
 * What the session controller guarantees, stated over the step functions of
 * module Session: the order of the setup calls, that no connection is made
 * without a credential, what a failed start leaves behind, that cleanup is
 * total and idempotent, that inbound frames only add to the log, that the
 * greeting is sent once per open event, and that the log stays bounded over
 * any sequence of user and browser events.
 */
module SessionProperties {
  import opened Js
  import opened StatusLog
  import opened ControlProtocol
  import opened Session

  // ---------------------------------------------------------------------------
  // Traces in setup order
  // ---------------------------------------------------------------------------

  /** The stage of a call in the setup sequence; calls that are not setup calls come last. */
  function Rank(c: Call): nat {
    match c
    case FetchToken(_) => 0
    case NewPeerConnection(_) => 1
    case GetUserMedia => 2
    case AddTrack(_, _) => 3
    case CreateDataChannel(_) => 4
    case CreateOffer => 5
    case SetLocalDescription(_) => 6
    case PostOffer(_, _, _) => 7
    case SetRemoteDescription(_) => 8
    case _ => 9
  }

  /**
   * Each setup call comes strictly after every call of an earlier stage and
   * each stage happens at most once, except that the tracks are added one by one.
   */
  predicate InSetupOrder(t: seq<Call>) {
    forall i, j :: 0 <= i < j < |t| ==> Rank(t[i]) < Rank(t[j]) || (t[i].AddTrack? && t[j].AddTrack?)
  }

  predicate RanksWithin(t: seq<Call>, lo: nat, hi: nat) {
    forall k :: 0 <= k < |t| ==> lo <= Rank(t[k]) <= hi
  }

  /** The calls made going from `s` to `r`. */
  function Added(s: State, r: State): seq<Call>
    requires |s.calls| <= |r.calls|
  {
    r.calls[|s.calls|..]
  }

  /** `r` only appended calls of the stages `lo` to `hi` to the trace of `s`, in setup order. */
  predicate Extends(s: State, r: State, lo: nat, hi: nat) {
    && |s.calls| <= |r.calls|
    && r.calls[..|s.calls|] == s.calls
    && InSetupOrder(Added(s, r))
    && RanksWithin(Added(s, r), lo, hi)
  }

  /** Two traces in setup order, the second of later stages, concatenate to a trace in setup order. */
  lemma OrderedConcat(a: seq<Call>, b: seq<Call>, lo: nat, mid: nat, hi: nat)
    requires lo <= mid + 1 <= hi + 1
    requires InSetupOrder(a) && RanksWithin(a, lo, mid)
    requires InSetupOrder(b) && RanksWithin(b, mid + 1, hi)
    ensures InSetupOrder(a + b) && RanksWithin(a + b, lo, hi)
  {
    forall i, j | 0 <= i < j < |a + b|
      ensures Rank((a + b)[i]) < Rank((a + b)[j]) || ((a + b)[i].AddTrack? && (a + b)[j].AddTrack?)
    {
      if j < |a| {
        assert (a + b)[i] == a[i] && (a + b)[j] == a[j];
      } else if i >= |a| {
        assert (a + b)[i] == b[i - |a|] && (a + b)[j] == b[j - |a|];
      } else {
        assert (a + b)[i] == a[i] && (a + b)[j] == b[j - |a|];
      }
    }
    forall k | 0 <= k < |a + b|
      ensures lo <= Rank((a + b)[k]) <= hi
    {
      if k < |a| {
        assert (a + b)[k] == a[k];
      } else {
        assert (a + b)[k] == b[k - |a|];
      }
    }
  }

  lemma ExtendsTrans(s1: State, s2: State, s3: State, lo: nat, mid: nat, hi: nat)
    requires lo <= mid + 1 <= hi + 1
    requires Extends(s1, s2, lo, mid) && Extends(s2, s3, mid + 1, hi)
    ensures Extends(s1, s3, lo, hi)
  {
    var a, b := Added(s1, s2), Added(s2, s3);
    assert s3.calls == s1.calls + a + b by {
      assert s3.calls == s2.calls + b;
      assert s2.calls == s1.calls + a;
    }
    assert Added(s1, s3) == a + b;
    OrderedConcat(a, b, lo, mid, hi);
  }

  lemma ExtendsByOne(s: State, r: State, c: Call)
    requires r.calls == s.calls + [c]
    ensures Extends(s, r, Rank(c), Rank(c))
  {
    assert Added(s, r) == [c];
  }

  /** Only the two traces matter to Extends. */
  lemma ExtendsSameCalls(s: State, m: State, s': State, r: State, lo: nat, hi: nat)
    requires Extends(s, m, lo, hi) && s'.calls == s.calls && r.calls == m.calls
    ensures Extends(s', r, lo, hi)
  {
    assert Added(s', r) == Added(s, m);
  }

  /** In a trace in setup order, a remote description call can only be the last call. */
  lemma RemoteIsLast(t: seq<Call>)
    requires InSetupOrder(t) && RanksWithin(t, 0, 8)
    ensures forall k :: 0 <= k < |t| - 1 ==> !t[k].SetRemoteDescription?
  {
    forall k | 0 <= k < |t| - 1
      ensures !t[k].SetRemoteDescription?
    {
      assert Rank(t[k]) < Rank(t[k + 1]) || (t[k].AddTrack? && t[k + 1].AddTrack?);
      assert Rank(t[k + 1]) <= 8;
    }
  }

  // ---------------------------------------------------------------------------
  // Setup order, stage by stage
  // ---------------------------------------------------------------------------

  /** The calls an offer step makes when it runs to the end. */
  function OfferPlan(token: JsValue, env: Environment): (plan: seq<Call>)
    ensures |plan| == 4 && forall k :: 0 <= k < 4 ==> Rank(plan[k]) == 5 + k
  {
    var sdp := if env.offer.Ok? then env.offer.value else "";
    var printed := if Render(token).Ok? then Render(token).value else "";
    var answer := if env.signalingFetch.Ok? && env.signalingFetch.value.text.Ok? then env.signalingFetch.value.text.value else "";
    [CreateOffer, SetLocalDescription(sdp), PostOffer(SignalingUrl(), sdp, BEARER + printed), SetRemoteDescription(answer)]
  }

  /** The signaling POST resolved with an ok response whose body could be read. */
  predicate SignalingAccepted(env: Environment) {
    env.signalingFetch.Ok? && env.signalingFetch.value.ok && env.signalingFetch.value.text.Ok?
  }

  /**
   * The offer step makes the calls of its plan in order and stops at the
   * first step that fails: after the offer when creating it fails; after the
   * local description when committing it fails or the token cannot be
   * printed into the authorization header; after the POST when it rejects,
   * its body cannot be read or its status is not ok.
   */
  lemma {:induction false} OfferCalls(s: State, token: JsValue, env: Environment)
    ensures var r := CreateAndSendOffer(s, token, env).state;
            var plan := OfferPlan(token, env);
            && (env.offer.Fail? ==> r.calls == s.calls + plan[..1])
            && (env.offer.Ok? && (env.setLocal.Fail? || !Printable(token)) ==> r.calls == s.calls + plan[..2])
            && (env.offer.Ok? && env.setLocal.Ok? && Printable(token) && !SignalingAccepted(env) ==>
                  r.calls == s.calls + plan[..3])
            && (env.offer.Ok? && env.setLocal.Ok? && Printable(token) && SignalingAccepted(env) ==>
                  r.calls == s.calls + plan[..4])
    ensures var r := CreateAndSendOffer(s, token, env).state;
            exists n :: 1 <= n <= 4 && r.calls == s.calls + OfferPlan(token, env)[..n]
  {
    var plan := OfferPlan(token, env);
    var r := CreateAndSendOffer(s, token, env).state;
    if env.offer.Fail? {
      assert r.calls == s.calls + plan[..1];
    } else if env.setLocal.Fail? || !Printable(token) {
      assert r.calls == s.calls + plan[..2];
    } else if !SignalingAccepted(env) {
      assert r.calls == s.calls + plan[..3];
    } else {
      assert r.calls == s.calls + plan[..4];
    }
  }

  /** A prefix of a plan whose k-th call is of stage 5 + k extends the trace in setup order. */
  lemma PlanPrefixInOrder(s: State, r: State, plan: seq<Call>, n: nat)
    requires n <= |plan| == 4 && forall k :: 0 <= k < 4 ==> Rank(plan[k]) == 5 + k
    requires r.calls == s.calls + plan[..n]
    ensures Extends(s, r, 5, 8)
    ensures |s.calls| + n == |r.calls|
  {
    assert Added(s, r) == plan[..n];
  }

  lemma OfferInOrder(s: State, token: JsValue, env: Environment)
    ensures Extends(s, CreateAndSendOffer(s, token, env).state, 5, 8)
    ensures |s.calls| < |CreateAndSendOffer(s, token, env).state.calls|
  {
    OfferCalls(s, token, env);
    var r := CreateAndSendOffer(s, token, env).state;
    var n :| 1 <= n <= 4 && r.calls == s.calls + OfferPlan(token, env)[..n];
    PlanPrefixInOrder(s, r, OfferPlan(token, env), n);
  }

  lemma {:induction false} AudioInOrder(s: State, userMedia: Outcome<MediaStream>)
    ensures Extends(s, SetupAudioStreams(s, userMedia).state, 2, 3)
  {
    var r := SetupAudioStreams(s, userMedia).state;
    match userMedia
    case Fail(_) =>
      ExtendsByOne(s, r, GetUserMedia);
    case Ok(stream) =>
      var t := [GetUserMedia] + AddTracks(stream.tracks, stream);
      assert r.calls == s.calls + t;
      assert Added(s, r) == t;
      assert forall k :: 1 <= k < |t| ==> t[k].AddTrack?;
  }

  /** The connection setup starts with the peer connection and then keeps to the setup order. */
  lemma {:induction false} ConnectionInOrder(s: State, token: JsValue, env: Environment)
    ensures var r := SetupWebRTCConnection(s, token, env).state;
            && Extends(s, r, 1, 8)
            && |s.calls| < |r.calls|
            && r.calls[|s.calls|] == NewPeerConnection(env.peer)
  {
    var r := SetupWebRTCConnection(s, token, env).state;
    var s2 := Log(AddCall(s, NewPeerConnection(env.peer)).(peerConnection := Some(env.peer)), PEER_CREATED, Info);
    ExtendsByOne(s, s2, NewPeerConnection(env.peer));
    var audio := SetupAudioStreams(s2, env.userMedia);
    AudioInOrder(s2, env.userMedia);
    ExtendsTrans(s, s2, audio.state, 1, 1, 3);
    if audio.result.Ok? {
      var s3 := SetupDataChannel(audio.state, env.channel);
      ExtendsByOne(audio.state, s3, CreateDataChannel(CHANNEL_LABEL));
      ExtendsTrans(s, audio.state, s3, 1, 3, 4);
      OfferInOrder(s3, token, env);
      ExtendsTrans(s, s3, CreateAndSendOffer(s3, token, env).state, 1, 4, 8);
    } else {
      ExtendsSameCalls(s, audio.state, s, r, 1, 8);
    }
    assert r.calls[..|s2.calls|] == s2.calls;
    assert r.calls[|s.calls|] == s2.calls[|s.calls|];
  }

  /** The awaited steps of a start fetch the credential first and then keep to the setup order. */
  lemma {:induction false} AttemptInOrder(s: State, env: Environment)
    ensures var r := StartAttempt(s, env).state;
            && Extends(s, r, 0, 8)
            && |s.calls| < |r.calls|
            && r.calls[|s.calls|] == FetchToken(SERVER_URL)
  {
    var credential := GetEphemeralToken(s, env.tokenFetch);
    var r := StartAttempt(s, env).state;
    TokenStep(s, env);
    ExtendsByOne(s, credential.state, FetchToken(SERVER_URL));
    if !TokenIssued(env) {
      AttemptWithoutToken(s, env);
      ExtendsSameCalls(s, credential.state, s, r, 0, 8);
    } else {
      AttemptWithToken(s, env);
      ConnectionInOrder(credential.state, IssuedToken(env), env);
      ExtendsTrans(s, credential.state, r, 0, 0, 8);
      assert r.calls[..|credential.state.calls|] == credential.state.calls;
    }
  }

  /** How the start handler ends: the attempt's state with its verdict logged and the controls set by it. */
  lemma StartConcludes(s: State, env: Environment)
    ensures var begun := ToggleControls(Log(s, INITIALIZING, Info), true);
            var attempt := StartAttempt(begun, env);
            var r := InitializeSession(s, env);
            && begun.calls == s.calls
            && r.calls == attempt.state.calls
            && r.peerConnection == attempt.state.peerConnection
            && r.dataChannel == attempt.state.dataChannel
            && r.audioStream == attempt.state.audioStream
            && r.startDisabled == attempt.result.Ok? && r.stopDisabled == !attempt.result.Ok?
            && r.log == Insert(attempt.state.log,
                 if attempt.result.Ok? then Entry(INITIALIZED, Success) else Entry(INIT_FAILED + attempt.result.reason, Error))
  {
  }

  /**
   * One start: the calls it makes are setup calls only, made in setup order,
   * each stage at most once: credential, peer connection, audio capture, the
   * audio tracks, data channel, offer, local description, signaling POST,
   * remote description.
   */
  lemma StartInSetupOrder(s: State, env: Environment)
    ensures Extends(s, InitializeSession(s, env), 0, 8)
  {
    var begun := ToggleControls(Log(s, INITIALIZING, Info), true);
    StartConcludes(s, env);
    AttemptInOrder(begun, env);
    ExtendsSameCalls(begun, StartAttempt(begun, env).state, s, InitializeSession(s, env), 0, 8);
  }

  // ---------------------------------------------------------------------------
  // Credential
  // ---------------------------------------------------------------------------

  /**
   * The credential endpoint answered ok with a JSON body that has a
   * `client_secret` (its `value` is not checked).
   */
  predicate TokenIssued(env: Environment) {
    && env.tokenFetch.Ok?
    && env.tokenFetch.value.ok
    && env.tokenFetch.value.json.Ok?
    && !env.tokenFetch.value.json.value.IsNullish()
    && !Prop(env.tokenFetch.value.json.value, CLIENT_SECRET_KEY).IsNullish()
  }

  /** The token a successful credential step yields: `client_secret.value`, whatever it is. */
  function IssuedToken(env: Environment): JsValue
    requires TokenIssued(env)
  {
    Prop(Prop(env.tokenFetch.value.json.value, CLIENT_SECRET_KEY), VALUE_KEY)
  }

  /**
   * The credential step calls the credential endpoint and nothing else; it
   * succeeds exactly when a token was issued, and then yields that token.
   */
  lemma TokenStep(s: State, env: Environment)
    ensures var credential := GetEphemeralToken(s, env.tokenFetch);
            && credential.state.calls == s.calls + [FetchToken(SERVER_URL)]
            && (credential.result.Ok? <==> TokenIssued(env))
            && (TokenIssued(env) ==> credential.result.value == IssuedToken(env))
  {
  }

  /**
   * A start makes a peer connection exactly when the credential was issued,
   * right after the credential fetch; otherwise the credential fetch is the
   * only call it makes.
   */
  lemma {:induction false} ConnectionOnlyWithCredential(s: State, env: Environment)
    ensures var r := InitializeSession(s, env);
            && |s.calls| < |r.calls|
            && r.calls[|s.calls|] == FetchToken(SERVER_URL)
            && (TokenIssued(env) ==> |s.calls| + 1 < |r.calls| && r.calls[|s.calls| + 1] == NewPeerConnection(env.peer))
            && (!TokenIssued(env) ==> r.calls == s.calls + [FetchToken(SERVER_URL)])
  {
    var begun := ToggleControls(Log(s, INITIALIZING, Info), true);
    StartConcludes(s, env);
    AttemptInOrder(begun, env);
    var credential := GetEphemeralToken(begun, env.tokenFetch);
    TokenStep(begun, env);
    if TokenIssued(env) {
      var setup := SetupWebRTCConnection(credential.state, credential.result.value, env);
      ConnectionInOrder(credential.state, credential.result.value, env);
      assert StartAttempt(begun, env) == setup;
      assert setup.state.calls[..|credential.state.calls|] == credential.state.calls;
    }
  }

  /** Two log entries, the first one first. */
  lemma InsertTwo(l: LogState, a: Entry, b: Entry)
    ensures InsertAll(l, [a, b]) == Insert(Insert(l, a), b)
  {
    assert [a, b][1..] == [b];
    assert InsertAll(l, [a, b]) == InsertAll(Insert(l, a), [b]);
    assert [b][1..] == [];
    assert InsertAll(Insert(l, a), [b]) == InsertAll(Insert(Insert(l, a), b), []);
  }

  /**
   * A start whose credential response is not ok: nothing but the fetch is
   * called, the handles are as they were, the controls end start-enabled and
   * stop-disabled, and the log gains the start entry and the failure entry.
   */
  lemma CredentialRejected(s: State, env: Environment)
    requires env.tokenFetch.Ok? && !env.tokenFetch.value.ok
    ensures var r := InitializeSession(s, env);
            && r.calls == s.calls + [FetchToken(SERVER_URL)]
            && r.peerConnection == s.peerConnection
            && r.dataChannel == s.dataChannel
            && r.audioStream == s.audioStream
            && !r.startDisabled && r.stopDisabled
            && r.log == InsertAll(s.log, [Entry(INITIALIZING, Info), Entry(INIT_FAILED + TOKEN_FAILED, Error)])
  {
    InsertTwo(s.log, Entry(INITIALIZING, Info), Entry(INIT_FAILED + TOKEN_FAILED, Error));
  }

  // ---------------------------------------------------------------------------
  // Outcome of a start
  // ---------------------------------------------------------------------------

  /** The last call of the trace is setting the remote description. */
  predicate EndsWithRemote(t: seq<Call>) {
    |t| > 0 && t[|t| - 1].SetRemoteDescription?
  }

  /** The offer step succeeds exactly when its last call set the remote description and that succeeded. */
  lemma {:induction false} OfferOutcome(s: State, token: JsValue, env: Environment)
    ensures var offer := CreateAndSendOffer(s, token, env);
            offer.result.Ok? <==> env.setRemote.Ok? && EndsWithRemote(offer.state.calls)
  {
  }

  /** The connection setup succeeds exactly when its last call set the remote description and that succeeded. */
  lemma {:induction false} ConnectionOutcome(s: State, token: JsValue, env: Environment)
    ensures var setup := SetupWebRTCConnection(s, token, env);
            setup.result.Ok? <==> env.setRemote.Ok? && EndsWithRemote(setup.state.calls)
  {
    var s2 := Log(AddCall(s, NewPeerConnection(env.peer)).(peerConnection := Some(env.peer)), PEER_CREATED, Info);
    var audio := SetupAudioStreams(s2, env.userMedia);
    if audio.result.Ok? {
      OfferOutcome(SetupDataChannel(audio.state, env.channel), token, env);
    }
  }

  lemma {:induction false} AttemptOutcome(s: State, env: Environment)
    ensures var attempt := StartAttempt(s, env);
            attempt.result.Ok? <==> env.setRemote.Ok? && EndsWithRemote(attempt.state.calls)
  {
    var credential := GetEphemeralToken(s, env.tokenFetch);
    if credential.result.Ok? {
      ConnectionOutcome(credential.state, credential.result.value, env);
    }
  }

  /** In a trace in setup order, a remote description call was made exactly when it is the last call. */
  lemma RemoteMadeIffLast(t: seq<Call>)
    requires InSetupOrder(t) && RanksWithin(t, 0, 8)
    ensures (exists k :: 0 <= k < |t| && t[k].SetRemoteDescription?) <==> EndsWithRemote(t)
  {
    RemoteIsLast(t);
  }

  /**
   * After a start the controls say "session running" exactly when the remote
   * description was set during the start, and set successfully; the two
   * buttons end in opposite states.
   */
  lemma ControlsReflectOutcome(s: State, env: Environment)
    ensures var r := InitializeSession(s, env);
            && |s.calls| <= |r.calls|
            && r.startDisabled == !r.stopDisabled
            && (r.startDisabled <==>
                  env.setRemote.Ok? && exists k :: 0 <= k < |Added(s, r)| && Added(s, r)[k].SetRemoteDescription?)
  {
    StartOutcome(s, env);
    StartInSetupOrder(s, env);
    RemoteMadeInOutcome(s, InitializeSession(s, env), env.setRemote.Ok?);
  }

  /** The start's verdict in terms of the whole trace's last call. */
  lemma StartOutcome(s: State, env: Environment)
    ensures var r := InitializeSession(s, env);
            && |s.calls| < |r.calls|
            && r.startDisabled == !r.stopDisabled
            && (r.startDisabled <==> env.setRemote.Ok? && EndsWithRemote(r.calls))
  {
    var begun := ToggleControls(Log(s, INITIALIZING, Info), true);
    StartConcludes(s, env);
    AttemptOutcome(begun, env);
    AttemptInOrder(begun, env);
  }

  lemma RemoteMadeInOutcome(s: State, r: State, ok: bool)
    requires Extends(s, r, 0, 8) && |s.calls| < |r.calls|
    requires r.startDisabled <==> ok && EndsWithRemote(r.calls)
    ensures r.startDisabled <==> ok && exists k :: 0 <= k < |Added(s, r)| && Added(s, r)[k].SetRemoteDescription?
  {
    RemoteMadeIffLast(Added(s, r));
    assert EndsWithRemote(Added(s, r)) <==> EndsWithRemote(r.calls);
  }

  /**
   * The awaited steps with the credential, the capture, the offer and the
   * local description succeeding and a signaling response that is not ok.
   */
  lemma {:induction false} AttemptSignalingRejected(s: State, env: Environment, stream: MediaStream, sdp: string, body: string)
    requires TokenIssued(env) && Printable(IssuedToken(env))
    requires env.userMedia == Ok(stream) && env.offer == Ok(sdp) && env.setLocal.Ok?
    requires env.signalingFetch.Ok? && !env.signalingFetch.value.ok && env.signalingFetch.value.text == Ok(body)
    ensures var attempt := StartAttempt(s, env);
            && attempt.result == Fail(API_FAILED + body)
            && attempt.state.calls[|attempt.state.calls| - 1].PostOffer?
            && attempt.state.peerConnection == Some(env.peer)
            && attempt.state.dataChannel == Some(env.channel)
            && attempt.state.audioStream == Some(stream)
  {
    var credential := GetEphemeralToken(s, env.tokenFetch);
    TokenStep(s, env);
    var s2 := Log(AddCall(credential.state, NewPeerConnection(env.peer)).(peerConnection := Some(env.peer)),
                  PEER_CREATED, Info);
    var audio := SetupAudioStreams(s2, env.userMedia);
    assert audio.result.Ok? && audio.state.audioStream == Some(stream);
  }

  /**
   * A signaling response that is not ok: the remote description is never set,
   * the failure is logged with the response body, and the controls are reset;
   * the peer connection, data channel and audio stream acquired before the
   * failure stay set.
   */
  lemma SignalingRejected(s: State, env: Environment, stream: MediaStream, sdp: string, body: string)
    requires TokenIssued(env) && Printable(IssuedToken(env))
    requires env.userMedia == Ok(stream) && env.offer == Ok(sdp) && env.setLocal.Ok?
    requires env.signalingFetch.Ok? && !env.signalingFetch.value.ok && env.signalingFetch.value.text == Ok(body)
    ensures var r := InitializeSession(s, env);
            && |s.calls| <= |r.calls|
            && (forall k :: 0 <= k < |Added(s, r)| ==> !Added(s, r)[k].SetRemoteDescription?)
            && (Valid(s.log) ==> r.log.entries[0] == Entry(INIT_FAILED + (API_FAILED + body), Error))
            && !r.startDisabled && r.stopDisabled
            && r.peerConnection == Some(env.peer)
            && r.dataChannel == Some(env.channel)
            && r.audioStream == Some(stream)
  {
    var begun := ToggleControls(Log(s, INITIALIZING, Info), true);
    var attempt := StartAttempt(begun, env);
    var r := InitializeSession(s, env);
    StartConcludes(s, env);
    AttemptSignalingRejected(begun, env, stream, sdp, body);
    StartInSetupOrder(s, env);
    AttemptInOrder(begun, env);
    RemoteIsLast(Added(s, r));
    assert Added(s, r)[|Added(s, r)| - 1] == r.calls[|r.calls| - 1];
    if Valid(s.log) {
      InsertEvictsOldest(attempt.state.log, Entry(INIT_FAILED + (API_FAILED + body), Error));
    }
  }

  /** Without a token, the awaited steps end with the credential step's failure. */
  lemma AttemptWithoutToken(s: State, env: Environment)
    requires !TokenIssued(env)
    ensures StartAttempt(s, env).state == GetEphemeralToken(s, env.tokenFetch).state
    ensures StartAttempt(s, env).result.Fail?
  {
    TokenStep(s, env);
  }

  /** With a token issued, the awaited steps go on to the connection setup with that token. */
  lemma AttemptWithToken(s: State, env: Environment)
    requires TokenIssued(env)
    ensures StartAttempt(s, env) == SetupWebRTCConnection(GetEphemeralToken(s, env.tokenFetch).state, IssuedToken(env), env)
  {
    TokenStep(s, env);
  }

  /** The calls of a connection setup in which every step succeeds. */
  function ConnectionPlan(env: Environment, printed: string, stream: MediaStream, sdp: string, answer: string): seq<Call> {
    [NewPeerConnection(env.peer), GetUserMedia]
    + AddTracks(stream.tracks, stream)
    + [CreateDataChannel(CHANNEL_LABEL), CreateOffer, SetLocalDescription(sdp),
       PostOffer(SignalingUrl(), sdp, BEARER + printed), SetRemoteDescription(answer)]
  }

  lemma {:induction false} ConnectionSucceeds(s: State, token: JsValue, env: Environment, stream: MediaStream, sdp: string, answer: string)
    requires Printable(token)
    requires env.userMedia == Ok(stream) && env.offer == Ok(sdp) && env.setLocal.Ok?
    requires env.signalingFetch.Ok? && env.signalingFetch.value.ok && env.signalingFetch.value.text == Ok(answer)
    requires env.setRemote.Ok?
    ensures var setup := SetupWebRTCConnection(s, token, env);
            && setup.result.Ok?
            && setup.state.calls == s.calls + ConnectionPlan(env, Render(token).value, stream, sdp, answer)
            && setup.state.peerConnection == Some(env.peer)
            && setup.state.dataChannel == Some(env.channel)
            && setup.state.audioStream == Some(stream)
  {
    var s2 := Log(AddCall(s, NewPeerConnection(env.peer)).(peerConnection := Some(env.peer)), PEER_CREATED, Info);
    var audio := SetupAudioStreams(s2, env.userMedia);
    assert audio.result.Ok? && audio.state.audioStream == Some(stream);
    assert audio.state.calls == s2.calls + [GetUserMedia] + AddTracks(stream.tracks, stream);
    var s3 := SetupDataChannel(audio.state, env.channel);
    OfferSucceeds(s3, token, env, sdp, answer);
    ConnectionPlanSteps(s.calls, env, Render(token).value, stream, sdp, answer);
  }

  /** The setup plan, call by call as the steps append them. */
  lemma ConnectionPlanSteps(pre: seq<Call>, env: Environment, printed: string, stream: MediaStream, sdp: string, answer: string)
    ensures pre + [NewPeerConnection(env.peer)] + [GetUserMedia] + AddTracks(stream.tracks, stream)
              + [CreateDataChannel(CHANNEL_LABEL)]
              + [CreateOffer, SetLocalDescription(sdp), PostOffer(SignalingUrl(), sdp, BEARER + printed),
                 SetRemoteDescription(answer)]
            == pre + ConnectionPlan(env, printed, stream, sdp, answer)
  {
    var tracks := AddTracks(stream.tracks, stream);
    var offer := [CreateOffer, SetLocalDescription(sdp), PostOffer(SignalingUrl(), sdp, BEARER + printed),
                  SetRemoteDescription(answer)];
    assert [NewPeerConnection(env.peer)] + [GetUserMedia] == [NewPeerConnection(env.peer), GetUserMedia];
    assert [CreateDataChannel(CHANNEL_LABEL)] + offer
        == [CreateDataChannel(CHANNEL_LABEL), CreateOffer, SetLocalDescription(sdp),
            PostOffer(SignalingUrl(), sdp, BEARER + printed), SetRemoteDescription(answer)];
  }

  /**
   * Once the capture succeeds, the setup always stores the stream and the
   * channel, and its calls are exactly the peer connection, the capture, one
   * `addTrack` per track and the channel, followed by the offer step's calls
   * up to the first one that fails: every earlier stage took place.
   */
  lemma {:induction false} ConnectionShape(s: State, token: JsValue, env: Environment)
    ensures var r := SetupWebRTCConnection(s, token, env).state;
            env.userMedia.Ok? ==>
              && r.audioStream == Some(env.userMedia.value)
              && r.dataChannel == Some(env.channel)
              && exists n :: 1 <= n <= 4 && r.calls == s.calls + [NewPeerConnection(env.peer), GetUserMedia]
                   + AddTracks(env.userMedia.value.tracks, env.userMedia.value)
                   + [CreateDataChannel(CHANNEL_LABEL)] + OfferPlan(token, env)[..n]
  {
    if env.userMedia.Ok? {
      var stream := env.userMedia.value;
      var s2 := Log(AddCall(s, NewPeerConnection(env.peer)).(peerConnection := Some(env.peer)), PEER_CREATED, Info);
      var audio := SetupAudioStreams(s2, env.userMedia);
      assert audio.state.calls == s.calls + [NewPeerConnection(env.peer), GetUserMedia] + AddTracks(stream.tracks, stream);
      var s3 := SetupDataChannel(audio.state, env.channel);
      var pre := s.calls + [NewPeerConnection(env.peer), GetUserMedia] + AddTracks(stream.tracks, stream)
                 + [CreateDataChannel(CHANNEL_LABEL)];
      assert s3.calls == pre;
      OfferCalls(s3, token, env);
      var r := CreateAndSendOffer(s3, token, env).state;
      var n :| 1 <= n <= 4 && r.calls == s3.calls + OfferPlan(token, env)[..n];
      assert r == SetupWebRTCConnection(s, token, env).state;
    }
  }

  /**
   * A start whose credential is issued and whose capture succeeds keeps the
   * peer connection, the stream and the channel it acquired, whether or not
   * the offer exchange then fails: the catch does not release them.
   */
  lemma StartKeepsAcquired(s: State, env: Environment)
    requires TokenIssued(env) && env.userMedia.Ok?
    ensures var r := InitializeSession(s, env);
            && r.peerConnection == Some(env.peer)
            && r.audioStream == Some(env.userMedia.value)
            && r.dataChannel == Some(env.channel)
  {
    var begun := ToggleControls(Log(s, INITIALIZING, Info), true);
    StartConcludes(s, env);
    AttemptWithToken(begun, env);
    ConnectionShape(GetEphemeralToken(begun, env.tokenFetch).state, IssuedToken(env), env);
  }

  lemma OfferSucceeds(s: State, token: JsValue, env: Environment, sdp: string, answer: string)
    requires Printable(token)
    requires env.offer == Ok(sdp) && env.setLocal.Ok?
    requires env.signalingFetch.Ok? && env.signalingFetch.value.ok && env.signalingFetch.value.text == Ok(answer)
    requires env.setRemote.Ok?
    ensures var offer := CreateAndSendOffer(s, token, env);
            && offer.result.Ok?
            && offer.state.calls == s.calls
                 + [CreateOffer, SetLocalDescription(sdp), PostOffer(SignalingUrl(), sdp, BEARER + Render(token).value),
                    SetRemoteDescription(answer)]
            && offer.state.(calls := s.calls, log := s.log) == s
  {
  }

  /**
   * A token that cannot be printed makes building the POST's authorization
   * header throw: the offer step fails with the conversion error right after
   * committing the local description, and nothing is posted.
   */
  lemma UnprintableTokenStopsOffer(s: State, token: JsValue, env: Environment, sdp: string)
    requires env.offer == Ok(sdp) && env.setLocal.Ok? && !Printable(token)
    ensures var offer := CreateAndSendOffer(s, token, env);
            && offer.result == Fail(CONVERSION_FAILED)
            && offer.state.calls == s.calls + [CreateOffer, SetLocalDescription(sdp)]
  {
  }

  /**
   * A capture that fails ends the connection setup with its error: the
   * peer connection and the capture request are the only calls, and no
   * channel or stream is stored.
   */
  lemma CaptureRejected(s: State, token: JsValue, env: Environment)
    requires env.userMedia.Fail?
    ensures var setup := SetupWebRTCConnection(s, token, env);
            && setup.result == Fail(env.userMedia.reason)
            && setup.state.calls == s.calls + [NewPeerConnection(env.peer), GetUserMedia]
            && setup.state.dataChannel == s.dataChannel
            && setup.state.audioStream == s.audioStream
  {
  }

  /**
   * A start in which every step succeeds: the calls are exactly the credential
   * fetch followed by the setup sequence with the issued token, all three
   * handles are set, the controls say "session running", and the newest log
   * entry reports success.
   */
  lemma SuccessfulStart(s: State, env: Environment, stream: MediaStream, sdp: string, answer: string)
    requires TokenIssued(env) && Printable(IssuedToken(env))
    requires env.userMedia == Ok(stream) && env.offer == Ok(sdp) && env.setLocal.Ok?
    requires env.signalingFetch.Ok? && env.signalingFetch.value.ok && env.signalingFetch.value.text == Ok(answer)
    requires env.setRemote.Ok?
    ensures var r := InitializeSession(s, env);
            && r.calls == s.calls + [FetchToken(SERVER_URL)]
                 + ConnectionPlan(env, Render(IssuedToken(env)).value, stream, sdp, answer)
            && r.peerConnection == Some(env.peer)
            && r.dataChannel == Some(env.channel)
            && r.audioStream == Some(stream)
            && r.startDisabled && !r.stopDisabled
            && (Valid(s.log) ==> r.log.entries[0] == Entry(INITIALIZED, Success))
  {
    var begun := ToggleControls(Log(s, INITIALIZING, Info), true);
    var credential := GetEphemeralToken(begun, env.tokenFetch);
    StartConcludes(s, env);
    TokenStep(begun, env);
    AttemptWithToken(begun, env);
    ConnectionSucceeds(credential.state, IssuedToken(env), env, stream, sdp, answer);
    if Valid(s.log) {
      InsertEvictsOldest(StartAttempt(begun, env).state.log, Entry(INITIALIZED, Success));
    }
  }

  // ---------------------------------------------------------------------------
  // Cleanup
  // ---------------------------------------------------------------------------

  /** A call that releases a resource. */
  predicate IsRelease(c: Call) {
    c.StopTrack? || c.CloseDataChannel? || c.ClosePeerConnection?
  }

  /** What releasing the handles of `s` calls: stop each track, close the channel, close the peer connection, each if present. */
  function Releases(s: State): seq<Call> {
    (if s.audioStream.Some? then StopTracks(s.audioStream.value.tracks) else [])
    + (if s.dataChannel.Some? then [CloseDataChannel(s.dataChannel.value)] else [])
    + (if s.peerConnection.Some? then [ClosePeerConnection(s.peerConnection.value)] else [])
  }

  /** Releasing releases every present resource and does nothing else. */
  lemma ReleasesCover(s: State)
    ensures forall c :: c in Releases(s) ==> IsRelease(c)
    ensures s.audioStream.Some? ==> forall t :: t in s.audioStream.value.tracks ==> StopTrack(t) in Releases(s)
    ensures s.dataChannel.Some? ==> CloseDataChannel(s.dataChannel.value) in Releases(s)
    ensures s.peerConnection.Some? ==> ClosePeerConnection(s.peerConnection.value) in Releases(s)
  {
    if s.audioStream.Some? {
      var tracks := s.audioStream.value.tracks;
      forall t | t in tracks
        ensures StopTrack(t) in Releases(s)
      {
        var k :| 0 <= k < |tracks| && tracks[k] == t;
        assert Releases(s)[k] == StopTrack(t);
      }
    }
  }

  lemma CleanupCalls(s: State)
    ensures Cleanup(s).calls == s.calls + Releases(s)
  {
  }

  /**
   * From any state, cleanup leaves all three handles null and the controls
   * start-enabled and stop-disabled; it stops every track of a present audio
   * stream, closes a present data channel and peer connection, and makes no
   * other call.
   */
  lemma CleanupReleasesAll(s: State)
    ensures var r := Cleanup(s);
            && r.peerConnection == None && r.dataChannel == None && r.audioStream == None
            && !r.startDisabled && r.stopDisabled
            && |s.calls| <= |r.calls| && r.calls[..|s.calls|] == s.calls
            && (forall c :: c in Added(s, r) ==> IsRelease(c))
            && (s.audioStream.Some? ==> forall t :: t in s.audioStream.value.tracks ==> StopTrack(t) in Added(s, r))
            && (s.dataChannel.Some? ==> CloseDataChannel(s.dataChannel.value) in Added(s, r))
            && (s.peerConnection.Some? ==> ClosePeerConnection(s.peerConnection.value) in Added(s, r))
  {
    CleanupCalls(s);
    ReleasesCover(s);
    assert Added(s, Cleanup(s)) == Releases(s);
  }

  /** Cleanup adds its two entries to the log, starting and ending. */
  lemma CleanupLogs(s: State)
    ensures Cleanup(s).log == InsertAll(s.log, [Entry(CLEANING_UP, Info), Entry(SESSION_ENDED, Info)])
  {
    InsertTwo(s.log, Entry(CLEANING_UP, Info), Entry(SESSION_ENDED, Info));
  }

  /**
   * Cleanup is idempotent: a second cleanup changes nothing but the log, to
   * which it adds its two entries again.
   */
  lemma CleanupIdempotent(s: State)
    ensures var once := Cleanup(s);
            Cleanup(once) == once.(log := InsertAll(once.log, [Entry(CLEANING_UP, Info), Entry(SESSION_ENDED, Info)]))
  {
    CleanupLogs(Cleanup(s));
  }

  // ---------------------------------------------------------------------------
  // Inbound frames and the greeting
  // ---------------------------------------------------------------------------

  /**
   * An inbound frame changes nothing but the log. On a consistent log it puts
   * the frame's classification in front, keeps the log consistent, and keeps
   * every older entry in order except the oldest one once the log was full.
   */
  lemma FrameOnlyLogs(s: State, frame: Parsed)
    ensures var r := HandleDataChannelMessage(s, frame);
            && r.(log := s.log) == s
            && (Valid(s.log) ==>
                  && Valid(r.log)
                  && |r.log.entries| == Min(|s.log.entries| + 1, MAX_LOG_ENTRIES)
                  && r.log.entries[0] == Classify(frame)
                  && r.log.entries[1..] == s.log.entries[..|r.log.entries| - 1])
  {
    if Valid(s.log) {
      InsertEvictsOldest(s.log, Classify(frame));
    }
  }

  /**
   * A frame that does not parse adds exactly one entry, at error level, in
   * front of a consistent log; handles, controls and calls stay as they were.
   */
  lemma MalformedFrame(s: State, reason: string)
    requires Valid(s.log)
    ensures var r := HandleDataChannelMessage(s, Malformed(reason));
            && r.(log := s.log) == s
            && Valid(r.log)
            && r.log.entries[0] == Entry(PARSE_FAILED + reason, Error)
            && |r.log.entries| == Min(|s.log.entries| + 1, MAX_LOG_ENTRIES)
            && r.log.entries[1..] == s.log.entries[..|r.log.entries| - 1]
  {
    FrameOnlyLogs(s, Malformed(reason));
  }

  /** Each open event of the current channel sends the greeting exactly once, as its fixed text. */
  lemma GreetingOncePerOpen(s: State)
    ensures var r := OnDataChannelOpen(s);
            && (s.dataChannel.Some? ==> r.calls == s.calls + [Send(s.dataChannel.value, GreetingWire)])
            && (s.dataChannel.None? ==> r.calls == s.calls)
            && r.peerConnection == s.peerConnection && r.dataChannel == s.dataChannel
            && r.audioStream == s.audioStream
  {
    GreetingTextIsWire();
  }

  // ---------------------------------------------------------------------------
  // Any sequence of events
  // ---------------------------------------------------------------------------

  /** Something that happens to the page: a button click or a browser callback. */
  datatype Event =
    | ClickStart(env: Environment)
    | ClickStop
    | ChannelOpen
    | ChannelMessage(frame: Parsed)
    | RemoteTrack(stream: MediaStream)

  /**
   * One event; a click on a disabled button does nothing. Every event keeps
   * the controller's invariant.
   */
  function Dispatch(s: State, e: Event): (r: State)
    ensures Consistent(s) ==> Consistent(r)
  {
    match e
    case ClickStart(env) => if s.startDisabled then s else InitializeSession(s, env)
    case ClickStop => if s.stopDisabled then s else Cleanup(s)
    case ChannelOpen => OnDataChannelOpen(s)
    case ChannelMessage(frame) => HandleDataChannelMessage(s, frame)
    case RemoteTrack(stream) => OnRemoteTrack(s, stream)
  }

  function Run(s: State, events: seq<Event>): State
    decreases |events|
  {
    if events == [] then s else Run(Dispatch(s, events[0]), events[1..])
  }

  /** The controller's invariant: a consistent log and two buttons in opposite states. */
  predicate Consistent(s: State) {
    Valid(s.log) && s.startDisabled == !s.stopDisabled
  }

  /**
   * From page load, over any sequence of clicks and callbacks, the log holds
   * at most MAX_LOG_ENTRIES entries, as many as its count says, and the two
   * buttons stay in opposite states.
   */
  lemma {:induction false} RunKeepsConsistent(s: State, events: seq<Event>)
    requires Consistent(s)
    ensures Consistent(Run(s, events))
    decreases |events|
  {
    if events != [] {
      RunKeepsConsistent(Dispatch(s, events[0]), events[1..]);
    }
  }

  lemma InitialIsConsistent()
    ensures Consistent(Initial())
    ensures Initial().peerConnection == None && Initial().dataChannel == None && Initial().audioStream == None
    ensures Initial().log == Empty && !Initial().startDisabled && Initial().stopDisabled
  {
  }

  /** Whatever happened before, a click on an enabled stop button leaves no session handle behind. */
  lemma StopClickReleases(s: State)
    requires !s.stopDisabled
    ensures var r := Dispatch(s, ClickStop);
            r.peerConnection == None && r.dataChannel == None && r.audioStream == None && r.stopDisabled
  {
    CleanupReleasesAll(s);
  }
}
