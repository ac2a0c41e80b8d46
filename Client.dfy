/** The SDK's entry point (Sources/VoiceSDK/Internal/Core/WebitelVoiceClient.swift): it resolves
    the device id and the settings when built, reuses the active call instead of starting a
    second one, sets a new call up in a fixed order, and turns a failed set-up into an end
    reason for the call. */
module Client {
  import opened Wrappers
  import opened Errors
  import opened EndReasons
  import opened CallStates
  import opened Settings
  import opened SipConfigs
  import opened Api
  import opened Auth
  import opened Sip
  import opened Calls
  import opened Voice

  /** The parts of `VoiceClientBuilder` the client reads when it is built. */
  datatype Builder = Builder(
    address: string,
    token: string,
    user: Option<User>,
    deviceId: string,
    settings: Option<CallSettings>)

  /** `VoiceClientBuilder(address:token:)` with nothing else set. */
  function NewBuilder(address: string, token: string): (b: Builder)
    ensures b.address == address && b.token == token
    ensures b.user.None? && b.deviceId == [] && b.settings.None?
  {
    Builder(address, token, None, "", None)
  }

  /** The device id: the builder's when it set one, otherwise the one kept on the device when
      that is non-empty, otherwise `generated` (a new UUID string, which is then kept). */
  function DeviceIdFor(builderId: string, stored: Option<string>, generated: string): (id: string)
  {
    if builderId != [] then builderId
    else if stored.Some? && stored.value != [] then stored.value
    else generated
  }

  /** The builder's id wins; without it a non-empty stored id is used; only when neither exists
      is a fresh id generated. The device id is never empty when the fresh one is not. */
  lemma DeviceIdChoice(builderId: string, stored: Option<string>, generated: string)
    ensures generated != [] ==> DeviceIdFor(builderId, stored, generated) != []
    ensures builderId != [] ==> DeviceIdFor(builderId, stored, generated) == builderId
    ensures builderId == [] && stored.Some? && stored.value != [] ==>
      DeviceIdFor(builderId, stored, generated) == stored.value
    ensures builderId == [] && (stored.None? || stored.value == []) ==>
      DeviceIdFor(builderId, stored, generated) == generated
  {
  }

  /** The settings the client configures when built. */
  function SettingsFor(b: Builder): (s: CallSettings)
    ensures b.settings.Some? ==> s == b.settings.value
    ensures b.settings.None? ==> s == DefaultSettings() && s.useDefaultStun && s.srtpUse == SrtpDisabled
  {
    if b.settings.Some? then b.settings.value else DefaultSettings()
  }

  /** `handleCallFailure`: the end reason a failed set-up gives the call. An authorisation
      failure ends it as unauthorised (401), an error with a code keeps its code, and every other
      failure gets code -1; the error's message becomes the reason's message when non-empty. */
  function FailureReason(error: AnyError): (r: CallEndReason)
    ensures error.SdkError? && error.error.Unauthorized? ==> r.code == 401 && r.reasonType == ReasonType.Unauthorized
    ensures error.SdkError? && error.error.Unknown? ==> r.code == error.error.code
    ensures !(error.SdkError? && (error.error.Unauthorized? || error.error.Unknown?)) ==>
      r.code == -1 && r.reasonType == EndReasons.Unknown
  {
    match error
    case SdkError(e) =>
      (match e
       case Unauthorized(m) => From(401, Some(m))
       case InvalidResponse(m) => From(-1, Some(m))
       case InvalidState(m) => From(-1, Some(m))
       case InvalidURL(m) => From(-1, Some(m))
       case SipError(m) => From(-1, Some(m))
       case Unknown(m, c) => From(c, Some(m)))
    case PlatformError(d) => From(-1, Some(d))
  }

  /** The message an error carries. */
  function ErrorMessage(error: AnyError): string
  {
    match error
    case SdkError(e) => e.message
    case PlatformError(d) => d
  }

  /** A failed set-up reports the error's own message whenever it has one. */
  lemma FailureReasonKeepsMessage(error: AnyError)
    requires ErrorMessage(error) != []
    ensures FailureReason(error).message == ErrorMessage(error)
  {
  }

  /** A refused token fetch ends the call as unauthorised, and any other HTTP status ends it
      with that status as its code. */
  lemma RejectedFetchReasons(status: int, bodyText: Option<string>, decoded: Result<AccessTokenResponse, string>)
    requires status != 200
    ensures var r := FailureReason(Send(Received(Some(status), bodyText, decoded)).error);
      && (status == 401 ==> r.reasonType == ReasonType.Unauthorized && ReasonCategory(r) == ErrorCategory)
      && r.code == status
  {
    SendErrors(status, bodyText, decoded);
  }

  class WebitelVoiceClient {
    const auth: AuthManager
    const voice: VoiceManager

    predicate Valid()
      reads this, voice, voice.sip, voice.callsByUUID.Values
    {
      voice.Valid()
    }

    /** `init(builder:)`. The stored device id, a freshly generated one and the user agent come
        from the device. */
    constructor (b: Builder, stored: Option<string>, generated: string, userAgent: string)
      ensures Valid() && fresh(auth) && fresh(voice) && fresh(voice.sip)
      ensures auth.networkConfiguration
        == NetworkConfiguration(b.address, DeviceIdFor(b.deviceId, stored, generated), userAgent, b.token)
      ensures auth.user == b.user && auth.jwt == ""
      ensures voice.sip.settings == SettingsFor(b) && voice.activeCall == null
    {
      var deviceId := DeviceIdFor(b.deviceId, stored, generated);
      auth := new AuthManager(NetworkConfiguration(b.address, deviceId, userAgent, b.token));
      voice := new VoiceManager();
      new;
      Configure(SettingsFor(b));
      if b.user.Some? {
        SetUser(b.user.value);
      }
    }

    /** The active call, if any. */
    function ActiveCall(): WebitelCall?
      reads this, voice
    {
      voice.activeCall
    }

    method SetUser(user: User)
      modifies auth
      ensures auth.user == Some(user) && auth.jwt == old(auth.jwt)
    {
      auth.SetUser(user);
    }

    method SetJWT(token: string)
      modifies auth
      ensures auth.jwt == token && auth.user == old(auth.user)
    {
      auth.SetJWT(token);
    }

    method Configure(settings: CallSettings)
      modifies voice.sip
      requires Valid()
      ensures Valid()
      ensures voice.sip.settings == settings && voice.sip.log == old(voice.sip.log)
    {
      voice.UpdateCallSettings(settings);
    }

    method Shutdown()
      modifies voice.sip
      requires Valid()
      ensures Valid()
      ensures voice.sip.completions == old(voice.sip.completions) + 1 && !voice.sip.isActivePjsip
    {
      voice.Shutdown();
    }

    /** `makeCallInternal`: while a call is active, the listener joins it and no new call is
        made. Otherwise a new call (with the fresh UUID `id`) is filed, gets the listener, the
        token (if one is given) is stored, and the call's set-up task starts. */
    method MakeCall(jwt: Option<string>, listener: ListenerId, id: Uuid) returns (call: WebitelCall)
      modifies voice, auth, if voice.activeCall != null then {voice.activeCall} else {}
      requires Valid()
      requires id !in voice.callsByUUID
      ensures Valid()
      ensures old(voice.activeCall) != null ==>
        && call == old(voice.activeCall)
        && call.View() == old(call.View()).(listeners := WithListener(old(call.listeners), listener))
        && voice.callsByUUID == old(voice.callsByUUID) && voice.activeCall == old(voice.activeCall)
        && auth.jwt == old(auth.jwt)
      ensures old(voice.activeCall) == null ==>
        && fresh(call) && call.id == id
        && voice.callsByUUID == old(voice.callsByUUID)[id := call] && voice.activeCall == call
        && call.View() == AfterStartTask(NewCall(id).(listeners := [listener]))
        && auth.jwt == (if jwt.Some? then jwt.value else old(auth.jwt))
      ensures voice.callsBySipId == old(voice.callsBySipId) && auth.user == old(auth.user)
      ensures forall c :: c in old(voice.callsByUUID.Values) && c != call ==> unchanged(c)
    {
      if voice.activeCall != null {
        call := JoinActiveCall(listener);
      } else {
        call := StartNewCall(jwt, listener, id);
      }
    }

    /** The reuse branch of `makeCallInternal`: the listener joins the active call. */
    method JoinActiveCall(listener: ListenerId) returns (call: WebitelCall)
      modifies voice.activeCall
      requires Valid() && voice.activeCall != null
      ensures Valid()
      ensures call == voice.activeCall
      ensures call.View() == old(call.View()).(listeners := WithListener(old(call.listeners), listener))
    {
      call := voice.activeCall;
      call.AddListener(listener);
    }

    /** The new-call branch of `makeCallInternal`: file the call, add the listener, store the
        token, start the task. */
    method StartNewCall(jwt: Option<string>, listener: ListenerId, id: Uuid) returns (call: WebitelCall)
      modifies voice, auth
      requires Valid() && voice.activeCall == null
      requires id !in voice.callsByUUID
      ensures Valid()
      ensures fresh(call) && call.id == id
      ensures voice.callsByUUID == old(voice.callsByUUID)[id := call] && voice.activeCall == call
      ensures voice.callsBySipId == old(voice.callsBySipId)
      ensures call.View() == AfterStartTask(NewCall(id).(listeners := [listener]))
      ensures auth.jwt == (if jwt.Some? then jwt.value else old(auth.jwt)) && auth.user == old(auth.user)
    {
      call := new WebitelCall(id);
      voice.NewCall(call);
      call.AddListener(listener);
      assert voice.Valid();
      if jwt.Some? {
        auth.SetJWT(jwt.value);
      }
      assert voice.Valid();
      call.StartTask();
      assert voice.Valid();
    }

    /** The operation of the set-up task: fetch the connection parameters (the network's answer
        is `reply`) and dial; any failure ends the call through `HandleCallFailure`. */
    method RunCallTask(call: WebitelCall, reply: HttpReply, replies: StartReplies, status: int,
                       engineCallId: nat, hangupStatus: int)
      returns (sent: Option<Request>, r: Outcome<AnyError>)
      modifies voice, voice.sip, call
      requires Valid()
      requires call.id in voice.callsByUUID ==> voice.callsByUUID[call.id] == call && call.sipId < 0
      ensures Valid()
      ensures sent == RequestSent(auth.user, auth.jwt, auth.networkConfiguration)
      ensures r.Fail? ==> call.View() == AfterDisconnectWithReason(old(call.View()), FailureReason(r.error), Pass)
      ensures var fetched := FetchSipConfig(auth.user, auth.jwt, auth.networkConfiguration, reply);
        fetched.Failure? ==>
          && r == Fail(fetched.error)
          && (!old(call.state).Disconnected? && old(call.sipId) < 0 ==>
                && voice.callsByUUID == old(voice.callsByUUID) - {call.id}
                && voice.callsBySipId == old(voice.callsBySipId)
                && voice.activeCall != call
                && (old(voice.activeCall) != null && old(voice.activeCall) != call ==> voice.activeCall == old(voice.activeCall))
                && (voice.activeCall == null ==>
                      !voice.sip.isActivePjsip && voice.sip.log == old(voice.sip.log) + TeardownCalls(old(voice.sip.isActivePjsip)))
                && (voice.activeCall != null ==> voice.sip.log == old(voice.sip.log)))
      ensures var fetched := FetchSipConfig(auth.user, auth.jwt, auth.networkConfiguration, reply);
        fetched.Success? && call.id !in old(voice.callsByUUID) ==>
          && r == Pass && call.View() == old(call.View())
          && voice.callsByUUID == old(voice.callsByUUID) && voice.callsBySipId == old(voice.callsBySipId)
          && voice.activeCall == old(voice.activeCall) && voice.sip.log == old(voice.sip.log)
      ensures var fetched := FetchSipConfig(auth.user, auth.jwt, auth.networkConfiguration, reply);
        fetched.Success? && call.id in old(voice.callsByUUID) ==>
          var outcome := DialOutcome(old(voice.sip.isActivePjsip), replies, status);
          var dialLog := old(voice.sip.log)
            + DialCalls(old(voice.sip.isActivePjsip), fetched.value, old(voice.sip.settings), replies);
          && (outcome.Pass? ==>
                && r == Pass
                && call.View() == old(call.View()).(sipId := engineCallId)
                && voice.callsByUUID == old(voice.callsByUUID) && voice.activeCall == old(voice.activeCall)
                && voice.callsBySipId == old(voice.callsBySipId)[engineCallId := call.id]
                && voice.sip.log == dialLog)
          && (outcome.Fail? ==> r == Fail(SdkError(outcome.error)))
          && (outcome.Fail? && !old(call.state).Disconnected? ==>
                && voice.callsByUUID == old(voice.callsByUUID) - {call.id}
                && voice.callsBySipId == old(voice.callsBySipId)
                && voice.activeCall != call
                && (old(voice.activeCall) != null && old(voice.activeCall) != call ==> voice.activeCall == old(voice.activeCall))
                && (voice.activeCall == null ==>
                      !voice.sip.isActivePjsip && voice.sip.log == dialLog + TeardownCalls(EngineRunning(dialLog)))
                && (voice.activeCall != null ==> voice.sip.log == dialLog))
    {
      var config;
      sent, config := auth.GetSipConfig(reply);
      if config.Failure? {
        r := Fail(config.error);
        HandleCallFailure(call, config.error, hangupStatus);
        return;
      }
      r := Dial(call, config.value, replies, status, engineCallId, hangupStatus);
    }

    /** The second half of the set-up task: dial the service with the fetched parameters. A call
        that is no longer filed dials nothing. */
    method Dial(call: WebitelCall, config: SipConfig, replies: StartReplies, status: int,
                engineCallId: nat, hangupStatus: int) returns (r: Outcome<AnyError>)
      modifies voice, voice.sip, call
      requires Valid()
      requires call.id in voice.callsByUUID ==> voice.callsByUUID[call.id] == call && call.sipId < 0
      ensures Valid()
      ensures r.Fail? ==> call.View() == AfterDisconnectWithReason(old(call.View()), FailureReason(r.error), Pass)
      ensures call.id !in old(voice.callsByUUID) ==>
        && r == Pass && call.View() == old(call.View())
        && voice.callsByUUID == old(voice.callsByUUID) && voice.callsBySipId == old(voice.callsBySipId)
        && voice.activeCall == old(voice.activeCall) && voice.sip.log == old(voice.sip.log)
      ensures call.id in old(voice.callsByUUID) ==>
        var outcome := DialOutcome(old(voice.sip.isActivePjsip), replies, status);
        var dialLog := old(voice.sip.log) + DialCalls(old(voice.sip.isActivePjsip), config, old(voice.sip.settings), replies);
        && (outcome.Pass? ==>
              && r == Pass
              && call.View() == old(call.View()).(sipId := engineCallId)
              && voice.callsByUUID == old(voice.callsByUUID) && voice.activeCall == old(voice.activeCall)
              && voice.callsBySipId == old(voice.callsBySipId)[engineCallId := call.id]
              && voice.sip.log == dialLog)
        && (outcome.Fail? ==> r == Fail(SdkError(outcome.error)))
        && (outcome.Fail? && !old(call.state).Disconnected? ==>
              && voice.callsByUUID == old(voice.callsByUUID) - {call.id}
              && voice.callsBySipId == old(voice.callsBySipId)
              && voice.activeCall != call
              && (old(voice.activeCall) != null && old(voice.activeCall) != call ==> voice.activeCall == old(voice.activeCall))
              && (voice.activeCall == null ==>
                      !voice.sip.isActivePjsip && voice.sip.log == dialLog + TeardownCalls(EngineRunning(dialLog)))
              && (voice.activeCall != null ==> voice.sip.log == dialLog))
    {
      var dialled := voice.MakeAudioCallFor(call.id, config, replies, status, engineCallId);
      if dialled.Fail? {
        assert voice.sip.isActivePjsip == EngineRunning(voice.sip.log);
        r := Fail(SdkError(dialled.error));
        HandleCallFailure(call, r.error, hangupStatus);
        return;
      }
      r := Pass;
    }

    /** `handleCallFailure`: the call is disconnected with the reason the error maps to. A call
        the engine never saw is dropped by the voice manager (which moves the active call on and
        shuts the engine down once no call is left) before it is marked disconnected; a dialled
        call is hung up with `hangupStatus` as the engine's reply. Whatever the manager throws is
        logged and dropped, and a call already disconnected is left alone. */
    method HandleCallFailure(call: WebitelCall, error: AnyError, hangupStatus: int)
      modifies voice, voice.sip, call
      requires Valid()
      requires call.id in voice.callsByUUID ==> voice.callsByUUID[call.id] == call
      ensures Valid()
      ensures call.View() == AfterDisconnectWithReason(old(call.View()), FailureReason(error), Pass)
      ensures old(call.state).Disconnected? ==> unchanged(voice, voice.sip)
      ensures !old(call.state).Disconnected? && old(call.sipId) < 0 ==>
        && voice.callsByUUID == old(voice.callsByUUID) - {call.id}
        && voice.callsBySipId == old(voice.callsBySipId)
        && voice.activeCall != call
        && (old(voice.activeCall) != null && old(voice.activeCall) != call ==> voice.activeCall == old(voice.activeCall))
        && (voice.activeCall == null ==>
              && voice.sip.completions == old(voice.sip.completions) + 1 && !voice.sip.isActivePjsip
              && voice.sip.log == old(voice.sip.log) + TeardownCalls(old(voice.sip.isActivePjsip)))
        && (voice.activeCall != null ==> voice.sip.log == old(voice.sip.log))
      ensures !old(call.state).Disconnected? && old(call.sipId) >= 0 ==>
        && voice.callsByUUID == old(voice.callsByUUID) && voice.callsBySipId == old(voice.callsBySipId)
        && voice.activeCall == old(voice.activeCall)
        && var found := old(voice.FindCallBySipId(call.sipId));
           found != null ==>
             voice.sip.log == old(voice.sip.log) + [Hangup(call.sipId, HangupCode(old(found.IsAnswered()), old(found.isOutgoing)))]
    {
      if call.state.Disconnected? {
        return;
      }
      if call.sipId < 0 {
        DropUndialled(call, FailureReason(error));
      } else {
        HangUpDialled(call, FailureReason(error), hangupStatus);
      }
    }

    /** The local branch of `internalDisconnect` under `disconnectWithReason`: the manager drops
        the call, then the call reports the reason. No other call loses its engine id. */
    method DropUndialled(call: WebitelCall, reason: CallEndReason)
      modifies voice, voice.sip, call
      requires Valid()
      requires call.id in voice.callsByUUID ==> voice.callsByUUID[call.id] == call
      requires !call.state.Disconnected? && call.sipId < 0
      ensures Valid()
      ensures call.View() == AfterDisconnectWithReason(old(call.View()), reason, Pass)
      ensures voice.callsByUUID == old(voice.callsByUUID) - {call.id}
      ensures voice.callsBySipId == old(voice.callsBySipId)
      ensures voice.activeCall != call
      ensures old(voice.activeCall) != null && old(voice.activeCall) != call ==> voice.activeCall == old(voice.activeCall)
      ensures voice.activeCall == null ==>
        && voice.sip.completions == old(voice.sip.completions) + 1 && !voice.sip.isActivePjsip
        && voice.sip.log == old(voice.sip.log) + TeardownCalls(old(voice.sip.isActivePjsip))
      ensures voice.activeCall != null ==> voice.sip.log == old(voice.sip.log)
    {
      assert voice.callsBySipId - {call.sipId} == voice.callsBySipId;
      var torn := voice.DisconnectCall(LocalTarget(call.id), 0);
      assert call !in voice.callsByUUID.Values;
      call.DisconnectWithReason(reason, torn);
    }

    /** The engine branch of `internalDisconnect` under `disconnectWithReason`: the manager hangs
        the call up, and whatever it throws is dropped. */
    method HangUpDialled(call: WebitelCall, reason: CallEndReason, hangupStatus: int)
      modifies voice.sip, call
      requires Valid()
      requires call.id in voice.callsByUUID ==> voice.callsByUUID[call.id] == call
      requires !call.state.Disconnected? && call.sipId >= 0
      ensures Valid()
      ensures call.View() == AfterDisconnectWithReason(old(call.View()), reason, Pass)
      ensures var found := old(voice.FindCallBySipId(call.sipId));
        found != null ==>
          voice.sip.log == old(voice.sip.log) + [Hangup(call.sipId, HangupCode(old(found.IsAnswered()), old(found.isOutgoing)))]
    {
      var torn := voice.DisconnectSipCall(call.sipId, hangupStatus);
      call.DisconnectWithReason(reason, torn);
    }
  }
}
