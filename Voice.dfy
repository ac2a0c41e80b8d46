/** The session supervisor (Sources/VoiceSDK/Internal/Core/VoiceManager.swift): it keeps every
    live call by UUID and by engine id, picks the active call, routes the engine's invite and
    media events to the calls, chooses the hang-up code, and tears the engine down once no call
    is left. It is the delegate the calls send their control requests to. */
module Voice {
  import opened Wrappers
  import opened Errors
  import opened EndReasons
  import opened CallStates
  import opened SipConfigs
  import opened Settings
  import opened Sip
  import opened Calls

  // ---------------------------------------------------------------- hang-up codes

  /** `CancelCallCode` (status codes of section 21 of RFC 3261). */
  const NormalClearing := 200
  const UserBusyHere := 486
  const OriginatorCancel := 487
  const UserBusyEverywhere := 600

  /** The status `disconnectSipCall` hangs a call up with. */
  function HangupCode(isAnswered: bool, isOutgoing: bool): (code: nat)
    ensures code == NormalClearing <==> isAnswered
    ensures code == OriginatorCancel <==> !isAnswered && isOutgoing
    ensures code == UserBusyEverywhere <==> !isAnswered && !isOutgoing
  {
    if isAnswered then NormalClearing
    else if isOutgoing then OriginatorCancel
    else UserBusyEverywhere
  }

  /** Read back through the end-reason table, the hang-up code of an answered call means a
      completed call, that of an unanswered outgoing call a terminated request, and that of an
      unanswered incoming call a busy callee. */
  lemma HangupCodeReasons(isAnswered: bool, isOutgoing: bool)
    ensures var t := From(HangupCode(isAnswered, isOutgoing), None).reasonType;
      && (isAnswered ==> t == Ok)
      && (!isAnswered && isOutgoing ==> t == RequestTerminated)
      && (!isAnswered && !isOutgoing ==> t == Busy)
  {
  }

  // ---------------------------------------------------------------- invite states

  /** `pjsip_inv_state`; `InviteOther` stands for any other raw value. */
  datatype InviteState =
    | InviteNull | InviteCalling | InviteIncoming | InviteEarly | InviteConnecting
    | InviteConfirmed | InviteDisconnected | InviteOther(raw: int)

  /** The state `onCallState` moves a call to, if any. */
  function InviteTransition(state: InviteState, isOutgoing: bool, lastStatusCode: int,
                            lastReason: Option<string>): (r: Option<CallState>)
    ensures r.None? <==> state.InviteOther?
    ensures r.Some? ==> !r.value.Idle?
    ensures r.Some? && r.value.Disconnected? ==> state == InviteDisconnected && r.value.reason.code == lastStatusCode
    ensures r == Some(Ongoing) <==> state == InviteConfirmed
  {
    match state
    case InviteNull => Some(Connecting)
    case InviteCalling => Some(Connecting)
    case InviteConnecting => Some(Connecting)
    case InviteEarly => Some(if isOutgoing then Ringing else Connecting)
    case InviteIncoming => Some(Ringing)
    case InviteConfirmed => Some(Ongoing)
    case InviteDisconnected => Some(Disconnected(From(lastStatusCode, lastReason)))
    case InviteOther(_) => None
  }

  /** Early media rings only on the calling side; an incoming invite always rings. */
  lemma RingingOnlyWhenAlerted(state: InviteState, isOutgoing: bool, code: int, reason: Option<string>)
    ensures InviteTransition(state, isOutgoing, code, reason) == Some(Ringing)
      <==> state == InviteIncoming || (state == InviteEarly && isOutgoing)
  {
  }

  // ---------------------------------------------------------------- media states

  /** An audio stream whose media the engine reports as active. */
  predicate ActiveAudio(m: MediaInfo)
  {
    m.mediaType == AudioMedia && m.status == MediaActive
  }

  /** What one audio stream report does to its call: local hold puts it on hold, active media
      takes it off; either ends a pending hold request. */
  function MediaStep(v: CallView, m: MediaInfo): CallView
  {
    if m.mediaType != AudioMedia then v
    else if m.status == MediaLocalHold then AfterHoldConfirmed(v.(isHoldInProgress := false), true)
    else if m.status == MediaActive then AfterHoldConfirmed(v.(isHoldInProgress := false), false)
    else v
  }

  /** The first loop of `onCallMediaState`, over the streams in order. */
  function ApplyMedia(v: CallView, medias: seq<MediaInfo>): CallView
  {
    if medias == [] then v else MediaStep(ApplyMedia(v, medias[..|medias| - 1]), medias[|medias| - 1])
  }

  /** An independent account of the hold flag a media report leaves: decided by the last audio
      stream that is locally held or active, if there is one. */
  function HoldVerdict(medias: seq<MediaInfo>): Option<bool>
  {
    if medias == [] then None
    else
      var m := medias[|medias| - 1];
      if m.mediaType == AudioMedia && m.status == MediaLocalHold then Some(true)
      else if ActiveAudio(m) then Some(false)
      else HoldVerdict(medias[..|medias| - 1])
  }

  /** A media report sets the hold flag to the verdict of its last deciding stream, clears a
      pending hold exactly when some stream decided, and touches nothing but those flags and
      the notices. */
  lemma {:induction false} ApplyMediaSettlesHold(v: CallView, medias: seq<MediaInfo>)
    ensures var w := ApplyMedia(v, medias);
      && w.isOnHold == (if HoldVerdict(medias).Some? then HoldVerdict(medias).value else v.isOnHold)
      && w.isHoldInProgress == (v.isHoldInProgress && HoldVerdict(medias).None?)
      && w == v.(isOnHold := w.isOnHold, isHoldInProgress := w.isHoldInProgress, notices := w.notices)
  {
    if medias != [] {
      ApplyMediaSettlesHold(v, medias[..|medias| - 1]);
    }
  }

  /** The audio streams the second loop of `onCallMediaState` wires to the sound device. */
  predicate Connectable(m: MediaInfo)
  {
    m.mediaType == AudioMedia && (m.status == MediaActive || m.status == MediaRemoteHold)
  }

  /** The conference links of the second loop: call to speaker, then microphone to call. */
  function AudioConnections(medias: seq<MediaInfo>): (r: seq<EngineCall>)
    ensures forall k :: 0 <= k < |r| ==> r[k].ConfConnect?
  {
    if medias == [] then []
    else
      var m := medias[|medias| - 1];
      AudioConnections(medias[..|medias| - 1])
      + (if Connectable(m) then [ConfConnect(m.confSlot, 0), ConfConnect(0, m.confSlot)] else [])
  }

  /** Every connectable stream is linked both ways. */
  lemma {:induction false} AudioConnectionsLinkBothWays(medias: seq<MediaInfo>, k: nat)
    requires k < |medias| && Connectable(medias[k])
    ensures ConfConnect(medias[k].confSlot, 0) in AudioConnections(medias)
    ensures ConfConnect(0, medias[k].confSlot) in AudioConnections(medias)
  {
    var init := medias[..|medias| - 1];
    var tail := AudioConnections(medias) [|AudioConnections(init)|..];
    assert AudioConnections(medias) == AudioConnections(init) + tail;
    if k < |init| {
      assert init[k] == medias[k];
      AudioConnectionsLinkBothWays(init, k);
    } else {
      assert tail == [ConfConnect(medias[k].confSlot, 0), ConfConnect(0, medias[k].confSlot)];
    }
  }

  /** Nothing but connectable streams is linked. */
  lemma {:induction false} AudioConnectionsOnlyConnectable(medias: seq<MediaInfo>, c: EngineCall)
    requires c in AudioConnections(medias)
    ensures exists k :: (0 <= k < |medias| && Connectable(medias[k])
      && (c == ConfConnect(medias[k].confSlot, 0) || c == ConfConnect(0, medias[k].confSlot)))
  {
    var init := medias[..|medias| - 1];
    var m := medias[|medias| - 1];
    if c in AudioConnections(init) {
      AudioConnectionsOnlyConnectable(init, c);
      var k :| 0 <= k < |init| && Connectable(init[k])
        && (c == ConfConnect(init[k].confSlot, 0) || c == ConfConnect(0, init[k].confSlot));
      assert medias[k] == init[k];
    } else {
      assert Connectable(m) && (c == ConfConnect(m.confSlot, 0) || c == ConfConnect(0, m.confSlot));
    }
  }

  /** Engine calls that are all hold requests. */
  predicate AllHolds(calls: seq<EngineCall>)
  {
    forall k :: 0 <= k < |calls| ==> calls[k].HoldCall?
  }

  lemma AppendAssoc<T>(a: seq<T>, b: seq<T>, c: seq<T>)
    ensures a + b + c == a + (b + c)
  {
  }

  /** The hold requests for a list of calls, in order, given each call's engine id. */
  function HoldsFor(sipIds: map<Uuid, int>, uuids: seq<Uuid>): (r: seq<EngineCall>)
    ensures |r| == |uuids| && AllHolds(r)
  {
    if uuids == [] then []
    else
      var u := uuids[|uuids| - 1];
      HoldsFor(sipIds, uuids[..|uuids| - 1]) + [Sip.HoldCall(if u in sipIds then sipIds[u] else InvalidId)]
  }

  lemma HoldsForStep(sipIds: map<Uuid, int>, uuids: seq<Uuid>, u: Uuid)
    ensures HoldsFor(sipIds, uuids + [u])
      == HoldsFor(sipIds, uuids) + [Sip.HoldCall(if u in sipIds then sipIds[u] else InvalidId)]
  {
    assert (uuids + [u])[..|uuids|] == uuids;
  }

  /** The loop of `holdOtherCalls(except:)`: the engine is asked to hold each of `targets`
      once, in no particular order, using the engine ids in `sipIds`; `held` is the order. */
  method HoldEach(sip: SipManager, sipIds: map<Uuid, int>, targets: set<Uuid>, holdStatus: int)
    returns (ghost held: seq<Uuid>)
    modifies sip
    requires sip.Valid()
    ensures sip.Valid()
    ensures forall u :: u in held <==> u in targets
    ensures forall i, j :: 0 <= i < j < |held| ==> held[i] != held[j]
    ensures sip.log == old(sip.log) + HoldsFor(sipIds, held)
    ensures sip.isActivePjsip == old(sip.isActivePjsip) && sip.completions == old(sip.completions)
  {
    held := [];
    var pending := targets;
    while pending != {}
      invariant pending <= targets
      invariant sip.Valid()
      invariant forall u :: u in held <==> u in targets && u !in pending
      invariant forall i, j :: 0 <= i < j < |held| ==> held[i] != held[j]
      invariant sip.log == old(sip.log) + HoldsFor(sipIds, held)
      invariant sip.isActivePjsip == old(sip.isActivePjsip) && sip.completions == old(sip.completions)
      decreases pending
    {
      var u :| u in pending;
      var _ := sip.SetHold(true, if u in sipIds then sipIds[u] else InvalidId, holdStatus);
      HoldsForStep(sipIds, held, u);
      AppendAssoc(old(sip.log), HoldsFor(sipIds, held), [Sip.HoldCall(if u in sipIds then sipIds[u] else InvalidId)]);
      held := held + [u];
      pending := pending - {u};
    }
  }

  /** `held` lists each of `targets` exactly once. */
  ghost predicate Enumerates(held: seq<Uuid>, targets: set<Uuid>)
  {
    && (forall u :: u in held <==> u in targets)
    && (forall i, j :: 0 <= i < j < |held| ==> held[i] != held[j])
  }

  /** The `k`-th hold request is for the `k`-th call, by its engine id. */
  lemma {:induction false} HoldsForElements(sipIds: map<Uuid, int>, uuids: seq<Uuid>, k: nat)
    requires k < |uuids|
    ensures HoldsFor(sipIds, uuids)[k] == Sip.HoldCall(if uuids[k] in sipIds then sipIds[uuids[k]] else InvalidId)
  {
    if k < |uuids| - 1 {
      HoldsForElements(sipIds, uuids[..|uuids| - 1], k);
    }
  }

  /** The hold requests of several rounds of `holdOtherCalls`, one round after the other. */
  function HoldRounds(sipIds: map<Uuid, int>, rounds: seq<seq<Uuid>>): (r: seq<EngineCall>)
    ensures AllHolds(r)
  {
    if rounds == [] then []
    else HoldRounds(sipIds, rounds[..|rounds| - 1]) + HoldsFor(sipIds, rounds[|rounds| - 1])
  }

  lemma HoldRoundsStep(sipIds: map<Uuid, int>, rounds: seq<seq<Uuid>>, more: seq<seq<Uuid>>)
    requires |more| <= 1
    ensures HoldRounds(sipIds, rounds + more) == HoldRounds(sipIds, rounds) + HoldRounds(sipIds, more)
  {
    if |more| == 1 {
      assert (rounds + more)[..|rounds|] == rounds;
      assert more[..0] == [];
    } else {
      assert rounds + more == rounds;
    }
  }

  /** How many streams of a media report are active audio. */
  function ActiveCount(medias: seq<MediaInfo>): (n: nat)
    ensures n <= |medias|
  {
    if medias == [] then 0
    else ActiveCount(medias[..|medias| - 1]) + (if ActiveAudio(medias[|medias| - 1]) then 1 else 0)
  }

  /** A report has active audio exactly when it counts some. */
  lemma {:induction false} ActiveCountPositive(medias: seq<MediaInfo>)
    ensures ActiveCount(medias) > 0 <==> exists k :: 0 <= k < |medias| && ActiveAudio(medias[k])
  {
    if medias != [] {
      var init := medias[..|medias| - 1];
      ActiveCountPositive(init);
      if exists k :: 0 <= k < |init| && ActiveAudio(init[k]) {
        var k :| 0 <= k < |init| && ActiveAudio(init[k]);
        assert medias[k] == init[k];
      }
      if exists k :: 0 <= k < |medias| && ActiveAudio(medias[k]) {
        var k :| 0 <= k < |medias| && ActiveAudio(medias[k]);
        if k < |init| {
          assert init[k] == medias[k];
        }
      }
    }
  }

  // ---------------------------------------------------------------- dialling

  /** The engine calls `makeAudioCallFor` makes for a filed call: the start-up sequence when the
      engine was not running, then the dial to the service number once the engine runs. */
  function DialCalls(wasRunning: bool, config: SipConfig, settings: CallSettings, replies: StartReplies)
    : (r: seq<EngineCall>)
    ensures wasRunning ==> r == [MakeCallTo(BuildUrl(config, "service", None))]
    ensures wasRunning || InitOutcome(replies).Pass? ==>
      |r| > 0 && r[|r| - 1] == MakeCallTo(BuildUrl(config, "service", None))
  {
    (if wasRunning then [] else InitTrace(config, settings, replies))
    + (if wasRunning || InitOutcome(replies).Pass? then [MakeCallTo(BuildUrl(config, "service", None))] else [])
  }

  /** What `makeAudioCallFor` reports for a filed call: the start-up's failure, if any, and
      otherwise the dial's status. */
  function DialOutcome(wasRunning: bool, replies: StartReplies, status: int): (r: Outcome<CallError>)
    ensures r.Pass? <==> (wasRunning || InitOutcome(replies).Pass?) && status == PjSuccess
    ensures r.Fail? ==> r.error.SipError?
  {
    var started := if wasRunning then Pass else InitOutcome(replies);
    if started.Fail? then started else StatusOutcome(status)
  }

  // ---------------------------------------------------------------- the manager

  class VoiceManager {
    var callsByUUID: map<Uuid, WebitelCall>
    var callsBySipId: map<int, Uuid>
    var activeCall: WebitelCall?
    const sip: SipManager

    /** Each call is filed under its own UUID, and each engine id leads to a live call that
        carries that id: no engine id is left dangling. */
    predicate MapsConsistent()
      reads this, callsByUUID.Values
    {
      && (forall u :: u in callsByUUID ==> callsByUUID[u].id == u)
      && (forall s :: s in callsBySipId ==>
            s >= 0 && callsBySipId[s] in callsByUUID && callsByUUID[callsBySipId[s]].sipId == s)
    }

    /** There is an active call exactly when some call is live, and it is one of them. */
    predicate ActiveConsistent()
      reads this
    {
      && (activeCall == null <==> callsByUUID == map[])
      && (activeCall != null ==> activeCall.id in callsByUUID && callsByUUID[activeCall.id] == activeCall)
    }

    predicate Valid()
      reads this, sip, callsByUUID.Values
    {
      MapsConsistent() && ActiveConsistent() && sip.Valid()
    }

    /** `findCall(bySipId:)`. */
    function FindCallBySipId(sipId: int): WebitelCall?
      reads this
    {
      if sipId in callsBySipId && callsBySipId[sipId] in callsByUUID
      then callsByUUID[callsBySipId[sipId]] else null
    }

    /** A lookup by engine id finds a live call carrying that id, whenever the id is filed. */
    lemma FindCallBySipIdSound(sipId: int)
      requires MapsConsistent()
      ensures FindCallBySipId(sipId) != null <==> sipId in callsBySipId
      ensures FindCallBySipId(sipId) != null ==>
        FindCallBySipId(sipId).sipId == sipId && FindCallBySipId(sipId) in callsByUUID.Values
    {
    }

    /** The engine id of every live call. */
    function SipIds(): (ids: map<Uuid, int>)
      reads this, callsByUUID.Values
      ensures ids.Keys == callsByUUID.Keys
      ensures forall u :: u in ids ==> ids[u] == callsByUUID[u].sipId
    {
      map u | u in callsByUUID :: callsByUUID[u].sipId
    }

    /** The live calls `holdOtherCalls(except:)` puts on hold. */
    function OthersToHold(except: Uuid): set<Uuid>
      reads this, callsByUUID.Values
    {
      set u | u in callsByUUID && callsByUUID[u].id != except && callsByUUID[u].sipId >= 0
    }

    constructor ()
      ensures Valid() && fresh(sip)
      ensures callsByUUID == map[] && callsBySipId == map[] && activeCall == null
      ensures sip.settings == DefaultSettings() && sip.log == [] && !sip.isActivePjsip
    {
      callsByUUID := map[];
      callsBySipId := map[];
      activeCall := null;
      sip := new SipManager();
    }

    /** `newCall`: the first live call becomes the active one; an active call is never
        replaced here. */
    method NewCall(call: WebitelCall)
      modifies this
      requires Valid()
      requires call.id !in callsByUUID
      ensures Valid()
      ensures callsByUUID == old(callsByUUID)[call.id := call] && callsBySipId == old(callsBySipId)
      ensures activeCall == if old(activeCall) == null then call else old(activeCall)
    {
      callsByUUID := callsByUUID[call.id := call];
      if activeCall == null {
        activeCall := call;
      }
    }

    /** `updateCallSettings`. */
    method UpdateCallSettings(settings: CallSettings)
      modifies sip
      requires Valid()
      ensures Valid()
      ensures sip.settings == settings && sip.log == old(sip.log)
    {
      sip.UpdateCallSetting(settings);
    }

    /** `assignSipId`: only a live call gets an engine id. */
    method AssignSipId(sipId: nat, uuid: Uuid)
      modifies this, if uuid in callsByUUID then {callsByUUID[uuid]} else {}
      requires Valid()
      requires uuid in callsByUUID ==> callsByUUID[uuid].sipId < 0
      ensures Valid()
      ensures callsByUUID == old(callsByUUID) && activeCall == old(activeCall)
      ensures uuid in callsByUUID ==>
        && callsByUUID[uuid].View() == old(callsByUUID[uuid].View()).(sipId := sipId)
        && callsBySipId == old(callsBySipId)[sipId := uuid]
      ensures uuid !in callsByUUID ==> callsBySipId == old(callsBySipId)
    {
      if uuid !in callsByUUID {
        return;
      }
      var call := callsByUUID[uuid];
      call.sipId := sipId;
      callsBySipId := callsBySipId[sipId := uuid];
    }

    /** `makeAudioCallFor`: dials the service number for a live call and files the engine id
        the call gets; an unknown UUID dials nothing. The call must not have been dialled
        before. */
    method MakeAudioCallFor(callId: Uuid, config: SipConfig, replies: StartReplies, status: int,
                            engineCallId: nat) returns (r: Outcome<CallError>)
      modifies this, sip, if callId in callsByUUID then {callsByUUID[callId]} else {}
      requires Valid()
      requires callId in callsByUUID ==> callsByUUID[callId].sipId < 0
      ensures Valid()
      ensures callsByUUID == old(callsByUUID) && activeCall == old(activeCall)
      ensures callId !in callsByUUID ==>
        r == Pass && sip.log == old(sip.log) && callsBySipId == old(callsBySipId)
      ensures callId in callsByUUID ==> r == DialOutcome(old(sip.isActivePjsip), replies, status)
      ensures callId in callsByUUID && r.Pass? ==>
        && callsByUUID[callId].View() == old(callsByUUID[callId].View()).(sipId := engineCallId)
        && callsBySipId == old(callsBySipId)[engineCallId := callId]
      ensures callId in callsByUUID && r.Fail? ==>
        callsByUUID[callId].View() == old(callsByUUID[callId].View()) && callsBySipId == old(callsBySipId)
      ensures callId in callsByUUID ==>
        sip.log == old(sip.log) + DialCalls(old(sip.isActivePjsip), config, old(sip.settings), replies)
      ensures sip.settings == old(sip.settings)
    {
      if callId !in callsByUUID {
        return Pass;
      }
      ghost var log0 := sip.log;
      ghost var running := sip.isActivePjsip;
      ghost var settings0 := sip.settings;
      var made := sip.MakeCall(config, "service", None, replies, status, engineCallId);
      assert Valid();
      assert sip.settings == settings0;
      assert sip.log == log0 + DialCalls(running, config, settings0, replies);
      if made.Failure? {
        assert Fail(made.error) == DialOutcome(running, replies, status);
        return Fail(made.error);
      }
      assert Pass == DialOutcome(running, replies, status);
      AssignSipId(engineCallId, callId);
      r := Pass;
    }

    /** `muteCall`, forwarded to the engine. */
    method MuteCall(id: int, muted: bool, info: Option<seq<MediaInfo>>) returns (r: Outcome<CallError>)
      modifies sip
      requires Valid()
      ensures Valid()
      ensures info.Some? ==> sip.log == old(sip.log) + MuteCalls(muted, MuteTargets(info.value))
      ensures info.None? ==> sip.log == old(sip.log) && r == Fail(InvalidState("Failed to get call info"))
      ensures r.Pass? <==> info.Some? && exists k :: 0 <= k < |info.value| && Mutable(info.value[k])
    {
      r := sip.SetMute(muted, id, info);
    }

    /** `holdCall`, forwarded to the engine. */
    method HoldCall(id: int, onHold: bool, status: int) returns (r: Outcome<CallError>)
      modifies sip
      requires Valid()
      ensures Valid()
      ensures sip.log == old(sip.log) + [if onHold then Sip.HoldCall(id) else Reinvite(id)]
      ensures r == StatusOutcome(status)
    {
      r := sip.SetHold(onHold, id, status);
    }

    /** `sendDTMF`, forwarded to the engine. */
    method SendDtmf(id: int, digits: string, status: int) returns (r: Outcome<CallError>)
      modifies sip
      requires Valid()
      ensures Valid()
      ensures sip.log == old(sip.log) + [DialDtmf(id, digits)]
      ensures r == StatusOutcome(status)
    {
      r := sip.SendDtmf(digits, id, status);
    }

    /** `disconnectCall`: a call the engine never saw is dropped here; otherwise the engine
        hangs it up. */
    method DisconnectCall(target: DisconnectTarget, status: int) returns (r: Outcome<CallError>)
      modifies this, sip
      requires Valid()
      ensures Valid()
      ensures sip.settings == old(sip.settings)
      ensures target.LocalTarget? ==>
        && r == Pass
        && callsByUUID == old(callsByUUID) - {target.uuid}
        && (forall s :: s in callsBySipId ==> callsBySipId[s] != target.uuid)
        && (target.uuid in old(callsByUUID) ==>
              callsBySipId == old(callsBySipId) - {old(callsByUUID[target.uuid].sipId)})
        && (target.uuid !in old(callsByUUID) ==> callsBySipId == old(callsBySipId))
        && (old(activeCall) != null && old(activeCall).id != target.uuid ==> activeCall == old(activeCall))
        && (activeCall == null <==> callsByUUID == map[])
        && (activeCall != null ==> activeCall.id != target.uuid)
        && (activeCall == null ==> sip.completions == old(sip.completions) + 1 && !sip.isActivePjsip)
        && (activeCall == null ==> sip.log == old(sip.log) + TeardownCalls(old(sip.isActivePjsip)))
        && (activeCall != null ==> sip.log == old(sip.log) && sip.completions == old(sip.completions))
      ensures target.SipTarget? ==>
        callsByUUID == old(callsByUUID) && callsBySipId == old(callsBySipId) && activeCall == old(activeCall)
      ensures target.SipTarget? && old(FindCallBySipId(target.sipId)) == null ==>
        r == Fail(InvalidState("Call not found")) && sip.log == old(sip.log)
      ensures var call := if target.SipTarget? then old(FindCallBySipId(target.sipId)) else null;
        call != null ==>
          && sip.log == old(sip.log) + [Hangup(target.sipId, HangupCode(call.IsAnswered(), call.isOutgoing))]
          && r == StatusOutcome(status)
    {
      match target
      case LocalTarget(uuid) =>
        DisconnectLocalCall(uuid);
        r := Pass;
      case SipTarget(sipId) =>
        r := DisconnectSipCall(sipId, status);
    }

    /** `shutdown`. */
    method Shutdown()
      modifies sip
      requires Valid()
      ensures Valid()
      ensures sip.completions == old(sip.completions) + 1 && !sip.isActivePjsip
    {
      sip.Destroy();
    }

    /** `removeCall`: drops the call and the engine id it carries. */
    method RemoveCall(uuid: Uuid)
      modifies this
      requires MapsConsistent()
      ensures MapsConsistent()
      ensures callsByUUID == old(callsByUUID) - {uuid}
      ensures forall s :: s in callsBySipId ==> callsBySipId[s] != uuid
      ensures uuid in old(callsByUUID) ==> callsBySipId == old(callsBySipId) - {old(callsByUUID[uuid].sipId)}
      ensures uuid !in old(callsByUUID) ==> callsBySipId == old(callsBySipId)
      ensures activeCall == old(activeCall)
    {
      if uuid !in callsByUUID {
        return;
      }
      var call := callsByUUID[uuid];
      callsByUUID := callsByUUID - {uuid};
      callsBySipId := callsBySipId - {call.sipId};
    }

    /** `checkAndDestroySip`. */
    method CheckAndDestroySip()
      modifies sip
      requires sip.Valid()
      ensures sip.Valid()
      ensures activeCall == null ==>
        && sip.completions == old(sip.completions) + 1 && !sip.isActivePjsip
        && sip.log == old(sip.log) + TeardownCalls(old(sip.isActivePjsip))
      ensures activeCall != null ==> unchanged(sip)
      ensures sip.settings == old(sip.settings)
    {
      if activeCall == null {
        sip.Destroy();
      }
    }

    /** `disconnectLocalCall`: when the active call goes, another live call (if any) takes
        its place, and the engine is shut down once none is left. */
    method DisconnectLocalCall(uuid: Uuid)
      modifies this, sip
      requires Valid()
      ensures Valid()
      ensures callsByUUID == old(callsByUUID) - {uuid}
      ensures forall s :: s in callsBySipId ==> callsBySipId[s] != uuid
      ensures uuid in old(callsByUUID) ==> callsBySipId == old(callsBySipId) - {old(callsByUUID[uuid].sipId)}
      ensures uuid !in old(callsByUUID) ==> callsBySipId == old(callsBySipId)
      ensures old(activeCall) != null && old(activeCall).id != uuid ==> activeCall == old(activeCall)
      ensures activeCall == null <==> callsByUUID == map[]
      ensures activeCall == null ==> sip.completions == old(sip.completions) + 1 && !sip.isActivePjsip
      ensures activeCall == null ==> sip.log == old(sip.log) + TeardownCalls(old(sip.isActivePjsip))
      ensures activeCall != null ==> sip.log == old(sip.log) && sip.completions == old(sip.completions)
      ensures sip.settings == old(sip.settings)
    {
      RemoveCall(uuid);
      if activeCall == null {
        assert callsByUUID == map[];
      } else if activeCall.id != uuid {
        assert activeCall.id in callsByUUID;
      }
      if activeCall != null && activeCall.id == uuid {
        if callsByUUID == map[] {
          activeCall := null;
        } else {
          var next :| next in callsByUUID;
          activeCall := callsByUUID[next];
        }
      }
      CheckAndDestroySip();
    }

    /** `disconnectSipCall`: hangs up with 200 once answered, otherwise 487 when calling out
        and 600 when called. */
    method DisconnectSipCall(sipId: int, status: int) returns (r: Outcome<CallError>)
      modifies sip
      requires Valid()
      ensures Valid()
      ensures sip.settings == old(sip.settings)
      ensures old(FindCallBySipId(sipId)) == null ==>
        r == Fail(InvalidState("Call not found")) && sip.log == old(sip.log)
      ensures var call := old(FindCallBySipId(sipId));
        call != null ==>
          && sip.log == old(sip.log) + [Hangup(sipId, HangupCode(call.IsAnswered(), call.isOutgoing))]
          && r == StatusOutcome(status)
    {
      var call := FindCallBySipId(sipId);
      if call == null {
        return Fail(InvalidState("Call not found"));
      }
      var code := HangupCode(call.IsAnswered(), call.isOutgoing);
      r := sip.DisconnectCall(sipId, code, status);
    }

    /** `holdOtherCalls(except:)`: asks the engine to hold every other live call that has an
        engine id, each once, in no particular order; what the engine answers is ignored. */
    method HoldOtherCalls(except: Uuid, holdStatus: int) returns (ghost held: seq<Uuid>)
      modifies sip
      requires Valid()
      ensures Valid()
      ensures forall u :: u in held <==> u in OthersToHold(except)
      ensures forall i, j :: 0 <= i < j < |held| ==> held[i] != held[j]
      ensures sip.log == old(sip.log) + HoldsFor(SipIds(), held)
      ensures sip.isActivePjsip == old(sip.isActivePjsip) && sip.completions == old(sip.completions)
    {
      held := HoldEach(sip, SipIds(), OthersToHold(except), holdStatus);
    }

    /** `onCallState`: an invite-state event for the call with engine id `sipId`. `now` is the
        clock at the event; the engine's answers to the hold requests are ignored. */
    method OnCallState(state: InviteState, sipId: int, lastStatusCode: int, lastReason: Option<string>,
                       now: int, holdStatus: int) returns (ghost held: seq<Uuid>)
      modifies this, sip, callsByUUID.Values
      requires Valid()
      ensures Valid()
      ensures old(FindCallBySipId(sipId)) == null || state.InviteOther? ==>
        unchanged(this, sip) && unchanged(old(callsByUUID.Values))
      ensures var call := old(FindCallBySipId(sipId));
        call != null && !state.InviteOther? ==>
          call.View() == if state == InviteConfirmed then AfterConfirmed(old(call.View()), now)
                         else AfterUpdateState(old(call.View()),
                                InviteTransition(state, old(call.isOutgoing), lastStatusCode, lastReason).value)
      ensures var call := old(FindCallBySipId(sipId));
        call != null && state == InviteDisconnected ==> callsByUUID == old(callsByUUID) - {call.id}
      ensures state != InviteDisconnected ==>
        callsByUUID == old(callsByUUID) && callsBySipId == old(callsBySipId) && activeCall == old(activeCall)
      ensures var call := old(FindCallBySipId(sipId));
        call != null && state == InviteConfirmed ==>
          && Enumerates(held, old(OthersToHold(call.id)))
          && sip.log == old(sip.log) + HoldsFor(old(SipIds()), held)
      ensures var call := old(FindCallBySipId(sipId));
        call != null && state == InviteConnecting ==>
          sip.log == old(sip.log) + (if old(sip.isActivePjsip) then [SetSoundDevice] else [])
      ensures var call := old(FindCallBySipId(sipId));
        call != null && state == InviteDisconnected ==>
          && callsBySipId == old(callsBySipId) - {sipId}
          && (old(activeCall) != null && old(activeCall).id != call.id ==> activeCall == old(activeCall))
          && (activeCall == null <==> callsByUUID == map[])
          && (activeCall == null ==> sip.completions == old(sip.completions) + 1 && !sip.isActivePjsip)
          && (activeCall == null ==> sip.log == old(sip.log) + TeardownCalls(old(sip.isActivePjsip)))
          && (activeCall != null ==> sip.log == old(sip.log))
      ensures state.InviteNull? || state.InviteCalling? || state.InviteIncoming? || state.InviteEarly? ==>
        sip.log == old(sip.log)
      ensures forall c :: c in old(callsByUUID.Values) && c != old(FindCallBySipId(sipId)) ==> unchanged(c)
    {
      held := [];
      var call := FindCallBySipId(sipId);
      if call == null {
        return;
      }
      FindCallBySipIdSound(sipId);
      match state
      case InviteConfirmed =>
        held := HoldOtherCalls(call.id, holdStatus);
        ConfirmFiledCall(call, now);
      case InviteDisconnected =>
        UpdateFiledCall(call, Disconnected(From(lastStatusCode, lastReason)));
        DisconnectLocalCall(call.id);
      case InviteOther(_) =>
      case InviteConnecting =>
        UpdateFiledCall(call, Connecting);
        sip.StartAudio();
      case _ =>
        UpdateFiledCall(call, InviteTransition(state, call.isOutgoing, lastStatusCode, lastReason).value);
        assert Valid();
    }

    /** A live call moves to state `s`; the manager's maps still agree with it. */
    method UpdateFiledCall(call: WebitelCall, s: CallState)
      modifies call
      requires Valid() && call in callsByUUID.Values
      ensures Valid()
      ensures call.View() == AfterUpdateState(old(call.View()), s)
    {
      call.UpdateState(s);
    }

    /** A live call is answered at `now`; the manager's maps still agree with it. */
    method ConfirmFiledCall(call: WebitelCall, now: int)
      modifies call
      requires Valid() && call in callsByUUID.Values
      ensures Valid()
      ensures call.View() == AfterConfirmed(old(call.View()), now)
    {
      call.Confirmed(now);
    }

    /** `onCallMediaState`: `info` is the media list the engine reports for the call, or `None`
        when it cannot report one. Audio stream reports settle the hold flags; each active audio
        stream makes the call the active one and holds every other call once more (`rounds`
        lists those rounds); then the audio streams are wired to the sound device, and a muted
        call is muted again on its new streams. */
    method OnCallMediaState(sipId: int, info: Option<seq<MediaInfo>>, holdStatus: int)
      returns (ghost rounds: seq<seq<Uuid>>)
      modifies this, sip, callsByUUID.Values
      requires Valid()
      ensures Valid()
      ensures old(FindCallBySipId(sipId)) == null || info.None? ==>
        unchanged(this, sip) && unchanged(old(callsByUUID.Values)) && rounds == []
      ensures callsByUUID == old(callsByUUID) && callsBySipId == old(callsBySipId)
      ensures var call := old(FindCallBySipId(sipId));
        call != null && info.Some? ==>
          && call.View() == ApplyMedia(old(call.View()), info.value)
          && activeCall == (if exists k :: 0 <= k < |info.value| && ActiveAudio(info.value[k])
                            then call else old(activeCall))
          && |rounds| == ActiveCount(info.value)
          && (forall j :: 0 <= j < |rounds| ==> Enumerates(rounds[j], old(OthersToHold(call.id))))
          && sip.log == old(sip.log) + HoldRounds(old(SipIds()), rounds) + AudioConnections(info.value)
                        + (if call.isMuted then MuteCalls(true, MuteTargets(info.value)) else [])
      ensures forall c :: c in old(callsByUUID.Values) && c != old(FindCallBySipId(sipId)) ==> unchanged(c)
    {
      rounds := [];
      var call := FindCallBySipId(sipId);
      if call == null || info.None? {
        return;
      }
      FindCallBySipIdSound(sipId);
      rounds := ApplyMediaStates(call, info.value, holdStatus);
      var links := ConferenceLinks(info.value);
      RunningIgnoresTraffic(sip.log, links);
      sip.log := sip.log + links;
      if call.isMuted {
        var _ := sip.SetMute(true, call.sipId, info);
      }
    }

    /** The first loop of `onCallMediaState`. */
    method ApplyMediaStates(call: WebitelCall, medias: seq<MediaInfo>, holdStatus: int)
      returns (ghost rounds: seq<seq<Uuid>>)
      modifies this, sip, call
      requires Valid() && call in callsByUUID.Values
      ensures Valid()
      ensures callsByUUID == old(callsByUUID) && callsBySipId == old(callsBySipId)
      ensures call.View() == ApplyMedia(old(call.View()), medias)
      ensures activeCall == if exists k :: 0 <= k < |medias| && ActiveAudio(medias[k]) then call else old(activeCall)
      ensures |rounds| == ActiveCount(medias)
      ensures forall j :: 0 <= j < |rounds| ==> Enumerates(rounds[j], old(OthersToHold(call.id)))
      ensures sip.log == old(sip.log) + HoldRounds(old(SipIds()), rounds)
    {
      ghost var ids := SipIds();
      ghost var others := OthersToHold(call.id);
      ghost var log0 := sip.log;
      rounds := [];
      var i := 0;
      while i < |medias|
        invariant 0 <= i <= |medias|
        invariant Valid() && call in callsByUUID.Values
        invariant callsByUUID == old(callsByUUID) && callsBySipId == old(callsBySipId)
        invariant SipIds() == ids && OthersToHold(call.id) == others
        invariant call.View() == ApplyMedia(old(call.View()), medias[..i])
        invariant activeCall == if exists k :: 0 <= k < i && ActiveAudio(medias[k]) then call else old(activeCall)
        invariant |rounds| == ActiveCount(medias[..i])
        invariant forall j :: 0 <= j < |rounds| ==> Enumerates(rounds[j], others)
        invariant sip.log == log0 + HoldRounds(ids, rounds)
      {
        assert medias[..i + 1][..i] == medias[..i];
        ghost var more := ApplyOneMedia(call, medias[i], holdStatus);
        HoldRoundsStep(ids, rounds, more);
        AppendAssoc(log0, HoldRounds(ids, rounds), HoldRounds(ids, more));
        rounds := rounds + more;
        i := i + 1;
      }
      assert medias[..i] == medias;
    }

    /** One stream of the first loop of `onCallMediaState`: a hold round only on active audio. */
    method ApplyOneMedia(call: WebitelCall, m: MediaInfo, holdStatus: int) returns (ghost rounds: seq<seq<Uuid>>)
      modifies this, sip, call
      requires Valid() && call in callsByUUID.Values
      ensures Valid()
      ensures callsByUUID == old(callsByUUID) && callsBySipId == old(callsBySipId)
      ensures SipIds() == old(SipIds()) && OthersToHold(call.id) == old(OthersToHold(call.id))
      ensures call.View() == MediaStep(old(call.View()), m)
      ensures activeCall == if ActiveAudio(m) then call else old(activeCall)
      ensures |rounds| == if ActiveAudio(m) then 1 else 0
      ensures forall j :: 0 <= j < |rounds| ==> Enumerates(rounds[j], old(OthersToHold(call.id)))
      ensures sip.log == old(sip.log) + HoldRounds(old(SipIds()), rounds)
    {
      rounds := [];
      if m.mediaType == AudioMedia && m.status == MediaLocalHold {
        ghost var ids := SipIds();
        ghost var others := OthersToHold(call.id);
        call.isHoldInProgress := false;
        call.HoldConfirmed(true);
        assert SipIds() == ids;
        assert OthersToHold(call.id) == others;
      } else if m.mediaType == AudioMedia && m.status == MediaActive {
        ghost var held := OnActiveAudio(call, holdStatus);
        rounds := [held];
        assert rounds[..0] == [];
      }
    }

    /** Active audio on a call: its hold request is settled, it becomes the active call, every
        other call with an engine id is put on hold once, and it is off hold. */
    method OnActiveAudio(call: WebitelCall, holdStatus: int) returns (ghost held: seq<Uuid>)
      modifies this, sip, call
      requires Valid() && call in callsByUUID.Values
      ensures Valid()
      ensures callsByUUID == old(callsByUUID) && callsBySipId == old(callsBySipId)
      ensures SipIds() == old(SipIds()) && OthersToHold(call.id) == old(OthersToHold(call.id))
      ensures call.View() == AfterHoldConfirmed(old(call.View()).(isHoldInProgress := false), false)
      ensures activeCall == call
      ensures Enumerates(held, old(OthersToHold(call.id)))
      ensures sip.log == old(sip.log) + HoldsFor(old(SipIds()), held)
    {
      ghost var ids := SipIds();
      ghost var others := OthersToHold(call.id);
      call.isHoldInProgress := false;
      if activeCall == null || activeCall.id != call.id {
        activeCall := call;
      }
      assert SipIds() == ids;
      assert OthersToHold(call.id) == others;
      assert sip.log == old(sip.log);
      held := HoldOtherCalls(call.id, holdStatus);
      assert SipIds() == ids;
      assert sip.log == old(sip.log) + HoldsFor(ids, held);
      call.HoldConfirmed(false);
      assert SipIds() == ids;
      assert OthersToHold(call.id) == others;
    }

    /** The second loop of `onCallMediaState`. */
    static method ConferenceLinks(medias: seq<MediaInfo>) returns (links: seq<EngineCall>)
      ensures links == AudioConnections(medias)
      ensures forall k :: 0 <= k < |links| ==> !Lifecycle(links[k])
    {
      links := [];
      var i := 0;
      while i < |medias|
        invariant 0 <= i <= |medias|
        invariant links == AudioConnections(medias[..i])
      {
        assert medias[..i + 1][..i] == medias[..i];
        var m := medias[i];
        if Connectable(m) {
          links := links + [ConfConnect(m.confSlot, 0), ConfConnect(0, m.confSlot)];
        }
        i := i + 1;
      }
      assert medias[..i] == medias;
    }
  }
}
