/** One call session (Sources/VoiceSDK/Internal/Core/WebitelCall.swift): a guarded state machine
    whose control operations go to a delegate (the voice manager) and whose state changes are
    fanned out to the registered listeners.

    The delegate is abstract: each request the call makes is appended to `requests`, and what the
    delegate answered (it may throw) is a parameter. Listener callbacks are recorded in `notices`. */
module Calls {
  import opened Wrappers
  import Text
  import opened Errors
  import opened EndReasons
  import opened CallStates

  /** A call's `UUID`. */
  type Uuid = nat

  /** The identity of a registered `CallListener`. */
  type ListenerId = nat

  /** What a listener is told. */
  datatype Event = StateEvent(state: CallState) | HoldEvent(onHold: bool)

  /** One callback on one listener. */
  datatype Notice = Notice(listener: ListenerId, event: Event)

  /** `DisconnectTarget`: tear down by engine id, or a call the engine never saw. */
  datatype DisconnectTarget = SipTarget(sipId: int) | LocalTarget(uuid: Uuid)

  /** The `CallControlDelegate` requests. */
  datatype DelegateRequest =
    | MuteRequest(sipId: int, muted: bool)
    | HoldRequest(sipId: int, onHold: bool)
    | DtmfRequest(sipId: int, digits: string)
    | DisconnectRequest(target: DisconnectTarget)

  /** Every field of a `WebitelCall`, as a value. `hasTask` says whether `apiConfigTask` is set. */
  datatype CallView = CallView(
    id: Uuid,
    state: CallState,
    sipId: int,
    isMuted: bool,
    isOnHold: bool,
    isHoldInProgress: bool,
    isOutgoing: bool,
    answeredAt: int,
    hasTask: bool,
    listeners: seq<ListenerId>,
    notices: seq<Notice>,
    requests: seq<DelegateRequest>)
  {
    /** `isAnswered`. */
    predicate IsAnswered()
    {
      answeredAt > 0
    }
  }

  /** The new fields of a call after an operation, and whether the operation threw. */
  datatype Step = Step(view: CallView, outcome: Outcome<CallError>)

  const NotOngoingPrefix := "Call is not in an ongoing state. Current state: "
  const NoSipIdMessage := "SIP id not created yet."
  const HoldBusyMessage := "Hold/unhold operation already in progress."
  const AlreadyDisconnectedMessage := "already disconnected"

  /** A freshly created call. */
  function NewCall(id: Uuid): (v: CallView)
    ensures v.state == Idle && v.sipId < 0 && !v.IsAnswered()
    ensures !v.isMuted && !v.isOnHold && !v.isHoldInProgress && !v.isOutgoing && !v.hasTask
    ensures v.listeners == [] && v.notices == [] && v.requests == []
  {
    CallView(id, Idle, -1, false, false, false, false, 0, false, [], [], [])
  }

  /** No listener is registered twice (the listener table is a set). */
  predicate Distinct(ls: seq<ListenerId>)
  {
    forall i, j :: 0 <= i < j < |ls| ==> ls[i] != ls[j]
  }

  /** The invariant every operation keeps: listeners form a set, and a hold is only ever in
      progress for a call the engine knows. */
  predicate Valid(v: CallView)
  {
    Distinct(v.listeners) && (v.isHoldInProgress ==> v.sipId >= 0)
  }

  // ---------------------------------------------------------------- listeners

  /** The callbacks `safeNotify` makes: one per listener, in table order. */
  function Deliveries(ls: seq<ListenerId>, e: Event): (r: seq<Notice>)
    ensures |r| == |ls|
    ensures forall k :: 0 <= k < |ls| ==> r[k] == Notice(ls[k], e)
  {
    if ls == [] then [] else Deliveries(ls[..|ls| - 1], e) + [Notice(ls[|ls| - 1], e)]
  }

  /** `safeNotify` with one event. */
  function AfterNotify(v: CallView, e: Event): CallView
  {
    v.(notices := v.notices + Deliveries(v.listeners, e))
  }

  /** `addListener`: a listener already in the table is not added again. */
  function WithListener(ls: seq<ListenerId>, l: ListenerId): (r: seq<ListenerId>)
  {
    if l in ls then ls else ls + [l]
  }

  /** `removeListener`. */
  function WithoutListener(ls: seq<ListenerId>, l: ListenerId): (r: seq<ListenerId>)
    ensures forall x :: x in r <==> x in ls && x != l
  {
    if ls == [] then []
    else if ls[0] == l then WithoutListener(ls[1..], l)
    else [ls[0]] + WithoutListener(ls[1..], l)
  }

  /** After `addListener(l)` the table holds exactly what it held before, and `l`. */
  lemma AddListenerKeepsSet(ls: seq<ListenerId>, l: ListenerId)
    requires Distinct(ls)
    ensures Distinct(WithListener(ls, l))
    ensures forall x :: x in WithListener(ls, l) <==> x in ls || x == l
  {
  }

  /** Removing a listener that was just added gives back the table as it was. */
  lemma {:induction false} RemoveUndoesAdd(ls: seq<ListenerId>, l: ListenerId)
    requires l !in ls
    ensures WithoutListener(WithListener(ls, l), l) == ls
  {
    if ls != [] {
      assert WithListener(ls, l) == [ls[0]] + WithListener(ls[1..], l);
      RemoveUndoesAdd(ls[1..], l);
    }
  }

  /** `removeListener` keeps the table a set. */
  lemma {:induction false} RemoveListenerKeepsDistinct(ls: seq<ListenerId>, l: ListenerId)
    requires Distinct(ls)
    ensures Distinct(WithoutListener(ls, l))
  {
    if ls != [] {
      RemoveListenerKeepsDistinct(ls[1..], l);
      var rest := WithoutListener(ls[1..], l);
      if ls[0] != l {
        assert ls[0] !in ls[1..];
        assert ls[0] !in rest;
        forall i, j | 0 <= i < j < |[ls[0]] + rest|
          ensures ([ls[0]] + rest)[i] != ([ls[0]] + rest)[j]
        {
          if i == 0 {
            assert ([ls[0]] + rest)[j] == rest[j - 1];
          }
        }
      }
    }
  }

  // ---------------------------------------------------------------- guards

  /** `ensureCallOngoing`. */
  function EnsureCallOngoing(state: CallState): (r: Outcome<CallError>)
    ensures r.Pass? <==> state.Ongoing?
    ensures r.Fail? ==> r.error.InvalidState? && Text.StartsWith(r.error.message, NotOngoingPrefix)
  {
    if state.Ongoing? then Pass else Fail(InvalidState(NotOngoingPrefix + Description(state)))
  }

  /** `ensureSipIdValid`. */
  function EnsureSipIdValid(sipId: int): (r: Outcome<CallError>)
    ensures r.Pass? <==> sipId >= 0
  {
    if sipId >= 0 then Pass else Fail(InvalidState(NoSipIdMessage))
  }

  /** The two guards in the order `mute`, `hold` and `sendDTMF` run them. */
  function CallGuard(v: CallView): (r: Outcome<CallError>)
    ensures r.Pass? <==> v.state.Ongoing? && v.sipId >= 0
    ensures r.Fail? ==> r.error.InvalidState?
  {
    var ongoing := EnsureCallOngoing(v.state);
    if ongoing.Fail? then ongoing else EnsureSipIdValid(v.sipId)
  }

  // ---------------------------------------------------------------- operations

  /** `upateState`: store the state, then tell every listener. */
  function AfterUpdateState(v: CallView, s: CallState): CallView
  {
    AfterNotify(v.(state := s), StateEvent(s))
  }

  /** `mute`, given what the delegate's `muteCall` answers. */
  function AfterMute(v: CallView, mute: bool, reply: Outcome<CallError>): Step
  {
    var guard := CallGuard(v);
    if guard.Fail? then Step(v, guard)
    else if v.isMuted == mute then Step(v, Pass)
    else
      var asked := v.(requests := v.requests + [MuteRequest(v.sipId, mute)]);
      if reply.Fail? then Step(asked, reply) else Step(asked.(isMuted := mute), Pass)
  }

  /** `hold`, given what the delegate's `holdCall` answers. The hold flag itself only changes
      when the engine reports the new media state (`HoldConfirmed`). */
  function AfterHold(v: CallView, hold: bool, reply: Outcome<CallError>): Step
  {
    var guard := CallGuard(v);
    if guard.Fail? then Step(v, guard)
    else if v.isHoldInProgress then Step(v, Fail(InvalidState(HoldBusyMessage)))
    else if v.isOnHold == hold then Step(v, Pass)
    else
      var asked := v.(requests := v.requests + [HoldRequest(v.sipId, hold)]);
      if reply.Fail? then Step(asked, reply) else Step(asked.(isHoldInProgress := true), Pass)
  }

  /** `sendDTMF`, given what the delegate answers. */
  function AfterSendDtmf(v: CallView, digits: string, reply: Outcome<CallError>): Step
  {
    var guard := CallGuard(v);
    if guard.Fail? then Step(v, guard)
    else Step(v.(requests := v.requests + [DtmfRequest(v.sipId, digits)]), reply)
  }

  /** `internalDisconnect`: a call the engine never saw is torn down locally and marked
      disconnected here; otherwise the engine is asked to hang up and reports back later. */
  function AfterInternalDisconnect(v: CallView, reason: CallEndReason, cancelTask: bool,
                              reply: Outcome<CallError>): Step
  {
    if v.state.Disconnected? then Step(v, Fail(InvalidState(AlreadyDisconnectedMessage)))
    else if v.sipId < 0 then
      var cancelled := if cancelTask then v.(hasTask := false) else v;
      var asked := cancelled.(requests := cancelled.requests + [DisconnectRequest(LocalTarget(v.id))]);
      if reply.Fail? then Step(asked, reply) else Step(AfterUpdateState(asked, Disconnected(reason)), Pass)
    else
      Step(v.(requests := v.requests + [DisconnectRequest(SipTarget(v.sipId))]), reply)
  }

  /** `disconnect`: the user's hang-up, with end-reason code 0. */
  function AfterDisconnect(v: CallView, reply: Outcome<CallError>): Step
  {
    if v.state.Disconnected? then Step(v, Fail(InvalidState(Description(v.state))))
    else AfterInternalDisconnect(v, From(0, None), true, reply)
  }

  /** `disconnectWithReason`: errors are logged and dropped. */
  function AfterDisconnectWithReason(v: CallView, reason: CallEndReason, reply: Outcome<CallError>): CallView
  {
    AfterInternalDisconnect(v, reason, false, reply).view
  }

  /** `apiTask`: the task is stored and the call reports `connecting`; the operation itself runs
      later (`TaskFailed` is what happens when it throws). */
  function AfterStartTask(v: CallView): CallView
  {
    AfterUpdateState(v.(hasTask := true), Connecting)
  }

  /** The `catch` of `apiTask`: `try? disconnect()`. */
  function AfterTaskFailed(v: CallView, reply: Outcome<CallError>): CallView
  {
    AfterDisconnect(v, reply).view
  }

  /** `onHoldCallPJSIP`. */
  function AfterHoldConfirmed(v: CallView, onHold: bool): CallView
  {
    if v.isOnHold == onHold then v else AfterNotify(v.(isOnHold := onHold), HoldEvent(onHold))
  }

  /** `onConfirmedPJSIP`, at `now` seconds since 1970. */
  function AfterConfirmed(v: CallView, now: int): CallView
  {
    AfterUpdateState(v.(answeredAt := now), Ongoing)
  }

  // ---------------------------------------------------------------- properties

  /** A state change reaches each listener once, in table order, and changes nothing else. */
  lemma UpdateStateNotifiesEachListener(v: CallView, s: CallState)
    ensures var w := AfterUpdateState(v, s);
      && w == v.(state := s, notices := w.notices)
      && |w.notices| == |v.notices| + |v.listeners|
      && w.notices[..|v.notices|] == v.notices
      && forall k :: 0 <= k < |v.listeners| ==>
           w.notices[|v.notices| + k] == Notice(v.listeners[k], StateEvent(s))
  {
  }

  /** `mute`, `hold` and `sendDTMF` throw `invalidState` unless the call is ongoing and has an
      engine id, and then change nothing and ask the delegate for nothing. */
  lemma GuardsBlockControls(v: CallView, flag: bool, digits: string, reply: Outcome<CallError>)
    requires !v.state.Ongoing? || v.sipId < 0
    ensures AfterMute(v, flag, reply).view == v && AfterMute(v, flag, reply).outcome.Fail?
    ensures AfterHold(v, flag, reply).view == v && AfterHold(v, flag, reply).outcome.Fail?
    ensures AfterSendDtmf(v, digits, reply).view == v && AfterSendDtmf(v, digits, reply).outcome.Fail?
    ensures AfterMute(v, flag, reply).outcome.error.InvalidState?
    ensures AfterHold(v, flag, reply).outcome.error.InvalidState?
    ensures AfterSendDtmf(v, digits, reply).outcome.error.InvalidState?
  {
  }

  /** With the guards passed, `mute(m)` is a no-op when already `m`; otherwise it asks the
      delegate once and takes the new value only if the delegate did not throw. */
  lemma MuteEffect(v: CallView, mute: bool, reply: Outcome<CallError>)
    requires v.state.Ongoing? && v.sipId >= 0
    ensures var s := AfterMute(v, mute, reply);
      if v.isMuted == mute then s == Step(v, Pass)
      else
        && s.view.requests == v.requests + [MuteRequest(v.sipId, mute)]
        && s.outcome == reply
        && s.view.isMuted == (if reply.Pass? then mute else v.isMuted)
        && s.view == v.(requests := s.view.requests, isMuted := s.view.isMuted)
  {
  }

  /** `hold` throws while a hold is in progress, even when asked for the current value. */
  lemma HoldRejectedWhileInProgress(v: CallView, hold: bool, reply: Outcome<CallError>)
    requires v.state.Ongoing? && v.sipId >= 0 && v.isHoldInProgress
    ensures AfterHold(v, hold, reply) == Step(v, Fail(InvalidState(HoldBusyMessage)))
  {
  }

  /** A successful `hold(h)` with `h` different from the current value asks the delegate once and
      marks the hold in progress, but the call is not yet on (or off) hold. */
  lemma HoldOnlyRequests(v: CallView, hold: bool)
    requires v.state.Ongoing? && v.sipId >= 0 && !v.isHoldInProgress && v.isOnHold != hold
    ensures var s := AfterHold(v, hold, Pass);
      && s.outcome.Pass?
      && s.view.isOnHold == v.isOnHold
      && s.view.isHoldInProgress
      && s.view.requests == v.requests + [HoldRequest(v.sipId, hold)]
  {
  }

  /** `onHoldCallPJSIP(h)` changes the flag and emits one hold notice per listener exactly when
      `h` differs from the current value. */
  lemma HoldConfirmedNotifiesOnChange(v: CallView, onHold: bool)
    ensures AfterHoldConfirmed(v, onHold).isOnHold == onHold
    ensures v.isOnHold == onHold ==> AfterHoldConfirmed(v, onHold) == v
    ensures v.isOnHold != onHold ==>
      AfterHoldConfirmed(v, onHold).notices == v.notices + Deliveries(v.listeners, HoldEvent(onHold))
  {
  }

  /** `disconnect` on a disconnected call throws `invalidState` and changes nothing, and a
      disconnect with any reason changes nothing either. */
  lemma DisconnectTwiceRejected(v: CallView, reason: CallEndReason, reply: Outcome<CallError>)
    requires v.state.Disconnected?
    ensures AfterDisconnect(v, reply) == Step(v, Fail(InvalidState(Description(v.state))))
    ensures AfterDisconnectWithReason(v, reason, reply) == v
  {
  }

  /** Before dialling, `disconnect` cancels the task, asks for local teardown and (if that did
      not throw) ends the call with code 0 / `requestCancelled`. */
  lemma DisconnectBeforeDial(v: CallView)
    requires !v.state.Disconnected? && v.sipId < 0
    ensures var w := AfterDisconnect(v, Pass).view;
      && !w.hasTask
      && w.requests == v.requests + [DisconnectRequest(LocalTarget(v.id))]
      && w.state.Disconnected?
      && w.state.reason.code == 0
      && w.state.reason.reasonType == RequestCancelled
  {
  }

  /** Once dialled, `disconnect` only asks the engine to hang up: the state is unchanged. */
  lemma DisconnectAfterDial(v: CallView, reason: CallEndReason, cancelTask: bool, reply: Outcome<CallError>)
    requires !v.state.Disconnected? && v.sipId >= 0
    ensures var s := AfterInternalDisconnect(v, reason, cancelTask, reply);
      && s.view == v.(requests := v.requests + [DisconnectRequest(SipTarget(v.sipId))])
      && s.outcome == reply
  {
  }

  /** `onConfirmedPJSIP` at a time after 1970 answers the call and makes it ongoing. */
  lemma ConfirmedAnswers(v: CallView, now: int)
    requires now > 0
    ensures AfterConfirmed(v, now).IsAnswered() && AfterConfirmed(v, now).state == Ongoing
  {
  }

  /** The control operations keep `Valid`: a hold is only marked in progress past the guard. */
  lemma ControlsKeepValid(v: CallView, flag: bool, digits: string, reply: Outcome<CallError>)
    requires Valid(v)
    ensures Valid(AfterMute(v, flag, reply).view)
    ensures Valid(AfterHold(v, flag, reply).view)
    ensures Valid(AfterSendDtmf(v, digits, reply).view)
    ensures !v.isHoldInProgress && AfterHold(v, flag, reply).view.isHoldInProgress ==>
      v.state.Ongoing? && v.sipId >= 0
  {
    assert AfterMute(v, flag, reply).view.listeners == v.listeners;
    assert AfterSendDtmf(v, digits, reply).view.listeners == v.listeners;
    var h := AfterHold(v, flag, reply).view;
    assert h.listeners == v.listeners && h.sipId == v.sipId;
  }

  /** Disconnecting keeps `Valid`. */
  lemma DisconnectsKeepValid(v: CallView, reason: CallEndReason, cancelTask: bool, reply: Outcome<CallError>)
    requires Valid(v)
    ensures Valid(AfterInternalDisconnect(v, reason, cancelTask, reply).view)
    ensures Valid(AfterDisconnect(v, reply).view)
  {
    var w := AfterInternalDisconnect(v, reason, cancelTask, reply).view;
    assert w.listeners == v.listeners && w.sipId == v.sipId && w.isHoldInProgress == v.isHoldInProgress;
    var d := AfterDisconnect(v, reply).view;
    assert d.listeners == v.listeners && d.sipId == v.sipId && d.isHoldInProgress == v.isHoldInProgress;
  }

  /** The engine's callbacks and the start of the set-up task keep `Valid`. */
  lemma EventsKeepValid(v: CallView, onHold: bool, now: int)
    requires Valid(v)
    ensures Valid(AfterStartTask(v)) && Valid(AfterHoldConfirmed(v, onHold)) && Valid(AfterConfirmed(v, now))
  {
  }

  // ---------------------------------------------------------------- the object

  class WebitelCall {
    const id: Uuid
    var state: CallState
    var sipId: int
    var isMuted: bool
    var isOnHold: bool
    var isHoldInProgress: bool
    var isOutgoing: bool
    var answeredAt: int
    var hasTask: bool
    var listeners: seq<ListenerId>
    var notices: seq<Notice>
    var requests: seq<DelegateRequest>

    /** The fields as a value. */
    function View(): CallView
      reads this
    {
      CallView(id, state, sipId, isMuted, isOnHold, isHoldInProgress, isOutgoing, answeredAt,
               hasTask, listeners, notices, requests)
    }

    /** `isAnswered`. */
    predicate IsAnswered()
      reads this
    {
      View().IsAnswered()
    }

    constructor (id: Uuid)
      ensures View() == NewCall(id)
      ensures Valid(View())
    {
      this.id := id;
      state := Idle;
      sipId := -1;
      isMuted := false;
      isOnHold := false;
      isHoldInProgress := false;
      isOutgoing := false;
      answeredAt := 0;
      hasTask := false;
      listeners := [];
      notices := [];
      requests := [];
    }

    /** `safeNotify`: one callback per registered listener. */
    method Notify(e: Event)
      modifies this
      ensures old(Valid(View())) ==> Valid(View())
      ensures View() == AfterNotify(old(View()), e)
    {
      var sent := notices;
      var i := 0;
      while i < |listeners|
        invariant 0 <= i <= |listeners|
        invariant sent == notices + Deliveries(listeners[..i], e)
      {
        assert listeners[..i + 1][..i] == listeners[..i];
        sent := sent + [Notice(listeners[i], e)];
        i := i + 1;
      }
      assert listeners[..i] == listeners;
      notices := sent;
    }

    method UpdateState(s: CallState)
      modifies this
      ensures old(Valid(View())) ==> Valid(View())
      ensures View() == AfterUpdateState(old(View()), s)
      ensures sipId == old(sipId)
    {
      state := s;
      Notify(StateEvent(s));
    }

    method AddListener(l: ListenerId)
      modifies this
      ensures old(Valid(View())) ==> Valid(View())
      ensures View() == old(View()).(listeners := WithListener(old(listeners), l))
      ensures sipId == old(sipId)
    {
      if l !in listeners {
        listeners := listeners + [l];
      }
    }

    method RemoveListener(l: ListenerId)
      modifies this
      ensures old(Valid(View())) ==> Valid(View())
      ensures View() == old(View()).(listeners := WithoutListener(old(listeners), l))
    {
      if Distinct(listeners) {
        RemoveListenerKeepsDistinct(listeners, l);
      }
      listeners := WithoutListener(listeners, l);
    }

    method RemoveAllListeners()
      modifies this
      ensures old(Valid(View())) ==> Valid(View())
      ensures View() == old(View()).(listeners := [])
    {
      listeners := [];
    }

    method Mute(mute: bool, reply: Outcome<CallError>) returns (r: Outcome<CallError>)
      modifies this
      ensures old(Valid(View())) ==> Valid(View())
      ensures Step(View(), r) == AfterMute(old(View()), mute, reply)
    {
      r := CallGuard(View());
      if r.Fail? || isMuted == mute {
        return;
      }
      requests := requests + [MuteRequest(sipId, mute)];
      r := reply;
      if r.Pass? {
        isMuted := mute;
      }
    }

    method Hold(hold: bool, reply: Outcome<CallError>) returns (r: Outcome<CallError>)
      modifies this
      ensures old(Valid(View())) ==> Valid(View())
      ensures Step(View(), r) == AfterHold(old(View()), hold, reply)
    {
      r := CallGuard(View());
      if r.Fail? {
        return;
      }
      if isHoldInProgress {
        return Fail(InvalidState(HoldBusyMessage));
      }
      if isOnHold == hold {
        return;
      }
      requests := requests + [HoldRequest(sipId, hold)];
      r := reply;
      if r.Pass? {
        isHoldInProgress := true;
      }
    }

    method SendDtmf(digits: string, reply: Outcome<CallError>) returns (r: Outcome<CallError>)
      modifies this
      ensures old(Valid(View())) ==> Valid(View())
      ensures Step(View(), r) == AfterSendDtmf(old(View()), digits, reply)
    {
      r := CallGuard(View());
      if r.Fail? {
        return;
      }
      requests := requests + [DtmfRequest(sipId, digits)];
      r := reply;
    }

    method InternalDisconnect(reason: CallEndReason, cancelTask: bool, reply: Outcome<CallError>)
      returns (r: Outcome<CallError>)
      modifies this
      ensures old(Valid(View())) ==> Valid(View())
      ensures Step(View(), r) == AfterInternalDisconnect(old(View()), reason, cancelTask, reply)
    {
      if state.Disconnected? {
        return Fail(InvalidState(AlreadyDisconnectedMessage));
      }
      if sipId < 0 {
        if cancelTask {
          hasTask := false;
        }
        requests := requests + [DisconnectRequest(LocalTarget(id))];
        r := reply;
        if r.Pass? {
          UpdateState(Disconnected(reason));
        }
      } else {
        requests := requests + [DisconnectRequest(SipTarget(sipId))];
        r := reply;
      }
    }

    method Disconnect(reply: Outcome<CallError>) returns (r: Outcome<CallError>)
      modifies this
      ensures old(Valid(View())) ==> Valid(View())
      ensures Step(View(), r) == AfterDisconnect(old(View()), reply)
    {
      if state.Disconnected? {
        return Fail(InvalidState(Description(state)));
      }
      r := InternalDisconnect(From(0, None), true, reply);
    }

    method DisconnectWithReason(reason: CallEndReason, reply: Outcome<CallError>)
      modifies this
      ensures old(Valid(View())) ==> Valid(View())
      ensures View() == AfterDisconnectWithReason(old(View()), reason, reply)
      ensures sipId == old(sipId)
    {
      var _ := InternalDisconnect(reason, false, reply);
    }

    method StartTask()
      modifies this
      ensures old(Valid(View())) ==> Valid(View())
      ensures View() == AfterStartTask(old(View()))
      ensures sipId == old(sipId)
    {
      hasTask := true;
      UpdateState(Connecting);
    }

    method TaskFailed(reply: Outcome<CallError>)
      modifies this
      ensures old(Valid(View())) ==> Valid(View())
      ensures View() == AfterTaskFailed(old(View()), reply)
    {
      var _ := Disconnect(reply);
    }

    method HoldConfirmed(onHold: bool)
      modifies this
      ensures old(Valid(View())) ==> Valid(View())
      ensures View() == AfterHoldConfirmed(old(View()), onHold)
      ensures sipId == old(sipId)
    {
      if isOnHold == onHold {
        return;
      }
      isOnHold := onHold;
      Notify(HoldEvent(onHold));
    }

    method Confirmed(now: int)
      modifies this
      ensures old(Valid(View())) ==> Valid(View())
      ensures View() == AfterConfirmed(old(View()), now)
      ensures sipId == old(sipId)
    {
      answeredAt := now;
      UpdateState(Ongoing);
    }
  }
}
