/** The SIP engine gateway (Sources/VoiceSDK/Internal/Sip/SipManager.swift). The engine itself is
    foreign code: every call the manager makes into it is appended to `log`, and every status the
    engine returns is a parameter of the method that receives it (0 is success). */
module Sip {
  import opened Wrappers
  import Text
  import opened Errors
  import opened SipConfigs
  import opened Settings

  datatype Transport = UDP | TCP | TCP_UDP | TLS

  // ----- the `;transport=` URI parameter -----

  const TransportKey := "transport"

  /** A `key=value` component whose trimmed, lower-cased key is `transport`. */
  predicate IsTransportParam(comp: string)
  {
    var pair := Text.Split(comp, '=');
    |pair| == 2 && Text.Lower(Text.Trim(pair[0])) == TransportKey
  }

  /** The trimmed, lower-cased value of a transport component. */
  function ParamValue(comp: string): string
    requires IsTransportParam(comp)
  {
    Text.Lower(Text.Trim(Text.Split(comp, '=')[1]))
  }

  /** The transport a parameter value names; only `tcp`, `udp` and `tls` name one. */
  function TransportNamed(value: string): Option<Transport>
  {
    if value == "tcp" then Some(TCP)
    else if value == "udp" then Some(UDP)
    else if value == "tls" then Some(TLS)
    else None
  }

  /** The first transport component decides; the components after it are not read. */
  function FirstTransport(comps: seq<string>): Option<Transport>
  {
    if comps == [] then None
    else if IsTransportParam(comps[0]) then TransportNamed(ParamValue(comps[0]))
    else FirstTransport(comps[1..])
  }

  /** The transport a SIP URI asks for, if any. */
  function TransportOf(sipUri: string): Option<Transport>
  {
    FirstTransport(Text.Split(sipUri, ';'))
  }

  /** `transportFrom`: scans the `;`-separated components and returns at the first one whose
      key is `transport`. */
  method TransportFrom(sipUri: string) returns (t: Option<Transport>)
    ensures t == TransportOf(sipUri)
  {
    var components := Text.Split(sipUri, ';');
    var i := 0;
    while i < |components|
      invariant 0 <= i <= |components|
      invariant FirstTransport(components[i..]) == FirstTransport(components)
    {
      var pair := Text.Split(components[i], '=');
      if |pair| == 2 && Text.Lower(Text.Trim(pair[0])) == TransportKey {
        var value := Text.Lower(Text.Trim(pair[1]));
        if value == "tcp" {
          return Some(TCP);
        } else if value == "udp" {
          return Some(UDP);
        } else if value == "tls" {
          return Some(TLS);
        }
        return None;
      }
      assert components[i..][1..] == components[i + 1..];
      i := i + 1;
    }
    return None;
  }

  /** The transport `initPjsuaConfigs` creates: the URI's own, or TCP and UDP both. */
  function ChosenTransport(sipUri: string): Transport
  {
    match TransportOf(sipUri)
    case Some(t) => t
    case None => TCP_UDP
  }

  /** The first transport component decides, whatever follows it, and the components before
      it are passed over. */
  lemma {:induction false} FirstTransportParamDecides(comps: seq<string>, k: nat)
    requires k < |comps| && IsTransportParam(comps[k])
    requires forall j :: 0 <= j < k ==> !IsTransportParam(comps[j])
    ensures FirstTransport(comps) == TransportNamed(ParamValue(comps[k]))
    decreases k
  {
    if k > 0 {
      assert !IsTransportParam(comps[0]);
      FirstTransportParamDecides(comps[1..], k - 1);
    }
  }

  /** Without a transport component there is no transport, and `TCP_UDP` is chosen. */
  lemma {:induction false} NoTransportParam(comps: seq<string>)
    requires forall j :: 0 <= j < |comps| ==> !IsTransportParam(comps[j])
    ensures FirstTransport(comps) == None
  {
    if comps != [] {
      assert forall j :: 0 <= j < |comps| - 1 ==> comps[1..][j] == comps[j + 1];
      NoTransportParam(comps[1..]);
    }
  }

  /** A transport value never names the combined `TCP_UDP`. */
  lemma {:induction false} TransportNeverCombined(comps: seq<string>)
    ensures FirstTransport(comps) != Some(TCP_UDP)
  {
    if comps != [] && !IsTransportParam(comps[0]) {
      TransportNeverCombined(comps[1..]);
    }
  }

  /** `host;transport=<v>` asks for the transport `v` names, in any letter case and with
      surrounding blanks. */
  lemma TransportParamSelects(host: string, value: string)
    requires host != [] && ';' !in host && '=' !in host
    requires value != [] && ';' !in value && '=' !in value
    ensures TransportOf(host + ";transport=" + value) == TransportNamed(Text.Lower(Text.Trim(value)))
  {
    var param := TransportKey + "=" + value;
    UriWithParam(host, value);
    Text.SplitPair(host, ';', param);
    NotAParam(host);
    TransportKeyParam(value);
    FirstTransportParamDecides([host, param], 1);
  }

  lemma UriWithParam(host: string, value: string)
    requires ';' !in value
    ensures host + ";transport=" + value == host + [';'] + (TransportKey + "=" + value)
    ensures ';' !in TransportKey + "=" + value
  {
    var param := TransportKey + "=" + value;
    assert forall k :: 0 <= k < |param| ==> param[k] == (if k < 10 then "transport="[k] else value[k - 10]);
  }

  /** A component without `=` is not a parameter. */
  lemma NotAParam(comp: string)
    requires comp != [] && '=' !in comp
    ensures !IsTransportParam(comp)
  {
    Text.SplitWithoutSeparator(comp, '=');
  }

  /** `transport=<v>` is a transport component with value `v`, trimmed and lower-cased. */
  lemma TransportKeyParam(value: string)
    requires value != [] && '=' !in value
    ensures IsTransportParam(TransportKey + "=" + value)
    ensures ParamValue(TransportKey + "=" + value) == Text.Lower(Text.Trim(value))
  {
    assert TransportKey + "=" + value == TransportKey + ['='] + value;
    Text.SplitPair(TransportKey, '=', value);
    KeyIsNormal();
  }

  lemma KeyIsNormal()
    ensures Text.Lower(Text.Trim(TransportKey)) == TransportKey
  {
    assert Text.TrimStart(TransportKey) == TransportKey;
    assert Text.TrimEnd(TransportKey) == TransportKey;
    var l := Text.Lower(TransportKey);
    assert forall k :: 0 <= k < |l| ==> l[k] == TransportKey[k];
  }

  /** A proxy without parameters gets both TCP and UDP transports. */
  lemma PlainProxyUsesTcpAndUdp(proxy: string)
    requires ';' !in proxy && '=' !in proxy
    ensures ChosenTransport(proxy) == TCP_UDP
  {
    if proxy != [] {
      Text.SplitWithoutSeparator(proxy, ';');
      Text.SplitWithoutSeparator(proxy, '=');
      assert !IsTransportParam(proxy);
    }
    NoTransportParam(Text.Split(proxy, ';'));
  }

  // ----- the dial URI -----

  /** `buildUrl`: the quoted display name (empty when none is given) and the SIP address of the
      number at the proxy's host. */
  function BuildUrl(config: SipConfig, toNumber: string, toName: Option<string>): string
  {
    var name := if toName.Some? then toName.value else "";
    "\"" + name + "\"<" + SipScheme + toNumber + "@" + config.GetServerUri() + ">"
  }

  /** The dial URI is the same whether or not the configured proxy carries the `sip:` scheme,
      so the address never gets a doubled scheme. */
  lemma DialUriIgnoresProxyScheme(config: SipConfig, toNumber: string, toName: Option<string>)
    requires !Text.StartsWith(config.proxy, SipScheme)
    ensures BuildUrl(config.(proxy := SipScheme + config.proxy), toNumber, toName)
         == BuildUrl(config, toNumber, toName)
  {
    var p := SipScheme + config.proxy;
    assert p[..|SipScheme|] == SipScheme;
    assert p[|SipScheme|..] == config.proxy;
  }

  /** The dial URI splits into the quoted display name and the bracketed SIP address of the
      number at the proxy's host; a missing name is an empty one. */
  lemma DialUriParts(config: SipConfig, toNumber: string, name: string)
    ensures var url := BuildUrl(config, toNumber, Some(name));
      && url[..|name| + 2] == "\"" + name + "\""
      && url[|name| + 2..] == "<" + SipScheme + toNumber + "@" + config.GetServerUri() + ">"
    ensures BuildUrl(config, toNumber, None) == BuildUrl(config, toNumber, Some(""))
  {
    var url := BuildUrl(config, toNumber, Some(name));
    assert url == ("\"" + name + "\"") + ("<" + SipScheme + toNumber + "@" + config.GetServerUri() + ">");
  }

  // ----- the SRTP setting -----

  /** The engine's SRTP modes. */
  datatype PjSrtpUse = PjSrtpDisabled | PjSrtpOptional | PjSrtpMandatory

  /** `getPjsipCode`: optional and mandatory map to themselves, everything else to disabled. */
  function GetPjsipCode(code: SrtpUse): (r: PjSrtpUse)
    ensures r == PjSrtpDisabled <==> code == SrtpDisabled
  {
    match code
    case SrtpOptional => PjSrtpOptional
    case SrtpMandatory => PjSrtpMandatory
    case _ => PjSrtpDisabled
  }

  /** Distinct SDK modes reach the engine as distinct modes. */
  lemma GetPjsipCodeInjective(a: SrtpUse, b: SrtpUse)
    requires GetPjsipCode(a) == GetPjsipCode(b)
    ensures a == b
  {
  }

  // ----- STUN servers -----

  const DefaultStunServer := "stun.l.google.com:19302"
  const MaxStunServers := 8

  /** The configured entries, trimmed, with the blank ones dropped and the order kept. */
  function CleanStunEntries(entries: seq<string>): (r: seq<string>)
    ensures |r| <= |entries|
    ensures forall k :: 0 <= k < |r| ==> r[k] != []
  {
    if entries == [] then []
    else
      var t := Text.Trim(entries[0]);
      (if t == [] then [] else [t]) + CleanStunEntries(entries[1..])
  }

  /** Every entry that is not blank reaches the list, trimmed. */
  lemma {:induction false} CleanStunEntriesKeeps(entries: seq<string>, j: nat)
    requires j < |entries| && Text.Trim(entries[j]) != []
    ensures Text.Trim(entries[j]) in CleanStunEntries(entries)
  {
    if j > 0 {
      assert entries[1..][j - 1] == entries[j];
      CleanStunEntriesKeeps(entries[1..], j - 1);
    }
  }

  /** Cleaning a list is cleaning its parts: order is kept across the whole list. */
  lemma {:induction false} CleanStunEntriesAppend(a: seq<string>, b: seq<string>)
    ensures CleanStunEntries(a + b) == CleanStunEntries(a) + CleanStunEntries(b)
  {
    if a != [] {
      assert (a + b)[1..] == a[1..] + b;
      CleanStunEntriesAppend(a[1..], b);
    } else {
      assert a + b == b;
    }
  }

  /** The default server (when enabled) followed by the cleaned entries. */
  function StunServerList(settings: CallSettings): (r: seq<string>)
    ensures settings.useDefaultStun ==> |r| >= 1 && r[0] == DefaultStunServer && r[1..] == CleanStunEntries(settings.stunServers)
    ensures !settings.useDefaultStun ==> r == CleanStunEntries(settings.stunServers)
  {
    (if settings.useDefaultStun then [DefaultStunServer] else []) + CleanStunEntries(settings.stunServers)
  }

  /** The servers handed to the engine: at most `PJ_MAX_STUN_SERVERS` of the list, from its head. */
  function StunServersUsed(settings: CallSettings): (r: seq<string>)
    ensures |r| <= MaxStunServers
  {
    var list := StunServerList(settings);
    var count := if |list| < MaxStunServers then |list| else MaxStunServers;
    list[..count]
  }

  /** What the engine receives: no blank server, the default first whenever it is enabled,
      and every configured entry while there is room. */
  lemma StunServersUsedProperties(settings: CallSettings)
    ensures var list, used := StunServerList(settings), StunServersUsed(settings);
      && |used| == (if |list| < MaxStunServers then |list| else MaxStunServers)
      && used == list[..|used|]
      && (forall k :: 0 <= k < |used| ==> used[k] != [])
      && (settings.useDefaultStun ==> used[0] == DefaultStunServer)
  {
    var list := StunServerList(settings);
    assert forall k :: 0 <= k < |list| ==> list[k] != [] by {
      var clean := CleanStunEntries(settings.stunServers);
      if settings.useDefaultStun {
        assert forall k :: 1 <= k < |list| ==> list[k] == clean[k - 1];
      }
    }
  }

  /** With the defaults the engine gets the Google server alone. */
  lemma DefaultSettingsUseGoogleStun()
    ensures StunServersUsed(DefaultSettings()) == [DefaultStunServer]
  {
  }

  // ----- engine calls -----

  /** The account the manager registers. */
  datatype AccountConfig = AccountConfig(
    id: string, username: string, password: string, realm: string, scheme: string,
    contactRewrite: bool, viaRewrite: bool, sdpNatRewrite: bool, srtp: PjSrtpUse, customIce: bool)

  /** Media streams as the engine reports them. */
  datatype MediaType = AudioMedia | VideoMedia | OtherMedia
  datatype MediaStatus = MediaNone | MediaActive | MediaLocalHold | MediaRemoteHold | MediaError
  datatype MediaInfo = MediaInfo(mediaType: MediaType, status: MediaStatus, confSlot: int)

  const PjSuccess := 0
  const InvalidId := -1

  /** One call into the engine. */
  datatype EngineCall =
    | Create
    | Init(iceEnabled: bool, stunServers: seq<string>)
    | CreateTransport(transport: Transport)
    | AddAccount(account: AccountConfig)
    | StartEngine
    | NoSoundDevice
    | MakeCallTo(uri: string)
    | Hangup(callId: int, code: int)
    | DialDtmf(callId: int, digits: string)
    | HoldCall(callId: int)
    | Reinvite(callId: int)
    | ConfConnect(source: int, sink: int)
    | ConfDisconnect(source: int, sink: int)
    | SetSoundDevice
    | HangupAll
    | DestroyEngine

  /** Whether the engine is up after a history of calls: the latest of a completed start (the
      final `NoSoundDevice`) and a teardown decides. */
  predicate EngineRunning(trace: seq<EngineCall>)
  {
    if trace == [] then false
    else if trace[|trace| - 1].NoSoundDevice? then true
    else if trace[|trace| - 1].DestroyEngine? then false
    else EngineRunning(trace[..|trace| - 1])
  }

  predicate Lifecycle(c: EngineCall)
  {
    c.NoSoundDevice? || c.DestroyEngine?
  }

  /** Calls other than start completion and teardown do not change whether the engine runs. */
  lemma {:induction false} RunningIgnoresTraffic(trace: seq<EngineCall>, extra: seq<EngineCall>)
    requires forall k :: 0 <= k < |extra| ==> !Lifecycle(extra[k])
    ensures EngineRunning(trace + extra) == EngineRunning(trace)
    decreases |extra|
  {
    if extra == [] {
      assert trace + extra == trace;
    } else {
      var t := trace + extra;
      assert t[..|t| - 1] == trace + extra[..|extra| - 1];
      RunningIgnoresTraffic(trace, extra[..|extra| - 1]);
    }
  }

  /** The statuses the engine returns while starting up. */
  datatype StartReplies = StartReplies(create: int, init: int, addAccount: int, start: int)

  /** The account `initPjsuaConfigs` registers for a configuration under the given settings. */
  function AccountFor(config: SipConfig, settings: CallSettings): (a: AccountConfig)
    ensures a.id == SipScheme + config.GetExtension() + "@" + config.GetDomain()
    ensures a.username == config.GetAuth() && a.password == config.GetPassword()
    ensures a.realm == "*" && a.scheme == "digest"
    ensures a.contactRewrite == settings.contactRewriteUse && a.viaRewrite == settings.viaRewriteUse
    ensures a.sdpNatRewrite == settings.sdpNatRewriteUse
    ensures a.srtp == GetPjsipCode(settings.srtpUse) && a.customIce == settings.iceEnabled
  {
    AccountConfig(SipScheme + config.GetExtension() + "@" + config.GetDomain(),
      config.GetAuth(), config.GetPassword(), "*", "digest",
      settings.contactRewriteUse, settings.viaRewriteUse, settings.sdpNatRewriteUse,
      GetPjsipCode(settings.srtpUse), settings.iceEnabled)
  }

  /** `createTransport`: `TCP_UDP` creates a TCP and then a UDP transport. */
  function TransportCalls(t: Transport): (r: seq<EngineCall>)
  {
    if t == TCP_UDP then [CreateTransport(TCP), CreateTransport(UDP)] else [CreateTransport(t)]
  }

  /** The engine calls `destroy` makes: a running engine hangs every call up and is destroyed;
      a stopped one is left alone. */
  function TeardownCalls(wasRunning: bool): (r: seq<EngineCall>)
    ensures r == [] <==> !wasRunning
  {
    if wasRunning then [HangupAll, DestroyEngine] else []
  }

  /** The outcome of `initPjsuaConfigs`: the first failing step names the error. */
  function InitOutcome(replies: StartReplies): (r: Outcome<CallError>)
    ensures r.Pass? <==>
      replies.create == PjSuccess && replies.init == PjSuccess
      && replies.addAccount == PjSuccess && replies.start == PjSuccess
    ensures r.Fail? ==> r.error.SipError?
  {
    if replies.create != PjSuccess then Fail(SipError("Failed to create pjsua"))
    else if replies.init != PjSuccess then Fail(SipError("Failed to init pjsua"))
    else if replies.addAccount != PjSuccess then Fail(SipError("Failed to add SIP account"))
    else if replies.start != PjSuccess then Fail(SipError("Failed to start pjsua"))
    else Pass
  }

  /** The engine calls `initPjsuaConfigs` makes, up to its first failing step. A failed account
      registration tears the engine down again. */
  function InitTrace(config: SipConfig, settings: CallSettings, replies: StartReplies): (r: seq<EngineCall>)
  {
    [Create] + if replies.create != PjSuccess then [] else SetupCalls(config, settings, replies)
  }

  /** The calls after `pjsua_create` succeeded: the media and STUN configuration, then the rest. */
  function SetupCalls(config: SipConfig, settings: CallSettings, replies: StartReplies): seq<EngineCall>
  {
    [Init(settings.iceEnabled, StunServersUsed(settings))]
    + if replies.init != PjSuccess then [] else RegisterCalls(config, settings, replies.addAccount, replies.start)
  }

  /** The calls from transport creation on. */
  function RegisterCalls(config: SipConfig, settings: CallSettings, addStatus: int, startStatus: int): seq<EngineCall>
  {
    TransportCalls(ChosenTransport(config.GetProxy())) + [AddAccount(AccountFor(config, settings))]
    + if addStatus != PjSuccess then [DestroyEngine] else StartCalls(startStatus)
  }

  /** The same sequence over abstract configuration calls. */
  function StartUpCalls(replies: StartReplies, init: EngineCall, transports: seq<EngineCall>, account: EngineCall): seq<EngineCall>
  {
    [Create] +
    if replies.create != PjSuccess then [] else
    [init] +
    if replies.init != PjSuccess then [] else
    transports + [account] +
    if replies.addAccount != PjSuccess then [DestroyEngine] else
    StartCalls(replies.start)
  }

  lemma InitTraceIsStartUp(config: SipConfig, settings: CallSettings, replies: StartReplies)
    ensures InitTrace(config, settings, replies)
         == StartUpCalls(replies, Init(settings.iceEnabled, StunServersUsed(settings)),
              TransportCalls(ChosenTransport(config.GetProxy())), AddAccount(AccountFor(config, settings)))
  {
  }

  /** The calls after a registered account: start, and drop the sound device once started. */
  function StartCalls(status: int): seq<EngineCall>
  {
    if status != PjSuccess then [StartEngine] else [StartEngine, NoSoundDevice]
  }

  /** A start-up attempt from a stopped engine leaves it running exactly when every step
      succeeded. */
  lemma InitTraceRuns(trace: seq<EngineCall>, config: SipConfig, settings: CallSettings, replies: StartReplies)
    requires !EngineRunning(trace)
    ensures EngineRunning(trace + InitTrace(config, settings, replies)) <==> InitOutcome(replies).Pass?
  {
    var transports := TransportCalls(ChosenTransport(config.GetProxy()));
    assert forall k :: 0 <= k < |transports| ==> !Lifecycle(transports[k]);
    InitTraceIsStartUp(config, settings, replies);
    StartUpCallsRun(trace, replies, Init(settings.iceEnabled, StunServersUsed(settings)),
      transports, AddAccount(AccountFor(config, settings)));
  }

  lemma StartUpCallsRun(trace: seq<EngineCall>, replies: StartReplies, init: EngineCall,
                        transports: seq<EngineCall>, account: EngineCall)
    requires !EngineRunning(trace)
    requires !Lifecycle(init) && !Lifecycle(account)
    requires forall k :: 0 <= k < |transports| ==> !Lifecycle(transports[k])
    ensures EngineRunning(trace + StartUpCalls(replies, init, transports, account)) <==> InitOutcome(replies).Pass?
  {
    var calls := StartUpCalls(replies, init, transports, account);
    var setup := [Create, init] + transports + [account];
    if replies.create != PjSuccess {
      assert calls == [Create];
      RunningIgnoresTraffic(trace, [Create]);
    } else if replies.init != PjSuccess {
      assert calls == [Create, init];
      RunningIgnoresTraffic(trace, [Create, init]);
    } else if replies.addAccount != PjSuccess {
      assert calls == setup + [DestroyEngine];
      assert (trace + calls)[|trace + calls| - 1] == DestroyEngine;
    } else if replies.start != PjSuccess {
      assert calls == setup + [StartEngine];
      RunningIgnoresTraffic(trace, setup + [StartEngine]);
    } else {
      assert calls == setup + [StartEngine, NoSoundDevice];
      assert (trace + calls)[|trace + calls| - 1] == NoSoundDevice;
    }
  }

  /** The error a failing engine status becomes: its decimal rendering. */
  function StatusError(status: int): (e: CallError)
    ensures e.SipError? && Text.ParseInt(e.message) == status
  {
    Text.IntToStringRoundTrip(status);
    SipError(Text.IntToString(status))
  }

  /** The outcome of a call that only checks the engine's status. */
  function StatusOutcome(status: int): (r: Outcome<CallError>)
    ensures r.Pass? <==> status == PjSuccess
    ensures r.Fail? ==> r.error == StatusError(status)
  {
    if status == PjSuccess then Pass else Fail(StatusError(status))
  }

  /** Distinct failing statuses give distinct errors. */
  lemma StatusErrorInjective(s1: int, s2: int)
    requires StatusError(s1) == StatusError(s2)
    ensures s1 == s2
  {
  }

  // ----- muting -----

  /** A stream `setMute` acts on: audio, active, with a valid conference slot. */
  predicate Mutable(m: MediaInfo)
  {
    m.mediaType == AudioMedia && m.status == MediaActive && m.confSlot != InvalidId
  }

  /** The conference slots `setMute` acts on, in stream order. */
  function MuteTargets(medias: seq<MediaInfo>): (r: seq<int>)
    ensures |r| <= |medias|
    ensures forall k :: 0 <= k < |r| ==> r[k] != InvalidId
  {
    if medias == [] then []
    else
      var last := medias[|medias| - 1];
      MuteTargets(medias[..|medias| - 1]) + (if Mutable(last) then [last.confSlot] else [])
  }

  /** There is something to mute exactly when some stream is an active audio stream with a
      valid slot. */
  lemma {:induction false} MuteTargetsEmptyIff(medias: seq<MediaInfo>)
    ensures MuteTargets(medias) == [] <==> forall k :: 0 <= k < |medias| ==> !Mutable(medias[k])
  {
    if medias != [] {
      var init := medias[..|medias| - 1];
      MuteTargetsEmptyIff(init);
      assert forall k :: 0 <= k < |init| ==> init[k] == medias[k];
    }
  }

  lemma MuteTargetsStep(medias: seq<MediaInfo>, i: nat)
    requires i < |medias|
    ensures MuteTargets(medias[..i + 1])
         == MuteTargets(medias[..i]) + (if Mutable(medias[i]) then [medias[i].confSlot] else [])
  {
    assert medias[..i + 1][..i] == medias[..i];
  }

  /** Muting disconnects the microphone (slot 0) from a stream; unmuting connects it. */
  function MuteCall(mute: bool, slot: int): EngineCall
  {
    if mute then ConfDisconnect(0, slot) else ConfConnect(0, slot)
  }

  function MuteCalls(mute: bool, slots: seq<int>): (r: seq<EngineCall>)
    ensures |r| == |slots|
    ensures forall k :: 0 <= k < |r| ==> r[k] == MuteCall(mute, slots[k])
  {
    if slots == [] then [] else MuteCalls(mute, slots[..|slots| - 1]) + [MuteCall(mute, slots[|slots| - 1])]
  }

  /** Switching streams never starts or tears down the engine. */
  lemma MuteCallsAreTraffic(mute: bool, slots: seq<int>)
    ensures forall k :: 0 <= k < |slots| ==> !Lifecycle(MuteCalls(mute, slots)[k])
  {
  }

  lemma MuteCallsStep(mute: bool, slots: seq<int>, slot: int)
    ensures MuteCalls(mute, slots + [slot]) == MuteCalls(mute, slots) + [MuteCall(mute, slot)]
  {
    assert (slots + [slot])[..|slots|] == slots;
  }

  class SipManager {
    var settings: CallSettings
    var isDestroying: bool
    var isActivePjsip: bool
    /** The engine calls made so far. */
    var log: seq<EngineCall>
    /** How many `destroy` completions have been delivered. */
    var completions: nat

    /** The engine flag agrees with the call history, and teardown never stays half-done. */
    predicate Valid()
      reads this
    {
      isActivePjsip == EngineRunning(log) && !isDestroying
    }

    constructor ()
      ensures Valid()
      ensures settings == DefaultSettings() && log == [] && completions == 0
      ensures !isActivePjsip
    {
      settings := DefaultSettings();
      isDestroying := false;
      isActivePjsip := false;
      log := [];
      completions := 0;
    }

    /** `updateCallSetting`: the settings apply from the next engine start. */
    method UpdateCallSetting(s: CallSettings)
      modifies this
      requires Valid()
      ensures Valid()
      ensures settings == s && log == old(log) && isActivePjsip == old(isActivePjsip)
      ensures completions == old(completions)
    {
      settings := s;
    }

    /** The transports `initPjsuaConfigs` creates for a configuration. */
    static method CreateTransportCalls(config: SipConfig) returns (calls: seq<EngineCall>)
      ensures calls == TransportCalls(ChosenTransport(config.GetProxy()))
    {
      var parsed := TransportFrom(config.GetProxy());
      var transport := if parsed.Some? then parsed.value else TCP_UDP;
      calls := TransportCalls(transport);
    }

    /** `initPjsuaConfigs`. */
    method InitPjsuaConfigs(config: SipConfig, replies: StartReplies) returns (r: Outcome<CallError>)
      modifies this
      ensures log == old(log) + InitTrace(config, old(settings), replies)
      ensures r == InitOutcome(replies)
      ensures isActivePjsip == (old(isActivePjsip) || r.Pass?)
      ensures settings == old(settings) && isDestroying == old(isDestroying) && completions == old(completions)
    {
      log := log + [Create];
      if replies.create != PjSuccess {
        return Fail(SipError("Failed to create pjsua"));
      }
      r := InitEngine(config, replies);
    }

    /** `initPjsuaConfigs` after `pjsua_create`. */
    method InitEngine(config: SipConfig, replies: StartReplies) returns (r: Outcome<CallError>)
      modifies this
      requires replies.create == PjSuccess
      ensures log == old(log) + SetupCalls(config, old(settings), replies)
      ensures r == InitOutcome(replies)
      ensures isActivePjsip == (old(isActivePjsip) || r.Pass?)
      ensures settings == old(settings) && isDestroying == old(isDestroying) && completions == old(completions)
    {
      log := log + [Init(settings.iceEnabled, StunServersUsed(settings))];
      if replies.init != PjSuccess {
        return Fail(SipError("Failed to init pjsua"));
      }
      r := RegisterAccount(config, replies.addAccount, replies.start);
    }

    /** `initPjsuaConfigs` after `pjsua_init`: transports, then the account, which on failure
        tears the engine down again. */
    method RegisterAccount(config: SipConfig, addStatus: int, startStatus: int) returns (r: Outcome<CallError>)
      modifies this
      ensures log == old(log) + RegisterCalls(config, old(settings), addStatus, startStatus)
      ensures r == if addStatus != PjSuccess then Fail(SipError("Failed to add SIP account"))
                   else if startStatus != PjSuccess then Fail(SipError("Failed to start pjsua")) else Pass
      ensures isActivePjsip == (old(isActivePjsip) || r.Pass?)
      ensures settings == old(settings) && isDestroying == old(isDestroying) && completions == old(completions)
    {
      var transports := CreateTransportCalls(config);
      log := log + transports + [AddAccount(AccountFor(config, settings))];
      if addStatus != PjSuccess {
        log := log + [DestroyEngine];
        return Fail(SipError("Failed to add SIP account"));
      }
      r := StartPjsua(startStatus);
    }

    /** The final step of `initPjsuaConfigs`: start the engine and, once it runs, leave the
        sound device closed until a call needs it. */
    method StartPjsua(status: int) returns (r: Outcome<CallError>)
      modifies this
      ensures log == old(log) + StartCalls(status)
      ensures r == if status != PjSuccess then Fail(SipError("Failed to start pjsua")) else Pass
      ensures isActivePjsip == (old(isActivePjsip) || r.Pass?)
      ensures settings == old(settings) && isDestroying == old(isDestroying) && completions == old(completions)
    {
      log := log + [StartEngine];
      if status != PjSuccess {
        return Fail(SipError("Failed to start pjsua"));
      }
      log := log + [NoSoundDevice];
      isActivePjsip := true;
      return Pass;
    }

    /** `start`: nothing to do when the engine already runs. */
    method Start(config: SipConfig, replies: StartReplies) returns (r: Outcome<CallError>)
      modifies this
      requires Valid()
      ensures Valid()
      ensures old(isActivePjsip) ==> r == Pass && log == old(log) && isActivePjsip
      ensures !old(isActivePjsip) ==> r == InitOutcome(replies) && log == old(log) + InitTrace(config, settings, replies)
      ensures isActivePjsip <==> r.Pass?
      ensures settings == old(settings) && completions == old(completions)
    {
      if isActivePjsip {
        return Pass;
      }
      InitTraceRuns(log, config, settings, replies);
      r := InitPjsuaConfigs(config, replies);
      if r.Pass? {
        isActivePjsip := true;
      }
    }

    /** `makeCall`: starts the engine if needed and dials; `callId` is the id the engine
        assigns when it accepts the call. */
    method MakeCall(config: SipConfig, toNumber: string, toName: Option<string>, replies: StartReplies,
                    status: int, callId: nat) returns (r: Result<int, CallError>)
      modifies this
      requires Valid()
      ensures Valid()
      ensures var started := if old(isActivePjsip) then Pass else InitOutcome(replies);
        && (started.Fail? ==> r == Failure(started.error))
        && (started.Pass? && status != PjSuccess ==> r == Failure(StatusError(status)))
        && (started.Pass? && status == PjSuccess ==> r == Success(callId))
      ensures var started := if old(isActivePjsip) then Pass else InitOutcome(replies);
        var startCalls := if old(isActivePjsip) then [] else InitTrace(config, settings, replies);
        log == old(log) + startCalls + (if started.Pass? then [MakeCallTo(BuildUrl(config, toNumber, toName))] else [])
      ensures r.Success? ==> isActivePjsip
      ensures settings == old(settings) && completions == old(completions)
    {
      ghost var log0 := log;
      ghost var startCalls := if isActivePjsip then [] else InitTrace(config, settings, replies);
      var started := Start(config, replies);
      assert log == log0 + startCalls;
      if started.Fail? {
        return Failure(started.error);
      }
      var url := BuildUrl(config, toNumber, toName);
      RunningIgnoresTraffic(log, [MakeCallTo(url)]);
      log := log + [MakeCallTo(url)];
      assert log == log0 + startCalls + [MakeCallTo(url)];
      if status != PjSuccess {
        return Failure(StatusError(status));
      }
      return Success(callId);
    }

    /** `disconnectCall`: hangs the call up with the given SIP status code. */
    method DisconnectCall(id: int, code: nat, status: int) returns (r: Outcome<CallError>)
      modifies this
      requires Valid()
      ensures Valid()
      ensures log == old(log) + [Hangup(id, code)]
      ensures r == StatusOutcome(status)
      ensures isActivePjsip == old(isActivePjsip) && settings == old(settings) && completions == old(completions)
    {
      RunningIgnoresTraffic(log, [Hangup(id, code)]);
      log := log + [Hangup(id, code)];
      r := StatusOutcome(status);
    }

    /** `sendDTMF`. */
    method SendDtmf(digits: string, id: int, status: int) returns (r: Outcome<CallError>)
      modifies this
      requires Valid()
      ensures Valid()
      ensures log == old(log) + [DialDtmf(id, digits)]
      ensures r == StatusOutcome(status)
      ensures isActivePjsip == old(isActivePjsip) && settings == old(settings) && completions == old(completions)
    {
      RunningIgnoresTraffic(log, [DialDtmf(id, digits)]);
      log := log + [DialDtmf(id, digits)];
      r := StatusOutcome(status);
    }

    /** `setHold`: holding puts the call on hold; releasing re-invites it. */
    method SetHold(onHold: bool, id: int, status: int) returns (r: Outcome<CallError>)
      modifies this
      requires Valid()
      ensures Valid()
      ensures log == old(log) + [if onHold then HoldCall(id) else Reinvite(id)]
      ensures r == StatusOutcome(status)
      ensures isActivePjsip == old(isActivePjsip) && settings == old(settings) && completions == old(completions)
    {
      var c := if onHold then HoldCall(id) else Reinvite(id);
      RunningIgnoresTraffic(log, [c]);
      log := log + [c];
      r := StatusOutcome(status);
    }

    /** `setMute`: `info` is the call's media list, or `None` when the engine cannot report it.
        Every active audio stream with a valid slot is switched; finding none is an error. */
    method SetMute(mute: bool, id: int, info: Option<seq<MediaInfo>>) returns (r: Outcome<CallError>)
      modifies this
      requires Valid()
      ensures Valid()
      ensures info.None? ==> r == Fail(InvalidState("Failed to get call info")) && log == old(log)
      ensures info.Some? ==> log == old(log) + MuteCalls(mute, MuteTargets(info.value))
      ensures info.Some? && r.Fail? ==> r == Fail(InvalidState("No active audio media to mute/unmute"))
      ensures r.Pass? <==> info.Some? && exists k :: 0 <= k < |info.value| && Mutable(info.value[k])
      ensures isActivePjsip == old(isActivePjsip) && settings == old(settings) && completions == old(completions)
    {
      if info.None? {
        return Fail(InvalidState("Failed to get call info"));
      }
      var calls, processed := SwitchStreams(mute, info.value);
      RunningIgnoresTraffic(log, calls);
      log := log + calls;
      if !processed {
        return Fail(InvalidState("No active audio media to mute/unmute"));
      }
      return Pass;
    }

    /** The loop of `setMute`: the microphone is connected to or disconnected from every active
        audio stream with a valid slot, in stream order; `processed` tells whether there was one. */
    static method SwitchStreams(mute: bool, medias: seq<MediaInfo>) returns (calls: seq<EngineCall>, processed: bool)
      ensures calls == MuteCalls(mute, MuteTargets(medias))
      ensures processed <==> exists k :: 0 <= k < |medias| && Mutable(medias[k])
      ensures forall k :: 0 <= k < |calls| ==> !Lifecycle(calls[k])
    {
      calls := [];
      processed := false;
      ghost var targets: seq<int> := [];
      var i := 0;
      while i < |medias|
        invariant 0 <= i <= |medias|
        invariant targets == MuteTargets(medias[..i])
        invariant calls == MuteCalls(mute, targets)
        invariant processed <==> targets != []
      {
        var media := medias[i];
        MuteTargetsStep(medias, i);
        if Mutable(media) {
          MuteCallsStep(mute, targets, media.confSlot);
          calls := calls + [MuteCall(mute, media.confSlot)];
          targets := targets + [media.confSlot];
          processed := true;
        }
        i := i + 1;
      }
      assert medias[..i] == medias;
      MuteTargetsEmptyIff(medias);
      MuteCallsAreTraffic(mute, targets);
    }

    /** `startAudio`: opens the sound device, unless the engine is down or going down. */
    method StartAudio()
      modifies this
      requires Valid()
      ensures Valid()
      ensures log == if !old(isDestroying) && old(isActivePjsip) then old(log) + [SetSoundDevice] else old(log)
      ensures isActivePjsip == old(isActivePjsip) && settings == old(settings) && completions == old(completions)
    {
      if isDestroying || !isActivePjsip {
        return;
      }
      RunningIgnoresTraffic(log, [SetSoundDevice]);
      log := log + [SetSoundDevice];
    }

    /** `destroy`: hangs up everything and tears the engine down when it runs; completes
        exactly once either way. */
    method Destroy()
      modifies this
      requires Valid()
      ensures Valid()
      ensures completions == old(completions) + 1
      ensures !isActivePjsip && !isDestroying
      ensures log == old(log) + TeardownCalls(old(isActivePjsip))
      ensures settings == old(settings)
    {
      if !isActivePjsip {
        completions := completions + 1;
        return;
      }
      isDestroying := true;
      log := log + [HangupAll, DestroyEngine];
      isActivePjsip := false;
      isDestroying := false;
      completions := completions + 1;
    }
  }
}
