# Webitel voice SDK for iOS: a verified model of its call core

This project models the core of the Webitel voice SDK for iOS in Dafny. The SDK places one
audio call from an iOS app to a Webitel service number over SIP:

- it obtains the SIP connection parameters from the Webitel token backend, either by an
  identity exchange for a configured user or with a JWT;
- it starts the SIP engine (pjsua) on first use, with STUN servers, a transport and a
  registered digest account;
- it dials the service and follows the call through the engine's invite and media events;
- it lets the app mute, hold, send DTMF and hang up, reporting state changes to the call's
  listeners;
- it tears the engine down once no call is left.

Module by module:

- `EndReasons` is the status-code table of `CallEndReason.from` and the categories.
- `CallStates` is the call state, with its case-only equality and its description.
- `SipConfigs` is the connection parameters.
- `Settings` is the call settings and their defaults.
- `Api` is the backend's HTTP surface: base address normalisation, the two requests, and how
  a reply becomes a decoded response or an error.
- `Auth` is credential resolution.
  - `AuthManager` is a class holding the user and the token.
- `Sip` is the engine gateway. Its pure parts are transport selection, the dial URI, the
  SRTP mapping, the STUN list, the start-up trace and its outcome, and the mute targets.
  - `SipManager` is a class. It keeps the settings, the engine flags and the history of
    engine calls it made, as a log.
- `Calls` is one call session.
  - `WebitelCall` is a class whose fields are those of the source.
  - Each operation is proved against a function on a value view of the fields.
- `Voice` is the session supervisor.
  - `VoiceManager` is a class with the UUID and engine-id maps and the active call.
  - It routes engine events, chooses hang-up codes, holds the other calls when one becomes
    active, and shuts the engine down when the last call goes.
- `Client` is the public entry point.
  - `WebitelVoiceClient` builds the client, reuses an active call, sets a new call up in
    the source's order, and turns set-up failures into end reasons.

Inputs from outside the SDK are parameters of the operations that use them:

- the engine's status replies;
- the network's reply to a request;
- the media list the engine reports;
- the clock;
- new UUIDs;
- the stored device id and the user agent.

## Model

| member | source | states |
|---|---|---|
| EndReasons.From | Sources/VoiceSDK/Public/CallEndReason.swift:83-119 | The reason keeps the code. A present, non-empty override replaces the table's message; otherwise the table's message is used. |
| EndReasons.CodeAmongItsTypeCodes | Sources/VoiceSDK/Public/CallEndReason.swift:85-111 | A code that gets a known reason type is one of the codes the table lists for that type. |
| EndReasons.CodesOfGiveType | Sources/VoiceSDK/Public/CallEndReason.swift:85-111 | Every code the table lists for a type is mapped to that type. |
| EndReasons.FromMatchesCodesOf | Sources/VoiceSDK/Public/CallEndReason.swift:85-111 | For every known type: a code gets that type if and only if it is one of that type's codes. |
| EndReasons.UnmappedCode | Sources/VoiceSDK/Public/CallEndReason.swift:109-111 | A code outside the table is `unknown` with category unknown, and its message is the fixed prefix followed by the decimal code. |
| EndReasons.UnmappedMessageNamesCode | Sources/VoiceSDK/Public/CallEndReason.swift:109-111 | The code of an unmapped status can be parsed back from its message. |
| EndReasons.UnknownExactlyOutsideTable | Sources/VoiceSDK/Public/CallEndReason.swift:85-111 | The type is `unknown` exactly for the codes the table does not list. |
| EndReasons.OverrideOnlyChangesMessage | Sources/VoiceSDK/Public/CallEndReason.swift:83-119 | Two overrides give the same code, type and category. |
| EndReasons.NotableCodes | Sources/VoiceSDK/Public/CallEndReason.swift:85-111 | 486 and 600 are busy; 0 is a cancelled request; 401 is unauthorised; 200 is a normal completion. |
| EndReasons.CategoryGroups | Sources/VoiceSDK/Public/CallEndReason.swift:124-147 | Each category holds exactly the types the switch groups into it, both directions. |
| EndReasons.ReasonRawInjective | Sources/VoiceSDK/Public/CallEndReason.swift:24-73 | Distinct reason types have distinct raw strings. |
| CallStates.CaseIndex | Sources/VoiceSDK/Public/CallState.swift:12-27 | Each state has one of five case positions. |
| CallStates.SameIffSameCase | Sources/VoiceSDK/Public/CallState.swift:33-45 | `==` holds exactly when both states are of the same case. |
| CallStates.SameIsEquivalence | Sources/VoiceSDK/Public/CallState.swift:33-45 | `==` is reflexive, symmetric and transitive. |
| CallStates.DisconnectedAlwaysSame | Sources/VoiceSDK/Public/CallState.swift:40-41 | Two disconnected states are equal whatever their end reasons. |
| CallStates.SameIsEqualityOutsideDisconnected | Sources/VoiceSDK/Public/CallState.swift:33-45 | For a state that is not disconnected, `==` is structural equality. |
| CallStates.DisconnectedDescriptionEmbedsReason | Sources/VoiceSDK/Public/CallState.swift:60-67 | A disconnected state's description carries the raw type and then the message, each at a fixed position. |
| CallStates.DescriptionSeparatesCases | Sources/VoiceSDK/Public/CallState.swift:50-69 | Equal descriptions imply `==` states. |
| SipConfigs.SipConfig.GetProxy | Sources/VoiceSDK/Internal/Auth/SipConfig.swift:29-32 | The result starts with `sip:`. A proxy that already starts with it is returned unchanged. |
| SipConfigs.SipConfig.GetServerUri | Sources/VoiceSDK/Internal/Auth/SipConfig.swift:35-38 | One leading `sip:` is removed; a proxy without it is returned unchanged. |
| SipConfigs.ProxyIsSchemePlusServerUri | Sources/VoiceSDK/Internal/Auth/SipConfig.swift:29-38 | For every configuration, the proxy URI equals `sip:` followed by the server URI. |
| SipConfigs.ServerUriStripsOnce | Sources/VoiceSDK/Internal/Auth/SipConfig.swift:35-38 | A doubled scheme keeps its second copy. |
| SipConfigs.GetProxyIdempotent | Sources/VoiceSDK/Internal/Auth/SipConfig.swift:29-32 | Applying `getProxy` to its own result changes nothing. |
| SipConfigs.GettersReturnFields | Sources/VoiceSDK/Internal/Auth/SipConfig.swift:19-58 | The password, extension, domain and auth getters return the fields the configuration was built from. |
| Settings.DefaultSettings | Sources/VoiceSDK/Public/CallSettings.swift:13-64 | Default settings are: no ICE; no SDP NAT rewrite; contact and Via rewrite on; default STUN on; SRTP disabled; busy-everywhere off; no STUN servers. |
| Api.NormalizeBaseUrl | Sources/VoiceSDK/Internal/Auth/Api.swift:102-108 | An address with an http or https scheme in any letter case is kept. Any other address gets `https://` in front. |
| Api.NormalizedHasScheme | Sources/VoiceSDK/Internal/Auth/Api.swift:102-108 | Every normalised address has an HTTP(S) scheme. |
| Api.NormalizeIdempotent | Sources/VoiceSDK/Internal/Auth/Api.swift:102-108 | Normalising twice equals normalising once. |
| Api.RequestShapes | Sources/VoiceSDK/Internal/Auth/Api.swift:13-56 | Both requests go to the normalised base followed by the token path. Both carry the four common headers. The GET carries the JWT in the access header and no body; the POST carries the encoded body and no access header. |
| Api.CommonHeadersLackAccess | Sources/VoiceSDK/Internal/Auth/Api.swift:48-56 | No common header is the access header. |
| Api.HandleResponseError | Sources/VoiceSDK/Internal/Auth/Api.swift:85-94 | Status 401 gives an authorisation error, and only 401 does. Any other status gives an unknown error with that code. The message is the body text, or "Unknown error" without one. |
| Api.HandleError | Sources/VoiceSDK/Internal/Auth/Api.swift:97-99 | A decoding failure is an unknown error with code -1 and the failure's description. |
| Api.Send | Sources/VoiceSDK/Internal/Auth/Api.swift:59-77 | Success exactly when a response arrived with no status or status 200 and decoding succeeded; the value is then the decoded response. A transport failure is passed on as a platform error. A non-200 status goes through `handleResponseError`. |
| Api.SendErrors | Sources/VoiceSDK/Internal/Auth/Api.swift:59-99 | 401 gives unauthorised. Any other non-200 status gives an unknown error with that code. A decoding failure of a 200 reply gives code -1. |
| Auth.ChooseMode | Sources/VoiceSDK/Internal/Auth/AuthManager.swift:33-41 | A user wins over a token. A non-empty token is used only without a user. With neither, the result is an authorisation error. |
| Auth.IdentityRequest | Sources/VoiceSDK/Internal/Auth/AuthManager.swift:44-55 | Scope `call`, grant type `identity`, response types `call` and `token`, code `authorization_code`, the client token, and the user's identity fields. |
| Auth.PasswordFor | Sources/VoiceSDK/Internal/Auth/AuthManager.swift:74 | The password is the secret when present and non-empty. Otherwise it is the access token, or empty when there is none. |
| Auth.ProcessSipResponse | Sources/VoiceSDK/Internal/Auth/AuthManager.swift:69-86 | It fails, with an invalid-response error, exactly when the reply has no call payload. Otherwise: auth is the device id, domain is the realm, extension is the user id, proxy is the proxy, and the password is as above. |
| Auth.EmptySecretUsesAccessToken | Sources/VoiceSDK/Internal/Auth/AuthManager.swift:74 | For every access token, a missing or empty secret makes the password that token; with no token either, the password is empty. The rest of the configuration is unaffected. |
| Auth.AuthManager.constructor | Sources/VoiceSDK/Internal/Auth/AuthManager.swift:12-20 | Keeps the network configuration; no token, no user. |
| Auth.AuthManager.SetUser | Sources/VoiceSDK/Internal/Auth/AuthManager.swift:23-25 | Stores the user; the token is unchanged. |
| Auth.AuthManager.SetJWT | Sources/VoiceSDK/Internal/Auth/AuthManager.swift:28-30 | Stores the token; the user is unchanged. |
| Auth.AuthManager.GetSipConfig | Sources/VoiceSDK/Internal/Auth/AuthManager.swift:33-86 | Without credentials, nothing is sent and an authorisation error is returned. With a user, the login POST is sent; otherwise, with a token, the token GET is sent. The result succeeds exactly when the reply decodes and has a call payload, and it is then the processed response, with its password, domain, extension and proxy. A reply without a call payload fails with invalid response. Otherwise the reply's error is passed on. |
| Auth.RequestSent | Sources/VoiceSDK/Internal/Auth/AuthManager.swift:33-40 | A request is sent exactly when a user or a non-empty token is set. |
| Auth.FetchSipConfig | Sources/VoiceSDK/Internal/Auth/AuthManager.swift:33-86 | Succeeds exactly when credentials are set, the reply decodes and it has a call payload. The result is then the processed response. |
| Sip.TransportFrom | Sources/VoiceSDK/Internal/Sip/SipManager.swift:369-383 | The scanning loop returns the transport named by the first `transport=` component. The key and value are trimmed and lower-cased. |
| Sip.FirstTransportParamDecides | Sources/VoiceSDK/Internal/Sip/SipManager.swift:369-383 | The first transport component decides, whatever follows it. |
| Sip.NoTransportParam | Sources/VoiceSDK/Internal/Sip/SipManager.swift:369-383 | Without a transport component there is no transport. |
| Sip.TransportNeverCombined | Sources/VoiceSDK/Internal/Sip/SipManager.swift:374-378 | A parameter never names TCP_UDP. |
| Sip.TransportParamSelects | Sources/VoiceSDK/Internal/Sip/SipManager.swift:369-383 | `host;transport=v` selects the transport named by `v`, in any letter case and with blanks trimmed. |
| Sip.PlainProxyUsesTcpAndUdp | Sources/VoiceSDK/Internal/Sip/SipManager.swift:248 | A proxy without parameters gets TCP and UDP. |
| Sip.DialUriIgnoresProxyScheme | Sources/VoiceSDK/Internal/Sip/SipManager.swift:316-318 | The dial URI is the same whether or not the proxy carries `sip:`. |
| Sip.DialUriParts | Sources/VoiceSDK/Internal/Sip/SipManager.swift:316-318 | The URI is the quoted name followed by `<sip:number@server>`. A missing name is the empty name. |
| Sip.GetPjsipCode | Sources/VoiceSDK/Internal/Sip/SipManager.swift:386-392 | The engine gets SRTP disabled exactly for a disabled setting. |
| Sip.GetPjsipCodeInjective | Sources/VoiceSDK/Internal/Sip/SipManager.swift:386-392 | Distinct SRTP settings reach the engine as distinct modes. |
| Sip.CleanStunEntries | Sources/VoiceSDK/Internal/Sip/SipManager.swift:219 | No entry of the cleaned list is empty, and the list is no longer than the input. |
| Sip.CleanStunEntriesKeeps | Sources/VoiceSDK/Internal/Sip/SipManager.swift:219 | Every entry that is not blank reaches the list, trimmed. |
| Sip.CleanStunEntriesAppend | Sources/VoiceSDK/Internal/Sip/SipManager.swift:219 | Cleaning distributes over concatenation, so the order is kept. |
| Sip.StunServerList | Sources/VoiceSDK/Internal/Sip/SipManager.swift:218-219 | The Google server comes first when the default is enabled, followed by the cleaned entries. |
| Sip.StunServersUsed | Sources/VoiceSDK/Internal/Sip/SipManager.swift:220-231 | At most `PJ_MAX_STUN_SERVERS` (8) servers are passed to the engine. |
| Sip.StunServersUsedProperties | Sources/VoiceSDK/Internal/Sip/SipManager.swift:218-231 | The servers used are a prefix of the list, with no blank server. The count is the smaller of 8 and the list's length. The default comes first whenever it is enabled. |
| Sip.DefaultSettingsUseGoogleStun | Sources/VoiceSDK/Internal/Sip/SipManager.swift:22 | Under the default settings the engine gets only `stun.l.google.com:19302`. |
| Sip.RunningIgnoresTraffic | Sources/VoiceSDK/Internal/Sip/SipManager.swift:20 | Engine calls other than start and teardown do not change whether the engine runs. |
| Sip.AccountFor | Sources/VoiceSDK/Internal/Sip/SipManager.swift:252-280 | The account id is `sip:ext@domain`, with realm `*` and scheme `digest`. The user name and password come from the configuration. The contact, Via and SDP NAT rewrite flags and the SRTP mode come from the settings. Custom ICE is on exactly when ICE is enabled. |
| Sip.InitOutcome | Sources/VoiceSDK/Internal/Sip/SipManager.swift:179-304 | Start-up succeeds exactly when create, init, add-account and start all succeed. A failure is a SIP error. |
| Sip.InitTraceRuns | Sources/VoiceSDK/Internal/Sip/SipManager.swift:179-304 | From a stopped engine, the start-up calls leave the engine running exactly when start-up succeeds. |
| Sip.StatusError | Sources/VoiceSDK/Internal/Sip/SipManager.swift:49-50 | A failing status becomes a SIP error whose message parses back to the status. |
| Sip.StatusOutcome | Sources/VoiceSDK/Internal/Sip/SipManager.swift:64-93 | A call passes exactly when the status is `PJ_SUCCESS`; otherwise it fails with that status's error. |
| Sip.StatusErrorInjective | Sources/VoiceSDK/Internal/Sip/SipManager.swift:49-50 | Distinct failing statuses give distinct errors. |
| Sip.MuteTargets | Sources/VoiceSDK/Internal/Sip/SipManager.swift:108-110 | There are no more targets than streams, and no target is the invalid slot. |
| Sip.MuteTargetsEmptyIff | Sources/VoiceSDK/Internal/Sip/SipManager.swift:108-119 | There is nothing to mute exactly when no stream is active audio with a valid slot. |
| Sip.MuteCalls | Sources/VoiceSDK/Internal/Sip/SipManager.swift:111 | There is one conference call per slot. Muting disconnects the microphone from it; unmuting connects it. |
| Sip.SipManager.constructor | Sources/VoiceSDK/Internal/Sip/SipManager.swift:16-27 | Default settings, engine down, no calls made. |
| Sip.SipManager.UpdateCallSetting | Sources/VoiceSDK/Internal/Sip/SipManager.swift:140-142 | Replaces the settings. Nothing else changes. |
| Sip.SipManager.CreateTransportCalls | Sources/VoiceSDK/Internal/Sip/SipManager.swift:345-353 | Creates the transports of the proxy's chosen transport: TCP then UDP for TCP_UDP. |
| Sip.SipManager.InitPjsuaConfigs | Sources/VoiceSDK/Internal/Sip/SipManager.swift:179-304 | Appends the start-up trace to the log. The outcome is `InitOutcome`. The engine runs afterwards exactly when it ran before or start-up succeeded. |
| Sip.SipManager.InitEngine | Sources/VoiceSDK/Internal/Sip/SipManager.swift:188-249 | Covers the steps after a successful create: configuration, STUN and init, then the rest. |
| Sip.SipManager.RegisterAccount | Sources/VoiceSDK/Internal/Sip/SipManager.swift:248-288 | Creates the transports, then adds the account. A failed add destroys the engine and fails with "Failed to add SIP account". |
| Sip.SipManager.StartPjsua | Sources/VoiceSDK/Internal/Sip/SipManager.swift:295-303 | A failed start fails with "Failed to start pjsua". A successful start drops the sound device and the engine runs. |
| Sip.SipManager.Start | Sources/VoiceSDK/Internal/Sip/SipManager.swift:167-176 | A running engine is left alone. Otherwise start-up runs, and the engine runs afterwards exactly when start-up passed. |
| Sip.SipManager.MakeCall | Sources/VoiceSDK/Internal/Sip/SipManager.swift:30-61 | Starts the engine if needed and then dials the built URI. A start-up failure is returned without dialling. A successful dial returns the engine's call id. |
| Sip.SipManager.DisconnectCall | Sources/VoiceSDK/Internal/Sip/SipManager.swift:64-71 | Hangs the call up with the given code. The outcome follows the status. |
| Sip.SipManager.SendDtmf | Sources/VoiceSDK/Internal/Sip/SipManager.swift:74-82 | Dials the digits on the call. The outcome follows the status. |
| Sip.SipManager.SetHold | Sources/VoiceSDK/Internal/Sip/SipManager.swift:85-93 | Holding puts the call on hold; releasing re-invites it. The outcome follows the status. |
| Sip.SipManager.SetMute | Sources/VoiceSDK/Internal/Sip/SipManager.swift:96-120 | Without call info it fails and changes nothing. Otherwise it switches every target stream. It passes exactly when some stream is mutable, else fails with "No active audio media to mute/unmute". |
| Sip.SipManager.SwitchStreams | Sources/VoiceSDK/Internal/Sip/SipManager.swift:106-113 | The loop makes the mute calls for exactly the targets, in order. It reports processed exactly when some stream is mutable. |
| Sip.SipManager.StartAudio | Sources/VoiceSDK/Internal/Sip/SipManager.swift:123-137 | Opens the sound device only when the engine runs and is not being destroyed. |
| Sip.SipManager.Destroy | Sources/VoiceSDK/Internal/Sip/SipManager.swift:145-164 | The completion runs once. A running engine gets hang-up-all and destroy; afterwards the engine is down and not being destroyed. |
| Sip.TeardownCalls | Sources/VoiceSDK/Internal/Sip/SipManager.swift:145-164 | The teardown makes engine calls exactly when the engine was running. |
| Calls.NewCall | Sources/VoiceSDK/Internal/Core/WebitelCall.swift:12-24 | A new call is idle, with no engine id, and unanswered. It is not muted, held or outgoing, and has no task, listeners or notices. |
| Calls.Deliveries | Sources/VoiceSDK/Internal/Core/WebitelCall.swift:186-205 | There is one notice per listener, in the order of the model's listener table, carrying the event. |
| Calls.WithoutListener | Sources/VoiceSDK/Internal/Core/WebitelCall.swift:115-117 | The table afterwards holds exactly the old listeners other than the removed one. |
| Calls.AddListenerKeepsSet | Sources/VoiceSDK/Internal/Core/WebitelCall.swift:110-112 | Adding keeps the table a set, holding the old listeners and the new one. |
| Calls.RemoveUndoesAdd | Sources/VoiceSDK/Internal/Core/WebitelCall.swift:110-117 | Removing a just-added listener restores the table. |
| Calls.RemoveListenerKeepsDistinct | Sources/VoiceSDK/Internal/Core/WebitelCall.swift:115-117 | Removing keeps the table a set. |
| Calls.EnsureCallOngoing | Sources/VoiceSDK/Internal/Core/WebitelCall.swift:208-214 | It passes exactly when the call is ongoing. Otherwise it throws invalid-state with the "not ongoing" message. |
| Calls.EnsureSipIdValid | Sources/VoiceSDK/Internal/Core/WebitelCall.swift:217-223 | It passes exactly when the engine id is not negative. |
| Calls.CallGuard | Sources/VoiceSDK/Internal/Core/WebitelCall.swift:40-41 | The two guards together pass exactly when the call is ongoing and has an engine id. A failure is an invalid-state error. |
| Calls.UpdateStateNotifiesEachListener | Sources/VoiceSDK/Internal/Core/WebitelCall.swift:103-107 | The state is stored and each listener is told once, in order. Nothing else changes. |
| Calls.GuardsBlockControls | Sources/VoiceSDK/Internal/Core/WebitelCall.swift:38-79 | Without an ongoing state and an engine id, mute, hold and DTMF throw invalid-state and change nothing. |
| Calls.MuteEffect | Sources/VoiceSDK/Internal/Core/WebitelCall.swift:43-49 | Muting to the current value is a no-op. Otherwise it asks the delegate, and it sets the flag only when the delegate succeeds. |
| Calls.HoldRejectedWhileInProgress | Sources/VoiceSDK/Internal/Core/WebitelCall.swift:58-62 | While a hold is in progress, `hold` throws and changes nothing. |
| Calls.HoldOnlyRequests | Sources/VoiceSDK/Internal/Core/WebitelCall.swift:64-71 | A successful change of hold asks the delegate once and marks a hold in progress. The hold flag itself is left unchanged. |
| Calls.HoldConfirmedNotifiesOnChange | Sources/VoiceSDK/Internal/Core/WebitelCall.swift:142-148 | The flag becomes the engine's value. Listeners are told exactly when it changed. |
| Calls.DisconnectTwiceRejected | Sources/VoiceSDK/Internal/Core/WebitelCall.swift:82-98 | Disconnecting a disconnected call throws and changes nothing. A disconnect with a reason is then a no-op. |
| Calls.DisconnectBeforeDial | Sources/VoiceSDK/Internal/Core/WebitelCall.swift:166-179 | Before dialling, `disconnect` cancels the task and asks for local teardown. The call then ends with reason code 0. |
| Calls.DisconnectAfterDial | Sources/VoiceSDK/Internal/Core/WebitelCall.swift:180-182 | Once dialled, a disconnect only asks the engine to hang up. The state is unchanged. |
| Calls.ConfirmedAnswers | Sources/VoiceSDK/Internal/Core/WebitelCall.swift:26-30 | Confirmation at a time after 1970 makes the call answered and ongoing. |
| Calls.ControlsKeepValid | Sources/VoiceSDK/Internal/Core/WebitelCall.swift:38-79 | Mute, hold and DTMF keep the listener table a set, and a hold stays in progress only on a dialled call (engine id >= 0). `hold` starts a hold only on an ongoing, dialled call. |
| Calls.DisconnectsKeepValid | Sources/VoiceSDK/Internal/Core/WebitelCall.swift:82-98 | Disconnecting keeps the call invariant. |
| Calls.EventsKeepValid | Sources/VoiceSDK/Internal/Core/WebitelCall.swift:127-155 | The task start, the hold callback and the confirmation keep the call invariant. |
| Calls.WebitelCall.constructor | Sources/VoiceSDK/Internal/Core/WebitelCall.swift:12-35 | The fields are those of a new call, and they satisfy the call invariant `Calls.Valid`. Every mutating method of the class ensures that it keeps this invariant. |
| Calls.WebitelCall.Notify | Sources/VoiceSDK/Internal/Core/WebitelCall.swift:186-191 | Appends one notice per listener. |
| Calls.WebitelCall.UpdateState | Sources/VoiceSDK/Internal/Core/WebitelCall.swift:103-107 | Stores the state and notifies the listeners. |
| Calls.WebitelCall.AddListener | Sources/VoiceSDK/Internal/Core/WebitelCall.swift:110-112 | Adds the listener unless it is present. |
| Calls.WebitelCall.RemoveListener | Sources/VoiceSDK/Internal/Core/WebitelCall.swift:115-117 | Removes the listener. |
| Calls.WebitelCall.RemoveAllListeners | Sources/VoiceSDK/Internal/Core/WebitelCall.swift:120-122 | Empties the table. |
| Calls.WebitelCall.Mute | Sources/VoiceSDK/Internal/Core/WebitelCall.swift:38-50 | New fields and outcome are those of `AfterMute`, with the properties above. |
| Calls.WebitelCall.Hold | Sources/VoiceSDK/Internal/Core/WebitelCall.swift:53-71 | New fields and outcome are those of `AfterHold`. |
| Calls.WebitelCall.SendDtmf | Sources/VoiceSDK/Internal/Core/WebitelCall.swift:74-79 | New fields and outcome are those of `AfterSendDtmf`. |
| Calls.WebitelCall.InternalDisconnect | Sources/VoiceSDK/Internal/Core/WebitelCall.swift:166-183 | New fields and outcome are those of `AfterInternalDisconnect`. |
| Calls.WebitelCall.Disconnect | Sources/VoiceSDK/Internal/Core/WebitelCall.swift:82-89 | New fields and outcome are those of `AfterDisconnect`. |
| Calls.WebitelCall.DisconnectWithReason | Sources/VoiceSDK/Internal/Core/WebitelCall.swift:92-98 | Any error is dropped. The engine id is kept. |
| Calls.WebitelCall.StartTask | Sources/VoiceSDK/Internal/Core/WebitelCall.swift:127-131 | The task is set and the call reports connecting. |
| Calls.WebitelCall.TaskFailed | Sources/VoiceSDK/Internal/Core/WebitelCall.swift:132-135 | A failed operation disconnects the call, dropping any error. |
| Calls.WebitelCall.HoldConfirmed | Sources/VoiceSDK/Internal/Core/WebitelCall.swift:142-148 | The flag becomes the engine's value, and listeners are told on a change. |
| Calls.WebitelCall.Confirmed | Sources/VoiceSDK/Internal/Core/WebitelCall.swift:151-155 | Records the answer time and makes the call ongoing. |
| Voice.HangupCode | Sources/VoiceSDK/Internal/Core/VoiceManager.swift:175-180 | The code is 200 exactly when the call was answered. Otherwise it is 487 when calling out and 600 when called. |
| Voice.HangupCodeReasons | Sources/VoiceSDK/Internal/Core/CancelCallCode.swift:11-16 | Read back through the end-reason table, the codes mean a completed call, a terminated request and a busy callee. |
| Voice.InviteTransition | Sources/VoiceSDK/Internal/Core/VoiceManager.swift:77-108 | Only unknown invite states are ignored. No state leads to idle. Disconnected carries the last status code. Ongoing is reached exactly on confirmation. |
| Voice.RingingOnlyWhenAlerted | Sources/VoiceSDK/Internal/Core/VoiceManager.swift:84-90 | A call rings exactly on an incoming invite, or on early media when it is outgoing. |
| Voice.ApplyMediaSettlesHold | Sources/VoiceSDK/Internal/Core/VoiceManager.swift:121-135 | The hold flag follows the last audio stream that is held locally or active. A pending hold ends when such a stream exists. Nothing else changes but notices. |
| Voice.AudioConnections | Sources/VoiceSDK/Internal/Core/VoiceManager.swift:138-144 | Every link made is a conference connection. |
| Voice.AudioConnectionsLinkBothWays | Sources/VoiceSDK/Internal/Core/VoiceManager.swift:138-144 | Every active or remotely held audio stream is linked to the speaker and from the microphone. |
| Voice.AudioConnectionsOnlyConnectable | Sources/VoiceSDK/Internal/Core/VoiceManager.swift:138-144 | Only such streams are linked. |
| Voice.HoldsFor | Sources/VoiceSDK/Internal/Core/VoiceManager.swift:186-191 | There is one hold request per call, and every request is a hold. |
| Voice.HoldEach | Sources/VoiceSDK/Internal/Core/VoiceManager.swift:186-191 | Each target is held exactly once, and nothing else is held. The engine state is unchanged. |
| Voice.VoiceManager.FindCallBySipIdSound | Sources/VoiceSDK/Internal/Core/VoiceManager.swift:205-208 | A lookup finds a call exactly when the id is filed, and the call found is live and carries that id. |
| Voice.VoiceManager.SipIds | Sources/VoiceSDK/Internal/Core/VoiceManager.swift:14-18 | Maps every live call to its engine id. |
| Voice.VoiceManager.constructor | Sources/VoiceSDK/Internal/Core/VoiceManager.swift:14-18 | No calls, no active call, and a fresh engine gateway with default settings. |
| Voice.VoiceManager.NewCall | Sources/VoiceSDK/Internal/Core/VoiceManager.swift:24-27 | Files the call. The first call becomes active; an active call is never replaced. |
| Voice.VoiceManager.UpdateCallSettings | Sources/VoiceSDK/Internal/Core/VoiceManager.swift:30-32 | Passes the settings to the engine gateway. |
| Voice.VoiceManager.AssignSipId | Sources/VoiceSDK/Internal/Core/VoiceManager.swift:211-215 | Only a live call gets the id, and it is filed under it. |
| Voice.VoiceManager.MakeAudioCallFor | Sources/VoiceSDK/Internal/Core/VoiceManager.swift:35-42 | For a live call, the engine gets `DialCalls` and the outcome is `DialOutcome`. On success the returned id is filed. Nothing is filed on failure, and an unknown UUID dials nothing. |
| Voice.DialCalls | Sources/VoiceSDK/Internal/Sip/SipManager.swift:30-47 | When the engine already runs, only the dial to the service is made. Otherwise the start-up comes first, and the dial is last whenever start-up passed. |
| Voice.DialOutcome | Sources/VoiceSDK/Internal/Sip/SipManager.swift:30-47 | Succeeds exactly when the engine runs or starts, and the dial status is success. Every failure is a SIP error. |
| Voice.VoiceManager.MuteCall | Sources/VoiceSDK/Internal/Core/VoiceManager.swift:47-49 | Forwards to the engine's mute. Without media information the engine is not called and the call fails with invalid state. Otherwise one mute call goes out per mutable stream, and it succeeds exactly when such a stream exists. |
| Voice.VoiceManager.HoldCall | Sources/VoiceSDK/Internal/Core/VoiceManager.swift:52-54 | Forwards to the engine's hold. |
| Voice.VoiceManager.SendDtmf | Sources/VoiceSDK/Internal/Core/VoiceManager.swift:57-59 | Forwards to the engine's DTMF. |
| Voice.VoiceManager.DisconnectCall | Sources/VoiceSDK/Internal/Core/VoiceManager.swift:62-67 | A local target is unfiled without a hang-up, and only its own engine-id entry goes. The active call moves on if it was that call. When no call is left, the engine's teardown calls are logged; otherwise the engine is not called. An engine target stays filed. It is hung up with `HangupCode` and the status outcome, or fails with "Call not found". |
| Voice.VoiceManager.Shutdown | Sources/VoiceSDK/Internal/Core/VoiceManager.swift:70-72 | Destroys the engine; the completion runs once. |
| Voice.VoiceManager.RemoveCall | Sources/VoiceSDK/Internal/Core/VoiceManager.swift:194-197 | Drops the call and its engine id. No id is left pointing at it. |
| Voice.VoiceManager.CheckAndDestroySip | Sources/VoiceSDK/Internal/Core/VoiceManager.swift:166-169 | Destroys the engine exactly when no call is active. |
| Voice.VoiceManager.DisconnectLocalCall | Sources/VoiceSDK/Internal/Core/VoiceManager.swift:159-163 | Unfiles the call and removes only its own engine-id entry. Another live call, if any, becomes active. Once none is left, the engine is destroyed: hang-up-all and destroy when it was running, and the completion runs. Otherwise the engine is not called. |
| Voice.VoiceManager.DisconnectSipCall | Sources/VoiceSDK/Internal/Core/VoiceManager.swift:172-183 | An unknown id fails with "Call not found". Otherwise the call is hung up with `HangupCode`. |
| Voice.VoiceManager.HoldOtherCalls | Sources/VoiceSDK/Internal/Core/VoiceManager.swift:186-191 | Every other live call with an engine id is held exactly once, with its own id. |
| Voice.VoiceManager.OnCallState | Sources/VoiceSDK/Internal/Core/VoiceManager.swift:77-108 | An unknown call or state changes nothing. Otherwise only the routed call changes, as `InviteTransition` says. On confirmation each other dialled call is held once before the call is answered. On connecting, audio is started if the engine runs. On disconnect the call is unfiled and only its engine id is dropped. The active call moves on, and when no call remains the engine is torn down with its teardown calls logged. Other states make no engine call. |
| Voice.VoiceManager.UpdateFiledCall | Sources/VoiceSDK/Internal/Core/VoiceManager.swift:84-105 | A live call's state change keeps the manager's invariant. |
| Voice.VoiceManager.ConfirmFiledCall | Sources/VoiceSDK/Internal/Core/VoiceManager.swift:91-94 | Answering a live call keeps the manager's invariant. |
| Voice.VoiceManager.OnCallMediaState | Sources/VoiceSDK/Internal/Core/VoiceManager.swift:111-154 | Only the routed call changes. Its hold flags settle as `ApplyMedia` says. Active audio makes the call active. Each active audio stream adds one round of holds, and each round holds each other dialled call exactly once. Then the streams are linked to the sound device, and a muted call is muted again. |
| Voice.VoiceManager.ApplyMediaStates | Sources/VoiceSDK/Internal/Core/VoiceManager.swift:121-135 | The loop applies every stream in order. There is one hold round per active audio stream, and each round holds every other dialled call exactly once. |
| Voice.VoiceManager.ApplyOneMedia | Sources/VoiceSDK/Internal/Core/VoiceManager.swift:122-134 | One stream's effect on the hold flags. Active audio alone adds one round that holds every other dialled call once. |
| Voice.VoiceManager.OnActiveAudio | Sources/VoiceSDK/Internal/Core/VoiceManager.swift:127-133 | The pending hold is cleared and the call becomes active. Every other dialled call is held exactly once. Then the call is off hold. |
| Voice.VoiceManager.ConferenceLinks | Sources/VoiceSDK/Internal/Core/VoiceManager.swift:138-144 | The loop makes exactly `AudioConnections`, none of which starts or stops the engine. |
| Client.NewBuilder | Sources/VoiceSDK/Public/VoiceClientBuilder.swift:17-49 | A new builder keeps the address and token, with no user, device id or settings. |
| Client.DeviceIdChoice | Sources/VoiceSDK/Internal/Core/WebitelVoiceClient.swift:23-25 | The builder's id wins. Without it, a non-empty stored id is used. Otherwise the newly generated id is used. The result is never empty when the generated id is not. |
| Client.SettingsFor | Sources/VoiceSDK/Internal/Core/WebitelVoiceClient.swift:39 | The builder's settings are used, or the defaults. |
| Client.FailureReason | Sources/VoiceSDK/Internal/Core/WebitelVoiceClient.swift:117-139 | Unauthorised gives code 401. An unknown error keeps its code. Everything else gives -1. |
| Client.FailureReasonKeepsMessage | Sources/VoiceSDK/Internal/Core/WebitelVoiceClient.swift:117-139 | A non-empty error message becomes the reason's message. |
| Client.RejectedFetchReasons | Sources/VoiceSDK/Internal/Core/WebitelVoiceClient.swift:122-133 | A refused fetch ends the call with the HTTP status as its code. A 401 is unauthorised, in the error category. |
| Client.WebitelVoiceClient.constructor | Sources/VoiceSDK/Internal/Core/WebitelVoiceClient.swift:22-44 | The auth manager gets the address, the chosen device id, the user agent and the token. The settings are configured, and the builder's user is set. |
| Client.WebitelVoiceClient.SetUser | Sources/VoiceSDK/Internal/Core/WebitelVoiceClient.swift:49-51 | Stores the user. |
| Client.WebitelVoiceClient.SetJWT | Sources/VoiceSDK/Internal/Core/WebitelVoiceClient.swift:53-55 | Stores the token. |
| Client.WebitelVoiceClient.Configure | Sources/VoiceSDK/Internal/Core/WebitelVoiceClient.swift:60-62 | Passes the settings to the engine. |
| Client.WebitelVoiceClient.Shutdown | Sources/VoiceSDK/Internal/Core/WebitelVoiceClient.swift:79-81 | The engine goes down and the completion runs once. |
| Client.WebitelVoiceClient.MakeCall | Sources/VoiceSDK/Internal/Core/WebitelVoiceClient.swift:86-114 | An active call gets the listener and is returned. Otherwise a new call is filed and made active, gets the listener and the token, and starts connecting. No other filed call changes. |
| Client.WebitelVoiceClient.RunCallTask | Sources/VoiceSDK/Internal/Core/WebitelVoiceClient.swift:103-111 | Sends `RequestSent` and dials with the `FetchSipConfig` result, as `Dial` states. A fetch failure returns that error and ends the call with `FailureReason`. An undialled call is then unfiled with every engine-id entry kept. It is no longer the active call, and the engine is torn down with its calls logged when no call is active. |
| Client.WebitelVoiceClient.Dial | Sources/VoiceSDK/Internal/Core/WebitelVoiceClient.swift:107-110 | An unfiled call dials nothing. For a filed call the engine gets `DialCalls`. On success the call's engine id is set and filed, and nothing else changes. On failure the call ends with `FailureReason` of the SIP error. It is unfiled with every engine-id entry kept, and the engine is torn down when no call is active. |
| Client.WebitelVoiceClient.HandleCallFailure | Sources/VoiceSDK/Internal/Core/WebitelVoiceClient.swift:117-139 | Disconnects the call with `FailureReason`, and the manager never makes it fail. An undialled call goes through the manager's local disconnect. It is unfiled with every engine-id entry kept, and the active call moves on. When none is left, the engine is shut down with its teardown calls logged; otherwise the engine is not called. A dialled call is hung up. A call already disconnected is left alone. |
| Client.WebitelVoiceClient.DropUndialled | Sources/VoiceSDK/Internal/Core/WebitelCall.swift:173-178 | The manager unfiles the call, keeps every engine-id entry and moves the active call on. It tears the engine down, with its calls logged, when no call is active. Then the call becomes disconnected with the reason. |
| Client.WebitelVoiceClient.HangUpDialled | Sources/VoiceSDK/Internal/Core/WebitelCall.swift:180-182 | The manager hangs the filed call up with its `HangupCode`. The call's state is unchanged. |

## Left out

- The engine is not modelled: pjsua, its C structures, thread registration, logging configuration and codec priorities (`setCodecPriority`). Engine calls are recorded in `SipManager.log`, and the engine's status replies are parameters.
- The two C callbacks that route engine events (`SipCallbacks.swift`, `SipEventListener.swift`) are left out; `VoiceManager.OnCallState` and `VoiceManager.OnCallMediaState` take the event's fields directly.
- Dispatch queues, the barrier in `destroy`, Swift `Task` scheduling and cancellation are left out, as is concurrency between engine callbacks and app calls. `hasTask` records only whether a task is set.
- The listener table is modelled as a duplicate-free sequence, and notices go out in its order. The source walks `NSHashTable.allObjects`, whose order is unspecified. Weak references, and listeners vanishing when released, are not modelled. A listener that throws is not modelled either, because the source drops its error anyway.
- The call's delegate is weak in the source. Here it is always present, so `delegate?.…` always runs.
- `VoiceManager.shared` is a process-wide singleton in the source; here each client owns one `VoiceManager`.
- Networking, JSON encoding and decoding, and `URL(string:)` are left out. A reply is a parameter that already says whether decoding succeeded, so the invalid-URL error is never produced.
- Engine ids are modelled as unbounded integers, not `Int32`.
- `CallSettings.busyEverywhereUse` is stored but the core never reads it.
- The builder's log level, application name and version are left out; only logging uses them.
- `DeviceStorage` persistence is left out. The stored id and a newly generated UUID string are parameters of `WebitelVoiceClient.constructor`.
- The user agent from `SystemDetails` is a parameter.
- The answer time is a parameter `now` (seconds since 1970), not the device clock.
- `isOutgoing` is never set to true anywhere in the SDK. The model keeps that, so an unanswered call is hung up with 600, not 487.
- The engine's replies to the hold requests of `holdOtherCalls` are parameters. Like the source, the model ignores their errors.
- `OnCallMediaState` re-mutes a muted call using the media list of the same event. The source asks the engine for the call's information again.
- The start-up failures after `pjsua_create` are modelled as written: only a failed account registration destroys the engine.
- Voice.VoiceManager.NewCall: requires a UUID not already filed. The source relies on `UUID()` being fresh.
- Voice.VoiceManager.AssignSipId: requires that the call has no engine id yet. The source assigns an id only once, right after dialling.
- Voice.VoiceManager.MakeAudioCallFor: requires that the call has no engine id yet, for the same reason.
- Client.WebitelVoiceClient.MakeCall: requires a UUID not already filed, as `NewCall` does.
- Client.WebitelVoiceClient.RunCallTask: the task does not run concurrently with other operations on the call. The engine's reply to a hang-up of a dialled call is a parameter.
- Text handling is ASCII only: `Text.Lower`, `Text.StartsWith` and `Text.Split` work on code points, not on Unicode characters as Swift's `lowercased()`, `hasPrefix` and `split` do. A combining mark after a prefix therefore differs: Swift does not see `https://` at the head of `"https:/" + "/\u{301}x"`, but the model does. This affects `Api.NormalizeBaseUrl`, `SipConfigs.SipConfig.GetServerUri`, `SipConfigs.SipConfig.GetProxy` and `Sip.TransportFrom`.
