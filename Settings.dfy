/** Call settings (Sources/VoiceSDK/Public/CallSettings.swift), with the defaults of `CallSettings()`. */
module Settings {

  /** Whether secure media transport is disabled, offered, or required. */
  datatype SrtpUse = SrtpDisabled | SrtpOptional | SrtpMandatory

  datatype CallSettings = CallSettings(
    iceEnabled: bool,
    sdpNatRewriteUse: bool,
    contactRewriteUse: bool,
    viaRewriteUse: bool,
    useDefaultStun: bool,
    srtpUse: SrtpUse,
    busyEverywhereUse: bool,
    stunServers: seq<string>)

  /** `CallSettings()`. */
  function DefaultSettings(): (s: CallSettings)
    ensures !s.iceEnabled && !s.sdpNatRewriteUse && s.contactRewriteUse && s.viaRewriteUse
    ensures s.useDefaultStun && s.srtpUse == SrtpDisabled && !s.busyEverywhereUse && s.stunServers == []
  {
    CallSettings(false, false, true, true, true, SrtpDisabled, false, [])
  }
}
