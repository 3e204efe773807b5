/**
 * The player component: the decision logic of its DRM configuration routine
 * (Android detection, robustness choice, buffer budget, configuration
 * assembly, engine calls) and the options it passes to the WHEP hook.
 *
 * The browser's answers (navigator fields, the hardware-capability probe),
 * the build-time environment, the URL's `robustness` parameter, the token
 * minting and the engine's entry points are inputs.
 */
module PlayerDrm {
  import opened Common
  import opened DrmTypes
  import DrmUtils
  import Whep

  datatype UserAgentData = UserAgentData(platform: string, mobile: bool)

  /** The navigator fields the detection reads; `userAgentData` is absent on
      browsers that do not offer it. */
  datatype Navigator = Navigator(
    userAgentData: Option<UserAgentData>,
    platform: string,
    userAgent: string)

  /** Build-time environment values the routine reads. */
  datatype BuildEnv = BuildEnv(keyIdHex: string, ivHex: string, secretHex: string, merchant: string)

  /** `uad?.platform || navigator.platform || ''`. */
  function PlatformName(nav: Navigator): string
  {
    var uadPlatform := if nav.userAgentData.Some? then nav.userAgentData.value.platform else "";
    OrElse(OrElse(uadPlatform, nav.platform), "")
  }

  /** `uad?.mobile === true`. */
  predicate IsMobile(nav: Navigator)
  {
    nav.userAgentData.Some? && nav.userAgentData.value.mobile
  }

  /** The Android heuristic: the platform is "android" in any case, or the
      user agent mentions android in any case, or the platform mentions
      linux in any case on a mobile device. */
  predicate IsAndroid(nav: Navigator)
  {
    var p := PlatformName(nav);
    AsciiLower(p) == "android"
    || ContainsIgnoringCase(nav.userAgent, "android")
    || (IsMobile(nav) && ContainsIgnoringCase(p, "linux"))
  }

  /** The `robustness` URL parameter, upper-cased, when it names a level. */
  function Override(param: Option<string>): Option<Robustness>
  {
    if param.None? then None
    else if Upper(param.value) == "HW" then Some(HW)
    else if Upper(param.value) == "SW" then Some(SW)
    else None
  }

  /** The outcome of the decision logic: whether the device counts as
      Android, whether the capability probe ran, the robustness put in the
      video track, and the buffer budget. */
  datatype Decision = Decision(isAndroid: bool, probeAttempted: bool, robustness: Robustness, mediaBufferMs: int)

  /** The budget when no floor applies: the engine's default. */
  const EngineDefaultBufferMs: int := -1

  /** The floor for the hardware path on Android. */
  const HardwareBufferFloorMs: int := 1200

  /** The robustness and buffer decision. The probe only runs on Android and
      a failed probe means SW; a valid override replaces the Android result;
      off Android the video track is always SW. */
  function Decide(nav: Navigator, robustnessParam: Option<string>, probeSucceeds: bool): Decision
  {
    var android := IsAndroid(nav);
    var probed := if android && probeSucceeds then HW else SW;
    var androidRobustness := if Override(robustnessParam).Some? then Override(robustnessParam).value else probed;
    var budget := EngineDefaultBufferMs;
    var budget' := if android && androidRobustness == HW && budget < 600 then HardwareBufferFloorMs else budget;
    Decision(android, android, if android then androidRobustness else SW, budget')
  }

  /** The rights payload embedded in the session id. */
  datatype Crt = Crt(assetId: string, storeLicense: bool, digital: bool, analogue: bool, enforce: bool)

  const TestCrt: Crt := Crt("test-key", true, true, true, false)

  function JsonBool(b: bool): string
  {
    if b then "true" else "false"
  }

  /** `JSON.stringify` of the payload object, keys in declaration order. The
      asset id is written unescaped: it holds no character JSON escapes. */
  function CrtJson(c: Crt): string
  {
    "{\"profile\":{\"purchase\":{}},\"assetId\":\"" + c.assetId
    + "\",\"outputProtection\":{\"digital\":" + JsonBool(c.digital)
    + ",\"analogue\":" + JsonBool(c.analogue)
    + ",\"enforce\":" + JsonBool(c.enforce)
    + "},\"storeLicense\":" + JsonBool(c.storeLicense) + "}"
  }

  /** The marker the license service recognises in front of a JSON payload. */
  const SessionMarker: string := "crtjson:"

  /** The merchant the routine signs for: the merchant prop, or the
      environment's merchant when the prop is absent or empty. */
  function Merchant(env: BuildEnv, merchantProp: Option<string>): string
  {
    OrElse(if merchantProp.Some? then merchantProp.value else "", env.merchant)
  }

  /** The routine as far as the engine's `configure`: decode the key id and
      iv, decide, mint the token (from the merchant, which falls back to the
      environment's, and the decoded secret), assemble, configure. A hex
      decoding error, a minting error or a `configure` error rejects the
      routine with its message. */
  function ConfigureDrm(
    env: BuildEnv, merchantProp: Option<string>, nav: Navigator, robustnessParam: Option<string>,
    probeSucceeds: bool, mint: (string, seq<Byte>) -> Result<string, string>, configure: Outcome)
    : Result<DrmConfig, string>
  {
    var keyId := DrmUtils.HexToBytes(env.keyIdHex);
    var iv := DrmUtils.HexToBytes(env.ivHex);
    if keyId.Failure? then Failure(keyId.error.Message())
    else if iv.Failure? then Failure(iv.error.Message())
    else
      var d := Decide(nav, robustnessParam, probeSucceeds);
      var merchant := Merchant(env, merchantProp);
      var secret := DrmUtils.HexToBytes(env.secretHex);
      if secret.Failure? then Failure(secret.error.Message())
      else
        var token := mint(merchant, secret.value);
        if token.Failure? then Failure(token.error)
        else
          var config := DrmConfig(
            merchant, Staging, Some(token.value), Some(SessionMarker + CrtJson(TestCrt)), true,
            TrackConfig(H264, Cbcs, Some(d.robustness), Some(keyId.value), Some(iv.value)),
            ClearOpusAudio, InfoLogLevel, d.mediaBufferMs);
          if configure.Throws? then Failure(configure.message) else Success(config)
  }

  /** What the routine's track listener has done: the tracks it forwarded to
      the engine with their configuration, and the failures it logged. */
  datatype TrackLog = TrackLog(forwarded: seq<(Track, DrmConfig)>, failures: seq<string>)

  /** The track listener: forward to the engine; an engine error is logged
      and swallowed, never re-raised. */
  function OnDrmTrack(log: TrackLog, config: DrmConfig, t: Track, onTrack: Outcome): TrackLog
  {
    var log' := log.(forwarded := log.forwarded + [(t, config)]);
    if onTrack.Throws? then log'.(failures := log'.failures + [onTrack.message]) else log'
  }

  /** The options the player passes to the WHEP hook: its endpoint and
      encrypted flag, no token and no track callback. The DRM routine it also
      passes is not a field of the hook's options, so it never runs. */
  function PlayerConnectOptions(endpoint: string, encrypted: bool): Whep.WhepOptions
  {
    Whep.WhepOptions(endpoint, None, encrypted, false)
  }

  /** The player's connect: the hook takes the video element only; the
      audio element the player also passes is ignored. */
  function PlayerConnect(h: Whep.Hook, endpoint: string, encrypted: bool,
                         video: Option<Whep.VideoElement>, audio: bool, b: Whep.Browser): Whep.Hook
  {
    Whep.Connect(h, PlayerConnectOptions(endpoint, encrypted), video, b).hook
  }

  // ---------------------------------------------------------------------

  /** The platform is the first non-empty of the user-agent-data platform
      and the navigator platform, else empty. */
  lemma PlatformFirstNonEmpty(nav: Navigator)
    ensures nav.userAgentData.Some? && nav.userAgentData.value.platform != "" ==>
              PlatformName(nav) == nav.userAgentData.value.platform
    ensures (nav.userAgentData.None? || nav.userAgentData.value.platform == "") ==>
              PlatformName(nav) == nav.platform
  {
  }

  /** Each of the three signals alone marks a device as Android, and a
      device with none of them is not. */
  lemma AndroidSignals(nav: Navigator, before: string, word: string, after: string)
    requires AsciiLower(word) == "android" || AsciiLower(word) == "linux"
    ensures AsciiLower(word) == "android" && nav.userAgent == before + word + after ==> IsAndroid(nav)
    ensures AsciiLower(word) == "linux" && IsMobile(nav) && PlatformName(nav) == before + word + after ==> IsAndroid(nav)
    ensures AsciiLower(PlatformName(nav)) == "android" ==> IsAndroid(nav)
    ensures (!(IsMobile(nav) && ContainsIgnoringCase(PlatformName(nav), "linux"))
             && AsciiLower(PlatformName(nav)) != "android"
             && !ContainsIgnoringCase(nav.userAgent, "android")) ==> !IsAndroid(nav)
  {
    ContainsIgnoringCaseWitness(before, word, after, AsciiLower(word));
  }

  /** Off Android the probe is not attempted, the video track is SW and the
      engine's default buffering is kept, whatever the override says. */
  lemma OffAndroidIsSoftware(nav: Navigator, param: Option<string>, probe: bool)
    requires !IsAndroid(nav)
    ensures var d := Decide(nav, param, probe);
      !d.probeAttempted && d.robustness == SW && d.mediaBufferMs == EngineDefaultBufferMs
  {
  }

  /** On Android a valid override wins; otherwise the probe decides, and a
      failed probe falls back to SW without any error. */
  lemma AndroidRobustness(nav: Navigator, param: Option<string>, probe: bool)
    requires IsAndroid(nav)
    ensures var d := Decide(nav, param, probe);
      && d.probeAttempted
      && (Override(param).Some? ==> d.robustness == Override(param).value)
      && (Override(param).None? ==> (d.robustness == HW <==> probe))
  {
  }

  /** The override is recognised exactly when the upper-cased parameter is
      "HW" or "SW"; so "hw" and "Sw" count, "hardware" or an empty value do
      not. */
  lemma OverrideRecognition(param: Option<string>)
    ensures Override(param).Some? <==> param.Some? && Upper(param.value) in {"HW", "SW"}
    ensures Override(Some("hw")) == Some(HW) && Override(Some("Sw")) == Some(SW)
    ensures Override(Some("hardware")).None? && Override(Some("")).None?
  {
    assert Upper("hw") == "HW";
    assert Upper("Sw") == "SW";
  }

  /** The hardware floor applies exactly on Android with HW robustness;
      otherwise the engine default is kept. */
  lemma BufferBudgetIff(nav: Navigator, param: Option<string>, probe: bool)
    ensures var d := Decide(nav, param, probe);
      && (d.mediaBufferMs == HardwareBufferFloorMs <==> d.isAndroid && d.robustness == HW)
      && (d.mediaBufferMs != HardwareBufferFloorMs ==> d.mediaBufferMs == EngineDefaultBufferMs)
  {
  }

  /** A successful configuration has the fixed track shapes, the decided
      robustness and budget, the decoded keys, the fixed session id, and the
      merchant prop or, when empty, the environment's merchant. */
  lemma ConfigureDrmShape(
    env: BuildEnv, merchantProp: Option<string>, nav: Navigator, param: Option<string>,
    probe: bool, mint: (string, seq<Byte>) -> Result<string, string>, configure: Outcome)
    requires ConfigureDrm(env, merchantProp, nav, param, probe, mint, configure).Success?
    ensures var c := ConfigureDrm(env, merchantProp, nav, param, probe, mint, configure).value;
      var d := Decide(nav, param, probe);
      && c.video.codec == H264 && c.video.encryption == Cbcs
      && c.audio.codec == Opus && c.audio.encryption == Clear
      && c.video.robustness == Some(d.robustness) && c.mediaBufferMs == d.mediaBufferMs
      && c.video.keyId == Some(DrmUtils.HexToBytes(env.keyIdHex).value)
      && c.video.iv == Some(DrmUtils.HexToBytes(env.ivHex).value)
      && c.environment == Staging
      && c.sessionId.Some? && StartsWith(c.sessionId.value, SessionMarker)
      && c.sessionId.value[|SessionMarker|..] == CrtJson(TestCrt)
      && (merchantProp.Some? && merchantProp.value != "" ==> c.merchant == merchantProp.value)
      && (merchantProp.None? || merchantProp.value == "" ==> c.merchant == env.merchant)
      && DrmUtils.HexToBytes(env.secretHex).Success?
      && mint(c.merchant, DrmUtils.HexToBytes(env.secretHex).value).Success?
      && c.authToken == Some(mint(c.merchant, DrmUtils.HexToBytes(env.secretHex).value).value)
  {
    var c := ConfigureDrm(env, merchantProp, nav, param, probe, mint, configure).value;
    assert (SessionMarker + CrtJson(TestCrt))[..|SessionMarker|] == SessionMarker;
  }

  /** The routine fails exactly when a key cannot be decoded, the token
      cannot be minted, or `configure` throws. Each failure is re-raised with
      the message of the first step that failed, in the order key id, iv,
      secret, token, `configure`. */
  lemma ConfigureDrmErrors(
    env: BuildEnv, merchantProp: Option<string>, nav: Navigator, param: Option<string>,
    probe: bool, mint: (string, seq<Byte>) -> Result<string, string>, configure: Outcome)
    ensures var r := ConfigureDrm(env, merchantProp, nav, param, probe, mint, configure);
      var keyId := DrmUtils.HexToBytes(env.keyIdHex);
      var iv := DrmUtils.HexToBytes(env.ivHex);
      var secret := DrmUtils.HexToBytes(env.secretHex);
      && (r.Success? <==>
            keyId.Success? && iv.Success? && secret.Success?
            && mint(Merchant(env, merchantProp), secret.value).Success? && configure.Ok?)
      && (keyId.Failure? ==> r == Failure(keyId.error.Message()))
      && (keyId.Success? && iv.Failure? ==> r == Failure(iv.error.Message()))
      && (keyId.Success? && iv.Success? && secret.Failure? ==> r == Failure(secret.error.Message()))
      && (keyId.Success? && iv.Success? && secret.Success?
          && mint(Merchant(env, merchantProp), secret.value).Failure?
          ==> r == Failure(mint(Merchant(env, merchantProp), secret.value).error))
      && (keyId.Success? && iv.Success? && secret.Success?
          && mint(Merchant(env, merchantProp), secret.value).Success? && configure.Throws?
          ==> r == Failure(configure.message))
  {
  }

  /** Valid 16-byte hex keys in the environment always decode to the 16
      bytes the video track needs. */
  lemma ValidKeysDecodeTo16Bytes(env: BuildEnv)
    requires DrmUtils.ValidateDrmKey(DrmUtils.HexKey(env.keyIdHex), DrmUtils.DefaultKeyLength)
    requires DrmUtils.ValidateDrmKey(DrmUtils.HexKey(env.ivHex), DrmUtils.DefaultKeyLength)
    ensures DrmUtils.HexToBytes(env.keyIdHex).Success? && |DrmUtils.HexToBytes(env.keyIdHex).value| == 16
    ensures DrmUtils.HexToBytes(env.ivHex).Success? && |DrmUtils.HexToBytes(env.ivHex).value| == 16
  {
    DrmUtils.ValidHexKeyDecodes(env.keyIdHex, DrmUtils.DefaultKeyLength);
    DrmUtils.ValidHexKeyDecodes(env.ivHex, DrmUtils.DefaultKeyLength);
  }

  /** A failing engine track call is logged, not raised: the track is
      forwarded either way, and a failure is recorded exactly when the engine
      threw. */
  lemma DrmTrackFailuresSwallowed(log: TrackLog, config: DrmConfig, t: Track, onTrack: Outcome)
    ensures var r := OnDrmTrack(log, config, t, onTrack);
      && r.forwarded == log.forwarded + [(t, config)]
      && (onTrack.Ok? <==> r.failures == log.failures)
      && (onTrack.Throws? ==> r.failures == log.failures + [onTrack.message])
  {
  }

  /** Because the player supplies no track callback, every track of a
      player connection goes to the hook's own stream and none is delegated,
      encrypted or not. */
  lemma PlayerTracksNeverDelegated(h: Whep.Hook, endpoint: string, encrypted: bool,
                                   video: Option<Whep.VideoElement>, audio: bool, b: Whep.Browser, t: Track)
    requires b.construct.Ok?
    ensures var r := PlayerConnect(h, endpoint, encrypted, video, audio, b);
      && !r.delegate
      && Whep.OnTrack(r, t).delegated == r.delegated
  {
  }

  /** The audio element makes no difference to a player connection. The hook's
      `connect` has no parameter for it, so `PlayerConnect` never reads it;
      the lemma records that as-written fact rather than proving any work. */
  lemma PlayerIgnoresAudio(h: Whep.Hook, endpoint: string, encrypted: bool,
                           video: Option<Whep.VideoElement>, b: Whep.Browser)
    ensures PlayerConnect(h, endpoint, encrypted, video, true, b)
            == PlayerConnect(h, endpoint, encrypted, video, false, b)
  {
  }
}
