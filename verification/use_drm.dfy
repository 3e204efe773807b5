/**
 * The DRM hook: `setup` assembles a session configuration from caller
 * options with defaults, remembers it and hands it to the engine;
 * `handleTrack` forwards track events together with the remembered
 * configuration. The engine's two entry points are oracles that may throw.
 */
module UseDrm {
  import opened Common
  import opened DrmTypes
  import DrmUtils

  /** Caller options; `videoElement` and `audioElement` say whether the
      element is present, the optional fields are `undefined` when `None`. */
  datatype UseDrmOptions = UseDrmOptions(
    merchant: string,
    videoElement: bool,
    audioElement: bool,
    environment: Option<Environment>,
    authToken: Option<string>,
    keyId: Option<seq<Byte>>,
    iv: Option<seq<Byte>>,
    mediaBufferMs: Option<int>)

  /** The hook's state and what it has handed to the engine so far. */
  datatype DrmHook = DrmHook(
    stored: Option<DrmConfig>,
    configured: seq<DrmConfig>,
    forwarded: seq<(Track, DrmConfig)>)

  const InitialDrmHook: DrmHook := DrmHook(None, [], [])

  /** What `setup` gives its caller: `null`, the configuration, or the
      error the engine's `configure` threw. */
  datatype SetupResult = ReturnedNull | Returned(config: DrmConfig) | Threw(message: string)

  /** The sandbox key id: fifteen zero bytes and a final 1. */
  const DefaultKeyId: seq<Byte> := [0x00, 0x00, 0x00, 0x00, 0x00, 0x00, 0x00, 0x00,
                                    0x00, 0x00, 0x00, 0x00, 0x00, 0x00, 0x00, 0x01]

  const DefaultIv: seq<Byte> := [0xd5, 0xfb, 0xd6, 0xb8, 0x2e, 0xd9, 0x3e, 0x4e,
                                 0xf9, 0x8a, 0xe4, 0x09, 0x31, 0xee, 0x33, 0xb7]

  /** The buffer budget used when the caller gives none, or gives 0. */
  const DefaultMediaBufferMs: int := 1200

  function OptionOr<T>(o: Option<T>, default: T): T
  {
    if o.Some? then o.value else default
  }

  /** `options.mediaBufferMs || 1200`: 0 is falsy like `undefined`. */
  function BufferBudget(requested: Option<int>): int
  {
    if requested.Some? && requested.value != 0 then requested.value else DefaultMediaBufferMs
  }

  /** The configuration `setup` assembles for a present video element. */
  function AssembleConfig(options: UseDrmOptions, videoTrackConfig: Option<TrackConfig>): DrmConfig
  {
    var video := OptionOr(videoTrackConfig,
      TrackConfig(H264, Cbcs, Some(HW), Some(OptionOr(options.keyId, DefaultKeyId)),
                  Some(OptionOr(options.iv, DefaultIv))));
    DrmConfig(options.merchant, OptionOr(options.environment, Staging), options.authToken, None,
              options.audioElement, video, ClearOpusAudio, InfoLogLevel,
              BufferBudget(options.mediaBufferMs))
  }

  /** `setup`: without a video element it returns `null` and touches
      nothing; otherwise the configuration is stored first and then handed to
      `configure`, whose error, if any, reaches the caller. */
  function Setup(d: DrmHook, options: UseDrmOptions, videoTrackConfig: Option<TrackConfig>,
                 configure: Outcome): (DrmHook, SetupResult)
  {
    if !options.videoElement then (d, ReturnedNull)
    else
      var config := AssembleConfig(options, videoTrackConfig);
      var d' := d.(stored := Some(config), configured := d.configured + [config]);
      match configure
      case Ok => (d', Returned(config))
      case Throws(m) => (d', Threw(m))
  }

  /** `handleTrack`: dropped when nothing is stored, otherwise forwarded to
      the engine with the stored configuration; an engine error reaches the
      caller (the returned outcome). */
  function HandleTrack(d: DrmHook, event: Track, onTrack: Outcome): (DrmHook, Outcome)
  {
    if d.stored.None? then (d, Ok)
    else (d.(forwarded := d.forwarded + [(event, d.stored.value)]), onTrack)
  }

  /** Without a video element `setup` is a no-op that returns `null`. */
  lemma SetupWithoutElement(d: DrmHook, options: UseDrmOptions, vtc: Option<TrackConfig>, configure: Outcome)
    ensures !options.videoElement <==> Setup(d, options, vtc, configure).1 == ReturnedNull
    ensures !options.videoElement ==> Setup(d, options, vtc, configure).0 == d
  {
  }

  /** The defaults `setup` applies: Staging environment; an explicit video
      track configuration is used unchanged, otherwise H264, `cbcs`, HW, and
      the caller's key id and iv or the sandbox ones; audio is always clear
      opus; the buffer budget is the caller's unless absent or 0, then 1200
      (so a negative request is kept). */
  lemma SetupDefaults(d: DrmHook, options: UseDrmOptions, vtc: Option<TrackConfig>, configure: Outcome)
    requires options.videoElement
    ensures var c := Setup(d, options, vtc, configure).0.stored.value;
      && (options.environment.None? ==> c.environment == Staging)
      && (options.environment.Some? ==> c.environment == options.environment.value)
      && (vtc.Some? ==> c.video == vtc.value)
      && (vtc.None? ==> c.video.codec == H264 && c.video.encryption == Cbcs && c.video.robustness == Some(HW))
      && (vtc.None? && options.keyId.Some? ==> c.video.keyId == options.keyId)
      && (vtc.None? && options.keyId.None? ==> c.video.keyId == Some(DefaultKeyId))
      && (vtc.None? && options.iv.Some? ==> c.video.iv == options.iv)
      && (vtc.None? && options.iv.None? ==> c.video.iv == Some(DefaultIv))
      && c.audio.codec == Opus && c.audio.encryption == Clear
      && c.merchant == options.merchant && c.authToken == options.authToken
      && (c.mediaBufferMs == 1200 <==> options.mediaBufferMs in {None, Some(0), Some(1200)})
      && (options.mediaBufferMs.Some? && options.mediaBufferMs.value != 0 ==>
            c.mediaBufferMs == options.mediaBufferMs.value)
  {
  }

  /** The configuration is stored before `configure` runs, so it stays
      stored, and `configure` has seen it exactly once, whether or not
      `configure` throws; a throw is re-raised with its message. */
  lemma SetupStoresBeforeConfigure(d: DrmHook, options: UseDrmOptions, vtc: Option<TrackConfig>, configure: Outcome)
    requires options.videoElement
    ensures var (d', result) := Setup(d, options, vtc, configure);
      && d'.stored.Some?
      && d'.configured == d.configured + [d'.stored.value]
      && d'.forwarded == d.forwarded
      && (configure.Ok? <==> result == Returned(d'.stored.value))
      && (configure.Throws? ==> result == Threw(configure.message))
      && (result.Threw? ==> configure.Throws?)
  {
  }

  /** The sandbox key id and iv are valid 16-byte keys, in byte form and in
      hex form. */
  lemma DefaultKeysAreValid()
    ensures |DefaultKeyId| == DrmUtils.DefaultKeyLength && |DefaultIv| == DrmUtils.DefaultKeyLength
    ensures DrmUtils.ValidateDrmKey(DrmUtils.RawKey(DefaultKeyId), DrmUtils.DefaultKeyLength)
    ensures DrmUtils.ValidateDrmKey(DrmUtils.RawKey(DefaultIv), DrmUtils.DefaultKeyLength)
    ensures DrmUtils.ValidateDrmKey(DrmUtils.HexKey(DrmUtils.BytesToHex(DefaultKeyId)), DrmUtils.DefaultKeyLength)
    ensures DrmUtils.ValidateDrmKey(DrmUtils.HexKey(DrmUtils.BytesToHex(DefaultIv)), DrmUtils.DefaultKeyLength)
  {
    DrmUtils.ValidateFormsAgree(DefaultKeyId, DrmUtils.DefaultKeyLength);
    DrmUtils.ValidateFormsAgree(DefaultIv, DrmUtils.DefaultKeyLength);
  }

  /** `handleTrack` is a no-op before any configuration is stored (in
      particular on a fresh hook, before any `setup`), and otherwise forwards
      exactly this event with the stored configuration. */
  lemma HandleTrackForwards(d: DrmHook, event: Track, onTrack: Outcome)
    ensures d.stored.None? ==> HandleTrack(d, event, onTrack) == (d, Ok)
    ensures HandleTrack(InitialDrmHook, event, onTrack) == (InitialDrmHook, Ok)
    ensures d.stored.Some? ==> HandleTrack(d, event, onTrack).0.forwarded == d.forwarded + [(event, d.stored.value)]
    ensures HandleTrack(d, event, onTrack).0.stored == d.stored
    ensures HandleTrack(d, event, onTrack).0.configured == d.configured
  {
  }

  /** A track arriving after `setup` on an element is forwarded with the
      configuration that `setup` produced, the latest one, even if
      `configure` threw. */
  lemma TrackAfterSetupUsesLatestConfig(d: DrmHook, options: UseDrmOptions, vtc: Option<TrackConfig>,
                                        configure: Outcome, event: Track, onTrack: Outcome)
    requires options.videoElement
    ensures var d1 := Setup(d, options, vtc, configure).0;
      var d2 := HandleTrack(d1, event, onTrack).0;
      |d2.forwarded| == |d.forwarded| + 1
      && d2.forwarded[|d.forwarded|] == (event, AssembleConfig(options, vtc))
  {
  }
}
