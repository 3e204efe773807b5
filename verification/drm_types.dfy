/**
 * The configuration vocabulary of the opaque DRM transform engine: the
 * unions it declares for codecs, encryption schemes, robustness levels and
 * license environments, and the track and session configuration records the
 * viewer hands to its `configure` and `onTrack` entry points.
 */
module DrmTypes {
  import opened Common

  datatype Codec = H264 | AV1 | Opus

  datatype Encryption = Clear | Cbcs | Cenc

  /** Hardware-backed versus software-only decryption. */
  datatype Robustness = HW | SW

  datatype Environment = Staging | Production | Development

  /** A per-track configuration; key material is absent for clear tracks. */
  datatype TrackConfig = TrackConfig(
    codec: Codec,
    encryption: Encryption,
    robustness: Option<Robustness>,
    keyId: Option<seq<Byte>>,
    iv: Option<seq<Byte>>)

  /** The session configuration handed to the engine. The primary video
      element is always present and is not represented; `audioElement` says
      whether an additional audio element is attached. A negative
      `mediaBufferMs` selects the engine's default buffering. */
  datatype DrmConfig = DrmConfig(
    merchant: string,
    environment: Environment,
    authToken: Option<string>,
    sessionId: Option<string>,
    audioElement: bool,
    video: TrackConfig,
    audio: TrackConfig,
    logLevel: int,
    mediaBufferMs: int)

  /** The audio track is always opus and never encrypted. */
  const ClearOpusAudio: TrackConfig := TrackConfig(Opus, Clear, None, None, None)

  /** The engine's informational log level. */
  const InfoLogLevel: int := 3
}
