# drm-whep viewer core, modelled in Dafny

This project models the deterministic core of a browser viewer. The viewer
receives a WebRTC stream through WHEP (the WebRTC-HTTP Egress Protocol, IETF
draft-ietf-wish-whep) and can hand the received tracks to an opaque DRM
transform engine. The model has seven modules:

- `Common` (`common.dfy`) holds the shared values. These are optional and fallible
  results, the outcome of an oracle call that may throw, bytes and tracks, and
  the JavaScript string operations the viewer uses: `||` on strings, ASCII case
  folding, `/word/i` tests, `URLSearchParams.get` and `${n}` for a number.
- `DrmUtils` (`drm_utils.dfy`) models `hexToUint8Array`, `uint8ArrayToHex` and
  `validateDrmKey`. This is Base16 as in section 8 of RFC 4648. Decoding first
  strips separators and accepts both letter cases. Encoding emits lower case.
- `DrmTypes` (`drm_types.dfy`) holds the engine's codec, encryption, robustness
  and environment unions, and its track and session configuration records.
- `Whep` (`whep.dfy`) models the `useWhep` hook as a state record. `Connect`
  runs one connection attempt against a `Browser` oracle. The oracle says
  whether construction, offer creation and local description succeed, how the
  ICE-gathering race ended, what the signaling POST returned, and whether the
  answer could be applied. `Disconnect`, `OnTrack` and `OnConnectionStateChange`
  are further transitions. `Run` applies any sequence of events.
- `UseDrm` (`use_drm.dfy`) models the `useDrm` hook. `Setup` applies a guard,
  fills in defaults, stores the configuration and then calls the engine's
  `configure`. `HandleTrack` forwards an event only when a configuration is stored.
- `PlayerDrm` (`player.dfy`) models the decision part of the player's DRM
  routine: Android detection, the robustness choice, the buffer budget,
  configuration assembly and the engine calls. It also models the options the
  player passes to the WHEP hook.
- `EmbedApp` (`embed_app.dfy`) models how the embeddable page parses its URL
  parameters and whether it renders the player or the missing-configuration panel.

The model follows the code as written. Two behaviours of the code as written
are not what its own call sites and comments intend:

- The player's connect call (src/components/Player.tsx:163-167) passes a
  `configureDrm` routine and an audio element. The hook's options
  (src/hooks/useWhep.ts:3-8) declare no `configureDrm` field, and `connect`
  takes only the video element (src/hooks/useWhep.ts:30). So the routine
  never runs, and an encrypted connection only sets the insertable-streams
  flag on the peer connection. See `PlayerDrm.PlayerTracksNeverDelegated`,
  `PlayerDrm.PlayerIgnoresAudio` and `Whep.EncryptedOnlySetsInsertableStreams`.
- `disconnect` (src/hooks/useWhep.ts:17-28) never clears the video element's
  source, and the track handler attaches the stream only to an element that
  shows nothing (src/hooks/useWhep.ts:56-57). So after a reconnect on the same
  element, the new stream is never attached (`Whep.ReconnectKeepsPreviousSource`).

Other behaviour of the code as written that a reader may not expect:

- The hex-key check (src/lib/drmUtils.ts:93-94) also requires the cleaned text
  to be non-empty, because the regular expression is `^[0-9a-fA-F]+$`. So `""`
  is invalid even for an expected length of 0.
- The DRM routine always starts from a buffer budget of -1
  (src/components/Player.tsx:75-77). It raises the budget to 1200 only on
  Android with HW robustness. No caller budget is involved.
- Neither track handler starts playback. The player's comment
  (src/components/Player.tsx:151-154) says this is deliberate: the elements
  autoplay. The track callbacks have no guard against firing for a stale peer
  connection.

`hexToUint8Array` is modelled for every input, not only for hex digits.
`parseInt(pair, 16)` on a two-character pair with no separator gives one of
four results. Two digits give their value. A digit followed by anything else
gives that digit. `+` followed by a digit gives that digit. Anything else is
NaN, which a `Uint8Array` stores as 0 (`DrmUtils.ParsePair`). The properties
about digit values and round-trips assume hex input.

## Model

| member | source | states |
|---|---|---|
| `Common.QueryGetFirst` | src/components/EmbedApp.tsx:8-11 | A query lookup finds a value iff some pair has that name, and the value is the one of the first such pair |
| `Common.DecimalRoundTrip` | src/hooks/useWhep.ts:128 | The decimal rendering of a status code can be read back to the same number, so the signaling error message identifies the status |
| `DrmUtils.Clean` | src/lib/drmUtils.ts:15 | Cleaning never lengthens key text, and the cleaned text contains no white space, `:` or `-` |
| `DrmUtils.CleanWithoutSeparators` | src/lib/drmUtils.ts:15 | Text without separators is left unchanged by cleaning |
| `DrmUtils.CleanConcat` | src/lib/drmUtils.ts:15 | Cleaning distributes over concatenation: separators are dropped in place and the rest keeps its order |
| `DrmUtils.CleanIdempotent` | src/lib/drmUtils.ts:15 | Cleaning twice equals cleaning once |
| `DrmUtils.CleanKeepsNonSeparators` | src/lib/drmUtils.ts:15 | Every non-separator character occurs in the cleaned text exactly as often as in the input |
| `DrmUtils.ParsePair` | src/lib/drmUtils.ts:23 | A pair of hex digits decodes to 16 × high digit + low digit |
| `DrmUtils.DecodePairs` | src/lib/drmUtils.ts:21-26 | The decoding loop yields half as many bytes as characters, and byte i comes from characters 2i and 2i+1 |
| `DrmUtils.HexToBytes` | src/lib/drmUtils.ts:13-27 | Decoding fails iff the cleaned length is odd, and the error carries that length. Otherwise it yields half the cleaned length in bytes, and for hex text byte i = 16·digit(2i) + digit(2i+1) |
| `DrmUtils.PadStartZero` | src/lib/drmUtils.ts:82 | Padding reaches the target length or keeps the text's length, ends with the text and fills in front only with '0' |
| `DrmUtils.ByteToHex` | src/lib/drmUtils.ts:82 | Radix-16 text padded to two places is exactly the high-nibble digit followed by the low-nibble digit, also for bytes below 16 |
| `DrmUtils.BytesToHex` | src/lib/drmUtils.ts:80-84 | The hex text of n bytes has length 2n |
| `DrmUtils.BytesToHexJoinsGroups` | src/lib/drmUtils.ts:80-84 | The hex text is the padded two-digit group of the first byte followed by the hex text of the rest, as the map and join build it |
| `DrmUtils.BytesToHexDigits` | src/lib/drmUtils.ts:80-84 | Characters 2i and 2i+1 of the hex text are the high and low nibble digits of byte i |
| `DrmUtils.BytesToHexAlphabet` | src/lib/drmUtils.ts:80-84 | The hex text uses only `0-9a-f` |
| `DrmUtils.DigitsOfByte` | src/lib/drmUtils.ts:82 | A byte's two digits are lower-case hex and read back as 16 × high + low = the byte |
| `DrmUtils.PairOfByte` | src/lib/drmUtils.ts:23 | Parsing the two digits of a byte gives the byte back |
| `DrmUtils.DigitsOfPair` | src/lib/drmUtils.ts:23 | Parsing a pair of hex digits gives a byte whose digits are the pair in lower case |
| `DrmUtils.CleanHex` | src/lib/drmUtils.ts:15 | Hex text contains no separator and is left unchanged by cleaning |
| `DrmUtils.HexCharOfValue` | src/lib/drmUtils.ts:82 | Re-encoding the value of a hex digit of either case gives that digit in lower case |
| `DrmUtils.DecodeEncodedPairs` | src/lib/drmUtils.ts:21-26 | The pair-decoding loop applied to the hex text of any bytes gives those bytes |
| `DrmUtils.EncodeDecodedPairs` | src/lib/drmUtils.ts:21-26 | Encoding what the pair-decoding loop produced from even-length hex text gives that text in lower case |
| `DrmUtils.BytesRoundTrip` | src/lib/drmUtils.ts:13-84 | Decoding the hex text of any byte sequence gives back exactly that sequence |
| `DrmUtils.HexRoundTrip` | src/lib/drmUtils.ts:13-84 | Take hex text whose cleaned form has even length. It decodes without error, and re-encoding gives the cleaned text in lower case |
| `DrmUtils.ValidHexKeyDecodes` | src/lib/drmUtils.ts:91-94 | A hex key is valid iff its cleaned text is all hex digits, decodes without error to exactly the expected number of bytes, and that number is positive. So `""` is never valid |
| `DrmUtils.ValidateFormsAgree` | src/lib/drmUtils.ts:91-97 | For a positive expected length, raw bytes are valid iff their hex encoding is valid |
| `UseDrm.SetupWithoutElement` | src/hooks/useDrm.ts:19-20 | `setup` returns null iff there is no video element, and then the hook state is unchanged and `configure` is not called |
| `UseDrm.SetupDefaults` | src/hooks/useDrm.ts:23-47 | The environment defaults to Staging. An explicit video track config is used unchanged. Otherwise video is H264/cbcs/HW with the caller's key id and iv, or the sandbox ones. Audio is clear opus. The buffer budget is the caller's, or 1200 when absent or 0, and negative budgets are kept |
| `UseDrm.SetupStoresBeforeConfigure` | src/hooks/useDrm.ts:49-52 | The config is stored, and handed to `configure` exactly once, whether or not `configure` throws. A throw reaches the caller with its message |
| `UseDrm.DefaultKeysAreValid` | src/hooks/useDrm.ts:23-24 | The sandbox key id and iv are 16 bytes each and pass the key check in byte and hex form |
| `UseDrm.HandleTrackForwards` | src/hooks/useDrm.ts:55-59 | With nothing stored, including on a fresh hook before any `setup`, a track is dropped. Otherwise exactly this event is forwarded with the stored config, and the stored config is unchanged |
| `UseDrm.TrackAfterSetupUsesLatestConfig` | src/hooks/useDrm.ts:49-59 | A track after `setup` is forwarded with the config that `setup` just produced, even if `configure` threw |
| `Whep.AddTrack` | src/hooks/useWhep.ts:55 | Adding a track keeps the stream's identity, and afterwards the stream holds the old tracks plus this one |
| `Whep.DisconnectReleases` | src/hooks/useWhep.ts:17-28 | `disconnect` leaves no current handle, no open handle, no stream and both flags false. The error is cleared iff asked, and is otherwise kept |
| `Whep.DisconnectIdempotent` | src/hooks/useWhep.ts:17-28 | Disconnecting twice gives the same state as disconnecting once |
| `Whep.ConnectCreatesOneHandle` | src/hooks/useWhep.ts:39-48 | One handle is created iff construction succeeds. It has video then audio receive-only transceivers, and insertable streams iff the attempt is encrypted |
| `Whep.ConnectClosesPrevious` | src/hooks/useWhep.ts:30-45 | Every handle that existed before `connect` is closed after it, whatever the outcome |
| `Whep.NegotiationError` | src/hooks/useWhep.ts:81-129 | Negotiation ends without error iff the offer and local description succeed, the POST gets a response, its status is 201 and the answer is applied. Otherwise the error is the message of the first step that fails, in that order, and a non-201 status gives the signaling-failure message |
| `Whep.ConnectSuccess` | src/hooks/useWhep.ts:123-126 | The error is clear after `connect` iff every browser step succeeded and the status was 201. Then the hook is still connecting, and the new handle is current, open and holds the answer |
| `Whep.ConnectFailureKeepsError` | src/hooks/useWhep.ts:131-136 | On failure the error is the message of the step that threw (construction, offer, local description, fetch, or answer), or "Connection failed" when that message is empty. The teardown keeps it, and leaves both flags false, no handle and no stream |
| `Whep.SignalingStatus` | src/hooks/useWhep.ts:123-129 | Only 201 applies the answer. Any other status fails with "WHEP signaling failed with status n", from which n can be recovered |
| `Whep.SignalingRequest` | src/hooks/useWhep.ts:101-118 | The POST goes to the endpoint iff the handle and local offer were set up. Content-Type application/sdp always comes first, and `Authorization: Bearer <token>` is added iff the token is non-empty |
| `Whep.IceRaceIrrelevant` | src/hooks/useWhep.ts:84-99 | Whether ICE gathering completed or the 2 s timer fired first does not change the outcome. This holds because the race result is not read after the wait |
| `Whep.EncryptedOnlySetsInsertableStreams` | src/hooks/useWhep.ts:39-44 | An encrypted attempt ends exactly like a clear one, except that the new handle has insertable streams |
| `Whep.FailWithFlagged` | src/hooks/useWhep.ts:131-136 | The catch path treats a handle the same whether or not it asks for insertable streams, and keeps that setting |
| `Whep.RetryClearsError` | src/hooks/useWhep.ts:30-33 | After any attempt, a successful attempt (every step succeeds and the status is 201, whatever the answer body) leaves no error |
| `Whep.ConnectionStateMapping` | src/hooks/useWhep.ts:62-75 | "connected" sets connected and clears connecting. "failed", "closed" and "disconnected" clear both. Any other state changes nothing. The stream is attached only to an element that shows nothing |
| `Whep.TrackRouting` | src/hooks/useWhep.ts:50-60 | A supplied callback gets every track and nothing else changes. Otherwise the track joins the stream, and the stream is attached only to an empty element |
| `Whep.CallbacksIdempotent` | src/hooks/useWhep.ts:50-75 | Re-delivering a track to the hook's stream, or a repeated "connected", changes nothing |
| `Whep.FailWithKeepsValid` | src/hooks/useWhep.ts:131-136 | The catch path preserves the state invariant |
| `Whep.ConnectKeepsValid` | src/hooks/useWhep.ts:30-136 | Every outcome of `connect` preserves the invariant: never connected and connecting at once, and only the current handle may be open |
| `Whep.StepKeepsValid` | src/hooks/useWhep.ts:17-136 | Each single event (connect, disconnect, connection-state change, track) preserves the invariant |
| `Whep.RunKeepsValid` | src/hooks/useWhep.ts:17-136 | Any sequence of connects, disconnects, state changes and tracks preserves the invariant |
| `Whep.AtMostOneOpen` | src/hooks/useWhep.ts:14-45 | In a valid state at most one handle is open, and one is open iff there is a current handle |
| `Whep.OpenCountBound` | src/hooks/useWhep.ts:14-45 | If only the current handle may be open and it is open, exactly one handle is open when there is a current one, and none otherwise |
| `Whep.ReachableValid` | src/hooks/useWhep.ts:10-136 | Every state reachable from the initial one is valid, with at most one open handle |
| `Whep.ReconnectKeepsPreviousSource` | src/hooks/useWhep.ts:17-75 | Take a reconnect on an element that already shows a stream. Neither a track nor "connected" replaces that source |
| `PlayerDrm.PlatformFirstNonEmpty` | src/components/Player.tsx:37-38 | The platform is the user-agent-data platform if non-empty, else the navigator platform |
| `PlayerDrm.AndroidSignals` | src/components/Player.tsx:39-43 | Each signal alone means Android: the platform is "android" in any case, the UA contains "android" in any case, or a mobile device's platform contains "linux". A device with none of these is not Android |
| `PlayerDrm.OffAndroidIsSoftware` | src/components/Player.tsx:52-82 | Off Android there is no probe, robustness is SW and the buffer stays -1, whatever the override |
| `PlayerDrm.AndroidRobustness` | src/components/Player.tsx:52-73 | On Android the probe runs. A recognised override wins. Otherwise the result is HW iff the probe succeeded, and a failed probe raises no error |
| `PlayerDrm.OverrideRecognition` | src/components/Player.tsx:49-73 | The override applies iff the upper-cased parameter is exactly HW or SW |
| `PlayerDrm.BufferBudgetIff` | src/components/Player.tsx:75-77 | The buffer is 1200 iff the device is Android and the robustness is HW, and -1 otherwise |
| `PlayerDrm.ConfigureDrmShape` | src/components/Player.tsx:79-118 | A successful config has H264/cbcs video with the decided robustness and the decoded keys, and clear opus audio. It uses Staging and the decided buffer. The session id is "crtjson:" followed by the payload JSON. The merchant falls back to the environment's. The auth token is the one minted for that merchant from the decoded secret |
| `PlayerDrm.ConfigureDrmErrors` | src/components/Player.tsx:32-144 | The routine succeeds iff all three keys decode, minting succeeds and `configure` succeeds. Otherwise it fails with the message of the first failing step, in the order key id, iv, secret, token, `configure` |
| `PlayerDrm.ValidKeysDecodeTo16Bytes` | src/components/Player.tsx:33-34 | Environment keys that pass the 16-byte check decode to exactly 16 bytes |
| `PlayerDrm.DrmTrackFailuresSwallowed` | src/components/Player.tsx:146-159 | Each track is forwarded. An engine error is logged and never re-raised |
| `PlayerDrm.PlayerTracksNeverDelegated` | src/components/Player.tsx:162-168 | The player supplies no track callback, so no track of its connection is delegated, encrypted or not |
| `PlayerDrm.PlayerIgnoresAudio` | src/components/Player.tsx:162-168 | The audio element passed to `connect` makes no difference |
| `EmbedApp.EndpointResolution` | src/components/EmbedApp.tsx:11-17 | An absent endpoint is "". An endpoint starting with "http" is kept. Any other non-empty endpoint is prefixed with the stream domain. The result is empty iff the parameter is absent or empty |
| `EmbedApp.MerchantAndEncryption` | src/components/EmbedApp.tsx:19-23 | The merchant is the parameter if non-empty, else the build default. Encrypted iff the parameter is exactly "true" |
| `EmbedApp.MissingEndpointIff` | src/components/EmbedApp.tsx:28-49 | The missing-configuration panel shows iff the endpoint parameter is absent or empty. Otherwise the player gets the resolved endpoint |
| `EmbedApp.EmbedScenarios` | src/components/EmbedApp.test.tsx:15-35 | `?endpoint=http://test.com` renders the player with that endpoint, and an empty query renders the error |

## Left out

- URL query parsing (`URLSearchParams`): percent-decoding, `+` as a space, and splitting on `&` and `=` are not modelled. The embeddable page and the player read the query as a list of already decoded name and value pairs.
- Token minting (`generateAuthToken`, `generateRandomString`): JWT signing, randomness, the clock and logging are foreign. The player routine takes minting as a function parameter that returns a token or an error.
- Browser primitives are oracles: `RTCPeerConnection`, `fetch` with its 5 s abort, the 2 s ICE timer, `MediaStream`, `requestMediaKeySystemAccess`, and `navigator`. The SDP offer and the request body are not modelled, and neither are the bundle policy and the STUN server.
- Async interleaving: `Connect` runs one attempt as a single step. The callbacks are separate transitions in any order, and they act on the current state. A stale callback therefore uses the latest element and track-callback setting, not the ones its own attempt captured.
- Strings are sequences of Unicode code points. JavaScript counts UTF-16 code units, so lengths differ for characters outside the Basic Multilingual Plane.
- Case mapping is ASCII, plus dotless i and long s for upper-casing. JavaScript maps a few more characters to or into ASCII letters. The Kelvin sign lower-cases to "k", and "İ" lower-cases to "i" plus a combining dot. "ß", "ﬀ" and "ﬆ" upper-case to "SS", "FF" and "ST". None of these mappings can produce "android", "linux", "HW" or "SW" where the ASCII-only mapping does not, so the Android and override decisions are unaffected.
- Build-time environment values are assumed to be defined strings. An undefined value would concatenate as "undefined" or make the hex decoder throw a type error.
- Numbers are integers: a NaN or fractional buffer budget or expected key length is not modelled.
- Logging, `alert`, the diagnostic media-element listeners, and all UI (mute, overlays, buttons) are left out, as are the app shell and build files.
- The engine's environment objects are represented by an enumeration, and its internals are not modelled.
- The hook's `peerConnection` return value is not modelled.
- Reading the answer body (`response.text()`) and applying it are one oracle step. A failure of either is a throw of `setRemote`, and the body is part of the fetch outcome.
