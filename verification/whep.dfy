/**
 * The WHEP connection hook (WebRTC-HTTP Egress Protocol, IETF
 * draft-ietf-wish-whep): a state record and its transitions.
 *
 * `Connect` runs one whole connection attempt against a `Browser` oracle that
 * supplies what the platform would: whether each peer-connection call
 * throws, how the ICE-gathering race ended, and the HTTP response (or the
 * error) of the signaling POST. The peer connection's callbacks, track
 * arrival and connection-state change, are separate transitions that may
 * be applied to any state, in any order.
 */
module Whep {
  import opened Common

  datatype Direction = RecvOnly

  datatype Transceiver = Transceiver(kind: Kind, direction: Direction)

  /** One peer connection the hook created. `remoteAnswer` is the SDP answer
      applied as its remote description, if any. */
  datatype PeerConnection = PeerConnection(
    open: bool,
    insertableStreams: bool,
    transceivers: seq<Transceiver>,
    remoteAnswer: Option<string>)

  /** A media stream: its identity and the tracks added to it. */
  datatype MediaStream = MediaStream(id: nat, tracks: seq<Track>)

  /** The video element, through the identity of the stream it shows. */
  datatype VideoElement = VideoElement(srcObject: Option<nat>)

  /** What a caller passes to `connect`; `onTrack` says whether a track
      callback is supplied. */
  datatype WhepOptions = WhepOptions(
    endpoint: string,
    token: Option<string>,
    encrypted: bool,
    onTrack: bool)

  /** The hook's state. `pc` indexes the handle in `handles`, which lists
      every peer connection ever created, oldest first. `element` and
      `delegate` are what the callbacks of the latest handle captured:
      the video element and whether a track callback was supplied.
      `delegated` lists the tracks handed to that callback. */
  datatype Hook = Hook(
    isConnected: bool,
    isConnecting: bool,
    error: Option<string>,
    pc: Option<nat>,
    handles: seq<PeerConnection>,
    stream: Option<MediaStream>,
    streamsCreated: nat,
    element: Option<VideoElement>,
    delegate: bool,
    delegated: seq<Track>)

  const InitialHook: Hook := Hook(false, false, None, None, [], None, 0, None, false, [])

  /** Which event released the wait for ICE gathering (2 s timer or completion). */
  datatype IceWait = GatheringComplete | GatheringTimedOut

  /** The signaling POST: rejected (network error, 5 s abort) or answered. */
  datatype FetchOutcome = Rejected(message: string) | Responded(status: nat, body: string)

  /** What the browser does during one connection attempt. `setRemote`
      covers reading the answer body and applying it. */
  datatype Browser = Browser(
    construct: Outcome,
    createOffer: Outcome,
    setLocal: Outcome,
    ice: IceWait,
    fetch: FetchOutcome,
    setRemote: Outcome)

  datatype Header = Header(name: string, value: string)

  datatype Request = Request(verb: string, url: string, headers: seq<Header>)

  /** The state after an attempt, and the signaling request it sent, if any. */
  datatype ConnectResult = ConnectResult(hook: Hook, request: Option<Request>)

  /** The status that signals a created WHEP session. */
  const Created: nat := 201

  const FallbackError: string := "Connection failed"

  const SignalingFailurePrefix: string := "WHEP signaling failed with status "

  /** The state invariant: never connected and connecting at once, and the
      only handle that may be open is the current one. */
  ghost predicate Valid(h: Hook)
  {
    && !(h.isConnected && h.isConnecting)
    && (h.pc.Some? ==> h.pc.value < |h.handles| && h.handles[h.pc.value].open)
    && (forall i :: 0 <= i < |h.handles| && h.handles[i].open ==> h.pc == Some(i))
  }

  /** The number of open handles. */
  function OpenCount(handles: seq<PeerConnection>): nat
  {
    if handles == [] then 0
    else (if handles[|handles| - 1].open then 1 else 0) + OpenCount(handles[..|handles| - 1])
  }

  /** `disconnect(clearError)`: closes and forgets the current handle, drops
      the stream, leaves both flags false, and clears the error only when
      asked. */
  function Disconnect(h: Hook, clearError: bool): Hook
  {
    var handles :=
      if h.pc.Some? && h.pc.value < |h.handles|
      then h.handles[h.pc.value := h.handles[h.pc.value].(open := false)]
      else h.handles;
    h.(pc := None, handles := handles, stream := None, isConnected := false, isConnecting := false,
       error := if clearError then None else h.error)
  }

  /** The message an attempt reports: the thrown message, or "Connection
      failed" when that is empty. */
  function Reported(message: string): string
  {
    if message == "" then FallbackError else message
  }

  /** The catch path: record the message, or the fallback for an empty one,
      stop connecting, then tear down WITHOUT clearing that error. */
  function FailWith(h: Hook, message: string): Hook
  {
    Disconnect(h.(error := Some(Reported(message)), isConnecting := false), false)
  }

  function SignalingFailureMessage(status: nat): string
  {
    SignalingFailurePrefix + Decimal(status)
  }

  /** The signaling headers: the SDP content type, then a bearer token
      (section 2.1 of RFC 6750) when one is given and non-empty. */
  function SignalingHeaders(token: Option<string>): seq<Header>
  {
    [Header("Content-Type", "application/sdp")]
    + (if token.Some? && token.value != "" then [Header("Authorization", "Bearer " + token.value)] else [])
  }

  /** The transceivers every new handle receives: video, then audio. */
  const RecvOnlyTransceivers: seq<Transceiver> :=
    [Transceiver(Video, RecvOnly), Transceiver(Audio, RecvOnly)]

  /** The steps after construction run in order (offer, local
      description, ICE wait, signaling POST, answer) and the first one that
      throws ends the attempt: its message, or `None` when all succeed. A
      status other than 201 throws the signaling failure. */
  function NegotiationError(b: Browser): (r: Option<string>)
    ensures r.None? <==> b.createOffer.Ok? && b.setLocal.Ok? && b.fetch.Responded?
                         && b.fetch.status == Created && b.setRemote.Ok?
    ensures b.createOffer.Throws? ==> r == Some(b.createOffer.message)
    ensures b.createOffer.Ok? && b.setLocal.Throws? ==> r == Some(b.setLocal.message)
    ensures b.createOffer.Ok? && b.setLocal.Ok? && b.fetch.Rejected? ==> r == Some(b.fetch.message)
    ensures b.createOffer.Ok? && b.setLocal.Ok? && b.fetch.Responded? && b.fetch.status != Created ==>
              r == Some(SignalingFailureMessage(b.fetch.status))
    ensures (b.createOffer.Ok? && b.setLocal.Ok? && b.fetch.Responded? && b.fetch.status == Created
             && b.setRemote.Throws?) ==> r == Some(b.setRemote.message)
  {
    if b.createOffer.Throws? then Some(b.createOffer.message)
    else if b.setLocal.Throws? then Some(b.setLocal.message)
    else match b.fetch
      case Rejected(m) => Some(m)
      case Responded(status, _) =>
        if status != Created then Some(SignalingFailureMessage(status))
        else if b.setRemote.Throws? then Some(b.setRemote.message)
        else None
  }

  /** `connect`: tear down (clearing the error), clear the error, start
      connecting with a fresh stream, then create the handle and negotiate.
      Any throw lands in the catch path. Success leaves the hook connecting;
      the connection-state callback completes it. */
  function Connect(h: Hook, options: WhepOptions, element: Option<VideoElement>, b: Browser): ConnectResult
  {
    var h0 := Disconnect(h, true);
    var h1 := h0.(error := None, isConnecting := true,
                  stream := Some(MediaStream(h0.streamsCreated, [])),
                  streamsCreated := h0.streamsCreated + 1);
    if b.construct.Throws? then ConnectResult(FailWith(h1, b.construct.message), None)
    else
      var id := |h1.handles|;
      var pc := PeerConnection(true, options.encrypted, RecvOnlyTransceivers, None);
      var h2 := h1.(handles := h1.handles + [pc], pc := Some(id),
                    element := element, delegate := options.onTrack);
      var request :=
        if b.createOffer.Ok? && b.setLocal.Ok?
        then Some(Request("POST", options.endpoint, SignalingHeaders(options.token)))
        else None;
      var error := NegotiationError(b);
      if error.Some? then ConnectResult(FailWith(h2, error.value), request)
      else ConnectResult(h2.(handles := h2.handles[id := pc.(remoteAnswer := Some(b.fetch.body))]), request)
  }

  /** Attach the current stream when the element exists and shows nothing. */
  function AttachIfEmpty(element: Option<VideoElement>, stream: Option<MediaStream>): Option<VideoElement>
  {
    if element.Some? && element.value.srcObject.None? && stream.Some?
    then Some(VideoElement(Some(stream.value.id)))
    else element
  }

  /** `MediaStream.addTrack`: a track already in the stream is not added twice. */
  function AddTrack(s: MediaStream, t: Track): (r: MediaStream)
    ensures r.id == s.id
    ensures t in r.tracks
    ensures forall u :: u in r.tracks <==> u in s.tracks || u == t
  {
    if t in s.tracks then s else s.(tracks := s.tracks + [t])
  }

  /** The track callback: a supplied callback receives the track and nothing
      else happens; otherwise the track joins the stream, which is attached
      if the element shows nothing yet. */
  function OnTrack(h: Hook, t: Track): Hook
  {
    if h.delegate then h.(delegated := h.delegated + [t])
    else
      var stream := if h.stream.Some? then Some(AddTrack(h.stream.value, t)) else None;
      h.(stream := stream, element := AttachIfEmpty(h.element, stream))
  }

  /** The connection-state callback. */
  function OnConnectionStateChange(h: Hook, state: string): Hook
  {
    if state == "connected" then
      h.(isConnected := true, isConnecting := false, element := AttachIfEmpty(h.element, h.stream))
    else if state == "failed" || state == "closed" || state == "disconnected" then
      h.(isConnected := false, isConnecting := false)
    else h
  }

  /** Everything that can happen to the hook. */
  datatype Event =
    | ConnectCall(options: WhepOptions, element: Option<VideoElement>, browser: Browser)
    | DisconnectCall(clearError: bool)
    | StateChange(state: string)
    | TrackArrived(track: Track)

  function Step(h: Hook, e: Event): Hook
  {
    match e
    case ConnectCall(o, el, b) => Connect(h, o, el, b).hook
    case DisconnectCall(c) => Disconnect(h, c)
    case StateChange(s) => OnConnectionStateChange(h, s)
    case TrackArrived(t) => OnTrack(h, t)
  }

  function Run(h: Hook, events: seq<Event>): Hook
    decreases |events|
  {
    if events == [] then h else Run(Step(h, events[0]), events[1..])
  }

  // ---------------------------------------------------------------------
  // disconnect

  /** `disconnect` releases everything: no current handle, no open handle,
      no stream, both flags false; it clears the error exactly when asked
      and leaves the element and the delegated tracks alone. */
  lemma DisconnectReleases(h: Hook, clearError: bool)
    requires Valid(h)
    ensures var r := Disconnect(h, clearError);
      && r.pc.None? && r.stream.None? && !r.isConnected && !r.isConnecting
      && |r.handles| == |h.handles|
      && (forall i :: 0 <= i < |r.handles| ==> !r.handles[i].open)
      && (clearError ==> r.error.None?)
      && (!clearError ==> r.error == h.error)
      && r.element == h.element && r.delegated == h.delegated
      && Valid(r)
  {
  }

  /** Disconnecting twice is the same as disconnecting once. */
  lemma DisconnectIdempotent(h: Hook, clearError: bool)
    ensures Disconnect(Disconnect(h, clearError), clearError) == Disconnect(h, clearError)
  {
  }

  // ---------------------------------------------------------------------
  // connect

  /** The handle an attempt creates: it exists exactly when construction
      succeeded; it is video then audio receive-only, asks for insertable
      streams exactly when the attempt is encrypted, and is the only handle
      that is new. */
  lemma ConnectCreatesOneHandle(h: Hook, o: WhepOptions, el: Option<VideoElement>, b: Browser)
    ensures var r := Connect(h, o, el, b).hook;
      && (b.construct.Ok? <==> |r.handles| == |h.handles| + 1)
      && (b.construct.Throws? ==> |r.handles| == |h.handles|)
      && (b.construct.Ok? ==>
            var pc := r.handles[|h.handles|];
            pc.transceivers == [Transceiver(Video, RecvOnly), Transceiver(Audio, RecvOnly)]
            && pc.insertableStreams == o.encrypted)
  {
  }

  /** `connect` tears down first: every handle that existed before the call
      is closed after it, whatever the outcome. */
  lemma ConnectClosesPrevious(h: Hook, o: WhepOptions, el: Option<VideoElement>, b: Browser)
    requires Valid(h)
    ensures var r := Connect(h, o, el, b).hook;
      |r.handles| >= |h.handles|
      && forall i :: 0 <= i < |h.handles| ==> !r.handles[i].open
  {
  }

  /** Success is exactly: every browser call succeeded and the endpoint
      answered 201. Then the error is clear, the hook is still connecting,
      and the new handle is current, open, and carries the answer body. */
  lemma ConnectSuccess(h: Hook, o: WhepOptions, el: Option<VideoElement>, b: Browser)
    ensures var r := Connect(h, o, el, b).hook;
      var succeeded := b.construct.Ok? && b.createOffer.Ok? && b.setLocal.Ok?
                       && b.fetch.Responded? && b.fetch.status == 201 && b.setRemote.Ok?;
      && (r.error.None? <==> succeeded)
      && (succeeded ==>
            && r.isConnecting && !r.isConnected
            && r.pc == Some(|h.handles|)
            && r.handles[|h.handles|].open
            && r.handles[|h.handles|].remoteAnswer == Some(b.fetch.body)
            && r.stream == Some(MediaStream(h.streamsCreated, [])))
  {
  }

  /** The catch path keeps the error it reports: the message of the step
      that threw (construction, or the first failing negotiation step), or
      "Connection failed" when that message is empty; and it leaves no
      current handle, no stream, and both flags false. */
  lemma ConnectFailureKeepsError(h: Hook, o: WhepOptions, el: Option<VideoElement>, b: Browser)
    requires Connect(h, o, el, b).hook.error.Some?
    ensures var r := Connect(h, o, el, b).hook;
      && r.error.value != ""
      && !r.isConnected && !r.isConnecting && r.pc.None? && r.stream.None?
      && (b.construct.Throws? ==> r.error == Some(Reported(b.construct.message)))
      && (b.construct.Ok? ==> NegotiationError(b).Some? && r.error == Some(Reported(NegotiationError(b).value)))
      && (b.construct.Ok? && b.createOffer.Throws? ==> r.error == Some(Reported(b.createOffer.message)))
      && (b.construct.Ok? && b.createOffer.Ok? && b.setLocal.Throws? ==> r.error == Some(Reported(b.setLocal.message)))
      && (b.construct.Ok? && b.createOffer.Ok? && b.setLocal.Ok? && b.fetch.Rejected? ==>
            r.error == Some(Reported(b.fetch.message)))
      && ((b.construct.Ok? && b.createOffer.Ok? && b.setLocal.Ok? && b.fetch.Responded? && b.fetch.status == Created
           && b.setRemote.Throws?) ==> r.error == Some(Reported(b.setRemote.message)))
  {
  }

  /** Only a 201 applies the answer; any other status fails with a message
      naming that status, and the status can be read back from it. */
  lemma SignalingStatus(h: Hook, o: WhepOptions, el: Option<VideoElement>, b: Browser)
    requires b.construct.Ok? && b.createOffer.Ok? && b.setLocal.Ok? && b.fetch.Responded?
    ensures var r := Connect(h, o, el, b).hook;
      && (b.fetch.status != 201 ==>
            && r.error == Some(SignalingFailurePrefix + Decimal(b.fetch.status))
            && DecimalValue(r.error.value[|SignalingFailurePrefix|..]) == b.fetch.status
            && r.handles[|h.handles|].remoteAnswer.None?)
      && (r.handles[|h.handles|].remoteAnswer.Some? <==> b.fetch.status == 201 && b.setRemote.Ok?)
  {
    var r := Connect(h, o, el, b).hook;
    if b.fetch.status != 201 {
      var m := SignalingFailureMessage(b.fetch.status);
      assert m[|SignalingFailurePrefix|..] == Decimal(b.fetch.status);
      DecimalRoundTrip(b.fetch.status);
    }
  }

  /** The signaling request is sent exactly when the handle and the local
      offer were set up; it is a POST to the endpoint whose headers always
      start with the SDP content type and carry a bearer token exactly when
      a non-empty token is given. */
  lemma SignalingRequest(h: Hook, o: WhepOptions, el: Option<VideoElement>, b: Browser)
    ensures var q := Connect(h, o, el, b).request;
      && (q.Some? <==> b.construct.Ok? && b.createOffer.Ok? && b.setLocal.Ok?)
      && (q.Some? ==>
            && q.value.verb == "POST" && q.value.url == o.endpoint
            && q.value.headers[0] == Header("Content-Type", "application/sdp")
            && (|q.value.headers| == 2 <==> o.token.Some? && o.token.value != "")
            && (|q.value.headers| == 2 ==> q.value.headers[1] == Header("Authorization", "Bearer " + o.token.value))
            && |q.value.headers| <= 2)
  {
  }

  /** How the ICE-gathering race ended changes nothing: whichever of the
      2 s timer and gathering completion wins, the code goes on to the POST
      with the same state. `Connect` reads no other part of the race, so this
      holds because the `ice` field is not consulted; it records that the
      race has no further effect. */
  lemma IceRaceIrrelevant(h: Hook, o: WhepOptions, el: Option<VideoElement>, b: Browser)
    ensures Connect(h, o, el, b.(ice := GatheringComplete)) == Connect(h, o, el, b.(ice := GatheringTimedOut))
  {
  }

  /** The hook with handle n asking for insertable streams. */
  function Flagged(h: Hook, n: nat): Hook
    requires n < |h.handles|
  {
    h.(handles := h.handles[n := h.handles[n].(insertableStreams := true)])
  }

  /** Raising the flag of the current handle commutes with the catch path. */
  lemma FailWithFlagged(h: Hook, n: nat, message: string)
    requires h.pc == Some(n) && n < |h.handles|
    ensures n < |FailWith(h, message).handles|
    ensures FailWith(Flagged(h, n), message) == Flagged(FailWith(h, message), n)
  {
    var g := h.(error := Some(Reported(message)), isConnecting := false);
    assert Flagged(h, n).(error := Some(Reported(message)), isConnecting := false) == Flagged(g, n);
    assert Disconnect(Flagged(g, n), false).handles == Flagged(Disconnect(g, false), n).handles;
  }

  /** The encrypted flag only reaches the new handle's insertable-streams
      setting: the encrypted attempt ends exactly like the clear one with
      that single flag raised. */
  lemma EncryptedOnlySetsInsertableStreams(h: Hook, o: WhepOptions, el: Option<VideoElement>, b: Browser)
    ensures var r1 := Connect(h, o.(encrypted := true), el, b);
      var r2 := Connect(h, o.(encrypted := false), el, b);
      var n := |h.handles|;
      && r1.request == r2.request
      && (b.construct.Throws? ==> r1 == r2)
      && (b.construct.Ok? ==>
            && n < |r2.hook.handles|
            && !r2.hook.handles[n].insertableStreams
            && r1.hook == Flagged(r2.hook, n))
  {
    var n := |h.handles|;
    if b.construct.Ok? {
      var h0 := Disconnect(h, true);
      assert |h0.handles| == n;
      var h1 := h0.(error := None, isConnecting := true,
                    stream := Some(MediaStream(h0.streamsCreated, [])),
                    streamsCreated := h0.streamsCreated + 1);
      var pcOn := PeerConnection(true, true, RecvOnlyTransceivers, None);
      var pcOff := PeerConnection(true, false, RecvOnlyTransceivers, None);
      var h2On := h1.(handles := h1.handles + [pcOn], pc := Some(n), element := el, delegate := o.onTrack);
      var h2Off := h1.(handles := h1.handles + [pcOff], pc := Some(n), element := el, delegate := o.onTrack);
      assert h2On == Flagged(h2Off, n);
      var error := NegotiationError(b);
      if error.Some? {
        FailWithFlagged(h2Off, n, error.value);
      } else {
        var body := b.fetch.body;
        assert h2On.(handles := h2On.handles[n := pcOn.(remoteAnswer := Some(body))])
            == Flagged(h2Off.(handles := h2Off.handles[n := pcOff.(remoteAnswer := Some(body))]), n);
      }
    }
  }

  /** A failed attempt followed by a successful one leaves no error. */
  lemma RetryClearsError(h: Hook, o: WhepOptions, el: Option<VideoElement>, bad: Browser, good: Browser)
    requires good.construct.Ok? && good.createOffer.Ok? && good.setLocal.Ok? && good.setRemote.Ok?
    requires good.fetch.Responded? && good.fetch.status == 201
    ensures Connect(Connect(h, o, el, bad).hook, o, el, good).hook.error.None?
  {
    ConnectSuccess(Connect(h, o, el, bad).hook, o, el, good);
  }

  // ---------------------------------------------------------------------
  // callbacks

  /** The connection-state mapping: "connected" sets connected and clears
      connecting; "failed", "closed" and "disconnected" clear both; any other
      state changes nothing. Only the element may otherwise change, and only
      on "connected", by attaching the current stream to an empty element. */
  lemma ConnectionStateMapping(h: Hook, state: string)
    ensures var r := OnConnectionStateChange(h, state);
      && (state == "connected" ==> r.isConnected && !r.isConnecting)
      && (state in {"failed", "closed", "disconnected"} ==> !r.isConnected && !r.isConnecting)
      && (state !in {"connected", "failed", "closed", "disconnected"} ==> r == h)
      && r.(isConnected := h.isConnected, isConnecting := h.isConnecting, element := h.element) == h
      && (h.element.Some? && h.element.value.srcObject.Some? ==> r.element == h.element)
      && (state == "connected" && h.element.Some? && h.element.value.srcObject.None? && h.stream.Some? ==>
            r.element == Some(VideoElement(Some(h.stream.value.id))))
  {
  }

  /** A supplied track callback receives every track and nothing else
      changes; otherwise the track joins the stream (once) and an empty
      element is given the stream. */
  lemma TrackRouting(h: Hook, t: Track)
    ensures var r := OnTrack(h, t);
      && (h.delegate ==> r == h.(delegated := h.delegated + [t]))
      && (!h.delegate ==>
            && r.delegated == h.delegated
            && (h.stream.Some? <==> r.stream.Some?)
            && (h.stream.Some? ==> t in r.stream.value.tracks && r.stream.value.id == h.stream.value.id)
            && (h.element.Some? && h.element.value.srcObject.Some? ==> r.element == h.element)
            && (h.element.Some? && h.element.value.srcObject.None? && h.stream.Some? ==>
                  r.element == Some(VideoElement(Some(h.stream.value.id)))))
  {
  }

  /** Re-delivering a track, or re-signalling "connected", is a no-op. */
  lemma CallbacksIdempotent(h: Hook, t: Track)
    ensures !h.delegate ==> OnTrack(OnTrack(h, t), t) == OnTrack(h, t)
    ensures OnConnectionStateChange(OnConnectionStateChange(h, "connected"), "connected")
            == OnConnectionStateChange(h, "connected")
  {
  }

  // ---------------------------------------------------------------------
  // invariants over every run

  /** The catch path of an attempt ends valid: it closes the current handle. */
  lemma FailWithKeepsValid(h: Hook)
    requires Valid(h)
    ensures forall message :: Valid(FailWith(h, message))
  {
    forall message
      ensures Valid(FailWith(h, message))
    {
      DisconnectReleases(h.(error := Some(Reported(message)), isConnecting := false), false);
    }
  }

  lemma ConnectKeepsValid(h: Hook, o: WhepOptions, el: Option<VideoElement>, b: Browser)
    requires Valid(h)
    ensures Valid(Connect(h, o, el, b).hook)
  {
    var h0 := Disconnect(h, true);
    DisconnectReleases(h, true);
    var h1 := h0.(error := None, isConnecting := true,
                  stream := Some(MediaStream(h0.streamsCreated, [])),
                  streamsCreated := h0.streamsCreated + 1);
    assert Valid(h1);
    if b.construct.Throws? {
      FailWithKeepsValid(h1);
    } else {
      var id := |h1.handles|;
      var pc := PeerConnection(true, o.encrypted, RecvOnlyTransceivers, None);
      var h2 := h1.(handles := h1.handles + [pc], pc := Some(id), element := el, delegate := o.onTrack);
      assert Valid(h2);
      FailWithKeepsValid(h2);
      if b.fetch.Responded? {
        var body := b.fetch.body;
        var h3 := h2.(handles := h2.handles[id := pc.(remoteAnswer := Some(body))]);
        assert Valid(h3);
      }
    }
  }

  lemma StepKeepsValid(h: Hook, e: Event)
    requires Valid(h)
    ensures Valid(Step(h, e))
  {
    match e
    case ConnectCall(o, el, b) => ConnectKeepsValid(h, o, el, b);
    case DisconnectCall(c) => DisconnectReleases(h, c);
    case StateChange(s) =>
    case TrackArrived(t) =>
  }

  /** Whatever happens, in whatever order, starting from a valid state:
      the hook is never connected and connecting at once, and no handle
      other than the current one is open. */
  lemma {:induction false} RunKeepsValid(h: Hook, events: seq<Event>)
    requires Valid(h)
    ensures Valid(Run(h, events))
    decreases |events|
  {
    if events != [] {
      StepKeepsValid(h, events[0]);
      RunKeepsValid(Step(h, events[0]), events[1..]);
    }
  }

  /** In a valid state at most one handle is open. */
  lemma {:induction false} AtMostOneOpen(h: Hook)
    requires Valid(h)
    ensures OpenCount(h.handles) <= 1
    ensures OpenCount(h.handles) == 1 <==> h.pc.Some?
  {
    OpenCountBound(h.handles, h.pc);
  }

  lemma {:induction false} OpenCountBound(hs: seq<PeerConnection>, pc: Option<nat>)
    requires forall i :: 0 <= i < |hs| && hs[i].open ==> pc == Some(i)
    requires pc.Some? && pc.value < |hs| ==> hs[pc.value].open
    ensures OpenCount(hs) == if pc.Some? && pc.value < |hs| then 1 else 0
  {
    if hs != [] {
      var last := |hs| - 1;
      var init := hs[..last];
      assert forall i :: 0 <= i < |init| && init[i].open ==> pc == Some(i);
      OpenCountBound(init, pc);
    }
  }

  /** The initial state is valid, so every reachable state is. */
  lemma ReachableValid(events: seq<Event>)
    ensures Valid(Run(InitialHook, events))
    ensures OpenCount(Run(InitialHook, events).handles) <= 1
  {
    RunKeepsValid(InitialHook, events);
    AtMostOneOpen(Run(InitialHook, events));
  }

  /** The element is never cleared: `disconnect` leaves its source in
      place, so after a reconnect on an element that already shows a stream
      neither a track nor "connected" attaches the new stream. */
  lemma ReconnectKeepsPreviousSource(h: Hook, o: WhepOptions, el: Option<VideoElement>, b: Browser, t: Track)
    requires el.Some? && el.value.srcObject.Some?
    requires b.construct.Ok?
    ensures var r := OnConnectionStateChange(OnTrack(Connect(h, o, el, b).hook, t), "connected");
      r.element == el
  {
  }
}
