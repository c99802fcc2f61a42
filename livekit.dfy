/** The LiveKit signalling client (`livekit.cpp`): it classifies each
    server `SignalResponse` into one action on the subscriber or publisher
    session, filters trickled ICE candidates, turns the sessions' signals
    and state changes into `SignalRequest`s, and gates WebSocket events. */
module LiveKit {
  import opened Base
  import opened Text
  import opened Session
  import Subscriber
  import Publisher

  /** `WEBSOCKET_URI_SIZE`: the URI buffer, including the terminator. */
  const WEBSOCKET_URI_SIZE: nat := 1024
  const LIVEKIT_PROTOCOL_VERSION: nat := 3
  const TRACK_NAME: string := "microphone"
  /** The WebSocket opcode of a binary frame (section 5.2 of RFC 6455). */
  const BINARY_OPCODE: int := 0x2
  /** `LIVEKIT__SIGNAL_TARGET__SUBSCRIBER`; the publisher is 0. */
  const SIGNAL_TARGET_SUBSCRIBER: int := 1

  const SEND_FAILED: string := "Failed to send message."
  const UNEXPECTED_LEAVE: string := "Unexpected LEAVE message"
  /** The type assertions of `on_sub_signal` and `on_pub_signal`. */
  const NOT_AN_ANSWER: string := "signal type is not answer"
  const NOT_AN_OFFER: string := "signal type is not offer"

  datatype TrackSource = UnknownSource | Camera | Microphone | ScreenShare | ScreenShareAudio

  datatype SessionDescription = SessionDescription(sdpType: string, sdp: string)

  /** The request kinds of the LiveKit signalling protocol; `OtherRequest`
      stands for any message case the name table does not know. */
  datatype SignalRequest =
    | OfferRequest(description: SessionDescription)
    | AnswerRequest(description: SessionDescription)
    | TrickleRequest
    | AddTrackRequest(cid: string, name: string, source: TrackSource)
    | MuteRequest
    | SubscriptionRequest
    | TrackSettingRequest
    | LeaveRequest
    | OtherRequest(messageCase: int)

  /** The response kinds; `NotSet` is a ping/pong, `OtherResponse` any
      message case the client does not know. */
  datatype SignalResponse =
    | Join(roomSid: string)
    | AnswerResponse(sdp: string)
    | OfferResponse(sdp: string)
    | Trickle(candidateInit: string, target: int)
    | Update
    | TrackPublished
    | Leave
    | Mute
    | SpeakersChanged
    | RoomUpdate
    | NotSet
    | OtherResponse(messageCase: int)

  /** `request_message_to_string`. */
  function RequestName(r: SignalRequest): (name: string)
    ensures name == "UNKNOWN" <==> r.OtherRequest?
  {
    match r
    case OfferRequest(_) => "OFFER"
    case AnswerRequest(_) => "ANSWER"
    case TrickleRequest => "TRICKLE"
    case AddTrackRequest(_, _, _) => "ADD_TRACK"
    case MuteRequest => "MUTE"
    case SubscriptionRequest => "SUBSCRIPTION"
    case TrackSettingRequest => "TRACK_SETTING"
    case LeaveRequest => "LEAVE"
    case OtherRequest(_) => "UNKNOWN"
  }

  /** Two requests share a log name only when they are of the same kind. */
  lemma RequestNameIdentifiesKind(a: SignalRequest, b: SignalRequest)
    ensures RequestName(a) == RequestName(b) ==>
      && (a.OfferRequest? <==> b.OfferRequest?) && (a.AnswerRequest? <==> b.AnswerRequest?)
      && (a.TrickleRequest? <==> b.TrickleRequest?) && (a.AddTrackRequest? <==> b.AddTrackRequest?)
      && (a.MuteRequest? <==> b.MuteRequest?) && (a.SubscriptionRequest? <==> b.SubscriptionRequest?)
      && (a.TrackSettingRequest? <==> b.TrackSettingRequest?) && (a.LeaveRequest? <==> b.LeaveRequest?)
      && (a.OtherRequest? <==> b.OtherRequest?)
  {
  }

  /** `response_message_to_string`. */
  function ResponseName(r: SignalResponse): (name: string)
    ensures name == "UNKNOWN" <==> r.OtherResponse?
  {
    match r
    case NotSet => "NOT_SET (Ping/Pong)"
    case Join(_) => "JOIN"
    case AnswerResponse(_) => "ANSWER"
    case OfferResponse(_) => "OFFER"
    case Trickle(_, _) => "TRICKLE"
    case Update => "UPDATE"
    case TrackPublished => "TRACK_PUBLISHED"
    case Leave => "LEAVE"
    case Mute => "MUTE"
    case SpeakersChanged => "SPEAKERS_CHANGED"
    case RoomUpdate => "ROOM_UPDATE"
    case OtherResponse(_) => "UNKNOWN"
  }

  /** What the JSON parser makes of a `candidateInit` text: no JSON at all,
      an object without a string `candidate` member, or that member. */
  datatype JsonCandidate = Unparseable | NoCandidateString | CandidateString(value: string)

  datatype Route = ToSubscriber | ToPublisher

  datatype TrickleOutcome = Skipped | Forward(route: Route, candidate: string)

  /** The trickle filter of `handle_livekit_response`: TCP candidates,
      candidates without an IPv4 dot and unusable JSON are dropped; a
      surviving candidate goes to the session the target names. */
  function FilterTrickle(candidateInit: string, target: int, parse: string -> JsonCandidate): (o: TrickleOutcome)
    // "tcp" anywhere in the text, even inside another word, drops it
    ensures Contains(candidateInit, "tcp") ==> o == Skipped
    ensures '.' !in candidateInit ==> o == Skipped
    ensures !parse(candidateInit).CandidateString? ==> o == Skipped
    // every other candidate is forwarded, unchanged
    ensures o.Forward? <==>
      !Contains(candidateInit, "tcp") && '.' in candidateInit && parse(candidateInit).CandidateString?
    ensures o.Forward? ==> o.candidate == parse(candidateInit).value
    ensures o.Forward? ==> (o.route == ToSubscriber <==> target == SIGNAL_TARGET_SUBSCRIBER)
  {
    if Find(candidateInit, "tcp").Some? then Skipped
    else if '.' !in candidateInit then Skipped
    else
      match parse(candidateInit)
      case CandidateString(value) =>
        Forward(if target == SIGNAL_TARGET_SUBSCRIBER then ToSubscriber else ToPublisher, value)
      case _ => Skipped
  }

  /** The one thing `handle_livekit_response` does with a response. */
  datatype Action =
    | Ignore
    | SubscriberOffer(sdp: string)
    | PublisherAnswer(sdp: string)
    | SubscriberCandidate(candidate: string)
    | PublisherCandidate(candidate: string)
    | PublisherReoffer
    | Fatal(reason: string)

  /** The kinds the client deliberately does nothing with. */
  predicate NoActionKind(r: SignalResponse) {
    r.Join? || r.Update? || r.Mute? || r.SpeakersChanged? || r.RoomUpdate? || r.NotSet? || r.OtherResponse?
  }

  /** `handle_livekit_response`: a total classification of responses. */
  function Dispatch(r: SignalResponse, parse: string -> JsonCandidate): (a: Action)
    ensures a.SubscriberOffer? <==> r.OfferResponse?
    ensures a.PublisherAnswer? <==> r.AnswerResponse?
    ensures a.SubscriberOffer? || a.PublisherAnswer? ==> a.sdp == r.sdp
    ensures a == PublisherReoffer <==> r.TrackPublished?
    ensures a.Fatal? <==> r.Leave?
    // only a trickle that passes the filter reaches a session's candidate
    // slot, and it reaches the one the filter routes it to
    ensures a.SubscriberCandidate? <==>
      r.Trickle? && FilterTrickle(r.candidateInit, r.target, parse).Forward?
      && FilterTrickle(r.candidateInit, r.target, parse).route == ToSubscriber
    ensures a.PublisherCandidate? <==>
      r.Trickle? && FilterTrickle(r.candidateInit, r.target, parse).Forward?
      && FilterTrickle(r.candidateInit, r.target, parse).route == ToPublisher
    ensures a.SubscriberCandidate? || a.PublisherCandidate? ==>
      a.candidate == FilterTrickle(r.candidateInit, r.target, parse).candidate
    ensures a == Ignore <==>
      NoActionKind(r) || (r.Trickle? && FilterTrickle(r.candidateInit, r.target, parse).Skipped?)
  {
    match r
    case OfferResponse(sdp) => SubscriberOffer(sdp)
    case AnswerResponse(sdp) => PublisherAnswer(sdp)
    case Trickle(candidateInit, target) =>
      (match FilterTrickle(candidateInit, target, parse)
       case Skipped => Ignore
       case Forward(ToSubscriber, c) => SubscriberCandidate(c)
       case Forward(ToPublisher, c) => PublisherCandidate(c))
    case TrackPublished => PublisherReoffer
    case Leave => Fatal(UNEXPECTED_LEAVE)
    case _ => Ignore
  }

  /** The path and query `lk_websocket` appends to the room URL, around
      the access token. */
  const RTC_QUERY_HEAD: string :=
    "/rtc?protocol=" + [('0' as int + LIVEKIT_PROTOCOL_VERSION) as char] + "&access_token="
  const RTC_QUERY_TAIL: string := "&auto_subscribe=true"

  /** The URI `lk_websocket` formats with `snprintf` into its
      WEBSOCKET_URI_SIZE buffer: the longest prefix of the full text that
      leaves room for the terminator. */
  function WebSocketUri(roomUrl: string, token: string): (uri: string)
    ensures |uri| < WEBSOCKET_URI_SIZE
    ensures uri <= roomUrl + RTC_QUERY_HEAD + token + RTC_QUERY_TAIL
    ensures |roomUrl + RTC_QUERY_HEAD + token + RTC_QUERY_TAIL| < WEBSOCKET_URI_SIZE ==>
      uri == roomUrl + RTC_QUERY_HEAD + token + RTC_QUERY_TAIL
    ensures |uri| == if |roomUrl + RTC_QUERY_HEAD + token + RTC_QUERY_TAIL| < WEBSOCKET_URI_SIZE
      then |roomUrl + RTC_QUERY_HEAD + token + RTC_QUERY_TAIL| else WEBSOCKET_URI_SIZE - 1
  {
    var full := roomUrl + RTC_QUERY_HEAD + token + RTC_QUERY_TAIL;
    if |full| < WEBSOCKET_URI_SIZE then full else full[..WEBSOCKET_URI_SIZE - 1]
  }

  /** The access token reaches the server intact exactly when the room URL,
      the query head and the token fit in the buffer; otherwise `snprintf`
      cuts it short. */
  lemma {:induction false} TokenSurvivesIff(roomUrl: string, token: string)
    ensures MatchAt(WebSocketUri(roomUrl, token), token, |roomUrl| + |RTC_QUERY_HEAD|) <==>
      |roomUrl| + |RTC_QUERY_HEAD| + |token| < WEBSOCKET_URI_SIZE
  {
    var full := roomUrl + RTC_QUERY_HEAD + token + RTC_QUERY_TAIL;
    var uri := WebSocketUri(roomUrl, token);
    var at := |roomUrl| + |RTC_QUERY_HEAD|;
    assert full[at..at + |token|] == token;
    if at + |token| < WEBSOCKET_URI_SIZE {
      assert at + |token| <= |uri|;
      assert uri[at..at + |token|] == full[at..at + |token|];
    }
  }

  /** The track the client publishes once the subscriber connects. */
  const MICROPHONE_TRACK: SignalRequest := AddTrackRequest(TRACK_NAME, TRACK_NAME, Microphone)

  /** What sending `request` does: the transport either accepts it, or
      reports -1 and the client panics. */
  function Sent(request: SignalRequest, accepted: bool): seq<SignalRequest>
  {
    if accepted then [request] else []
  }

  function SendStatus(accepted: bool): Status
  {
    if accepted then Running else Halted(SEND_FAILED)
  }

  /** The requests the answer forwarding sends after a subscriber step
      that ended with `signal` and `status`. */
  function AnswerReply(signal: Option<Signal>, status: Status, accepted: bool): seq<SignalRequest>
  {
    if status == Running && signal.Some? && signal.value.sdpType == SDP_TYPE_ANSWER then
      Sent(AnswerRequest(SessionDescription(signal.value.sdpType, signal.value.sdp)), accepted)
    else []
  }

  /** Whether the process goes on after that forwarding. */
  function AnswerStatus(signal: Option<Signal>, status: Status, accepted: bool): Status
  {
    if status.Halted? then status
    else if signal.None? then Running
    else if signal.value.sdpType != SDP_TYPE_ANSWER then Halted(NOT_AN_ANSWER)
    else SendStatus(accepted)
  }

  /** The requests `on_pub_signal` sends for the offer `produced` that the
      publisher engine delivers inside `create_offer`, when the signal
      callback `hasCallback` is registered. */
  function OfferReply(produced: Option<string>, hasCallback: bool, accepted: bool): seq<SignalRequest>
  {
    if produced.Some? && hasCallback then
      Sent(OfferRequest(SessionDescription(SDP_TYPE_OFFER, produced.value)), accepted)
    else []
  }

  /** Whether the process goes on after that forwarding. */
  function OfferStatus(produced: Option<string>, hasCallback: bool, accepted: bool): Status
  {
    if produced.Some? && hasCallback then SendStatus(accepted) else Running
  }

  /** The subscriber step always emits well-typed answers, so forwarding
      one never trips the type assertion of `on_sub_signal`: the process
      goes on exactly when the step did and the send, if any, was accepted. */
  lemma {:induction false} ForwardedAnswerIsWellTyped(s: Slots, state: PeerState, cached: Option<string>, produced: Option<string>, accepted: bool)
    ensures var r := Subscriber.SubscriberRendezvous(s, state, cached, produced);
      && (AnswerStatus(r.signal, r.status, accepted) == Running <==>
           r.status == Running && (r.signal.Some? ==> accepted))
      && (AnswerReply(r.signal, r.status, accepted) != [] <==> r.signal.Some? && accepted)
  {
    var r := Subscriber.SubscriberRendezvous(s, state, cached, produced);
    if r.signal.Some? {
      assert r.signal.value.sdpType == SDP_TYPE_ANSWER;
      assert r.status == Running;
    }
  }

  /** A WebSocket client event. */
  datatype WsEvent =
    | WsConnected
    | WsDisconnected
    | WsData(opCode: int, decoded: Option<SignalResponse>)
    | WsError
    | WsOther

  /** The client: the two sessions it created and the requests it has put
      on the wire. */
  class Client {
    const sub: Subscriber.SubscriberSession
    const pub: Publisher.PublisherSession
    var sent: seq<SignalRequest>

    /** `lk_websocket` creating both sessions with their callbacks, the
        timer reading `bootTime` when the publisher task starts. */
    constructor (bootTime: nat)
      ensures fresh(sub) && fresh(pub) && sent == []
      ensures sub.Pending() == Slots(None, None) && sub.localDescription == None
      ensures sub.engineState == New && sub.calls == []
      ensures pub.Valid() && pub.hasSignalCallback && pub.Pending() == Slots(None, None)
      ensures pub.localDescription == None && pub.engineState == New && pub.calls == []
    {
      sub := new Subscriber.SubscriberSession();
      pub := new Publisher.PublisherSession(true, bootTime);
      sent := [];
    }

    /** `lk_pack_and_send_signal_request`. */
    method Send(request: SignalRequest, accepted: bool) returns (status: Status)
      modifies this`sent
      ensures sent == old(sent) + Sent(request, accepted)
      ensures status == SendStatus(accepted)
    {
      if !accepted {
        return Halted(SEND_FAILED);
      }
      sent := sent + [request];
      status := Running;
    }

    /** `on_sub_signal`: the subscriber's answer goes out as an ANSWER request. */
    method OnSubSignal(signal: Signal, accepted: bool) returns (status: Status)
      modifies this`sent
      ensures signal.sdpType != SDP_TYPE_ANSWER ==> status == Halted(NOT_AN_ANSWER) && sent == old(sent)
      ensures signal.sdpType == SDP_TYPE_ANSWER ==>
        && sent == old(sent) + Sent(AnswerRequest(SessionDescription(signal.sdpType, signal.sdp)), accepted)
        && status == SendStatus(accepted)
    {
      if signal.sdpType != SDP_TYPE_ANSWER {
        return Halted(NOT_AN_ANSWER);
      }
      status := Send(AnswerRequest(SessionDescription(signal.sdpType, signal.sdp)), accepted);
    }

    /** `on_pub_signal`: the publisher's offer goes out as an OFFER request. */
    method OnPubSignal(signal: Signal, accepted: bool) returns (status: Status)
      modifies this`sent
      ensures signal.sdpType != SDP_TYPE_OFFER ==> status == Halted(NOT_AN_OFFER) && sent == old(sent)
      ensures signal.sdpType == SDP_TYPE_OFFER ==>
        && sent == old(sent) + Sent(OfferRequest(SessionDescription(signal.sdpType, signal.sdp)), accepted)
        && status == SendStatus(accepted)
    {
      if signal.sdpType != SDP_TYPE_OFFER {
        return Halted(NOT_AN_OFFER);
      }
      status := Send(OfferRequest(SessionDescription(signal.sdpType, signal.sdp)), accepted);
    }

    /** The subscriber engine moved to `state` and `on_sub_state` ran:
        COMPLETED publishes the microphone track, DISCONNECTED is fatal. */
    method OnSubState(state: PeerState, accepted: bool) returns (status: Status)
      modifies sub`engineState, this`sent
      ensures sub.engineState == state
      ensures state == Completed ==>
        sent == old(sent) + Sent(MICROPHONE_TRACK, accepted) && status == SendStatus(accepted)
      ensures state == Disconnected ==> status.Halted? && sent == old(sent)
      ensures state != Completed && state != Disconnected ==> status == Running && sent == old(sent)
    {
      sub.SetEngineState(state);
      if state == Completed {
        status := Send(MICROPHONE_TRACK, accepted);
      } else if state == Disconnected {
        status := Halted("Subscriber peer connection disconnected");
      } else {
        status := Running;
      }
    }

    /** The publisher engine moved to `state` and `on_pub_state` ran:
        only DISCONNECTED matters, and it is fatal. */
    method OnPubState(state: PeerState) returns (status: Status)
      modifies pub`engineState
      ensures pub.engineState == state
      ensures status.Halted? <==> state == Disconnected
    {
      pub.SetEngineState(state);
      status := if state == Disconnected then Halted("Publisher peer connection disconnected") else Running;
    }

    /** The publisher engine produced its local offer: it is cached and
        sent to the server as exactly one OFFER request. */
    method OnPubLocalDescription(description: string, accepted: bool) returns (status: Status)
      requires pub.hasSignalCallback
      modifies pub`localDescription, this`sent
      ensures pub.localDescription == Some(description)
      ensures sent == old(sent) + Sent(OfferRequest(SessionDescription(SDP_TYPE_OFFER, description)), accepted)
      ensures status == SendStatus(accepted)
    {
      var signal := pub.OnLocalDescription(description);
      status := OnPubSignal(signal.value, accepted);
    }

    /** The subscriber engine produced its local description; nothing is
        sent until an offer is answered. */
    method OnSubLocalDescription(description: string)
      modifies sub`localDescription
      ensures sub.localDescription == Some(description)
    {
      sub.OnLocalDescription(description);
    }

    /** The effect of handling response `r`: the dispatched action applied
        to its session, and the answer or offer, if one results, put on the
        wire. `produced` is the local description the engine hands back
        from inside the call that applies an offer (subscriber) or creates
        an offer (publisher), if it does. */
    twostate predicate Handled(r: SignalResponse, parse: string -> JsonCandidate, produced: Option<string>, accepted: bool, status: Status)
      reads this, sub, pub
    {
      match Dispatch(r, parse)
      case Ignore =>
        status == Running && sent == old(sent) && unchanged(sub) && unchanged(pub)
      case SubscriberOffer(sdp) =>
        var step := Subscriber.SubscriberRendezvous(Slots(Some(sdp), old(sub.candidate)), sub.engineState, old(sub.localDescription), produced);
        && sub.Pending() == step.slots && sub.calls == old(sub.calls) + step.calls
        && sub.localDescription == step.local && unchanged(pub)
        && sent == old(sent) + AnswerReply(step.signal, step.status, accepted)
        && status == AnswerStatus(step.signal, step.status, accepted)
      case SubscriberCandidate(c) =>
        if old(sub.candidate).Some? then
          status.Halted? && sent == old(sent) && unchanged(sub) && unchanged(pub)
        else
          var step := Subscriber.SubscriberRendezvous(Slots(old(sub.offer), Some(c)), sub.engineState, old(sub.localDescription), produced);
          && sub.Pending() == step.slots && sub.calls == old(sub.calls) + step.calls
          && sub.localDescription == step.local && unchanged(pub)
          && sent == old(sent) + AnswerReply(step.signal, step.status, accepted)
          && status == AnswerStatus(step.signal, step.status, accepted)
      case PublisherAnswer(sdp) =>
        var step := Rendezvous(Slots(Some(sdp), old(pub.candidate)), pub.engineState);
        && pub.Pending() == step.slots && pub.calls == old(pub.calls) + step.calls
        && pub.localDescription == old(pub.localDescription)
        && unchanged(sub) && sent == old(sent) && status == Running
      case PublisherCandidate(c) =>
        if old(pub.candidate).Some? then
          status.Halted? && sent == old(sent) && unchanged(sub) && unchanged(pub)
        else
          var step := Rendezvous(Slots(old(pub.answer), Some(c)), pub.engineState);
          && pub.Pending() == step.slots && pub.calls == old(pub.calls) + step.calls
          && pub.localDescription == old(pub.localDescription)
          && unchanged(sub) && sent == old(sent) && status == Running
      case PublisherReoffer =>
        && pub.calls == old(pub.calls) + [CreateOffer] && pub.Pending() == old(pub.Pending())
        && pub.localDescription == (if produced.Some? then produced else old(pub.localDescription))
        && unchanged(sub)
        && sent == old(sent) + OfferReply(produced, pub.hasSignalCallback, accepted)
        && status == OfferStatus(produced, pub.hasSignalCallback, accepted)
      case Fatal(reason) =>
        status == Halted(reason) && sent == old(sent) && unchanged(sub) && unchanged(pub)
    }

    /** Forward the subscriber's answer, if its step produced one. */
    method ForwardAnswer(signal: Option<Signal>, stepStatus: Status, accepted: bool) returns (status: Status)
      modifies this`sent
      ensures sent == old(sent) + AnswerReply(signal, stepStatus, accepted)
      ensures status == AnswerStatus(signal, stepStatus, accepted)
    {
      if stepStatus.Halted? {
        return stepStatus;
      }
      if signal.None? {
        return Running;
      }
      status := OnSubSignal(signal.value, accepted);
    }

    /** Forward the publisher's offer, if its engine produced one. */
    method ForwardOffer(signal: Option<Signal>, accepted: bool) returns (status: Status)
      modifies this`sent
      ensures signal.None? ==> sent == old(sent) && status == Running
      ensures signal.Some? && signal.value.sdpType == SDP_TYPE_OFFER ==>
        && sent == old(sent) + Sent(OfferRequest(SessionDescription(SDP_TYPE_OFFER, signal.value.sdp)), accepted)
        && status == SendStatus(accepted)
    {
      if signal.None? {
        return Running;
      }
      status := OnPubSignal(signal.value, accepted);
    }

    /** `handle_livekit_response`. */
    method HandleResponse(r: SignalResponse, parse: string -> JsonCandidate, produced: Option<string>, accepted: bool)
      returns (status: Status)
      modifies this`sent, sub`offer, sub`candidate, sub`calls, sub`localDescription
      modifies pub`answer, pub`candidate, pub`calls, pub`localDescription
      ensures Handled(r, parse, produced, accepted, status)
    {
      match Dispatch(r, parse)
      case Ignore =>
        status := Running;
      case SubscriberOffer(sdp) =>
        var signal, stepStatus := sub.SetRemoteDescription(sdp, produced);
        status := ForwardAnswer(signal, stepStatus, accepted);
      case SubscriberCandidate(c) =>
        var signal, stepStatus := sub.AddIceCandidate(c, produced);
        status := ForwardAnswer(signal, stepStatus, accepted);
      case PublisherAnswer(sdp) =>
        pub.SetRemoteDescription(sdp);
        status := Running;
      case PublisherCandidate(c) =>
        status := pub.AddIceCandidate(c);
      case PublisherReoffer =>
        var signal := pub.Reoffer(produced);
        status := ForwardOffer(signal, accepted);
      case Fatal(reason) =>
        status := Halted(reason);
    }

    /** The publication sequence, every send accepted: the subscriber
        reaches COMPLETED, then the server confirms the microphone track
        and the publisher's engine produces the renegotiated offer inside
        `create_offer`. Exactly one ADD_TRACK and then exactly one OFFER go
        out, the publisher engine is asked for exactly one offer, and the
        subscriber's engine is not touched. */
    method PublicationSequence(localOffer: string, parse: string -> JsonCandidate) returns (status: Status)
      requires pub.hasSignalCallback
      modifies this`sent, sub`engineState, sub`offer, sub`candidate, sub`calls, sub`localDescription
      modifies pub`answer, pub`candidate, pub`calls, pub`localDescription
      ensures status == Running
      ensures sent == old(sent) + [MICROPHONE_TRACK, OfferRequest(SessionDescription(SDP_TYPE_OFFER, localOffer))]
      ensures pub.calls == old(pub.calls) + [CreateOffer] && pub.Pending() == old(pub.Pending())
      ensures pub.localDescription == Some(localOffer)
      ensures sub.calls == old(sub.calls) && sub.Pending() == old(sub.Pending()) && sub.engineState == Completed
    {
      status := OnSubState(Completed, true);
      assert status == Running;
      status := HandleResponse(TrackPublished, parse, Some(localOffer), true);
    }

    /** The subscriber's first negotiation, every send accepted: on a
        session with nothing pending and no local description yet, a
        trickled IPv4 UDP candidate for the subscriber waits, then the
        server's offer is applied after it and answered by exactly one
        ANSWER request, built from the local description the engine
        produces while applying the offer. */
    method FirstNegotiation(candidateInit: string, offer: string, local: string, parse: string -> JsonCandidate)
      returns (status: Status)
      requires sub.Pending() == Slots(None, None) && sub.localDescription == None && sub.engineState != Completed
      requires !Contains(candidateInit, "tcp") && '.' in candidateInit && parse(candidateInit).CandidateString?
      requires Contains(local, Subscriber.DATA_SECTION) && Subscriber.AudioBeforeData(local)
      modifies this`sent, sub`offer, sub`candidate, sub`calls, sub`localDescription
      modifies pub`answer, pub`candidate, pub`calls, pub`localDescription
      ensures status == Running
      ensures sent == old(sent) + [AnswerRequest(SessionDescription(SDP_TYPE_ANSWER, Subscriber.CreateAnswer(offer, local).value))]
      ensures sub.calls == old(sub.calls)
        + [AddIceCandidate(parse(candidateInit).value), SetRemoteDescription(offer)]
      ensures sub.Pending() == Slots(None, None) && sub.localDescription == Some(local)
      ensures pub.calls == old(pub.calls)
    {
      var candidate := parse(candidateInit).value;
      Subscriber.FirstOfferIsAnswered(offer, candidate, sub.engineState, local);
      status := HandleResponse(Trickle(candidateInit, SIGNAL_TARGET_SUBSCRIBER), parse, None, true);
      assert status == Running && sent == old(sent);
      status := HandleResponse(OfferResponse(offer), parse, Some(local), true);
    }

    /** `event_handler`: only binary frames carry signalling; a frame that
        does not decode, a disconnect and an error are fatal. */
    method HandleEvent(e: WsEvent, parse: string -> JsonCandidate, produced: Option<string>, accepted: bool)
      returns (status: Status)
      modifies this`sent, sub`offer, sub`candidate, sub`calls, sub`localDescription
      modifies pub`answer, pub`candidate, pub`calls, pub`localDescription
      ensures e.WsConnected? || e.WsOther? || (e.WsData? && e.opCode != BINARY_OPCODE) ==>
        status == Running && sent == old(sent) && unchanged(sub) && unchanged(pub)
      ensures e.WsDisconnected? || e.WsError? || (e.WsData? && e.opCode == BINARY_OPCODE && e.decoded.None?) ==>
        status.Halted? && sent == old(sent) && unchanged(sub) && unchanged(pub)
      ensures e.WsData? && e.opCode == BINARY_OPCODE && e.decoded.Some? ==>
        Handled(e.decoded.value, parse, produced, accepted, status)
    {
      match e
      case WsConnected =>
        status := Running;
      case WsDisconnected =>
        status := Halted("LiveKit websocket disconnected");
      case WsData(opCode, decoded) =>
        if opCode != BINARY_OPCODE {
          return Running;
        }
        if decoded.None? {
          return Halted("Failed to decode SignalResponse message.");
        }
        status := HandleResponse(decoded.value, parse, produced, accepted);
      case WsError =>
        status := Halted("LiveKit websocket error");
      case WsOther =>
        status := Running;
    }
  }
}
