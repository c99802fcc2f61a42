# LiveKit embedded voice client: signalling and buffering model

This project models the core of a LiveKit voice client for ESP32 boards in
Dafny. The client joins a LiveKit room over a WebSocket, negotiates two
WebRTC peer connections, and exchanges Opus audio. The subscriber
connection receives the room's audio; the publisher connection sends the
microphone. The model covers the logic between the signalling transport
and the peer connection engine:

- **Subscriber session** (`subscriber.dfy`, over `src/lk_sub.cpp`).
  - A single-slot pending remote offer and one pending remote ICE
    candidate, applied to the engine by the rendezvous step.
  - The cached local description.
  - Answer synthesis. The local SDP is reordered so that its media
    descriptions (section 5.14 of RFC 8866) follow the offer:
    session part, then `m=application`, then `m=audio` only if the offer
    has audio. This approximates the rule in section 6 of RFC 3264 that an
    answer keeps the offer's m-lines in order.
  - The byte count of decoded playback.
- **Publisher session** (`publisher.dfy`, over `src/lk_pub.cpp`).
  - The same gating for the server's answer.
  - Re-offer requests, and forwarding of the engine's offer.
  - One iteration of the audio task: capture, encode, engine step, delay,
    and a frames-per-second window over a 32-bit microsecond timer.
- **Signal dispatcher** (`livekit.dfy`, over `src/livekit.cpp`).
  - The request and response name tables.
  - The trickle-candidate filter, and the classification of every server
    response into one action.
  - The state callbacks that publish the microphone track.
  - The WebSocket event rules. Only opcode 0x2, a binary frame in
    section 5.2 of RFC 6455, carries signalling.
  - The `snprintf`-truncated connection URI.
- **Capture accumulator** (`media.dfy`, over `src/media.cpp`).
  - The 1280-byte capture buffer, filled in place by partial driver reads.
  - The render write check.

Shared pieces:

- `base.dfy` holds `Option` and `Status`. A `panic` or failed `assert`
  in the C code ends the process; the model returns it as
  `Status.Halted(reason)`.
- `text.dfy` models `strstr` as `Find`.
- `session.dfy` holds the rendezvous step that both sessions share. It
  also holds the engine vocabulary: the engine is a `PeerState` value plus
  a log of the `EngineCall`s made into it.

Each mutex-guarded entry point is one atomic method. The sessions and the
capture buffer are classes whose fields are the C module's static
variables. Each method is specified by a pure function of the old state,
and the properties are proved about those functions.

The code gates on `PEER_CONNECTION_COMPLETED`; libpeer's separate
`CONNECTED` state does not open the gate, so the model uses `Completed`.

The engine delivers its local description through the `on_ice_candidate`
callback. On the subscriber, the code relies on it arriving from inside
`peer_connection_set_remote_description`, because `create_answer` reads it
right afterwards. On the publisher, it arrives from inside
`peer_connection_create_offer`. The model passes that description as a
parameter, `produced`, to the operations that make those engine calls.

## Model

| member | source | states |
|---|---|---|
| Text.Find | src/lk_sub.cpp:138-141 | `strstr`: a result exists iff the pattern occurs, it is a match, and no match lies before it |
| Text.FindFrom | src/lk_sub.cpp:138-141 | the search from an index returns a match at or after it, and no match lies between the index and the result |
| Session.Rendezvous | src/lk_pub.cpp:161-184 | the engine is called iff a description is pending and (Completed or a candidate is pending); with no call nothing changes; the description is applied last and its slot empties; before Completed exactly [candidate, description] are applied and both slots empty; once Completed a pending candidate stays and at most one call is made |
| Session.RendezvousConserves | src/lk_pub.cpp:174-183 | every pending value either stays pending or is applied exactly once; nothing is lost or duplicated |
| Session.RendezvousSettles | src/lk_pub.cpp:161-184 | a second step straight after a step makes no engine call |
| Session.CandidateAloneWaits | src/lk_sub.cpp:161-165 | a candidate without a description causes no engine call and stays pending, in every engine state |
| Subscriber.CreateAnswer | src/lk_sub.cpp:133-159 | an answer exists iff the local description has `m=application` and its first `m=audio` comes before the first `m=application`; with its terminator it fits the session_len + audio_len + data_len + 1 allocation; its length is the local length iff the offer has audio; its characters are a sub-multiset of the local description's, equal to it when the offer has audio |
| Subscriber.AnswerShape | src/lk_sub.cpp:142-157 | the first `m=audio` ends before the first `m=application`, and the answer is the session part, then everything from `m=application` to the end, then the audio section between them only if the offer contains `m=audio` |
| Subscriber.AnswerLeadsWithData | src/lk_sub.cpp:148-152 | the answer keeps the local session part unchanged, its first `m=application` comes right after it, and any `m=audio` in the answer comes after that |
| Subscriber.AnswerAudioMatchesOffer | src/lk_sub.cpp:138-156 | for a local description with one audio section, the answer contains `m=audio` iff the offer does |
| Subscriber.SubscriberRendezvous | src/lk_sub.cpp:161-189 | the engine calls and the candidate slot follow the shared rendezvous; a local description the engine produces while the offer is applied replaces the cached one; exactly one signal of type "answer" carrying CreateAnswer's result on the description then in effect is produced iff the offer is applied and an answer can be built, and the offer slot then empties; the process halts iff the offer is applied but no answer can be built |
| Subscriber.FirstOfferIsAnswered | src/lk_sub.cpp:161-189 | on a session that is not Completed and has no cached description, a lone candidate waits; the offer is then applied after it, both slots empty, and exactly one answer is built from the description the engine produces while applying the offer |
| Subscriber.DecodeAudio | src/lk_sub.cpp:74-83 | a frame is dropped iff the decoder returns no samples; otherwise exactly samples x 2 channels x 2 bytes are rendered, this fits the decode buffer, and playback goes on iff the driver reports success and writes every byte |
| Subscriber.SubscriberSession.constructor | src/lk_sub.cpp:31-36 | both slots and the local description start empty, with no engine calls |
| Subscriber.SubscriberSession.SetEngineState | src/lk_sub.cpp:38-44 | the session reads the engine's new state |
| Subscriber.SubscriberSession.OnLocalDescription | src/lk_sub.cpp:46-52 | the engine's local description is cached for the next answer |
| Subscriber.SubscriberSession.ProcessSignalingValues | src/lk_sub.cpp:161-189 | the new slots, the appended engine calls, the cached description, the signal and the status are those of SubscriberRendezvous on the old slots, the old cache and the description the engine produces |
| Subscriber.SubscriberSession.SetRemoteDescription | src/lk_sub.cpp:191-197 | a new offer replaces any pending one, then the rendezvous step runs with the description the engine produces |
| Subscriber.SubscriberSession.AddIceCandidate | src/lk_sub.cpp:199-206 | a candidate while one is pending halts the process and changes nothing; otherwise it is buffered and the rendezvous step runs with the description the engine produces |
| Subscriber.SubscriberSession.Tick | src/lk_sub.cpp:113-119 | each iteration steps the engine once and pauses 15 ms |
| Publisher.CaptureFrameIsEncoderFrame | src/lk_pub.cpp:17-19 | the capture frame (1280 bytes) is exactly the encoder's input frame, so the encoder's size assertion holds for every captured frame |
| Publisher.Elapsed | src/lk_pub.cpp:124-125 | the elapsed time is a `uint32_t` value |
| Publisher.ElapsedAcrossWrap | src/lk_pub.cpp:114-125 | the unsigned subtraction of truncated timer values gives the true elapsed time, even across a 32-bit wrap, when less than 2^32 us have passed |
| Publisher.CountFrame | src/lk_pub.cpp:122-133 | the window restarts iff more than one second has elapsed, and then opens at the current time; otherwise the frame is counted; a slow window (fewer than 50 frames) is reported iff it closes, with its count |
| Publisher.PublisherSession.constructor | src/lk_pub.cpp:146-149 | both slots start empty, the signal callback is recorded, and the fps window opens at the truncated boot time |
| Publisher.PublisherSession.SetEngineState | src/lk_pub.cpp:45-51 | the session reads the engine's new state |
| Publisher.PublisherSession.OnLocalDescription | src/lk_pub.cpp:53-59 | the local description is cached and forwarded once, typed "offer", iff a signal callback is registered |
| Publisher.PublisherSession.ProcessSignalingValues | src/lk_pub.cpp:161-184 | the new slots and the appended engine calls are those of the shared rendezvous on the old slots; nothing is sent |
| Publisher.PublisherSession.SetRemoteDescription | src/lk_pub.cpp:193-199 | a new answer replaces any pending one, then the rendezvous step runs |
| Publisher.PublisherSession.AddIceCandidate | src/lk_pub.cpp:201-208 | the process halts iff a candidate is already pending, and then nothing changes; otherwise the candidate is buffered and the rendezvous step runs |
| Publisher.PublisherSession.Reoffer | src/lk_pub.cpp:186-191 | exactly one create-offer engine call, with the pending slots untouched; an offer the engine produces inside it is cached and forwarded once, typed "offer", iff a signal callback is registered |
| Publisher.PublisherSession.EncodeAudio | src/lk_pub.cpp:81-87 | the process goes on iff the input is exactly 1280 bytes, and then exactly one encoded frame goes to the engine |
| Publisher.PublisherSession.Tick | src/lk_pub.cpp:116-143 | capture only when Completed; the captured bytes land as Media.Fill says; a completed frame is encoded and sent before the engine step and counted by CountFrame; every iteration steps the engine once; the encoder assertion never fails; the pause is 1 ms when Completed and 10 ms otherwise |
| Media.WriteOffset | src/media.cpp:197 | the write offset is the byte count rounded down to a whole 16-bit sample, equal to it when it is even |
| Media.Fill | src/media.cpp:197-198 | the read bytes land from the write offset on, and every other byte of the buffer is unchanged |
| Media.WholeSampleReadsFillInOrder | src/media.cpp:194-207 | reads of whole samples fill the buffer from the start with their concatenation, in order, and the rest of the buffer is unchanged |
| Media.RenderAudio | src/media.cpp:210-219 | playback goes on iff the driver returns ESP_OK and writes every byte; a driver error and a short write halt with their own reasons |
| Media.CaptureBuffer.constructor | src/media.cpp:190-191 | a 1280-byte buffer with nothing captured |
| Media.CaptureBuffer.CaptureAudio | src/media.cpp:194-208 | the buffer is filled as Media.Fill says; a short read returns no frame and advances the counter by the bytes read; a completing read returns the whole buffer, reports 1280 bytes when asked, and resets the counter; the counter stays below 1280 between calls |
| LiveKit.RequestName | src/livekit.cpp:17-40 | "UNKNOWN" iff the message case is not one of the eight known requests |
| LiveKit.RequestNameIdentifiesKind | src/livekit.cpp:17-40 | two requests share a name only if they are of the same kind |
| LiveKit.ResponseName | src/livekit.cpp:42-71 | "UNKNOWN" iff the message case is not one of the eleven known responses |
| LiveKit.FilterTrickle | src/livekit.cpp:141-173 | a candidate containing "tcp" anywhere, with no '.', or without a string `candidate` in its JSON is never forwarded; every other candidate is forwarded with its JSON value, to the subscriber iff the target is SUBSCRIBER |
| LiveKit.Dispatch | src/livekit.cpp:134-197 | OFFER goes to the subscriber's set-remote, ANSWER to the publisher's; TRACK_PUBLISHED iff a reoffer; LEAVE iff fatal; a trickle reaches a candidate slot iff the filter forwards it, and the one it routes to; JOIN, UPDATE, MUTE, SPEAKERS_CHANGED, ROOM_UPDATE, NOT_SET, unknown kinds and filtered trickles do nothing |
| LiveKit.WebSocketUri | src/livekit.cpp:233-237 | the URI fits the 1024-byte buffer with its terminator, is a prefix of the full template, is the whole template when that fits, and is cut at exactly 1023 characters otherwise |
| LiveKit.TokenSurvivesIff | src/livekit.cpp:233-237 | the access token appears intact at its place in the URI iff the room URL, the query head and the token fit in 1023 characters |
| LiveKit.ForwardedAnswerIsWellTyped | src/livekit.cpp:112-120 | the subscriber only ever signals answers, whatever description the engine produces, so the type assertion of the answer forwarding never fires: the process goes on iff the step did and any send was accepted |
| LiveKit.Client.constructor | src/livekit.cpp:239-240 | both sessions are created empty, the publisher with its signal callback, and nothing has been sent |
| LiveKit.Client.Send | src/livekit.cpp:73-84 | an accepted send puts exactly that request on the wire; a refused send halts |
| LiveKit.Client.OnSubSignal | src/livekit.cpp:112-121 | a signal not typed "answer" halts; otherwise one ANSWER request carrying the description is sent |
| LiveKit.Client.OnPubSignal | src/livekit.cpp:123-132 | a signal not typed "offer" halts; otherwise one OFFER request carrying the description is sent |
| LiveKit.Client.OnSubState | src/livekit.cpp:98-104 | COMPLETED sends exactly one ADD_TRACK with cid = name = "microphone" and source MICROPHONE; DISCONNECTED halts; any other state does nothing |
| LiveKit.Client.OnPubState | src/livekit.cpp:106-110 | the process halts iff the publisher is DISCONNECTED |
| LiveKit.Client.OnPubLocalDescription | src/lk_pub.cpp:53-59 | the publisher's new local description is cached and sent as exactly one OFFER request |
| LiveKit.Client.OnSubLocalDescription | src/lk_sub.cpp:46-52 | the subscriber's local description is cached and nothing is sent |
| LiveKit.Client.ForwardAnswer | src/lk_sub.cpp:182-183 | after a subscriber step, its answer (if any) is sent as one ANSWER request, and the status combines the step's and the send's |
| LiveKit.Client.ForwardOffer | src/livekit.cpp:123-132 | the offer the publisher engine produced, if any, is sent as one OFFER request; with none, nothing is sent |
| LiveKit.Client.HandleResponse | src/livekit.cpp:134-197 | the dispatched action is applied to exactly one session (or none), with the session contracts above, and the other session is unchanged; an applied subscriber offer sends at most its one ANSWER; TRACK_PUBLISHED sends at most the one OFFER the engine produces inside `create_offer`; nothing else sends |
| LiveKit.Client.HandleEvent | src/livekit.cpp:199-231 | connected, unknown events and non-binary frames change nothing; disconnect, error and an undecodable binary frame halt; a decoded binary frame is handled as HandleResponse says |
| LiveKit.Client.PublicationSequence | src/livekit.cpp:98-100 | the subscriber connecting and then TRACK_PUBLISHED, with the engine producing its offer inside `create_offer`, send exactly one ADD_TRACK and then exactly one OFFER, make exactly one create-offer call, and leave the subscriber's engine untouched |
| LiveKit.Client.FirstNegotiation | src/livekit.cpp:141-176 | on a fresh subscriber, a trickled IPv4 UDP candidate and then the OFFER make the engine calls add-candidate then set-remote, empty both slots, and send exactly one ANSWER built from the description the engine produces |

## Left out

- Concurrency is not modelled. This covers the FreeRTOS tasks, task
  creation, stacks, the session mutexes and `vTaskDelay`. Each locked
  entry point and each engine callback is one atomic step, and a delay is
  returned as a number of milliseconds.
- The peer connection engine (libpeer) is a state value plus the log of
  calls made into it. ICE, DTLS, SRTP and SCTP are not modelled.
- Engine callbacks from inside other engine calls are modelled only where
  the code depends on them: the local description produced inside the
  subscriber's set-remote-description and inside the publisher's
  create-offer. Every other callback (a state change, or a local
  description the engine delivers at another time) is a separate event.
- Opus encoding and decoding are reduced to byte and sample counts; the
  encoder settings (bitrate, complexity, signal, bandwidth) are not
  modelled.
- Protobuf packing and unpacking are not modelled. A decoded frame is an
  `Option<SignalResponse>`, and the wire holds request values.
- JSON parsing (cJSON) is a function parameter that returns the parse
  outcome.
- The transport's send result is a boolean parameter.
- The microsecond timer is a parameter, the driver's read bytes are a
  parameter, and the driver's write result is a pair of parameters.
- I2S, ES8311 and I2C hardware setup is not modelled, nor are the boot
  code, Wi-Fi and NVS. `src/main.cpp` is not part of this model.
- The WebSocket client configuration and the endless wait in
  `lk_websocket` are not modelled.
- Logging, and the lifetimes of `malloc`/`strdup`/`free` buffers, are not
  modelled.
- Subscriber.SubscriberRendezvous: if the engine has produced no local
  description by the time the offer is applied, `create_answer`
  dereferences NULL. If the description lacks `m=audio` before
  `m=application`, it computes negative lengths. Both are undefined
  behaviour in C; the model halts instead.
- Subscriber.SubscriberRendezvous: the C code calls the signal callback
  before it clears the offer slot. The model clears the slot and then
  forwards the answer. The two differ only when the send fails, and a
  failed send is fatal.
- Media.CaptureBuffer.CaptureAudio: the driver is assumed never to return
  more bytes than it was asked for. With an odd byte count, the next read
  lands at the count rounded down to a whole sample, as the `int16_t`
  pointer arithmetic does. Media.WholeSampleReadsFillInOrder proves
  contiguous filling for whole-sample reads only.
- Strings stand for NUL-free byte strings, one character per byte. C
  counts bytes where the model counts characters (in `WebSocketUri`'s
  1023-byte cut and `CreateAnswer`'s lengths); the two agree for the ASCII
  SDP, URLs and tokens involved.
- The data-channel callbacks of the subscriber are not modelled; they
  only log.
