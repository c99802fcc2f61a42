/** The publisher session (`lk_pub.cpp`): it buffers the server's answer
    and one trickled ICE candidate behind the same rendezvous step as the
    subscriber, asks the engine for a fresh offer on request, forwards the
    engine's offer to its owner, and runs the capture/encode/step loop. */
module Publisher {
  import opened Base
  import opened Session
  import Media

  const SAMPLE_RATE: nat := 16000
  const NUM_CHANNELS: nat := 2
  /** The encoder's input frame: 20 ms at 16 kHz per channel. */
  const ENCODE_SAMPLES_PER_CHANNEL: nat := SAMPLE_RATE / 1000 * 20
  /** The encoder's input frame in bytes (sizeof(opus_int16) == 2). */
  const ENCODE_BUFFER_SIZE: nat := ENCODE_SAMPLES_PER_CHANNEL * NUM_CHANNELS * 2

  /** `uint32_t` wrap-around of the microsecond timer. */
  const UINT32_RANGE: nat := 0x1_0000_0000
  /** The length of one frame-rate window, in microseconds. */
  const WINDOW_US: nat := 1000000
  /** Fewer frames than this in a window is logged as too slow. */
  const MIN_FPS: nat := 50
  /** The loop's pause when Completed, and otherwise, in ms. */
  const CONNECTED_DELAY_MS: nat := 1
  const IDLE_DELAY_MS: nat := 10

  /** A frame the capture accumulator completes is exactly one encoder frame,
      so the size assertion in `encode_audio` holds for every captured frame. */
  lemma CaptureFrameIsEncoderFrame()
    ensures Media.EXAMPLE_BUFFER_SIZE == ENCODE_BUFFER_SIZE == 1280
  {
  }

  /** `current_time - start_time` in `uint32_t` arithmetic, where the current
      time is the 64-bit timer value `now` truncated to 32 bits. */
  function Elapsed(startTime: nat, now: nat): (e: nat)
    ensures e < UINT32_RANGE
  {
    (now % UINT32_RANGE - startTime) % UINT32_RANGE
  }

  /** The unsigned subtraction measures the true elapsed time across a
      wrap of the 32-bit timer, as long as less than 2^32 us have passed. */
  lemma ElapsedAcrossWrap(t0: nat, now: nat)
    requires t0 <= now < t0 + UINT32_RANGE
    ensures Elapsed(t0 % UINT32_RANGE, now) == now - t0
  {
    var q0, r0 := t0 / UINT32_RANGE, t0 % UINT32_RANGE;
    var q1, r1 := now / UINT32_RANGE, now % UINT32_RANGE;
    assert t0 == q0 * UINT32_RANGE + r0;
    assert now == q1 * UINT32_RANGE + r1;
    if r1 >= r0 {
      assert q1 == q0;
    } else {
      assert q1 == q0 + 1;
      assert r1 - r0 + UINT32_RANGE == now - t0;
    }
  }

  /** The frame-rate window after a captured frame. */
  datatype Window = Window(frames: nat, startTime: nat, slowFps: Option<nat>)

  /** Count one captured frame at timer value `now`: once more than a
      second has elapsed since the window opened, a new window opens at
      `now`, and the closing count is reported when it is below MIN_FPS. */
  function CountFrame(frames: nat, startTime: nat, now: nat): (w: Window)
    requires startTime < UINT32_RANGE
    ensures w.startTime < UINT32_RANGE
    // the window closes (its counter restarts) exactly when more than a
    // second has elapsed; otherwise the frame is counted in the open window
    ensures w.frames == 0 <==> Elapsed(startTime, now) > WINDOW_US
    ensures w.frames == 0 ==> w.startTime == now % UINT32_RANGE
    ensures w.frames != 0 ==> w.frames == frames + 1 && w.startTime == startTime
    // a slow window is reported once, when it closes, with its own count
    ensures w.slowFps.Some? <==> w.frames == 0 && frames + 1 < MIN_FPS
    ensures w.slowFps.Some? ==> w.slowFps.value == frames + 1
  {
    var counted := frames + 1;
    var current := now % UINT32_RANGE;
    if Elapsed(startTime, now) > WINDOW_US then
      Window(0, current, if counted < MIN_FPS then Some(counted) else None)
    else
      Window(counted, startTime, None)
  }

  /** The publisher's module state (`g_answer_buffer`,
      `g_ice_candidate_buffer`, `g_local_description`, whether a signal
      callback was registered), the engine state it reads, the engine calls
      it has made, and the `pc_task` loop's `frames` and `start_time`. */
  class PublisherSession {
    var answer: Option<string>
    var candidate: Option<string>
    var localDescription: Option<string>
    const hasSignalCallback: bool
    var engineState: PeerState
    var calls: seq<EngineCall>
    var frames: nat
    var startTime: nat

    ghost predicate Valid()
      reads this
    {
      startTime < UINT32_RANGE
    }

    function Pending(): Slots
      reads this
    {
      Slots(answer, candidate)
    }

    /** `lk_pub_create` and the start of the publisher task, with the timer
        reading `bootTime` (us). */
    constructor (hasSignalCallback: bool, bootTime: nat)
      ensures Valid() && Pending() == Slots(None, None) && localDescription == None
      ensures this.hasSignalCallback == hasSignalCallback
      ensures engineState == New && calls == [] && frames == 0 && startTime == bootTime % UINT32_RANGE
    {
      answer, candidate, localDescription := None, None, None;
      this.hasSignalCallback := hasSignalCallback;
      engineState, calls := New, [];
      frames, startTime := 0, bootTime % UINT32_RANGE;
    }

    /** The engine moved to `state`. */
    method SetEngineState(state: PeerState)
      modifies this`engineState
      ensures engineState == state
    {
      engineState := state;
    }

    /** `on_ice_candidate`: the engine's new local description is cached and,
        when a signal callback is registered, forwarded to it once as the
        offer. */
    method OnLocalDescription(description: string) returns (signal: Option<Signal>)
      modifies this`localDescription
      ensures localDescription == Some(description)
      ensures signal == if hasSignalCallback then Some(Signal(SDP_TYPE_OFFER, description)) else None
    {
      localDescription := Some(description);
      signal := if hasSignalCallback then Some(Signal(SDP_TYPE_OFFER, description)) else None;
    }

    /** `process_signaling_values`: the shared rendezvous step; nothing is
        sent after the answer is applied. */
    method ProcessSignalingValues()
      modifies this`answer, this`candidate, this`calls
      ensures var r := Rendezvous(old(Pending()), engineState);
        Pending() == r.slots && calls == old(calls) + r.calls
    {
      if answer.None? {
        return;
      }
      var state := engineState;
      if state != Completed {
        if candidate.None? {
          return;
        }
        calls := calls + [EngineCall.AddIceCandidate(candidate.value)];
        candidate := None;
      }
      calls := calls + [EngineCall.SetRemoteDescription(answer.value)];
      answer := None;
    }

    /** `lk_pub_set_remote_description`: the new answer replaces any pending
        one, then the rendezvous step runs. */
    method SetRemoteDescription(sdp: string)
      modifies this`answer, this`candidate, this`calls
      ensures var r := Rendezvous(Slots(Some(sdp), old(candidate)), engineState);
        Pending() == r.slots && calls == old(calls) + r.calls
    {
      answer := Some(sdp);
      ProcessSignalingValues();
    }

    /** `lk_pub_add_ice_candidate`: a candidate arriving while another is
        pending fails the assertion and ends the process. */
    method AddIceCandidate(description: string) returns (status: Status)
      modifies this`answer, this`candidate, this`calls
      ensures status.Halted? <==> old(candidate).Some?
      ensures status.Halted? ==> Pending() == old(Pending()) && calls == old(calls)
      ensures status == Running ==>
        var r := Rendezvous(Slots(old(answer), Some(description)), engineState);
        Pending() == r.slots && calls == old(calls) + r.calls
    {
      if candidate.Some? {
        return Halted("pending ICE candidate already set");
      }
      candidate := Some(description);
      ProcessSignalingValues();
      status := Running;
    }

    /** `lk_pub_reoffer`: one request for a fresh local offer; the pending
        slots are untouched. `produced` is the offer the engine hands to
        `on_ice_candidate` from inside `peer_connection_create_offer`, if it
        does; it is cached and forwarded as OnLocalDescription does. */
    method Reoffer(produced: Option<string>) returns (signal: Option<Signal>)
      modifies this`calls, this`localDescription
      ensures calls == old(calls) + [CreateOffer]
      ensures localDescription == if produced.Some? then produced else old(localDescription)
      ensures signal == if produced.Some? && hasSignalCallback then Some(Signal(SDP_TYPE_OFFER, produced.value)) else None
    {
      calls := calls + [CreateOffer];
      signal := None;
      if produced.Some? {
        signal := OnLocalDescription(produced.value);
      }
    }

    /** `encode_audio`: the input must be exactly one encoder frame;
        its encoding is handed to the engine. */
    method EncodeAudio(pcm: seq<bv8>, inBytes: nat) returns (status: Status)
      modifies this`calls
      ensures status == Running <==> inBytes == ENCODE_BUFFER_SIZE
      ensures status == Running ==> calls == old(calls) + [SendAudio(pcm)]
      ensures status.Halted? ==> calls == old(calls)
    {
      if inBytes != ENCODE_BUFFER_SIZE {
        return Halted("encoder input is not one frame");
      }
      calls := calls + [SendAudio(pcm)];
      status := Running;
    }

    /** One iteration of the publisher task at timer value `now`, where the
        capture driver delivers `read` if asked: capture only when
        Completed, encode and send only a completed frame, always step the
        engine, then pause 1 ms when Completed and 10 ms otherwise. */
    method Tick(capture: Media.CaptureBuffer, read: seq<bv8>, now: nat)
      returns (delayMs: nat, slowFps: Option<nat>, status: Status)
      requires Valid() && capture.Valid()
      requires engineState == Completed ==> |read| <= Media.EXAMPLE_BUFFER_SIZE - capture.bytesCaptured
      modifies this`calls, this`frames, this`startTime, capture`bytesCaptured, capture.buffer
      ensures Valid() && capture.Valid()
      // the encoder's size assertion never fails on a captured frame
      ensures status == Running
      ensures delayMs == if engineState == Completed then CONNECTED_DELAY_MS else IDLE_DELAY_MS
      ensures engineState != Completed ==>
        && calls == old(calls) + [Loop] && slowFps == None
        && frames == old(frames) && startTime == old(startTime)
        && capture.bytesCaptured == old(capture.bytesCaptured) && capture.buffer[..] == old(capture.buffer[..])
      ensures engineState == Completed ==>
        capture.buffer[..] == Media.Fill(old(capture.buffer[..]), old(capture.bytesCaptured), read)
      ensures engineState == Completed && old(capture.bytesCaptured) + |read| < Media.EXAMPLE_BUFFER_SIZE ==>
        && calls == old(calls) + [Loop] && slowFps == None
        && frames == old(frames) && startTime == old(startTime)
        && capture.bytesCaptured == old(capture.bytesCaptured) + |read|
      ensures engineState == Completed && old(capture.bytesCaptured) + |read| == Media.EXAMPLE_BUFFER_SIZE ==>
        && calls == old(calls) + [SendAudio(capture.buffer[..]), Loop]
        && Window(frames, startTime, slowFps) == CountFrame(old(frames), old(startTime), now)
        && capture.bytesCaptured == 0
    {
      var state := engineState;
      var frame: Option<seq<bv8>> := None;
      var bytes: Option<nat> := Some(0);
      slowFps := None;
      if state == Completed {
        frame, bytes := capture.CaptureAudio(read, bytes);
        if frame.Some? {
          var w := CountFrame(frames, startTime, now);
          frames, startTime, slowFps := w.frames, w.startTime, w.slowFps;
        }
      }
      if frame.Some? {
        status := EncodeAudio(frame.value, bytes.value);
        if status.Halted? {
          return;
        }
      }
      calls := calls + [Loop];
      status := Running;
      delayMs := if state == Completed then CONNECTED_DELAY_MS else IDLE_DELAY_MS;
    }
  }
}
