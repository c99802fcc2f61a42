/** The subscriber session (`lk_sub.cpp`): it receives the server's offer,
    buffers it with one trickled ICE candidate, applies both through the
    rendezvous step and answers with its own local description reordered to
    the offer's media-section order (section 6 of RFC 3264; media sections
    are the "m=" lines of section 5.14 of RFC 8866). */
module Subscriber {
  import opened Base
  import opened Text
  import opened Session
  import Media

  const AUDIO_SECTION: string := "m=audio"
  const DATA_SECTION: string := "m=application"

  /** Some audio m-line of `local` comes before every data m-line. */
  ghost predicate AudioBeforeData(local: string) {
    exists i: nat :: MatchAt(local, AUDIO_SECTION, i) && forall j: nat :: j <= i ==> !MatchAt(local, DATA_SECTION, j)
  }

  /** The engine's local description has a single audio m-line. */
  ghost predicate SingleAudioSection(local: string) {
    forall i: nat, j: nat :: MatchAt(local, AUDIO_SECTION, i) && MatchAt(local, AUDIO_SECTION, j) ==> i == j
  }

  /** The two m-line markers cannot overlap: where both occur, first audio
      then data, the whole audio marker fits before the data marker. */
  lemma MarkersDoNotOverlap(local: string, a: nat, d: nat)
    requires MatchAt(local, AUDIO_SECTION, a) && MatchAt(local, DATA_SECTION, d) && a <= d
    ensures a + |AUDIO_SECTION| <= d
  {
    assert local[d] == local[d..d + |DATA_SECTION|][0] == 'm';
    assert local[d + 3] == local[d..d + |DATA_SECTION|][3] == 'p';
    var marker := local[a..a + |AUDIO_SECTION|];
    assert forall k :: 0 <= k < |marker| ==> local[a + k] == marker[k];
  }

  /** `create_answer`: the local description (session header, audio section,
      data section) rearranged as header, data section, then the audio
      section only when the offer has an audio m-line. The C code is only
      defined when the local description has an audio m-line before its
      first data m-line; otherwise the result is None. */
  function CreateAnswer(offer: string, local: string): (answer: Option<string>)
    ensures answer.Some? <==> Contains(local, DATA_SECTION) && AudioBeforeData(local)
    // the answer, with its terminator, fits the session_len + audio_len +
    // data_len + 1 bytes allocated for it
    ensures answer.Some? ==> |answer.value| + 1 <= |local| + 1
    // it keeps every byte of the local description exactly when the offer
    // has audio, and otherwise drops a non-empty audio section
    ensures answer.Some? ==> (|answer.value| == |local| <==> Contains(offer, AUDIO_SECTION))
    ensures answer.Some? ==> multiset(answer.value) <= multiset(local)
    ensures answer.Some? && Contains(offer, AUDIO_SECTION) ==> multiset(answer.value) == multiset(local)
  {
    var includeAudio := Find(offer, AUDIO_SECTION).Some?;
    match (Find(local, AUDIO_SECTION), Find(local, DATA_SECTION))
    case (Some(a), Some(d)) =>
      if a <= d then
        MarkersDoNotOverlap(local, a, d);
        assert local == local[..a] + local[a..d] + local[d..];
        Some(local[..a] + local[d..] + (if includeAudio then local[a..d] else []))
      else
        assert !AudioBeforeData(local);
        None
    case (None, _) => None
    case (Some(a), None) => None
  }

  /** How an answer is laid out: the local description's header up to its
      first audio m-line, its data section from the first data m-line on, and
      the audio section between them when the offer has audio. */
  lemma AnswerShape(offer: string, local: string)
    requires Contains(local, DATA_SECTION) && AudioBeforeData(local)
    ensures Find(local, AUDIO_SECTION).Some? && Find(local, DATA_SECTION).Some?
    ensures var a, d := Find(local, AUDIO_SECTION).value, Find(local, DATA_SECTION).value;
      && a + |AUDIO_SECTION| <= d <= |local|
      && CreateAnswer(offer, local).value
         == local[..a] + local[d..] + (if Contains(offer, AUDIO_SECTION) then local[a..d] else [])
  {
    var a, d := Find(local, AUDIO_SECTION).value, Find(local, DATA_SECTION).value;
    MarkersDoNotOverlap(local, a, d);
  }

  /** A header with no audio or data m-line, followed by text that opens
      with the data marker: the first m-line of either kind is that data
      marker, right after the header. */
  lemma DataMarkerFirst(header: string, rest: string)
    requires forall j: nat :: !MatchAt(header, AUDIO_SECTION, j) && !MatchAt(header, DATA_SECTION, j)
    requires MatchAt(rest, DATA_SECTION, 0)
    ensures MatchAt(header + rest, DATA_SECTION, |header|)
    ensures !MatchAt(header + rest, AUDIO_SECTION, |header|)
    ensures Find(header + rest, DATA_SECTION) == Some(|header|)
    ensures Find(header + rest, AUDIO_SECTION).Some? ==> Find(header + rest, AUDIO_SECTION).value > |header|
  {
    assert HeadDoesNotRecur(DATA_SECTION) && HeadDoesNotRecur(AUDIO_SECTION);
    assert rest[0] == rest[..|DATA_SECTION|][0] && rest[3] == rest[..|DATA_SECTION|][3];
    MatchInRight(header, rest, DATA_SECTION, 0);
    forall j: nat | j < |header|
      ensures !MatchAt(header + rest, DATA_SECTION, j) && !MatchAt(header + rest, AUDIO_SECTION, j)
    {
      MatchInConcat(header, rest, DATA_SECTION, j);
      MatchInConcat(header, rest, AUDIO_SECTION, j);
    }
    assert (header + rest)[|header| + 3] == rest[3] == 'p';
    Mismatch(header + rest, AUDIO_SECTION, |header|, 3);
    FindFirst(header + rest, DATA_SECTION, |header|);
    FindBeyond(header + rest, AUDIO_SECTION, |header|);
  }

  /** For `local` with no m-line of either kind before index `a` and the
      data marker at `d`: with `local[a..d]` moved after `local[d..]` (as
      `tail`) or dropped, the header is kept and the data marker is the
      first m-line of either kind. */
  lemma DataFirstAfterReorder(local: string, a: nat, d: nat, tail: string)
    requires a <= d <= |local|
    requires forall j: nat :: j < a ==> !MatchAt(local, AUDIO_SECTION, j)
    requires forall j: nat :: j < a ==> !MatchAt(local, DATA_SECTION, j)
    requires MatchAt(local, DATA_SECTION, d)
    ensures (local[..a] + local[d..] + tail)[..a] == local[..a]
    ensures Find(local[..a] + local[d..] + tail, DATA_SECTION) == Some(a)
    ensures Find(local[..a] + local[d..] + tail, AUDIO_SECTION).Some? ==>
      Find(local[..a] + local[d..] + tail, AUDIO_SECTION).value > a
  {
    var header, rest := local[..a], local[d..] + tail;
    assert local[..a] + local[d..] + tail == header + rest;
    assert local == header + local[a..];
    forall j: nat
      ensures !MatchAt(header, AUDIO_SECTION, j) && !MatchAt(header, DATA_SECTION, j)
    {
      MatchInLeft(header, local[a..], AUDIO_SECTION, j);
      MatchInLeft(header, local[a..], DATA_SECTION, j);
    }
    assert rest[..|DATA_SECTION|] == local[d..d + |DATA_SECTION|];
    DataMarkerFirst(header, rest);
  }

  /** The session header of the answer is the local one, and the answer's
      first data m-line sits right after it, where the local description's
      audio section began; any audio m-line of the answer comes after that.
      So the answer lists its data section first, as the offer does. */
  lemma {:induction false} AnswerLeadsWithData(offer: string, local: string)
    requires Contains(local, DATA_SECTION) && AudioBeforeData(local)
    ensures Find(local, AUDIO_SECTION).Some?
    ensures var answer := CreateAnswer(offer, local).value; var a := Find(local, AUDIO_SECTION).value;
      && answer[..a] == local[..a]
      && Find(answer, DATA_SECTION) == Some(a)
      && (Find(answer, AUDIO_SECTION).Some? ==> Find(answer, AUDIO_SECTION).value > a)
  {
    AnswerShape(offer, local);
    var a := Find(local, AUDIO_SECTION).value;
    var d := Find(local, DATA_SECTION).value;
    DataFirstAfterReorder(local, a, d, if Contains(offer, AUDIO_SECTION) then local[a..d] else []);
  }

  /** Gluing a header without audio m-lines to a data section without
      audio m-lines that starts with the data marker creates none. */
  lemma NoAudioAcrossSeam(header: string, data: string)
    requires forall j: nat :: !MatchAt(header, AUDIO_SECTION, j)
    requires forall j: nat :: !MatchAt(data, AUDIO_SECTION, j)
    requires MatchAt(data, DATA_SECTION, 0)
    ensures forall j: nat :: !MatchAt(header + data, AUDIO_SECTION, j)
  {
    assert HeadDoesNotRecur(AUDIO_SECTION);
    assert data[0] == data[..|DATA_SECTION|][0];
    forall j: nat
      ensures !MatchAt(header + data, AUDIO_SECTION, j)
    {
      MatchInConcat(header, data, AUDIO_SECTION, j);
    }
  }

  /** Dropping the only audio section of `header + audio + data` leaves no
      audio m-line at all. */
  lemma AudioDroppedLeavesNone(header: string, audio: string, data: string)
    requires forall j: nat :: MatchAt(header + audio + data, AUDIO_SECTION, j) ==> j == |header|
    requires |audio| > 0 && MatchAt(data, DATA_SECTION, 0)
    ensures forall j: nat :: !MatchAt(header + data, AUDIO_SECTION, j)
  {
    forall j: nat
      ensures !MatchAt(header, AUDIO_SECTION, j)
    {
      MatchInLeft(header, audio + data, AUDIO_SECTION, j);
      assert header + (audio + data) == header + audio + data;
    }
    forall j: nat
      ensures !MatchAt(data, AUDIO_SECTION, j)
    {
      MatchInRight(header + audio, data, AUDIO_SECTION, j);
    }
    NoAudioAcrossSeam(header, data);
  }

  /** The answer carries an audio m-line exactly when the offer does
      (for a local description with a single audio section). */
  lemma {:induction false} AnswerAudioMatchesOffer(offer: string, local: string)
    requires Contains(local, DATA_SECTION) && AudioBeforeData(local)
    requires SingleAudioSection(local)
    ensures Contains(CreateAnswer(offer, local).value, AUDIO_SECTION) <==> Contains(offer, AUDIO_SECTION)
  {
    AnswerShape(offer, local);
    var a := Find(local, AUDIO_SECTION).value;
    var d := Find(local, DATA_SECTION).value;
    var header, audio, data := local[..a], local[a..d], local[d..];
    assert local == header + audio + data;
    if Contains(offer, AUDIO_SECTION) {
      assert audio[..|AUDIO_SECTION|] == local[a..a + |AUDIO_SECTION|];
      MatchInRight(header + data, audio, AUDIO_SECTION, 0);
      assert CreateAnswer(offer, local).value == (header + data) + audio;
    } else {
      assert data[..|DATA_SECTION|] == local[d..d + |DATA_SECTION|];
      AudioDroppedLeavesNone(header, audio, data);
      assert CreateAnswer(offer, local).value == header + data;
    }
  }

  /** The answer the subscriber produces from its cached local description;
      None when no description is cached or it has the wrong shape. */
  function AnswerFromCache(offer: string, cached: Option<string>): Option<string>
  {
    if cached.None? then None else CreateAnswer(offer, cached.value)
  }

  const UNDEFINED_ANSWER: string := "answer built from a missing or malformed local description"

  /** What the subscriber's rendezvous step does: the slots afterwards, the
      engine calls, the cached local description afterwards, the signal
      handed to the owner and whether the process goes on. */
  datatype SubStep = SubStep(slots: Slots, calls: seq<EngineCall>, local: Option<string>, signal: Option<Signal>, status: Status)

  /** The subscriber's `process_signaling_values`. `produced` is the local
      description the engine hands to `on_ice_candidate` from inside
      `peer_connection_set_remote_description`, if it does; it replaces the
      cached one before `create_answer` reads it. Once the offer is applied,
      the answer is sent to the owner. */
  function SubscriberRendezvous(s: Slots, state: PeerState, cached: Option<string>, produced: Option<string>): (r: SubStep)
    ensures r.calls == Rendezvous(s, state).calls
    ensures r.slots.candidate == Rendezvous(s, state).slots.candidate
    // a description the engine produces while applying the offer is cached;
    // otherwise the cache is untouched
    ensures r.local == if r.calls != [] && produced.Some? then produced else cached
    // exactly one answer is signalled whenever the offer is applied and an
    // answer can be built from the local description in effect by then
    ensures r.signal.Some? <==> r.calls != [] && AnswerFromCache(s.description.value, r.local).Some?
    ensures r.signal.Some? ==>
      r.signal.value == Signal(SDP_TYPE_ANSWER, CreateAnswer(s.description.value, r.local.value).value)
      && r.slots.description == None && r.status == Running
    // with no answer to send the offer stays where it was
    ensures r.signal.None? ==> r.slots.description == s.description
    ensures r.status.Halted? <==> r.calls != [] && r.signal.None?
  {
    var step := Rendezvous(s, state);
    if step.calls == [] then SubStep(s, [], cached, None, Running)
    else
      var local := if produced.Some? then produced else cached;
      match AnswerFromCache(s.description.value, local)
      case Some(answer) => SubStep(step.slots, step.calls, local, Some(Signal(SDP_TYPE_ANSWER, answer)), Running)
      case None => SubStep(Slots(s.description, step.slots.candidate), step.calls, local, None, Halted(UNDEFINED_ANSWER))
  }

  /** The first negotiation: on a fresh session the engine has no local
      description yet, a trickled candidate waits for the offer, and the
      offer is then applied after it and answered once with the description
      the engine produces while applying it. */
  lemma FirstOfferIsAnswered(offer: string, candidate: string, state: PeerState, local: string)
    requires state != Completed
    requires Contains(local, DATA_SECTION) && AudioBeforeData(local)
    ensures var waiting := SubscriberRendezvous(Slots(None, Some(candidate)), state, None, Some(local));
      && waiting.calls == [] && waiting.signal == None && waiting.status == Running
      && waiting.slots == Slots(None, Some(candidate)) && waiting.local == None
    ensures var answered := SubscriberRendezvous(Slots(Some(offer), Some(candidate)), state, None, Some(local));
      && answered.calls == [AddIceCandidate(candidate), SetRemoteDescription(offer)]
      && answered.slots == Slots(None, None) && answered.local == Some(local) && answered.status == Running
      && answered.signal == Some(Signal(SDP_TYPE_ANSWER, CreateAnswer(offer, local).value))
  {
  }

  /** `TICK_INTERVAL`: the subscriber task's pause between engine steps, in ms. */
  const TICK_INTERVAL: nat := 15

  const SAMPLE_RATE: nat := 16000
  const NUM_CHANNELS: nat := 2
  /** The decoder's output capacity per channel: 120 ms at 16 kHz. */
  const DECODE_SAMPLES_PER_CHANNEL: nat := SAMPLE_RATE / 1000 * 120
  /** The decode buffer, in bytes (sizeof(opus_int16) == 2). */
  const DECODE_BUFFER_SIZE: nat := DECODE_SAMPLES_PER_CHANNEL * NUM_CHANNELS * 2

  /** What happens to one received audio frame. */
  datatype Playback = Dropped | Rendered(bytes: nat, status: Status)

  /** `decode_audio`: `samples` is what the Opus decoder returned, `ret` and
      `written` what the speaker driver reports. A non-positive sample count
      drops the frame; otherwise that many stereo 16-bit samples are
      rendered. */
  function DecodeAudio(samples: int, ret: int, written: nat): (p: Playback)
    ensures p.Dropped? <==> samples <= 0
    ensures p.Rendered? ==> p.bytes == samples * NUM_CHANNELS * 2
    // the decoder never returns more samples than it was asked for, so the
    // rendered bytes never run past the decode buffer
    ensures p.Rendered? && samples <= DECODE_SAMPLES_PER_CHANNEL ==> p.bytes <= DECODE_BUFFER_SIZE
    ensures p.Rendered? ==> (p.status == Running <==> ret == Media.ESP_OK && written == p.bytes)
  {
    if samples <= 0 then Dropped
    else
      var bytes := samples * NUM_CHANNELS * 2;
      Rendered(bytes, Media.RenderAudio(bytes, ret, written))
  }

  /** The subscriber's module state (`g_offer_buffer`,
      `g_ice_candidate_buffer`, `g_local_description`), the engine state it
      reads, and the engine calls it has made. Each public method is one
      mutex-guarded entry point. */
  class SubscriberSession {
    var offer: Option<string>
    var candidate: Option<string>
    var localDescription: Option<string>
    var engineState: PeerState
    var calls: seq<EngineCall>

    function Pending(): Slots
      reads this
    {
      Slots(offer, candidate)
    }

    constructor ()
      ensures Pending() == Slots(None, None) && localDescription == None
      ensures engineState == New && calls == []
    {
      offer, candidate, localDescription := None, None, None;
      engineState, calls := New, [];
    }

    /** The engine moved to `state` (the state-change callback then reaches
        the owner, see the dispatcher). */
    method SetEngineState(state: PeerState)
      modifies this`engineState
      ensures engineState == state
    {
      engineState := state;
    }

    /** `on_ice_candidate`: despite its name the engine calls it with its
        complete local description, which is cached for the next answer. */
    method OnLocalDescription(description: string)
      modifies this`localDescription
      ensures localDescription == Some(description)
    {
      localDescription := Some(description);
    }

    /** `process_signaling_values`; `produced` is the local description the
        engine delivers while the offer is applied, if it does. */
    method ProcessSignalingValues(produced: Option<string>) returns (signal: Option<Signal>, status: Status)
      modifies this`offer, this`candidate, this`calls, this`localDescription
      ensures var r := SubscriberRendezvous(old(Pending()), engineState, old(localDescription), produced);
        && Pending() == r.slots && calls == old(calls) + r.calls && localDescription == r.local
        && signal == r.signal && status == r.status
    {
      if offer.None? {
        return None, Running;
      }
      var state := engineState;
      if state != Completed {
        if candidate.None? {
          return None, Running;
        }
        calls := calls + [EngineCall.AddIceCandidate(candidate.value)];
        candidate := None;
      }
      calls := calls + [EngineCall.SetRemoteDescription(offer.value)];
      if produced.Some? {
        OnLocalDescription(produced.value);
      }
      var answer := AnswerFromCache(offer.value, localDescription);
      if answer.None? {
        return None, Halted(UNDEFINED_ANSWER);
      }
      signal := Some(Signal(SDP_TYPE_ANSWER, answer.value));
      status := Running;
      offer := None;
    }

    /** `lk_sub_set_remote_description`: the new offer replaces any pending
        one, then the rendezvous step runs (with `produced` as in
        ProcessSignalingValues). */
    method SetRemoteDescription(sdp: string, produced: Option<string>) returns (signal: Option<Signal>, status: Status)
      modifies this`offer, this`candidate, this`calls, this`localDescription
      ensures var r := SubscriberRendezvous(Slots(Some(sdp), old(candidate)), engineState, old(localDescription), produced);
        && Pending() == r.slots && calls == old(calls) + r.calls && localDescription == r.local
        && signal == r.signal && status == r.status
    {
      offer := Some(sdp);
      signal, status := ProcessSignalingValues(produced);
    }

    /** `lk_sub_add_ice_candidate`: a candidate arriving while another is
        pending fails the assertion and ends the process; otherwise it is
        buffered and the rendezvous step runs (with `produced` as in
        ProcessSignalingValues). */
    method AddIceCandidate(description: string, produced: Option<string>) returns (signal: Option<Signal>, status: Status)
      modifies this`offer, this`candidate, this`calls, this`localDescription
      ensures old(candidate).Some? ==>
        && status.Halted? && signal == None && Pending() == old(Pending()) && calls == old(calls)
        && localDescription == old(localDescription)
      ensures old(candidate).None? ==>
        var r := SubscriberRendezvous(Slots(old(offer), Some(description)), engineState, old(localDescription), produced);
        && Pending() == r.slots && calls == old(calls) + r.calls && localDescription == r.local
        && signal == r.signal && status == r.status
    {
      if candidate.Some? {
        return None, Halted("pending ICE candidate already set");
      }
      candidate := Some(description);
      signal, status := ProcessSignalingValues(produced);
    }

    /** One iteration of the subscriber task: step the engine, then pause
        for TICK_INTERVAL ms. */
    method Tick() returns (delayMs: nat)
      modifies this`calls
      ensures calls == old(calls) + [Loop] && delayMs == TICK_INTERVAL
    {
      calls := calls + [Loop];
      delayMs := TICK_INTERVAL;
    }
  }
}
