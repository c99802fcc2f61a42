/** What the subscriber and the publisher session share: the peer
    connection engine's vocabulary, and the single-slot "rendezvous" gating
    that decides when a buffered remote description and a buffered remote
    ICE candidate are handed to the engine (`process_signaling_values` in
    both session files). */
module Session {
  import opened Base

  /** The states `peer_connection_get_state` reports. The sessions only ever
      compare against Completed (and the dispatcher against Disconnected). */
  datatype PeerState = New | Checking | Connected | Completed | Failed | Disconnected | Closed

  /** One call the session makes into the peer connection engine. */
  datatype EngineCall =
    | AddIceCandidate(candidate: string)   // peer_connection_add_ice_candidate
    | SetRemoteDescription(sdp: string)    // peer_connection_set_remote_description
    | CreateOffer                          // peer_connection_create_offer
    | Loop                                 // peer_connection_loop
    | SendAudio(pcm: seq<bv8>)             // peer_connection_send_audio of the Opus encoding of `pcm`

  /** A session description handed to the owner's signal callback. */
  datatype Signal = Signal(sdpType: string, sdp: string)

  const SDP_TYPE_ANSWER: string := "answer"
  const SDP_TYPE_OFFER: string := "offer"

  /** The two pending slots of a session: the remote description (an offer
      for the subscriber, an answer for the publisher) and one remote ICE
      candidate. */
  datatype Slots = Slots(description: Option<string>, candidate: Option<string>)

  /** The outcome of one rendezvous step: the slots afterwards and the engine
      calls made, in order. */
  datatype Step = Step(slots: Slots, calls: seq<EngineCall>)

  /** One rendezvous step. Nothing happens without a pending description;
      before the connection is Completed a candidate must be pending too, and
      it is applied (and its slot cleared) before the description; once
      Completed the description is applied alone and a pending candidate
      stays where it is. */
  function Rendezvous(s: Slots, state: PeerState): (r: Step)
    // the step applies something exactly when a description is pending and
    // either the connection is Completed or a candidate is pending as well
    ensures r.calls != [] <==> s.description.Some? && (state == Completed || s.candidate.Some?)
    // when nothing is applied, nothing changes
    ensures r.calls == [] ==> r.slots == s
    // what is applied is the pending description, last, and its slot empties
    ensures r.calls != [] ==>
      r.calls[|r.calls| - 1] == SetRemoteDescription(s.description.value) && r.slots.description == None
    // the candidate is applied (first) and consumed exactly when the step
    // applies something before the connection is Completed
    ensures r.calls != [] && state != Completed ==>
      r.calls == [AddIceCandidate(s.candidate.value), SetRemoteDescription(s.description.value)]
      && r.slots.candidate == None
    ensures state == Completed ==> r.slots.candidate == s.candidate && |r.calls| <= 1
  {
    match s.description
    case None => Step(s, [])
    case Some(description) =>
      if state != Completed then
        match s.candidate
        case None => Step(s, [])
        case Some(candidate) =>
          Step(Slots(None, None), [AddIceCandidate(candidate), SetRemoteDescription(description)])
      else
        Step(Slots(None, s.candidate), [SetRemoteDescription(description)])
  }

  /** The strings a list of engine calls hands over as descriptions or candidates. */
  function Applied(calls: seq<EngineCall>): multiset<string>
  {
    if calls == [] then multiset{}
    else
      var rest := Applied(calls[1..]);
      match calls[0]
      case AddIceCandidate(c) => multiset{c} + rest
      case SetRemoteDescription(d) => multiset{d} + rest
      case _ => rest
  }

  /** The strings waiting in the two slots. */
  function PendingValues(s: Slots): multiset<string>
  {
    (if s.description.Some? then multiset{s.description.value} else multiset{})
    + (if s.candidate.Some? then multiset{s.candidate.value} else multiset{})
  }

  /** A rendezvous step neither loses nor invents a signaling value: every
      value that was pending is afterwards either still pending or applied. */
  lemma RendezvousConserves(s: Slots, state: PeerState)
    ensures var r := Rendezvous(s, state); PendingValues(r.slots) + Applied(r.calls) == PendingValues(s)
  {
    var r := Rendezvous(s, state);
    if |r.calls| == 2 {
      assert r.calls[1..] == [r.calls[1]];
      assert Applied(r.calls[1..][1..]) == multiset{};
    } else if |r.calls| == 1 {
      assert Applied(r.calls[1..]) == multiset{};
    }
  }

  /** A second rendezvous straight after one that applied something does
      nothing: the description slot is empty. */
  lemma RendezvousSettles(s: Slots, state: PeerState)
    requires Rendezvous(s, state).calls != []
    ensures Rendezvous(Rendezvous(s, state).slots, state).calls == []
  {
  }

  /** With no pending description, a candidate stays parked whatever the
      connection state; no engine call is made. */
  lemma CandidateAloneWaits(candidate: string, state: PeerState)
    ensures Rendezvous(Slots(None, Some(candidate)), state) == Step(Slots(None, Some(candidate)), [])
  {
  }
}
