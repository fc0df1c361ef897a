/** The QoS 2 handshake for one packet id, seen from outside both ends (section 4.3.3 of MQTT 3.1.1). The same
    relation serves messages in both directions. */
module Handshake {
  import opened Bytes
  import opened Session

  /** The sender's side: nothing in flight, PUBREC awaited, PUBCOMP awaited. */
  datatype Phase = Idle | Sending(body: nat) | Releasing(body: nat)

  /** One id: the sender's phase, whether the receiver remembers the id, the packets under way each way, and whether
      the receiver took the sender's current message over. */
  datatype Link = Link(phase: Phase, marked: bool, fwd: seq<Packet>, back: seq<Packet>, accepted: bool)

  predicate IsMessage(p: Packet, id: u16) {
    p.Publish? && p.qos == 2 && p.id == id
  }

  predicate NoMessage(s: seq<Packet>, id: u16) {
    forall p | p in s :: !IsMessage(p, id)
  }

  predicate Carries(s: seq<Packet>, id: u16, body: nat) {
    forall p | p in s && IsMessage(p, id) :: p.body == body
  }

  predicate NotAfter(s: seq<Packet>, late: Packet, early: Packet) {
    forall i, j | 0 <= i < j < |s| && s[i] == early :: s[j] != late
  }

  predicate NoMessageAfterPubrel(s: seq<Packet>, id: u16) {
    forall i, j | 0 <= i < j < |s| && s[i] == Packet.Pubrel(id) :: !IsMessage(s[j], id)
  }

  predicate NoPubrelAfterMessage(s: seq<Packet>, id: u16) {
    forall i, j | 0 <= i < j < |s| && IsMessage(s[i], id) :: s[j] != Packet.Pubrel(id)
  }

  /** What holds between the two ends and the packets under way, whatever was lost or repeated. */
  predicate Consistent(id: u16, l: Link) {
    match l.phase
    case Idle => !l.marked && Packet.Pubrec(id) !in l.back && NoMessage(l.fwd, id)
    case Sending(b) =>
      && Carries(l.fwd, id, b) && l.accepted == l.marked
      && if l.marked then Packet.Pubrel(id) !in l.fwd && NotAfter(l.back, Packet.Pubcomp(id), Packet.Pubrec(id))
         else Packet.Pubrec(id) !in l.back && NoPubrelAfterMessage(l.fwd, id)
    case Releasing(b) =>
      && Carries(l.fwd, id, b) && l.accepted
      && if l.marked then Packet.Pubcomp(id) !in l.back && NoMessageAfterPubrel(l.fwd, id)
         else NoMessage(l.fwd, id) && NotAfter(l.back, Packet.Pubrec(id), Packet.Pubcomp(id))
  }

  /** What the sender may put under way. */
  predicate MaySend(id: u16, phase: Phase, p: Packet) {
    && (IsMessage(p, id) ==> phase == Sending(p.body))
    && (p == Packet.Pubrel(id) ==> phase.Releasing?)
  }

  /** What the receiver may put under way. */
  predicate MayReply(id: u16, marked: bool, p: Packet) {
    && (p == Packet.Pubrec(id) ==> marked)
    && (p == Packet.Pubcomp(id) ==> !marked)
  }

  lemma {:induction false} NotAfterAppend(s: seq<Packet>, more: seq<Packet>, late: Packet, early: Packet)
    requires NotAfter(s, late, early) && late !in more
    ensures NotAfter(s + more, late, early)
  {
  }

  lemma {:induction false} MessageOrderAppend(id: u16, s: seq<Packet>, more: seq<Packet>)
    ensures NoMessageAfterPubrel(s, id) && NoMessage(more, id) ==> NoMessageAfterPubrel(s + more, id)
    ensures NoPubrelAfterMessage(s, id) && Packet.Pubrel(id) !in more ==> NoPubrelAfterMessage(s + more, id)
  {
  }

  lemma {:induction false} SenderAdds(id: u16, l: Link, more: seq<Packet>)
    requires Consistent(id, l) && forall p | p in more :: MaySend(id, l.phase, p)
    ensures Consistent(id, l.(fwd := l.fwd + more))
  {
    MessageOrderAppend(id, l.fwd, more);
  }

  lemma {:induction false} ReceiverAdds(id: u16, l: Link, more: seq<Packet>)
    requires Consistent(id, l) && forall p | p in more :: MayReply(id, l.marked, p)
    ensures Consistent(id, l.(back := l.back + more))
  {
    if l.phase.Sending? && l.marked {
      NotAfterAppend(l.back, more, Packet.Pubcomp(id), Packet.Pubrec(id));
    } else if l.phase.Releasing? && !l.marked {
      NotAfterAppend(l.back, more, Packet.Pubrec(id), Packet.Pubcomp(id));
    }
  }

  /** Packets leave from the front, by arriving or by being lost. */
  lemma {:induction false} FrontLeaves(id: u16, l: Link, f: nat, b: nat)
    requires Consistent(id, l) && f <= |l.fwd| && b <= |l.back|
    ensures Consistent(id, l.(fwd := l.fwd[f..], back := l.back[b..]))
  {
  }

  /** Both ends start afresh over empty channels. */
  lemma {:induction false} Afresh(id: u16, l: Link)
    requires l.phase == Idle && !l.marked && l.fwd == [] && l.back == []
    ensures Consistent(id, l)
  {
  }

  /** The sender takes up a message the receiver has not seen. */
  lemma {:induction false} Starts(id: u16, l: Link, body: nat)
    requires Consistent(id, l) && l.phase == Idle
    ensures Consistent(id, l.(phase := Sending(body), accepted := false))
  {
  }

  /** A message arrives where its id is not remembered: it must be the sender's current one, and is new. */
  lemma {:induction false} MessageArrives(id: u16, l: Link)
    requires Consistent(id, l) && l.fwd != [] && IsMessage(l.fwd[0], id) && !l.marked
    ensures l.phase == Sending(l.fwd[0].body) && !l.accepted
    ensures Consistent(id, l.(fwd := l.fwd[1..], marked := true, accepted := true))
  {
  }

  /** PUBREL arrives: the receiver forgets the id. */
  lemma {:induction false} PubrelArrives(id: u16, l: Link)
    requires Consistent(id, l) && l.fwd != [] && l.fwd[0] == Packet.Pubrel(id)
    ensures Consistent(id, l.(fwd := l.fwd[1..], marked := false))
  {
  }

  /** PUBREC arrives: the sender holds the message it answers. */
  lemma {:induction false} PubrecArrives(id: u16, l: Link)
    requires Consistent(id, l) && l.back != [] && l.back[0] == Packet.Pubrec(id)
    ensures l.phase != Idle && l.accepted
    ensures Consistent(id, l.(back := l.back[1..], phase := Releasing(l.phase.body)))
  {
  }

  /** PUBCOMP arrives at a sender that waits for it: the message was taken over. */
  lemma {:induction false} PubcompArrives(id: u16, l: Link)
    requires Consistent(id, l) && l.back != [] && l.back[0] == Packet.Pubcomp(id) && l.phase.Releasing?
    ensures l.accepted
    ensures Consistent(id, l.(back := l.back[1..], phase := Idle))
  {
  }

  /** A sender whose message was never put under way may drop it. */
  lemma {:induction false} Withdraws(id: u16, l: Link)
    requires Consistent(id, l) && l.phase.Sending? && NoMessage(l.fwd, id) && !l.accepted
    ensures Consistent(id, l.(phase := Idle))
  {
  }
}
