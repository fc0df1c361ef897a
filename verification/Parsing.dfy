/** The session refuses exactly the packets the parsers of the codec reject. */
module Parsing {
  import opened Bytes
  import opened Session
  import opened Operations
  import opened Packets
  import opened StoredBytes

  /** An acknowledgement with only a packet id. */
  lemma {:induction false} AckRefused(id: u16)
    ensures Refused(Packet.Puback(id)) <==> DeserializeSimpleAck(TYPE_PUBACK, U16Bytes(id)).Err?
    ensures Refused(Packet.Pubrec(id)) <==> DeserializeSimpleAck(TYPE_PUBREC, U16Bytes(id)).Err?
    ensures Refused(Packet.Pubrel(id)) <==> DeserializeSimpleAck(TYPE_PUBREL, U16Bytes(id)).Err?
    ensures Refused(Packet.Pubcomp(id)) <==> DeserializeSimpleAck(TYPE_PUBCOMP, U16Bytes(id)).Err?
    ensures Refused(Packet.Unsuback(id)) <==> DeserializeSimpleAck(TYPE_UNSUBACK, U16Bytes(id)).Err?
  {
    U16RoundTrip(id, []);
    assert U16Bytes(id) + [] == U16Bytes(id);
  }

  /** A SUBACK. */
  lemma {:induction false} SubackRefused(id: u16, codes: seq<byte>)
    ensures Refused(Packet.Suback(id, codes)) <==> !SubackParses(U16Bytes(id) + codes)
  {
    U16RoundTrip(id, codes);
    assert (U16Bytes(id) + codes)[2..] == codes;
  }

  /** A PUBLISH with a topic: its bytes are parsed into its fields, or rejected for the packet id 0. */
  lemma {:induction false} PublishRefused(p: Packet, contents: Contents)
    requires p.Publish? && 0 < |p.topic| <= U16_MAX && (p.qos == 0 ==> p.id == 0 && !p.dup)
    ensures var info := InfoOf(p, contents);
            DeserializePublish(PublishType(info), PublishBody(info, p.id)) ==
            if Refused(p) then Err(BadResponse) else Ok((info, p.id))
  {
    var info := InfoOf(p, contents);
    if Refused(p) {
      NoIdRejected(info);
    } else {
      PublishRoundTrip(info, p.id);
    }
  }

  lemma {:induction false} NoIdRejected(info: PublishInfo)
    requires 0 < |info.topic| <= U16_MAX && info.qos > 0
    ensures DeserializePublish(PublishType(info), PublishBody(info, 0)) == Err(BadResponse)
  {
    PublishTypeFlags(info);
    var data, n := PublishBody(info, 0), |info.topic|;
    FourParts(U16Bytes(n), info.topic, U16Bytes(0), info.payload);
    U16RoundTrip(n, info.topic + U16Bytes(0) + info.payload);
    U16RoundTrip(0, info.payload);
    assert data[2 + n..] == U16Bytes(0) + info.payload;
    hide PublishType, PublishFlags;
  }

  /** A refused packet changes nothing. */
  lemma {:induction false} RefusedIgnored(s: State, p: Packet, now: u32, memory: nat, outcome: SendOutcome)
    requires Refused(p)
    ensures Perform(s, Handle(p, now, memory, outcome)) == s
  {
  }
}
