/** The stored packets as bytes. A node keeps the length of its packet in 16 bits, and that many bytes are what the
    first send and every repeat put on the wire. */
module StoredBytes {
  import opened Bytes
  import opened RemainingLength
  import opened Session
  import opened Operations
  import opened Effects
  import opened Ledger
  import opened Packets
  import Framing

  /** The rest of a publish: its retain flag and its payload, by its number. */
  datatype Content = Content(retain: bool, payload: seq<byte>)

  type Contents = nat -> Content

  function TopicBytes(topic: string): (b: seq<byte>)
    ensures |b| == |topic|
  {
    seq(|topic|, (k: nat) requires k < |topic| => topic[k] as int % 0x100)
  }

  /** The packets nodes store: publishes, whose topic length the call takes in 16 bits, and two acknowledgements. */
  predicate Storable(p: Packet) {
    (p.Publish? && |p.topic| <= U16_MAX) || p.Pubrec? || p.Pubrel?
  }

  function InfoOf(p: Packet, contents: Contents): PublishInfo
    requires p.Publish?
  {
    PublishInfo(p.qos, contents(p.body).retain, p.dup, TopicBytes(p.topic), contents(p.body).payload)
  }

  /** The bytes in the node's buffer. */
  function PacketBytes(p: Packet, contents: Contents): seq<byte>
    requires Storable(p)
  {
    match p
    case Publish(_, _, id, _, _) => PublishBytes(InfoOf(p, contents), id)
    case Pubrec(id) => AckBytes(TYPE_PUBREC, id)
    case Pubrel(id) => AckBytes(TYPE_PUBREL, id)
  }

  /** The `packetLen` RyanMqttAckHandlerCreate is given for a buffer. */
  function PacketLen(bytes: seq<byte>): u16 {
    |bytes| % 0x1_0000
  }

  /** What every send of a node puts on the wire. */
  function Outgoing(bytes: seq<byte>): seq<byte> {
    bytes[..PacketLen(bytes)]
  }

  lemma {:induction false} OutgoingWhole(bytes: seq<byte>)
    ensures Outgoing(bytes) == bytes <==> |bytes| <= U16_MAX
    ensures Outgoing(bytes) <= bytes
  {
  }

  lemma {:induction false} AcksShort(packetType: byte, id: u16)
    ensures |AckBytes(packetType, id)| == 4
  {
    assert Encode(2) == [2];
  }

  /** Repeating a node changes the DUP bit of a PUBLISH and no other byte. */
  lemma {:induction false} OnlyDupChanges(p: Packet, contents: Contents)
    requires Storable(p)
    ensures var before, after := PacketBytes(p, contents), PacketBytes(WithDup(p), contents);
            && |before| > 0 && |Outgoing(after)| == |Outgoing(before)|
            && if p.Publish? then after == [SetBit(before[0], FLAG_DUP)] + before[1..] else after == before
  {
    if p.Publish? {
      var info := InfoOf(p, contents);
      DupFlag(info);
      assert InfoOf(WithDup(p), contents) == info.(dup := true);
      assert PublishBody(info.(dup := true), p.id) == PublishBody(info, p.id);
      hide PublishBody, Encode;
      var rest := Encode(|PublishBody(info, p.id)|) + PublishBody(info, p.id);
      assert PublishBytes(info, p.id) == [PublishType(info)] + rest;
      assert PublishBytes(info.(dup := true), p.id) == [PublishType(info.(dup := true))] + rest;
    }
  }

  /** A prefix of a packet is no packet to the reader at the other end: it waits for the rest. */
  lemma {:induction false} CutIsNoPacket(packetType: byte, body: seq<byte>, k: nat)
    requires Framing.IncomingTypeValid(packetType) && |body| <= MAX_REMAINING_LENGTH && k < |Framed(packetType, body)|
    ensures Framing.ReadPacket(Framed(packetType, body)[..k], true).result == Framing.TimedOut
  {
    var n, whole := |body|, Framed(packetType, body);
    var cut := whole[..k];
    EncodedSizeCorrect(n);
    assert whole[1..] == Encode(n) + body;
    if n < 128 {
      assert k >= 2 ==> cut[1] == whole[1] == n;
    } else {
      Framing.OverReadStaysInside(n);
      assert whole[1] == Encode(n)[0] >= 128;
      if k >= 5 {
        var more := body[..4 - EncodedSize(n)];
        assert cut[1..5] == whole[1..][..4] == Encode(n) + more;
        DecodeEncode(n, more);
      }
    }
  }

  /** In every run: what a node sends, first and every time again, is its packet exactly if the packet has at most
      65535 bytes. Its packet is the QoS 1 or 2 PUBLISH with its id, topic and payload, with DUP once repeated; or the
      PUBREL or PUBREC of its id, which always fits. */
  lemma {:induction false} StoredWhole(config: Config, ops: seq<Op>, contents: Contents, n: AckNode)
    requires n in After(config, ops).acks || n in After(config, ops).userAcks
    requires Resendable(n.kind) && |n.msg.topic| <= U16_MAX
    ensures n.packet.Some? && Storable(n.packet.value)
    ensures var bytes := PacketBytes(n.packet.value, contents);
            && (Outgoing(bytes) == bytes <==> |bytes| <= U16_MAX)
            && (n.kind == PUBREL ==> Outgoing(bytes) == AckBytes(TYPE_PUBREC, n.id))
            && (n.kind == PUBCOMP ==> Outgoing(bytes) == AckBytes(TYPE_PUBREL, n.id))
            && (n.kind == PUBACK || n.kind == PUBREC ==>
                  exists info: PublishInfo ::
                    && info.qos == (if n.kind == PUBACK then 1 else 2) && info.topic == TopicBytes(n.msg.topic)
                    && info.payload == contents(n.msg.userData).payload && info.retain == contents(n.msg.userData).retain
                    && (n.repeatCount > 0 ==> info.dup) && bytes == PublishBytes(info, n.id))
  {
    StoredPackets(config, ops);
    assert NodeOk(n);
    var p := n.packet.value;
    OutgoingWhole(PacketBytes(p, contents));
    AcksShort(TYPE_PUBREC, n.id);
    AcksShort(TYPE_PUBREL, n.id);
    hide PublishBytes, After;
    if p.Publish? {
      var info := InfoOf(p, contents);
      assert PacketBytes(p, contents) == PublishBytes(info, n.id);
    }
  }

  /** Where the packet is longer, what goes out is no packet: the broker waits for bytes that never come. */
  lemma {:induction false} LongIsCut(info: PublishInfo, id: u16)
    requires |info.topic| <= U16_MAX && U16_MAX < |PublishBytes(info, id)| <= MAX_REMAINING_LENGTH
    ensures Framing.ReadPacket(Outgoing(PublishBytes(info, id)), true).result == Framing.TimedOut
  {
    PublishTypeFlags(info);
    var bytes := PublishBytes(info, id);
    hide PublishBody, PublishType;
    CutIsNoPacket(PublishType(info), PublishBody(info, id), PacketLen(bytes));
  }

  /** A QoS 1 publish of 65527 bytes under a topic of one: its packet has 65536 bytes, and none of them goes out. */
  lemma {:induction false} NothingSent(id: u16)
    ensures var info := PublishInfo(1, false, false, [0x74], seq(65527, _ => 0));
            |PublishBytes(info, id)| == 65536 && Outgoing(PublishBytes(info, id)) == []
  {
    var info := PublishInfo(1, false, false, [0x74], seq(65527, _ => 0));
    assert |PublishBody(info, id)| == 65532;
    EncodedSizeCorrect(65532);
  }
}
