/** The packets in numbers, byte by byte as section 2 and 3 of MQTT 3.1.1 print them. */
module Octets {
  import opened Bytes
  import opened RemainingLength
  import opened Packets
  import opened RequestPackets

  /** Two bytes, the high one first (section 1.5.2). */
  lemma {:induction false} HighFirst(x: u16)
    ensures U16Bytes(x) == [x / 256, x % 256]
  {
  }

  /** The ends of the four lengths an encoding can have (table 2.4). */
  lemma {:induction false} LengthTable()
    ensures Encode(0) == [0] && Encode(127) == [0x7F]
    ensures Encode(128) == [0x80, 0x01] && Encode(16383) == [0xFF, 0x7F]
    ensures Encode(16384) == [0x80, 0x80, 0x01] && Encode(2097151) == [0xFF, 0xFF, 0x7F]
    ensures Encode(2097152) == [0x80, 0x80, 0x80, 0x01] && Encode(268435455) == [0xFF, 0xFF, 0xFF, 0x7F]
    ensures MAX_REMAINING_LENGTH == 268435455
  {
    assert Encode(1) == [1] && Encode(127) == [127];
    assert Encode(128) == [128] + Encode(1) && Encode(16383) == [255] + Encode(127);
    assert Encode(16384) == [128] + Encode(128) && Encode(2097151) == [255] + Encode(16383);
    assert Encode(2097152) == [128] + Encode(16384) && Encode(268435455) == [255] + Encode(2097151);
  }

  /** The first byte of a PUBLISH: type 3 in the high half, then DUP, two bits of QoS, RETAIN (section 3.3.1). */
  lemma {:induction false} PublishFirst(info: PublishInfo, id: u16)
    requires |info.topic| <= U16_MAX
    ensures PublishBytes(info, id)[0] ==
            0x30 + (if info.dup then 8 else 0) + 2 * info.qos + if info.retain then 1 else 0
  {
    PublishTypeFlags(info);
    hide PublishBody, Encode;
  }

  /** What follows the length: topic with its length, id at QoS 1 and 2, payload. */
  lemma {:induction false} PublishRest(info: PublishInfo, id: u16)
    requires |info.topic| <= U16_MAX
    ensures PublishBody(info, id) ==
            [|info.topic| / 256, |info.topic| % 256] + info.topic + (if info.qos == 0 then [] else [id / 256, id % 256])
            + info.payload
  {
    HighFirst(id);
  }

  /** The acknowledgements (sections 3.4 to 3.7). */
  lemma {:induction false} AckOctets(id: u16)
    ensures AckBytes(TYPE_PUBACK, id) == [0x40, 2, id / 256, id % 256]
    ensures AckBytes(TYPE_PUBREC, id) == [0x50, 2, id / 256, id % 256]
    ensures AckBytes(TYPE_PUBREL, id) == [0x62, 2, id / 256, id % 256]
    ensures AckBytes(TYPE_PUBCOMP, id) == [0x70, 2, id / 256, id % 256]
  {
    HighFirst(id);
    assert Encode(2) == [2];
  }

  /** SUBSCRIBE and UNSUBSCRIBE: first byte, packet id, and one filter after the other, each with its length and, in a
      SUBSCRIBE, its QoS (sections 3.8 and 3.10). */
  lemma {:induction false} RequestOctets(subs: seq<Subscription>, withQos: bool, id: u16)
    requires Lengths(subs)
    ensures RequestBytes(subs, withQos, id)[0] == if withQos then 0x82 else 0xA2
    ensures RequestBody(subs, withQos, id)[..2] == [id / 256, id % 256]
    ensures RequestBody(subs, withQos, id)[2..] == Payload(subs, withQos)
    ensures subs != [] ==>
              var s := subs[0];
              Payload(subs, withQos) ==
              [|s.filter| / 256, |s.filter| % 256] + s.filter + (if withQos then [s.qos] else []) + Payload(subs[1..], withQos)
  {
    HighFirst(id);
    hide Encode;
  }

  /** CONNECT: its first byte, the protocol name and level, the flags by their bits, the keep alive (section 3.1). */
  lemma {:induction false} ConnectOctets(c: Connect)
    requires Representable(c) && Connectable(c)
    ensures ConnectBytes(c)[0] == 0x10
    ensures ConnectBody(c)[..7] == [0, 4, 0x4D, 0x51, 0x54, 0x54, 4]
    ensures ConnectBody(c)[8..10] == [c.keepAlive / 256, c.keepAlive % 256]
    ensures var f := ConnectBody(c)[7];
            && f % 2 == 0 && (f / 2 % 2 == 1 <==> c.cleanSession) && (f / 4 % 2 == 1 <==> c.will.Some?)
            && (f / 64 % 2 == 1 <==> c.password.Some?) && (f / 128 == 1 <==> c.userName.Some?)
            && f / 8 % 4 == (if c.will.Some? then c.will.value.qos else 0)
            && (f / 32 % 2 == 1 <==> c.will.Some? && c.will.value.retain)
  {
    var header := ConnectHeader(c);
    ConnectSplit(c);
    assert header == [0, 4, 0x4D, 0x51, 0x54, 0x54, 4, ConnectFlags(c), c.keepAlive / 256, c.keepAlive % 256];
    assert ConnectBody(c)[..10] == header;
    assert ConnectBody(c)[..7] == header[..7] && ConnectBody(c)[7] == header[7] && ConnectBody(c)[8..10] == header[8..10];
    hide ConnectBody, ConnectHeader, Encode;
    var clean, will, qos := if c.cleanSession then 1 else 0, if c.will.Some? then 1 else 0,
                            if c.will.Some? then c.will.value.qos else 0;
    var retain, password, user := if c.will.Some? && c.will.value.retain then 1 else 0,
                                  if c.password.Some? then 1 else 0, if c.userName.Some? then 1 else 0;
    assert ConnectFlags(c) == 2 * clean + 4 * will + 8 * qos + 32 * retain + 64 * password + 128 * user;
    BitsRead(clean, will, qos, retain, password, user);
  }
}
