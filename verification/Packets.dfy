/** PUBLISH and acknowledgement packets: sizes, serialisers and parsers of core_mqtt_serializer.c. */
module Packets {
  import opened Bytes
  import opened Common
  import opened RemainingLength

  const TYPE_CONNECT: byte := 0x10
  const TYPE_CONNACK: byte := 0x20
  const TYPE_PUBLISH: byte := 0x30
  const TYPE_PUBACK: byte := 0x40
  const TYPE_PUBREC: byte := 0x50
  const TYPE_PUBREL: byte := 0x62
  const TYPE_PUBCOMP: byte := 0x70
  const TYPE_SUBSCRIBE: byte := 0x82
  const TYPE_SUBACK: byte := 0x90
  const TYPE_UNSUBSCRIBE: byte := 0xA2
  const TYPE_UNSUBACK: byte := 0xB0
  const TYPE_PINGRESP: byte := 0xD0

  // MQTT_PUBLISH_FLAG_*, by weight
  const FLAG_RETAIN: nat := 1
  const FLAG_QOS1: nat := 2
  const FLAG_QOS2: nat := 4
  const FLAG_DUP: nat := 8

  datatype Status = Success | BadParameter | NoMemory | BadResponse | ServerRefused

  datatype Result<T> = Ok(value: T) | Err(status: Status)

  /** MQTTPublishInfo_t; an absent payload is the empty one. */
  datatype PublishInfo = PublishInfo(qos: QoS, retain: bool, dup: bool, topic: seq<byte>, payload: seq<byte>)

  /** The flag byte that serializePublishCommon builds. */
  function PublishType(info: PublishInfo): byte {
    var withQos := if info.qos == 1 then SetBit(TYPE_PUBLISH, FLAG_QOS1)
                   else if info.qos == 2 then SetBit(TYPE_PUBLISH, FLAG_QOS2)
                   else TYPE_PUBLISH;
    var withRetain := if info.retain then SetBit(withQos, FLAG_RETAIN) else withQos;
    if info.dup then SetBit(withRetain, FLAG_DUP) else withRetain
  }

  function IdBytes(qos: QoS, id: u16): seq<byte> {
    if qos > 0 then U16Bytes(id) else []
  }

  /** Section 3.3: variable header and payload of a PUBLISH. */
  function PublishBody(info: PublishInfo, id: u16): seq<byte>
    requires |info.topic| <= U16_MAX
  {
    U16Bytes(|info.topic|) + info.topic + IdBytes(info.qos, id) + info.payload
  }

  function PublishRemaining(info: PublishInfo): nat {
    2 + |info.topic| + (if info.qos > 0 then 2 else 0) + |info.payload|
  }

  /** Any packet: type byte, remaining length, the rest. */
  function Framed(packetType: byte, body: seq<byte>): seq<byte> {
    [packetType] + Encode(|body|) + body
  }

  function PublishBytes(info: PublishInfo, id: u16): seq<byte>
    requires |info.topic| <= U16_MAX
  {
    Framed(PublishType(info), PublishBody(info, id))
  }

  /** calculatePublishPacketSize. A PUBLISH passes exactly when its whole packet fits the limit, and then the
      sizes given are those of the bytes that will be written. */
  method CalculatePublishPacketSize(info: PublishInfo, ghost id: u16)
    returns (status: bool, remainingLength: nat, packetSize: nat)
    requires |info.topic| <= U16_MAX
    ensures status <==> |PublishBytes(info, id)| <= MAX_REMAINING_LENGTH
    ensures status ==> remainingLength == |PublishBody(info, id)| && packetSize == |PublishBytes(info, id)|
  {
    ghost var body := PublishBody(info, id);
    if |body| <= MAX_REMAINING_LENGTH {
      EncodedSizeCorrect(|body|);
    }
    status, remainingLength := true, 0;
    packetSize := |info.topic| + 2;
    if info.qos > 0 {
      packetSize := packetSize + 2;
    }
    var payloadLimit := MAX_REMAINING_LENGTH - packetSize - 1;
    if |info.payload| > payloadLimit {
      status := false;
    } else {
      packetSize := packetSize + |info.payload|;
      payloadLimit := payloadLimit - EncodedSize(packetSize);
      if |info.payload| > payloadLimit {
        status := false;
      } else {
        remainingLength := packetSize;
        packetSize := packetSize + 1 + EncodedSize(packetSize);
      }
    }
  }

  /** Writes `data` at `at`; the C code's byte copies and memcpy calls. */
  method Put(buffer: array<byte>, at: nat, data: seq<byte>) returns (end: nat)
    requires at + |data| <= buffer.Length
    modifies buffer
    ensures end == at + |data|
    ensures buffer[..end] == old(buffer[..at]) + data
    ensures forall k | end <= k < buffer.Length :: buffer[k] == old(buffer[k])
  {
    ghost var before := buffer[..];
    end := at;
    while end < at + |data|
      invariant at <= end <= at + |data|
      invariant forall k | 0 <= k < buffer.Length ::
                  buffer[k] == if at <= k < end then data[k - at] else before[k]
    {
      buffer[end] := data[end - at];
      end := end + 1;
    }
    assert buffer[..end] == before[..at] + data;
  }

  /** encodeString */
  method EncodeString(buffer: array<byte>, at: nat, s: seq<byte>) returns (end: nat)
    requires |s| <= U16_MAX && at + 2 + |s| <= buffer.Length
    modifies buffer
    ensures end == at + 2 + |s|
    ensures buffer[..end] == old(buffer[..at]) + U16Bytes(|s|) + s
    ensures forall k | end <= k < buffer.Length :: buffer[k] == old(buffer[k])
  {
    end := Put(buffer, at, U16Bytes(|s|));
    end := Put(buffer, end, s);
  }

  /** MQTT_SerializePublish: the checks in the order of the source, then serializePublishCommon. */
  method SerializePublish(info: PublishInfo, id: u16, remainingLength: nat, buffer: array<byte>)
    returns (status: Status)
    requires |info.topic| <= U16_MAX
    requires remainingLength == PublishRemaining(info) <= MAX_REMAINING_LENGTH
    modifies buffer
    ensures status.Success? <==>
              && info.topic != [] && (info.qos > 0 ==> id != 0) && (info.dup ==> info.qos > 0)
              && |PublishBytes(info, id)| <= buffer.Length
    ensures status.Success? ==>
              buffer[..] == PublishBytes(info, id) + old(buffer[|PublishBytes(info, id)|..])
    ensures !status.Success? ==> buffer[..] == old(buffer[..])
  {
    ghost var before, bytes := buffer[..], PublishBytes(info, id);
    EncodedSizeCorrect(remainingLength);
    var packetSize := 0;
    status := Success;
    if info.topic == [] {
      status := BadParameter;
    } else if info.qos != 0 && id == 0 {
      status := BadParameter;
    } else if info.dup && info.qos == 0 {
      status := BadParameter;
    } else {
      packetSize := 1 + EncodedSize(remainingLength) + remainingLength;
    }
    if status == Success && packetSize > buffer.Length {
      status := NoMemory;
    }
    if status == Success {
      var end := SerializePublishCommon(info, id, remainingLength, buffer);
      assert buffer[..] == buffer[..end] + before[end..];
    }
  }

  /** serializePublishCommon with the payload: returns the index after the last byte. */
  method SerializePublishCommon(info: PublishInfo, id: u16, remainingLength: nat, buffer: array<byte>)
    returns (end: nat)
    requires |info.topic| <= U16_MAX && remainingLength == PublishRemaining(info)
    requires |PublishBytes(info, id)| <= buffer.Length
    modifies buffer
    ensures end == |PublishBytes(info, id)| && buffer[..end] == PublishBytes(info, id)
    ensures forall k | end <= k < buffer.Length :: buffer[k] == old(buffer[k])
  {
    ghost var body := PublishBody(info, id);
    ghost var header := [PublishType(info)] + Encode(remainingLength);
    assert PublishBytes(info, id) == header + body;
    end := Put(buffer, 0, [PublishType(info)]);
    end := EncodeRemainingLength(buffer, end, remainingLength);
    assert buffer[..end] == header;
    end := SerializePublishBody(info, id, buffer, end);
  }

  method SerializePublishBody(info: PublishInfo, id: u16, buffer: array<byte>, at: nat) returns (end: nat)
    requires |info.topic| <= U16_MAX
    requires at + |PublishBody(info, id)| <= buffer.Length
    modifies buffer
    ensures end == at + |PublishBody(info, id)|
    ensures buffer[..end] == old(buffer[..at]) + PublishBody(info, id)
    ensures forall k | end <= k < buffer.Length :: buffer[k] == old(buffer[k])
  {
    ghost var start := buffer[..at];
    end := EncodeString(buffer, at, info.topic);
    if info.qos > 0 {
      end := Put(buffer, end, U16Bytes(id));
    }
    assert buffer[..end] == start + (U16Bytes(|info.topic|) + info.topic + IdBytes(info.qos, id));
    if |info.payload| > 0 {
      end := Put(buffer, end, info.payload);
    }
    assert buffer[..end] == start + PublishBody(info, id);
  }

  /** processPublishFlags of the low four bits. */
  function PublishFlags(flags: byte): (r: Result<(QoS, bool, bool)>)
  {
    if CheckBit(flags, FLAG_QOS2) && CheckBit(flags, FLAG_QOS1) then Err(BadResponse)
    else
      var qos := if CheckBit(flags, FLAG_QOS2) then 2 else if CheckBit(flags, FLAG_QOS1) then 1 else 0;
      Ok((qos, CheckBit(flags, FLAG_RETAIN), CheckBit(flags, FLAG_DUP)))
  }

  /** checkPublishRemainingLength */
  predicate PublishLengthOk(remainingLength: nat, qos: QoS, qos0Minimum: nat) {
    if qos == 0 then remainingLength >= qos0Minimum else remainingLength >= qos0Minimum + 2
  }

  /** MQTT_DeserializePublish: the fields and the packet id (0 at QoS 0). */
  function DeserializePublish(packetType: byte, data: seq<byte>): (r: Result<(PublishInfo, u16)>)
  {
    if packetType / 16 * 16 != TYPE_PUBLISH then Err(BadParameter)
    else
      var flags := PublishFlags(packetType % 16);
      if flags.Err? then Err(flags.status)
      else
        var (qos, retain, dup) := flags.value;
        if !PublishLengthOk(|data|, qos, 3) then Err(BadResponse)
        else
          var topicLength := DecodeU16(data);
          if !PublishLengthOk(|data|, qos, topicLength + 2) then Err(BadResponse)
          else
            var topic, rest := data[2..2 + topicLength], data[2 + topicLength..];
            if qos == 0 then Ok((PublishInfo(qos, retain, dup, topic, rest), 0))
            else if DecodeU16(rest) == 0 then Err(BadResponse)
            else Ok((PublishInfo(qos, retain, dup, topic, rest[2..]), DecodeU16(rest)))
  }

  /** What the serialiser accepts. */
  predicate Publishable(info: PublishInfo, id: u16) {
    && 0 < |info.topic| <= U16_MAX
    && (if info.qos > 0 then id != 0 else id == 0 && !info.dup)
  }

  lemma {:induction false} PublishTypeFlags(info: PublishInfo)
    ensures PublishType(info) / 16 * 16 == TYPE_PUBLISH
    ensures PublishFlags(PublishType(info) % 16) == Ok((info.qos, info.retain, info.dup))
    ensures PublishType(info) % 8 / 2 != 3
  {
    var flags := 2 * info.qos + (if info.retain then 1 else 0) + if info.dup then 8 else 0;
    assert PublishType(info) == TYPE_PUBLISH + flags;
    hide PublishType;
  }

  lemma {:induction false} FlagsDetermineType(packetType: byte)
    requires packetType / 16 * 16 == TYPE_PUBLISH && PublishFlags(packetType % 16).Ok?
    ensures var (qos, retain, dup) := PublishFlags(packetType % 16).value;
            forall topic, payload :: PublishType(PublishInfo(qos, retain, dup, topic, payload)) == packetType
  {
  }

  lemma {:induction false} FourParts(a: seq<byte>, b: seq<byte>, c: seq<byte>, d: seq<byte>)
    ensures a + b + c + d == a + (b + c + d)
    ensures (a + b + c + d)[|a|..|a| + |b|] == b && (a + b + c + d)[|a| + |b|..] == c + d
  {
  }

  /** Serialise then parse: the same fields. */
  lemma {:induction false} PublishRoundTrip(info: PublishInfo, id: u16)
    requires Publishable(info, id)
    ensures DeserializePublish(PublishType(info), PublishBody(info, id)) == Ok((info, id))
  {
    PublishTypeFlags(info);
    var data, n, ids := PublishBody(info, id), |info.topic|, IdBytes(info.qos, id);
    FourParts(U16Bytes(n), info.topic, ids, info.payload);
    U16RoundTrip(n, info.topic + ids + info.payload);
    var rest := data[2 + n..];
    assert rest == ids + info.payload;
    if info.qos > 0 {
      U16RoundTrip(id, info.payload);
      assert rest[2..] == info.payload;
    } else {
      assert rest == info.payload;
    }
    hide PublishType, PublishFlags, PublishBody;
  }

  /** The first two bytes, the next `n`, the rest. */
  lemma {:induction false} ThreeParts(data: seq<byte>, n: nat)
    requires 2 + n <= |data|
    ensures data == U16Bytes(DecodeU16(data)) + data[2..2 + n] + data[2 + n..]
  {
    U16Partition(data);
    assert data == data[..2] + data[2..2 + n] + data[2 + n..];
  }

  /** Parse then serialise: whatever parses is the body its fields serialise to, under the same type byte; so the
      fields partition the data. Only an empty topic or DUP at QoS 0 parses without being serialisable. */
  lemma {:induction false} PublishParsePartition(packetType: byte, data: seq<byte>, info: PublishInfo, id: u16)
    requires DeserializePublish(packetType, data) == Ok((info, id))
    ensures |info.topic| <= U16_MAX
    ensures PublishBytes(info, id) == Framed(packetType, data)
    ensures Publishable(info, id) <==> info.topic != [] && (info.dup ==> info.qos > 0)
  {
    FlagsDetermineType(packetType);
    var n := DecodeU16(data);
    ThreeParts(data, n);
    var rest := data[2 + n..];
    if info.qos > 0 {
      assert DecodeU16(rest) == id && info.payload == rest[2..];
      ThreeParts(rest, 0);
      assert rest[2..2] == [] && U16Bytes(id) + [] == U16Bytes(id);
    } else {
      assert IdBytes(info.qos, id) == [] && [] + rest == rest;
    }
    assert rest == IdBytes(info.qos, id) + info.payload;
    hide DeserializePublish, PublishFlags, PublishType;
    Assoc(U16Bytes(n) + info.topic, IdBytes(info.qos, id), info.payload);
    assert data == PublishBody(info, id);
  }

  /** MQTT_UpdateDuplicatePublishFlag with `set` true. */
  method UpdateDuplicatePublishFlag(header: array<byte>) returns (status: Status)
    requires header.Length > 0
    modifies header
    ensures status.Success? <==> old(header[0]) / 16 * 16 == TYPE_PUBLISH
    ensures forall info: PublishInfo, id: u16 | |info.topic| <= U16_MAX && old(header[..]) == PublishBytes(info, id) ::
              header[..] == PublishBytes(info.(dup := true), id)
    ensures !status.Success? ==> header[..] == old(header[..])
  {
    ghost var before := header[..];
    hide Encode, PublishBody;
    if header[0] / 16 * 16 != TYPE_PUBLISH {
      status := BadParameter;
    } else {
      header[0] := SetBit(header[0], FLAG_DUP);
      status := Success;
    }
    forall info: PublishInfo, id: u16 | |info.topic| <= U16_MAX && before == PublishBytes(info, id)
      ensures header[..] == PublishBytes(info.(dup := true), id)
    {
      PublishTypeFlags(info);
      DupFlag(info);
      assert PublishBody(info.(dup := true), id) == PublishBody(info, id);
      assert before[1..] == Encode(|PublishBody(info, id)|) + PublishBody(info, id);
      assert header[..] == [header[0]] + before[1..];
    }
  }

  lemma {:induction false} DupFlag(info: PublishInfo)
    ensures SetBit(PublishType(info), FLAG_DUP) == PublishType(info.(dup := true))
  {
  }

  predicate IsPublishAckType(packetType: byte) {
    packetType in {TYPE_PUBACK, TYPE_PUBREC, TYPE_PUBREL, TYPE_PUBCOMP}
  }

  function AckBytes(packetType: byte, id: u16): seq<byte> {
    Framed(packetType, U16Bytes(id))
  }

  /** MQTT_SerializeAck */
  method SerializeAck(buffer: array<byte>, packetType: byte, id: u16) returns (status: Status)
    modifies buffer
    ensures status.Success? <==> buffer.Length >= 4 && id != 0 && IsPublishAckType(packetType)
    ensures status.Success? ==> buffer[..] == AckBytes(packetType, id) + old(buffer[4..])
    ensures !status.Success? ==> buffer[..] == old(buffer[..])
  {
    ghost var before := buffer[..];
    if buffer.Length < 4 {
      status := NoMemory;
    } else if id == 0 {
      status := BadParameter;
    } else if packetType in {TYPE_PUBACK, TYPE_PUBREC, TYPE_PUBREL, TYPE_PUBCOMP} {
      buffer[0] := packetType;
      buffer[1] := 2;
      buffer[2] := id / 0x100;
      buffer[3] := id % 0x100;
      status := Success;
      assert Encode(2) == [2];
      assert buffer[..] == AckBytes(packetType, id) + before[4..];
    } else {
      status := BadParameter;
    }
  }

  /** MQTT_DeserializeAck for the acknowledgements with only a packet id (deserializeSimpleAck). */
  function DeserializeSimpleAck(packetType: byte, data: seq<byte>): (r: Result<u16>)
  {
    if packetType !in {TYPE_UNSUBACK, TYPE_PUBACK, TYPE_PUBREC, TYPE_PUBREL, TYPE_PUBCOMP} then Err(BadResponse)
    else if |data| != 2 then Err(BadResponse)
    else if DecodeU16(data) == 0 then Err(BadResponse)
    else Ok(DecodeU16(data))
  }

  /** The return codes of section 3.9.3. */
  predicate IsReturnCode(c: byte) {
    c == 0 || c == 1 || c == 2 || c == 0x80
  }

  /** readSubackStatus: stops at the first code that is none; a failure among the others makes the server refuse. */
  method ReadSubackStatus(codes: seq<byte>) returns (status: Status)
    ensures status == BadResponse <==> exists c :: c in codes && !IsReturnCode(c)
    ensures status == ServerRefused <==> 0x80 in codes && forall c | c in codes :: IsReturnCode(c)
    ensures status == Success <==> forall c | c in codes :: c <= 2
  {
    status := Success;
    var i := 0;
    while i < |codes|
      invariant 0 <= i <= |codes| && status in {Success, ServerRefused}
      invariant forall k | 0 <= k < i :: IsReturnCode(codes[k])
      invariant status == ServerRefused <==> 0x80 in codes[..i]
    {
      assert codes[..i + 1] == codes[..i] + [codes[i]];
      if codes[i] in {0, 1, 2} {
      } else if codes[i] == 0x80 {
        status := ServerRefused;
      } else {
        assert codes[i] in codes;
        return BadResponse;
      }
      i := i + 1;
    }
    assert codes[..i] == codes;
  }

  /** What deserializeSuback lets pass: a packet id that is not 0, and return codes only, at least one. */
  predicate SubackParses(data: seq<byte>) {
    |data| >= 3 && DecodeU16(data) != 0 && forall c | c in data[2..] :: IsReturnCode(c)
  }

  /** deserializeSuback */
  method DeserializeSuback(data: seq<byte>) returns (status: Status, id: u16)
    ensures status in {Success, ServerRefused} <==> SubackParses(data)
    ensures status == Success <==> SubackParses(data) && 0x80 !in data[2..]
    ensures SubackParses(data) ==> id == DecodeU16(data)
  {
    if |data| < 3 {
      return BadResponse, 0;
    }
    id := DecodeU16(data);
    if id == 0 {
      return BadResponse, id;
    }
    status := ReadSubackStatus(data[2..]);
  }

  /** Parsing inverts serialising, and accepts nothing else. */
  lemma {:induction false} AckExact(packetType: byte, data: seq<byte>, id: u16)
    requires IsPublishAckType(packetType)
    ensures DeserializeSimpleAck(packetType, data) == Ok(id) <==>
              id != 0 && Framed(packetType, data) == AckBytes(packetType, id)
  {
    if |data| == 2 {
      U16Partition(data);
      assert data[..2] == data;
    }
    U16RoundTrip(id, []);
    assert U16Bytes(id) + [] == U16Bytes(id);
    if Framed(packetType, data) == AckBytes(packetType, id) {
      FramedInjective(packetType, data, U16Bytes(id));
    }
  }

  lemma {:induction false} FramedInjective(packetType: byte, a: seq<byte>, b: seq<byte>)
    requires Framed(packetType, a) == Framed(packetType, b)
    ensures a == b
  {
    var x, y := Framed(packetType, a), Framed(packetType, b);
    assert x[1..] == Encode(|a|) + a && y[1..] == Encode(|b|) + b;
    EncodeShape(|a|, a);
    EncodeShape(|b|, b);
    assert |Encode(|a|)| == |Encode(|b|)|;
    assert x[1 + |Encode(|a|)|..] == a && y[1 + |Encode(|b|)|..] == b;
  }
}
