/** SUBSCRIBE, UNSUBSCRIBE and CONNECT packets: the sizes computed for them are the bytes written, and a reader by
    section 3 of MQTT 3.1.1 gets back what was put in. */
module RequestPackets {
  import opened Bytes
  import opened Common
  import opened RemainingLength
  import opened Packets

  /** MQTTSubscribeInfo_t; an UNSUBSCRIBE carries no QoS. */
  datatype Subscription = Subscription(filter: seq<byte>, qos: QoS)

  predicate Lengths(subs: seq<Subscription>) {
    forall s | s in subs :: |s.filter| <= U16_MAX
  }

  function Field(s: seq<byte>): seq<byte>
    requires |s| <= U16_MAX
  {
    U16Bytes(|s|) + s
  }

  /** One filter, in a SUBSCRIBE with the QoS asked for. */
  function Item(s: Subscription, withQos: bool): seq<byte>
    requires |s.filter| <= U16_MAX
  {
    Field(s.filter) + if withQos then [s.qos] else []
  }

  function Payload(subs: seq<Subscription>, withQos: bool): seq<byte>
    requires Lengths(subs)
  {
    if subs == [] then [] else Item(subs[0], withQos) + Payload(subs[1..], withQos)
  }

  /** Sections 3.8 and 3.10: packet identifier and filters. */
  function RequestBody(subs: seq<Subscription>, withQos: bool, id: u16): seq<byte>
    requires Lengths(subs)
  {
    U16Bytes(id) + Payload(subs, withQos)
  }

  function RequestBytes(subs: seq<Subscription>, withQos: bool, id: u16): seq<byte>
    requires Lengths(subs)
  {
    Framed(if withQos then TYPE_SUBSCRIBE else TYPE_UNSUBSCRIBE, RequestBody(subs, withQos, id))
  }

  lemma {:induction false} PayloadNext(subs: seq<Subscription>, k: nat, withQos: bool)
    requires Lengths(subs) && k < |subs|
    ensures |subs[k].filter| <= U16_MAX
    ensures Payload(subs[..k + 1], withQos) == Payload(subs[..k], withQos) + Item(subs[k], withQos)
  {
    hide Item;
    assert subs[k] in subs;
    if k == 0 {
      assert subs[..1][1..] == [];
      assert Item(subs[0], withQos) + [] == [] + Item(subs[0], withQos);
    } else {
      PayloadNext(subs[1..], k - 1, withQos);
      assert subs[..k + 1][1..] == subs[1..][..k] && subs[..k][1..] == subs[1..][..k - 1];
      Assoc(Item(subs[0], withQos), Payload(subs[1..][..k - 1], withQos), Item(subs[k], withQos));
    }
  }

  lemma {:induction false} PayloadGrows(subs: seq<Subscription>, k: nat, withQos: bool)
    requires Lengths(subs) && k <= |subs|
    ensures |Payload(subs[..k], withQos)| <= |Payload(subs, withQos)|
    decreases |subs| - k
  {
    if k == |subs| {
      assert subs[..k] == subs;
    } else {
      PayloadNext(subs, k, withQos);
      PayloadGrows(subs, k + 1, withQos);
    }
  }

  /** calculateSubscriptionPacketSize: passes exactly when no filter is empty and the remaining length fits, and then
      gives the sizes of the packet. */
  method CalculateSubscriptionPacketSize(subs: seq<Subscription>, withQos: bool, ghost id: u16)
    returns (status: Status, remainingLength: nat, packetSize: nat)
    requires Lengths(subs)
    ensures status.Success? <==>
              (forall s | s in subs :: s.filter != []) && |RequestBody(subs, withQos, id)| <= MAX_REMAINING_LENGTH
    ensures status.Success? ==>
              remainingLength == |RequestBody(subs, withQos, id)| && packetSize == |RequestBytes(subs, withQos, id)|
  {
    status, remainingLength, packetSize := Success, 0, 2;
    var i := 0;
    while i < |subs|
      invariant i <= |subs|
      invariant packetSize == 2 + |Payload(subs[..i], withQos)|
      invariant status == Success <==> forall k | 0 <= k < i :: subs[k].filter != []
    {
      PayloadNext(subs, i, withQos);
      packetSize := packetSize + |subs[i].filter| + 2;
      if withQos {
        packetSize := packetSize + 1;
      }
      if |subs[i].filter| == 0 {
        status := BadParameter;
      }
      i := i + 1;
    }
    assert subs[..i] == subs;
    if packetSize > MAX_REMAINING_LENGTH {
      status := BadParameter;
    }
    if status == Success {
      EncodedSizeCorrect(packetSize);
      remainingLength := packetSize;
      packetSize := packetSize + 1 + EncodedSize(packetSize);
    }
  }

  method WriteRequest(subs: seq<Subscription>, withQos: bool, id: u16, remainingLength: nat, buffer: array<byte>)
    returns (at: nat)
    requires Lengths(subs) && remainingLength == |RequestBody(subs, withQos, id)| <= MAX_REMAINING_LENGTH
    requires |RequestBytes(subs, withQos, id)| <= buffer.Length
    modifies buffer
    ensures at == |RequestBytes(subs, withQos, id)| && buffer[..at] == RequestBytes(subs, withQos, id)
    ensures forall k | at <= k < buffer.Length :: buffer[k] == old(buffer[k])
  {
    hide Encode;
    at := Put(buffer, 0, [if withQos then TYPE_SUBSCRIBE else TYPE_UNSUBSCRIBE]);
    at := EncodeRemainingLength(buffer, at, remainingLength);
    at := Put(buffer, at, U16Bytes(id));
    ghost var header := buffer[..at];
    assert RequestBytes(subs, withQos, id) == header + Payload(subs, withQos);
    at := WriteFilters(subs, withQos, buffer, at);
  }

  /** MQTT_SerializeSubscribe and MQTT_SerializeUnsubscribe, with validateSubscriptionSerializeParams. */
  method SerializeRequest(subs: seq<Subscription>, withQos: bool, id: u16, remainingLength: nat, buffer: array<byte>)
    returns (status: Status)
    requires Lengths(subs) && remainingLength == |RequestBody(subs, withQos, id)| <= MAX_REMAINING_LENGTH
    modifies buffer
    ensures status.Success? <==> subs != [] && id != 0 && |RequestBytes(subs, withQos, id)| <= buffer.Length
    ensures status.Success? ==>
              buffer[..] == RequestBytes(subs, withQos, id) + old(buffer[|RequestBytes(subs, withQos, id)|..])
    ensures !status.Success? ==> buffer[..] == old(buffer[..])
  {
    EncodedSizeCorrect(remainingLength);
    hide Encode;
    ghost var before := buffer[..];
    if subs == [] || id == 0 {
      return BadParameter;
    }
    if 1 + EncodedSize(remainingLength) + remainingLength > buffer.Length {
      return NoMemory;
    }
    hide RequestBytes;
    var at := WriteRequest(subs, withQos, id, remainingLength, buffer);
    assert buffer[..] == buffer[..at] + before[at..];
    status := Success;
  }

  /** The loop of the serialisers. */
  method WriteFilters(subs: seq<Subscription>, withQos: bool, buffer: array<byte>, at: nat) returns (end: nat)
    requires Lengths(subs) && at + |Payload(subs, withQos)| <= buffer.Length
    modifies buffer
    ensures end == at + |Payload(subs, withQos)|
    ensures buffer[..end] == old(buffer[..at]) + Payload(subs, withQos)
    ensures forall k | end <= k < buffer.Length :: buffer[k] == old(buffer[k])
  {
    ghost var header, before := buffer[..at], buffer[..];
    end := at;
    var i := 0;
    assert header + [] == header;
    while i < |subs|
      invariant i <= |subs| && end == at + |Payload(subs[..i], withQos)| <= buffer.Length
      invariant buffer[..end] == header + Payload(subs[..i], withQos)
      invariant forall k | end <= k < buffer.Length :: buffer[k] == before[k]
    {
      PayloadNext(subs, i, withQos);
      PayloadGrows(subs, i + 1, withQos);
      end := WriteFilter(subs[i], withQos, buffer, end);
      Assoc(header, Payload(subs[..i], withQos), Item(subs[i], withQos));
      i := i + 1;
    }
    assert subs[..i] == subs;
  }

  method WriteFilter(s: Subscription, withQos: bool, buffer: array<byte>, at: nat) returns (end: nat)
    requires |s.filter| <= U16_MAX && at + |s.filter| + (if withQos then 3 else 2) <= buffer.Length
    modifies buffer
    ensures end == at + |s.filter| + if withQos then 3 else 2
    ensures buffer[..end] == old(buffer[..at]) + Item(s, withQos)
    ensures forall k | end <= k < buffer.Length :: buffer[k] == old(buffer[k])
  {
    end := WriteField(s.filter, buffer, at);
    if withQos {
      end := Put(buffer, end, [s.qos]);
    }
  }

  // ---------------------------------------------------------------- reading a request back

  /** A length-prefixed field and what follows it. */
  function ReadField(b: seq<byte>): Option<(seq<byte>, seq<byte>)> {
    if |b| < 2 || |b| < 2 + DecodeU16(b) then None else Some((b[2..2 + DecodeU16(b)], b[2 + DecodeU16(b)..]))
  }

  lemma {:induction false} FieldRead(s: seq<byte>, rest: seq<byte>)
    requires |s| <= U16_MAX
    ensures ReadField(Field(s) + rest) == Some((s, rest))
  {
  }

  /** The filters of a payload, by section 3.8.3 (with QoS) or 3.10.3. */
  function ReadFilters(b: seq<byte>, withQos: bool): Option<seq<Subscription>>
    decreases |b|
  {
    if b == [] then Some([])
    else
      match ReadField(b)
      case None => None
      case Some((filter, rest)) =>
        if !withQos then
          var more := ReadFilters(rest, withQos);
          if more.None? then None else Some([Subscription(filter, 0)] + more.value)
        else if rest == [] || rest[0] > 2 then None
        else
          var more := ReadFilters(rest[1..], withQos);
          if more.None? then None else Some([Subscription(filter, rest[0])] + more.value)
  }

  function Unqualified(subs: seq<Subscription>): seq<Subscription> {
    if subs == [] then [] else [subs[0].(qos := 0)] + Unqualified(subs[1..])
  }

  /** Reading the payload gives the filters in order, with their QoS in a SUBSCRIBE. */
  lemma {:induction false} RequestRead(subs: seq<Subscription>, withQos: bool)
    requires Lengths(subs)
    ensures ReadFilters(Payload(subs, withQos), withQos) == Some(if withQos then subs else Unqualified(subs))
  {
    assert ReadFilters([], withQos) == Some([]);
    hide Item, ReadFilters;
    if subs != [] {
      assert subs[0] in subs && Lengths(subs[1..]);
      assert [subs[0]] + subs[1..] == subs;
      RequestRead(subs[1..], withQos);
      ItemRead(subs[0], withQos, Payload(subs[1..], withQos));
    }
  }

  /** One filter read off the front. */
  lemma {:induction false} ItemRead(s: Subscription, withQos: bool, rest: seq<byte>)
    requires |s.filter| <= U16_MAX
    ensures var b, more := Item(s, withQos) + rest, ReadFilters(rest, withQos);
            ReadFilters(b, withQos) ==
            if more.None? then None else Some([if withQos then s else s.(qos := 0)] + more.value)
  {
    var tail := (if withQos then [s.qos] else []) + rest;
    FieldRead(s.filter, tail);
    Assoc(Field(s.filter), if withQos then [s.qos] else [], rest);
    assert Item(s, withQos) + rest == Field(s.filter) + tail;
    assert if withQos then tail[1..] == rest && tail[0] == s.qos else tail == rest;
    hide Field, ReadField;
  }

  // ---------------------------------------------------------------- CONNECT

  datatype Will = Will(qos: QoS, retain: bool, topic: seq<byte>, payload: seq<byte>)

  /** MQTTConnectInfo_t and the will. */
  datatype Connect = Connect(
    cleanSession: bool,
    keepAlive: u16,
    clientId: seq<byte>,
    will: Option<Will>,
    userName: Option<seq<byte>>,
    password: Option<seq<byte>>)

  predicate ShortOption(o: Option<seq<byte>>) {
    o.Some? ==> |o.value| <= U16_MAX
  }

  /** The lengths the C types hold. */
  predicate Representable(c: Connect) {
    && |c.clientId| <= U16_MAX && ShortOption(c.userName) && ShortOption(c.password)
    && (c.will.Some? ==> |c.will.value.topic| <= U16_MAX)
  }

  /** What MQTT_GetConnectPacketSize accepts. */
  predicate Connectable(c: Connect) {
    c.clientId != [] && (c.will.Some? ==> |c.will.value.payload| <= U16_MAX)
  }

  /** The connect flags of section 3.1.2.3, bit by bit from the lowest: reserved, clean session, will, will QoS, will
      retain, password, user name. */
  function ConnectFlags(c: Connect): byte {
    (if c.cleanSession then 2 else 0)
    + (if c.will.Some? then 4 + 8 * c.will.value.qos + (if c.will.value.retain then 32 else 0) else 0)
    + (if c.password.Some? then 64 else 0) + (if c.userName.Some? then 128 else 0)
  }

  /** "MQTT" */
  const PROTOCOL_NAME: seq<byte> := [0x4D, 0x51, 0x54, 0x54]

  const PROTOCOL_LEVEL: byte := 4

  function OptionField(o: Option<seq<byte>>): seq<byte>
    requires ShortOption(o)
  {
    if o.None? then [] else Field(o.value)
  }

  function WillFields(w: Option<Will>): seq<byte>
    requires w.Some? ==> |w.value.topic| <= U16_MAX && |w.value.payload| <= U16_MAX
  {
    if w.None? then [] else Field(w.value.topic) + Field(w.value.payload)
  }

  /** The variable header: protocol name and level, flags, keep alive. */
  function ConnectHeader(c: Connect): (h: seq<byte>)
    ensures |h| == 10
  {
    Field(PROTOCOL_NAME) + [PROTOCOL_LEVEL, ConnectFlags(c)] + U16Bytes(c.keepAlive)
  }

  /** Section 3.1: variable header and payload of a CONNECT. */
  function ConnectBody(c: Connect): seq<byte>
    requires Representable(c) && Connectable(c)
  {
    ConnectHeader(c) + Field(c.clientId) + WillFields(c.will) + OptionField(c.userName) + OptionField(c.password)
  }

  function ConnectBytes(c: Connect): seq<byte>
    requires Representable(c) && Connectable(c)
  {
    Framed(TYPE_CONNECT, ConnectBody(c))
  }

  /** MQTT_GetConnectPacketSize: the sizes of the packet, never more than 327699 bytes. */
  method GetConnectPacketSize(c: Connect) returns (status: Status, remainingLength: nat, packetSize: nat)
    requires Representable(c)
    ensures status.Success? <==> Connectable(c)
    ensures Connectable(c) ==> remainingLength == |ConnectBody(c)| && packetSize == |ConnectBytes(c)| <= 327699
  {
    status, remainingLength, packetSize := Success, 0, 10;
    if c.clientId == [] || (c.will.Some? && |c.will.value.payload| > U16_MAX) {
      return BadParameter, 0, 0;
    }
    packetSize := packetSize + |c.clientId| + 2;
    if c.will.Some? {
      packetSize := packetSize + |c.will.value.topic| + 2 + |c.will.value.payload| + 2;
    }
    if c.userName.Some? {
      packetSize := packetSize + |c.userName.value| + 2;
    }
    if c.password.Some? {
      packetSize := packetSize + |c.password.value| + 2;
    }
    remainingLength := packetSize;
    EncodedSizeCorrect(packetSize);
    packetSize := packetSize + 1 + EncodedSize(packetSize);
  }

  /** The largest CONNECT there is. */
  lemma {:induction false} LargestConnect(c: Connect)
    requires Representable(c) && Connectable(c)
    ensures |ConnectBytes(c)| == 327699 <==>
              && |c.clientId| == U16_MAX
              && c.will.Some? && |c.will.value.topic| == U16_MAX && |c.will.value.payload| == U16_MAX
              && c.userName.Some? && |c.userName.value| == U16_MAX && c.password.Some? && |c.password.value| == U16_MAX
  {
    EncodedSizeCorrect(|ConnectBody(c)|);
  }

  /** The flag byte as MQTT_SerializeConnectFixedHeader builds it, one bit at a time. */
  method BuildFlags(c: Connect) returns (flags: byte)
    ensures flags == ConnectFlags(c)
  {
    var sum: nat := 0;
    if c.cleanSession {
      sum := sum + 2;
    }
    if c.userName.Some? {
      sum := sum + 128;
    }
    if c.password.Some? {
      sum := sum + 64;
    }
    if c.will.Some? {
      sum := sum + 4;
      if c.will.value.qos == 1 {
        sum := sum + 8;
      } else if c.will.value.qos == 2 {
        sum := sum + 16;
      }
      if c.will.value.retain {
        sum := sum + 32;
      }
    }
    flags := sum;
  }

  method WriteConnect(c: Connect, remainingLength: nat, buffer: array<byte>) returns (at: nat)
    requires Representable(c) && Connectable(c) && remainingLength == |ConnectBody(c)|
    requires |ConnectBytes(c)| <= buffer.Length
    modifies buffer
    ensures at == |ConnectBytes(c)| && buffer[..at] == ConnectBytes(c)
    ensures forall k | at <= k < buffer.Length :: buffer[k] == old(buffer[k])
  {
    hide ConnectHeader, Field, WillFields, OptionField, Encode;
    at := SerializeConnectFixedHeader(c, remainingLength, buffer);
    at := WriteField(c.clientId, buffer, at);
    at := WriteWill(c.will, buffer, at);
    at := WriteOption(c.userName, buffer, at);
    at := WriteOption(c.password, buffer, at);
    FieldsAfter([TYPE_CONNECT] + Encode(remainingLength), ConnectHeader(c), Field(c.clientId), WillFields(c.will),
                OptionField(c.userName), OptionField(c.password));
  }

  /** MQTT_SerializeConnect */
  method SerializeConnect(c: Connect, remainingLength: nat, buffer: array<byte>) returns (status: Status)
    requires Representable(c) && Connectable(c) && remainingLength == |ConnectBody(c)|
    modifies buffer
    ensures status.Success? <==> |ConnectBytes(c)| <= buffer.Length
    ensures status.Success? ==> buffer[..] == ConnectBytes(c) + old(buffer[|ConnectBytes(c)|..])
    ensures !status.Success? ==> buffer[..] == old(buffer[..])
  {
    EncodedSizeCorrect(remainingLength);
    if 1 + EncodedSize(remainingLength) + remainingLength > buffer.Length {
      return NoMemory;
    }
    ghost var before := buffer[..];
    hide ConnectBytes;
    var at := WriteConnect(c, remainingLength, buffer);
    assert buffer[..] == buffer[..at] + before[at..];
    status := Success;
  }

  lemma {:induction false} FieldsAfter(start: seq<byte>, a: seq<byte>, b: seq<byte>, c: seq<byte>, d: seq<byte>, e: seq<byte>)
    ensures start + a + b + c + d + e == start + (a + b + c + d + e)
  {
  }

  /** encodeString */
  method WriteField(s: seq<byte>, buffer: array<byte>, at: nat) returns (end: nat)
    requires |s| <= U16_MAX && at + |Field(s)| <= buffer.Length
    modifies buffer
    ensures end == at + |Field(s)| && buffer[..end] == old(buffer[..at]) + Field(s)
    ensures forall k | end <= k < buffer.Length :: buffer[k] == old(buffer[k])
  {
    end := EncodeString(buffer, at, s);
  }

  /** MQTT_SerializeConnectFixedHeader */
  method SerializeConnectFixedHeader(c: Connect, remainingLength: nat, buffer: array<byte>) returns (at: nat)
    requires 11 + |Encode(remainingLength)| <= buffer.Length
    modifies buffer
    ensures at == 11 + |Encode(remainingLength)|
    ensures buffer[..at] == [TYPE_CONNECT] + Encode(remainingLength) + ConnectHeader(c)
    ensures forall k | at <= k < buffer.Length :: buffer[k] == old(buffer[k])
  {
    at := Put(buffer, 0, [TYPE_CONNECT]);
    at := EncodeRemainingLength(buffer, at, remainingLength);
    at := WriteConnectHeader(c, buffer, at);
  }

  method WriteConnectHeader(c: Connect, buffer: array<byte>, at: nat) returns (end: nat)
    requires at + 10 <= buffer.Length
    modifies buffer
    ensures end == at + 10 && buffer[..end] == old(buffer[..at]) + ConnectHeader(c)
    ensures forall k | end <= k < buffer.Length :: buffer[k] == old(buffer[k])
  {
    ghost var start := buffer[..at];
    end := WriteField(PROTOCOL_NAME, buffer, at);
    var flags := BuildFlags(c);
    end := Put(buffer, end, [PROTOCOL_LEVEL]);
    end := Put(buffer, end, [flags]);
    end := Put(buffer, end, U16Bytes(c.keepAlive));
    HeaderParts(start, Field(PROTOCOL_NAME), PROTOCOL_LEVEL, flags, U16Bytes(c.keepAlive));
  }

  lemma {:induction false} HeaderParts(start: seq<byte>, name: seq<byte>, level: byte, flags: byte, keepAlive: seq<byte>)
    ensures start + name + [level] + [flags] + keepAlive == start + (name + [level, flags] + keepAlive)
  {
  }

  method WriteWill(w: Option<Will>, buffer: array<byte>, at: nat) returns (end: nat)
    requires w.Some? ==> |w.value.topic| <= U16_MAX && |w.value.payload| <= U16_MAX
    requires at + |WillFields(w)| <= buffer.Length
    modifies buffer
    ensures end == at + |WillFields(w)| && buffer[..end] == old(buffer[..at]) + WillFields(w)
    ensures forall k | end <= k < buffer.Length :: buffer[k] == old(buffer[k])
  {
    end := at;
    if w.Some? {
      hide Field;
      ghost var start := buffer[..at];
      end := WriteField(w.value.topic, buffer, end);
      end := WriteField(w.value.payload, buffer, end);
      Assoc(start, Field(w.value.topic), Field(w.value.payload));
    }
  }

  method WriteOption(o: Option<seq<byte>>, buffer: array<byte>, at: nat) returns (end: nat)
    requires ShortOption(o) && at + |OptionField(o)| <= buffer.Length
    modifies buffer
    ensures end == at + |OptionField(o)| && buffer[..end] == old(buffer[..at]) + OptionField(o)
    ensures forall k | end <= k < buffer.Length :: buffer[k] == old(buffer[k])
  {
    end := at;
    if o.Some? {
      end := WriteField(o.value, buffer, end);
    }
  }

  // ---------------------------------------------------------------- reading a CONNECT back

  /** A field that is there only if its flag is set. */
  function ReadOption(present: bool, b: seq<byte>): Option<(Option<seq<byte>>, seq<byte>)> {
    if !present then Some((None, b))
    else
      match ReadField(b)
      case None => None
      case Some((s, rest)) => Some((Some(s), rest))
  }

  function Bit(flags: byte, weight: nat): bool
    requires weight > 0
  {
    flags / weight % 2 == 1
  }

  function ReadWill(flags: byte, b: seq<byte>): Option<(Option<Will>, seq<byte>)> {
    if !Bit(flags, 4) then Some((None, b))
    else if flags / 8 % 4 == 3 then None
    else
      match ReadField(b)
      case None => None
      case Some((topic, rest)) =>
        match ReadField(rest)
        case None => None
        case Some((payload, last)) => Some((Some(Will(flags / 8 % 4, Bit(flags, 32), topic, payload)), last))
  }

  /** The body of a CONNECT, by section 3.1. */
  function ReadConnect(b: seq<byte>): Option<Connect> {
    if |b| < 10 || b[..7] != Field(PROTOCOL_NAME) + [PROTOCOL_LEVEL] || Bit(b[7], 1) then None
    else
      var flags, keepAlive := b[7], DecodeU16(b[8..10]);
      match ReadField(b[10..])
      case None => None
      case Some((clientId, rest)) =>
        match ReadWill(flags, rest)
        case None => None
        case Some((will, rest)) =>
          match ReadOption(Bit(flags, 128), rest)
          case None => None
          case Some((userName, rest)) =>
            match ReadOption(Bit(flags, 64), rest)
            case None => None
            case Some((password, rest)) =>
              if rest != [] then None
              else Some(Connect(Bit(flags, 2), keepAlive, clientId, will, userName, password))
  }

  lemma {:induction false} FlagsRead(c: Connect)
    ensures var f := ConnectFlags(c);
            && !Bit(f, 1) && (Bit(f, 2) <==> c.cleanSession) && (Bit(f, 4) <==> c.will.Some?)
            && (Bit(f, 64) <==> c.password.Some?) && (Bit(f, 128) <==> c.userName.Some?)
            && (c.will.Some? ==> f / 8 % 4 == c.will.value.qos && (Bit(f, 32) <==> c.will.value.retain))
  {
    var clean, will, qos := if c.cleanSession then 1 else 0, if c.will.Some? then 1 else 0,
                            if c.will.Some? then c.will.value.qos else 0;
    var retain, password, user := if c.will.Some? && c.will.value.retain then 1 else 0,
                                  if c.password.Some? then 1 else 0, if c.userName.Some? then 1 else 0;
    BitsRead(clean, will, qos, retain, password, user);
    assert ConnectFlags(c) == 2 * clean + 4 * will + 8 * qos + 32 * retain + 64 * password + 128 * user;
  }

  /** A sum of distinct weights, bit by bit. */
  lemma {:induction false} BitsRead(clean: nat, will: nat, qos: nat, retain: nat, password: nat, user: nat)
    requires clean <= 1 && will <= 1 && qos <= 2 && retain <= 1 && password <= 1 && user <= 1
    ensures var f := 2 * clean + 4 * will + 8 * qos + 32 * retain + 64 * password + 128 * user;
            && f % 2 == 0 && f / 2 % 2 == clean && f / 4 % 2 == will && f / 8 % 4 == qos && f / 32 % 2 == retain
            && f / 64 % 2 == password && f / 128 % 2 == user
  {
    var f := 2 * clean + 4 * will + 8 * qos + 32 * retain + 64 * password + 128 * user;
    var e := password + 2 * user;
    var d := retain + 2 * e;
    var c := qos + 4 * d;
    var b := will + 2 * c;
    assert f == 2 * (clean + 2 * b) && f / 2 == clean + 2 * b;
    assert f / 4 == b && f / 8 == c && f / 32 == d && f / 64 == e && f / 128 == user;
  }

  lemma {:induction false} OptionRead(o: Option<seq<byte>>, rest: seq<byte>)
    requires ShortOption(o)
    ensures ReadOption(o.Some?, OptionField(o) + rest) == Some((o, rest))
  {
    if o.Some? {
      FieldRead(o.value, rest);
    } else {
      assert [] + rest == rest;
    }
  }

  lemma {:induction false} WillRead(c: Connect, rest: seq<byte>)
    requires Representable(c) && Connectable(c)
    ensures ReadWill(ConnectFlags(c), WillFields(c.will) + rest) == Some((c.will, rest))
  {
    FlagsRead(c);
    if c.will.Some? {
      var w := c.will.value;
      FieldRead(w.payload, rest);
      FieldRead(w.topic, Field(w.payload) + rest);
      assert WillFields(c.will) + rest == Field(w.topic) + (Field(w.payload) + rest);
    } else {
      assert [] + rest == rest;
    }
  }

  /** A reader of a CONNECT gets back every field: which optional ones are there, and what they hold. */
  lemma {:induction false} ConnectRead(c: Connect)
    requires Representable(c) && Connectable(c)
    ensures ReadConnect(ConnectBody(c)) == Some(c)
  {
    var afterUser := OptionField(c.password);
    var afterWill := OptionField(c.userName) + afterUser;
    var afterId := WillFields(c.will) + afterWill;
    var fields := Field(c.clientId) + afterId;
    HeaderRead(c, fields);
    ConnectSplit(c);
    hide ConnectFlags, Bit, ConnectBody, ReadWill, ReadOption, ReadField, ConnectHeader, Field;
    FieldRead(c.clientId, afterId);
    WillRead(c, afterWill);
    OptionRead(c.userName, afterUser);
    OptionRead(c.password, []);
    assert afterUser + [] == afterUser;
    assert ReadConnect(ConnectHeader(c) + fields) == Some(c) by { FlagsAre(c); }
  }

  lemma {:induction false} ConnectSplit(c: Connect)
    requires Representable(c) && Connectable(c)
    ensures ConnectBody(c) == ConnectHeader(c)
              + (Field(c.clientId) + (WillFields(c.will) + (OptionField(c.userName) + OptionField(c.password))))
  {
  }

  lemma {:induction false} HeaderRead(c: Connect, rest: seq<byte>)
    ensures var b := ConnectHeader(c) + rest;
            && b[..7] == Field(PROTOCOL_NAME) + [PROTOCOL_LEVEL] && b[7] == ConnectFlags(c)
            && DecodeU16(b[8..10]) == c.keepAlive && b[10..] == rest
  {
  }

  lemma {:induction false} FlagsAre(c: Connect)
    ensures var f := ConnectFlags(c);
            !Bit(f, 1) && Bit(f, 2) == c.cleanSession && Bit(f, 64) == c.password.Some? && Bit(f, 128) == c.userName.Some?
  {
  }
}
