/** RyanMqttGetPacketInfo: cutting the byte stream from the broker into packets. */
module Framing {
  import opened Bytes
  import opened RemainingLength
  import opened Packets

  /** incomingPacketValid */
  predicate IncomingTypeValid(packetType: byte) {
    var kind, flags := packetType / 16 * 16, packetType % 16;
    || (kind in {TYPE_CONNACK, TYPE_PUBACK, TYPE_PUBREC, TYPE_PUBCOMP, TYPE_SUBACK, TYPE_UNSUBACK, TYPE_PINGRESP}
        && flags == 0)
    || (kind == TYPE_PUBLISH && !(CheckBit(flags, 2) && CheckBit(flags, 4)))
    || (kind == 0x60 && CheckBit(flags, 2))
  }

  datatype ReadResult =
    | Packet(packetType: byte, data: seq<byte>)
    | TimedOut
    | BadHeader
    | OutOfMemory

  datatype Read = Read(result: ReadResult, rest: seq<byte>)

  /** One read, by what the stream holds: `stream` is what arrives before the receive timeout, `rest` what is left
      after the call. A receive that times out drops the bytes it had. */
  function ReadPacket(stream: seq<byte>, memory: bool): Read {
    if |stream| < 2 then Read(TimedOut, [])
    else if !IncomingTypeValid(stream[0]) then Read(BadHeader, stream[2..])
    else if stream[1] < 128 then ReadBody(stream, 2, 2, stream[1], memory)
    else if |stream| < 5 then Read(TimedOut, [])
    else
      match Decode(stream[1..5])
      case Length(n, used) => ReadBody(stream, 1 + used, 5, n, memory)
      case _ => Read(BadHeader, stream[5..])
  }

  /** The rest of a packet of `length` bytes whose header takes `header` bytes, `taken` bytes being read already. */
  function ReadBody(stream: seq<byte>, header: nat, taken: nat, length: nat, memory: bool): Read
    requires 0 < header <= taken <= |stream|
  {
    if length == 0 then Read(Packet(stream[0], []), stream[taken..])
    else if !memory then Read(OutOfMemory, stream[taken..])
    else if |stream| < header + length then Read(TimedOut, [])
    else Read(Packet(stream[0], stream[header..header + length]), stream[header + length..])
  }

  /** The first bytes of the packets a server may send, in numbers (sections 2.2.1 and 2.2.2 of MQTT 3.1.1): CONNACK,
      PUBACK, PUBREC, PUBCOMP, SUBACK, UNSUBACK and PINGRESP without flags, PUBLISH at QoS 0, 1 or 2, and PUBREL with
      bit 1 set, whose other flags the source does not look at. */
  predicate ServerType(b: byte) {
    || b in {0x20, 0x40, 0x50, 0x70, 0x90, 0xB0, 0xD0}
    || (0x30 <= b <= 0x3F && b != 0x36 && b != 0x37 && b != 0x3E && b != 0x3F)
    || b in {0x62, 0x63, 0x66, 0x67, 0x6A, 0x6B, 0x6E, 0x6F}
  }

  /** The reader accepts exactly those. */
  lemma {:induction false} TypesAccepted(b: byte)
    ensures IncomingTypeValid(b) <==> ServerType(b)
  {
    var kind, flags := b / 16, b % 16;
    assert b == 16 * kind + flags && b / 16 * 16 == 16 * kind;
    if kind == 3 || kind == 6 {
      assert flags in {0, 1, 2, 3, 4, 5, 6, 7, 8, 9, 10, 11, 12, 13, 14, 15};
    }
  }

  /** A packet of the server. */
  predicate WellFormedPacket(p: ReadResult) {
    p.Packet? && ServerType(p.packetType) && |p.data| <= MAX_REMAINING_LENGTH
  }

  function Concat(packets: seq<ReadResult>): seq<byte>
    requires forall i | 0 <= i < |packets| :: WellFormedPacket(packets[i])
  {
    if |packets| == 0 then []
    else
      assert WellFormedPacket(packets[0]);
      Framed(packets[0].packetType, packets[0].data) + Concat(packets[1..])
  }

  /** Two header bytes announcing a third mean at least 128 bytes of payload, so the five bytes then read lie
      within the packet. */
  lemma {:induction false} OverReadStaysInside(n: nat)
    requires n <= MAX_REMAINING_LENGTH && EncodedSize(n) >= 2
    ensures 5 <= 1 + EncodedSize(n) + n
  {
  }

  /** Reading a well-formed packet takes exactly its own bytes, whatever follows. */
  lemma {:induction false} ReadExact(p: ReadResult, more: seq<byte>)
    requires WellFormedPacket(p)
    ensures ReadPacket(Framed(p.packetType, p.data) + more, true) == Read(p, more)
  {
    var n := |p.data|;
    var stream := Framed(p.packetType, p.data) + more;
    TypesAccepted(p.packetType);
    hide IncomingTypeValid, ServerType;
    EncodedSizeCorrect(n);
    var header := 1 + EncodedSize(n);
    assert stream == [p.packetType] + Encode(n) + p.data + more;
    assert stream[header..] == p.data + more;
    assert stream[header + n..] == more;
    assert n > 0 ==> stream[header..header + n] == p.data;
    if n < 128 {
      assert stream[1] == n;
    } else {
      OverReadStaysInside(n);
      DecodeEncode(n, stream[header..5]);
      assert stream[1..5] == Encode(n) + stream[header..5];
      assert stream[1] == Encode(n)[0] >= 128;
    }
  }

  /** What `count` successive calls return. */
  function ReadMany(stream: seq<byte>, count: nat): (seq<ReadResult>, seq<byte>)
    decreases count
  {
    if count == 0 then ([], stream)
    else
      var first := ReadPacket(stream, true);
      var (others, rest) := ReadMany(first.rest, count - 1);
      ([first.result] + others, rest)
  }

  /** Successive calls return exactly the packets the stream was made of, in order. */
  lemma {:induction false} ReadsInOrder(packets: seq<ReadResult>, more: seq<byte>)
    requires forall i | 0 <= i < |packets| :: WellFormedPacket(packets[i])
    ensures ReadMany(Concat(packets) + more, |packets|) == (packets, more)
  {
    if packets == [] {
      assert [] + more == more;
    } else {
      var p := packets[0];
      ReadExact(p, Concat(packets[1..]) + more);
      assert Concat(packets) + more == Framed(p.packetType, p.data) + (Concat(packets[1..]) + more);
      ReadsInOrder(packets[1..], more);
      assert [p] + packets[1..] == packets;
    }
  }

  /** The stream is the header, the packet's data and the rest. */
  lemma {:induction false} BodyConsumes(stream: seq<byte>, header: nat, taken: nat, length: nat, memory: bool)
    requires 0 < header <= taken <= |stream| && (length == 0 ==> header == taken)
    requires ReadBody(stream, header, taken, length, memory).result.Packet?
    ensures var r := ReadBody(stream, header, taken, length, memory);
            && r.result.packetType == stream[0] && |r.result.data| == length
            && stream == stream[..header] + r.result.data + r.rest
  {
  }

  /** A header that announces a third byte. */
  lemma {:induction false} LongHeader(stream: seq<byte>, n: nat, used: nat)
    requires |stream| >= 5 && stream[1] >= 128 && Decode(stream[1..5]) == Length(n, used)
    ensures 128 <= n <= MAX_REMAINING_LENGTH && 1 <= used <= 4 && stream[..1 + used] == [stream[0]] + Encode(n)
  {
    DecodeExact(stream[1..5], n, used);
    ShortEncoding(n, stream[1..5]);
    assert stream[1..1 + used] == stream[1..5][..used];
    assert stream[..1 + used] == [stream[0]] + stream[1..1 + used];
  }

  /** Conversely, whatever is returned as a packet is well formed and its own framing is what was consumed. */
  lemma {:induction false} ReadConsumes(stream: seq<byte>, memory: bool)
    requires ReadPacket(stream, memory).result.Packet?
    ensures WellFormedPacket(ReadPacket(stream, memory).result)
    ensures var r := ReadPacket(stream, memory);
            stream == Framed(r.result.packetType, r.result.data) + r.rest
  {
    hide Decode, ReadBody, IncomingTypeValid, ServerType;
    TypesAccepted(stream[0]);
    if stream[1] < 128 {
      BodyConsumes(stream, 2, 2, stream[1], memory);
      assert stream[..2] == [stream[0]] + Encode(stream[1]);
    } else {
      var d := Decode(stream[1..5]);
      hide Encode;
      LongHeader(stream, d.value, d.used);
      BodyConsumes(stream, 1 + d.used, 5, d.value, memory);
    }
  }

  lemma {:induction false} ShortEncoding(n: nat, bytes: seq<byte>)
    requires Encode(n) <= bytes && bytes != [] && bytes[0] >= 128
    ensures n >= 128
  {
  }

  /** When no packet is returned: a type no server may send costs the two bytes read; a malformed length costs five;
      a stream that ends in the middle of a packet is dropped. */
  lemma {:induction false} ReadFails(stream: seq<byte>)
    ensures var r := ReadPacket(stream, true);
            && (r.result == TimedOut <==>
                  || |stream| < 2
                  || (ServerType(stream[0]) && stream[1] >= 128 && |stream| < 5)
                  || (ServerType(stream[0]) && stream[1] < 128 && |stream| < 2 + stream[1])
                  || (ServerType(stream[0]) && stream[1] >= 128
                      && exists n: nat :: n <= MAX_REMAINING_LENGTH && Encode(n) <= stream[1..5]
                                          && |stream| < 1 + |Encode(n)| + n))
            && (r.result == BadHeader <==>
                  |stream| >= 2
                  && (|| !ServerType(stream[0])
                      || (stream[1] >= 128 && |stream| >= 5
                          && forall n: nat :: n <= MAX_REMAINING_LENGTH ==> !(Encode(n) <= stream[1..5]))))
            && (r.result == TimedOut ==> r.rest == [])
            && (r.result == BadHeader ==> r.rest == if ServerType(stream[0]) then stream[5..] else stream[2..])
  {
    hide IncomingTypeValid, ServerType, Encode;
    if |stream| >= 2 {
      TypesAccepted(stream[0]);
      if stream[1] >= 128 && |stream| >= 5 {
        LengthsRead(stream[1..5]);
      }
    }
    hide Decode;
  }

  /** Without memory for it no packet with data is returned; its header is lost and its data left on the stream. */
  lemma {:induction false} ReadWithoutMemory(stream: seq<byte>)
    ensures var r, full := ReadPacket(stream, false), ReadPacket(stream, true);
            if |stream| >= 2 && ServerType(stream[0])
               && (0 < stream[1] < 128
                   || (stream[1] >= 128 && |stream| >= 5
                       && exists n: nat :: n <= MAX_REMAINING_LENGTH && Encode(n) <= stream[1..5]))
            then r == Read(OutOfMemory, if stream[1] < 128 then stream[2..] else stream[5..])
            else r == full
  {
    hide IncomingTypeValid, ServerType, Encode;
    if |stream| >= 2 {
      TypesAccepted(stream[0]);
      if stream[1] >= 128 && |stream| >= 5 {
        LengthsRead(stream[1..5]);
      }
    }
    hide Decode;
  }

  /** Four bytes announce a length exactly when they begin with its encoding. */
  lemma {:induction false} LengthsRead(bytes: seq<byte>)
    requires |bytes| == 4 && bytes[0] >= 128
    ensures Decode(bytes).Length? <==> exists n: nat :: n <= MAX_REMAINING_LENGTH && Encode(n) <= bytes
    ensures forall n: nat | n <= MAX_REMAINING_LENGTH && Encode(n) <= bytes ::
              Decode(bytes) == Length(n, |Encode(n)|) && n > 0
  {
    forall n: nat | n <= MAX_REMAINING_LENGTH && Encode(n) <= bytes
      ensures Decode(bytes) == Length(n, |Encode(n)|) && n > 0
    {
      DecodeExact(bytes, n, |Encode(n)|);
      ShortEncoding(n, bytes);
    }
    if Decode(bytes).Length? {
      DecodeExact(bytes, Decode(bytes).value, Decode(bytes).used);
    }
  }

  /** A SUBACK off the wire: packet id 1, granted QoS 0. */
  lemma {:induction false} SubackRead()
    ensures ReadPacket([0x90, 3, 0, 1, 0], true) == Read(Packet(0x90, [0, 1, 0]), [])
  {
    var p := Packet(0x90, [0, 1, 0]);
    ReadExact(p, []);
    assert Framed(0x90, [0, 1, 0]) + [] == [0x90, 3, 0, 1, 0];
  }

  /** The network side of a client. */
  class Connection {
    /** The bytes that arrive before a receive times out. */
    var stream: seq<byte>

    constructor (arriving: seq<byte>)
      ensures stream == arriving
    {
      stream := arriving;
    }

    /** RyanMqttRecvPacket: all bytes asked for, or a timeout. */
    method Receive(buffer: array<byte>, at: nat, length: nat) returns (received: bool)
      requires at + length <= buffer.Length
      modifies this, buffer
      ensures received == (|old(stream)| >= length)
      ensures received ==>
                && stream == old(stream)[length..]
                && buffer[..] == old(buffer[..at]) + old(stream)[..length] + old(buffer[at + length..])
      ensures !received ==> stream == []
    {
      var offset := 0;
      ghost var before, all := buffer[..], stream;
      while offset < length && stream != []
        invariant 0 <= offset <= length && offset <= |all| && stream == all[offset..]
        invariant forall k | 0 <= k < buffer.Length ::
                    buffer[k] == if at <= k < at + offset then all[k - at] else before[k]
      {
        buffer[at + offset] := stream[0];
        stream := stream[1..];
        offset := offset + 1;
      }
      received := offset == length;
      if received {
        assert buffer[..] == before[..at] + all[..length] + before[at + length..];
      }
    }

    /** RyanMqttGetPacketInfo. The five-byte header buffer is never overrun and the loop runs at most twice. */
    method GetPacketInfo(memory: bool) returns (result: ReadResult, ghost rounds: nat)
      modifies this
      ensures Read(result, stream) == ReadPacket(old(stream), memory)
      ensures rounds <= 2
    {
      ghost var all := stream;
      var header := new byte[5](i => 0);
      var needReadSize, readIndex := 2, 0;
      rounds := 0;
      while true
        invariant fresh(header) && header.Length == 5
        invariant rounds == 0 ==> readIndex == 0 && needReadSize == 2 && stream == all
        invariant rounds == 1 ==>
                    && readIndex == 2 && needReadSize == 3 && |all| >= 2 && stream == all[2..]
                    && header[..2] == all[..2] && IncomingTypeValid(all[0]) && all[1] >= 128
        invariant rounds <= 1
        decreases 2 - rounds
      {
        rounds := rounds + 1;
        var received := Receive(header, readIndex, needReadSize);
        if !received {
          return TimedOut, rounds;
        }
        readIndex := readIndex + needReadSize;
        assert header[..readIndex] == all[..readIndex] && stream == all[readIndex..];
        if !IncomingTypeValid(header[0]) {
          return BadHeader, rounds;
        }
        var decoded := ProcessRemainingLength(header, readIndex);
        assert header[1..readIndex] == all[1..readIndex];
        if rounds == 1 {
          OneByte(all[1..2]);
        }
        if decoded == NeedMore {
          DecodeStable(all[1..readIndex], []);
          needReadSize := 3;
          continue;
        }
        if decoded == Decoded.Malformed {
          return BadHeader, rounds;
        }
        var length, headerLength := decoded.value, 1 + decoded.used;
        DecodeExact(all[1..readIndex], length, decoded.used);
        EncodedSizeCorrect(length);
        if rounds == 2 {
          ShortEncoding(length, all[1..5]);
          OverReadStaysInside(length);
        }
        if length == 0 {
          return Packet(header[0], []), rounds;
        }
        if !memory {
          return OutOfMemory, rounds;
        }
        result := ReadRest(header, readIndex, headerLength, length, all);
        return;
      }
    }

    /** The end of RyanMqttGetPacketInfo: copy what was read beyond the header, then receive the rest. */
    method ReadRest(header: array<byte>, readIndex: nat, headerLength: nat, length: nat, ghost all: seq<byte>)
      returns (result: ReadResult)
      requires header.Length == 5 && headerLength <= readIndex <= 5 && readIndex <= headerLength + length
      requires readIndex <= |all| && 0 < length && 0 < headerLength
      requires header[..readIndex] == all[..readIndex] && stream == all[readIndex..]
      modifies this
      ensures Read(result, stream) == ReadBody(all, headerLength, readIndex, length, true)
    {
      var data := new byte[length](i => 0);
      var alreadyRead := readIndex - headerLength;
      for i := 0 to alreadyRead
        invariant stream == all[readIndex..]
        invariant forall k | 0 <= k < i :: data[k] == all[headerLength + k]
      {
        data[i] := header[headerLength + i];
        assert header[headerLength + i] == header[..readIndex][headerLength + i];
      }
      assert data[..alreadyRead] == all[headerLength..readIndex];
      if alreadyRead < length {
        var received := Receive(data, alreadyRead, length - alreadyRead);
        if !received {
          return TimedOut;
        }
        assert data[length..] == [];
        assert all[readIndex..][..length - alreadyRead] == all[readIndex..headerLength + length];
      } else {
        assert data[..] == data[..alreadyRead];
      }
      assert data[..] == all[headerLength..headerLength + length];
      assert header[0] == header[..readIndex][0];
      result := Packet(header[0], data[..]);
    }
  }

  /** One byte is never an undecidable or malformed length unless it announces another. */
  lemma {:induction false} OneByte(bytes: seq<byte>)
    requires |bytes| == 1
    ensures Decode(bytes) == if bytes[0] < 128 then Length(bytes[0], 1) else NeedMore
  {
    if bytes[0] < 128 {
      assert bytes[..1][1..] == [];
      assert Value(bytes[..1]) == bytes[0];
      assert EncodedSize(bytes[0]) == 1;
    } else {
      assert Continued(bytes[1..]) == 0;
    }
  }
}
