/** The variable-length "remaining length" of section 2.2.3: the encoder and the two decoders of
    core_mqtt_serializer.c. */
module RemainingLength {
  import opened Bytes

  /** MQTT_MAX_REMAINING_LENGTH */
  const MAX_REMAINING_LENGTH: nat := 268435455

  /** MQTT_REMAINING_LENGTH_INVALID */
  const REMAINING_LENGTH_INVALID: nat := 268435456

  /** Base 128, least significant digit first, bit 7 on all bytes but the last (section 2.2.3). */
  function Encode(n: nat): (bytes: seq<byte>)
    ensures |bytes| >= 1
  {
    if n < 128 then [n] else [n % 128 + 128] + Encode(n / 128)
  }

  /** remainingLengthEncodedSize */
  function EncodedSize(length: nat): nat {
    if length < 128 then 1
    else if length < 16384 then 2
    else if length < 2097152 then 3
    else 4
  }

  lemma {:induction false} EncodedSizeCorrect(n: nat)
    requires n <= MAX_REMAINING_LENGTH
    ensures |Encode(n)| == EncodedSize(n)
  {
    if n >= 128 {
      EncodedSizeCorrect(n / 128);
    }
  }

  /** What a decoder can say of the bytes after the packet type byte. */
  datatype Decoded =
    | NeedMore
    | Malformed
    | Length(value: nat, used: nat)

  /** How many of the first bytes announce another one. */
  function Continued(bytes: seq<byte>): (k: nat)
    ensures k <= |bytes|
    ensures forall i | 0 <= i < k :: bytes[i] >= 128
    ensures k < |bytes| ==> bytes[k] < 128
  {
    if bytes == [] || bytes[0] < 128 then 0 else 1 + Continued(bytes[1..])
  }

  /** The number the 7-bit digits stand for. */
  function Value(bytes: seq<byte>): nat {
    if bytes == [] then 0 else bytes[0] % 128 + 128 * Value(bytes[1..])
  }

  /** The decision of both decoders: at most four bytes, and only the minimal encoding. */
  function Decode(bytes: seq<byte>): Decoded {
    var k := Continued(bytes);
    if k >= 4 then Malformed
    else if k == |bytes| then NeedMore
    else
      var value := Value(bytes[..k + 1]);
      if EncodedSize(value) == k + 1 then Length(value, k + 1) else Malformed
  }

  function Pow128(n: nat): (p: nat)
    ensures p > 0
  {
    if n == 0 then 1 else 128 * Pow128(n - 1)
  }

  lemma {:induction false} Pow128Values()
    ensures Pow128(0) == 1 && Pow128(1) == 128 && Pow128(2) == 16384
    ensures Pow128(3) == 2097152 && Pow128(4) == 268435456
  {
  }

  lemma {:induction false} ValueAppend(bytes: seq<byte>, b: byte)
    ensures Value(bytes + [b]) == Value(bytes) + (b % 128) * Pow128(|bytes|)
  {
    if bytes != [] {
      var rest := bytes[1..];
      ValueAppend(rest, b);
      calc {
        Value(bytes + [b]);
        { assert (bytes + [b])[1..] == rest + [b]; }
        bytes[0] % 128 + 128 * Value(rest + [b]);
        bytes[0] % 128 + 128 * (Value(rest) + (b % 128) * Pow128(|rest|));
        Value(bytes) + 128 * ((b % 128) * Pow128(|rest|));
        { MulSwap(b % 128, Pow128(|rest|)); }
        Value(bytes) + (b % 128) * Pow128(|bytes|);
      }
    } else {
      assert [b][1..] == [];
    }
  }

  lemma {:induction false} MulSwap(x: nat, p: nat)
    ensures 128 * (x * p) == x * (128 * p)
  {
  }

  lemma {:induction false} ValueBound(bytes: seq<byte>)
    ensures Value(bytes) < Pow128(|bytes|)
  {
    if bytes != [] {
      ValueBound(bytes[1..]);
    }
  }

  lemma {:induction false} ContinuedAppend(bytes: seq<byte>, more: seq<byte>)
    ensures Continued(bytes) < |bytes| ==> Continued(bytes + more) == Continued(bytes)
    ensures Continued(bytes + more) >= Continued(bytes)
  {
    if bytes != [] {
      assert (bytes + more)[1..] == bytes[1..] + more;
      ContinuedAppend(bytes[1..], more);
    }
  }

  /** An encoding is one digit, or one digit and the encoding of the rest. */
  lemma {:induction false} Split(n: nat) returns (q: nat, d: nat)
    ensures n == 128 * q + d && d < 128
    ensures n < 128 ==> Encode(n) == [n]
    ensures n >= 128 ==> 1 <= q < n && Encode(n) == [d + 128] + Encode(q)
  {
    q, d := n / 128, n % 128;
  }

  /** One digit in front: what the two readings of an encoding make of it. */
  lemma {:induction false} DigitInFront(d: nat, rest: seq<byte>)
    requires d < 128
    ensures Continued([d + 128] + rest) == 1 + Continued(rest)
    ensures Value([d + 128] + rest) == d + 128 * Value(rest)
  {
  }

  lemma {:induction false} EncodeShape(n: nat, more: seq<byte>)
    ensures Continued(Encode(n) + more) == |Encode(n)| - 1
    ensures Value(Encode(n)) == n
  {
    hide Encode;
    var q, d := Split(n);
    if n < 128 {
      assert Encode(n)[1..] == [];
    } else {
      EncodeShape(q, more);
      assert Encode(n) + more == [d + 128] + (Encode(q) + more);
      hide Continued, Value;
      DigitInFront(d, Encode(q));
      DigitInFront(d, Encode(q) + more);
    }
  }

  /** Encoding then decoding gives the number back, whatever follows. */
  lemma {:induction false} DecodeEncode(n: nat, more: seq<byte>)
    requires n <= MAX_REMAINING_LENGTH
    ensures Decode(Encode(n) + more) == Length(n, EncodedSize(n))
  {
    EncodedSizeCorrect(n);
    EncodeShape(n, more);
    assert (Encode(n) + more)[..|Encode(n)|] == Encode(n);
  }

  lemma {:induction false} DigitsAreEncoding(bytes: seq<byte>)
    requires 1 <= |bytes| && Continued(bytes) == |bytes| - 1
    requires |bytes| >= 2 ==> Value(bytes) >= Pow128(|bytes| - 1)
    ensures Encode(Value(bytes)) == bytes
  {
    hide Encode;
    var q, d := Split(Value(bytes));
    if |bytes| == 1 {
      assert bytes[1..] == [];
    } else {
      var rest := bytes[1..];
      FirstDigit(bytes);
      assert q == Value(rest) && bytes == [d + 128] + rest;
      hide Value, Continued;
      RestIsBig(q, d, |bytes|);
      DigitsAreEncoding(rest);
    }
  }

  /** The first digit read off. */
  lemma {:induction false} FirstDigit(bytes: seq<byte>)
    requires 2 <= |bytes| && Continued(bytes) == |bytes| - 1
    ensures Continued(bytes[1..]) == |bytes| - 2 && 128 <= bytes[0]
    ensures Value(bytes) == bytes[0] - 128 + 128 * Value(bytes[1..])
  {
  }

  lemma {:induction false} RestIsBig(m: nat, d: nat, k: nat)
    requires d < 128 && k >= 2 && 128 * m + d >= Pow128(k - 1)
    ensures m >= 1 && (k >= 3 ==> m >= Pow128(k - 2))
  {
  }

  /** The decoders accept exactly the encodings of the numbers up to the limit, and nothing else. */
  lemma {:induction false} DecodeExact(bytes: seq<byte>, n: nat, used: nat)
    ensures Decode(bytes) == Length(n, used)
            <==> n <= MAX_REMAINING_LENGTH && Encode(n) <= bytes && used == |Encode(n)|
  {
    if n <= MAX_REMAINING_LENGTH && Encode(n) <= bytes && used == |Encode(n)| {
      DecodeEncode(n, bytes[|Encode(n)|..]);
      EncodedSizeCorrect(n);
      assert bytes == Encode(n) + bytes[|Encode(n)|..];
    } else if Decode(bytes) == Length(n, used) {
      var digits := bytes[..used];
      Pow128Values();
      ValueBound(digits);
      ContinuedPrefix(bytes, used);
      DigitsAreEncoding(digits);
    }
  }

  lemma {:induction false} ContinuedPrefix(bytes: seq<byte>, used: nat)
    requires used <= |bytes| && Continued(bytes) == used - 1
    ensures Continued(bytes[..used]) == used - 1
  {
    var prefix := bytes[..used];
    assert prefix[used - 1] == bytes[used - 1] < 128;
    assert forall i | 0 <= i < used - 1 :: prefix[i] == bytes[i] >= 128;
  }

  /** A decided answer is never changed by bytes that arrive later; an undecided one has all bytes continued. */
  lemma {:induction false} DecodeStable(bytes: seq<byte>, more: seq<byte>)
    ensures Decode(bytes) != NeedMore ==> Decode(bytes + more) == Decode(bytes)
    ensures Decode(bytes) == NeedMore <==> |bytes| < 4 && forall b | b in bytes :: b >= 128
  {
    ContinuedAppend(bytes, more);
    var k := Continued(bytes);
    if k < |bytes| {
      assert (bytes + more)[..k + 1] == bytes[..k + 1];
      assert bytes[k] in bytes;
    }
  }

  /** encodeRemainingLength: writes at `at`, returns the index after the last byte written. */
  method EncodeRemainingLength(buffer: array<byte>, at: nat, length: nat) returns (end: nat)
    requires at + |Encode(length)| <= buffer.Length
    modifies buffer
    ensures end == at + |Encode(length)|
    ensures buffer[..end] == old(buffer[..at]) + Encode(length)
    ensures forall k | end <= k < buffer.Length :: buffer[k] == old(buffer[k])
  {
    hide Encode;
    end := at;
    ghost var whole, before := Encode(length), buffer[..];
    assert whole[0..] == whole;
    var remaining: nat := length;
    var more := true;
    while more
      invariant at <= end <= at + |whole|
      invariant whole[end - at..] == Remainder(more, remaining)
      invariant forall k | 0 <= k < buffer.Length ::
                  buffer[k] == if at <= k < end then whole[k - at] else before[k]
      decreases more, remaining
    {
      EncodeStep(whole, end - at, remaining);
      var lengthByte: byte := remaining % 128;
      remaining := remaining / 128;
      if remaining > 0 {
        lengthByte := lengthByte + 128;
      }
      more := remaining > 0;
      buffer[end] := lengthByte;
      end := end + 1;
    }
    assert buffer[..end] == before[..at] + whole;
  }

  lemma {:induction false} EncodeStep(whole: seq<byte>, k: nat, n: nat)
    requires k <= |whole| && whole[k..] == Encode(n)
    ensures k < |whole|
    ensures whole[k] == if n / 128 > 0 then n % 128 + 128 else n % 128
    ensures whole[k + 1..] == Remainder(n / 128 > 0, n / 128)
  {
  }

  /** The part of an encoding still to be written. */
  function Remainder(more: bool, remaining: nat): seq<byte> {
    if more then Encode(remaining) else []
  }

  /** processRemainingLength: decodes from a buffer of which `index` bytes have been received, the packet type
      being the first. */
  method ProcessRemainingLength(buffer: array<byte>, index: nat) returns (r: Decoded)
    requires 1 <= index <= buffer.Length
    ensures r == Decode(buffer[1..index])
  {
    var value: nat, multiplier: nat, bytesDecoded: nat, encodedByte: byte := 0, 1, 0, 0;
    ghost var bytes := buffer[1..index];
    r := Malformed;
    Pow128Values();
    var more := true;
    while more
      invariant 0 <= bytesDecoded <= |bytes| && bytesDecoded <= 4
      invariant multiplier == Pow128(bytesDecoded)
      invariant value == Value(bytes[..bytesDecoded])
      invariant more ==> forall i | 0 <= i < bytesDecoded :: bytes[i] >= 128
      invariant !more ==> bytesDecoded > 0 && bytes[bytesDecoded - 1] < 128
                          && forall i | 0 <= i < bytesDecoded - 1 :: bytes[i] >= 128
      decreases more, |bytes| - bytesDecoded
    {
      if multiplier > 2097152 {
        LeadingContinued(bytes, bytesDecoded);
        return Malformed;
      } else if index > bytesDecoded + 1 {
        encodedByte := buffer[bytesDecoded + 1];
        ghost var digits := bytes[..bytesDecoded];
        ValueAppend(digits, encodedByte);
        assert bytes[bytesDecoded] == encodedByte;
        assert bytes[..bytesDecoded + 1] == digits + [encodedByte];
        value := value + (encodedByte % 128) * multiplier;
        multiplier := multiplier * 128;
        bytesDecoded := bytesDecoded + 1;
      } else {
        LeadingContinued(bytes, bytesDecoded);
        return NeedMore;
      }
      more := encodedByte >= 128;
    }
    LeadingContinued(bytes, bytesDecoded - 1);
    if bytesDecoded != EncodedSize(value) {
      r := Malformed;
    } else {
      r := Length(value, bytesDecoded);
    }
  }

  lemma {:induction false} LeadingContinued(bytes: seq<byte>, k: nat)
    requires k <= |bytes| && forall i | 0 <= i < k :: bytes[i] >= 128
    ensures Continued(bytes) >= k
    ensures k < |bytes| && bytes[k] < 128 ==> Continued(bytes) == k
  {
  }

  /** getRemainingLength: the same decision one byte at a time from a transport that delivers `incoming` and
      then fails; `consumed` bytes are read. */
  method GetRemainingLength(incoming: seq<byte>) returns (length: nat, consumed: nat)
    ensures Decode(incoming).Length? ==> length == Decode(incoming).value && consumed == Decode(incoming).used
    ensures !Decode(incoming).Length? ==> length == REMAINING_LENGTH_INVALID
    ensures consumed <= |incoming| && consumed <= 4
  {
    var multiplier: nat, encodedByte: byte := 1, 0;
    length, consumed := 0, 0;
    Pow128Values();
    var more := true;
    while more
      invariant 0 <= consumed <= |incoming| && consumed <= 4
      invariant multiplier == Pow128(consumed)
      invariant length == Value(incoming[..consumed])
      invariant more ==> forall i | 0 <= i < consumed :: incoming[i] >= 128
      invariant !more ==> consumed > 0 && incoming[consumed - 1] < 128
                          && forall i | 0 <= i < consumed - 1 :: incoming[i] >= 128
      decreases more, |incoming| - consumed
    {
      ValueBound(incoming[..consumed]);
      if multiplier > 2097152 {
        LeadingContinued(incoming, consumed);
        return REMAINING_LENGTH_INVALID, consumed;
      } else if consumed < |incoming| {
        encodedByte := incoming[consumed];
        ghost var digits := incoming[..consumed];
        ValueAppend(digits, encodedByte);
        assert incoming[..consumed + 1] == digits + [encodedByte];
        length := length + (encodedByte % 128) * multiplier;
        multiplier := multiplier * 128;
        consumed := consumed + 1;
      } else {
        LeadingContinued(incoming, consumed);
        return REMAINING_LENGTH_INVALID, consumed;
      }
      more := encodedByte >= 128;
    }
    LeadingContinued(incoming, consumed - 1);
    if consumed != EncodedSize(length) {
      length := REMAINING_LENGTH_INVALID;
    }
  }
}
