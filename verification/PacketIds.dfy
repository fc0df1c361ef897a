/** RyanMqttGetNextPacketId: the packet identifier cycle. */
module PacketIds {
  import opened Bytes

  /** RyanMqttMaxPacketId */
  const MAX_PACKET_ID: u16 := 0xFFFE

  /** RyanMqttMsgInvalidPacketId: marks a settled subscription. */
  const SETTLED: u16 := 0xFFFF

  /** The identifier returned, which is also the new value of the counter. */
  function NextPacketId(current: u16): (id: u16)
    ensures 1 <= id <= MAX_PACKET_ID
  {
    if current >= MAX_PACKET_ID || current < 1 then 1 else current + 1
  }

  /** The result of the `n`-th call (from 1) on a counter holding `current`. */
  function Nth(current: u16, n: nat): u16 {
    if n == 0 then current else NextPacketId(Nth(current, n - 1))
  }

  /** Counting round the cycle of 65534 identifiers. */
  lemma {:induction false} NthOnCycle(current: u16, n: nat)
    requires 1 <= current <= MAX_PACKET_ID
    ensures 1 <= Nth(current, n) <= MAX_PACKET_ID
    ensures Nth(current, n) - 1 == (current - 1 + n) % 65534
  {
    if n > 0 {
      NthOnCycle(current, n - 1);
      OneOn(current - 1 + (n - 1));
    }
  }

  lemma {:induction false} OneOn(x: nat)
    ensures (x + 1) % 65534 == if x % 65534 == 65533 then 0 else x % 65534 + 1
  {
  }

  lemma {:induction false} NthShift(current: u16, a: nat, b: nat)
    ensures Nth(current, a + b) == Nth(Nth(current, a), b)
  {
    if b > 0 {
      NthShift(current, a, b - 1);
    }
  }

  /** Within any 65534 consecutive calls no identifier comes twice. */
  lemma {:induction false} DistinctWithinCycle(current: u16, i: nat, j: nat)
    requires 1 <= i < j < i + 65534
    ensures Nth(current, i) != Nth(current, j)
  {
    var first := Nth(current, i);
    NthShift(current, i, j - i);
    NthOnCycle(first, j - i);
    var d := j - i;
    assert (first - 1 + d) % 65534 != first - 1;
  }

  /** Any 65534 consecutive calls return each of 1..65534 exactly once; 0 and the settled mark never appear. */
  lemma {:induction false} CyclePermutation(current: u16, start: nat, id: u16)
    requires 1 <= start
    ensures 1 <= id <= MAX_PACKET_ID <==> exists i :: start <= i < start + 65534 && Nth(current, i) == id
    ensures forall i, j :: start <= i < j < start + 65534 ==> Nth(current, i) != Nth(current, j)
  {
    var first := Nth(current, start);
    if 1 <= id <= MAX_PACKET_ID {
      var d := (id - first) % 65534;
      NthShift(current, start, d);
      NthOnCycle(first, d);
      assert (first - 1 + d) % 65534 == id - 1;
      assert Nth(current, start + d) == id;
    }
    forall i, j | start <= i < j < start + 65534
      ensures Nth(current, i) != Nth(current, j)
    {
      DistinctWithinCycle(current, i, j);
    }
  }

  /** In-flight identifiers: `ages[k]` is how many allocations ago the k-th node in flight got its identifier.
      They are distinct as long as no node has outlived 65533 further allocations. */
  lemma {:induction false} InFlightDistinct(current: u16, calls: nat, issued: seq<nat>)
    requires forall k :: 0 <= k < |issued| ==> 1 <= issued[k] <= calls && calls - issued[k] <= 65533
    requires forall k, l :: 0 <= k < l < |issued| ==> issued[k] != issued[l]
    ensures forall k, l :: 0 <= k < l < |issued| ==> Nth(current, issued[k]) != Nth(current, issued[l])
  {
    forall k, l | 0 <= k < l < |issued|
      ensures Nth(current, issued[k]) != Nth(current, issued[l])
    {
      if issued[k] < issued[l] {
        DistinctWithinCycle(current, issued[k], issued[l]);
      } else {
        DistinctWithinCycle(current, issued[l], issued[k]);
      }
    }
  }

  /** One allocation more and the first identifier is back, whatever still uses it. */
  lemma {:induction false} ReusedAfterCycle(current: u16, i: nat)
    requires 1 <= i
    ensures Nth(current, i + 65534) == Nth(current, i)
  {
    NthShift(current, i, 65534);
    NthOnCycle(Nth(current, i), 65534);
  }
}
