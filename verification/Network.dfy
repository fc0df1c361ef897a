/** The loops that send and receive, and what a connection needs of the configuration. */
module Network {
  import opened Bytes
  import opened Keepalive

  /** One call of the platform: the bytes it moved, or -1 for a socket error, and what the timer has left after it. */
  datatype Round = Round(result: Moved, left: u32)

  type Moved = n: int | -1 <= n

  /** How a transfer ends; it is under way as long as the platform's next answer is still to come. */
  datatype Ending = Done | Unfinished | Broken | UnderWay

  /** A transfer of `length` bytes of which `offset` are through, `timeout` milliseconds being left. */
  function Transfer(offset: int, length: nat, timeout: u32, rounds: seq<Round>): Ending
    decreases |rounds|
  {
    if offset >= length || timeout == 0 then (if offset == length then Done else Unfinished)
    else if rounds == [] then UnderWay
    else if rounds[0].result < 0 then Broken
    else Transfer(offset + rounds[0].result, length, rounds[0].left, rounds[1..])
  }

  /** The loop of RyanMqttSendPacket and RyanMqttRecvPacket. */
  method MovePacket(length: nat, budget: u32, rounds: seq<Round>) returns (ending: Ending)
    ensures ending == Transfer(0, length, budget, rounds)
  {
    var offset, result: Moved, timeout, k := 0, 0, budget, 0;
    assert rounds[0..] == rounds;
    while offset < length && timeout > 0
      invariant 0 <= k <= |rounds| && 0 <= result
      invariant Transfer(offset, length, timeout, rounds[k..]) == Transfer(0, length, budget, rounds)
      decreases |rounds| - k
    {
      if k == |rounds| {
        return UnderWay;
      }
      result := rounds[k].result;
      if result < 0 {
        break;
      }
      offset := offset + result;
      timeout := rounds[k].left;
      k := k + 1;
    }
    if result < 0 {
      return Broken;
    }
    return if offset != length then Unfinished else Done;
  }

  /** The bytes the first rounds moved. */
  function Through(rounds: seq<Round>): int {
    if rounds == [] then 0 else rounds[0].result + Through(rounds[1..])
  }

  /** What the timer has left after them. */
  function LeftAfter(timeout: u32, rounds: seq<Round>): u32 {
    if rounds == [] then timeout else rounds[|rounds| - 1].left
  }

  /** The first `k` rounds moved bytes, and after none before them was the transfer through or its time up. */
  ghost predicate GoesOn(length: nat, timeout: u32, rounds: seq<Round>, k: nat) {
    && k <= |rounds| && (forall j | 0 <= j < k :: rounds[j].result >= 0)
    && forall j | 0 <= j < k :: Through(rounds[..j]) < length && LeftAfter(timeout, rounds[..j]) > 0
  }

  /** How it ends after them: done when all bytes are through; unfinished when there were too many or the time is up;
      broken when the platform then reports an error; under way while it has not answered. */
  lemma {:induction false} TransferEnds(length: nat, timeout: u32, rounds: seq<Round>, k: nat)
    requires GoesOn(length, timeout, rounds, k)
    ensures var through, left := Through(rounds[..k]), LeftAfter(timeout, rounds[..k]);
            && (through == length ==> Transfer(0, length, timeout, rounds) == Done)
            && (through > length || (through < length && left == 0) ==> Transfer(0, length, timeout, rounds) == Unfinished)
            && (through < length && left > 0 && k < |rounds| && rounds[k].result < 0 ==>
                  Transfer(0, length, timeout, rounds) == Broken)
            && (through < length && left > 0 && k == |rounds| ==> Transfer(0, length, timeout, rounds) == UnderWay)
  {
    TransferFrom(length, timeout, rounds, k);
    hide Through;
    if k < |rounds| {
      assert rounds[k..][0] == rounds[k];
    }
  }

  lemma {:induction false} TransferFrom(length: nat, timeout: u32, rounds: seq<Round>, k: nat)
    requires GoesOn(length, timeout, rounds, k)
    ensures Transfer(0, length, timeout, rounds) ==
            Transfer(Through(rounds[..k]), length, LeftAfter(timeout, rounds[..k]), rounds[k..])
    decreases k
  {
    if k == 0 {
      assert rounds[..0] == [] && rounds[0..] == rounds;
    } else {
      TransferFrom(length, timeout, rounds, k - 1);
      assert rounds[..k] == rounds[..k - 1] + [rounds[k - 1]];
      ThroughPush(rounds[..k - 1], rounds[k - 1]);
      assert rounds[k - 1..][0] == rounds[k - 1] && rounds[k - 1..][1..] == rounds[k..];
    }
  }

  lemma {:induction false} ThroughPush(rounds: seq<Round>, last: Round)
    ensures Through(rounds + [last]) == Through(rounds) + last.result
  {
    if rounds == [] {
      assert [last][1..] == [];
    } else {
      assert (rounds + [last])[1..] == rounds[1..] + [last];
      ThroughPush(rounds[1..], last);
    }
  }

  /** What the network does to one attempt: the connection, the rounds of CONNECT, of the first two bytes and of the
      rest of what answers it, and whether that is an accepting CONNACK. */
  datatype Attempt = Attempt(dialled: bool, length: nat, sends: seq<Round>, header: seq<Round>, rest: seq<Round>,
                             accepted: bool)

  /** The budget of a receive: shorter when a scan was cut short. */
  function RecvTimeout(c: Timing, pendingAck: bool): u32 {
    if pendingAck && c.recvTimeout > 100 then 100 else c.recvTimeout
  }

  /** RyanMqttConnectBroker succeeds. A CONNACK has two bytes of header and two more. */
  predicate Connects(c: Timing, pendingAck: bool, a: Attempt) {
    && a.dialled
    && Transfer(0, a.length, c.sendTimeout, a.sends) == Done
    && Transfer(0, 2, RecvTimeout(c, pendingAck), a.header) == Done
    && Transfer(0, 2, RecvTimeout(c, pendingAck), a.rest) == Done
    && a.accepted
  }

  /** With an accepted configuration a connection is possible exactly when sendTimeout is not zero. */
  lemma {:induction false} ConnectsIff(c: Timing, pendingAck: bool)
    requires Accepted(c)
    ensures (exists a: Attempt :: a.length > 0 && Connects(c, pendingAck, a)) <==> c.sendTimeout > 0
  {
    if c.sendTimeout > 0 {
      var two := [Round(2, 1)];
      var a := Attempt(true, 14, [Round(14, 1)], two, two, true);
      assert Transfer(0, 14, c.sendTimeout, a.sends) == Transfer(14, 14, 1, []);
      assert Transfer(0, 2, RecvTimeout(c, pendingAck), two) == Transfer(2, 2, 1, []);
      assert Connects(c, pendingAck, a);
    }
  }

  /** Section 3.1.2.10 of MQTT 3.1.1 lets an interval of zero switch the keep alive off. An accepted configuration with
      that interval has no time to send either, so no connection is ever made; one that can be made has an interval. */
  lemma {:induction false} ZeroNeverConnects(c: Timing, pendingAck: bool, a: Attempt)
    requires Accepted(c) && a.length > 0 && Connects(c, pendingAck, a)
    ensures c.keepaliveS > 0
  {
    ConnectsIff(c, pendingAck);
  }
}
