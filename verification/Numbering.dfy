/** The packet ids a client hands out over a whole run: which calls take one, and when an id comes back. */
module Numbering {
  import opened Bytes
  import opened Common
  import opened Timers
  import opened PacketIds
  import opened Session
  import opened Requests
  import opened Operations
  import Effects

  /** The call takes the next packet id, whether or not it gets any further. */
  predicate Numbers(s: State, op: Op) {
    match op
    case PublishBegin(_, topic, _, _, memory) => topic != "" && s.clientState == Connected && memory >= 1
    case SubscribeBegin(requests, _, memory) => RequestsValid(requests) && s.clientState == Connected && memory >= 2
    case UnsubscribeBegin(topics, _, memory) => TopicsValid(topics) && s.clientState == Connected && memory >= 2
    case _ => false
  }

  /** How many ids were taken in a run. */
  function Calls(config: Config, ops: seq<Op>): nat {
    if ops == [] then 0
    else
      var before := ops[..|ops| - 1];
      Calls(config, before) + if Numbers(After(config, before), ops[|ops| - 1]) then 1 else 0
  }

  // ---------------------------------------------------------------- nothing else changes the counter

  lemma {:induction false} SubackCounter(s: State, i: nat, id: u16, codes: seq<byte>)
    ensures SubackFrom(s, i, id, codes).packetId == s.packetId
    decreases |s.acks| - i
  {
    if i < |s.acks| {
      var n := s.acks[i];
      if n.id != id {
        SubackCounter(s, i + 1, id, codes);
      } else {
        var r := if n.kind == SUBACK then SettleNode(s, n, codes) else Settling(s, codes);
        SubackCounter(Destroy(RemoveAck(r.state, i), n), i, id, r.codes);
      }
    }
  }

  lemma {:induction false} UnsubackCounter(s: State, i: nat, id: u16)
    ensures UnsubackFrom(s, i, id).packetId == s.packetId
    decreases |s.acks| - i
  {
    if i < |s.acks| {
      if s.acks[i].id != id {
        UnsubackCounter(s, i + 1, id);
      } else {
        UnsubackCounter(Effects.UnsubackNode(s, i), i, id);
      }
    }
  }

  lemma {:induction false} SyncCounter(s: State)
    ensures Sync(s).packetId == s.packetId
    decreases |s.userAcks|
  {
    if s.userAcks != [] {
      SyncCounter(AddAck(s.(userAcks := s.userAcks[1..]), s.userAcks[0]));
    }
  }

  lemma {:induction false} ScanCounter(s: State, i: nat, k: nat, wait: bool, window: Timer, throttle: u32, input: ScanInput)
    ensures ScanFrom(s, i, k, wait, window, throttle, input).packetId == s.packetId
    decreases |s.acks| - i
  {
    hide Remain;
    var now := input.clock(k);
    if i < |s.acks| && s.clientState == Connected && Remain(window, now) != 0 {
      var n := s.acks[i];
      var remain := Remain(n.timer, now);
      var least := if remain != 0 then Min(remain, throttle) else throttle;
      if remain != 0 && wait {
        ScanCounter(s, i + 1, k + 1, wait, window, least, input);
      } else if Resendable(n.kind) {
        ScanCounter(ResendAt(s, i, now, input.sends(k)), i + 1, k + 1, wait, window, least, input);
      } else {
        ScanCounter(ExpireAt(s, i), i, k + 1, wait, window, least, input);
      }
    }
  }

  lemma {:induction false} NodesCounter(s: State, kind: Kind, id: u16, msgs: seq<Msg>, now: u32)
    ensures AddUserNodes(s, kind, id, msgs, now).packetId == s.packetId
    decreases |msgs|
  {
    if msgs != [] {
      var node := NewNode(s, kind, id, None, msgs[0], now);
      NodesCounter(Allocated(s).(userAcks := s.userAcks + [node]), kind, id, msgs[1..], now);
    }
  }

  lemma {:induction false} HandleCounter(s: State, p: Packet, now: u32, memory: nat, outcome: SendOutcome)
    ensures Dispatch(s, p, now, memory, outcome).packetId == s.packetId
  {
    hide FindAck, FindMatch, SubackFrom, UnsubackFrom, Addresses;
    if !Refused(p) {
      match p
      case Suback(id, codes) => SubackCounter(s, 0, id, codes);
      case Unsuback(id) => UnsubackCounter(s, 0, id);
      case _ =>
    }
  }

  lemma {:induction false} BatchCounter(s: State, op: Op)
    requires op.SubscribeBegin? || op.UnsubscribeBegin?
    ensures Perform(s, op).packetId == if Numbers(s, op) then NextPacketId(s.packetId) else s.packetId
  {
    hide AddUserNodes, SubMsgs, UnsubMsgs, DropBatch;
    var id := NextPacketId(s.packetId);
    var numbered := s.(packetId := id);
    match op
    case SubscribeBegin(requests, now, memory) =>
      var msgs := SubMsgs(requests, id);
      NodesCounter(numbered, SUBACK, id, msgs, now);
      if 2 <= memory < 2 + 2 * |requests| {
        NodesCounter(numbered, SUBACK, id, msgs[..(memory - 2) / 2], now);
      }
    case UnsubscribeBegin(topics, now, memory) =>
      var msgs := UnsubMsgs(s.subs, topics, id);
      NodesCounter(numbered, UNSUBACK, id, msgs, now);
      if 2 <= memory < 2 + 2 * |topics| {
        NodesCounter(numbered, UNSUBACK, id, msgs[..(memory - 2) / 2], now);
      }
  }

  /** An operation takes the next id or leaves the counter alone. */
  lemma {:induction false} CounterStep(s: State, op: Op)
    ensures Perform(s, op).packetId == if Numbers(s, op) then NextPacketId(s.packetId) else s.packetId
  {
    hide Dispatch, ScanFrom, Sync, BeginSubscribe, BeginUnsubscribe, FindAck, Addresses, DropBatch;
    match op
    case Handle(p, now, memory, outcome) => HandleCounter(s, p, now, memory, outcome);
    case ScanList(wait, input) =>
      ScanCounter(s, 0, 0, wait, Timer(input.clock(0), ScanWindow(s.config)), 1000, input);
    case SyncLists => SyncCounter(s);
    case SubscribeBegin(_, _, _) => BatchCounter(s, op);
    case UnsubscribeBegin(_, _, _) => BatchCounter(s, op);
    case _ =>
  }

  // ---------------------------------------------------------------- runs

  /** In every run the counter is as far round the cycle as calls have taken ids. */
  lemma {:induction false} CounterInRun(config: Config, ops: seq<Op>)
    ensures After(config, ops).packetId == Nth(1, Calls(config, ops))
  {
    hide Perform, Numbers;
    if ops != [] {
      CounterInRun(config, ops[..|ops| - 1]);
      CounterStep(After(config, ops[..|ops| - 1]), ops[|ops| - 1]);
    }
  }

  lemma {:induction false} CallsGrow(config: Config, ops: seq<Op>, k: nat)
    requires k <= |ops|
    ensures Calls(config, ops[..k]) <= Calls(config, ops)
    decreases |ops|
  {
    if k < |ops| {
      assert ops[..|ops| - 1][..k] == ops[..k];
      CallsGrow(config, ops[..|ops| - 1], k);
    } else {
      assert ops[..k] == ops;
    }
  }

  /** The id operation `k` of the run took. */
  function Taken(config: Config, ops: seq<Op>, k: nat): u16
    requires k < |ops|
  {
    After(config, ops[..k + 1]).packetId
  }

  /** In every run two calls take the same id exactly when a multiple of 65534 calls lies between them; so what was
      numbered less than 65534 calls ago cannot be confused with what is numbered now. */
  lemma {:induction false} SameIdAgain(config: Config, ops: seq<Op>, k: nat, l: nat)
    requires k < l < |ops| && Numbers(After(config, ops[..k]), ops[k]) && Numbers(After(config, ops[..l]), ops[l])
    ensures Calls(config, ops[..k + 1]) < Calls(config, ops[..l + 1])
    ensures Taken(config, ops, k) == Taken(config, ops, l) <==>
            (Calls(config, ops[..l + 1]) - Calls(config, ops[..k + 1])) % 65534 == 0
    ensures Calls(config, ops[..l + 1]) - Calls(config, ops[..k + 1]) < 65534 ==>
              Taken(config, ops, k) != Taken(config, ops, l)
  {
    hide Perform, Numbers, NextPacketId, Nth;
    var first, second := ops[..k + 1], ops[..l + 1];
    assert second[..|second| - 1] == ops[..l] && second[|second| - 1] == ops[l] && ops[..l][..k + 1] == first;
    assert first[..|first| - 1] == ops[..k] && first[|first| - 1] == ops[k];
    CallsGrow(config, ops[..l], k + 1);
    CounterInRun(config, first);
    CounterInRun(config, second);
    var a, b := Calls(config, first), Calls(config, second);
    assert a < b && Taken(config, ops, k) == Nth(1, a) && Taken(config, ops, l) == Nth(1, b);
    hide After, Calls, Taken;
    CycleApart(a, b - a);
  }

  lemma {:induction false} CycleApart(a: nat, d: nat)
    ensures Nth(1, a + d) == Nth(1, a) <==> d % 65534 == 0
    ensures 0 < d < 65534 ==> Nth(1, a + d) != Nth(1, a)
  {
    NthShift(1, a, d);
    NthOnCycle(1, a);
    NthOnCycle(Nth(1, a), d);
    hide Nth;
    BackOnCycle(Nth(1, a) - 1, d);
  }

  lemma {:induction false} BackOnCycle(x: nat, d: nat)
    requires x < 65534
    ensures (x + d) % 65534 == x <==> d % 65534 == 0
  {
    var q, r := d / 65534, d % 65534;
    assert d == 65534 * q + r;
    assert (x + d) % 65534 == (x + r) % 65534;
  }
}
