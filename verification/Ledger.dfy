/** What every operation keeps in runs against any broker: the stored packets, and the counter of the list. */
module Ledger {
  import opened Bytes
  import opened Common
  import opened PacketIds
  import opened Session
  import opened Requests
  import opened Operations
  import opened Effects
  import opened RequestEffects
  import opened Limits

  // ---------------------------------------------------------------- the stored-packet invariant

  lemma {:induction false} SendStores(s: State, p: Packet, outcome: SendOutcome)
    requires StateOk(s)
    ensures StateOk(Send(s, p, outcome))
  {
  }

  lemma {:induction false} HandleStores(s: State, p: Packet, now: u32, memory: nat, outcome: SendOutcome)
    requires StateOk(s)
    ensures StateOk(Dispatch(s, p, now, memory, outcome))
  {
    hide StateOk, InFlight;
    var r := Dispatch(s, p, now, memory, outcome);
    if Refused(p) {
      return;
    }
    match p
    case Publish(_, _, _, _, _) =>
      OnPublishEffect(s, p, now, memory, SendTimedOut);
      var t := OnPublish(s, p, now, memory, SendTimedOut);
      SendStores(t, Packet.Puback(p.id), outcome);
      SendStores(t, Packet.Pubrec(p.id), outcome);
    case Puback(id) => OnPubackEffect(s, PUBACK, id);
    case Pubcomp(id) => OnPubackEffect(s, PUBCOMP, id);
    case Pubrec(id) => PubrecStores(s, id, now, memory, outcome);
    case Pubrel(id) =>
      OnPubrelEffect(s, id, SendTimedOut);
      SendStores(OnPubrel(s, id, SendTimedOut), Packet.Pubcomp(id), outcome);
    case Suback(id, codes) =>
      SubackStores(s, id, codes);
    case Unsuback(id) =>
      UnsubackDestroys(s, 0, id);
      assert s.acks[0..] == s.acks && [] + OtherIds(s.acks, id) == OtherIds(s.acks, id);
      OtherIdsStore(s, r, id);
    case _ =>
  }

  lemma {:induction false} SubackStores(s: State, id: u16, codes: seq<byte>)
    requires StateOk(s)
    ensures StateOk(OnSuback(s, id, codes))
  {
    hide StateOk, InFlight;
    if CountSubs(s.subs, id) == |codes| {
      SubackDestroys(s, 0, id, codes);
      assert s.acks[0..] == s.acks && [] + OtherIds(s.acks, id) == OtherIds(s.acks, id);
      OtherIdsStore(s, SubackFrom(s, 0, id, codes), id);
    } else {
      ClearAcksEffect(s, SUBACK, id);
      StateOkSame(ClearAcks(s, SUBACK, id), OnSuback(s, id, codes));
    }
  }

  lemma {:induction false} PubrecStores(s: State, id: u16, now: u32, memory: nat, outcome: SendOutcome)
    requires StateOk(s)
    ensures StateOk(OnPubrec(s, id, now, memory, outcome))
  {
    hide StateOk, InFlight;
    if AwaitsPubrec(InFlight(s), id) && memory >= 2 {
      var b := OnPubrecMoves(s, id, now, memory, SendTimedOut);
    } else {
      OnPubrecStays(s, id, now, memory, SendTimedOut);
    }
    var t := OnPubrec(s, id, now, memory, SendTimedOut);
    SendStores(t, Packet.Pubrel(id), outcome);
  }

  lemma {:induction false} UserStores(s: State, op: Op)
    requires StateOk(s) && !op.Handle?
    ensures StateOk(Perform(s, op))
  {
    hide StateOk, InFlight;
    var r := Perform(s, op);
    match op
    case PublishPlain(topic, body, memory, outcome) => SendStores(s, Publish(false, 0, 0, topic, body), outcome);
    case PublishBegin(qos, topic, body, now, memory) => BeginPublishEffect(s, qos, topic, body, now, memory);
    case PublishEnd(qos, id, topic, body, outcome) =>
      SendStores(s, Publish(false, qos, id, topic, body), outcome);
      ClearAcksEffect(Send(s, Publish(false, qos, id, topic, body), outcome), PublishKind(qos), id);
    case SubscribeBegin(requests, now, memory) => BeginSubscribeAside(s, requests, now, memory);
    case SubscribeEnd(requests, id, outcome) => EndStores(s, Subscribe(id, Topics(requests)), outcome, SUBACK, id, r);
    case UnsubscribeBegin(topics, now, memory) => BeginUnsubscribeAside(s, topics, now, memory);
    case UnsubscribeEnd(topics, id, outcome) => EndStores(s, Unsubscribe(id, topics), outcome, UNSUBACK, id, r);
    case UserDiscard(kind, id) => DiscardStores(s, kind, id);
    case SyncLists => SyncEffect(s);
    case ScanList(wait, input) => ScanEffect(s, wait, input);
    case ConnectionLost =>
      SendStores(s, Packet.Unsuback(0), SocketError);
      assert Send(s, Packet.Unsuback(0), SocketError) == r;
    case Connack(present) =>
      if present {
        StateOkSame(s, r);
      } else {
        StateOkEmpty(r);
      }
    case SetState(_) => StateOkSame(s, r);
  }

  lemma {:induction false} EndStores(s: State, p: Packet, outcome: SendOutcome, kind: Kind, id: u16, r: State)
    requires StateOk(s) && kind != PUBREL
    requires var sent := Send(s, p, outcome); r == sent || r == ClearAcks(sent, kind, id).(subs := r.subs)
    ensures StateOk(r)
  {
    hide StateOk, InFlight;
    SendStores(s, p, outcome);
    var sent := Send(s, p, outcome);
    ClearAcksEffect(sent, kind, id);
    StateOkSame(ClearAcks(sent, kind, id), ClearAcks(sent, kind, id).(subs := r.subs));
  }

  lemma {:induction false} DiscardStores(s: State, kind: Kind, id: u16)
    requires StateOk(s)
    ensures StateOk(Discard(s, kind, id))
  {
  }

  lemma {:induction false} OpStores(s: State, op: Op)
    requires StateOk(s) && op.Handle?
    ensures StateOk(Perform(s, op))
  {
    HandleStores(s, op.packet, op.now, op.memory, op.outcome);
  }

  /** In every run a node stores the packet to repeat for the reply it waits for: a PUBACK or PUBREC node the PUBLISH
      with its id, a PUBCOMP node the PUBREL, a PUBREL node the PUBREC, the others none. */
  lemma {:induction false} StoredPackets(config: Config, ops: seq<Op>)
    ensures StateOk(After(config, ops))
  {
    hide StateOk, Perform;
    if ops == [] {
      StateOkEmpty(Initial(config));
    } else {
      var s, op := After(config, ops[..|ops| - 1]), ops[|ops| - 1];
      StoredPackets(config, ops[..|ops| - 1]);
      if op.Handle? {
        OpStores(s, op);
      } else {
        UserStores(s, op);
      }
    }
  }

  // ---------------------------------------------------------------- the counter

  predicate CountOk(s: State) {
    s.ackCount == |s.acks|
  }

  lemma {:induction false} ClearedCount(nodes: seq<AckNode>, kind: Kind, id: u16)
    ensures |nodes| == |WithoutAcks(nodes, kind, id)| + |OnlyAcks(nodes, kind, id)|
  {
    if nodes != [] {
      ClearedCount(nodes[1..], kind, id);
    }
  }

  lemma {:induction false} CountClear(s: State, kind: Kind, id: u16)
    requires CountOk(s)
    ensures CountOk(ClearAcks(s, kind, id))
  {
    ClearedCount(s.acks, kind, id);
  }

  lemma {:induction false} CountSync(s: State)
    requires CountOk(s) && |Sync(s).acks| < 0x1_0000
    ensures CountOk(Sync(s)) && |Sync(s).acks| >= |s.acks|
    decreases |s.userAcks|
  {
    if s.userAcks != [] {
      var r := AddAck(s.(userAcks := s.userAcks[1..]), s.userAcks[0]);
      SyncGrows(r);
      CountSync(r);
    }
  }

  lemma {:induction false} SyncGrows(s: State)
    ensures |Sync(s).acks| >= |s.acks|
    decreases |s.userAcks|
  {
    if s.userAcks != [] {
      SyncGrows(AddAck(s.(userAcks := s.userAcks[1..]), s.userAcks[0]));
    }
  }

  lemma {:induction false} CountSuback(s: State, i: nat, id: u16, codes: seq<byte>)
    requires CountOk(s)
    ensures CountOk(SubackFrom(s, i, id, codes))
    decreases |s.acks| - i
  {
    if i < |s.acks| {
      var n := s.acks[i];
      if n.id != id {
        CountSuback(s, i + 1, id, codes);
      } else {
        var r := if n.kind == SUBACK then SettleNode(s, n, codes) else Settling(s, codes);
        CountSuback(Destroy(RemoveAck(r.state, i), n), i, id, r.codes);
      }
    }
  }

  lemma {:induction false} CountUnsuback(s: State, i: nat, id: u16)
    requires CountOk(s)
    ensures CountOk(UnsubackFrom(s, i, id))
    decreases |s.acks| - i
  {
    if i < |s.acks| {
      if s.acks[i].id != id {
        CountUnsuback(s, i + 1, id);
      } else {
        CountUnsuback(UnsubackNode(s, i), i, id);
      }
    }
  }

  lemma {:induction false} CountScan(s: State, i: nat, k: nat, wait: bool, window: Timers.Timer, throttle: u32,
                                     input: ScanInput)
    requires CountOk(s)
    ensures CountOk(ScanFrom(s, i, k, wait, window, throttle, input))
    decreases |s.acks| - i
  {
    var now := input.clock(k);
    if i < |s.acks| && s.clientState == Connected && Timers.Remain(window, now) != 0 {
      var n := s.acks[i];
      var remain := Timers.Remain(n.timer, now);
      var least := if remain != 0 then Min(remain, throttle) else throttle;
      if remain != 0 && wait {
        CountScan(s, i + 1, k + 1, wait, window, least, input);
      } else if Resendable(n.kind) {
        CountScan(ResendAt(s, i, now, input.sends(k)), i + 1, k + 1, wait, window, least, input);
      } else {
        CountScan(ExpireAt(s, i), i, k + 1, wait, window, least, input);
      }
    }
  }

  lemma {:induction false} CountUserNodes(s: State, kind: Kind, id: u16, msgs: seq<Msg>, now: u32)
    requires CountOk(s)
    ensures CountOk(AddUserNodes(s, kind, id, msgs, now))
    decreases |msgs|
  {
    if msgs != [] {
      var node := NewNode(s, kind, id, None, msgs[0], now);
      CountUserNodes(Allocated(s).(userAcks := s.userAcks + [node]), kind, id, msgs[1..], now);
    }
  }

  lemma {:induction false} CountRequests(s: State, op: Op)
    requires CountOk(s) && (op.SubscribeBegin? || op.UnsubscribeBegin? || op.SubscribeEnd? || op.UnsubscribeEnd?)
    ensures CountOk(Perform(s, op))
  {
    hide ClearAcks, AddUserNodes;
    match op
    case SubscribeBegin(requests, now, memory) =>
      var n, id, left := |requests|, NextPacketId(s.packetId), memory - 2;
      var numbered, msgs := s.(packetId := id), SubMsgs(requests, id);
      if 0 <= left < 2 * n {
        CountUserNodes(numbered, SUBACK, id, msgs[..left / 2], now);
        CountClear(AddUserNodes(numbered, SUBACK, id, msgs[..left / 2], now), SUBACK, id);
      } else {
        CountUserNodes(numbered, SUBACK, id, msgs, now);
        var noded := AddUserNodes(numbered, SUBACK, id, msgs, now);
        if 0 <= left < 3 * n {
          CountClear(noded.(subs := s.subs + msgs[..left - 2 * n]), SUBACK, id);
        }
      }
    case UnsubscribeBegin(topics, now, memory) =>
      var n, id, left := |topics|, NextPacketId(s.packetId), memory - 2;
      var numbered, msgs := s.(packetId := id), UnsubMsgs(s.subs, topics, id);
      if 0 <= left < 2 * n {
        CountUserNodes(numbered, UNSUBACK, id, msgs[..left / 2], now);
        CountClear(AddUserNodes(numbered, UNSUBACK, id, msgs[..left / 2], now), UNSUBACK, id);
      } else {
        CountUserNodes(numbered, UNSUBACK, id, msgs, now);
      }
    case SubscribeEnd(requests, id, outcome) => CountClear(Send(s, Subscribe(id, Topics(requests)), outcome), SUBACK, id);
    case UnsubscribeEnd(topics, id, outcome) => CountClear(Send(s, Unsubscribe(id, topics), outcome), UNSUBACK, id);
  }

  lemma {:induction false} CountPublish(s: State, p: Packet, now: u32, memory: nat, outcome: SendOutcome)
    requires CountOk(s) && p.Publish? && |OnPublish(s, p, now, memory, outcome).acks| < 0x1_0000
    ensures CountOk(OnPublish(s, p, now, memory, outcome))
  {
    hide FindAck, FindMatch, Addresses;
    if FindMatch(s.subs, p.topic) < |s.subs| && p.qos == 2 && FindAck(s.acks, PUBREL, p.id) == |s.acks| && memory >= 2 {
      var node := NewNode(s, PUBREL, p.id, Some(Packet.Pubrec(p.id)), Msg(p.topic, p.qos, SETTLED, 0), now);
      CountSend(AddAck(Allocated(Log(s, Data(p))), node), Packet.Pubrec(p.id), outcome);
    }
  }

  /** A send keeps the list, or a purge empties it. */
  lemma {:induction false} CountSend(s: State, p: Packet, outcome: SendOutcome)
    requires |Send(s, p, outcome).acks| < 0x1_0000 && (|s.acks| < 0x1_0000 ==> CountOk(s))
    ensures CountOk(Send(s, p, outcome))
  {
  }

  lemma {:induction false} CountPubrec(s: State, id: u16, now: u32, memory: nat, outcome: SendOutcome)
    requires CountOk(s) && |OnPubrec(s, id, now, memory, outcome).acks| < 0x1_0000
    ensures CountOk(OnPubrec(s, id, now, memory, outcome))
  {
    hide FindAck, Addresses, Send;
    var i, r := FindAck(s.acks, PUBREC, id), OnPubrec(s, id, now, memory, outcome);
    if FindAck(s.acks, PUBCOMP, id) < |s.acks| || i == |s.acks| {
      CountSend(s, Packet.Pubrel(id), outcome);
    } else if memory < 2 {
      assert r == AddAck(RemoveAck(s, i), s.acks[i]);
    } else {
      var moved := Moved(s, i, now);
      assert r == Send(moved, Packet.Pubrel(id), outcome);
      assert |moved.acks| < 0x1_0000 ==> CountOk(moved);
      hide OnPubrec, Moved;
      CountSend(moved, Packet.Pubrel(id), outcome);
    }
  }

  lemma {:induction false} CountHandle(s: State, p: Packet, now: u32, memory: nat, outcome: SendOutcome)
    requires CountOk(s) && |Dispatch(s, p, now, memory, outcome).acks| < 0x1_0000
    ensures CountOk(Dispatch(s, p, now, memory, outcome))
  {
    hide OnPublish, OnPubrec, SubackFrom, UnsubackFrom, ClearAcks;
    if Refused(p) {
      return;
    }
    match p
    case Publish(_, _, _, _, _) => CountPublish(s, p, now, memory, outcome);
    case Pubrec(id) => CountPubrec(s, id, now, memory, outcome);
    case Suback(id, codes) =>
      CountSuback(s, 0, id, codes);
      CountClear(s, SUBACK, id);
    case Unsuback(id) => CountUnsuback(s, 0, id);
    case _ =>
  }

  lemma {:induction false} CountKept(s: State, op: Op)
    requires CountOk(s) && |Perform(s, op).acks| < 0x1_0000
    ensures CountOk(Perform(s, op))
  {
    hide Dispatch, Sync, ScanFrom, BeginSubscribe, BeginUnsubscribe, ClearAcks;
    match op
    case Handle(p, now, memory, outcome) => CountHandle(s, p, now, memory, outcome);
    case ScanList(wait, input) =>
      CountScan(s, 0, 0, wait, Timers.Timer(input.clock(0), ScanWindow(s.config)), 1000, input);
    case SyncLists => CountSync(s);
    case PublishEnd(qos, id, topic, body, outcome) =>
      CountClear(Send(s, Publish(false, qos, id, topic, body), outcome), PublishKind(qos), id);
    case SubscribeBegin(_, _, _) => CountRequests(s, op);
    case SubscribeEnd(_, _, _) => CountRequests(s, op);
    case UnsubscribeBegin(_, _, _) => CountRequests(s, op);
    case UnsubscribeEnd(_, _, _) => CountRequests(s, op);
    case _ =>
  }

  /** While the list never holds 65536 nodes, the 16-bit counter is its length. */
  lemma {:induction false} CounterIsLength(config: Config, ops: seq<Op>)
    requires forall k | 0 <= k <= |ops| :: |After(config, ops[..k]).acks| < 0x1_0000
    ensures After(config, ops).ackCount == |After(config, ops).acks|
  {
    hide Perform;
    if ops != [] {
      var before := ops[..|ops| - 1];
      assert ops[..|ops|] == ops;
      forall k | 0 <= k <= |before| ensures |After(config, before[..k]).acks| < 0x1_0000 {
        assert before[..k] == ops[..k];
      }
      CounterIsLength(config, before);
      CountKept(After(config, before), ops[|ops| - 1]);
    }
  }
}
