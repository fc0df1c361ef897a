/** Where the node of a request is while its reply is on the way: against any broker, in every interleaving of user
    threads with the MQTT thread. */
module Presence {
  import opened Bytes
  import opened Common
  import opened Timers
  import opened Session
  import opened Requests
  import opened Operations
  import opened Effects
  import opened Limits
  import opened Accounts

  /** The same node, perhaps sent again meanwhile. */
  predicate SameNode(n: AckNode, m: AckNode) {
    n.address == m.address && n.kind == m.kind && n.id == m.id
  }

  ghost predicate Has(nodes: seq<AckNode>, n: AckNode) {
    exists m :: m in nodes && SameNode(n, m)
  }

  /** The packets that make the client take the node off: the reply it waits for, or a SUBACK or UNSUBACK that sweeps
      its id. */
  predicate Answers(s: State, p: Packet, n: AckNode) {
    !Refused(p)
    && match p
       case Puback(id) => Waits(n, PUBACK, id)
       case Pubcomp(id) => Waits(n, PUBCOMP, id)
       case Pubrec(id) => Waits(n, PUBREC, id)
       case Pubrel(id) => Waits(n, PUBREL, id)
       case Suback(id, codes) => n.id == id && (n.kind == SUBACK || CountSubs(s.subs, id) == |codes|)
       case Unsuback(id) => n.id == id
       case _ => false
  }

  /** The failed calls that take the node back. */
  predicate TakesBack(s: State, op: Op, n: AckNode) {
    match op
    case PublishEnd(qos, id, _, _, outcome) => outcome != Sent && Waits(n, PublishKind(qos), id)
    case SubscribeEnd(_, id, outcome) => outcome != Sent && Waits(n, SUBACK, id)
    case UnsubscribeEnd(_, id, outcome) => outcome != Sent && Waits(n, UNSUBACK, id)
    case SubscribeBegin(requests, now, memory) =>
      !BeginSubscribe(s, requests, now, memory).ready && Waits(n, SUBACK, PacketIds.NextPacketId(s.packetId))
    case UnsubscribeBegin(topics, now, memory) =>
      !BeginUnsubscribe(s, topics, now, memory).ready && Waits(n, UNSUBACK, PacketIds.NextPacketId(s.packetId))
    case _ => false
  }

  /** A SUBSCRIBE or UNSUBSCRIBE node times out: the scan runs, the node is on the list it walks, and its time is up
      at some reading of the clock, or the connection is a new one. */
  ghost predicate TimesOut(s: State, op: Op, n: AckNode) {
    && op.ScanList? && !Resendable(n.kind)
    && s.clientState == Connected && Remain(s.scanThrottle, op.input.clock(0)) == 0
    && !Undue(s.acks, op.wait, op.input, n)
  }

  /** The scan leaves the node alone: it would be repeated, or is not due. */
  ghost predicate Undue(nodes: seq<AckNode>, wait: bool, input: ScanInput, n: AckNode) {
    Resendable(n.kind) || forall m | m in nodes && SameNode(n, m) :: !ComesDue(m, wait, input)
  }

  /** All the ways a node can leave: answered, timed out, taken back, discarded, purged. */
  ghost predicate Removes(s: State, op: Op, n: AckNode) {
    || (op.Handle? && Answers(s, op.packet, n))
    || TimesOut(s, op, n)
    || TakesBack(s, op, n)
    || (op.UserDiscard? && Waits(n, op.kind, op.id))
    || Purges(s, op)
  }

  // ---------------------------------------------------------------- single steps

  lemma {:induction false} HasAppend(a: seq<AckNode>, b: seq<AckNode>, n: AckNode)
    ensures Has(a + b, n) <==> Has(a, n) || Has(b, n)
  {
  }

  lemma {:induction false} HasRemoved(nodes: seq<AckNode>, i: nat, n: AckNode)
    requires i < |nodes| && Has(nodes, n) && !SameNode(n, nodes[i])
    ensures Has(RemoveAt(nodes, i), n)
  {
  }

  lemma {:induction false} HasUpdated(nodes: seq<AckNode>, i: nat, again: AckNode, n: AckNode)
    requires i < |nodes| && Has(nodes, n) && SameNode(nodes[i], again)
    ensures Has(nodes[i := again], n)
  {
    var m :| m in nodes && SameNode(n, m);
    var k :| 0 <= k < |nodes| && nodes[k] == m;
    assert nodes[i := again][k] in nodes[i := again];
  }

  lemma {:induction false} HasCleared(nodes: seq<AckNode>, kind: Kind, id: u16, n: AckNode)
    requires Has(nodes, n) && !Waits(n, kind, id)
    ensures Has(WithoutAcks(nodes, kind, id), n)
  {
    if SameNode(n, nodes[0]) {
      assert nodes[0] in WithoutAcks(nodes, kind, id);
    } else {
      assert Has(nodes[1..], n);
      HasCleared(nodes[1..], kind, id, n);
      var m :| m in WithoutAcks(nodes[1..], kind, id) && SameNode(n, m);
      assert m in WithoutAcks(nodes, kind, id);
    }
  }

  lemma {:induction false} HasOther(nodes: seq<AckNode>, id: u16, n: AckNode)
    requires Has(nodes, n) && n.id != id
    ensures Has(OtherIds(nodes, id), n)
  {
    if SameNode(n, nodes[0]) {
      assert nodes[0] in OtherIds(nodes, id);
    } else {
      assert Has(nodes[1..], n);
      HasOther(nodes[1..], id, n);
      var m :| m in OtherIds(nodes[1..], id) && SameNode(n, m);
      assert m in OtherIds(nodes, id);
    }
  }

  lemma {:induction false} ScanKeepsNode(s: State, i: nat, k: nat, wait: bool, window: Timer, throttle: u32,
                                        input: ScanInput, n: AckNode)
    requires Has(s.acks, n) && Undue(s.acks, wait, input, n)
    ensures Has(ScanFrom(s, i, k, wait, window, throttle, input).acks, n)
    decreases |s.acks| - i
  {
    hide Has, Undue, ResendAt, ExpireAt, Remain;
    var now := input.clock(k);
    if i < |s.acks| && s.clientState == Connected && Remain(window, now) != 0 {
      var remain := Remain(s.acks[i].timer, now);
      var least := if remain != 0 then Min(remain, throttle) else throttle;
      if remain != 0 && wait {
        ScanKeepsNode(s, i + 1, k + 1, wait, window, least, input, n);
      } else if Resendable(s.acks[i].kind) {
        ResendKeepsNode(s, i, now, input.sends(k), wait, input, n);
        ScanKeepsNode(ResendAt(s, i, now, input.sends(k)), i + 1, k + 1, wait, window, least, input, n);
      } else {
        ExpireKeepsNode(s, i, k, wait, input, n);
        ScanKeepsNode(ExpireAt(s, i), i, k + 1, wait, window, least, input, n);
      }
    }
  }

  lemma {:induction false} ResendKeepsNode(s: State, i: nat, now: u32, outcome: SendOutcome, wait: bool,
                                          input: ScanInput, n: AckNode)
    requires i < |s.acks| && Resendable(s.acks[i].kind) && Has(s.acks, n) && Undue(s.acks, wait, input, n)
    ensures Has(ResendAt(s, i, now, outcome).acks, n) && Undue(ResendAt(s, i, now, outcome).acks, wait, input, n)
  {
    hide Has, ComesDue;
    HasUpdated(s.acks, i, Resent(s.acks[i], now, s.config), n);
  }

  lemma {:induction false} ExpireKeepsNode(s: State, i: nat, k: nat, wait: bool, input: ScanInput, n: AckNode)
    requires i < |s.acks| && !Resendable(s.acks[i].kind) && Has(s.acks, n) && Undue(s.acks, wait, input, n)
    requires Remain(s.acks[i].timer, input.clock(k)) == 0 || !wait
    ensures Has(ExpireAt(s, i).acks, n) && Undue(ExpireAt(s, i).acks, wait, input, n)
  {
    assert ComesDue(s.acks[i], wait, input) && s.acks[i] in s.acks;
    assert ExpireAt(s, i).acks == RemoveAt(s.acks, i);
    hide ComesDue;
    HasRemoved(s.acks, i, n);
  }

  lemma {:induction false} SyncMoves(s: State)
    ensures Sync(s).acks == s.acks + s.userAcks
    decreases |s.userAcks|
  {
    if s.userAcks != [] {
      SyncMoves(AddAck(s.(userAcks := s.userAcks[1..]), s.userAcks[0]));
      assert s.acks + [s.userAcks[0]] + s.userAcks[1..] == s.acks + s.userAcks;
    } else {
      assert s.acks + [] == s.acks;
    }
  }

  lemma {:induction false} AckKeepsNode(s: State, n: AckNode, m: AckNode)
    requires Has(s.acks, n)
    ensures Has(AddAck(s, m).acks, n)
  {
  }

  lemma {:induction false} PublishKeepsNode(s: State, p: Packet, now: u32, memory: nat, outcome: SendOutcome, n: AckNode)
    requires Has(s.acks, n) && p.Publish?
    requires s.config.cleanSession ==> !Drops(s, OnPublish(s, p, now, memory, outcome))
    ensures Has(OnPublish(s, p, now, memory, outcome).acks, n)
  {
  }

  lemma {:induction false} PubrecKeepsNode(s: State, id: u16, now: u32, memory: nat, outcome: SendOutcome, n: AckNode)
    requires Has(s.acks, n) && !Waits(n, PUBREC, id)
    requires s.config.cleanSession ==> !Drops(s, OnPubrec(s, id, now, memory, outcome))
    ensures Has(OnPubrec(s, id, now, memory, outcome).acks, n)
  {
    var i := FindAck(s.acks, PUBREC, id);
    if FindAck(s.acks, PUBCOMP, id) == |s.acks| && i < |s.acks| {
      HasRemoved(s.acks, i, n);
      var w := s.acks[i];
      AckKeepsNode(RemoveAck(s, i), n, w);
      var node := NewNode(Allocated(s), PUBCOMP, id, Some(Packet.Pubrel(id)), w.msg.(packetId := PacketIds.SETTLED), now);
      hide Has;
      AckKeepsNode(Allocated(RemoveAck(s, i)), n, NewNode(RemoveAck(s, i), PUBCOMP, id, Some(Packet.Pubrel(id)),
                                                         w.msg.(packetId := PacketIds.SETTLED), now));
    }
  }

  lemma {:induction false} HandleKeepsNode(s: State, p: Packet, now: u32, memory: nat, outcome: SendOutcome, n: AckNode)
    requires Has(s.acks, n) && !Answers(s, p, n)
    requires s.config.cleanSession ==> !Drops(s, Dispatch(s, p, now, memory, outcome))
    ensures Has(Dispatch(s, p, now, memory, outcome).acks, n)
  {
    hide Has, OnPublish, OnPubrec, SubackFrom, UnsubackFrom;
    assert s.acks[0..] == s.acks;
    if Refused(p) {
      return;
    }
    match p
    case Publish(_, _, _, _, _) => PublishKeepsNode(s, p, now, memory, outcome, n);
    case Puback(id) => TakenKeepsNode(s, PUBACK, id, n);
    case Pubcomp(id) => TakenKeepsNode(s, PUBCOMP, id, n);
    case Pubrel(id) => TakenKeepsNode(s, PUBREL, id, n);
    case Pubrec(id) => PubrecKeepsNode(s, id, now, memory, outcome, n);
    case Suback(id, codes) =>
      if CountSubs(s.subs, id) == |codes| {
        SubackDestroys(s, 0, id, codes);
        assert s.acks[..0] + OtherIds(s.acks, id) == OtherIds(s.acks, id);
        HasOther(s.acks, id, n);
      } else {
        HasCleared(s.acks, SUBACK, id, n);
      }
    case Unsuback(id) =>
      UnsubackDestroys(s, 0, id);
      assert s.acks[..0] + OtherIds(s.acks, id) == OtherIds(s.acks, id);
      HasOther(s.acks, id, n);
    case _ =>
  }

  /** Another node taken off. */
  lemma {:induction false} TakenKeepsNode(s: State, kind: Kind, id: u16, n: AckNode)
    requires Has(s.acks, n) && !Waits(n, kind, id)
    ensures var i := FindAck(s.acks, kind, id); i < |s.acks| ==> Has(RemoveAt(s.acks, i), n)
  {
  }

  lemma {:induction false} UserNodesKeep(s: State, kind: Kind, id: u16, msgs: seq<Msg>, now: u32)
    ensures AddUserNodes(s, kind, id, msgs, now).acks == s.acks
    decreases |msgs|
  {
    if msgs != [] {
      var node := NewNode(s, kind, id, None, msgs[0], now);
      UserNodesKeep(Allocated(s).(userAcks := s.userAcks + [node]), kind, id, msgs[1..], now);
    }
  }

  lemma {:induction false} SubscribeKeepsNode(s: State, requests: seq<Request>, now: u32, memory: nat, n: AckNode)
    requires Has(s.acks, n)
    requires !BeginSubscribe(s, requests, now, memory).ready ==> !Waits(n, SUBACK, PacketIds.NextPacketId(s.packetId))
    ensures Has(BeginSubscribe(s, requests, now, memory).state.acks, n)
  {
    hide Has, AddUserNodes;
    if RequestsValid(requests) && s.clientState == Connected && memory >= 2 {
      var id := PacketIds.NextPacketId(s.packetId);
      var msgs, left := SubMsgs(requests, id), memory - 2;
      UserNodesKeep(s.(packetId := id), SUBACK, id, msgs, now);
      if left < 2 * |requests| {
        UserNodesKeep(s.(packetId := id), SUBACK, id, msgs[..left / 2], now);
      }
      if !BeginSubscribe(s, requests, now, memory).ready {
        HasCleared(s.acks, SUBACK, id, n);
      }
    }
  }

  lemma {:induction false} UnsubscribeKeepsNode(s: State, topics: seq<string>, now: u32, memory: nat, n: AckNode)
    requires Has(s.acks, n)
    requires !BeginUnsubscribe(s, topics, now, memory).ready ==> !Waits(n, UNSUBACK, PacketIds.NextPacketId(s.packetId))
    ensures Has(BeginUnsubscribe(s, topics, now, memory).state.acks, n)
  {
    hide Has, AddUserNodes;
    if TopicsValid(topics) && s.clientState == Connected && memory >= 2 {
      var id := PacketIds.NextPacketId(s.packetId);
      var msgs, left := UnsubMsgs(s.subs, topics, id), memory - 2;
      UserNodesKeep(s.(packetId := id), UNSUBACK, id, msgs, now);
      if left < 2 * |topics| {
        UserNodesKeep(s.(packetId := id), UNSUBACK, id, msgs[..left / 2], now);
        HasCleared(s.acks, UNSUBACK, id, n);
      }
    }
  }

  /** A send, then perhaps a rollback of other nodes. */
  lemma {:induction false} EndKeepsNode(s: State, p: Packet, outcome: SendOutcome, kind: Kind, id: u16, n: AckNode)
    requires Has(s.acks, n) && (outcome != Sent ==> !Waits(n, kind, id))
    requires s.config.cleanSession ==> !Drops(s, Send(s, p, outcome))
    ensures Has(Send(s, p, outcome).acks, n)
    ensures outcome != Sent ==> Has(ClearAcks(Send(s, p, outcome), kind, id).acks, n)
  {
    if outcome != Sent {
      HasCleared(s.acks, kind, id, n);
    }
  }

  /** A node on the list of the MQTT thread stays there through any step that is not one of those that remove it. */
  lemma {:induction false} NodeStays(s: State, op: Op, n: AckNode)
    requires Has(s.acks, n) && !Removes(s, op, n)
    ensures Has(Perform(s, op).acks, n)
  {
    hide Has, Dispatch, ScanFrom, BeginSubscribe, BeginUnsubscribe, Sync, DropBatch, Answers;
    match op
    case PublishPlain(_, _, _, _) =>
    case PublishBegin(_, _, _, _, _) =>
    case PublishEnd(qos, id, topic, body, outcome) =>
      EndKeepsNode(s, Publish(false, qos, id, topic, body), outcome, PublishKind(qos), id, n);
    case SubscribeBegin(requests, now, memory) => SubscribeKeepsNode(s, requests, now, memory, n);
    case SubscribeEnd(requests, id, outcome) => EndKeepsNode(s, Subscribe(id, Topics(requests)), outcome, SUBACK, id, n);
    case UnsubscribeBegin(topics, now, memory) => UnsubscribeKeepsNode(s, topics, now, memory, n);
    case UnsubscribeEnd(topics, id, outcome) => EndKeepsNode(s, Unsubscribe(id, topics), outcome, UNSUBACK, id, n);
    case UserDiscard(kind, id) => TakenKeepsNode(s, kind, id, n);
    case SyncLists =>
      SyncMoves(s);
      HasAppend(s.acks, s.userAcks, n);
    case Handle(p, now, memory, outcome) => HandleKeepsNode(s, p, now, memory, outcome, n);
    case ScanList(wait, input) =>
      if s.clientState == Connected && Remain(s.scanThrottle, input.clock(0)) == 0 {
        ScanKeepsNode(s, 0, 0, wait, Timer(input.clock(0), ScanWindow(s.config)), 1000, input, n);
      }
    case ConnectionLost =>
    case Connack(_) =>
    case SetState(_) =>
  }

  // ---------------------------------------------------------------- the user list

  lemma {:induction false} ScanKeepsUserList(s: State, i: nat, k: nat, wait: bool, window: Timer, throttle: u32,
                                            input: ScanInput)
    ensures ScanFrom(s, i, k, wait, window, throttle, input).userAcks == s.userAcks
    decreases |s.acks| - i
  {
    var now := input.clock(k);
    if i < |s.acks| && s.clientState == Connected && Remain(window, now) != 0 {
      var remain := Remain(s.acks[i].timer, now);
      var least := if remain != 0 then Min(remain, throttle) else throttle;
      if remain != 0 && wait {
        ScanKeepsUserList(s, i + 1, k + 1, wait, window, least, input);
      } else if Resendable(s.acks[i].kind) {
        ScanKeepsUserList(ResendAt(s, i, now, input.sends(k)), i + 1, k + 1, wait, window, least, input);
      } else {
        ScanKeepsUserList(ExpireAt(s, i), i, k + 1, wait, window, least, input);
      }
    }
  }

  lemma {:induction false} HandleKeepsUserList(s: State, p: Packet, now: u32, memory: nat, outcome: SendOutcome, n: AckNode)
    requires Has(s.userAcks, n) && !Answers(s, p, n)
    requires s.config.cleanSession ==> !Drops(s, Dispatch(s, p, now, memory, outcome))
    ensures Has(Dispatch(s, p, now, memory, outcome).userAcks, n)
  {
    hide Has, FindAck, FindMatch, SubackFrom, UnsubackFrom;
    if Refused(p) {
      return;
    }
    match p
    case Suback(id, codes) =>
      if CountSubs(s.subs, id) == |codes| {
        SubackDestroys(s, 0, id, codes);
      } else {
        HasCleared(s.userAcks, SUBACK, id, n);
      }
    case Unsuback(id) => UnsubackDestroys(s, 0, id);
    case _ =>
  }

  lemma {:induction false} UserNodesJoin(s: State, kind: Kind, id: u16, msgs: seq<Msg>, now: u32, n: AckNode)
    requires Has(s.userAcks, n)
    ensures Has(AddUserNodes(s, kind, id, msgs, now).userAcks, n)
    decreases |msgs|
  {
    hide Has;
    if msgs != [] {
      var node := NewNode(s, kind, id, None, msgs[0], now);
      HasAppend(s.userAcks, [node], n);
      UserNodesJoin(Allocated(s).(userAcks := s.userAcks + [node]), kind, id, msgs[1..], now, n);
    }
  }

  lemma {:induction false} SubscribeKeepsUserList(s: State, requests: seq<Request>, now: u32, memory: nat, n: AckNode)
    requires Has(s.userAcks, n)
    requires !BeginSubscribe(s, requests, now, memory).ready ==> !Waits(n, SUBACK, PacketIds.NextPacketId(s.packetId))
    ensures Has(BeginSubscribe(s, requests, now, memory).state.userAcks, n)
  {
    hide Has, AddUserNodes;
    if RequestsValid(requests) && s.clientState == Connected && memory >= 2 {
      var id := PacketIds.NextPacketId(s.packetId);
      var msgs, left := SubMsgs(requests, id), memory - 2;
      var part := if left < 2 * |requests| then msgs[..left / 2] else msgs;
      var noded := AddUserNodes(s.(packetId := id), SUBACK, id, part, now);
      UserNodesJoin(s.(packetId := id), SUBACK, id, part, now, n);
      if !BeginSubscribe(s, requests, now, memory).ready {
        HasCleared(noded.userAcks, SUBACK, id, n);
      }
    }
  }

  lemma {:induction false} UnsubscribeKeepsUserList(s: State, topics: seq<string>, now: u32, memory: nat, n: AckNode)
    requires Has(s.userAcks, n)
    requires !BeginUnsubscribe(s, topics, now, memory).ready ==> !Waits(n, UNSUBACK, PacketIds.NextPacketId(s.packetId))
    ensures Has(BeginUnsubscribe(s, topics, now, memory).state.userAcks, n)
  {
    hide Has, AddUserNodes;
    if TopicsValid(topics) && s.clientState == Connected && memory >= 2 {
      var id := PacketIds.NextPacketId(s.packetId);
      var msgs, left := UnsubMsgs(s.subs, topics, id), memory - 2;
      var part := if left < 2 * |topics| then msgs[..left / 2] else msgs;
      var noded := AddUserNodes(s.(packetId := id), UNSUBACK, id, part, now);
      UserNodesJoin(s.(packetId := id), UNSUBACK, id, part, now, n);
      if left < 2 * |topics| {
        HasCleared(noded.userAcks, UNSUBACK, id, n);
      }
    }
  }

  lemma {:induction false} EndKeepsUserList(s: State, p: Packet, outcome: SendOutcome, kind: Kind, id: u16, n: AckNode)
    requires Has(s.userAcks, n) && (outcome != Sent ==> !Waits(n, kind, id))
    requires s.config.cleanSession ==> !Drops(s, Send(s, p, outcome))
    ensures Has(Send(s, p, outcome).userAcks, n)
    ensures outcome != Sent ==> Has(ClearAcks(Send(s, p, outcome), kind, id).userAcks, n)
  {
    if outcome != Sent {
      HasCleared(s.userAcks, kind, id, n);
    }
  }

  /** A node on the user list stays there until the list is moved over, or one of the steps that remove it. */
  lemma {:induction false} NodeStaysWithUser(s: State, op: Op, n: AckNode)
    requires Has(s.userAcks, n) && !Removes(s, op, n) && !op.SyncLists?
    ensures Has(Perform(s, op).userAcks, n)
  {
    hide Has, Dispatch, ScanFrom, BeginSubscribe, BeginUnsubscribe, Sync, DropBatch, Answers;
    match op
    case PublishPlain(_, _, _, _) =>
    case PublishBegin(qos, topic, body, now, memory) => BeginKeepsUserList(s, qos, topic, body, now, memory, n);
    case PublishEnd(qos, id, topic, body, outcome) =>
      EndKeepsUserList(s, Publish(false, qos, id, topic, body), outcome, PublishKind(qos), id, n);
    case SubscribeBegin(requests, now, memory) => SubscribeKeepsUserList(s, requests, now, memory, n);
    case SubscribeEnd(requests, id, outcome) =>
      EndKeepsUserList(s, Subscribe(id, Topics(requests)), outcome, SUBACK, id, n);
    case UnsubscribeBegin(topics, now, memory) => UnsubscribeKeepsUserList(s, topics, now, memory, n);
    case UnsubscribeEnd(topics, id, outcome) => EndKeepsUserList(s, Unsubscribe(id, topics), outcome, UNSUBACK, id, n);
    case Handle(p, now, memory, outcome) => HandleKeepsUserList(s, p, now, memory, outcome, n);
    case ScanList(wait, input) =>
      ScanKeepsUserList(s, 0, 0, wait, Timer(input.clock(0), ScanWindow(s.config)), 1000, input);
    case UserDiscard(_, _) =>
    case ConnectionLost =>
    case Connack(_) =>
    case SetState(_) =>
  }

  lemma {:induction false} BeginKeepsUserList(s: State, qos: Acked, topic: string, body: nat, now: u32, memory: nat,
                                             n: AckNode)
    requires Has(s.userAcks, n)
    ensures Has(BeginPublish(s, qos, topic, body, now, memory).userAcks, n)
  {
  }

  // ---------------------------------------------------------------- whole runs

  lemma {:induction false} SyncGathers(s: State, op: Op, n: AckNode)
    requires op.SyncLists? && (Has(s.acks, n) || Has(s.userAcks, n))
    ensures Has(Perform(s, op).acks, n)
  {
    hide Has;
    SyncMoves(s);
    HasAppend(s.acks, s.userAcks, n);
  }

  /** A node once added, whichever list it is on, stays until one of the steps that remove it. */
  lemma {:induction false} NodeKept(s: State, op: Op, n: AckNode)
    requires (Has(s.acks, n) || Has(s.userAcks, n)) && !Removes(s, op, n)
    ensures Has(Perform(s, op).acks, n) || (Has(Perform(s, op).userAcks, n) && !op.SyncLists?)
    ensures Has(s.acks, n) ==> Has(Perform(s, op).acks, n)
  {
    hide Has, Removes, Perform;
    if Has(s.acks, n) {
      NodeStays(s, op, n);
    } else if op.SyncLists? {
      SyncGathers(s, op, n);
    } else {
      NodeStaysWithUser(s, op, n);
    }
  }

  lemma {:induction false} NodeKeptOverRun(config: Config, ops: seq<Op>, i: nat, n: AckNode)
    requires i <= |ops| && (Has(After(config, ops[..i]).acks, n) || Has(After(config, ops[..i]).userAcks, n))
    requires forall k | i <= k < |ops| :: !Removes(After(config, ops[..k]), ops[k], n)
    ensures Has(After(config, ops).acks, n) || Has(After(config, ops).userAcks, n)
    ensures (exists j :: i <= j < |ops| && ops[j].SyncLists?) ==> Has(After(config, ops).acks, n)
    decreases |ops|
  {
    hide Has, Perform, Removes;
    assert ops[..|ops|] == ops;
    if i < |ops| {
      var before, last := ops[..|ops| - 1], ops[|ops| - 1];
      assert After(config, ops) == Perform(After(config, before), last);
      hide After;
      forall k | i <= k < |before| ensures !Removes(After(config, before[..k]), before[k], n) {
        assert before[..k] == ops[..k];
      }
      assert before[..i] == ops[..i] && ops[..|before|] == before;
      NodeKeptOverRun(config, before, i, n);
      NodeKept(After(config, before), last, n);
      if j :| i <= j < |ops| && ops[j].SyncLists? {
        assert j < |before| ==> before[j].SyncLists?;
      }
    }
  }

  /** A request puts its node on the user list before it sends (here: before operation `i`); a reply is received, the
      user list moved over (operation `j`), the reply dispatched (operation `d`). Whatever the user threads do in
      between, the node is then on the list the handler searches, unless one of the steps on the way removed it. */
  lemma {:induction false} ReplyFindsNode(config: Config, ops: seq<Op>, i: nat, j: nat, d: nat, n: AckNode)
    requires i <= j < d <= |ops| && ops[j].SyncLists? && Has(After(config, ops[..i]).userAcks, n)
    requires forall k | i <= k < d :: !Removes(After(config, ops[..k]), ops[k], n)
    ensures Has(After(config, ops[..d]).acks, n)
  {
    hide Has, Perform, Removes;
    var run := ops[..d];
    forall k | i <= k < |run| ensures !Removes(After(config, run[..k]), run[k], n) {
      assert run[..k] == ops[..k];
    }
    assert run[..i] == ops[..i] && run[j].SyncLists?;
    NodeKeptOverRun(config, run, i, n);
  }
}
