/** The nodes of one SUBSCRIBE or UNSUBSCRIBE, on both lists: through which operations they stay, and when they have been
    moved over. */
module Batches {
  import opened Bytes
  import opened Common
  import opened Timers
  import opened PacketIds
  import opened Session
  import opened Requests
  import opened Operations
  import opened Effects
  import opened RequestEffects
  import opened Limits
  import opened Accounts
  import opened Subscribing
  import Presence
  import Resend

  /** The nodes waiting for `awaited`, a SUBACK or UNSUBACK, with `id`, on both lists. */
  function Batch(s: State, awaited: Kind, id: u16): seq<AckNode> {
    OnlyAcks(s.acks, awaited, id) + OnlyAcks(s.userAcks, awaited, id)
  }

  // ---------------------------------------------------------------- the nodes of one id in a list

  lemma {:induction false} OnlyAround(nodes: seq<AckNode>, i: nat, kind: Kind, id: u16)
    requires i < |nodes|
    ensures OnlyAcks(nodes, kind, id) ==
            OnlyAcks(nodes[..i], kind, id) + OnlyAcks([nodes[i]], kind, id) + OnlyAcks(nodes[i + 1..], kind, id)
    ensures OnlyAcks(RemoveAt(nodes, i), kind, id) ==
            OnlyAcks(nodes[..i], kind, id) + OnlyAcks(nodes[i + 1..], kind, id)
  {
    assert nodes == nodes[..i] + [nodes[i]] + nodes[i + 1..];
    ClearedAppend(nodes[..i] + [nodes[i]], nodes[i + 1..], kind, id);
    ClearedAppend(nodes[..i], [nodes[i]], kind, id);
    ClearedAppend(nodes[..i], nodes[i + 1..], kind, id);
  }

  lemma {:induction false} OnlyRemoved(nodes: seq<AckNode>, i: nat, kind: Kind, id: u16)
    requires i < |nodes| && !Waits(nodes[i], kind, id)
    ensures OnlyAcks(RemoveAt(nodes, i), kind, id) == OnlyAcks(nodes, kind, id)
  {
    OnlyAround(nodes, i, kind, id);
    NoneCleared([nodes[i]], kind, id);
  }

  lemma {:induction false} OnlyUpdated(nodes: seq<AckNode>, i: nat, n: AckNode, kind: Kind, id: u16)
    requires i < |nodes| && !Waits(nodes[i], kind, id) && !Waits(n, kind, id)
    ensures OnlyAcks(nodes[i := n], kind, id) == OnlyAcks(nodes, kind, id)
  {
    OnlyRemoved(nodes, i, kind, id);
    OnlyRemoved(nodes[i := n], i, kind, id);
    assert RemoveAt(nodes[i := n], i) == RemoveAt(nodes, i);
  }

  lemma {:induction false} OnlyPushed(nodes: seq<AckNode>, n: AckNode, kind: Kind, id: u16)
    requires !Waits(n, kind, id)
    ensures OnlyAcks(nodes + [n], kind, id) == OnlyAcks(nodes, kind, id)
  {
    ClearedAppend(nodes, [n], kind, id);
    NoneCleared([n], kind, id);
  }

  lemma {:induction false} OnlyCleared(nodes: seq<AckNode>, other: Kind, i: u16, kind: Kind, id: u16)
    ensures OnlyAcks(WithoutAcks(nodes, other, i), kind, id) ==
            if other == kind && i == id then [] else OnlyAcks(nodes, kind, id)
  {
    if nodes != [] {
      OnlyCleared(nodes[1..], other, i, kind, id);
      if !Waits(nodes[0], other, i) {
        var rest := WithoutAcks(nodes[1..], other, i);
        assert ([nodes[0]] + rest)[1..] == rest;
      }
    }
  }

  lemma {:induction false} OnlyOthers(nodes: seq<AckNode>, i: u16, kind: Kind, id: u16)
    ensures OnlyAcks(OtherIds(nodes, i), kind, id) == if i == id then [] else OnlyAcks(nodes, kind, id)
  {
    if nodes != [] {
      OnlyOthers(nodes[1..], i, kind, id);
      var rest := OtherIds(nodes[1..], i);
      assert ([nodes[0]] + rest)[1..] == rest && [] + rest == rest;
    }
  }

  // ---------------------------------------------------------------- steps that change neither nodes nor table

  predicate Unchanged(s: State, r: State, awaited: Kind, id: u16) {
    Batch(r, awaited, id) == Batch(s, awaited, id) && r.subs == s.subs
  }

  predicate Emptied(r: State) {
    r.acks == [] && r.userAcks == [] && r.subs == []
  }

  /** The step changed nothing of these nodes and nothing in the table, unless it lost a clean session. */
  predicate Spares(s: State, r: State, awaited: Kind, id: u16) {
    if s.config.cleanSession && Drops(s, r) then Emptied(r) else Unchanged(s, r, awaited, id)
  }

  lemma {:induction false} SendSpares(s: State, t: State, p: Packet, outcome: SendOutcome, awaited: Kind, id: u16)
    requires Unchanged(s, t, awaited, id) && Holds(s, t)
    ensures Spares(s, Send(t, p, outcome), awaited, id)
  {
  }

  lemma {:induction false} HoldsSpares(s: State, t: State, awaited: Kind, id: u16)
    requires Unchanged(s, t, awaited, id) && Holds(s, t)
    ensures Spares(s, t, awaited, id)
  {
  }

  lemma {:induction false} LogSpares(s: State, e: Event, awaited: Kind, id: u16)
    requires e.Data? || e.UnsubscribedData?
    ensures Unchanged(s, Log(s, e), awaited, id) && Holds(s, Log(s, e)) && Spares(s, Log(s, e), awaited, id)
  {
  }

  lemma {:induction false} RecordSpares(s: State, e: Event, n: AckNode, awaited: Kind, id: u16)
    requires SubscriptionKind(awaited) && n.kind == PUBREL && e.Data?
    ensures var r := AddAck(Allocated(Log(s, e)), n); Unchanged(s, r, awaited, id) && Holds(s, r)
  {
    OnlyPushed(s.acks, n, awaited, id);
    hide OnlyAcks;
  }

  lemma {:induction false} PublishSpares(s: State, p: Packet, now: u32, memory: nat, outcome: SendOutcome, awaited: Kind, id: u16)
    requires SubscriptionKind(awaited) && p.Publish?
    ensures Spares(s, OnPublish(s, p, now, memory, outcome), awaited, id)
  {
    hide Send, Spares, Unchanged, AddAck, Holds, FindMatch, FindAck;
    var told := Log(s, Data(p));
    LogSpares(s, Data(p), awaited, id);
    LogSpares(s, UnsubscribedData(p), awaited, id);
    if FindMatch(s.subs, p.topic) == |s.subs| || p.qos == 0 {
    } else if p.qos == 1 {
      SendSpares(s, told, Packet.Puback(p.id), outcome, awaited, id);
    } else if FindAck(s.acks, PUBREL, p.id) < |s.acks| {
      StaysSpares(s, Packet.Pubrec(p.id), outcome, awaited, id);
    } else if memory >= 2 {
      var node := NewNode(s, PUBREL, p.id, Some(Packet.Pubrec(p.id)), Msg(p.topic, p.qos, SETTLED, 0), now);
      RecordSpares(s, Data(p), node, awaited, id);
      SendSpares(s, AddAck(Allocated(told), node), Packet.Pubrec(p.id), outcome, awaited, id);
    }
  }

  lemma {:induction false} StaysSpares(s: State, p: Packet, outcome: SendOutcome, awaited: Kind, id: u16)
    ensures Spares(s, s, awaited, id) && Spares(s, Send(s, p, outcome), awaited, id)
  {
    SendSpares(s, s, p, outcome, awaited, id);
  }

  lemma {:induction false} PubrelSpares(s: State, i: u16, outcome: SendOutcome, awaited: Kind, id: u16)
    requires SubscriptionKind(awaited)
    ensures Spares(s, OnPubrel(s, i, outcome), awaited, id)
  {
    var k := FindAck(s.acks, PUBREL, i);
    if k < |s.acks| {
      OnlyRemoved(s.acks, k, awaited, id);
    }
    var released := if k == |s.acks| then s else Destroy(RemoveAck(s, k), s.acks[k]);
    SendSpares(s, released, Packet.Pubcomp(i), outcome, awaited, id);
  }

  lemma {:induction false} MovedSpares(s: State, i: nat, now: u32, awaited: Kind, id: u16)
    requires SubscriptionKind(awaited) && i < |s.acks| && s.acks[i].kind == PUBREC
    ensures Unchanged(s, Moved(s, i, now), awaited, id) && Holds(s, Moved(s, i, now))
    ensures Unchanged(s, AddAck(RemoveAck(s, i), s.acks[i]), awaited, id) && Holds(s, AddAck(RemoveAck(s, i), s.acks[i]))
  {
    var n := s.acks[i];
    var taken := RemoveAck(s, i);
    var node := NewNode(taken, PUBCOMP, n.id, Some(Packet.Pubrel(n.id)), n.msg.(packetId := SETTLED), now);
    OnlyRemoved(s.acks, i, awaited, id);
    OnlyPushed(taken.acks, n, awaited, id);
    OnlyPushed(taken.acks, node, awaited, id);
    assert Moved(s, i, now).acks == taken.acks + [node] && Moved(s, i, now).userAcks == s.userAcks;
    hide OnlyAcks, RemoveAt;
  }

  lemma {:induction false} PubrecSpares(s: State, i: u16, now: u32, memory: nat, outcome: SendOutcome, awaited: Kind, id: u16)
    requires SubscriptionKind(awaited)
    ensures Spares(s, OnPubrec(s, i, now, memory, outcome), awaited, id)
  {
    var k := FindAck(s.acks, PUBREC, i);
    if FindAck(s.acks, PUBCOMP, i) == |s.acks| && k < |s.acks| {
      MovedSpares(s, k, now, awaited, id);
      assert memory >= 2 ==> OnPubrec(s, i, now, memory, outcome) == Send(Moved(s, k, now), Packet.Pubrel(i), outcome);
      hide OnlyAcks, Moved, Unchanged, AddAck, Spares;
      if memory < 2 {
        HoldsSpares(s, AddAck(RemoveAck(s, k), s.acks[k]), awaited, id);
      } else {
        SendSpares(s, Moved(s, k, now), Packet.Pubrel(i), outcome, awaited, id);
      }
    } else {
      StaysSpares(s, Packet.Pubrel(i), outcome, awaited, id);
    }
  }

  lemma {:induction false} PubackSpares(s: State, kind: Kind, i: u16, awaited: Kind, id: u16)
    requires SubscriptionKind(awaited) && (kind == PUBACK || kind == PUBCOMP)
    ensures Spares(s, OnPuback(s, kind, i), awaited, id)
  {
    var k := FindAck(s.acks, kind, i);
    if k < |s.acks| {
      OnlyRemoved(s.acks, k, awaited, id);
    }
  }

  lemma {:induction false} SyncSpares(s: State, awaited: Kind, id: u16)
    ensures Unchanged(s, Sync(s), awaited, id)
  {
    Resend.SyncRest(s);
    ClearedAppend(s.acks, s.userAcks, awaited, id);
    var all := Batch(s, awaited, id);
    assert all + [] == all;
  }

  lemma {:induction false} ClearSpares(s: State, kind: Kind, i: u16, awaited: Kind, id: u16)
    ensures Batch(ClearAcks(s, kind, i), awaited, id) == if kind == awaited && i == id then [] else Batch(s, awaited, id)
  {
    OnlyCleared(s.acks, kind, i, awaited, id);
    OnlyCleared(s.userAcks, kind, i, awaited, id);
  }

  /** A send, then perhaps a rollback of nodes of another kind or id. */
  lemma {:induction false} EndSpares(s: State, p: Packet, outcome: SendOutcome, kind: Kind, i: u16, awaited: Kind, id: u16)
    requires kind != awaited || i != id
    ensures Spares(s, Send(s, p, outcome), awaited, id)
    ensures Spares(s, ClearAcks(Send(s, p, outcome), kind, i), awaited, id)
  {
    StaysSpares(s, p, outcome, awaited, id);
    ClearSpares(Send(s, p, outcome), kind, i, awaited, id);
  }

  lemma {:induction false} NodesSpare(s: State, kind: Kind, i: u16, msgs: seq<Msg>, now: u32, awaited: Kind, id: u16)
    requires kind != awaited || i != id
    ensures Unchanged(s, AddUserNodes(s.(packetId := i), kind, i, msgs, now), awaited, id)
  {
    var nodes := BatchNodes(s.(packetId := i), kind, i, msgs, now);
    ClearedAppend(s.userAcks, nodes, awaited, id);
    NoneCleared(nodes, awaited, id);
  }

  lemma {:induction false} UnsubscribeSpares(s: State, topics: seq<string>, now: u32, memory: nat, awaited: Kind, id: u16)
    requires awaited != UNSUBACK || NextPacketId(s.packetId) != id
    ensures Unchanged(s, BeginUnsubscribe(s, topics, now, memory).state, awaited, id)
  {
    if TopicsValid(topics) && s.clientState == Connected && memory >= 2 {
      var i, left := NextPacketId(s.packetId), memory - 2;
      var msgs := UnsubMsgs(s.subs, topics, i);
      var part := if left < 2 * |topics| then msgs[..left / 2] else msgs;
      NodesSpare(s, UNSUBACK, i, part, now, awaited, id);
      ClearSpares(AddUserNodes(s.(packetId := i), UNSUBACK, i, part, now), UNSUBACK, i, awaited, id);
    }
  }

  lemma {:induction false} DiscardSpares(s: State, kind: Kind, i: u16, awaited: Kind, id: u16)
    requires kind != awaited || i != id
    ensures Unchanged(s, Discard(s, kind, i), awaited, id)
  {
    var k := FindAck(s.acks, kind, i);
    if k < |s.acks| {
      OnlyRemoved(s.acks, k, awaited, id);
    }
  }

  lemma {:induction false} TableOnly(s: State, subs: seq<Msg>, awaited: Kind, id: u16)
    ensures Batch(s.(subs := subs), awaited, id) == Batch(s, awaited, id)
  {
  }

  lemma {:induction false} RollbackSpares(s: State, subs: seq<Msg>, requests: seq<Request>, i: u16, awaited: Kind, id: u16)
    requires awaited != SUBACK || i != id
    ensures Batch(s.(subs := subs), awaited, id) == Batch(s, awaited, id)
    ensures Batch(RollbackSubscribe(s.(subs := subs), requests, i), awaited, id) == Batch(s, awaited, id)
  {
    hide Batch, ClearAcks, DropBatch;
    TableOnly(s, subs, awaited, id);
    ClearSpares(s.(subs := subs), SUBACK, i, awaited, id);
    TableOnly(ClearAcks(s.(subs := subs), SUBACK, i), DropBatch(subs, requests, i), awaited, id);
  }

  lemma {:induction false} BeginNodes(s: State, requests: seq<Request>, now: u32, memory: nat, awaited: Kind, id: u16)
    requires awaited != SUBACK || NextPacketId(s.packetId) != id
    ensures Batch(BeginSubscribe(s, requests, now, memory).state, awaited, id) == Batch(s, awaited, id)
  {
    if RequestsValid(requests) && s.clientState == Connected && memory >= 2 {
      var i, n, left := NextPacketId(s.packetId), |requests|, memory - 2;
      var msgs := SubMsgs(requests, i);
      var part := if left < 2 * n then msgs[..left / 2] else msgs;
      var noded := AddUserNodes(s.(packetId := i), SUBACK, i, part, now);
      NodesSpare(s, SUBACK, i, part, now, awaited, id);
      hide Batch, AddUserNodes, ClearAcks, RollbackSubscribe, SubMsgs;
      ClearSpares(noded, SUBACK, i, awaited, id);
      if left >= 2 * n {
        var entries := if left < 3 * n then msgs[..left - 2 * n] else msgs;
        RollbackSpares(noded, s.subs + entries, requests, i, awaited, id);
      }
    }
  }

  lemma {:induction false} BeginPublishSpares(s: State, qos: Acked, topic: string, body: nat, now: u32, memory: nat,
                                             awaited: Kind, id: u16)
    requires SubscriptionKind(awaited)
    ensures Spares(s, BeginPublish(s, qos, topic, body, now, memory), awaited, id)
  {
    var i := NextPacketId(s.packetId);
    OnlyPushed(s.userAcks, PublishNode(s.(packetId := i), qos, i, topic, body, now), awaited, id);
  }

  /** Operations that are about no SUBSCRIBE and no UNSUBSCRIBE. */
  predicate Aloof(op: Op) {
    || op.PublishPlain? || op.PublishBegin? || op.PublishEnd? || op.SyncLists? || op.ConnectionLost? || op.SetState?
  }

  lemma {:induction false} AloofSpares(s: State, op: Op, awaited: Kind, id: u16)
    requires SubscriptionKind(awaited) && Aloof(op)
    ensures Spares(s, Perform(s, op), awaited, id)
  {
    hide Batch, Send, ClearAcks, BeginPublish, BeginUnsubscribe, Sync, DropBatch;
    match op {
      case PublishPlain(topic, body, memory, outcome) => StaysSpares(s, Publish(false, 0, 0, topic, body), outcome, awaited, id);
      case PublishBegin(qos, topic, body, now, memory) => BeginPublishSpares(s, qos, topic, body, now, memory, awaited, id);
      case PublishEnd(qos, i, topic, body, outcome) =>
        EndSpares(s, Publish(false, qos, i, topic, body), outcome, PublishKind(qos), i, awaited, id);
      case SyncLists =>
        SyncSpares(s, awaited, id);
        SyncLoses(s, 0);
      case ConnectionLost => LostSpares(s, awaited, id);
      case SetState(state) => StateSpares(s, state, awaited, id);
    }
  }

  lemma {:induction false} StateSpares(s: State, state: ClientState, awaited: Kind, id: u16)
    ensures Spares(s, s.(clientState := state), awaited, id)
  {
  }

  lemma {:induction false} LostSpares(s: State, awaited: Kind, id: u16)
    ensures Spares(s, Disconnect(s), awaited, id)
  {
    StaysSpares(s, Packet.Unsuback(0), SocketError, awaited, id);
    assert Disconnect(s) == Send(s, Packet.Unsuback(0), SocketError);
  }

  // ---------------------------------------------------------------- operations that leave the nodes alone

  /** The scan runs and one of the nodes comes due. */
  ghost predicate Expires(s: State, wait: bool, input: ScanInput, awaited: Kind, id: u16) {
    && s.clientState == Connected && Remain(s.scanThrottle, input.clock(0)) == 0
    && exists n :: n in s.acks && Waits(n, awaited, id) && ComesDue(n, wait, input)
  }

  /** The operation may add or take such a node: another use of the id, its rollback, a discard, a reply with the id, a
      timeout, a purge. */
  ghost predicate Touches(s: State, op: Op, awaited: Kind, id: u16) {
    || Purges(s, op)
    || match op
       case SubscribeBegin(_, _, _) => awaited == SUBACK && NextPacketId(s.packetId) == id
       case SubscribeEnd(_, i, outcome) => awaited == SUBACK && outcome != Sent && i == id
       case UnsubscribeBegin(_, _, _) => awaited == UNSUBACK && NextPacketId(s.packetId) == id
       case UnsubscribeEnd(_, i, outcome) => awaited == UNSUBACK && outcome != Sent && i == id
       case UserDiscard(kind, i) => kind == awaited && i == id
       case Handle(p, _, _, _) => !Refused(p) && (p.Suback? || p.Unsuback?) && p.id == id
       case ScanList(wait, input) => Expires(s, wait, input, awaited, id)
       case _ => false
  }

  lemma {:induction false} DueNow(n: AckNode, wait: bool, input: ScanInput, k: nat)
    requires Remain(n.timer, input.clock(k)) == 0 || !wait
    ensures ComesDue(n, wait, input)
  {
  }

  lemma {:induction false} ScanLeaves(s: State, i: nat, k: nat, wait: bool, window: Timer, throttle: u32,
                                     input: ScanInput, awaited: Kind, id: u16)
    requires SubscriptionKind(awaited) && forall n | n in s.acks && Waits(n, awaited, id) :: !ComesDue(n, wait, input)
    ensures OnlyAcks(ScanFrom(s, i, k, wait, window, throttle, input).acks, awaited, id) == OnlyAcks(s.acks, awaited, id)
    ensures ScanFrom(s, i, k, wait, window, throttle, input).userAcks == s.userAcks
    decreases |s.acks| - i
  {
    hide OnlyAcks, Remain, ResendAt, ExpireAt, ComesDue;
    var now := input.clock(k);
    if i < |s.acks| && s.clientState == Connected && Remain(window, now) != 0 {
      var n := s.acks[i];
      assert n in s.acks;
      var remain := Remain(n.timer, now);
      var least := if remain != 0 then Min(remain, throttle) else throttle;
      if remain != 0 && wait {
        ScanLeaves(s, i + 1, k + 1, wait, window, least, input, awaited, id);
      } else if Resendable(n.kind) {
        ResendLeaves(s, i, now, input.sends(k), awaited, id);
        ScanLeaves(ResendAt(s, i, now, input.sends(k)), i + 1, k + 1, wait, window, least, input, awaited, id);
      } else {
        DueNow(n, wait, input, k);
        ExpireLeaves(s, i, awaited, id);
        ScanLeaves(ExpireAt(s, i), i, k + 1, wait, window, least, input, awaited, id);
      }
    }
  }

  lemma {:induction false} ResendLeaves(s: State, i: nat, now: u32, outcome: SendOutcome, awaited: Kind, id: u16)
    requires SubscriptionKind(awaited) && i < |s.acks| && Resendable(s.acks[i].kind)
    ensures var r := ResendAt(s, i, now, outcome);
            && OnlyAcks(r.acks, awaited, id) == OnlyAcks(s.acks, awaited, id) && r.userAcks == s.userAcks
            && forall n | n in r.acks && Waits(n, awaited, id) :: n in s.acks
  {
    OnlyUpdated(s.acks, i, Resent(s.acks[i], now, s.config), awaited, id);
  }

  lemma {:induction false} ExpireLeaves(s: State, i: nat, awaited: Kind, id: u16)
    requires i < |s.acks| && !Resendable(s.acks[i].kind) && !Waits(s.acks[i], awaited, id)
    ensures var r := ExpireAt(s, i);
            && OnlyAcks(r.acks, awaited, id) == OnlyAcks(s.acks, awaited, id) && r.userAcks == s.userAcks
            && forall n | n in r.acks :: n in s.acks
  {
    assert ExpireAt(s, i).acks == RemoveAt(s.acks, i);
    OnlyRemoved(s.acks, i, awaited, id);
  }

  lemma {:induction false} SubackLeaves(s: State, other: u16, codes: seq<byte>, awaited: Kind, id: u16)
    requires other != id
    ensures Batch(OnSuback(s, other, codes), awaited, id) == Batch(s, awaited, id)
  {
    hide OnlyAcks;
    if CountSubs(s.subs, other) == |codes| {
      SubackDestroys(s, 0, other, codes);
      assert s.acks[0..] == s.acks && s.acks[..0] + OtherIds(s.acks, other) == OtherIds(s.acks, other);
      OnlyOthers(s.acks, other, awaited, id);
    } else {
      ClearSpares(s, SUBACK, other, awaited, id);
    }
  }

  lemma {:induction false} UnsubackLeaves(s: State, other: u16, awaited: Kind, id: u16)
    requires other != id
    ensures Batch(UnsubackFrom(s, 0, other), awaited, id) == Batch(s, awaited, id)
  {
    hide OnlyAcks;
    UnsubackDestroys(s, 0, other);
    assert s.acks[0..] == s.acks && s.acks[..0] + OtherIds(s.acks, other) == OtherIds(s.acks, other);
    OnlyOthers(s.acks, other, awaited, id);
  }

  lemma {:induction false} HandleLeaves(s: State, p: Packet, now: u32, memory: nat, outcome: SendOutcome, awaited: Kind, id: u16)
    requires SubscriptionKind(awaited) && (Refused(p) || !(p.Suback? || p.Unsuback?) || p.id != id)
    ensures var r := Dispatch(s, p, now, memory, outcome);
            (s.config.cleanSession && Drops(s, r)) || Batch(r, awaited, id) == Batch(s, awaited, id)
  {
    hide OnPublish, OnPuback, OnPubrec, OnPubrel, OnSuback, UnsubackFrom, CountSubs;
    if !Refused(p) {
      match p {
        case Publish(_, _, _, _, _) => PublishSpares(s, p, now, memory, outcome, awaited, id);
        case Puback(i) => PubackSpares(s, PUBACK, i, awaited, id);
        case Pubcomp(i) => PubackSpares(s, PUBCOMP, i, awaited, id);
        case Pubrec(i) => PubrecSpares(s, i, now, memory, outcome, awaited, id);
        case Pubrel(i) => PubrelSpares(s, i, outcome, awaited, id);
        case Suback(other, codes) => SubackLeaves(s, other, codes, awaited, id);
        case Unsuback(other) => UnsubackLeaves(s, other, awaited, id);
        case _ =>
      }
    }
  }

  /** Without any of those the nodes stay, in their order. */
  lemma {:induction false} BatchKept(s: State, op: Op, awaited: Kind, id: u16)
    requires SubscriptionKind(awaited) && !Touches(s, op, awaited, id)
    ensures Batch(Perform(s, op), awaited, id) == Batch(s, awaited, id)
  {
    if Aloof(op) {
      AloofSpares(s, op, awaited, id);
    } else {
      CallLeaves(s, op, awaited, id);
    }
  }

  lemma {:induction false} CallLeaves(s: State, op: Op, awaited: Kind, id: u16)
    requires SubscriptionKind(awaited) && !Touches(s, op, awaited, id) && !Aloof(op)
    ensures Batch(Perform(s, op), awaited, id) == Batch(s, awaited, id)
  {
    hide Dispatch, BeginSubscribe, BeginUnsubscribe, Discard, ScanFrom, OnlyAcks;
    match op
    case SubscribeBegin(requests, now, memory) => BeginNodes(s, requests, now, memory, awaited, id);
    case UnsubscribeBegin(topics, now, memory) => UnsubscribeSpares(s, topics, now, memory, awaited, id);
    case UnsubscribeEnd(topics, i, outcome) => UnsubscribeEndLeaves(s, topics, i, outcome, awaited, id);
    case SubscribeEnd(requests, i, outcome) => SubscribeEndLeaves(s, requests, i, outcome, awaited, id);
    case UserDiscard(kind, i) => DiscardSpares(s, kind, i, awaited, id);
    case Handle(p, now, memory, outcome) => HandleLeaves(s, p, now, memory, outcome, awaited, id);
    case ScanList(wait, input) =>
      if s.clientState == Connected && Remain(s.scanThrottle, input.clock(0)) == 0 {
        ScanLeaves(s, 0, 0, wait, Timer(input.clock(0), ScanWindow(s.config)), 1000, input, awaited, id);
      }
    case Connack(_) =>
  }

  lemma {:induction false} SubscribeEndLeaves(s: State, requests: seq<Request>, i: u16, outcome: SendOutcome,
                                             awaited: Kind, id: u16)
    requires outcome == Sent || awaited != SUBACK || i != id
    ensures var r := FinishSubscribe(s, requests, i, outcome);
            (s.config.cleanSession && Drops(s, r)) || Batch(r, awaited, id) == Batch(s, awaited, id)
  {
    var sent := Send(s, Subscribe(i, Topics(requests)), outcome);
    StaysSpares(s, Subscribe(i, Topics(requests)), outcome, awaited, id);
    ClearSpares(sent, SUBACK, i, awaited, id);
    if outcome != Sent {
      TableOnly(ClearAcks(sent, SUBACK, i), DropBatch(sent.subs, requests, i), awaited, id);
    }
  }

  lemma {:induction false} UnsubscribeEndLeaves(s: State, topics: seq<string>, i: u16, outcome: SendOutcome,
                                               awaited: Kind, id: u16)
    requires outcome == Sent || awaited != UNSUBACK || i != id
    ensures var r := FinishUnsubscribe(s, topics, i, outcome);
            (s.config.cleanSession && Drops(s, r)) || Batch(r, awaited, id) == Batch(s, awaited, id)
  {
    StaysSpares(s, Unsubscribe(i, topics), outcome, awaited, id);
    ClearSpares(Send(s, Unsubscribe(i, topics), outcome), UNSUBACK, i, awaited, id);
  }

  // ---------------------------------------------------------------- the user list

  /** Those still on the user list. */
  function OnUser(s: State, awaited: Kind, id: u16): seq<AckNode> {
    OnlyAcks(s.userAcks, awaited, id)
  }

  /** What a step may do to the user list besides adding to it. */
  predicate UserShrinks(s: State, r: State) {
    r.userAcks == s.userAcks || r.userAcks == [] || exists kind, i :: r.userAcks == WithoutAcks(s.userAcks, kind, i)
  }

  lemma {:induction false} ShrinksClear(s: State, r: State, awaited: Kind, id: u16)
    requires UserShrinks(s, r) && OnUser(s, awaited, id) == []
    ensures OnUser(r, awaited, id) == []
  {
    if kind, i :| r.userAcks == WithoutAcks(s.userAcks, kind, i) {
      OnlyCleared(s.userAcks, kind, i, awaited, id);
    }
  }

  lemma {:induction false} SendShrinks(s: State, p: Packet, outcome: SendOutcome, kind: Kind, i: u16)
    ensures UserShrinks(s, Send(s, p, outcome)) && UserShrinks(s, ClearAcks(Send(s, p, outcome), kind, i))
  {
    var r := ClearAcks(Send(s, p, outcome), kind, i);
    if Send(s, p, outcome).userAcks == s.userAcks {
      assert r.userAcks == WithoutAcks(s.userAcks, kind, i);
    } else {
      assert r.userAcks == [];
    }
  }

  lemma {:induction false} HandleShrinks(s: State, p: Packet, now: u32, memory: nat, outcome: SendOutcome)
    ensures UserShrinks(s, Dispatch(s, p, now, memory, outcome))
  {
    hide FindAck, FindMatch, SubackFrom, UnsubackFrom, UserShrinks;
    if Refused(p) {
      ListKept(s, s);
      return;
    }
    match p
    case Suback(id, codes) =>
      SubackDestroys(s, 0, id, codes);
      SendShrinks(s, p, SendTimedOut, SUBACK, id);
      ListKept(s, SubackFrom(s, 0, id, codes));
      ShrinksSame(s, ClearAcks(Send(s, p, SendTimedOut), SUBACK, id), OnSuback(s, id, codes));
    case Unsuback(id) =>
      UnsubackDestroys(s, 0, id);
      ListKept(s, UnsubackFrom(s, 0, id));
    case _ => ReplyShrinks(s, Dispatch(s, p, now, memory, outcome));
  }

  lemma {:induction false} ListKept(s: State, r: State)
    requires r.userAcks == s.userAcks
    ensures UserShrinks(s, r)
  {
  }

  lemma {:induction false} ReplyShrinks(s: State, r: State)
    requires r.userAcks == s.userAcks || r.userAcks == []
    ensures UserShrinks(s, r)
  {
  }

  lemma {:induction false} ShrinksSame(s: State, r: State, t: State)
    requires UserShrinks(s, r)
    ensures t.userAcks == r.userAcks ==> UserShrinks(s, t)
  {
  }

  /** Once moved over, no such node comes back to the user list unless the id is used again. */
  lemma {:induction false} UserStaysClear(s: State, op: Op, awaited: Kind, id: u16)
    requires SubscriptionKind(awaited) && OnUser(s, awaited, id) == []
    requires op.SubscribeBegin? ==> awaited != SUBACK || NextPacketId(s.packetId) != id
    requires op.UnsubscribeBegin? ==> awaited != UNSUBACK || NextPacketId(s.packetId) != id
    ensures OnUser(Perform(s, op), awaited, id) == []
  {
    var r := Perform(s, op);
    hide UserShrinks, Send, ClearAcks, Dispatch, BeginSubscribe, BeginUnsubscribe, BeginPublish, ScanFrom, Sync, DropBatch;
    match op {
      case PublishPlain(topic, body, memory, outcome) =>
        SendShrinks(s, Publish(false, 0, 0, topic, body), outcome, SUBACK, 0);
      case PublishBegin(qos, topic, body, now, memory) =>
        PublishUser(s, qos, topic, body, now, memory, awaited, id);
        return;
      case PublishEnd(qos, i, topic, body, outcome) =>
        SendShrinks(s, Publish(false, qos, i, topic, body), outcome, PublishKind(qos), i);
      case SubscribeBegin(requests, now, memory) =>
        SubscribeUser(s, requests, now, memory, awaited, id);
        return;
      case SubscribeEnd(requests, i, outcome) =>
        var p := Subscribe(i, Topics(requests));
        SendShrinks(s, p, outcome, SUBACK, i);
        ShrinksSame(s, ClearAcks(Send(s, p, outcome), SUBACK, i), r);
      case UnsubscribeBegin(topics, now, memory) =>
        UnsubscribeUser(s, topics, now, memory, awaited, id);
        return;
      case UnsubscribeEnd(topics, i, outcome) => SendShrinks(s, Unsubscribe(i, topics), outcome, UNSUBACK, i);
      case UserDiscard(_, _) => ListKept(s, r);
      case SyncLists =>
        Presence.SyncMoves(s);
        SyncEmpties(s);
        ReplyShrinks(s, r);
      case Handle(p, now, memory, outcome) => HandleShrinks(s, p, now, memory, outcome);
      case ScanList(wait, input) =>
        Presence.ScanKeepsUserList(s, 0, 0, wait, Timer(input.clock(0), ScanWindow(s.config)), 1000, input);
        ListKept(s, r);
      case ConnectionLost => ReplyShrinks(s, r);
      case Connack(_) => ReplyShrinks(s, r);
      case SetState(_) => ListKept(s, r);
    }
    hide Perform;
    ShrinksClear(s, r, awaited, id);
  }

  lemma {:induction false} SyncEmpties(s: State)
    ensures Sync(s).userAcks == []
    decreases |s.userAcks|
  {
    if s.userAcks != [] {
      SyncEmpties(AddAck(s.(userAcks := s.userAcks[1..]), s.userAcks[0]));
    }
  }

  lemma {:induction false} PublishUser(s: State, qos: Acked, topic: string, body: nat, now: u32, memory: nat, awaited: Kind, id: u16)
    requires SubscriptionKind(awaited) && OnUser(s, awaited, id) == []
    ensures OnUser(BeginPublish(s, qos, topic, body, now, memory), awaited, id) == []
  {
    var i := NextPacketId(s.packetId);
    OnlyPushed(s.userAcks, PublishNode(s.(packetId := i), qos, i, topic, body, now), awaited, id);
  }

  lemma {:induction false} SubscribeUser(s: State, requests: seq<Request>, now: u32, memory: nat, awaited: Kind, id: u16)
    requires OnUser(s, awaited, id) == [] && (awaited != SUBACK || NextPacketId(s.packetId) != id)
    ensures OnUser(BeginSubscribe(s, requests, now, memory).state, awaited, id) == []
  {
    if RequestsValid(requests) && s.clientState == Connected && memory >= 2 {
      var i, left := NextPacketId(s.packetId), memory - 2;
      var msgs := SubMsgs(requests, i);
      var part := if left < 2 * |requests| then msgs[..left / 2] else msgs;
      NodesUser(s, SUBACK, i, part, now, awaited, id);
    }
  }

  lemma {:induction false} UnsubscribeUser(s: State, topics: seq<string>, now: u32, memory: nat, awaited: Kind, id: u16)
    requires OnUser(s, awaited, id) == [] && (awaited != UNSUBACK || NextPacketId(s.packetId) != id)
    ensures OnUser(BeginUnsubscribe(s, topics, now, memory).state, awaited, id) == []
  {
    if TopicsValid(topics) && s.clientState == Connected && memory >= 2 {
      var i, left := NextPacketId(s.packetId), memory - 2;
      var msgs := UnsubMsgs(s.subs, topics, i);
      var part := if left < 2 * |topics| then msgs[..left / 2] else msgs;
      NodesUser(s, UNSUBACK, i, part, now, awaited, id);
    }
  }

  lemma {:induction false} NodesUser(s: State, kind: Kind, i: u16, msgs: seq<Msg>, now: u32, awaited: Kind, id: u16)
    requires OnUser(s, awaited, id) == [] && (kind != awaited || i != id)
    ensures var r := AddUserNodes(s.(packetId := i), kind, i, msgs, now);
            OnUser(r, awaited, id) == [] && OnlyAcks(WithoutAcks(r.userAcks, kind, i), awaited, id) == []
  {
    var r := AddUserNodes(s.(packetId := i), kind, i, msgs, now);
    var nodes := BatchNodes(s.(packetId := i), kind, i, msgs, now);
    ClearedAppend(s.userAcks, nodes, awaited, id);
    NoneCleared(nodes, awaited, id);
    OnlyCleared(r.userAcks, kind, i, awaited, id);
  }

  // ---------------------------------------------------------------- in runs

  lemma {:induction false} BatchFrom(config: Config, ops: seq<Op>, i: nat, awaited: Kind, id: u16)
    requires SubscriptionKind(awaited) && i <= |ops|
    requires forall k | i <= k < |ops| :: !Touches(After(config, ops[..k]), ops[k], awaited, id)
    ensures Batch(After(config, ops), awaited, id) == Batch(After(config, ops[..i]), awaited, id)
    ensures (exists j :: i <= j < |ops| && ops[j].SyncLists?) ==> OnUser(After(config, ops), awaited, id) == []
    decreases |ops|
  {
    hide Touches, Perform, Batch;
    assert ops[..|ops|] == ops;
    if i < |ops| {
      var before, last := ops[..|ops| - 1], ops[|ops| - 1];
      forall k | i <= k < |before| ensures !Touches(After(config, before[..k]), before[k], awaited, id) {
        assert before[..k] == ops[..k];
      }
      assert before[..i] == ops[..i];
      BatchFrom(config, before, i, awaited, id);
      BatchKept(After(config, before), last, awaited, id);
      if j :| i <= j < |ops| && ops[j].SyncLists? {
        UserClears(config, before, last, i, j, awaited, id);
      }
    }
  }

  lemma {:induction false} UserClears(config: Config, before: seq<Op>, last: Op, i: nat, j: nat, awaited: Kind, id: u16)
    requires SubscriptionKind(awaited) && i <= j <= |before| && (if j == |before| then last else before[j]).SyncLists?
    requires (exists k :: i <= k < |before| && before[k].SyncLists?) ==> OnUser(After(config, before), awaited, id) == []
    requires !Touches(After(config, before), last, awaited, id)
    ensures OnUser(Perform(After(config, before), last), awaited, id) == []
  {
    var s := After(config, before);
    if last.SyncLists? {
      SyncEmpties(s);
    } else {
      assert before[j].SyncLists?;
      hide Perform, OnUser;
      UserStaysClear(s, last, awaited, id);
    }
  }}
