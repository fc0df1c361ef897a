/** SUBSCRIBE and SUBACK over whole runs against any broker: when nodes and pending entries stay paired, and what the
    table is once the SUBACK is handled. */
module PairingRuns {
  import opened Bytes
  import opened Common
  import opened PacketIds
  import opened Session
  import opened Requests
  import opened Operations
  import opened Effects
  import opened Subscriptions
  import opened Subscribing
  import opened Batches
  import opened Pairing

  // ---------------------------------------------------------------- the calls

  /** The filters with entries waiting for `id` are among `topics`. */
  ghost predicate Covers(topics: seq<string>, subs: seq<Msg>, id: u16) {
    forall t: string :: Pending(subs, id, t) > 0 ==> t in topics
  }

  /** A rollback that takes all nodes of `id` and the entries of `topics`. */
  lemma {:induction false} RollbackPairs(subs: seq<Msg>, r: State, topics: seq<string>, id: u16)
    requires Batch(r, SUBACK, id) == []
    requires forall t: string :: Pending(r.subs, id, t) == if t in topics then 0 else Pending(subs, id, t)
    ensures PairedIn(r, id) <==> Covers(topics, subs, id)
  {
    forall t: string ensures multiset(Filters(Batch(r, SUBACK, id)))[t] == 0 {
      TimesIn([], t);
    }
    if Covers(topics, subs, id) {
      forall t: string ensures Pending(r.subs, id, t) == 0 {
        assert Pending(subs, id, t) > 0 ==> t in topics;
      }
    }
    if PairedIn(r, id) {
      forall t: string | Pending(subs, id, t) > 0 ensures t in topics {
        assert Pending(r.subs, id, t) == multiset(Filters(Batch(r, SUBACK, id)))[t];
      }
    }
  }

  /** A SUBSCRIBE that gets its id and then runs out of memory. */
  predicate FailsHalfWay(s: State, requests: seq<Request>, memory: nat) {
    RequestsValid(requests) && s.clientState == Connected && 2 <= memory < 2 + 3 * |requests|
  }

  /** The filters whose entries its rollback takes. */
  function Withdrawn(requests: seq<Request>, memory: nat): seq<string> {
    if memory < 2 + 2 * |requests| then [] else Topics(requests)
  }

  lemma {:induction false} MsgsPending(requests: seq<Request>, i: u16, k: nat, id: u16, t: string)
    requires k <= |requests|
    ensures i != id || t !in Topics(requests) ==> Pending(SubMsgs(requests, i)[..k], id, t) == 0
    ensures i == id ==> Pending(SubMsgs(requests, i), id, t) == multiset(Topics(requests))[t]
  {
    BatchMsgs(requests, i);
    PendingIs(SubMsgs(requests, i), i, t);
    if i != id || t !in Topics(requests) {
      var msgs := SubMsgs(requests, i)[..k];
      forall m | m in msgs ensures m.topic != t || m.packetId != id {
        var j :| 0 <= j < k && msgs[j] == m;
        assert Topics(requests)[j] in Topics(requests);
      }
      NoPending(msgs, id, t);
    }
  }

  /** What is left after a SUBSCRIBE ran out of memory: no node of its id, and entries of it only of filters its
      rollback did not get to. */
  lemma {:induction false} FailsEmptied(s: State, requests: seq<Request>, now: u32, memory: nat, id: u16)
    requires FailsHalfWay(s, requests, memory) && NextPacketId(s.packetId) == id
    ensures var r, n, msgs := BeginSubscribe(s, requests, now, memory).state, |requests|, SubMsgs(requests, id);
            && Batch(r, SUBACK, id) == []
            && r.subs == if memory < 2 + 2 * n then s.subs
                         else DropBatch(s.subs + msgs[..memory - 2 - 2 * n], requests, id)
  {
    var n, left, msgs := |requests|, memory - 2, SubMsgs(requests, id);
    var part := if left < 2 * n then msgs[..left / 2] else msgs;
    var nodes := BatchNodes(s.(packetId := id), SUBACK, id, part, now);
    var noded := AddUserNodes(s.(packetId := id), SUBACK, id, part, now);
    hide Batch, AddUserNodes, DropBatch;
    if left < 2 * n {
      ClearSpares(noded, SUBACK, id, SUBACK, id);
    } else {
      ClearSpares(noded.(subs := s.subs + msgs[..left - 2 * n]), SUBACK, id, SUBACK, id);
      TableOnly(ClearAcks(noded.(subs := s.subs + msgs[..left - 2 * n]), SUBACK, id),
                DropBatch(s.subs + msgs[..left - 2 * n], requests, id), SUBACK, id);
    }
  }

  lemma {:induction false} BeginFails(s: State, requests: seq<Request>, now: u32, memory: nat, id: u16)
    requires FailsHalfWay(s, requests, memory) && NextPacketId(s.packetId) == id
    ensures var r := BeginSubscribe(s, requests, now, memory).state;
            PairedIn(r, id) <==> Covers(Withdrawn(requests, memory), s.subs, id)
  {
    var r, n := BeginSubscribe(s, requests, now, memory).state, |requests|;
    FailsEmptied(s, requests, now, memory, id);
    hide BeginSubscribe, Batch;
    if memory >= 2 + 2 * n {
      var entries := SubMsgs(requests, id)[..memory - 2 - 2 * n];
      forall t: string ensures Pending(r.subs, id, t) == if t in Topics(requests) then 0 else Pending(s.subs, id, t) {
        PendingBatch(s.subs + entries, requests, id, id, t);
        PendingAppend(s.subs, entries, id, t);
        MsgsPending(requests, id, memory - 2 - 2 * n, id, t);
      }
    }
    RollbackPairs(s.subs, r, Withdrawn(requests, memory), id);
  }

  lemma {:induction false} BeginElsewhere(s: State, requests: seq<Request>, now: u32, memory: nat, id: u16)
    requires NextPacketId(s.packetId) != id
    ensures var r := BeginSubscribe(s, requests, now, memory).state;
            Batch(r, SUBACK, id) == Batch(s, SUBACK, id) && forall t: string :: Pending(r.subs, id, t) == Pending(s.subs, id, t)
  {
    BeginNodes(s, requests, now, memory, SUBACK, id);
    BeginTable(s, requests, now, memory);
    hide BeginSubscribe, Batch, SubMsgs, DropBatch, Pending;
    var i, n, left := NextPacketId(s.packetId), |requests|, memory - 2;
    if RequestsValid(requests) && s.clientState == Connected && left >= 2 * n {
      EntriesElsewhere(s.subs, requests, i, if left < 3 * n then left - 2 * n else n, id);
    }
  }

  /** The table after the call, as far as it got. */
  lemma {:induction false} BeginTable(s: State, requests: seq<Request>, now: u32, memory: nat)
    ensures var i, n, left := NextPacketId(s.packetId), |requests|, memory - 2;
            BeginSubscribe(s, requests, now, memory).state.subs ==
            if !RequestsValid(requests) || s.clientState != Connected || left < 2 * n then s.subs
            else if left < 3 * n then DropBatch(s.subs + SubMsgs(requests, i)[..left - 2 * n], requests, i)
            else s.subs + SubMsgs(requests, i)[..n]
  {
    var i := NextPacketId(s.packetId);
    var msgs := SubMsgs(requests, i);
    assert msgs[..|requests|] == msgs;
    if 2 <= memory < 2 + 2 * |requests| {
      var nodes := BatchNodes(s.(packetId := i), SUBACK, i, msgs[..(memory - 2) / 2], now);
    }
  }

  /** Entries of another id added, and perhaps dropped again. */
  lemma {:induction false} EntriesElsewhere(subs: seq<Msg>, requests: seq<Request>, i: u16, k: nat, id: u16)
    requires k <= |requests| && i != id
    ensures var more := subs + SubMsgs(requests, i)[..k];
            forall t: string :: Pending(more, id, t) == Pending(DropBatch(more, requests, i), id, t) == Pending(subs, id, t)
  {
    var entries := SubMsgs(requests, i)[..k];
    forall t: string
      ensures Pending(subs + entries, id, t) == Pending(DropBatch(subs + entries, requests, i), id, t) == Pending(subs, id, t)
    {
      PendingBatch(subs + entries, requests, i, id, t);
      PendingAppend(subs, entries, id, t);
      MsgsPending(requests, i, k, id, t);
    }
  }

  lemma {:induction false} NodesAsk(nodes: seq<AckNode>, requests: seq<Request>, id: u16)
    requires |nodes| == |requests| && forall k | 0 <= k < |nodes| :: nodes[k].msg == SubMsgs(requests, id)[k]
    ensures Filters(nodes) == Topics(requests)
  {
    BatchMsgs(requests, id);
  }

  /** A SUBSCRIBE that gets as far as its send: its nodes come last. */
  lemma {:induction false} BatchAdded(s: State, requests: seq<Request>, now: u32, memory: nat, id: u16)
    returns (nodes: seq<AckNode>)
    requires BeginSubscribe(s, requests, now, memory).ready && NextPacketId(s.packetId) == id
    ensures var r := BeginSubscribe(s, requests, now, memory).state;
            && Batch(r, SUBACK, id) == Batch(s, SUBACK, id) + nodes && r.subs == s.subs + SubMsgs(requests, id)
    ensures Filters(nodes) == Topics(requests) && |nodes| == |requests|
    ensures forall k | 0 <= k < |nodes| :: nodes[k].msg == SubMsgs(requests, id)[k]
  {
    var r, msgs := BeginSubscribe(s, requests, now, memory).state, SubMsgs(requests, id);
    nodes := BatchNodes(s.(packetId := id), SUBACK, id, msgs, now);
    assert r.acks == s.acks && r.userAcks == s.userAcks + nodes && r.subs == s.subs + msgs;
    hide BeginSubscribe, OnlyAcks, AddUserNodes, Filters, Topics, SubMsgs;
    NodesAsk(nodes, requests, id);
    ClearedAppend(s.userAcks, nodes, SUBACK, id);
    AllCleared(nodes, SUBACK, id);
    var acks, user := OnlyAcks(s.acks, SUBACK, id), OnlyAcks(s.userAcks, SUBACK, id);
    assert acks + (user + nodes) == acks + user + nodes;
  }

  lemma {:induction false} BeginAdds(s: State, requests: seq<Request>, now: u32, memory: nat, id: u16)
    requires BeginSubscribe(s, requests, now, memory).ready && NextPacketId(s.packetId) == id && PairedIn(s, id)
    ensures PairedIn(BeginSubscribe(s, requests, now, memory).state, id)
  {
    hide Batch, BeginSubscribe, Filters;
    var r, msgs := BeginSubscribe(s, requests, now, memory).state, SubMsgs(requests, id);
    var nodes := BatchAdded(s, requests, now, memory, id);
    forall t: string ensures Pending(r.subs, id, t) == multiset(Filters(Batch(r, SUBACK, id)))[t] {
      PendingAppend(s.subs, msgs, id, t);
      MsgsPending(requests, id, 0, id, t);
      TimesAppend(Batch(s, SUBACK, id), nodes, t);
      assert Pending(s.subs, id, t) == multiset(Filters(Batch(s, SUBACK, id)))[t];
    }
  }

  lemma {:induction false} SamePaired(s: State, r: State, id: u16)
    requires Batch(r, SUBACK, id) == Batch(s, SUBACK, id) && forall t: string :: Pending(r.subs, id, t) == Pending(s.subs, id, t)
    ensures PairedIn(r, id) <==> PairedIn(s, id)
  {
    hide Batch, Filters;
    if PairedIn(r, id) {
      forall t: string ensures Pending(s.subs, id, t) == multiset(Filters(Batch(s, SUBACK, id)))[t] {
        assert Pending(r.subs, id, t) == multiset(Filters(Batch(r, SUBACK, id)))[t];
      }
    }
    if PairedIn(s, id) {
      forall t: string ensures Pending(r.subs, id, t) == multiset(Filters(Batch(r, SUBACK, id)))[t] {
        assert Pending(s.subs, id, t) == multiset(Filters(Batch(s, SUBACK, id)))[t];
      }
    }
  }

  lemma {:induction false} EndFails(s: State, requests: seq<Request>, outcome: SendOutcome, id: u16)
    requires outcome != Sent
    ensures var sent := Send(s, Subscribe(id, Topics(requests)), outcome);
            PairedIn(FinishSubscribe(s, requests, id, outcome), id) <==> Covers(Topics(requests), sent.subs, id)
  {
    var sent := Send(s, Subscribe(id, Topics(requests)), outcome);
    var r := FinishSubscribe(s, requests, id, outcome);
    ClearSpares(sent, SUBACK, id, SUBACK, id);
    assert Batch(r, SUBACK, id) == [];
    forall t: string ensures Pending(r.subs, id, t) == if t in Topics(requests) then 0 else Pending(sent.subs, id, t) {
      PendingBatch(sent.subs, requests, id, id, t);
    }
    RollbackPairs(sent.subs, r, Topics(requests), id);
  }

  lemma {:induction false} EndElsewhere(s: State, requests: seq<Request>, i: u16, outcome: SendOutcome, id: u16)
    requires outcome != Sent && i != id && PairedIn(s, id)
    ensures PairedIn(FinishSubscribe(s, requests, i, outcome), id)
    ensures var sent := Send(s, Subscribe(i, Topics(requests)), outcome);
            Batch(FinishSubscribe(s, requests, i, outcome), SUBACK, id) == Batch(sent, SUBACK, id)
  {
    var sent := Send(s, Subscribe(i, Topics(requests)), outcome);
    var r := FinishSubscribe(s, requests, i, outcome);
    StaysSpares(s, Subscribe(i, Topics(requests)), outcome, SUBACK, id);
    SparesPairs(s, sent, id);
    ClearSpares(sent, SUBACK, i, SUBACK, id);
    assert Batch(r, SUBACK, id) == Batch(sent, SUBACK, id);
    hide Send, FinishSubscribe, Batch;
    forall t: string ensures Pending(DropBatch(sent.subs, requests, i), id, t) == Pending(sent.subs, id, t) {
      PendingBatch(sent.subs, requests, i, id, t);
    }
    assert r.subs == DropBatch(sent.subs, requests, i) by { FinishedTable(s, requests, i, outcome); }
    SamePaired(sent, r, id);
  }

  lemma {:induction false} FinishedTable(s: State, requests: seq<Request>, i: u16, outcome: SendOutcome)
    requires outcome != Sent
    ensures FinishSubscribe(s, requests, i, outcome).subs ==
            DropBatch(Send(s, Subscribe(i, Topics(requests)), outcome).subs, requests, i)
  {
  }

  /** A discard that finds a node. */
  predicate Discards(s: State, kind: Kind, i: u16) {
    1 <= i <= MAX_PACKET_ID && FindAck(s.acks, kind, i) < |s.acks|
  }

  /** A discarded SUBACK node leaves its entry behind. */
  lemma {:induction false} DiscardBreaks(s: State, id: u16)
    requires PairedIn(s, id) && Discards(s, SUBACK, id)
    ensures !PairedIn(Discard(s, SUBACK, id), id)
  {
    var k, r := FindAck(s.acks, SUBACK, id), Discard(s, SUBACK, id);
    var t, user := s.acks[k].msg.topic, OnlyAcks(s.userAcks, SUBACK, id);
    WaitingWithout(s.acks, k, id);
    assert r.acks == RemoveAt(s.acks, k) && r.userAcks == s.userAcks && r.subs == s.subs;
    TimesAppend(OnlyAcks(s.acks, SUBACK, id), user, t);
    TimesAppend(OnlyAcks(r.acks, SUBACK, id), user, t);
    assert Pending(s.subs, id, t) == multiset(Filters(Batch(s, SUBACK, id)))[t];
    assert Pending(r.subs, id, t) != multiset(Filters(Batch(r, SUBACK, id)))[t];
  }

  // ---------------------------------------------------------------- one operation

  /** The packet, when handled, does not come between the nodes and the entries of `id`. */
  ghost predicate HarmlessReply(s: State, p: Packet, id: u16) {
    match p
    case Suback(other, codes) => other == id || CountSubs(s.subs, other) != |codes| || !Overlaps(s, other, id)
    case Unsuback(other) => forall t: string :: EntriesTaken(s, other, id, t) == NodesTaken(s, other, id, t)
    case _ => true
  }

  /** Nor does the operation: no rollback of another use of the id that misses a filter, no discard of a node, no reply
      as above, no timeout of some but not all nodes of a filter. */
  ghost predicate Harmless(s: State, op: Op, id: u16) {
    match op
    case SubscribeBegin(requests, _, memory) =>
      FailsHalfWay(s, requests, memory) && NextPacketId(s.packetId) == id ==>
        Covers(Withdrawn(requests, memory), s.subs, id)
    case SubscribeEnd(requests, i, outcome) =>
      outcome != Sent && i == id ==> Covers(Topics(requests), Send(s, Subscribe(i, Topics(requests)), outcome).subs, id)
    case UserDiscard(kind, i) => !(kind == SUBACK && i == id && Discards(s, kind, i))
    case Handle(p, _, _, _) => Refused(p) || HarmlessReply(s, p, id)
    case ScanList(wait, input) => WholeFilters(s, wait, input, id)
    case _ => true
  }

  lemma {:induction false} HandlePairs(s: State, p: Packet, now: u32, memory: nat, outcome: SendOutcome, id: u16)
    requires StateOk(s) && PairedIn(s, id) && id != SETTLED
    ensures PairedIn(Dispatch(s, p, now, memory, outcome), id) <==> Refused(p) || HarmlessReply(s, p, id)
  {
    var r := Dispatch(s, p, now, memory, outcome);
    hide StateOk, PairedIn, OnPublish, OnPuback, OnPubrec, OnPubrel, OnSuback, UnsubackFrom, Overlaps, EntriesTaken,
         NodesTaken, Spares, CountSubs;
    if Refused(p) {
      return;
    }
    match p {
      case Publish(_, _, _, _, _) => PublishSpares(s, p, now, memory, outcome, SUBACK, id);
      case Puback(i) => PubackSpares(s, PUBACK, i, SUBACK, id);
      case Pubcomp(i) => PubackSpares(s, PUBCOMP, i, SUBACK, id);
      case Pubrec(i) => PubrecSpares(s, i, now, memory, outcome, SUBACK, id);
      case Pubrel(i) => PubrelSpares(s, i, outcome, SUBACK, id);
      case Suback(other, codes) =>
        if other == id || CountSubs(s.subs, other) != |codes| {
          SubackPairs(s, other, codes, id);
        } else {
          OtherSubackPairs(s, other, codes, id);
        }
        return;
      case Unsuback(other) =>
        UnsubackPairs(s, other, id);
        return;
      case _ => return;
    }
    SparesPairs(s, r, id);
  }

  /** An operation keeps a SUBSCRIBE paired exactly when it is harmless to it. */
  lemma {:induction false} PairingKept(s: State, op: Op, id: u16)
    requires StateOk(s) && PairedIn(s, id) && id != SETTLED
    ensures PairedIn(Perform(s, op), id) <==> Harmless(s, op, id)
  {
    if Aloof(op) {
      AloofSpares(s, op, SUBACK, id);
      hide Perform, PairedIn, Spares;
      SparesPairs(s, Perform(s, op), id);
    } else {
      CallPairs(s, op, id);
    }
  }

  lemma {:induction false} CallPairs(s: State, op: Op, id: u16)
    requires StateOk(s) && PairedIn(s, id) && id != SETTLED && !Aloof(op)
    ensures PairedIn(Perform(s, op), id) <==> Harmless(s, op, id)
  {
    hide StateOk, PairedIn, Dispatch, Scan, BeginSubscribe, BeginUnsubscribe, HarmlessReply, WholeFilters, Covers, Discard,
         ClearAcks, Send, Spares;
    match op
    case SubscribeBegin(requests, now, memory) => SubscribeBeginPairs(s, requests, now, memory, id);
    case SubscribeEnd(requests, i, outcome) => SubscribeEndPairs(s, requests, i, outcome, id);
    case UserDiscard(kind, i) => UserDiscardPairs(s, kind, i, id);
    case Handle(p, now, memory, outcome) =>
      HandlePairs(s, p, now, memory, outcome, id);
    case ScanList(wait, input) => ScanPairs(s, wait, input, id);
    case UnsubscribeBegin(topics, now, memory) =>
      UnsubscribeSpares(s, topics, now, memory, SUBACK, id);
      SamePaired(s, Perform(s, op), id);
    case UnsubscribeEnd(topics, i, outcome) =>
      EndSpares(s, Unsubscribe(i, topics), outcome, UNSUBACK, i, SUBACK, id);
      SparesPairs(s, Perform(s, op), id);
    case Connack(present) =>
      var r := Perform(s, op);
      if present {
        SamePaired(s, r, id);
      } else {
        EmptiedPairs(r, id);
      }
  }

  lemma {:induction false} SubscribeBeginPairs(s: State, requests: seq<Request>, now: u32, memory: nat, id: u16)
    requires PairedIn(s, id)
    ensures PairedIn(BeginSubscribe(s, requests, now, memory).state, id) <==>
            (FailsHalfWay(s, requests, memory) && NextPacketId(s.packetId) == id ==>
               Covers(Withdrawn(requests, memory), s.subs, id))
  {
    hide PairedIn, Covers;
    if NextPacketId(s.packetId) != id {
      BeginElsewhere(s, requests, now, memory, id);
      SamePaired(s, BeginSubscribe(s, requests, now, memory).state, id);
    } else if FailsHalfWay(s, requests, memory) {
      BeginFails(s, requests, now, memory, id);
    } else if BeginSubscribe(s, requests, now, memory).ready {
      BeginAdds(s, requests, now, memory, id);
    }
  }

  lemma {:induction false} SubscribeEndPairs(s: State, requests: seq<Request>, i: u16, outcome: SendOutcome, id: u16)
    requires PairedIn(s, id)
    ensures PairedIn(FinishSubscribe(s, requests, i, outcome), id) <==>
            (outcome != Sent && i == id ==> Covers(Topics(requests), Send(s, Subscribe(i, Topics(requests)), outcome).subs, id))
  {
    hide PairedIn, Covers;
    if outcome == Sent {
      SamePaired(s, FinishSubscribe(s, requests, i, outcome), id);
    } else if i == id {
      EndFails(s, requests, outcome, id);
    } else {
      EndElsewhere(s, requests, i, outcome, id);
    }
  }

  lemma {:induction false} UserDiscardPairs(s: State, kind: Kind, i: u16, id: u16)
    requires PairedIn(s, id)
    ensures PairedIn(Discard(s, kind, i), id) <==> !(kind == SUBACK && i == id && Discards(s, kind, i))
  {
    if kind == SUBACK && i == id && Discards(s, kind, i) {
      DiscardBreaks(s, id);
    } else {
      if kind != SUBACK || i != id {
        DiscardSpares(s, kind, i, SUBACK, id);
      }
      hide PairedIn;
      SamePaired(s, Discard(s, kind, i), id);
    }
  }
}
