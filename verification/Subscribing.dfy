/** SUBSCRIBE from the call to its end: pairing, rollback and timeout. */
module Subscribing {
  import opened Bytes
  import opened Common
  import opened Timers
  import opened PacketIds
  import opened Session
  import opened Requests
  import opened Effects
  import opened Subscriptions

  /** Nothing of an earlier SUBSCRIBE has this id. */
  predicate Unused(s: State, id: u16) {
    && (forall n | n in s.acks :: !Waits(n, SUBACK, id))
    && (forall n | n in s.userAcks :: !Waits(n, SUBACK, id))
    && (forall m | m in s.subs :: m.packetId != id)
  }

  // ---------------------------------------------------------------- lists

  lemma {:induction false} WithoutAppend(a: seq<AckNode>, b: seq<AckNode>, kind: Kind, id: u16)
    ensures WithoutAcks(a + b, kind, id) == WithoutAcks(a, kind, id) + WithoutAcks(b, kind, id)
  {
    if a == [] {
      assert a + b == b;
    } else {
      assert (a + b)[1..] == a[1..] + b;
      WithoutAppend(a[1..], b, kind, id);
    }
  }

  lemma {:induction false} OnlyAppend(a: seq<AckNode>, b: seq<AckNode>, kind: Kind, id: u16)
    ensures OnlyAcks(a + b, kind, id) == OnlyAcks(a, kind, id) + OnlyAcks(b, kind, id)
  {
    if a == [] {
      assert a + b == b;
    } else {
      assert (a + b)[1..] == a[1..] + b;
      OnlyAppend(a[1..], b, kind, id);
    }
  }

  lemma {:induction false} ClearedAppend(a: seq<AckNode>, b: seq<AckNode>, kind: Kind, id: u16)
    ensures WithoutAcks(a + b, kind, id) == WithoutAcks(a, kind, id) + WithoutAcks(b, kind, id)
    ensures OnlyAcks(a + b, kind, id) == OnlyAcks(a, kind, id) + OnlyAcks(b, kind, id)
  {
    WithoutAppend(a, b, kind, id);
    OnlyAppend(a, b, kind, id);
  }

  lemma {:induction false} NoneCleared(nodes: seq<AckNode>, kind: Kind, id: u16)
    requires forall n | n in nodes :: !Waits(n, kind, id)
    ensures WithoutAcks(nodes, kind, id) == nodes && OnlyAcks(nodes, kind, id) == []
  {
    if nodes != [] {
      assert nodes[0] in nodes;
      NoneCleared(nodes[1..], kind, id);
    }
  }

  lemma {:induction false} AllCleared(nodes: seq<AckNode>, kind: Kind, id: u16)
    requires forall n | n in nodes :: Waits(n, kind, id)
    ensures WithoutAcks(nodes, kind, id) == [] && OnlyAcks(nodes, kind, id) == nodes
  {
    if nodes != [] {
      assert nodes[0] in nodes;
      AllCleared(nodes[1..], kind, id);
    }
  }

  /** The nodes of a batch are appended in its order. */
  lemma {:induction false} BatchNodes(s: State, kind: Kind, id: u16, msgs: seq<Msg>, now: u32) returns (nodes: seq<AckNode>)
    ensures var r := AddUserNodes(s, kind, id, msgs, now);
            && r == s.(userAcks := s.userAcks + nodes, nextAddress := r.nextAddress)
            && |nodes| == |msgs| && forall k | 0 <= k < |nodes| :: Waits(nodes[k], kind, id) && nodes[k].msg == msgs[k]
    ensures forall n | n in nodes :: n.packet == None && n.repeatCount == 0 && n.timer == Timer(now, s.config.ackTimeout)
    decreases |msgs|
  {
    if msgs == [] {
      nodes := [];
      assert s.userAcks + [] == s.userAcks;
    } else {
      var node := NewNode(s, kind, id, None, msgs[0], now);
      var more := BatchNodes(Allocated(s).(userAcks := s.userAcks + [node]), kind, id, msgs[1..], now);
      nodes := [node] + more;
      assert s.userAcks + [node] + more == s.userAcks + nodes;
    }
  }

  // ---------------------------------------------------------------- the table

  lemma {:induction false} DropAppend(a: seq<Msg>, b: seq<Msg>, sel: Selector)
    ensures DropSubs(a + b, sel) == DropSubs(a, sel) + DropSubs(b, sel)
  {
    if a == [] {
      assert a + b == b;
    } else {
      assert (a + b)[1..] == a[1..] + b;
      DropAppend(a[1..], b, sel);
    }
  }

  lemma {:induction false} NoneDropped(subs: seq<Msg>, sel: Selector)
    requires forall m | m in subs :: !Selects(sel, m)
    ensures DropSubs(subs, sel) == subs
  {
    if subs != [] {
      assert subs[0] in subs;
      NoneDropped(subs[1..], sel);
    }
  }

  lemma {:induction false} DropMembers(subs: seq<Msg>, sel: Selector)
    ensures forall m | m in DropSubs(subs, sel) :: m in subs && !Selects(sel, m)
  {
    if subs != [] {
      DropMembers(subs[1..], sel);
    }
  }

  lemma {:induction false} DropTwice(subs: seq<Msg>, topic: string, id: u16)
    ensures DropSubs(DropSubs(subs, SameTopicSameId(topic, id)), WithId(id)) == DropSubs(subs, WithId(id))
  {
    if subs != [] {
      DropTwice(subs[1..], topic, id);
      if !Selects(SameTopicSameId(topic, id), subs[0]) {
        var rest := DropSubs(subs[1..], SameTopicSameId(topic, id));
        assert ([subs[0]] + rest)[1..] == rest;
      }
    }
  }

  /** A batch dropped filter by filter: exactly the entries waiting for its id. */
  lemma {:induction false} BatchDropped(subs: seq<Msg>, requests: seq<Request>, id: u16)
    requires forall m | m in subs && m.packetId == id :: m.topic in Topics(requests)
    ensures DropBatch(subs, requests, id) == DropSubs(subs, WithId(id))
    decreases |requests|
  {
    if requests == [] {
      NoneDropped(subs, WithId(id));
    } else {
      var next := DropSubs(subs, SameTopicSameId(requests[0].topic, id));
      DropMembers(subs, SameTopicSameId(requests[0].topic, id));
      BatchDropped(next, requests[1..], id);
      DropTwice(subs, requests[0].topic, id);
    }
  }

  lemma {:induction false} BatchMsgs(requests: seq<Request>, id: u16)
    ensures |Topics(requests)| == |requests|
    ensures forall k | 0 <= k < |requests| ::
              SubMsgs(requests, id)[k].topic == Topics(requests)[k] && SubMsgs(requests, id)[k].packetId == id
    ensures PendingFilters(SubMsgs(requests, id), id) == Topics(requests)
  {
    if requests != [] {
      BatchMsgs(requests[1..], id);
      assert SubMsgs(requests, id)[1..] == SubMsgs(requests[1..], id);
    }
  }

  lemma {:induction false} PendingFiltersAppend(a: seq<Msg>, b: seq<Msg>, id: u16)
    ensures PendingFilters(a + b, id) == PendingFilters(a, id) + PendingFilters(b, id)
  {
    if a == [] {
      assert a + b == b;
    } else {
      assert (a + b)[1..] == a[1..] + b;
      PendingFiltersAppend(a[1..], b, id);
    }
  }

  lemma {:induction false} NonePending(subs: seq<Msg>, id: u16)
    requires forall m | m in subs :: m.packetId != id
    ensures PendingFilters(subs, id) == []
  {
    if subs != [] {
      assert subs[0] in subs;
      NonePending(subs[1..], id);
    }
  }

  // ---------------------------------------------------------------- the call

  /** The client is connected, every filter has a length, and the memory is enough: the list, the packet, and `blocks`
      more. */
  predicate GoesOut(s: State, filters: seq<string>, blocks: nat, memory: nat) {
    s.clientState == Connected && filters != [] && "" !in filters && memory >= 2 + blocks
  }

  /** Exactly then a SUBSCRIBE gets as far as its send: two blocks a filter for its node, one for its entry. */
  lemma {:induction false} SubscribeReady(s: State, requests: seq<Request>, now: u32, memory: nat)
    ensures BeginSubscribe(s, requests, now, memory).ready <==> GoesOut(s, Topics(requests), 3 * |requests|, memory)
  {
    FiltersAsked(requests);
    hide AddUserNodes, SubMsgs, ClearAcks;
  }

  lemma {:induction false} FiltersAsked(requests: seq<Request>)
    ensures "" in Topics(requests) <==> exists r :: r in requests && r.topic == ""
    ensures Topics(requests) == [] <==> requests == []
  {
    if requests != [] {
      FiltersAsked(requests[1..]);
      if r :| r in requests && r.topic == "" {
        assert r == requests[0] || r in requests[1..];
      }
      if "" in Topics(requests) {
        if requests[0].topic == "" {
          assert requests[0] in requests;
        } else {
          var r :| r in requests[1..] && r.topic == "";
          assert r in requests;
        }
      }
    }
  }

  /** A SUBSCRIBE that gets as far as its send has one node and one entry for each filter, in order, and changes
      nothing else. */
  lemma {:induction false} SubscribePairs(s: State, requests: seq<Request>, now: u32, memory: nat)
    requires BeginSubscribe(s, requests, now, memory).ready && Unused(s, NextPacketId(s.packetId))
    ensures var r, id := BeginSubscribe(s, requests, now, memory).state, NextPacketId(s.packetId);
            && Filters(OnlyAcks(r.userAcks, SUBACK, id)) == PendingFilters(r.subs, id) == Topics(requests)
            && Paired(r.subs, OnlyAcks(r.userAcks, SUBACK, id), id)
            && r.acks == s.acks && WithoutAcks(r.userAcks, SUBACK, id) == s.userAcks
            && DropSubs(r.subs, WithId(id)) == s.subs
  {
    var r, id := BeginSubscribe(s, requests, now, memory).state, NextPacketId(s.packetId);
    var msgs := SubMsgs(requests, id);
    var nodes := BatchNodes(s.(packetId := id), SUBACK, id, msgs, now);
    assert r.acks == s.acks && r.userAcks == s.userAcks + nodes && r.subs == s.subs + msgs;
    hide BeginSubscribe, SubMsgs, AddUserNodes;
    BatchListed(s.userAcks, requests, id, nodes);
    BatchTabled(s.subs, requests, id);
    hide OnlyAcks, WithoutAcks, DropSubs, Filters, PendingFilters;
    forall t: string ensures Pending(r.subs, id, t) == multiset(Filters(OnlyAcks(r.userAcks, SUBACK, id)))[t] {
      PendingIs(r.subs, id, t);
    }
  }

  lemma {:induction false} BatchListed(userAcks: seq<AckNode>, requests: seq<Request>, id: u16, nodes: seq<AckNode>)
    requires forall n | n in userAcks :: !Waits(n, SUBACK, id)
    requires |nodes| == |requests|
    requires forall k | 0 <= k < |nodes| :: Waits(nodes[k], SUBACK, id) && nodes[k].msg == SubMsgs(requests, id)[k]
    ensures Filters(OnlyAcks(userAcks + nodes, SUBACK, id)) == Topics(requests)
    ensures WithoutAcks(userAcks + nodes, SUBACK, id) == userAcks
  {
    BatchMsgs(requests, id);
    ClearedAppend(userAcks, nodes, SUBACK, id);
    NoneCleared(userAcks, SUBACK, id);
    AllCleared(nodes, SUBACK, id);
    hide OnlyAcks, WithoutAcks, SubMsgs, Topics;
    assert [] + nodes == nodes && userAcks + [] == userAcks;
    assert Filters(nodes) == Topics(requests);
  }

  lemma {:induction false} BatchTabled(subs: seq<Msg>, requests: seq<Request>, id: u16)
    requires forall m | m in subs :: m.packetId != id
    ensures PendingFilters(subs + SubMsgs(requests, id), id) == Topics(requests)
    ensures DropSubs(subs + SubMsgs(requests, id), WithId(id)) == subs
  {
    var msgs := SubMsgs(requests, id);
    BatchMsgs(requests, id);
    PendingFiltersAppend(subs, msgs, id);
    NonePending(subs, id);
    DropAppend(subs, msgs, WithId(id));
    NoneDropped(subs, WithId(id));
    BatchAllDropped(msgs, id);
    hide PendingFilters, DropSubs, SubMsgs, Topics;
    assert [] + Topics(requests) == Topics(requests) && subs + [] == subs;
  }

  lemma {:induction false} BatchAllDropped(msgs: seq<Msg>, id: u16)
    requires forall k | 0 <= k < |msgs| :: msgs[k].packetId == id
    ensures DropSubs(msgs, WithId(id)) == []
  {
    if msgs != [] {
      BatchAllDropped(msgs[1..], id);
    }
  }

  /** A SUBSCRIBE that runs out of memory leaves lists, table and wire as they were. */
  lemma {:induction false} SubscribeRestores(s: State, requests: seq<Request>, now: u32, memory: nat)
    requires !BeginSubscribe(s, requests, now, memory).ready && Unused(s, NextPacketId(s.packetId))
    ensures var r := BeginSubscribe(s, requests, now, memory).state;
            r.acks == s.acks && r.userAcks == s.userAcks && r.subs == s.subs && r.wire == s.wire && r.events == s.events
  {
    hide AddUserNodes, ClearAcks, DropBatch;
    if RequestsValid(requests) && s.clientState == Connected && memory >= 2 {
      var n, id, left := |requests|, NextPacketId(s.packetId), memory - 2;
      var msgs := SubMsgs(requests, id);
      var part := if left < 2 * n then msgs[..left / 2] else msgs;
      NodesRestored(s, id, part, now, s.subs);
      if left >= 2 * n {
        var entries := msgs[..left - 2 * n];
        NodesRestored(s, id, part, now, s.subs + entries);
        TableRestored(s.subs, requests, id, left - 2 * n);
      }
    }
  }

  /** Nodes of a batch added and cleared again. */
  lemma {:induction false} NodesRestored(s: State, id: u16, msgs: seq<Msg>, now: u32, subs: seq<Msg>)
    requires Unused(s, id)
    ensures var r := ClearAcks(AddUserNodes(s.(packetId := id), SUBACK, id, msgs, now).(subs := subs), SUBACK, id);
            && r.acks == s.acks && r.userAcks == s.userAcks && r.wire == s.wire && r.events == s.events && r.subs == subs
    ensures var r := ClearAcks(AddUserNodes(s.(packetId := id), SUBACK, id, msgs, now), SUBACK, id);
            && r.acks == s.acks && r.userAcks == s.userAcks && r.wire == s.wire && r.events == s.events
            && r.subs == s.subs && AddUserNodes(s.(packetId := id), SUBACK, id, msgs, now).subs == s.subs
  {
    var nodes := BatchNodes(s.(packetId := id), SUBACK, id, msgs, now);
    NoneCleared(s.acks, SUBACK, id);
    NoneCleared(s.userAcks, SUBACK, id);
    AllCleared(nodes, SUBACK, id);
    ClearedAppend(s.userAcks, nodes, SUBACK, id);
    assert s.userAcks + [] == s.userAcks;
  }

  /** Entries of a batch added and dropped again. */
  lemma {:induction false} TableRestored(subs: seq<Msg>, requests: seq<Request>, id: u16, k: nat)
    requires k <= |requests| && forall m | m in subs :: m.packetId != id
    ensures DropBatch(subs + SubMsgs(requests, id)[..k], requests, id) == subs
  {
    BatchMsgs(requests, id);
    var entries := SubMsgs(requests, id)[..k];
    BatchDropped(subs + entries, requests, id);
    DropAppend(subs, entries, WithId(id));
    NoneDropped(subs, WithId(id));
    BatchAllDropped(entries, id);
    assert subs + [] == subs;
  }

  /** A SUBSCRIBE that could not be sent, whatever happened since the call began: nothing with its id stays on either
      list or in the table, everything else does. */
  lemma {:induction false} SubscribeWithdraws(s: State, requests: seq<Request>, id: u16, outcome: SendOutcome)
    requires outcome != Sent && (outcome == SocketError ==> !s.config.cleanSession)
    requires forall m | m in s.subs && m.packetId == id :: m.topic in Topics(requests)
    ensures var r := FinishSubscribe(s, requests, id, outcome);
            && r.acks == WithoutAcks(s.acks, SUBACK, id) && r.userAcks == WithoutAcks(s.userAcks, SUBACK, id)
            && r.subs == DropSubs(s.subs, WithId(id)) && Unused(r, id) && r.wire == s.wire
  {
    BatchDropped(s.subs, requests, id);
    ClearAcksMembers(s.acks, SUBACK, id);
    ClearAcksMembers(s.userAcks, SUBACK, id);
    DropMembers(s.subs, WithId(id));
  }

  /** A SUBACK with the wrong number of codes ends its SUBSCRIBE the same way. */
  lemma {:induction false} SubackMismatch(s: State, id: u16, codes: seq<byte>)
    requires CountSubs(s.subs, id) != |codes|
    ensures var r := OnSuback(s, id, codes);
            && r.acks == WithoutAcks(s.acks, SUBACK, id) && r.userAcks == WithoutAcks(s.userAcks, SUBACK, id)
            && r.subs == DropSubs(s.subs, WithId(id)) && Unused(r, id) && r.events == s.events
  {
    ClearAcksMembers(s.acks, SUBACK, id);
    ClearAcksMembers(s.userAcks, SUBACK, id);
    DropMembers(s.subs, WithId(id));
  }

  // ---------------------------------------------------------------- timeout

  lemma {:induction false} DropPending(subs: seq<Msg>, topic: string, id: u16, t: string)
    ensures Pending(DropSubs(subs, SameTopicSameId(topic, id)), id, t) == if t == topic then 0 else Pending(subs, id, t)
  {
    if subs != [] {
      DropPending(subs[1..], topic, id, t);
      if !Selects(SameTopicSameId(topic, id), subs[0]) {
        var rest := DropSubs(subs[1..], SameTopicSameId(topic, id));
        assert ([subs[0]] + rest)[1..] == rest;
      }
    }
  }

  lemma {:induction false} WaitingWithout(acks: seq<AckNode>, i: nat, id: u16)
    requires i < |acks| && Waits(acks[i], SUBACK, id)
    ensures multiset(Filters(OnlyAcks(acks, SUBACK, id))) ==
            multiset(Filters(OnlyAcks(RemoveAt(acks, i), SUBACK, id))) + multiset{acks[i].msg.topic}
  {
    hide Filters;
    var rest := OnlyAcks(acks[1..], SUBACK, id);
    FiltersFirst(acks[0], rest);
    if i == 0 {
      assert RemoveAt(acks, 0) == acks[1..];
      assert OnlyAcks(acks, SUBACK, id) == [acks[0]] + rest;
    } else {
      WaitingWithout(acks[1..], i - 1, id);
      var without := OnlyAcks(RemoveAt(acks[1..], i - 1), SUBACK, id);
      FiltersFirst(acks[0], without);
      assert RemoveAt(acks, i)[0] == acks[0] && RemoveAt(acks, i)[1..] == RemoveAt(acks[1..], i - 1);
      assert OnlyAcks(RemoveAt(acks, i), SUBACK, id) ==
             if Waits(acks[0], SUBACK, id) then [acks[0]] + without else without;
      assert OnlyAcks(acks, SUBACK, id) == if Waits(acks[0], SUBACK, id) then [acks[0]] + rest else rest;
      hide OnlyAcks;
    }
  }

  lemma {:induction false} FiltersFirst(n: AckNode, nodes: seq<AckNode>)
    ensures multiset(Filters([n] + nodes)) == multiset{n.msg.topic} + multiset(Filters(nodes))
  {
  }

  /** A SUBSCRIBE node that times out takes its entry with it: pairing survives exactly when its filter was not
      repeated in the batch. */
  lemma {:induction false} TimeoutPairs(s: State, i: nat, id: u16)
    requires i < |s.acks| && Waits(s.acks[i], SUBACK, id) && s.acks[i].msg.packetId == id
    requires Paired(s.subs, OnlyAcks(s.acks, SUBACK, id), id)
    ensures var r := ExpireAt(s, i);
            Paired(r.subs, OnlyAcks(r.acks, SUBACK, id), id) <==> Pending(s.subs, id, s.acks[i].msg.topic) == 1
  {
    var r, q := ExpireAt(s, i), s.acks[i].msg.topic;
    WaitingWithout(s.acks, i, id);
    assert r.acks == RemoveAt(s.acks, i) && r.subs == DropSubs(s.subs, SameTopicSameId(q, id));
    var before, after := multiset(Filters(OnlyAcks(s.acks, SUBACK, id))), multiset(Filters(OnlyAcks(r.acks, SUBACK, id)));
    hide ExpireAt, OnlyAcks, Filters, Pending, DropSubs, RemoveAt;
    forall t: string
      ensures Pending(s.subs, id, t) == before[t] && Pending(r.subs, id, t) == if t == q then 0 else before[t]
    {
      DropPending(s.subs, q, id, t);
    }
    OneLess(s.subs, r.subs, before, after, id, q);
  }

  lemma {:induction false} OneLess(subs: seq<Msg>, left: seq<Msg>, before: multiset<string>, after: multiset<string>,
                                  id: u16, q: string)
    requires before == after + multiset{q}
    requires forall t: string ::
               Pending(subs, id, t) == before[t] && Pending(left, id, t) == if t == q then 0 else before[t]
    ensures (forall t: string :: Pending(left, id, t) == after[t]) <==> Pending(subs, id, q) == 1
  {
    hide Pending;
    assert before[q] == after[q] + 1 && Pending(left, id, q) == 0;
    forall t: string | t != q ensures Pending(left, id, t) == after[t] {
      assert before[t] == after[t];
    }
  }

  // ---------------------------------------------------------------- codes by filter

  /** The last code for `t` among those for `topics`. */
  function LastFor(topics: seq<string>, codes: seq<byte>, t: string): byte
    requires |codes| == |topics| && t in topics
  {
    if t in topics[1..] then LastFor(topics[1..], codes[1..], t) else codes[0]
  }

  lemma {:induction false} LastCodes(nodes: seq<AckNode>, codes: seq<byte>, t: string)
    requires |codes| == |nodes| && t in Filters(nodes)
    ensures LastCode(nodes, codes, t) == LastFor(Filters(nodes), codes, t)
  {
    assert Filters(nodes)[1..] == Filters(nodes[1..]);
    if t in Filters(nodes[1..]) {
      LastCodes(nodes[1..], codes[1..], t);
    }
  }
}
