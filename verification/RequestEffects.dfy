/** What the user operations do to the nodes in flight. */
module RequestEffects {
  import opened Bytes
  import opened Common
  import opened PacketIds
  import opened Session
  import opened Requests
  import opened Effects

  /** Whether a publish call gets as far as adding its node. */
  predicate Accepts(s: State, topic: string, memory: nat) {
    topic != "" && s.clientState == Connected && memory >= 3
  }

  lemma {:induction false} BeginPublishEffect(s: State, qos: QoS, topic: string, body: nat, now: u32, memory: nat)
    requires StateOk(s) && qos > 0
    ensures var r := BeginPublish(s, qos, topic, body, now, memory);
            StateOk(r) && r.config == s.config && r.wire == s.wire && r.events == s.events && r.acks == s.acks
    ensures Accepts(s, topic, memory) ==>
              var r := BeginPublish(s, qos, topic, body, now, memory);
              var id := NextPacketId(s.packetId);
              && r.userAcks == s.userAcks + [PublishNode(s.(packetId := id), qos, id, topic, body, now)]
              && InFlight(r) == InFlight(s).(user := InFlight(s).user + multiset{(PublishKind(qos), id, body)})
    ensures !Accepts(s, topic, memory) ==>
              var r := BeginPublish(s, qos, topic, body, now, memory);
              InFlight(r) == InFlight(s) && r.userAcks == s.userAcks
  {
    hide OutKeys, RelIds;
    if Accepts(s, topic, memory) {
      var id := NextPacketId(s.packetId);
      var node := PublishNode(s.(packetId := id), qos, id, topic, body, now);
      KeysPush(s.userAcks, node);
      assert KeyBag(node) == multiset{(PublishKind(qos), id, body)};
    }
  }

  /** The packet went out; the session is otherwise unchanged. */
  lemma {:induction false} FinishPublishSent(s: State, kind: Kind, id: u16, packet: Packet)
    requires StateOk(s)
    ensures FinishPublish(s, kind, id, packet, Sent) == s.(wire := s.wire + [packet])
  {
  }

  /** The packet did not go out; the node is gone from both lists. */
  lemma {:induction false} FinishPublishRollsBack(s: State, kind: Kind, id: u16, packet: Packet, outcome: SendOutcome)
    requires StateOk(s) && (outcome == SocketError ==> !s.config.cleanSession) && outcome != Sent && kind != PUBREL
    ensures var r := FinishPublish(s, kind, id, packet, outcome);
            StateOk(r) && r.config == s.config && r.wire == s.wire && QuietEvents(s, r)
    ensures var f, g := InFlight(s), InFlight(FinishPublish(s, kind, id, packet, outcome));
            g.rel == f.rel && Cleared(f.acks, kind, id, g.acks) && Cleared(f.user, kind, id, g.user)
  {
    hide OutKeys, RelIds;
    SendEffect(s, packet, outcome);
    ClearAcksEffect(Send(s, packet, outcome), kind, id);
  }

  /** Nothing of a publish or of a broker message changes. */
  predicate Aside(s: State, r: State) {
    StateOk(r) && r.config == s.config && InFlight(r) == InFlight(s) && QuietEvents(s, r)
  }

  predicate SubscriptionKind(kind: Kind) {
    kind == SUBACK || kind == UNSUBACK
  }

  lemma {:induction false} AddUserNodesAside(s: State, kind: Kind, id: u16, msgs: seq<Msg>, now: u32)
    requires StateOk(s) && SubscriptionKind(kind) && forall m | m in msgs :: m.packetId == id
    ensures Aside(s, AddUserNodes(s, kind, id, msgs, now)) && AddUserNodes(s, kind, id, msgs, now).wire == s.wire
    decreases |msgs|
  {
    hide OutKeys, RelIds;
    if msgs != [] {
      var node := NewNode(s, kind, id, None, msgs[0], now);
      var next := Allocated(s).(userAcks := s.userAcks + [node]);
      assert msgs[0] in msgs && NodeOk(node);
      KeysPush(s.userAcks, node);
      AddUserNodesAside(next, kind, id, msgs[1..], now);
    }
  }

  lemma {:induction false} ClearSubscriptionsAside(s: State, kind: Kind, id: u16)
    requires StateOk(s) && SubscriptionKind(kind)
    ensures Aside(s, ClearAcks(s, kind, id)) && ClearAcks(s, kind, id).wire == s.wire
  {
    hide OutKeys, RelIds;
    ClearAcksEffect(s, kind, id);
    forall k: Key
      ensures InFlight(ClearAcks(s, kind, id)).acks[k] == InFlight(s).acks[k]
      ensures InFlight(ClearAcks(s, kind, id)).user[k] == InFlight(s).user[k]
    {
      KeyPresent(s.acks, k);
      KeyPresent(s.userAcks, k);
    }
  }

  lemma {:induction false} SubMsgsIds(requests: seq<Request>, id: u16)
    ensures forall m | m in SubMsgs(requests, id) :: m.packetId == id
  {
    if requests != [] {
      SubMsgsIds(requests[1..], id);
    }
  }

  lemma {:induction false} UnsubMsgsIds(subs: seq<Msg>, topics: seq<string>, id: u16)
    ensures forall m | m in UnsubMsgs(subs, topics, id) :: m.packetId == id
  {
    if topics != [] {
      UnsubMsgsIds(subs, topics[1..], id);
    }
  }

  lemma {:induction false} BeginSubscribeAside(s: State, requests: seq<Request>, now: u32, memory: nat)
    requires StateOk(s)
    ensures Aside(s, BeginSubscribe(s, requests, now, memory).state)
    ensures BeginSubscribe(s, requests, now, memory).state.wire == s.wire
  {
    hide OutKeys, RelIds;
    if RequestsValid(requests) && s.clientState == Connected && memory >= 2 {
      var n, id, left := |requests|, NextPacketId(s.packetId), memory - 2;
      var numbered, msgs := s.(packetId := id), SubMsgs(requests, id);
      SubMsgsIds(requests, id);
      if left < 2 * n {
        var part := AddUserNodes(numbered, SUBACK, id, msgs[..left / 2], now);
        AddUserNodesAside(numbered, SUBACK, id, msgs[..left / 2], now);
        ClearSubscriptionsAside(part, SUBACK, id);
      } else {
        var noded := AddUserNodes(numbered, SUBACK, id, msgs, now);
        AddUserNodesAside(numbered, SUBACK, id, msgs, now);
        if left < 3 * n {
          ClearSubscriptionsAside(noded.(subs := s.subs + msgs[..left - 2 * n]), SUBACK, id);
        }
      }
    }
  }

  lemma {:induction false} BeginUnsubscribeAside(s: State, topics: seq<string>, now: u32, memory: nat)
    requires StateOk(s)
    ensures Aside(s, BeginUnsubscribe(s, topics, now, memory).state)
    ensures BeginUnsubscribe(s, topics, now, memory).state.wire == s.wire
  {
    hide OutKeys, RelIds;
    if TopicsValid(topics) && s.clientState == Connected && memory >= 2 {
      var n, id, left := |topics|, NextPacketId(s.packetId), memory - 2;
      var numbered, msgs := s.(packetId := id), UnsubMsgs(s.subs, topics, id);
      UnsubMsgsIds(s.subs, topics, id);
      if left < 2 * n {
        AddUserNodesAside(numbered, UNSUBACK, id, msgs[..left / 2], now);
        ClearSubscriptionsAside(AddUserNodes(numbered, UNSUBACK, id, msgs[..left / 2], now), UNSUBACK, id);
      } else {
        AddUserNodesAside(numbered, UNSUBACK, id, msgs, now);
      }
    }
  }

  lemma {:induction false} FinishSubscribeAside(s: State, requests: seq<Request>, id: u16, outcome: SendOutcome)
    requires StateOk(s) && (outcome == SocketError ==> !s.config.cleanSession)
    ensures Aside(s, FinishSubscribe(s, requests, id, outcome))
    ensures FinishSubscribe(s, requests, id, outcome).wire == s.wire + SentIf(outcome, Subscribe(id, Topics(requests)))
  {
    hide OutKeys, RelIds;
    SendEffect(s, Subscribe(id, Topics(requests)), outcome);
    if outcome != Sent {
      ClearSubscriptionsAside(Send(s, Subscribe(id, Topics(requests)), outcome), SUBACK, id);
    }
  }

  lemma {:induction false} FinishUnsubscribeAside(s: State, topics: seq<string>, id: u16, outcome: SendOutcome)
    requires StateOk(s) && (outcome == SocketError ==> !s.config.cleanSession)
    ensures Aside(s, FinishUnsubscribe(s, topics, id, outcome))
    ensures FinishUnsubscribe(s, topics, id, outcome).wire == s.wire + SentIf(outcome, Unsubscribe(id, topics))
  {
    hide OutKeys, RelIds;
    SendEffect(s, Unsubscribe(id, topics), outcome);
    if outcome != Sent {
      ClearSubscriptionsAside(Send(s, Unsubscribe(id, topics), outcome), UNSUBACK, id);
    }
  }

  /** Discarding a node of the user's publishes takes one such node out; other kinds than PUBREL leave the rest. */
  lemma {:induction false} DiscardEffect(s: State, kind: Kind, id: u16)
    requires StateOk(s) && kind != PUBREL
    ensures StateOk(Discard(s, kind, id)) && Discard(s, kind, id).config == s.config
    ensures Discard(s, kind, id).wire == s.wire && s.events <= Discard(s, kind, id).events
    ensures forall i | |s.events| <= i < |Discard(s, kind, id).events| :: Discard(s, kind, id).events[i].AckHandlerDiscard?
    ensures InFlight(Discard(s, kind, id)).rel == InFlight(s).rel
    ensures InFlight(Discard(s, kind, id)).user == InFlight(s).user
    ensures InFlight(Discard(s, kind, id)).acks == InFlight(s).acks
            || exists b: nat :: (kind, id, b) in InFlight(s).acks
                 && InFlight(Discard(s, kind, id)).acks == InFlight(s).acks - multiset{(kind, id, b)}
    ensures 1 <= id <= MAX_PACKET_ID && InFlight(Discard(s, kind, id)).acks == InFlight(s).acks ==>
              forall b: nat :: (kind, id, b) !in InFlight(s).acks
  {
    hide StateOk, InFlight, Discard, QuietEvents;
    if 1 <= id <= MAX_PACKET_ID && FindAck(s.acks, kind, id) < |s.acks| {
      DiscardFound(s, kind, id);
    } else {
      DiscardNone(s, kind, id);
    }
  }

  lemma {:induction false} DiscardNone(s: State, kind: Kind, id: u16)
    requires !(1 <= id <= MAX_PACKET_ID && FindAck(s.acks, kind, id) < |s.acks|)
    ensures Discard(s, kind, id) == s
    ensures 1 <= id <= MAX_PACKET_ID ==> forall b: nat :: (kind, id, b) !in InFlight(s).acks
  {
    forall b: nat | 1 <= id <= MAX_PACKET_ID ensures (kind, id, b) !in InFlight(s).acks {
      KeyPresent(s.acks, (kind, id, b));
    }
  }

  lemma {:induction false} DiscardFound(s: State, kind: Kind, id: u16)
    requires StateOk(s) && kind != PUBREL && 1 <= id <= MAX_PACKET_ID && FindAck(s.acks, kind, id) < |s.acks|
    ensures var r := Discard(s, kind, id);
            && StateOk(r) && r.config == s.config && r.wire == s.wire
            && r.events == s.events + [AckHandlerDiscard(s.acks[FindAck(s.acks, kind, id)])]
            && InFlight(r).rel == InFlight(s).rel && InFlight(r).user == InFlight(s).user
    ensures var f, g := InFlight(s).acks, InFlight(Discard(s, kind, id)).acks;
            if OfPublish(kind) then exists b: nat :: (kind, id, b) in f && g == f - multiset{(kind, id, b)} && g != f
            else g == f && forall b: nat :: (kind, id, b) !in f
  {
    hide OutKeys, RelIds;
    var i := FindAck(s.acks, kind, id);
    var n := s.acks[i];
    RemoveAckEffect(s, i);
    var r := Discard(s, kind, id);
    assert r == Destroy(Log(RemoveAck(s, i), AckHandlerDiscard(n)), n);
    var f, g := InFlight(s), InFlight(RemoveAck(s, i));
    assert InFlight(r) == g && StateOk(r);
    hide StateOk, Discard, RemoveAck;
    assert g.rel + RelBag(n) == f.rel && f.acks == g.acks + KeyBag(n) && g.user == f.user;
    if OfPublish(kind) {
      var k := (kind, id, n.msg.userData);
      assert KeyOf(n) == k;
      KeySwap(f.acks, g.acks, k, k);
      assert g.acks == f.acks - multiset{k} && g.acks[k] + 1 == f.acks[k];
    } else {
      assert g.acks == f.acks;
      forall b: nat ensures (kind, id, b) !in f.acks {
        KeyPresent(s.acks, (kind, id, b));
      }
    }
  }
}
