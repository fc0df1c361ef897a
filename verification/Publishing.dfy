/** The publish call: when it goes out, what it leaves behind, and what a failed send takes back. */
module Publishing {
  import opened Bytes
  import opened Common
  import opened Timers
  import opened PacketIds
  import opened Session
  import opened Requests
  import opened Operations
  import opened Subscribing
  import opened Effects

  /** A QoS 0 publish is on the wire exactly if the client is connected, the topic has a length, there is memory for the
      packet, and the send succeeds. It leaves no node, takes no id, and unless the socket failed changes nothing else. */
  lemma {:induction false} PlainSends(s: State, topic: string, body: nat, memory: nat, outcome: SendOutcome)
    ensures var r := Perform(s, PublishPlain(topic, body, memory, outcome));
            var goes := topic != "" && s.clientState == Connected && memory >= 1;
            && r.wire == (if goes && outcome == Sent then s.wire + [Publish(false, 0, 0, topic, body)] else s.wire)
            && r.packetId == s.packetId && r.nextAddress == s.nextAddress
            && (goes && outcome == SocketError ==> r.clientState == Disconnected)
            && (!goes || outcome != SocketError ==> r == s.(wire := r.wire))
  {
  }

  /** A publish at QoS 1 or 2 reaches its send exactly if the client is connected, the topic has a length, and there is
      memory for packet, message and node. Then one node is new, last of the user list; else no more than the id is used,
      and that only once the packet had its memory. */
  lemma {:induction false} PublishAdds(s: State, qos: Acked, topic: string, body: nat, now: u32, memory: nat)
    ensures var r, id := Perform(s, PublishBegin(qos, topic, body, now, memory)), NextPacketId(s.packetId);
            var kind := if qos == 1 then PUBACK else PUBREC;
            var node := AckNode(kind, id, Some(Publish(false, qos, id, topic, body)), 0,
                                Timer(now, s.config.ackTimeout), Msg(topic, qos, SETTLED, body), s.nextAddress);
            if topic == "" || s.clientState != Connected || memory == 0 then r == s
            else if memory <= 2 then r == s.(packetId := id)
            else r == s.(packetId := id, userAcks := s.userAcks + [node], nextAddress := s.nextAddress + 1)
  {
  }

  /** The publish of one call, sent without fail: exactly its node and its packet are new. Not sent, and the session not
      dropped with the connection: no node is left under its kind and id, all others are, in order, nothing went out, and
      its node was destroyed once. */
  lemma {:induction false} PublishEnds(s: State, qos: Acked, id: u16, topic: string, body: nat, outcome: SendOutcome)
    requires outcome == SocketError ==> !s.config.cleanSession
    ensures var r, kind := Perform(s, PublishEnd(qos, id, topic, body, outcome)), if qos == 1 then PUBACK else PUBREC;
            if outcome == Sent then r == s.(wire := s.wire + [Publish(false, qos, id, topic, body)])
            else && r.acks == WithoutAcks(s.acks, kind, id) && r.userAcks == WithoutAcks(s.userAcks, kind, id)
                 && (forall n | n in r.acks + r.userAcks :: !Waits(n, kind, id))
                 && r.subs == s.subs && r.wire == s.wire
  {
    var kind: Kind := if qos == 1 then PUBACK else PUBREC;
    ClearAcksMembers(s.acks, kind, id);
    ClearAcksMembers(s.userAcks, kind, id);
    hide WithoutAcks, OnlyAcks;
  }

  /** So a call whose send fails, with nothing in between and nothing else under its kind and id, leaves both lists, the
      table and the wire as it found them, and frees the node it made. */
  lemma {:induction false} FailedPublishLeavesNothing(s: State, qos: Acked, topic: string, body: nat, now: u32,
                                                      outcome: SendOutcome)
    requires topic != "" && s.clientState == Connected
    requires outcome != Sent && (outcome == SocketError ==> !s.config.cleanSession)
    requires var kind, id := if qos == 1 then PUBACK else PUBREC, NextPacketId(s.packetId);
             forall n | n in s.acks || n in s.userAcks :: !Waits(n, kind, id)
    ensures var begun, id := Perform(s, PublishBegin(qos, topic, body, now, 3)), NextPacketId(s.packetId);
            var r := Perform(begun, PublishEnd(qos, id, topic, body, outcome));
            && r.acks == s.acks && r.userAcks == s.userAcks && r.subs == s.subs && r.wire == s.wire
            && r.freed == s.freed + [s.nextAddress]
  {
    var kind: Kind := if qos == 1 then PUBACK else PUBREC;
    var begun, id := Perform(s, PublishBegin(qos, topic, body, now, 3)), NextPacketId(s.packetId);
    PublishAdds(s, qos, topic, body, now, 3);
    var node := begun.userAcks[|s.userAcks|];
    assert begun.userAcks == s.userAcks + [node];
    hide WithoutAcks, OnlyAcks, BeginPublish;
    NoneCleared(s.acks, kind, id);
    LastCleared(s.userAcks, node, kind, id);
  }

  lemma {:induction false} LastCleared(nodes: seq<AckNode>, last: AckNode, kind: Kind, id: u16)
    requires Waits(last, kind, id) && forall n | n in nodes :: !Waits(n, kind, id)
    ensures WithoutAcks(nodes + [last], kind, id) == nodes
    ensures Addresses(OnlyAcks(nodes + [last], kind, id)) == [last.address]
  {
    NoneCleared(nodes, kind, id);
    AllCleared([last], kind, id);
    ClearedAppend(nodes, [last], kind, id);
    assert nodes + [] == nodes && [] + [last] == [last];
  }
}
