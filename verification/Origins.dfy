/** Where the nodes of a session come from, operation by operation and over whole runs: nothing puts a node on a list but
    a call, a PUBREC, a QoS 2 PUBLISH and the scan, each with its own contents. */
module Origins {
  import opened Bytes
  import opened Common
  import opened Timers
  import opened PacketIds
  import opened Session
  import opened Requests
  import opened Operations
  import opened Effects
  import opened Limits
  import opened Resend
  import opened Scanning

  ghost predicate Listed(s: State, n: AckNode) {
    n in s.acks || n in s.userAcks
  }

  /** A node a SUBSCRIBE or UNSUBSCRIBE adds. */
  predicate RequestNode(s: State, n: AckNode, kind: Kind, now: u32) {
    && n.kind == kind && n.id == n.msg.packetId == NextPacketId(s.packetId) && n.packet == None && n.repeatCount == 0
    && n.timer == Timer(now, s.config.ackTimeout) && n.address >= s.nextAddress
  }

  /** The operation makes the node: its kind, id, packet and message are what the call or the packet says, its timer
      starts then, and it was not sent before. */
  ghost predicate MadeBy(s: State, op: Op, n: AckNode) {
    match op
    case PublishBegin(qos, topic, body, now, _) =>
      var id := NextPacketId(s.packetId);
      n == AckNode(if qos == 1 then PUBACK else PUBREC, id, Some(Publish(false, qos, id, topic, body)), 0,
                   Timer(now, s.config.ackTimeout), Msg(topic, qos, SETTLED, body), s.nextAddress)
    case SubscribeBegin(requests, now, _) =>
      RequestNode(s, n, SUBACK, now) && exists r :: r in requests && n.msg == Msg(r.topic, r.qos, n.id, 0)
    case UnsubscribeBegin(topics, now, _) => RequestNode(s, n, UNSUBACK, now) && n.msg.topic in topics
    case Handle(p, now, _, _) =>
      (match p
       case Publish(_, qos, id, topic, _) =>
         qos == 2 && n == AckNode(PUBREL, id, Some(Packet.Pubrec(id)), 0, Timer(now, s.config.ackTimeout),
                                  Msg(topic, 2, SETTLED, 0), s.nextAddress)
       case Pubrec(id) =>
         exists w :: w in s.acks && Waits(w, PUBREC, id)
                     && n == AckNode(PUBCOMP, id, Some(Packet.Pubrel(id)), 0, Timer(now, s.config.ackTimeout),
                                     w.msg.(packetId := SETTLED), s.nextAddress)
       case _ => false)
    case _ => false
  }

  /** The application heard `e` during the step. */
  predicate Tells(s: State, r: State, e: Event) {
    |s.events| <= |r.events| && e in r.events[|s.events|..]
  }

  /** The scan repeats it: the node that is left. */
  ghost predicate RepeatedBy(s: State, op: Op, n: AckNode) {
    && op.ScanList?
    && exists m, k :: m in s.acks && n == Again(m, op.input.clock(k), s.config)
                      && RepeatedAt(m, k, op.wait, Timer(op.input.clock(0), ScanWindow(s.config)), op.input)
                      && Tells(s, Perform(s, op), Announced(m))
  }

  /** No node is added. */
  ghost predicate Fewer(s: State, r: State) {
    && (forall n | n in r.acks :: n in s.acks) && (forall n | n in r.userAcks :: n in s.userAcks)
    && r.config == s.config && r.nextAddress == s.nextAddress
  }

  lemma {:induction false} SendFewer(s: State, p: Packet, outcome: SendOutcome, kind: Kind, id: u16)
    ensures Fewer(s, Send(s, p, outcome)) && Fewer(s, ClearAcks(Send(s, p, outcome), kind, id))
  {
    var sent := Send(s, p, outcome);
    ClearAcksMembers(sent.acks, kind, id);
    ClearAcksMembers(sent.userAcks, kind, id);
  }

  lemma {:induction false} SubackFewer(s: State, id: u16, codes: seq<byte>)
    ensures Fewer(s, OnSuback(s, id, codes))
  {
    if CountSubs(s.subs, id) == |codes| {
      SubackDestroys(s, 0, id, codes);
      SubackAddress(s, 0, id, codes);
      assert s.acks[0..] == s.acks;
      OtherIdsOk(s.acks, id);
    } else {
      ClearAcksMembers(s.acks, SUBACK, id);
      ClearAcksMembers(s.userAcks, SUBACK, id);
    }
  }

  lemma {:induction false} SubackAddress(s: State, i: nat, id: u16, codes: seq<byte>)
    ensures SubackFrom(s, i, id, codes).nextAddress == s.nextAddress
    decreases |s.acks| - i
  {
    if i < |s.acks| {
      var n := s.acks[i];
      if n.id != id {
        SubackAddress(s, i + 1, id, codes);
      } else {
        var r := if n.kind == SUBACK then SettleNode(s, n, codes) else Settling(s, codes);
        SubackAddress(Destroy(RemoveAck(r.state, i), n), i, id, r.codes);
      }
    }
  }

  lemma {:induction false} UnsubackFewer(s: State, id: u16)
    ensures Fewer(s, UnsubackFrom(s, 0, id))
  {
    UnsubackDestroys(s, 0, id);
    UnsubackAddress(s, 0, id);
    assert s.acks[0..] == s.acks;
    OtherIdsOk(s.acks, id);
  }

  lemma {:induction false} UnsubackAddress(s: State, i: nat, id: u16)
    ensures UnsubackFrom(s, i, id).nextAddress == s.nextAddress
    decreases |s.acks| - i
  {
    if i < |s.acks| {
      if s.acks[i].id != id {
        UnsubackAddress(s, i + 1, id);
      } else {
        UnsubackAddress(UnsubackNode(s, i), i, id);
      }
    }
  }

  lemma {:induction false} SyncLists(s: State)
    ensures var r := Sync(s);
            r.acks == s.acks + s.userAcks && r.userAcks == [] && r.config == s.config && r.nextAddress == s.nextAddress
    decreases |s.userAcks|
  {
    if s.userAcks == [] {
      assert s.acks + [] == s.acks;
    } else {
      SyncLists(AddAck(s.(userAcks := s.userAcks[1..]), s.userAcks[0]));
      assert s.acks + [s.userAcks[0]] + s.userAcks[1..] == s.acks + s.userAcks;
    }
  }

  // ---------------------------------------------------------------- one operation

  /** All nodes after the operation were there before, or were made or repeated by it. */
  ghost predicate Accounted(s: State, op: Op) {
    forall n | Listed(Perform(s, op), n) :: Listed(s, n) || MadeBy(s, op, n) || RepeatedBy(s, op, n)
  }

  lemma {:induction false} FewerAccounted(s: State, op: Op)
    requires Fewer(s, Perform(s, op))
    ensures Accounted(s, op) && Perform(s, op).config == s.config
  {
  }

  lemma {:induction false} SentFewer(s: State, t: State, p: Packet, outcome: SendOutcome)
    ensures forall n | n in Send(t, p, outcome).acks :: n in t.acks
    ensures forall n | n in Send(t, p, outcome).userAcks :: n in t.userAcks
    ensures Send(t, p, outcome).config == t.config
  {
  }

  lemma {:induction false} PublishAccounted(s: State, op: Op)
    requires op.Handle? && op.packet.Publish? && !Refused(op.packet)
    ensures Accounted(s, op) && Perform(s, op).config == s.config
  {
    var p := op.packet;
    var told := Log(s, Data(p));
    var node := NewNode(s, PUBREL, p.id, Some(Packet.Pubrec(p.id)), Msg(p.topic, p.qos, SETTLED, 0), op.now);
    var added := AddAck(Allocated(told), node);
    assert added.acks == s.acks + [node] && added.userAcks == s.userAcks && added.config == s.config;
    hide Send, FindAck, FindMatch, AddAck;
    SentFewer(s, told, Packet.Puback(p.id), op.outcome);
    SentFewer(s, s, Packet.Pubrec(p.id), op.outcome);
    SentFewer(s, added, Packet.Pubrec(p.id), op.outcome);
  }

  lemma {:induction false} PubrecAccounted(s: State, op: Op)
    requires op.Handle? && op.packet.Pubrec? && !Refused(op.packet)
    ensures Accounted(s, op) && Perform(s, op).config == s.config
  {
    var id := op.packet.id;
    var i := FindAck(s.acks, PUBREC, id);
    if FindAck(s.acks, PUBCOMP, id) < |s.acks| || i == |s.acks| {
      SentFewer(s, s, Packet.Pubrel(id), op.outcome);
    } else if op.memory < 2 {
      assert Perform(s, op) == AddAck(RemoveAck(s, i), s.acks[i]);
    } else {
      MovedNode(s, i, op.now);
      var moved := Moved(s, i, op.now);
      assert Perform(s, op) == Send(moved, Packet.Pubrel(id), op.outcome);
      hide Perform, Send, Moved, FindAck;
      SentFewer(s, moved, Packet.Pubrel(id), op.outcome);
      assert s.acks[i] in s.acks;
    }
  }

  lemma {:induction false} MovedNode(s: State, i: nat, now: u32)
    requires i < |s.acks|
    ensures var n, r := s.acks[i], Moved(s, i, now);
            && r.acks == RemoveAt(s.acks, i) + [AckNode(PUBCOMP, n.id, Some(Packet.Pubrel(n.id)), 0,
                                                        Timer(now, s.config.ackTimeout), n.msg.(packetId := SETTLED),
                                                        s.nextAddress)]
            && r.userAcks == s.userAcks && r.config == s.config
  {
  }

  /** A refused packet and the replies that end a node add none. */
  lemma {:induction false} FewerReplies(s: State, op: Op)
    requires op.Handle?
    ensures var p := op.packet;
            Refused(p) || !(p.Publish? || p.Pubrec? || p.Suback? || p.Unsuback?) ==> Fewer(s, Perform(s, op))
  {
    hide OnPublish, OnPubrec, OnPubrel, OnPuback, OnSuback, UnsubackFrom, Fewer;
    FewerOrSame(s);
    match op.packet {
      case Puback(id) => PubackFewer(s, PUBACK, id);
      case Pubcomp(id) => PubackFewer(s, PUBCOMP, id);
      case Pubrel(id) => PubrelFewer(s, id, op.outcome);
      case _ =>
    }
  }

  lemma {:induction false} FewerOrSame(s: State)
    ensures Fewer(s, s)
  {
  }

  lemma {:induction false} PubackFewer(s: State, kind: Kind, id: u16)
    ensures Fewer(s, OnPuback(s, kind, id))
  {
  }

  lemma {:induction false} PubrelFewer(s: State, id: u16, outcome: SendOutcome)
    ensures Fewer(s, OnPubrel(s, id, outcome))
  {
  }

  lemma {:induction false} HandleAccounted(s: State, op: Op)
    requires op.Handle?
    ensures Accounted(s, op) && Perform(s, op).config == s.config
  {
    hide Accounted, OnPublish, OnPubrec, OnPubrel, OnPuback, OnSuback, UnsubackFrom, Fewer;
    FewerReplies(s, op);
    if Refused(op.packet) {
      FewerAccounted(s, op);
      return;
    }
    match op.packet
    case Publish(_, _, _, _, _) => PublishAccounted(s, op);
    case Pubrec(_) => PubrecAccounted(s, op);
    case Suback(id, codes) =>
      SubackFewer(s, id, codes);
      FewerAccounted(s, op);
    case Unsuback(id) =>
      UnsubackFewer(s, id);
      FewerAccounted(s, op);
    case _ => FewerAccounted(s, op);
  }

  lemma {:induction false} SubscribeAccounted(s: State, op: Op)
    requires op.SubscribeBegin?
    ensures Accounted(s, op) && Perform(s, op).config == s.config
  {
    var requests, now, memory := op.requests, op.now, op.memory;
    if RequestsValid(requests) && s.clientState == Connected && memory >= 2 {
      var n, id, left := |requests|, NextPacketId(s.packetId), memory - 2;
      var numbered, msgs := s.(packetId := id), SubMsgs(requests, id);
      var part := if left < 2 * n then msgs[..left / 2] else msgs;
      MsgsAsked(requests, id);
      NodesMade(numbered, SUBACK, id, part, now);
      var noded := AddUserNodes(numbered, SUBACK, id, part, now);
      ClearAcksMembers(noded.acks, SUBACK, id);
      ClearAcksMembers(noded.userAcks, SUBACK, id);
      hide AddUserNodes, SubMsgs, DropBatch, OnlyAcks, WithoutAcks;
      forall x | Listed(Perform(s, op), x) ensures Listed(s, x) || MadeBy(s, op, x) {
        assert Listed(noded, x);
        if !Listed(s, x) {
          assert RequestNode(s, x, SUBACK, now) && x.msg in part && x.msg in msgs;
        }
      }
    }
  }

  lemma {:induction false} MsgsAsked(requests: seq<Request>, id: u16)
    ensures forall m | m in SubMsgs(requests, id) ::
              m.packetId == id && exists r :: r in requests && m == Msg(r.topic, r.qos, id, 0)
  {
    if requests != [] {
      MsgsAsked(requests[1..], id);
      forall m | m in SubMsgs(requests, id)
        ensures m.packetId == id && exists r :: r in requests && m == Msg(r.topic, r.qos, id, 0)
      {
        if m in SubMsgs(requests[1..], id) {
          var r :| r in requests[1..] && m == Msg(r.topic, r.qos, id, 0);
          assert r in requests;
        } else {
          assert requests[0] in requests;
        }
      }
    }
  }

  lemma {:induction false} TopicsAsked(subs: seq<Msg>, topics: seq<string>, id: u16)
    ensures forall m | m in UnsubMsgs(subs, topics, id) :: m.packetId == id && m.topic in topics
  {
    if topics != [] {
      TopicsAsked(subs, topics[1..], id);
    }
  }

  lemma {:induction false} NodesMade(s: State, kind: Kind, id: u16, msgs: seq<Msg>, now: u32)
    ensures var r := AddUserNodes(s, kind, id, msgs, now);
            && r.acks == s.acks && r.config == s.config
            && forall n | n in r.userAcks ::
                 || n in s.userAcks
                 || (&& n.kind == kind && n.id == id && n.packet == None && n.repeatCount == 0 && n.msg in msgs
                     && n.timer == Timer(now, s.config.ackTimeout) && n.address >= s.nextAddress)
    decreases |msgs|
  {
    if msgs != [] {
      var node := NewNode(s, kind, id, None, msgs[0], now);
      NodesMade(Allocated(s).(userAcks := s.userAcks + [node]), kind, id, msgs[1..], now);
    }
  }

  lemma {:induction false} UnsubscribeAccounted(s: State, op: Op)
    requires op.UnsubscribeBegin?
    ensures Accounted(s, op) && Perform(s, op).config == s.config
  {
    var topics, now, memory := op.topics, op.now, op.memory;
    if TopicsValid(topics) && s.clientState == Connected && memory >= 2 {
      var n, id, left := |topics|, NextPacketId(s.packetId), memory - 2;
      var numbered, msgs := s.(packetId := id), UnsubMsgs(s.subs, topics, id);
      var part := if left < 2 * n then msgs[..left / 2] else msgs;
      TopicsAsked(s.subs, topics, id);
      NodesMade(numbered, UNSUBACK, id, part, now);
      var noded := AddUserNodes(numbered, UNSUBACK, id, part, now);
      ClearAcksMembers(noded.acks, UNSUBACK, id);
      ClearAcksMembers(noded.userAcks, UNSUBACK, id);
      hide AddUserNodes, UnsubMsgs, OnlyAcks, WithoutAcks;
      forall x | Listed(Perform(s, op), x) ensures Listed(s, x) || MadeBy(s, op, x) {
        assert Listed(noded, x);
        if !Listed(s, x) {
          assert RequestNode(s, x, UNSUBACK, now) && x.msg in part && x.msg in msgs;
        }
      }
    }
  }

  lemma {:induction false} ScanAccounted(s: State, op: Op)
    requires StateOk(s) && op.ScanList?
    ensures Accounted(s, op) && Perform(s, op).config == s.config
  {
    hide StateOk, InFlight, Scan, RepeatedAt, Again, Announced, QuietEvents, Repeats, LeftBy, Meant, MadeBy;
    ScanEffect(s, op.wait, op.input);
    var told := Scanning.ScanLeaves(s, op.wait, op.input);
    var window := Timer(op.input.clock(0), ScanWindow(s.config));
    var r := Perform(s, op);
    assert r.events[|s.events|..] == told;
    forall n | Listed(r, n) ensures Listed(s, n) || RepeatedBy(s, op, n) {
      if n in r.acks {
        LeftInScan(s, op, n, told);
      }
    }
  }

  lemma {:induction false} LeftInScan(s: State, op: Op, n: AckNode, told: seq<Event>)
    requires op.ScanList? && Perform(s, op).events == s.events + told
    requires LeftBy(s.acks, n, told, op.wait, Timer(op.input.clock(0), ScanWindow(s.config)), op.input, s.config)
    ensures Listed(s, n) || RepeatedBy(s, op, n)
  {
    hide Scan, RepeatedAt, Again, Announced;
    assert Perform(s, op).events[|s.events|..] == told;
  }

  /** Whatever happens to a session, its nodes are accounted for. */
  lemma {:induction false} NodesComeFrom(s: State, op: Op)
    requires StateOk(s)
    ensures Accounted(s, op) && Perform(s, op).config == s.config
  {
    hide Accounted, Dispatch, Scan, Sync, BeginSubscribe, BeginUnsubscribe, Send, ClearAcks, DropBatch, StateOk;
    match op
    case Handle(_, _, _, _) => HandleAccounted(s, op);
    case ScanList(_, _) => ScanAccounted(s, op);
    case SubscribeBegin(_, _, _) => SubscribeAccounted(s, op);
    case UnsubscribeBegin(_, _, _) => UnsubscribeAccounted(s, op);
    case PublishBegin(_, _, _, _, _) => PublishBeginAccounted(s, op);
    case SyncLists => SyncAccounted(s, op);
    case PublishPlain(topic, body, memory, outcome) =>
      SendFewer(s, Publish(false, 0, 0, topic, body), outcome, PUBACK, 0);
      FewerAccounted(s, op);
    case PublishEnd(qos, id, topic, body, outcome) =>
      SendFewer(s, Publish(false, qos, id, topic, body), outcome, PublishKind(qos), id);
      FewerAccounted(s, op);
    case SubscribeEnd(requests, id, outcome) =>
      SendFewer(s, Subscribe(id, Topics(requests)), outcome, SUBACK, id);
      FewerAccounted(s, op);
    case UnsubscribeEnd(topics, id, outcome) =>
      SendFewer(s, Unsubscribe(id, topics), outcome, UNSUBACK, id);
      FewerAccounted(s, op);
    case _ => FewerAccounted(s, op);
  }

  lemma {:induction false} PublishBeginAccounted(s: State, op: Op)
    requires op.PublishBegin?
    ensures Accounted(s, op) && Perform(s, op).config == s.config
  {
  }

  lemma {:induction false} SyncAccounted(s: State, op: Op)
    requires op.SyncLists?
    ensures Accounted(s, op) && Perform(s, op).config == s.config
  {
    SyncLists(s);
  }
}
