/** What the application is told: of the connection, of every PUBLISH received, and of how many nodes there are. */
module Reports {
  import opened Bytes
  import opened Common
  import opened TopicMatcher
  import opened Session
  import opened Requests
  import opened Operations
  import opened Effects
  import opened Limits
  import opened Subscribing
  import opened Scanning
  import PacketIds

  // ---------------------------------------------------------------- the connection

  /** At most one loss was told, and then the client is disconnected; otherwise its state is `state`. */
  predicate Follows(s: State, r: State, state: ClientState) {
    || (Losses(r.events) == Losses(s.events) && r.clientState == state)
    || (Losses(r.events) == Losses(s.events) + 1 && r.clientState == Disconnected)
  }

  /** No loss told, state as it was. */
  predicate Calm(s: State, r: State) {
    Losses(r.events) == Losses(s.events) && r.clientState == s.clientState
  }

  lemma {:induction false} LogCalm(s: State, e: Event)
    requires e != DisconnectedEvent
    ensures Calm(s, Log(s, e))
  {
    assert (s.events + [e])[..|s.events + [e]| - 1] == s.events;
  }

  /** A send tells of a loss exactly when the socket fails. */
  lemma {:induction false} SendFollows(s: State, t: State, p: Packet, outcome: SendOutcome)
    requires Calm(s, t)
    ensures var r := Send(t, p, outcome);
            if outcome == SocketError then Losses(r.events) == Losses(s.events) + 1 && r.clientState == Disconnected
            else Calm(s, r)
  {
    if outcome == SocketError {
      assert (t.events + [DisconnectedEvent])[..|t.events|] == t.events;
    }
  }

  lemma {:induction false} AddCalm(s: State, n: AckNode)
    ensures Calm(s, AddAck(s, n))
  {
    var added := s.(acks := s.acks + [n]);
    LogCalm(s, AckCountWarning((s.ackCount + 1) % 0x1_0000));
  }

  lemma {:induction false} SettleCalm(s: State, n: AckNode, codes: seq<byte>)
    ensures Calm(s, SettleNode(s, n, codes).state)
  {
    LogCalm(s, Subscribed(n.msg));
    LogCalm(s, SubscribedFailed(n.msg));
  }

  lemma {:induction false} SubackCalm(s: State, i: nat, id: u16, codes: seq<byte>)
    ensures Calm(s, SubackFrom(s, i, id, codes))
    decreases |s.acks| - i
  {
    hide SettleNode, Losses;
    if i < |s.acks| {
      var n := s.acks[i];
      if n.id != id {
        SubackCalm(s, i + 1, id, codes);
      } else {
        SettleCalm(s, n, codes);
        var r := if n.kind == SUBACK then SettleNode(s, n, codes) else Settling(s, codes);
        SubackCalm(Destroy(RemoveAck(r.state, i), n), i, id, r.codes);
      }
    }
  }

  lemma {:induction false} UnsubackCalm(s: State, i: nat, id: u16)
    ensures Calm(s, UnsubackFrom(s, i, id))
    decreases |s.acks| - i
  {
    hide Losses;
    if i < |s.acks| {
      if s.acks[i].id != id {
        UnsubackCalm(s, i + 1, id);
      } else {
        var n := s.acks[i];
        var next := UnsubackNode(s, i);
        if n.kind == UNSUBACK {
          var j := FindSub(s.subs, n.msg.topic);
          LogCalm(s, UnSubscribed(if j == |s.subs| then n.msg else n.msg.(qos := s.subs[j].qos)));
        }
        UnsubackCalm(next, i, id);
      }
    }
  }

  lemma {:induction false} SyncCalm(s: State)
    ensures Calm(s, Sync(s))
    decreases |s.userAcks|
  {
    hide Losses, AddAck;
    if s.userAcks != [] {
      var t := s.(userAcks := s.userAcks[1..]);
      AddCalm(t, s.userAcks[0]);
      assert AddAck(t, s.userAcks[0]).userAcks == t.userAcks by { AddKeeps(t, s.userAcks[0]); }
      SyncCalm(AddAck(t, s.userAcks[0]));
    }
  }

  lemma {:induction false} AddKeeps(s: State, n: AckNode)
    ensures AddAck(s, n).userAcks == s.userAcks
  {
  }

  /** Sends, for each operation that may end in one: whether it sends at all. */
  ghost predicate Sends(s: State, op: Op) {
    match op
    case PublishPlain(topic, body, memory, _) => Perform(s, PublishPlain(topic, body, memory, Sent)).wire != s.wire
    case PublishEnd(_, _, _, _, _) => true
    case SubscribeEnd(_, _, _) => true
    case UnsubscribeEnd(_, _, _) => true
    case Handle(_, _, _, _) => Perform(s, Ending(op, Sent)).wire != s.wire
    case _ => false
  }

  function OutcomeOf(op: Op): SendOutcome {
    match op
    case PublishPlain(_, _, _, outcome) => outcome
    case PublishEnd(_, _, _, _, outcome) => outcome
    case SubscribeEnd(_, _, outcome) => outcome
    case UnsubscribeEnd(_, _, outcome) => outcome
    case Handle(_, _, _, outcome) => outcome
    case _ => Sent
  }

  /** The same packet handled, its reply ending so. */
  function Ending(op: Op, outcome: SendOutcome): Op
    requires op.Handle?
  {
    Handle(op.packet, op.now, op.memory, outcome)
  }

  lemma {:induction false} GrownWire(s: State, t: State, p: Packet)
    requires t.wire == s.wire
    ensures Send(t, p, Sent).wire != s.wire
  {
    assert |Send(t, p, Sent).wire| == |s.wire| + 1;
  }

  /** The reply of a handler: calm work, then a send. */
  lemma {:induction false} ReplyFollows(s: State, op: Op, t: State, reply: Packet)
    requires op.Handle? && Calm(s, t) && t.wire == s.wire
    requires forall o: SendOutcome :: Perform(s, Ending(op, o)) == Send(t, reply, o)
    ensures Told(s, op)
  {
    hide Perform, Send, Losses;
    SendFollows(s, t, reply, op.outcome);
    GrownWire(s, t, reply);
    assert Ending(op, op.outcome) == op;
    assert Perform(s, Ending(op, op.outcome)) == Send(t, reply, op.outcome);
    assert Perform(s, Ending(op, Sent)) == Send(t, reply, Sent);
  }

  /** A handler that sends nothing. */
  lemma {:induction false} SilentFollows(s: State, op: Op)
    requires op.Handle? && Calm(s, Perform(s, op)) && Perform(s, Ending(op, Sent)).wire == s.wire
    ensures Told(s, op)
  {
    hide Perform, Losses;
  }

  /** The operation tells of a loss exactly when it sends and the socket fails, the connection is lost, or the scan lost
      it; then, and only then but for a CONNACK or a step of the reconnect, the client's state changes, to Disconnected. */
  ghost predicate Told(s: State, op: Op) {
    var r := Perform(s, op);
    if op.ConnectionLost? || (Sends(s, op) && OutcomeOf(op) == SocketError)
    then Losses(r.events) == Losses(s.events) + 1 && r.clientState == Disconnected
    else if op.ScanList? then Follows(s, r, s.clientState)
    else
      && Losses(r.events) == Losses(s.events)
      && r.clientState == match op
                          case Connack(_) => Connected
                          case SetState(state) => state
                          case _ => s.clientState
  }

  lemma {:induction false} PublishTold(s: State, op: Op)
    requires op.Handle? && op.packet.Publish? && !Refused(op.packet)
    ensures Told(s, op)
  {
    var p := op.packet;
    var told := Log(s, Data(p));
    LogCalm(s, Data(p));
    LogCalm(s, UnsubscribedData(p));
    if FindMatch(s.subs, p.topic) == |s.subs| || p.qos == 0 {
      SilentFollows(s, op);
    } else if p.qos == 1 {
      ReplyFollows(s, op, told, Packet.Puback(p.id));
    } else if FindAck(s.acks, PUBREL, p.id) < |s.acks| {
      ReplyFollows(s, op, s, Packet.Pubrec(p.id));
    } else if op.memory < 2 {
      SilentFollows(s, op);
    } else {
      var node := NewNode(s, PUBREL, p.id, Some(Packet.Pubrec(p.id)), Msg(p.topic, p.qos, PacketIds.SETTLED, 0), op.now);
      AddCalm(Allocated(told), node);
      ReplyFollows(s, op, AddAck(Allocated(told), node), Packet.Pubrec(p.id));
    }
  }

  lemma {:induction false} PubrecTold(s: State, op: Op)
    requires op.Handle? && op.packet.Pubrec? && !Refused(op.packet)
    ensures Told(s, op)
  {
    var id := op.packet.id;
    var i := FindAck(s.acks, PUBREC, id);
    if FindAck(s.acks, PUBCOMP, id) < |s.acks| || i == |s.acks| {
      ReplyFollows(s, op, s, Packet.Pubrel(id));
    } else if op.memory < 2 {
      AddCalm(RemoveAck(s, i), s.acks[i]);
      SilentFollows(s, op);
    } else {
      MovedCalm(s, i, op.now);
      assert forall o: SendOutcome :: Perform(s, Ending(op, o)) == Send(Moved(s, i, op.now), Packet.Pubrel(id), o);
      hide Moved, Perform;
      ReplyFollows(s, op, Moved(s, i, op.now), Packet.Pubrel(id));
    }
  }

  lemma {:induction false} MovedCalm(s: State, i: nat, now: u32)
    requires i < |s.acks|
    ensures Calm(s, Moved(s, i, now)) && Moved(s, i, now).wire == s.wire
  {
    var n := s.acks[i];
    var taken := RemoveAck(s, i);
    AddCalm(Allocated(taken), NewNode(taken, PUBCOMP, n.id, Some(Packet.Pubrel(n.id)), n.msg.(packetId := PacketIds.SETTLED), now));
  }

  lemma {:induction false} HandleTold(s: State, op: Op)
    requires op.Handle?
    ensures Told(s, op)
  {
    hide Told, OnPublish, OnPubrec, SubackFrom, UnsubackFrom, Losses;
    if Refused(op.packet) {
      SilentFollows(s, op);
      return;
    }
    match op.packet
    case Publish(_, _, _, _, _) => PublishTold(s, op);
    case Pubrec(_) => PubrecTold(s, op);
    case Puback(id) => CompletionTold(s, op, PUBACK);
    case Pubcomp(id) => CompletionTold(s, op, PUBCOMP);
    case Pubrel(id) =>
      var i := FindAck(s.acks, PUBREL, id);
      var released := if i == |s.acks| then s else Destroy(RemoveAck(s, i), s.acks[i]);
      ReplyFollows(s, op, released, Packet.Pubcomp(id));
    case Suback(id, codes) =>
      SubackCalm(s, 0, id, codes);
      SubackDestroys(s, 0, id, codes);
      SilentFollows(s, op);
    case Unsuback(id) =>
      UnsubackCalm(s, 0, id);
      UnsubackDestroys(s, 0, id);
      SilentFollows(s, op);
    case _ => SilentFollows(s, op);
  }

  lemma {:induction false} CompletionTold(s: State, op: Op, kind: Kind)
    requires op.Handle? && !Refused(op.packet)
    requires kind == (if op.packet.Puback? then PUBACK else PUBCOMP) && (op.packet.Puback? || op.packet.Pubcomp?)
    ensures Told(s, op)
  {
    var i := FindAck(s.acks, kind, op.packet.id);
    if i < |s.acks| {
      LogCalm(RemoveAck(s, i), Published(s.acks[i]));
    }
    SilentFollows(s, op);
  }

  lemma {:induction false} EndTold(s: State, op: Op, p: Packet)
    requires op.PublishEnd? || op.SubscribeEnd? || op.UnsubscribeEnd?
    requires var sent := Send(s, p, OutcomeOf(op)); Perform(s, op).events == sent.events && Perform(s, op).clientState == sent.clientState
    ensures Told(s, op)
  {
    SendFollows(s, s, p, OutcomeOf(op));
    hide Perform, Send, Losses;
  }

  lemma {:induction false} BatchTold(s: State, op: Op)
    requires op.SubscribeBegin? || op.UnsubscribeBegin?
    ensures Told(s, op)
  {
    BatchSame(s, op);
    hide Perform, Losses;
  }

  lemma {:induction false} BatchSame(s: State, op: Op)
    requires op.SubscribeBegin? || op.UnsubscribeBegin?
    ensures Perform(s, op).events == s.events && Perform(s, op).clientState == s.clientState
  {
    hide AddUserNodes, SubMsgs, UnsubMsgs, DropBatch;
    var id := PacketIds.NextPacketId(s.packetId);
    match op
    case SubscribeBegin(requests, now, memory) =>
      var msgs := SubMsgs(requests, id);
      var all := BatchNodes(s.(packetId := id), SUBACK, id, msgs, now);
      if 2 <= memory < 2 + 2 * |requests| {
        var part := BatchNodes(s.(packetId := id), SUBACK, id, msgs[..(memory - 2) / 2], now);
      }
    case UnsubscribeBegin(topics, now, memory) =>
      var msgs := UnsubMsgs(s.subs, topics, id);
      var all := BatchNodes(s.(packetId := id), UNSUBACK, id, msgs, now);
      if 2 <= memory < 2 + 2 * |topics| {
        var part := BatchNodes(s.(packetId := id), UNSUBACK, id, msgs[..(memory - 2) / 2], now);
      }
  }

  lemma {:induction false} ScanTold(s: State, op: Op)
    requires op.ScanList?
    ensures Told(s, op)
  {
    if s.clientState == Connected {
      ScanLoses(s, op.wait, op.input);
    }
    hide Losses, ScanFrom;
  }

  /** One operation of any kind. */
  lemma {:induction false} StateFollows(s: State, op: Op)
    ensures Told(s, op)
  {
    hide Told, Losses, Dispatch, Scan, Sync, BeginSubscribe, BeginUnsubscribe, ClearAcks, DropBatch, Send;
    match op
    case Handle(_, _, _, _) => HandleTold(s, op);
    case ScanList(_, _) => ScanTold(s, op);
    case SubscribeBegin(_, _, _) => BatchTold(s, op);
    case UnsubscribeBegin(_, _, _) => BatchTold(s, op);
    case PublishEnd(qos, id, topic, body, outcome) => EndTold(s, op, Publish(false, qos, id, topic, body)) by { EndSame(s, op); }
    case SubscribeEnd(requests, id, outcome) => EndTold(s, op, Subscribe(id, Topics(requests))) by { EndSame(s, op); }
    case UnsubscribeEnd(topics, id, outcome) => EndTold(s, op, Unsubscribe(id, topics)) by { EndSame(s, op); }
    case PublishPlain(_, _, _, _) => PlainTold(s, op);
    case ConnectionLost => LossTold(s, op);
    case SyncLists => SyncTold(s, op);
    case _ => OtherTold(s, op);
  }

  lemma {:induction false} EndSame(s: State, op: Op)
    ensures op.PublishEnd? ==>
              var sent := Send(s, Publish(false, op.qos, op.id, op.topic, op.body), op.outcome);
              Perform(s, op).events == sent.events && Perform(s, op).clientState == sent.clientState
    ensures op.SubscribeEnd? ==>
              var sent := Send(s, Subscribe(op.id, Topics(op.requests)), op.outcome);
              Perform(s, op).events == sent.events && Perform(s, op).clientState == sent.clientState
    ensures op.UnsubscribeEnd? ==>
              var sent := Send(s, Unsubscribe(op.id, op.topics), op.outcome);
              Perform(s, op).events == sent.events && Perform(s, op).clientState == sent.clientState
  {
    hide Send, DropBatch;
  }

  lemma {:induction false} PlainTold(s: State, op: Op)
    requires op.PublishPlain?
    ensures Told(s, op)
  {
    var p := Publish(false, 0, 0, op.topic, op.body);
    SendFollows(s, s, p, op.outcome);
    GrownWire(s, s, p);
    hide Losses;
  }

  lemma {:induction false} LossTold(s: State, op: Op)
    requires op.ConnectionLost?
    ensures Told(s, op)
  {
    hide Losses, Purge;
    SendFollows(s, s, Packet.Unsuback(0), SocketError);
    assert Disconnect(s) == Send(s, Packet.Unsuback(0), SocketError);
    hide Send, Disconnect;
  }

  lemma {:induction false} SyncTold(s: State, op: Op)
    requires op.SyncLists?
    ensures Told(s, op)
  {
    SyncCalm(s);
    hide Losses, Sync;
  }

  lemma {:induction false} OtherTold(s: State, op: Op)
    requires op.PublishBegin? || op.UserDiscard? || op.Connack? || op.SetState?
    ensures Told(s, op)
  {
    if op.UserDiscard? {
      var i := FindAck(s.acks, op.kind, op.id);
      if i < |s.acks| {
        LogCalm(RemoveAck(s, i), AckHandlerDiscard(s.acks[i]));
      }
    }
    hide Losses;
  }

  // ---------------------------------------------------------------- received messages

  /** A send after some work: its own packet if it ends well, and no report of a PUBLISH. */
  lemma {:induction false} RepliesOnly(s: State, t: State, reply: Packet, outcome: SendOutcome)
    requires s.events <= t.events && t.wire == s.wire
    ensures var r := Send(t, reply, outcome);
            && r.wire == s.wire + (if outcome == Sent then [reply] else []) && t.events <= r.events
            && forall j | |t.events| <= j < |r.events| :: !r.events[j].Data? && !r.events[j].UnsubscribedData?
  {
    hide Purge;
    assert Purge(t.(clientState := Disconnected)).events == t.events && Purge(t.(clientState := Disconnected)).wire == t.wire
      by { PurgeSilent(t.(clientState := Disconnected)); }
  }

  lemma {:induction false} PurgeSilent(s: State)
    ensures Purge(s).events == s.events && Purge(s).wire == s.wire
  {
  }

  lemma {:induction false} RecordedReport(s: State, p: Packet, now: u32, outcome: SendOutcome)
    requires p.Publish?
    ensures var told := Log(s, Data(p));
            var node := NewNode(s, PUBREL, p.id, Some(Packet.Pubrec(p.id)), Msg(p.topic, p.qos, PacketIds.SETTLED, 0), now);
            var r := Send(AddAck(Allocated(told), node), Packet.Pubrec(p.id), outcome);
            && r.wire == s.wire + (if outcome == Sent then [Packet.Pubrec(p.id)] else []) && told.events <= r.events
            && forall j | |told.events| <= j < |r.events| :: !r.events[j].Data? && !r.events[j].UnsubscribedData?
  {
    var told := Log(s, Data(p));
    var node := NewNode(s, PUBREL, p.id, Some(Packet.Pubrec(p.id)), Msg(p.topic, p.qos, PacketIds.SETTLED, 0), now);
    var added := AddAck(Allocated(told), node);
    assert told.events <= added.events && added.wire == s.wire;
    assert forall j | |told.events| <= j < |added.events| :: added.events[j].AckCountWarning?;
    hide AddAck;
    RepliesOnly(s, added, Packet.Pubrec(p.id), outcome);
    hide Send;
  }

  /** How a PUBLISH is reported: as unsubscribed data, and then nothing else happens; as data, first of all; or, when it
      is `known`, not at all. `replies` go out. */
  predicate ReportedAs(s: State, r: State, p: Packet, matched: bool, known: bool, replies: seq<Packet>) {
    if !matched then r == s.(events := s.events + [UnsubscribedData(p)])
    else
      && (!known ==> |r.events| > |s.events| && r.events[|s.events|] == Data(p))
      && (forall j | |s.events| + (if known then 0 else 1) <= j < |r.events| ::
            !r.events[j].Data? && !r.events[j].UnsubscribedData?)
      && r.wire == s.wire + replies
  }

  /** A PUBLISH with a valid packet id is reported once: as data without a subscription, and then nothing else happens; or
      as data, first of all, unless it is a QoS 2 message whose record is still there, and then it is not reported. It is
      answered by its QoS, at QoS 2 only if there is a record or memory for one. */
  lemma {:induction false} PublishReported(s: State, p: Packet, now: u32, memory: nat, outcome: SendOutcome)
    requires p.Publish? && (p.qos > 0 ==> p.id > 0)
    ensures var matched := exists m :: m in s.subs && CodeMatches(p.topic, m.topic);
            var known := p.qos == 2 && exists n :: n in s.acks && Waits(n, PUBREL, p.id);
            var reply := if p.qos == 1 then [Packet.Puback(p.id)]
                         else if p.qos == 2 && (known || memory >= 2) then [Packet.Pubrec(p.id)] else [];
            ReportedAs(s, Perform(s, Handle(p, now, memory, outcome)), p, matched, known, if outcome == Sent then reply else [])
  {
    MatchFound(s.subs, p.topic);
    RecordFound(s.acks, p.id);
    hide FindMatch, FindAck, Send, AddAck, ReportedAs;
    var r := Perform(s, Handle(p, now, memory, outcome));
    assert r == OnPublish(s, p, now, memory, outcome);
    if FindMatch(s.subs, p.topic) == |s.subs| {
      TellsOnly(s, p, false);
    } else if p.qos == 0 || (p.qos == 2 && FindAck(s.acks, PUBREL, p.id) == |s.acks| && memory < 2) {
      TellsOnly(s, p, true);
    } else if p.qos == 1 {
      TellsAndReplies(s, p, Packet.Puback(p.id), outcome);
    } else if FindAck(s.acks, PUBREL, p.id) < |s.acks| {
      RepliesOnly(s, s, Packet.Pubrec(p.id), outcome);
      JustReplies(s, r, p, if outcome == Sent then [Packet.Pubrec(p.id)] else []);
    } else {
      RecordedReport(s, p, now, outcome);
      TellsFirst(s, r, p, if outcome == Sent then [Packet.Pubrec(p.id)] else []);
    }
  }

  lemma {:induction false} TellsOnly(s: State, p: Packet, matched: bool)
    ensures ReportedAs(s, Log(s, if matched then Data(p) else UnsubscribedData(p)), p, matched, false, [])
  {
    assert s.wire + [] == s.wire;
  }

  lemma {:induction false} TellsAndReplies(s: State, p: Packet, reply: Packet, outcome: SendOutcome)
    ensures ReportedAs(s, Send(Log(s, Data(p)), reply, outcome), p, true, false, if outcome == Sent then [reply] else [])
  {
    RepliesOnly(s, Log(s, Data(p)), reply, outcome);
    hide Send;
  }

  lemma {:induction false} JustReplies(s: State, r: State, p: Packet, replies: seq<Packet>)
    requires r.wire == s.wire + replies
    requires forall j | |s.events| <= j < |r.events| :: !r.events[j].Data? && !r.events[j].UnsubscribedData?
    ensures ReportedAs(s, r, p, true, true, replies)
  {
  }

  lemma {:induction false} TellsFirst(s: State, r: State, p: Packet, replies: seq<Packet>)
    requires r.wire == s.wire + replies && s.events + [Data(p)] <= r.events
    requires forall j | |s.events| + 1 <= j < |r.events| :: !r.events[j].Data? && !r.events[j].UnsubscribedData?
    ensures ReportedAs(s, r, p, true, false, replies)
  {
  }

  lemma {:induction false} MatchFound(subs: seq<Msg>, topic: string)
    ensures FindMatch(subs, topic) < |subs| <==> exists m :: m in subs && CodeMatches(topic, m.topic)
  {
    var i := FindMatch(subs, topic);
    if i < |subs| {
      assert subs[i] in subs;
    }
  }

  lemma {:induction false} RecordFound(acks: seq<AckNode>, id: u16)
    ensures FindAck(acks, PUBREL, id) < |acks| <==> exists n :: n in acks && Waits(n, PUBREL, id)
  {
    var i := FindAck(acks, PUBREL, id);
    if i < |acks| {
      assert acks[i] in acks;
    }
  }

  // ---------------------------------------------------------------- the number of nodes

  /** The warnings while a list grows from `from` nodes by `more`: each time it has the number of the threshold or more. */
  function Warnings(from: nat, more: nat, threshold: u16): seq<Event>
    requires from + more < 0x1_0000
    decreases more
  {
    if more == 0 then []
    else (if from + 1 >= threshold then [AckCountWarning(from + 1)] else []) + Warnings(from + 1, more - 1, threshold)
  }

  /** The hand-over of the user list warns of every node that brings the list to the threshold or beyond. */
  lemma {:induction false} SyncWarns(s: State)
    requires s.ackCount == |s.acks| && |s.acks| + |s.userAcks| < 0x1_0000
    ensures Sync(s).events == s.events + Warnings(|s.acks|, |s.userAcks|, s.config.ackCountWarning)
    decreases |s.userAcks|
  {
    if s.userAcks == [] {
      assert s.events + [] == s.events;
    } else {
      var next := AddAck(s.(userAcks := s.userAcks[1..]), s.userAcks[0]);
      var first := if |s.acks| + 1 >= s.config.ackCountWarning then [AckCountWarning(|s.acks| + 1)] else [];
      assert next.events == s.events + first && next.ackCount == |next.acks| && Sync(s) == Sync(next);
      assert next.userAcks == s.userAcks[1..] && next.config == s.config;
      hide AddAck, Sync;
      SyncWarns(next);
      Assoc(s.events, first, Warnings(|s.acks| + 1, |s.userAcks| - 1, s.config.ackCountWarning));
    }
  }
}
