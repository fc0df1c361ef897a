/** QoS 2 messages from the broker: whatever is repeated or lost, each is delivered once. */
module Inbound {
  import opened Bytes
  import opened Session
  import opened Requests
  import opened Operations
  import opened Effects
  import opened Events
  import opened RequestEffects
  import opened Handshake
  import opened Limits
  import opened World

  // ---------------------------------------------------------------- the invariant

  function PhaseOf(b: Broker, id: u16): Phase {
    if id !in b.out then Idle
    else if b.out[id].released then Releasing(b.out[id].body)
    else Sending(b.out[id].body)
  }

  /** Message `id` on its way from the broker, as a handshake. */
  function InLink(w: World, id: u16): Link {
    Link(PhaseOf(w.broker, id), id in InFlight(w.c).rel, Down(w), Up(w),
         id in w.broker.out && w.broker.out[id].body in w.recorded)
  }

  predicate Numbered(w: World) {
    && (forall id | id in w.broker.out :: w.broker.out[id].body < w.broker.started)
    && (forall i, j | i in w.broker.out && j in w.broker.out && i != j :: w.broker.out[i].body != w.broker.out[j].body)
    && (forall m | m in w.recorded :: m < w.broker.started)
    && w.broker.done <= w.recorded
  }

  ghost predicate Linked(w: World) {
    forall id: u16 :: InFlight(w.c).rel[id] <= 1 && Consistent(id, InLink(w, id))
  }

  ghost predicate Counted(w: World) {
    forall m: nat :: Deliveries(w.c.events, m) == Count(w.unrecorded, m) + if m in w.recorded then 1 else 0
  }

  ghost predicate InboundOk(w: World) {
    Grounded(w) && Numbered(w) && Linked(w) && Counted(w)
  }

  // ---------------------------------------------------------------- steps that handle no packet

  /** No event since `s` is a delivery. */
  predicate NothingDelivered(s: State, r: State) {
    s.events <= r.events && forall i | |s.events| <= i < |r.events| :: !r.events[i].Data?
  }

  /** `r` continues `s` without touching messages from the broker; it may repeat a PUBREC of one it remembers. */
  ghost predicate Continues(s: State, r: State) {
    && StateOk(r) && r.config == s.config && InFlight(r).rel == InFlight(s).rel && NothingDelivered(s, r)
    && s.wire <= r.wire
    && forall i, id: u16 | |s.wire| <= i < |r.wire| :: MayReply(id, id in InFlight(s).rel, r.wire[i])
  }

  lemma {:induction false} CountedQuiet(w: World, v: World)
    requires Counted(w) && NothingDelivered(w.c, v.c) && v.recorded == w.recorded && v.unrecorded == w.unrecorded
    ensures Counted(v)
  {
    forall m: nat ensures Deliveries(v.c.events, m) == Count(v.unrecorded, m) + if m in v.recorded then 1 else 0 {
      DeliveriesQuiet(w.c.events, v.c.events, m);
    }
  }

  /** Same broker and channels, the client goes on. */
  predicate SameElse(w: World, v: World) {
    && v.inbox == w.inbox && v.taken == w.taken && v.sent == w.sent && v.got == w.got
    && v.broker == w.broker && v.recorded == w.recorded && v.unrecorded == w.unrecorded
  }

  lemma {:induction false} ClientContinues(w: World, v: World)
    requires InboundOk(w) && SameElse(w, v) && Continues(w.c, v.c)
    ensures InboundOk(v)
  {
    hide InFlight, StateOk, Consistent;
    var more := v.c.wire[|w.c.wire|..];
    assert Up(v) == Up(w) + more;
    forall id: u16 ensures InFlight(v.c).rel[id] <= 1 && Consistent(id, InLink(v, id)) {
      assert Consistent(id, InLink(w, id));
      forall p | p in more ensures MayReply(id, InLink(w, id).marked, p) {
        var i :| 0 <= i < |more| && more[i] == p;
        assert v.c.wire[|w.c.wire| + i] == p;
      }
      ReceiverAdds(id, InLink(w, id), more);
      assert InLink(v, id) == InLink(w, id).(back := Up(w) + more);
    }
    CountedQuiet(w, v);
  }

  /** Packets nobody's handshake is about. */
  predicate Bystander(p: Packet) {
    && !p.Pubrec? && !p.Pubcomp? && !p.Pubrel? && (p.Publish? ==> p.qos < 2)
  }

  /** What the user's calls send. */
  lemma {:induction false} ContinuesWith(s: State, r: State, more: seq<Packet>)
    requires StateOk(r) && r.config == s.config && InFlight(r).rel == InFlight(s).rel && NothingDelivered(s, r)
    requires r.wire == s.wire + more && forall p | p in more :: !p.Pubrec? && !p.Pubcomp?
    ensures Continues(s, r)
  {
  }

  lemma {:induction false} PublishSteps(s: State, op: Op)
    requires StateOk(s) && !s.config.cleanSession
    requires op.PublishPlain? || op.PublishBegin? || op.PublishEnd?
    ensures Continues(s, Perform(s, op))
  {
    hide OutKeys, RelIds, StateOk;
    match op
    case PublishPlain(topic, body, memory, outcome) =>
      SendEffect(s, Publish(false, 0, 0, topic, body), outcome);
      if Perform(s, op) == s {
        ContinuesWith(s, s, []);
      } else {
        ContinuesWith(s, Perform(s, op), SentIf(outcome, Publish(false, 0, 0, topic, body)));
      }
    case PublishBegin(qos, topic, body, now, memory) =>
      BeginPublishEffect(s, qos, topic, body, now, memory);
      ContinuesWith(s, Perform(s, op), []);
    case PublishEnd(qos, id, topic, body, outcome) =>
      var p := Publish(false, qos, id, topic, body);
      if outcome == Sent {
        FinishPublishSent(s, PublishKind(qos), id, p);
        StateOkSame(s, Perform(s, op));
        ContinuesWith(s, Perform(s, op), [p]);
      } else {
        FinishPublishRollsBack(s, PublishKind(qos), id, p, outcome);
        ContinuesWith(s, Perform(s, op), []);
      }
  }

  lemma {:induction false} SubscriptionSteps(s: State, op: Op)
    requires StateOk(s) && !s.config.cleanSession
    requires op.SubscribeBegin? || op.SubscribeEnd? || op.UnsubscribeBegin? || op.UnsubscribeEnd?
    ensures Continues(s, Perform(s, op))
    ensures InFlight(Perform(s, op)) == InFlight(s)
    ensures s.wire <= Perform(s, op).wire
    ensures forall i | |s.wire| <= i < |Perform(s, op).wire| ::
              Perform(s, op).wire[i].Subscribe? || Perform(s, op).wire[i].Unsubscribe?
  {
    hide OutKeys, RelIds, StateOk, InFlight;
    match op
    case SubscribeBegin(requests, now, memory) =>
      BeginSubscribeAside(s, requests, now, memory);
      ContinuesWith(s, Perform(s, op), []);
    case SubscribeEnd(requests, id, outcome) =>
      FinishSubscribeAside(s, requests, id, outcome);
      ContinuesWith(s, Perform(s, op), SentIf(outcome, Subscribe(id, Topics(requests))));
    case UnsubscribeBegin(topics, now, memory) =>
      BeginUnsubscribeAside(s, topics, now, memory);
      ContinuesWith(s, Perform(s, op), []);
    case UnsubscribeEnd(topics, id, outcome) =>
      FinishUnsubscribeAside(s, topics, id, outcome);
      ContinuesWith(s, Perform(s, op), SentIf(outcome, Unsubscribe(id, topics)));
  }

  lemma {:induction false} OtherSteps(s: State, op: Op)
    requires StateOk(s) && !s.config.cleanSession
    requires op.SyncLists? || op.ConnectionLost? || op.ScanList? || (op.UserDiscard? && op.kind != PUBREL)
    ensures Continues(s, Perform(s, op))
  {
    hide OutKeys, RelIds, StateOk;
    match op
    case UserDiscard(kind, id) =>
      DiscardEffect(s, kind, id);
      ContinuesWith(s, Perform(s, op), []);
    case SyncLists =>
      SyncEffect(s);
      ContinuesWith(s, Perform(s, op), []);
    case ConnectionLost =>
      SendEffect(s, Packet.Unsuback(0), SocketError);
      ContinuesWith(s, Perform(s, op), []);
    case ScanList(wait, input) =>
      ScanEffect(s, wait, input);
  }

  // ---------------------------------------------------------------- the packet in hand

  /** Handled without touching messages from the broker. */
  lemma {:induction false} HandledAside(w: World, v: World)
    requires InboundOk(w) && w.inbox.Synced? && SameElse(w.(inbox := Empty), v) && Continues(w.c, v.c)
    ensures InboundOk(v)
  {
    hide InFlight, StateOk, Consistent;
    HeadInHand(w);
    var dropped := w.(inbox := Empty);
    forall id: u16 ensures InFlight(dropped.c).rel[id] <= 1 && Consistent(id, InLink(dropped, id)) {
      assert Consistent(id, InLink(w, id));
      FrontLeaves(id, InLink(w, id), 1, 0);
      assert InLink(dropped, id) == InLink(w, id).(fwd := Down(w)[1..], back := Up(w)[0..]);
    }
    ClientContinues(dropped, v);
  }

  lemma {:induction false} PubrelHandled(w: World, now: u32, memory: nat, outcome: SendOutcome)
    requires InboundOk(w) && w.inbox.Synced? && !Refused(w.inbox.p) && w.inbox.p.Pubrel?
    ensures InboundOk(ApplyHandle(w, now, memory, outcome))
  {
    hide InFlight, StateOk, Consistent, OnPubrel;
    var v := ApplyHandle(w, now, memory, outcome);
    var r := w.inbox.p.id;
    HeadInHand(w);
    OnPubrelEffect(w.c, r, outcome);
    var more := SentIf(outcome, Packet.Pubcomp(r));
    assert Up(v) == Up(w) + more && Down(v) == Down(w)[1..];
    assert w.inbox.p == Packet.Pubrel(r) && v.broker == w.broker && v.recorded == w.recorded;
    CountedQuiet(w, v);
    hide Counted, ApplyHandle;
    forall id: u16 ensures InFlight(v.c).rel[id] <= 1 && Consistent(id, InLink(v, id)) {
      var l := InLink(w, id);
      assert Consistent(id, l) && InFlight(w.c).rel[id] <= 1;
      var m := l.(fwd := Down(w)[1..], marked := id in InFlight(v.c).rel);
      if id == r {
        PubrelArrives(id, l);
      } else {
        FrontLeaves(id, l, 1, 0);
        assert Up(w)[0..] == Up(w);
      }
      assert Consistent(id, m);
      ReceiverAdds(id, m, more);
      assert InLink(v, id) == m.(back := Up(w) + more);
    }
  }

  lemma {:induction false} CountedDelivery(w: World, v: World, p: Packet, recorded: bool)
    requires Counted(w) && p.Publish? && p.qos == 2 && QuietEvents(Log(w.c, Data(p)), v.c)
    requires recorded ==> p.body !in w.recorded && v.recorded == w.recorded + {p.body} && v.unrecorded == w.unrecorded
    requires !recorded ==> v.recorded == w.recorded && v.unrecorded == w.unrecorded + [p.body]
    ensures Counted(v)
  {
    forall m: nat ensures Deliveries(v.c.events, m) == Count(v.unrecorded, m) + if m in v.recorded then 1 else 0 {
      DeliveriesPush(w.c.events, Data(p), m);
      DeliveriesQuiet(w.c.events + [Data(p)], v.c.events, m);
      CountPush(w.unrecorded, p.body, m);
    }
  }

  /** A message arrives and is recorded. */
  lemma {:induction false} MessageRecorded(w: World, now: u32, memory: nat, outcome: SendOutcome)
    requires InboundOk(w) && w.inbox.Synced? && !Refused(w.inbox.p) && w.inbox.p.Publish? && Records(w.c, w.inbox.p, memory)
    ensures InboundOk(ApplyHandle(w, now, memory, outcome))
  {
    hide InFlight, StateOk, Consistent, OnPublish;
    var v := ApplyHandle(w, now, memory, outcome);
    var p := w.inbox.p;
    HeadInHand(w);
    OnPublishEffect(w.c, p, now, memory, outcome);
    assert Consistent(p.id, InLink(w, p.id));
    MessageArrives(p.id, InLink(w, p.id));
    assert p.id in w.broker.out && w.broker.out[p.id].body == p.body && p.body !in w.recorded;
    CountedDelivery(w, v, p, true);
    var more := SentIf(outcome, Packet.Pubrec(p.id));
    assert Up(v) == Up(w) + more && Down(v) == Down(w)[1..];
    assert v.broker == w.broker && v.recorded == w.recorded + {p.body};
    hide Counted, ApplyHandle, Delivers;
    forall id: u16 ensures InFlight(v.c).rel[id] <= 1 && Consistent(id, InLink(v, id)) {
      var l := InLink(w, id);
      assert Consistent(id, l) && InFlight(w.c).rel[id] <= 1;
      var m := l.(fwd := Down(w)[1..], marked := id in InFlight(v.c).rel, accepted := InLink(v, id).accepted);
      if id != p.id {
        FrontLeaves(id, l, 1, 0);
        assert Up(w)[0..] == Up(w);
        assert m.accepted == l.accepted;
      }
      assert Consistent(id, m);
      ReceiverAdds(id, m, more);
      assert InLink(v, id) == m.(back := Up(w) + more);
    }
  }

  lemma {:induction false} ContinuesWithReply(s: State, r: State, p: Packet, more: seq<Packet>)
    requires p.Publish?
    requires StateOk(r) && r.config == s.config && InFlight(r).rel == InFlight(s).rel && QuietEvents(s, r)
    requires r.wire == s.wire + more
    requires forall q | q in more :: q == Packet.Puback(p.id) || (q == Packet.Pubrec(p.id) && p.id in InFlight(s).rel)
    ensures Continues(s, r)
  {
    forall i, id: u16 | |s.wire| <= i < |r.wire| ensures MayReply(id, id in InFlight(s).rel, r.wire[i]) {
      assert r.wire[i] in more;
    }
  }

  /** A delivery that leaves no record: QoS 0 or 1, or no memory for it. */
  lemma {:induction false} DeliveredUnrecorded(w: World, v: World, p: Packet)
    requires InboundOk(w) && w.inbox.Synced? && p == w.inbox.p && p.Publish?
    requires SameElse(w.(inbox := Empty, unrecorded := v.unrecorded), v)
    requires v.unrecorded == if p.qos == 2 then w.unrecorded + [p.body] else w.unrecorded
    requires Continues(Log(w.c, Data(p)), v.c)
    ensures InboundOk(v)
  {
    hide StateOk, Consistent, InboundOk, Continues;
    var told := w.(c := Log(w.c, Data(p)), unrecorded := v.unrecorded);
    ToldOkStill(w, told, p);
    HandledAside(told, v);
  }

  lemma {:induction false} ToldOkStill(w: World, told: World, p: Packet)
    requires InboundOk(w) && p.Publish? && told == w.(c := Log(w.c, Data(p)), unrecorded := told.unrecorded)
    requires told.unrecorded == if p.qos == 2 then w.unrecorded + [p.body] else w.unrecorded
    ensures InboundOk(told)
  {
    hide StateOk, Consistent;
    ToldCounted(w, told, p);
    assert InFlight(told.c) == InFlight(w.c);
    StateOkSame(w.c, told.c);
    hide InFlight, Counted;
    forall id: u16 ensures InFlight(told.c).rel[id] <= 1 && Consistent(id, InLink(told, id)) {
      assert Consistent(id, InLink(w, id));
      assert InLink(told, id) == InLink(w, id);
    }
  }

  lemma {:induction false} ToldCounted(w: World, told: World, p: Packet)
    requires Counted(w) && p.Publish? && told == w.(c := Log(w.c, Data(p)), unrecorded := told.unrecorded)
    requires told.unrecorded == if p.qos == 2 then w.unrecorded + [p.body] else w.unrecorded
    ensures Counted(told)
  {
    hide InFlight;
    if p.qos == 2 {
      CountedDelivery(w, told, p, false);
    } else {
      forall m: nat ensures Deliveries(told.c.events, m) == Count(told.unrecorded, m) + if m in told.recorded then 1 else 0 {
        DeliveriesPush(w.c.events, Data(p), m);
      }
    }
  }

  lemma {:induction false} PublishToldOnly(w: World, now: u32, memory: nat, outcome: SendOutcome)
    requires InboundOk(w) && w.inbox.Synced? && !Refused(w.inbox.p) && w.inbox.p.Publish?
    requires Delivers(w.c, w.inbox.p) && !Records(w.c, w.inbox.p, memory)
    ensures InboundOk(ApplyHandle(w, now, memory, outcome))
  {
    hide StateOk, OnPublish, RelIds, OutKeys, Linked, Counted;
    var v := ApplyHandle(w, now, memory, outcome);
    var p := w.inbox.p;
    OnPublishEffect(w.c, p, now, memory, outcome);
    var told := Log(w.c, Data(p));
    assert InFlight(told) == InFlight(w.c);
    assert v.c == OnPublish(w.c, p, now, memory, outcome);
    ContinuesWithReply(told, v.c, p, PublishReply(w.c, p, memory, outcome));
    DeliveredUnrecorded(w, v, p);
  }

  lemma {:induction false} PublishNotTold(w: World, now: u32, memory: nat, outcome: SendOutcome)
    requires InboundOk(w) && w.inbox.Synced? && !Refused(w.inbox.p) && w.inbox.p.Publish? && !Delivers(w.c, w.inbox.p)
    ensures InboundOk(ApplyHandle(w, now, memory, outcome))
  {
    hide StateOk, OnPublish, RelIds, OutKeys, Linked, Counted;
    var v := ApplyHandle(w, now, memory, outcome);
    var p := w.inbox.p;
    OnPublishEffect(w.c, p, now, memory, outcome);
    assert v.c == OnPublish(w.c, p, now, memory, outcome);
    ContinuesWithReply(w.c, v.c, p, PublishReply(w.c, p, memory, outcome));
    HandledAside(w, v);
  }

  lemma {:induction false} PublishHandled(w: World, now: u32, memory: nat, outcome: SendOutcome)
    requires InboundOk(w) && w.inbox.Synced? && !Refused(w.inbox.p) && w.inbox.p.Publish?
    ensures InboundOk(ApplyHandle(w, now, memory, outcome))
  {
    hide InboundOk, OnPublish, Delivers, InFlight, StateOk;
    if Records(w.c, w.inbox.p, memory) {
      MessageRecorded(w, now, memory, outcome);
    } else if Delivers(w.c, w.inbox.p) {
      PublishToldOnly(w, now, memory, outcome);
    } else {
      PublishNotTold(w, now, memory, outcome);
    }
  }

  lemma {:induction false} PubrecContinues(s: State, id: u16, now: u32, memory: nat, outcome: SendOutcome)
    requires StateOk(s) && !s.config.cleanSession
    ensures Continues(s, OnPubrec(s, id, now, memory, outcome))
  {
    hide InFlight, StateOk, OnPubrec;
    var r := OnPubrec(s, id, now, memory, outcome);
    if AwaitsPubrec(InFlight(s), id) && memory >= 2 {
      var b := OnPubrecMoves(s, id, now, memory, outcome);
      ContinuesWith(s, r, SentIf(outcome, Packet.Pubrel(id)));
    } else {
      OnPubrecStays(s, id, now, memory, outcome);
      ContinuesWith(s, r, if AwaitsPubrec(InFlight(s), id) then [] else SentIf(outcome, Packet.Pubrel(id)));
    }
  }

  /** Whatever else a SUBACK destroys, the records of delivered messages stay when none has its id. */
  lemma {:induction false} SubackSpares(s: State, id: u16, codes: seq<byte>)
    requires StateOk(s) && SparesRecords(s, Packet.Suback(id, codes))
    ensures Continues(s, OnSuback(s, id, codes))
  {
    hide OutKeys, RelIds, StateOk;
    var r := OnSuback(s, id, codes);
    if CountSubs(s.subs, id) == |codes| {
      SubackDestroys(s, 0, id, codes);
      OthersKeepRecords(s, r, id);
    } else {
      ClearSubscriptionsAside(s, SUBACK, id);
      StateOkSame(ClearAcks(s, SUBACK, id), r);
      assert InFlight(r) == InFlight(s);
    }
    ContinuesWith(s, r, []);
  }

  lemma {:induction false} UnsubackSpares(s: State, id: u16)
    requires StateOk(s) && SparesRecords(s, Packet.Unsuback(id))
    ensures Continues(s, UnsubackFrom(s, 0, id))
  {
    hide OutKeys, RelIds, StateOk;
    UnsubackDestroys(s, 0, id);
    OthersKeepRecords(s, UnsubackFrom(s, 0, id), id);
    ContinuesWith(s, UnsubackFrom(s, 0, id), []);
  }

  lemma {:induction false} OthersKeepRecords(s: State, r: State, id: u16)
    requires StateOk(s) && (forall n | n in s.acks :: !Waits(n, PUBREL, id))
    requires r.acks == s.acks[..0] + OtherIds(s.acks[0..], id) && r.userAcks == s.userAcks
    ensures StateOk(r) && InFlight(r).rel == InFlight(s).rel
  {
    assert s.acks[0..] == s.acks && r.acks == OtherIds(s.acks, id);
    OtherIdsStore(s, r, id);
    RelPresent(s.acks, id);
    forall k: u16 ensures RelIds(r.acks)[k] == RelIds(s.acks)[k] {
      OtherIdsRel(s.acks, id, k);
    }
  }

  /** Acknowledgements of the client's own packets, handled. */
  lemma {:induction false} AcknowledgementContinues(s: State, p: Packet, now: u32, memory: nat, outcome: SendOutcome)
    requires StateOk(s) && !s.config.cleanSession && !p.Publish? && !p.Pubrel?
    requires !Refused(p) && SparesRecords(s, p)
    ensures Continues(s, Dispatch(s, p, now, memory, outcome))
  {
    hide InFlight, StateOk, OnPubrec, OnSuback, SparesRecords;
    var r := Dispatch(s, p, now, memory, outcome);
    match p
    case Puback(id) =>
      PubackContinues(s, PUBACK, id);
    case Pubcomp(id) =>
      PubackContinues(s, PUBCOMP, id);
    case Pubrec(id) =>
      PubrecContinues(s, id, now, memory, outcome);
    case Suback(id, codes) => SubackSpares(s, id, codes);
    case Unsuback(id) => UnsubackSpares(s, id);
    case _ => ContinuesWith(s, r, []);
  }

  lemma {:induction false} PubackContinues(s: State, kind: Kind, id: u16)
    requires StateOk(s) && kind in {PUBACK, PUBCOMP}
    ensures Continues(s, OnPuback(s, kind, id))
  {
    hide InFlight, StateOk, OnPuback;
    OnPubackEffect(s, kind, id);
    ContinuesWith(s, OnPuback(s, kind, id), []);
  }

  lemma {:induction false} AcknowledgementHandled(w: World, now: u32, memory: nat, outcome: SendOutcome)
    requires InboundOk(w) && Enabled(w, Handles(now, memory, outcome)) && !Refused(w.inbox.p)
    requires !w.inbox.p.Publish? && !w.inbox.p.Pubrel?
    ensures InboundOk(ApplyHandle(w, now, memory, outcome))
  {
    hide InFlight, StateOk, Consistent, Dispatch;
    AcknowledgementContinues(w.c, w.inbox.p, now, memory, outcome);
    HandledAside(w, ApplyHandle(w, now, memory, outcome));
  }

  lemma {:induction false} RefusedHandled(w: World, now: u32, memory: nat, outcome: SendOutcome)
    requires InboundOk(w) && w.inbox.Synced? && Refused(w.inbox.p)
    ensures InboundOk(ApplyHandle(w, now, memory, outcome))
  {
    hide InFlight, StateOk, Consistent;
    ContinuesWith(w.c, w.c, []) by { assert Grounded(w); }
    HandledAside(w, ApplyHandle(w, now, memory, outcome));
  }

  // ---------------------------------------------------------------- the broker's steps

  lemma {:induction false} BrokerSendsOk(w: World, p: Packet)
    requires InboundOk(w) && Bystander(p)
    ensures InboundOk(w.(sent := w.sent + [p]))
  {
    hide InFlight, StateOk, Consistent;
    var v := w.(sent := w.sent + [p]);
    assert Down(v) == Down(w) + [p];
    forall id: u16 ensures InFlight(v.c).rel[id] <= 1 && Consistent(id, InLink(v, id)) {
      assert Consistent(id, InLink(w, id));
      SenderAdds(id, InLink(w, id), [p]);
      assert InLink(v, id) == InLink(w, id).(fwd := Down(w) + [p]);
    }
  }

  lemma {:induction false} BrokerRepeatsOk(w: World, id: u16)
    requires InboundOk(w) && id in w.broker.out
    ensures InboundOk(w.(sent := w.sent + [Repeated(id, w.broker.out[id])]))
  {
    hide InFlight, StateOk, Consistent;
    var p := Repeated(id, w.broker.out[id]);
    var v := w.(sent := w.sent + [p]);
    assert Down(v) == Down(w) + [p];
    forall i: u16 ensures InFlight(v.c).rel[i] <= 1 && Consistent(i, InLink(v, i)) {
      assert Consistent(i, InLink(w, i));
      SenderAdds(i, InLink(w, i), [p]);
      assert InLink(v, i) == InLink(w, i).(fwd := Down(w) + [p]);
    }
  }

  lemma {:induction false} BrokerStartsOk(w: World, id: u16, topic: string)
    requires InboundOk(w) && id !in w.broker.out
    ensures InboundOk(ApplyBrokerStarts(w, id, topic))
  {
    hide InFlight, StateOk, Consistent;
    var v := ApplyBrokerStarts(w, id, topic);
    var body := w.broker.started;
    var p := Publish(false, 2, id, topic, body);
    assert Down(v) == Down(w) + [p];
    forall i: u16 ensures InFlight(v.c).rel[i] <= 1 && Consistent(i, InLink(v, i)) {
      var l := InLink(w, i);
      assert Consistent(i, l);
      var m := if i == id then l.(phase := Sending(body), accepted := false) else l;
      if i == id {
        Starts(i, l, body);
      }
      SenderAdds(i, m, [p]);
      assert InLink(v, i) == m.(fwd := Down(w) + [p]);
    }
  }

  /** Only the id a packet carries is affected by taking it. */
  lemma {:induction false} TakenElsewhere(w: World, v: World, id: u16, answer: seq<Packet>)
    requires InboundOk(w) && w.taken < |w.c.wire|
    requires v == w.(taken := w.taken + 1, broker := v.broker, sent := w.sent + answer)
    requires PhaseOf(v.broker, id) == PhaseOf(w.broker, id) && InLink(v, id).accepted == InLink(w, id).accepted
    requires forall p | p in answer :: MaySend(id, PhaseOf(w.broker, id), p)
    ensures Consistent(id, InLink(v, id))
  {
    hide InFlight, StateOk, Consistent;
    TakenHead(w);
    var l := InLink(w, id);
    assert Consistent(id, l);
    FrontLeaves(id, l, 0, 1);
    assert Down(w)[0..] == Down(w) && Down(v) == Down(w) + answer;
    var m := l.(back := Up(w)[1..]);
    SenderAdds(id, m, answer);
    assert InLink(v, id) == m.(fwd := Down(w) + answer);
  }

  /** PUBREC taken: the broker goes on to PUBREL. */
  lemma {:induction false} PubrecTaken(w: World, id: u16)
    requires InboundOk(w) && w.taken < |w.c.wire| && w.c.wire[w.taken] == Packet.Pubrec(id)
    ensures Consistent(id, InLink(ApplyBrokerTakes(w), id))
    ensures id in w.broker.out
  {
    hide InFlight, StateOk, Consistent;
    var v := ApplyBrokerTakes(w);
    TakenHead(w);
    var l := InLink(w, id);
    assert Consistent(id, l);
    PubrecArrives(id, l);
    var m := l.(back := Up(w)[1..], phase := Releasing(l.phase.body));
    SenderAdds(id, m, [Packet.Pubrel(id)]);
    assert Down(v) == Down(w) + [Packet.Pubrel(id)];
    assert InLink(v, id) == m.(fwd := Down(w) + [Packet.Pubrel(id)]);
  }

  /** PUBCOMP taken: the broker is done with the message, which was recorded. */
  lemma {:induction false} PubcompTaken(w: World, id: u16)
    requires InboundOk(w) && w.taken < |w.c.wire| && w.c.wire[w.taken] == Packet.Pubcomp(id)
    requires id in w.broker.out && w.broker.out[id].released
    ensures Consistent(id, InLink(ApplyBrokerTakes(w), id))
    ensures w.broker.out[id].body in w.recorded
  {
  }

  lemma {:induction false} BrokerTakesOk(w: World)
    requires InboundOk(w) && w.taken < |w.c.wire|
    ensures InboundOk(ApplyBrokerTakes(w))
  {
    hide InFlight, StateOk, Consistent;
    var v := ApplyBrokerTakes(w);
    assert v.c == w.c && v.recorded == w.recorded && v.unrecorded == w.unrecorded && v.taken == w.taken + 1;
    TakenNumbered(w);
    hide Numbered;
    TakenLinks(w);
    hide Linked;
  }

  lemma {:induction false} TakenLinks(w: World)
    requires InboundOk(w) && w.taken < |w.c.wire|
    ensures Linked(ApplyBrokerTakes(w))
  {
    hide InFlight, StateOk, Consistent, Counted;
    var v := ApplyBrokerTakes(w);
    var p := w.c.wire[w.taken];
    var answer := BrokerHandles(w.broker, p).1;
    forall id: u16 ensures InFlight(v.c).rel[id] <= 1 && Consistent(id, InLink(v, id)) {
      assert Consistent(id, InLink(w, id));
      if p == Packet.Pubrec(id) {
        PubrecTaken(w, id);
      } else if p == Packet.Pubcomp(id) && id in w.broker.out && w.broker.out[id].released {
        PubcompTaken(w, id);
      } else {
        TakenElsewhere(w, v, id, answer);
      }
    }
  }

  lemma {:induction false} TakenNumbered(w: World)
    requires InboundOk(w) && w.taken < |w.c.wire|
    ensures Numbered(ApplyBrokerTakes(w))
  {
    var p := w.c.wire[w.taken];
    if p.Pubcomp? && p.id in w.broker.out && w.broker.out[p.id].released {
      PubcompTaken(w, p.id);
    }
    TakenShrinks(w.broker, p);
    hide InFlight, StateOk, Consistent, Counted, Linked, Grounded, BrokerHandles;
    FewerNumbered(w, ApplyBrokerTakes(w));
  }

  /** Taking a packet the broker starts nothing; only a PUBCOMP it waits for completes a message. */
  lemma {:induction false} TakenShrinks(b: Broker, p: Packet)
    ensures var r := BrokerHandles(b, p).0;
            && r.started == b.started
            && (forall id | id in r.out :: id in b.out && r.out[id].body == b.out[id].body)
            && r.done == b.done + if p.Pubcomp? && p.id in b.out && b.out[p.id].released then {b.out[p.id].body} else {}
  {
  }

  lemma {:induction false} FewerNumbered(w: World, v: World)
    requires Numbered(w) && v.recorded == w.recorded && v.broker.started == w.broker.started
    requires forall id | id in v.broker.out :: id in w.broker.out && v.broker.out[id].body == w.broker.out[id].body
    requires v.broker.done <= w.broker.done + w.recorded
    ensures Numbered(v)
  {
  }

  lemma {:induction false} ResumesOk(w: World)
    requires InboundOk(w) && w.inbox.Empty?
    ensures InboundOk(ApplyReconnect(w, true))
  {
    hide Consistent, OutKeys, RelIds, StateOk;
    var v := ApplyReconnect(w, true);
    assert Up(v) == [] && Down(v) == [];
    StateOkSame(w.c, v.c);
    forall id: u16 ensures InFlight(v.c).rel[id] <= 1 && Consistent(id, InLink(v, id)) {
      var l := InLink(w, id);
      assert Consistent(id, l);
      FrontLeaves(id, l, |l.fwd|, |l.back|);
      assert InLink(v, id) == l.(fwd := l.fwd[|l.fwd|..], back := l.back[|l.back|..]);
    }
  }

  lemma {:induction false} RestartsOk(w: World)
    requires InboundOk(w) && w.inbox.Empty?
    ensures InboundOk(ApplyReconnect(w, false))
  {
    hide Consistent, StateOk;
    var v := ApplyReconnect(w, false);
    assert Up(v) == [] && Down(v) == [];
    StateOkEmpty(v.c);
    assert InFlight(v.c).rel == multiset{};
    hide InFlight;
    forall id: u16 ensures InFlight(v.c).rel[id] <= 1 && Consistent(id, InLink(v, id)) {
      Afresh(id, InLink(v, id));
    }
  }

  lemma {:induction false} ReconnectsOk(w: World, present: bool)
    requires InboundOk(w) && w.inbox.Empty?
    ensures InboundOk(ApplyReconnect(w, present))
  {
    hide InboundOk, ApplyReconnect;
    if present {
      ResumesOk(w);
    } else {
      RestartsOk(w);
    }
  }

  // ---------------------------------------------------------------- every step

  lemma {:induction false} InboundStart(config: Config)
    requires !config.cleanSession
    ensures InboundOk(Beginning(config))
  {
  }

  lemma {:induction false} UserStep(w: World, step: Step)
    requires InboundOk(w) && Enabled(w, step)
    requires !step.Handles? && !step.Reconnects? && !step.Receives? && !step.BrokerSends? && !step.BrokerStarts?
    requires !step.BrokerRepeats? && !step.BrokerTakes? && !step.Syncs?
    ensures Continues(w.c, Apply(w, step).c)
  {
    hide InFlight, StateOk, Perform, Continues;
    match step
    case UserPublishPlain(topic, body, memory, outcome) => PublishSteps(w.c, PublishPlain(topic, body, memory, outcome));
    case UserPublishBegin(qos, topic, now, memory) =>
      PublishSteps(w.c, PublishBegin(qos, topic, |w.issuedAt|, now, memory));
    case UserPublishEnd(body, outcome) =>
      var p := w.pending[body];
      PublishSteps(w.c, PublishEnd(p.qos, p.id, p.topic, p.body, outcome));
    case UserSubscribeBegin(requests, now, memory) => SubscriptionSteps(w.c, SubscribeBegin(requests, now, memory));
    case UserSubscribeEnd(requests, id, outcome) => SubscriptionSteps(w.c, SubscribeEnd(requests, id, outcome));
    case UserUnsubscribeBegin(topics, now, memory) => SubscriptionSteps(w.c, UnsubscribeBegin(topics, now, memory));
    case UserUnsubscribeEnd(topics, id, outcome) => SubscriptionSteps(w.c, UnsubscribeEnd(topics, id, outcome));
    case UserDiscards(kind, id) => OtherSteps(w.c, UserDiscard(kind, id));
    case Loses => OtherSteps(w.c, ConnectionLost);
    case Scans(wait, input) => OtherSteps(w.c, ScanList(wait, input));
  }

  lemma {:induction false} SyncsOk(w: World)
    requires InboundOk(w)
    ensures InboundOk(Apply(w, Syncs))
  {
    hide InFlight, StateOk, Consistent, Perform, Continues;
    var v := Apply(w, Syncs);
    OtherSteps(w.c, SyncLists);
    var u := v.(inbox := w.inbox);
    ClientContinues(w, u);
    InHandSynced(u, v);
  }

  lemma {:induction false} InHandSynced(u: World, v: World)
    requires InboundOk(u) && v == u.(inbox := if u.inbox.Received? then Synced(u.inbox.p) else u.inbox)
    ensures InboundOk(v)
  {
    hide InFlight, StateOk, Consistent, Counted, Numbered;
    assert Down(v) == Down(u) && Up(v) == Up(u);
    forall id: u16 ensures InFlight(v.c).rel[id] <= 1 && Consistent(id, InLink(v, id)) {
      assert Consistent(id, InLink(u, id)) && InLink(v, id) == InLink(u, id);
    }
    SameCounted(u, v);
  }

  lemma {:induction false} SameCounted(u: World, v: World)
    requires Counted(u) && Numbered(u) && v.c == u.c && v.broker == u.broker
    requires v.recorded == u.recorded && v.unrecorded == u.unrecorded
    ensures Counted(v) && Numbered(v)
  {
  }

  lemma {:induction false} ReceivesOk(w: World)
    requires InboundOk(w) && Enabled(w, Receives)
    ensures InboundOk(Apply(w, Receives))
  {
    var v := w.(inbox := Received(w.sent[w.got]), got := w.got + 1);
    hide InFlight, StateOk, Consistent, Counted, Numbered;
    assert Apply(w, Receives) == v && Down(v) == Down(w) && Up(v) == Up(w);
    hide Apply, Down, Up;
    forall id: u16 ensures InFlight(v.c).rel[id] <= 1 && Consistent(id, InLink(v, id)) {
      assert Consistent(id, InLink(w, id)) && InLink(v, id) == InLink(w, id);
    }
    SameCounted(w, v);
  }

  lemma {:induction false} InboundStep(w: World, step: Step)
    requires InboundOk(w) && Enabled(w, step)
    ensures InboundOk(Apply(w, step))
  {
    hide InboundOk, Continues, Perform;
    match step
    case Reconnects(present) => ReconnectsOk(w, present);
    case Receives => ReceivesOk(w);
    case Syncs => SyncsOk(w);
    case Handles(now, memory, outcome) =>
      if Refused(w.inbox.p) {
        RefusedHandled(w, now, memory, outcome);
      } else if w.inbox.p.Publish? {
        PublishHandled(w, now, memory, outcome);
      } else if w.inbox.p.Pubrel? {
        PubrelHandled(w, now, memory, outcome);
      } else {
        AcknowledgementHandled(w, now, memory, outcome);
      }
    case BrokerSends(p) => BrokerSendsOk(w, p);
    case BrokerStarts(id, topic) => BrokerStartsOk(w, id, topic);
    case BrokerRepeats(id) => BrokerRepeatsOk(w, id);
    case BrokerTakes => BrokerTakesOk(w);
    case _ =>
      UserStep(w, step);
      ClientContinues(w, Apply(w, step));
  }

  lemma {:induction false} InboundRun(config: Config, steps: seq<Step>, w: World)
    requires !config.cleanSession && Run(Beginning(config), steps, w)
    ensures InboundOk(w)
  {
    if steps == [] {
      InboundStart(config);
    } else {
      var last := steps[|steps| - 1];
      var v: World :| Run(Beginning(config), steps[..|steps| - 1], v) && Enabled(v, last) && w == Apply(v, last);
      InboundRun(config, steps[..|steps| - 1], v);
      InboundStep(v, last);
    }
  }

  /** In every run, and whatever is repeated, lost or reconnected: QoS 2 message `m` of the broker reaches the
      application once if it was ever recorded and not at all otherwise, besides the deliveries for which there was no
      memory left to record them; and a message whose PUBCOMP the broker has was recorded. */
  lemma {:induction false} ExactlyOnceInbound(config: Config, steps: seq<Step>, w: World, m: nat)
    requires !config.cleanSession && Run(Beginning(config), steps, w)
    ensures m !in w.unrecorded ==> Deliveries(w.c.events, m) <= 1
    ensures m !in w.unrecorded && m in w.broker.done ==> Deliveries(w.c.events, m) == 1
    ensures Deliveries(w.c.events, m) == Count(w.unrecorded, m) + if m in w.recorded then 1 else 0
  {
    InboundRun(config, steps, w);
    if m !in w.unrecorded {
      CountNone(w.unrecorded, m);
    }
  }
}
