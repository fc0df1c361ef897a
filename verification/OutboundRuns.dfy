/** The remaining steps, and what holds of the client's publishes in every run. */
module OutboundRuns {
  import opened Bytes
  import opened PacketIds
  import opened Session
  import opened Requests
  import opened Operations
  import opened Effects
  import opened Events
  import opened RequestEffects
  import opened Handshake
  import opened World
  import opened Inbound
  import opened Outbound
  import opened OutboundReplies

  // ---------------------------------------------------------------- a publish begins

  lemma {:induction false} BegunLinks(w: World, v: World, qos: Acked, id: u16, topic: string)
    requires Grounded(w) && OutLinked(w) && AppOk(w) && Fresh(w, qos, id)
    requires v.mine == w.mine[id := Use(PublishKind(qos), |w.issuedAt|)] && v.broker == w.broker
    requires Up(v) == Up(w) && Down(v) == Down(w) && v.abandoned == w.abandoned
    ensures OutLinked(v)
  {
  }

  lemma {:induction false} BegunBooked(w: World, v: World, kind: Kind, id: u16, b: nat)
    requires Booked(w) && id !in w.mine && v.mine == w.mine[id := Use(kind, b)]
    requires InFlight(v.c) == InFlight(w.c).(user := InFlight(w.c).user + multiset{(kind, id, b)})
    ensures Booked(v)
  {
  }

  lemma {:induction false} BegunUses(w: World, v: World, kind: Kind, id: u16)
    requires UsesOk(w) && id !in w.mine && id !in w.abandoned && OfPublish(kind)
    requires v.mine == w.mine[id := Use(kind, |w.issuedAt|)] && |v.issuedAt| == |w.issuedAt| + 1
    requires v.abandoned == w.abandoned && v.givenUp == w.givenUp
    ensures UsesOk(v)
  {
  }

  lemma {:induction false} BegunPending(w: World, v: World, qos: Acked, id: u16, topic: string)
    requires PendingOk(w) && AppOk(w) && id !in w.mine
    requires v.mine == w.mine[id := Use(PublishKind(qos), |w.issuedAt|)] && v.broker == w.broker
    requires |v.issuedAt| == |w.issuedAt| + 1 && v.c.wire == w.c.wire
    requires v.pending == w.pending[|w.issuedAt| := Publish(false, qos, id, topic, |w.issuedAt|)]
    ensures PendingOk(v)
  {
  }

  lemma {:induction false} BegunRest(w: World, v: World, qos: Acked, id: u16)
    requires Grounded(w) && UsesOk(w) && Qos1Ok(w) && AppOk(w) && ToldOk(w) && WireOk(w) && Fresh(w, qos, id)
    requires v.mine == w.mine[id := Use(PublishKind(qos), |w.issuedAt|)] && v.broker == w.broker
    requires v.issuedAt == w.issuedAt + [|w.c.wire|] && v.abandoned == w.abandoned && v.givenUp == w.givenUp
    requires v.c.wire == w.c.wire && v.c.events == w.c.events && Up(v) == Up(w) && Down(v) == Down(w)
    ensures Qos1Ok(v) && AppOk(v) && ToldOk(v) && WireOk(v)
  {
    hide StateOk;
    assert Qos1Ok(v) && AppOk(v) && ToldOk(v) by { hide WireOk; }
    hide ToldOk, Qos1Ok, AppOk, Up, Down;
  }

  lemma {:induction false} BegunHandedOver(w: World, v: World, qos: Acked, id: u16)
    requires Grounded(w) && OutLinked(w) && HandedOver(w) && Fresh(w, qos, id) && v.inbox == w.inbox
    requires InFlight(v.c).user == InFlight(w.c).user + multiset{(PublishKind(qos), id, |w.issuedAt|)}
    ensures HandedOver(v)
  {
  }

  lemma {:induction false} FreshUnused(w: World, qos: Acked, id: u16)
    requires Fresh(w, qos, id)
    ensures id !in w.mine && id !in w.abandoned
  {
  }

  lemma {:induction false} PublishBegins(w: World, qos: Acked, topic: string, now: u32, memory: nat)
    requires Grounded(w) && OutboundOk(w) && Orderly(w, UserPublishBegin(qos, topic, now, memory))
    ensures OutboundOk(ApplyPublishBegin(w, qos, topic, now, memory))
  {
    hide InFlight, StateOk, OutLinked, Booked, UsesOk, PendingOk, Qos1Ok, AppOk, ToldOk, WireOk, HandedOver, Fresh;
    var v := ApplyPublishBegin(w, qos, topic, now, memory);
    var id := NextPacketId(w.c.packetId);
    BeginPublishEffect(w.c, qos, topic, |w.issuedAt|, now, memory);
    if Accepts(w.c, topic, memory) {
      assert Up(v) == Up(w) && Down(v) == Down(w);
      BegunLinks(w, v, qos, id, topic);
      FreshUnused(w, qos, id);
      BegunBooked(w, v, PublishKind(qos), id, |w.issuedAt|);
      BegunUses(w, v, PublishKind(qos), id);
      BegunPending(w, v, qos, id, topic);
      BegunRest(w, v, qos, id);
      BegunHandedOver(w, v, qos, id);
    } else {
      ProceedsSending(w, v.c, []);
      ClientProceeds(w, v.c);
    }
  }

  // ---------------------------------------------------------------- a publish call returns

  lemma {:induction false} NoLongerPending(w: World, b: nat)
    requires OutboundOk(w)
    ensures OutboundOk(w.(pending := w.pending - {b}))
  {
    hide InFlight, WireOk, PendingOk, Qos1Ok, AppOk, UsesOk, Booked, OutLinked, ToldOk;
    var v := w.(pending := w.pending - {b});
    var u := v.(pending := w.pending);
    assert Up(v) == Up(w) && Down(v) == Down(w) && u == w;
    SameLinks(w, v);
    ChannelsShrink(w, v);
    PendingShrinks(w, v);
  }

  lemma {:induction false} PendingShrinks(w: World, v: World)
    requires Booked(w) && UsesOk(w) && PendingOk(w) && ToldOk(w) && WireOk(w)
    requires v == w.(pending := v.pending) && forall b | b in v.pending :: b in w.pending && v.pending[b] == w.pending[b]
    ensures Booked(v) && UsesOk(v) && PendingOk(v) && ToldOk(v) && WireOk(v)
  {
  }

  lemma {:induction false} WireNotInFlight(s: State, r: State)
    requires r.acks == s.acks && r.userAcks == s.userAcks
    ensures InFlight(r) == InFlight(s)
  {
  }

  lemma {:induction false} FirstSendEnds(w: World, b: nat)
    requires Grounded(w) && OutboundOk(w) && Orderly(w, UserPublishEnd(b, Sent))
    ensures OutboundOk(ApplyPublishEnd(w, b, Sent))
  {
    hide InFlight, StateOk, WireOk, Qos1Ok, AppOk, UsesOk, Booked, OutLinked, ToldOk, HandedOver;
    var u := w.(pending := w.pending - {b});
    var p := w.pending[b];
    assert Sendable(u, p) && p == Publish(false, p.qos, p.id, p.topic, p.body);
    NoLongerPending(w, b);
    hide PendingOk, OutboundOk;
    FinishPublishSent(w.c, PublishKind(p.qos), p.id, p);
    var r := w.c.(wire := w.c.wire + [p]);
    WireNotInFlight(w.c, r);
    ProceedsSending(u, r, [p]);
    ClientProceeds(u, r);
    assert ApplyPublishEnd(w, b, Sent) == u.(c := r);
  }

  lemma {:induction false} WithdrawnLinks(w: World, v: World, b: nat)
    requires Grounded(w) && OutLinked(w) && PendingOk(w) && b in w.pending && w.pending[b].Publish?
    requires v.mine == w.mine - {w.pending[b].id} && v.broker == w.broker && v.abandoned == w.abandoned
    requires Up(v) == Up(w) && Down(v) == Down(w)
    ensures OutLinked(v)
  {
    hide StateOk;
    var id := w.pending[b].id;
    forall i: u16 | i !in v.abandoned ensures Consistent(i, OutLink(v, i)) {
      var l := OutLink(w, i);
      assert Consistent(i, l);
      if i == id {
        assert NoMessage(l.fwd, id) by {
          assert forall p | p in l.fwd :: p in w.c.wire;
        }
        hide Consistent;
        if l.phase.Sending? {
          Withdraws(id, l);
          l := l.(phase := Idle);
        }
        IdleForgets(id, l, false);
        assert OutLink(v, i) == l.(accepted := false);
      } else {
        hide Consistent;
        assert OutLink(v, i) == l;
      }
    }
  }

  lemma {:induction false} WithdrawnBooked(w: World, v: World, kind: Kind, id: u16, b: nat)
    requires Booked(w) && id in w.mine && w.mine[id] == Use(kind, b) && v.mine == w.mine - {id}
    requires Cleared(InFlight(w.c).acks, kind, id, InFlight(v.c).acks)
    requires Cleared(InFlight(w.c).user, kind, id, InFlight(v.c).user)
    ensures Booked(v)
  {
    hide InFlight;
    forall k: Key
      ensures InFlight(v.c).acks[k] + InFlight(v.c).user[k] ==
              if k.1 in v.mine && v.mine[k.1] == Use(k.0, k.2) then 1 else 0
    {
      assert InFlight(w.c).acks[k] + InFlight(w.c).user[k] ==
             if k.1 in w.mine && w.mine[k.1] == Use(k.0, k.2) then 1 else 0;
    }
  }

  lemma {:induction false} WithdrawnHandedOver(w: World, v: World, kind: Kind, id: u16)
    requires HandedOver(w) && v.inbox == w.inbox && Cleared(InFlight(w.c).user, kind, id, InFlight(v.c).user)
    ensures HandedOver(v)
  {
  }

  lemma {:induction false} FirstSendFails(w: World, b: nat, outcome: SendOutcome)
    requires Grounded(w) && OutboundOk(w) && Orderly(w, UserPublishEnd(b, outcome)) && outcome != Sent
    ensures OutboundOk(ApplyPublishEnd(w, b, outcome))
  {
    hide InFlight, StateOk, OutLinked, Booked, UsesOk, Qos1Ok, AppOk, ToldOk, WireOk, HandedOver, Cleared;
    var p := w.pending[b];
    var v := ApplyPublishEnd(w, b, outcome);
    assert p.id in w.mine && w.mine[p.id] == Use(PublishKind(p.qos), b) && p.body == b;
    FinishPublishRollsBack(w.c, PublishKind(p.qos), p.id, Publish(false, p.qos, p.id, p.topic, p.body), outcome);
    assert v.c.wire == w.c.wire && Up(v) == Up(w) && Down(v) == Down(w);
    WithdrawnLinks(w, v, b);
    WithdrawnBooked(w, v, PublishKind(p.qos), p.id, b);
    WithdrawnHandedOver(w, v, PublishKind(p.qos), p.id);
    WithdrawnPending(w, v, b);
    UsesRetire(w, v);
    WireRetires(w, v);
    ChannelsShrink(w, v);
    RetiredTold(w, v, p.id);
  }

  lemma {:induction false} WithdrawnPending(w: World, v: World, b: nat)
    requires PendingOk(w) && b in w.pending && w.pending[b].Publish?
    requires v.mine == w.mine - {w.pending[b].id} && v.pending == w.pending - {b} && v.broker == w.broker
    requires v.c.wire == w.c.wire && v.issuedAt == w.issuedAt
    ensures PendingOk(v)
  {
  }

  lemma {:induction false} RetiredTold(w: World, v: World, id: u16)
    requires ToldOk(w) && NothingCompleted(w.c, v.c) && v.mine == w.mine - {id}
    requires v.broker == w.broker && v.issuedAt == w.issuedAt && v.givenUp == w.givenUp
    ensures ToldOk(v)
  {
    ToldProceeds(w, v.c);
  }

  // ---------------------------------------------------------------- discards

  lemma {:induction false} DiscardedLinks(w: World, v: World, kind: Kind, id: u16)
    requires Grounded(w) && OutLinked(w) && id in w.mine && w.mine[id].kind == kind
    requires v.mine == w.mine - {id} && v.broker == w.broker && Up(v) == Up(w) && Down(v) == Down(w)
    requires v.abandoned == if kind == PUBACK then w.abandoned else w.abandoned + {id}
    requires OfPublish(kind)
    ensures OutLinked(v)
  {
  }

  lemma {:induction false} DiscardedBooks(w: World, v: World, kind: Kind, id: u16)
    requires Booked(w) && id in w.mine && w.mine[id].kind == kind && v.mine == w.mine - {id}
    requires InFlight(v.c).acks == InFlight(w.c).acks - multiset{(kind, id, w.mine[id].body)}
    requires (kind, id, w.mine[id].body) in InFlight(w.c).acks && InFlight(v.c).user == InFlight(w.c).user
    ensures Booked(v)
  {
    hide InFlight;
  }

  /** What a discard records besides taking the id out of the books. */
  predicate GivesUp(w: World, v: World, id: u16) {
    && id in w.mine && v.mine == w.mine - {id} && v.broker == w.broker && v.issuedAt == w.issuedAt
    && if w.mine[id].kind == PUBACK then v.abandoned == w.abandoned && v.givenUp == w.givenUp
       else v.abandoned == w.abandoned + {id} && v.givenUp == w.givenUp + {w.mine[id].body}
  }

  lemma {:induction false} DiscardedUses(w: World, v: World, id: u16)
    requires UsesOk(w) && GivesUp(w, v, id)
    ensures UsesOk(v)
  {
  }

  lemma {:induction false} DiscardedApp(w: World, v: World, id: u16)
    requires UsesOk(w) && AppOk(w) && OutLinked(w) && Qos1Ok(w) && GivesUp(w, v, id)
    requires Up(v) == Up(w) && Down(v) == Down(w)
    ensures AppOk(v) && Qos1Ok(v)
  {
    assert Consistent(id, OutLink(w, id));
    assert w.mine[id].kind != PUBACK ==> Carries(Up(w), id, w.mine[id].body);
    hide OutLinked, Consistent;
    assert AppOk(v);
    hide AppOk;
  }

  lemma {:induction false} DiscardedTold(w: World, v: World, id: u16)
    requires UsesOk(w) && ToldOk(w) && GivesUp(w, v, id) && NothingCompleted(w.c, v.c)
    ensures ToldOk(v)
  {
    ToldProceeds(w, v.c);
  }

  lemma {:induction false} DiscardFacts(w: World, kind: Kind, id: u16)
    requires Grounded(w) && OutboundOk(w) && Orderly(w, UserDiscards(kind, id)) && OfPublish(kind)
    requires TakesPublish(w, kind, id)
    ensures var v := ApplyDiscard(w, kind, id);
            && GivesUp(w, v, id) && Retires(w, v) && Up(v) == Up(w) && Down(v) == Down(w) && v.pending == w.pending
            && v.inbox == w.inbox && NothingCompleted(w.c, v.c)
            && (forall b | b in v.pending ::
                  v.pending[b].Publish? && v.pending[b].id in v.mine
                  && v.mine[v.pending[b].id] == w.mine[v.pending[b].id])
    ensures var v, k := ApplyDiscard(w, kind, id), (kind, id, w.mine[id].body);
            && InFlight(v.c).acks == InFlight(w.c).acks - multiset{k} && k in InFlight(w.c).acks
            && InFlight(v.c).user == InFlight(w.c).user
  {
    hide InFlight, StateOk, OutLinked, Qos1Ok, AppOk, ToldOk, WireOk, HandedOver, Discard, Booked, NothingCompleted;
    DiscardTakes(w, kind, id);
    var v := ApplyDiscard(w, kind, id);
    assert v.c == Discard(w.c, kind, id) && v.mine == w.mine - {id} && v.pending == w.pending && v.broker == w.broker;
    assert GivesUp(w, v, id);
    hide ApplyDiscard, GivesUp;
  }

  lemma {:induction false} DiscardChanges(w: World, kind: Kind, id: u16)
    requires Grounded(w) && OutboundOk(w) && Orderly(w, UserDiscards(kind, id))
    requires 1 <= id <= MAX_PACKET_ID && id in w.mine && w.mine[id].kind == kind
    requires FindAck(w.c.acks, kind, id) < |w.c.acks|
    ensures OutboundOk(ApplyDiscard(w, kind, id))
  {
    assert OfPublish(kind);
    DiscardFacts(w, kind, id);
    var v := ApplyDiscard(w, kind, id);
    assert v.broker == w.broker && v.c.wire == w.c.wire;
    hide ApplyDiscard, InFlight, StateOk, OutLinked, Qos1Ok, AppOk, ToldOk, WireOk, HandedOver, Booked, PendingOk, UsesOk,
         NothingCompleted, Retires;
    PendingRetires(w, v);
    WireRetires(w, v);
    DiscardedLinks(w, v, kind, id);
    DiscardedBooks(w, v, kind, id);
    DiscardedUses(w, v, id);
    DiscardedApp(w, v, id);
    DiscardedTold(w, v, id);
    HandedOverSame(w, v);
  }

  lemma {:induction false} HandedOverSame(w: World, v: World)
    requires HandedOver(w) && v.inbox == w.inbox && InFlight(v.c).user == InFlight(w.c).user
    ensures HandedOver(v)
  {
  }

  lemma {:induction false} DiscardTakes(w: World, kind: Kind, id: u16)
    requires Grounded(w) && Booked(w) && kind != PUBREL && OfPublish(kind)
    requires 1 <= id <= MAX_PACKET_ID && id in w.mine && w.mine[id].kind == kind
    requires FindAck(w.c.acks, kind, id) < |w.c.acks|
    ensures var r, k := Discard(w.c, kind, id), (kind, id, w.mine[id].body);
            && InFlight(r).acks == InFlight(w.c).acks - multiset{k} && k in InFlight(w.c).acks
            && InFlight(r).user == InFlight(w.c).user
            && r.wire == w.c.wire && NothingCompleted(w.c, r)
  {
    hide InFlight, StateOk, Discard, Booked;
    DiscardEffect(w.c, kind, id);
    DiscardedNode(w, kind, id);
  }

  lemma {:induction false} DiscardedNode(w: World, kind: Kind, id: u16)
    requires Grounded(w) && Booked(w) && id in w.mine && w.mine[id].kind == kind && OfPublish(kind)
    requires FindAck(w.c.acks, kind, id) < |w.c.acks|
    ensures (kind, id, w.mine[id].body) in InFlight(w.c).acks
    ensures forall b: nat :: (kind, id, b) in InFlight(w.c).acks ==> b == w.mine[id].body
  {
    FindOutbound(w.c.acks, kind, id);
    var n := w.c.acks[FindAck(w.c.acks, kind, id)];
    assert KeyOf(n) == (kind, id, n.msg.userData) && KeyOf(n) in InFlight(w.c).acks;
    hide InFlight, StateOk;
    forall b: nat | (kind, id, b) in InFlight(w.c).acks ensures b == w.mine[id].body {
      var k := (kind, id, b);
      assert InFlight(w.c).acks[k] + InFlight(w.c).user[k] ==
             if k.1 in w.mine && w.mine[k.1] == Use(k.0, k.2) then 1 else 0;
    }
  }

  /** A discard that finds no publish leaves them all. */
  lemma {:induction false} DiscardMisses(w: World, kind: Kind, id: u16)
    requires Grounded(w) && OutboundOk(w) && kind != PUBREL
    requires !(1 <= id <= MAX_PACKET_ID && id in w.mine && w.mine[id].kind == kind
               && FindAck(w.c.acks, kind, id) < |w.c.acks|)
    ensures OutboundOk(ApplyDiscard(w, kind, id))
  {
    hide StateOk, OutboundOk, Discard, InFlight;
    var r := Discard(w.c, kind, id);
    DiscardEffect(w.c, kind, id);
    DiscardFindsNone(w, kind, id);
    ProceedsSending(w, r, []);
    ClientProceeds(w, r);
  }

  lemma {:induction false} DiscardFindsNone(w: World, kind: Kind, id: u16)
    requires Grounded(w) && OutboundOk(w) && kind != PUBREL
    requires !(1 <= id <= MAX_PACKET_ID && id in w.mine && w.mine[id].kind == kind
               && FindAck(w.c.acks, kind, id) < |w.c.acks|)
    ensures InFlight(Discard(w.c, kind, id)).acks == InFlight(w.c).acks
  {
    hide OutboundOk, StateOk;
    if 1 <= id <= MAX_PACKET_ID {
      if id in w.mine && w.mine[id].kind == kind {
        assert Discard(w.c, kind, id) == w.c;
      } else {
        NoNodeWaits(w, kind, id);
        hide InFlight, Discard;
        DiscardEffect(w.c, kind, id);
      }
    }
  }

  // ---------------------------------------------------------------- other steps of the client

  lemma {:induction false} ContinuesProceeds(w: World, r: State)
    requires SendsOthers(w.c, r) && InFlight(r) == InFlight(w.c) && QuietEvents(w.c, r)
    ensures Proceeds(w, r)
  {
  }

  /** Only packets that no handshake is about were sent. */
  predicate SendsOthers(s: State, r: State) {
    s.wire <= r.wire && forall i | |s.wire| <= i < |r.wire| :: !Acknowledged(r.wire[i]) && !r.wire[i].Pubrel?
  }

  lemma {:induction false} SubscriptionsProceed(w: World, op: Op)
    requires Grounded(w)
    requires op.SubscribeBegin? || op.SubscribeEnd? || op.UnsubscribeBegin? || op.UnsubscribeEnd? || op.PublishPlain?
             || op.ConnectionLost?
    ensures Proceeds(w, Perform(w.c, op))
  {
    hide InFlight, StateOk;
    var s, r := w.c, Perform(w.c, op);
    match op {
      case SubscribeBegin(requests, now, memory) =>
        BeginSubscribeAside(s, requests, now, memory);
        assert r.wire == s.wire + [];
      case SubscribeEnd(requests, id, outcome) =>
        FinishSubscribeAside(s, requests, id, outcome);
      case UnsubscribeBegin(topics, now, memory) =>
        BeginUnsubscribeAside(s, topics, now, memory);
        assert r.wire == s.wire + [];
      case UnsubscribeEnd(topics, id, outcome) =>
        FinishUnsubscribeAside(s, topics, id, outcome);
      case PublishPlain(topic, body, memory, outcome) =>
        SendEffect(s, Publish(false, 0, 0, topic, body), outcome);
      case ConnectionLost =>
        SendEffect(s, Packet.Unsuback(0), SocketError);
    }
    ContinuesProceeds(w, r);
  }

  lemma {:induction false} SyncProceeds(w: World)
    requires Grounded(w) && OutboundOk(w)
    ensures OutboundOk(Apply(w, Syncs))
  {
    hide StateOk, OutboundOk, OutKeys, RelIds;
    var r := Sync(w.c);
    SyncEffect(w.c);
    hide Sync, InFlight;
    assert forall k: Key :: k !in InFlight(r).user;
    assert Proceeds(w, r);
    ClientProceeds(w, r);
    var u := w.(c := r);
    var v := Apply(w, Syncs);
    SyncedInbox(u, v);
  }

  lemma {:induction false} SyncedInbox(u: World, v: World)
    requires OutboundOk(u) && InFlight(u.c).user == multiset{}
    requires v == u.(inbox := if u.inbox.Received? then Synced(u.inbox.p) else u.inbox)
    ensures OutboundOk(v)
  {
    hide InFlight, OutLinked, ToldOk, WireOk, PendingOk, UsesOk, Booked, AppOk, Qos1Ok;
    assert Up(v) == Up(u) && Down(v) == Down(u);
    SameLinks(u, v);
    RecordsKept(u, v);
    ChannelsShrink(u, v);
  }

  lemma {:induction false} ReceivesProceeds(w: World)
    requires Grounded(w) && OutboundOk(w) && Orderly(w, Receives)
    ensures OutboundOk(Apply(w, Receives))
  {
    hide InFlight, OutLinked, ToldOk, WireOk, PendingOk, UsesOk, Booked, AppOk, Qos1Ok, StateOk;
    var v := Apply(w, Receives);
    assert Up(v) == Up(w) && Down(v) == Down(w);
    SameLinks(w, v);
    RecordsKept(w, v);
    ChannelsShrink(w, v);
  }

  /** No first send is under way for what a scan sends. */
  lemma {:induction false} ScanSends(w: World, wait: bool, input: ScanInput, i: nat)
    requires Grounded(w) && FirstSendsOver(w, wait, input) && |w.c.wire| <= i < |Scan(w.c, wait, input).wire|
    ensures var p := Scan(w.c, wait, input).wire[i]; p.Publish? ==> p.body !in w.pending
  {
    hide StateOk, Scan, ComesDue;
    ScanSendsDue(w.c, wait, input);
    assert SentForDue(w.c.acks, wait, input, Scan(w.c, wait, input).wire[i]);
  }

  lemma {:induction false} RepeatSendable(w: World, p: Packet)
    requires Booked(w) && MayRepeat(InFlight(w.c), p) && (p.Publish? ==> p.body !in w.pending)
    ensures Sendable(w, p)
  {
    hide InFlight;
    if p.Publish? {
      InUse(w, (PublishKind(p.qos), p.id, p.body));
    } else if p.Pubrel? {
      var b: nat :| (PUBCOMP, p.id, b) in InFlight(w.c).acks;
      InUse(w, (PUBCOMP, p.id, b));
    }
  }

  /** What a scan sends belongs to ids in use. */
  lemma {:induction false} ScanProceeds(w: World, wait: bool, input: ScanInput)
    requires Grounded(w) && OutboundOk(w) && Orderly(w, Scans(wait, input))
    ensures OutboundOk(Apply(w, Scans(wait, input)))
  {
    hide StateOk, InFlight, Scan, OutboundOk, FirstSendsOver, Sendable, MayRepeat;
    var r := Scan(w.c, wait, input);
    ScanEffect(w.c, wait, input);
    forall i | |w.c.wire| <= i < |r.wire| ensures Sendable(w, r.wire[i]) {
      assert MayRepeat(InFlight(w.c), r.wire[i]);
      ScanSends(w, wait, input, i);
      RepeatSendable(w, r.wire[i]) by { OutboundBooked(w); }
    }
    ClientProceeds(w, r);
  }

  lemma {:induction false} OutboundBooked(w: World)
    requires OutboundOk(w)
    ensures Booked(w) && UsesOk(w) && PendingOk(w)
  {
    hide Booked, UsesOk, PendingOk;
  }

  lemma {:induction false} InUse(w: World, k: Key)
    requires Booked(w) && k in InFlight(w.c).acks
    ensures k.1 in w.mine && w.mine[k.1] == Use(k.0, k.2)
  {
  }

  lemma {:induction false} ReconnectLinks(w: World, v: World)
    requires OutLinked(w) && Up(v) == [] && Down(v) == [] && v.abandoned == w.abandoned
    requires v.mine == w.mine && v.broker == w.broker
    ensures OutLinked(v)
  {
  }

  lemma {:induction false} ReconnectProceeds(w: World, present: bool)
    requires Grounded(w) && OutboundOk(w) && Orderly(w, Reconnects(present))
    ensures OutboundOk(ApplyReconnect(w, present))
  {
    hide OutboundOk, ApplyReconnect;
    if present {
      SessionResumes(w);
    } else {
      SessionRestarts(w);
    }
  }

  lemma {:induction false} SessionResumes(w: World)
    requires Grounded(w) && OutboundOk(w) && w.inbox.Empty?
    ensures OutboundOk(ApplyReconnect(w, true))
  {
    hide Booked, ToldOk, WireOk, PendingOk, UsesOk, OutLinked, OutKeys, RelIds, AppOk, Qos1Ok, StateOk;
    var v := ApplyReconnect(w, true);
    assert Up(v) == [] && Down(v) == [];
    ReconnectLinks(w, v);
    RecordsKept(w, v);
    EmptyChannels(w, v);
  }

  lemma {:induction false} EmptyChannels(w: World, v: World)
    requires AppOk(w) && Qos1Ok(w) && Up(v) == [] && Down(v) == [] && v.broker == w.broker
    requires v.mine == w.mine && v.issuedAt == w.issuedAt && v.givenUp == w.givenUp
    ensures AppOk(v) && Qos1Ok(v)
  {
  }

  lemma {:induction false} SessionRestarts(w: World)
    requires Grounded(w) && OutboundOk(w) && w.inbox.Empty? && w.pending == map[]
    ensures OutboundOk(ApplyReconnect(w, false))
  {
    hide Booked, ToldOk, WireOk, PendingOk, UsesOk, OutLinked, AppOk, Qos1Ok, StateOk;
    var v := ApplyReconnect(w, false);
    assert Up(v) == [] && Down(v) == [];
    assert InFlight(v.c) == Flight(multiset{}, multiset{}, multiset{});
    hide InFlight;
    WireRetires(w, v);
    PendingRestarts(w, v);
    RestartedBooks(w, v);
    RestartedLinks(w, v);
  }

  lemma {:induction false} RestartedBooks(w: World, v: World)
    requires UsesOk(w) && ToldOk(w) && v.mine == map[] && v.broker.app == w.broker.app
    requires v.broker.appOnce == w.broker.appOnce && v.issuedAt == w.issuedAt && v.givenUp == w.givenUp
    requires v.c.events == w.c.events && InFlight(v.c) == Flight(multiset{}, multiset{}, multiset{})
    ensures Booked(v) && UsesOk(v) && ToldOk(v)
  {
  }

  lemma {:induction false} PendingRestarts(w: World, v: World)
    requires PendingOk(w) && v.pending == map[] && v.c.wire == w.c.wire && v.issuedAt == w.issuedAt
    ensures PendingOk(v)
  {
  }

  lemma {:induction false} RestartedLinks(w: World, v: World)
    requires AppOk(w) && Up(v) == [] && Down(v) == [] && v.mine == map[] && v.broker.held == map[]
    requires v.broker.app == w.broker.app && v.broker.appOnce == w.broker.appOnce
    requires v.issuedAt == w.issuedAt && v.givenUp == w.givenUp
    ensures OutLinked(v) && AppOk(v) && Qos1Ok(v)
  {
  }

  // ---------------------------------------------------------------- the broker

  lemma {:induction false} BrokerAddsLinks(w: World, v: World, p: Packet)
    requires OutLinked(w) && !p.Pubrec? && !p.Pubcomp? && v.broker.held == w.broker.held && v.broker.app == w.broker.app
    requires v.mine == w.mine && v.abandoned == w.abandoned && Up(v) == Up(w) && Down(v) == Down(w) + [p]
    ensures OutLinked(v)
  {
  }

  lemma {:induction false} BrokerAdds(w: World, v: World, p: Packet)
    requires Grounded(w) && OutboundOk(w) && !p.Pubrec? && !p.Pubcomp? && !p.Puback?
    requires v == w.(sent := w.sent + [p], broker := v.broker)
    requires v.broker.held == w.broker.held && v.broker.app == w.broker.app && v.broker.appOnce == w.broker.appOnce
    ensures OutboundOk(v)
  {
    hide InFlight, ToldOk, WireOk, PendingOk, UsesOk, Booked, StateOk, OutLinked, AppOk, Qos1Ok;
    assert Up(v) == Up(w) && Down(v) == Down(w) + [p];
    BrokerAddsLinks(w, v, p);
    RecordsKept(w, v);
    BrokerAddsRest(w, v, p);
  }

  lemma {:induction false} BrokerAddsRest(w: World, v: World, p: Packet)
    requires AppOk(w) && Qos1Ok(w) && !p.Puback? && Up(v) == Up(w) && Down(v) == Down(w) + [p]
    requires v.broker.app == w.broker.app && v.broker.appOnce == w.broker.appOnce && v.mine == w.mine
    requires v.issuedAt == w.issuedAt && v.givenUp == w.givenUp && v.abandoned == w.abandoned
    ensures AppOk(v) && Qos1Ok(v)
  {
  }

  /** Links of ids a taken packet is not about. */
  lemma {:induction false} TakenLink(w: World, v: World, id: u16, answer: seq<Packet>)
    requires Grounded(w) && Consistent(id, OutLink(w, id)) && w.taken < |w.c.wire|
    requires v == w.(taken := w.taken + 1, broker := v.broker, sent := w.sent + answer)
    requires OutLink(v, id).marked == OutLink(w, id).marked && OutLink(v, id).accepted == OutLink(w, id).accepted
    requires forall p | p in answer :: MayReply(id, id in w.broker.held, p)
    ensures Consistent(id, OutLink(v, id))
  {
    hide Consistent, StateOk;
    TakenHead(w);
    var l := OutLink(w, id);
    FrontLeaves(id, l, 1, 0);
    assert Down(w)[0..] == Down(w) && Down(v) == Down(w) + answer;
    var m := l.(fwd := Up(w)[1..]);
    ReceiverAdds(id, m, answer);
    assert OutLink(v, id) == m.(back := Down(w) + answer);
  }

  /** PUBLISH of an id the broker does not hold: a new message. */
  lemma {:induction false} MessageTaken(w: World, id: u16)
    requires Grounded(w) && Consistent(id, OutLink(w, id)) && w.taken < |w.c.wire|
    requires IsMessage(w.c.wire[w.taken], id) && id !in w.broker.held
    ensures id in w.mine && w.mine[id] == Use(PUBREC, w.c.wire[w.taken].body)
    ensures w.c.wire[w.taken].body !in w.broker.app
    ensures Consistent(id, OutLink(ApplyBrokerTakes(w), id))
  {
    hide Consistent, StateOk;
    TakenHead(w);
    var v := ApplyBrokerTakes(w);
    var l := OutLink(w, id);
    MessageArrives(id, l);
    var b := w.c.wire[w.taken].body;
    assert b in v.broker.app;
    var m := l.(fwd := Up(w)[1..], marked := true, accepted := true);
    ReceiverAdds(id, m, [Packet.Pubrec(id)]);
    assert Down(v) == Down(w) + [Packet.Pubrec(id)];
    assert OutLink(v, id) == m.(back := Down(w) + [Packet.Pubrec(id)]);
  }

  lemma {:induction false} PubrelTaken(w: World, id: u16)
    requires Grounded(w) && Consistent(id, OutLink(w, id)) && w.taken < |w.c.wire|
    requires w.c.wire[w.taken] == Packet.Pubrel(id)
    ensures Consistent(id, OutLink(ApplyBrokerTakes(w), id))
  {
  }

  lemma {:induction false} TakenLinks(w: World)
    requires Grounded(w) && OutLinked(w) && UsesOk(w) && AppOk(w) && w.taken < |w.c.wire|
    ensures OutLinked(ApplyBrokerTakes(w))
  {
    hide Consistent, StateOk;
    var v := ApplyBrokerTakes(w);
    var p := w.c.wire[w.taken];
    TakenHead(w);
    assert p in Up(w);
    forall id: u16 | id !in v.abandoned ensures Consistent(id, OutLink(v, id)) {
      assert Consistent(id, OutLink(w, id));
      if IsMessage(p, id) && id !in w.broker.held {
        MessageTaken(w, id);
      } else if p == Packet.Pubrel(id) {
        PubrelTaken(w, id);
      } else {
        OthersAccepted(w, id);
        TakenLink(w, v, id, BrokerHandles(w.broker, p).1);
      }
    }
  }

  /** A message taken over is no other id's. */
  lemma {:induction false} OthersAccepted(w: World, id: u16)
    requires Grounded(w) && OutLinked(w) && UsesOk(w) && AppOk(w) && w.taken < |w.c.wire|
    requires var p := w.c.wire[w.taken]; IsMessage(p, id) ==> id in w.broker.held
    ensures OutLink(ApplyBrokerTakes(w), id).accepted == OutLink(w, id).accepted
  {
    hide Consistent, StateOk;
    var p := w.c.wire[w.taken];
    TakenHead(w);
    assert p in Up(w);
    if p.Publish? && p.qos == 2 && p.id !in w.broker.held && p.id !in w.abandoned {
      assert Consistent(p.id, OutLink(w, p.id));
      MessageTaken(w, p.id);
    }
  }

  lemma {:induction false} TakenApp(w: World)
    requires Grounded(w) && OutLinked(w) && UsesOk(w) && AppOk(w) && PendingOk(w) && w.taken < |w.c.wire|
    ensures AppOk(ApplyBrokerTakes(w)) && PendingOk(ApplyBrokerTakes(w))
  {
    hide Consistent, StateOk;
    var v := ApplyBrokerTakes(w);
    var p := w.c.wire[w.taken];
    TakenHead(w);
    assert p in Up(w) && p in w.c.wire;
    assert forall q | q in Up(v) :: q in Up(w);
    if p.Publish? && p.qos == 2 && p.id !in w.broker.held {
      if p.id !in w.abandoned {
        assert Consistent(p.id, OutLink(w, p.id));
        MessageTaken(w, p.id);
      }
      forall b | b in v.broker.app && b !in v.givenUp ensures Count(v.broker.app, b) == 1 {
        CountPush(w.broker.app, p.body, b);
        CountMember(w.broker.app, b);
      }
    }
  }

  lemma {:induction false} TakenQos1(w: World)
    requires Grounded(w) && Qos1Ok(w) && w.taken < |w.c.wire|
    ensures Qos1Ok(ApplyBrokerTakes(w))
  {
  }

  lemma {:induction false} BrokerTakesProceeds(w: World)
    requires Grounded(w) && OutboundOk(w) && w.taken < |w.c.wire|
    ensures OutboundOk(ApplyBrokerTakes(w))
  {
    var v := ApplyBrokerTakes(w);
    hide InFlight, UsesOk, PendingOk, Qos1Ok, OutLinked, AppOk, WireOk, Booked, StateOk, ToldOk, HandedOver;
    TakenLinks(w);
    TakenApp(w);
    TakenQos1(w);
    TakenGrows(w);
    hide BrokerHandles;
    TakenTold(w, v);
    HandedOverSame(w, v);
    TakenBooks(w, v);
  }

  lemma {:induction false} TakenGrows(w: World)
    requires w.taken < |w.c.wire|
    ensures var v := ApplyBrokerTakes(w);
            && (forall b | b in w.broker.app :: b in v.broker.app)
            && forall b | b in w.broker.appOnce :: b in v.broker.appOnce
  {
  }

  lemma {:induction false} TakenBooks(w: World, v: World)
    requires WireOk(w) && UsesOk(w) && Booked(w)
    requires v.c == w.c && v.mine == w.mine && v.issuedAt == w.issuedAt && v.givenUp == w.givenUp
    requires v.abandoned == w.abandoned
    ensures WireOk(v) && UsesOk(v) && Booked(v)
  {
  }

  lemma {:induction false} TakenTold(w: World, v: World)
    requires ToldOk(w) && v.c == w.c && v.mine == w.mine && v.issuedAt == w.issuedAt && v.givenUp == w.givenUp
    requires forall b | b in w.broker.app :: b in v.broker.app
    requires forall b | b in w.broker.appOnce :: b in v.broker.appOnce
    ensures ToldOk(v)
  {
  }

  // ---------------------------------------------------------------- runs

  lemma {:induction false} OutboundStart(config: Config)
    ensures OutboundOk(Beginning(config))
  {
  }

  lemma {:induction false} OutboundStep(w: World, step: Step)
    requires Grounded(w) && OutboundOk(w) && Orderly(w, step)
    ensures OutboundOk(Apply(w, step))
  {
    hide OutboundOk, Grounded, Perform, Proceeds, ApplyPublishBegin, ApplyPublishEnd, ApplyDiscard, ApplyReconnect,
         ApplyHandle, ApplyBrokerTakes;
    match step
    case UserPublishPlain(topic, body, memory, outcome) => QuietStep(w, PublishPlain(topic, body, memory, outcome));
    case UserPublishBegin(qos, topic, now, memory) => PublishBegins(w, qos, topic, now, memory);
    case UserPublishEnd(body, outcome) =>
      if outcome == Sent {
        FirstSendEnds(w, body);
      } else {
        FirstSendFails(w, body, outcome);
      }
    case UserSubscribeBegin(requests, now, memory) => QuietStep(w, SubscribeBegin(requests, now, memory));
    case UserSubscribeEnd(requests, id, outcome) => QuietStep(w, SubscribeEnd(requests, id, outcome));
    case UserUnsubscribeBegin(topics, now, memory) => QuietStep(w, UnsubscribeBegin(topics, now, memory));
    case UserUnsubscribeEnd(topics, id, outcome) => QuietStep(w, UnsubscribeEnd(topics, id, outcome));
    case UserDiscards(kind, id) => DiscardProceeds(w, kind, id);
    case Loses => QuietStep(w, ConnectionLost);
    case Reconnects(present) => ReconnectProceeds(w, present);
    case Receives => ReceivesProceeds(w);
    case Syncs => SyncProceeds(w);
    case Handles(now, memory, outcome) => ReplyHandled(w, now, memory, outcome);
    case Scans(wait, input) => ScanProceeds(w, wait, input);
    case BrokerSends(p) => BrokerAdds(w, Apply(w, step), p);
    case BrokerStarts(id, topic) => BrokerAdds(w, Apply(w, step), Publish(false, 2, id, topic, w.broker.started));
    case BrokerRepeats(id) => BrokerAdds(w, Apply(w, step), Repeated(id, w.broker.out[id]));
    case BrokerTakes => BrokerTakesProceeds(w);
  }

  lemma {:induction false} QuietStep(w: World, op: Op)
    requires Grounded(w) && OutboundOk(w)
    requires op.SubscribeBegin? || op.SubscribeEnd? || op.UnsubscribeBegin? || op.UnsubscribeEnd? || op.PublishPlain?
             || op.ConnectionLost?
    ensures OutboundOk(w.(c := Perform(w.c, op)))
  {
    hide OutboundOk, Grounded, Perform, Proceeds;
    SubscriptionsProceed(w, op);
    ClientProceeds(w, Perform(w.c, op));
  }

  lemma {:induction false} DiscardProceeds(w: World, kind: Kind, id: u16)
    requires Grounded(w) && OutboundOk(w) && Orderly(w, UserDiscards(kind, id))
    ensures OutboundOk(ApplyDiscard(w, kind, id))
  {
    hide OutboundOk, Grounded, ApplyDiscard;
    if 1 <= id <= MAX_PACKET_ID && id in w.mine && w.mine[id].kind == kind && FindAck(w.c.acks, kind, id) < |w.c.acks| {
      DiscardChanges(w, kind, id);
    } else {
      DiscardMisses(w, kind, id);
    }
  }

  lemma {:induction false} OutboundRun(config: Config, steps: seq<Step>, w: World)
    requires !config.cleanSession && OrderlyRun(Beginning(config), steps, w)
    ensures Grounded(w) && OutboundOk(w)
  {
    hide OutboundOk, InboundOk, Grounded, Apply, Enabled, FirstSendsOver, Fresh, OnlySubscriptionsUse;
    if steps == [] {
      OutboundStart(config);
    } else {
      var last := steps[|steps| - 1];
      var v: World :| OrderlyRun(Beginning(config), steps[..|steps| - 1], v) && Orderly(v, last) && w == Apply(v, last);
      OutboundRun(config, steps[..|steps| - 1], v);
      OutboundStep(v, last);
    }
    RunGrounded(config, steps, w);
  }

  lemma {:induction false} RunGrounded(config: Config, steps: seq<Step>, w: World)
    requires !config.cleanSession && OrderlyRun(Beginning(config), steps, w)
    ensures Grounded(w)
  {
    hide Run, OrderlyRun, Grounded;
    OrderlyIsRun(Beginning(config), steps, w);
    InboundRun(config, steps, w);
  }

  // ---------------------------------------------------------------- what holds in every run

  /** A completed QoS 2 publish was handed on by the broker exactly once, a completed QoS 1 publish at least once;
      nothing is handed on twice at QoS 2 unless the user discarded it half-way; no publish completes twice. */
  lemma {:induction false} ExactlyOnceOutbound(config: Config, steps: seq<Step>, w: World)
    requires !config.cleanSession && OrderlyRun(Beginning(config), steps, w)
    ensures forall n | Published(n) in w.c.events && n.kind == PUBCOMP :: Count(w.broker.app, n.msg.userData) == 1
    ensures forall n | Published(n) in w.c.events && n.kind != PUBCOMP ::
              n.kind == PUBACK && n.msg.userData in w.broker.appOnce
    ensures forall b: nat :: Completions(w.c.events, b) <= 1
    ensures forall b: nat | b !in w.givenUp :: Count(w.broker.app, b) <= 1
  {
    hide InFlight, StateOk, Consistent;
    OutboundRun(config, steps, w);
    forall n | Published(n) in w.c.events && n.kind == PUBCOMP ensures Count(w.broker.app, n.msg.userData) == 1 {
      CompletedCounts(w.c.events, n);
    }
    forall b: nat | b !in w.givenUp ensures Count(w.broker.app, b) <= 1 {
      CountMember(w.broker.app, b);
    }
  }

  lemma {:induction false} CompletedCounts(events: seq<Event>, n: AckNode)
    requires Published(n) in events
    ensures Completions(events, n.msg.userData) > 0
  {
    var rest := events[..|events| - 1];
    if Published(n) in rest {
      CompletedCounts(rest, n);
    } else {
      assert events == rest + [events[|events| - 1]];
    }
  }

  /** On the wire no PUBLISH follows a PUBREL of its id, except one that went out before that publish began. */
  lemma {:induction false} NoPublishAfterPubrel(config: Config, steps: seq<Step>, w: World, i: nat, j: nat)
    requires !config.cleanSession && OrderlyRun(Beginning(config), steps, w)
    requires i < j < |w.c.wire| && w.c.wire[j].Publish? && w.c.wire[j].qos == 2
    requires w.c.wire[i] == Packet.Pubrel(w.c.wire[j].id)
    ensures w.c.wire[j].body < |w.issuedAt| && i < w.issuedAt[w.c.wire[j].body]
  {
    hide InFlight, StateOk, Consistent;
    OutboundRun(config, steps, w);
  }

  /** Publish `b` is in flight under `id`, its node waiting for `kind`. */
  predicate InStage(w: World, kind: Kind, id: u16, b: nat) {
    (kind, id, b) in InFlight(w.c).acks + InFlight(w.c).user
  }

  /** The ways a publish leaves without being completed. */
  predicate TakenBack(w: World, step: Step, id: u16, b: nat) {
    match step
    case UserPublishEnd(body, outcome) => body == b && outcome != Sent
    case UserDiscards(_, i) => i == id
    case Reconnects(present) => !present
    case _ => false
  }

  /** The same, in the books. */
  predicate Uses(w: World, kind: Kind, id: u16, b: nat) {
    id in w.mine && w.mine[id] == Use(kind, b)
  }

  /** The ids in use after a step. */
  function MineAfter(w: World, step: Step): map<u16, Use>
    requires Enabled(w, step)
  {
    match step
    case UserPublishBegin(qos, topic, _, memory) =>
      if Accepts(w.c, topic, memory) then w.mine[NextPacketId(w.c.packetId) := Use(PublishKind(qos), |w.issuedAt|)]
      else w.mine
    case UserPublishEnd(body, outcome) => if outcome == Sent then w.mine else w.mine - {w.pending[body].id}
    case UserDiscards(kind, i) => if TakesPublish(w, kind, i) then w.mine - {i} else w.mine
    case Reconnects(present) => if present then w.mine else map[]
    case Handles(_, memory, _) => UsesAfter(w.mine, w.inbox.p, memory)
    case _ => w.mine
  }

  lemma {:induction false} MineIs(w: World, step: Step)
    requires Enabled(w, step)
    ensures Apply(w, step).mine == MineAfter(w, step)
  {
    hide Perform, Up, Down, SparesRecords, Delivers, BrokerHandles;
  }

  lemma {:induction false} UsesAppear(w: World, step: Step, id: u16, b: nat)
    requires Orderly(w, step)
    ensures Uses(Apply(w, step), PUBREC, id, b) && !Uses(w, PUBREC, id, b) ==>
              step.UserPublishBegin? && step.qos == 2 && b == |w.issuedAt|
    ensures Uses(Apply(w, step), PUBACK, id, b) && !Uses(w, PUBACK, id, b) ==>
              step.UserPublishBegin? && step.qos == 1 && b == |w.issuedAt|
    ensures Uses(Apply(w, step), PUBCOMP, id, b) && !Uses(w, PUBCOMP, id, b) ==>
              step.Handles? && w.inbox.p == Packet.Pubrec(id) && Uses(w, PUBREC, id, b)
  {
    MineIs(w, step);
    hide Apply, FirstSendsOver, Fresh, OnlySubscriptionsUse, SparesRecords, Accepts;
  }

  lemma {:induction false} UsesLeave(w: World, step: Step, id: u16, b: nat)
    requires UsesOk(w) && PendingOk(w) && Orderly(w, step)
    ensures Uses(w, PUBREC, id, b) ==>
              Uses(Apply(w, step), PUBREC, id, b) || Uses(Apply(w, step), PUBCOMP, id, b) || TakenBack(w, step, id, b)
    ensures Uses(w, PUBACK, id, b) && !Uses(Apply(w, step), PUBACK, id, b) ==>
              TakenBack(w, step, id, b) || (step.Handles? && w.inbox.p == Packet.Puback(id))
    ensures Uses(w, PUBCOMP, id, b) && !Uses(Apply(w, step), PUBCOMP, id, b) ==>
              (TakenBack(w, step, id, b) && !step.UserPublishEnd?) || (step.Handles? && w.inbox.p == Packet.Pubcomp(id))
  {
    MineIs(w, step);
    hide Apply, FirstSendsOver, Fresh, OnlySubscriptionsUse, SparesRecords, Accepts;
  }

  lemma {:induction false} HandlesInHand(w: World, step: Step)
    requires Orderly(w, step)
    ensures Enabled(w, step) && (step.Handles? ==> w.inbox.Synced?)
  {
  }

  lemma {:induction false} StagesAre(w: World, id: u16, b: nat)
    requires Booked(w)
    ensures forall kind: Kind :: InStage(w, kind, id, b) == Uses(w, kind, id, b)
  {
  }

  /** How a step from `w` to `v` may change the stage of publish `b` under `id`. */
  predicate Staged(w: World, v: World, step: Step, id: u16, b: nat) {
    && (InStage(v, PUBREC, id, b) && !InStage(w, PUBREC, id, b) ==>
          step.UserPublishBegin? && step.qos == 2 && b == |w.issuedAt|)
    && (InStage(v, PUBACK, id, b) && !InStage(w, PUBACK, id, b) ==>
          step.UserPublishBegin? && step.qos == 1 && b == |w.issuedAt|)
    && (InStage(v, PUBCOMP, id, b) && !InStage(w, PUBCOMP, id, b) ==>
          step.Handles? && w.inbox.Synced? && w.inbox.p == Packet.Pubrec(id) && InStage(w, PUBREC, id, b))
    && (InStage(w, PUBREC, id, b) ==>
          InStage(v, PUBREC, id, b) || InStage(v, PUBCOMP, id, b) || TakenBack(w, step, id, b))
    && (InStage(w, PUBACK, id, b) && !InStage(v, PUBACK, id, b) ==>
          TakenBack(w, step, id, b) || (step.Handles? && w.inbox.Synced? && w.inbox.p == Packet.Puback(id)))
    && (InStage(w, PUBCOMP, id, b) && !InStage(v, PUBCOMP, id, b) ==>
          || (TakenBack(w, step, id, b) && !step.UserPublishEnd?)
          || (step.Handles? && w.inbox.Synced? && w.inbox.p == Packet.Pubcomp(id)))
  }

  lemma {:induction false} StagesStep(w: World, step: Step, id: u16, b: nat)
    requires Orderly(w, step) && Booked(w) && UsesOk(w) && PendingOk(w) && Booked(Apply(w, step))
    ensures Staged(w, Apply(w, step), step, id, b)
  {
    hide Apply, Orderly, Enabled, InStage, Uses, Booked, UsesOk, PendingOk, TakenBack;
    HandlesInHand(w, step);
    UsesAppear(w, step, id, b);
    UsesLeave(w, step, id, b);
    StagesAre(w, id, b);
    StagesAre(Apply(w, step), id, b);
  }

  /** One step of any run: a publish comes in with a new number and waits for PUBACK or PUBREC; PUBREC moves it to
      waiting for PUBCOMP; only PUBCOMP completes it from there. */
  lemma {:induction false} StagesInOrder(config: Config, steps: seq<Step>, w: World, step: Step, id: u16, b: nat)
    requires !config.cleanSession && OrderlyRun(Beginning(config), steps, w) && Orderly(w, step)
    ensures Staged(w, Apply(w, step), step, id, b)
  {
    hide OrderlyRun, Orderly, Enabled, Apply, OutboundOk, Staged;
    HandlesInHand(w, step);
    OutboundRun(config, steps, w);
    OutboundStep(w, step);
    OutboundBooked(w);
    OutboundBooked(Apply(w, step));
    StagesStep(w, step, id, b);
  }

  /** When a reply is dispatched, no node it could be about is still on the user list; and for a PUBREC of an id that
      was not discarded, the node is on the list the handler searches. */
  lemma {:induction false} ReplyFindsItsNode(config: Config, steps: seq<Step>, w: World, id: u16)
    requires !config.cleanSession && OrderlyRun(Beginning(config), steps, w)
    ensures w.inbox == Synced(Packet.Puback(id)) ==> forall n | n in w.c.userAcks :: !Waits(n, PUBACK, id)
    ensures w.inbox == Synced(Packet.Pubrec(id)) ==> forall n | n in w.c.userAcks :: !Waits(n, PUBREC, id)
    ensures w.inbox == Synced(Packet.Pubcomp(id)) ==> forall n | n in w.c.userAcks :: !Waits(n, PUBCOMP, id)
    ensures w.inbox == Synced(Packet.Pubrec(id)) && id !in w.abandoned ==>
              exists n :: n in w.c.acks && (Waits(n, PUBREC, id) || Waits(n, PUBCOMP, id))
  {
    OutboundRun(config, steps, w);
    NotOnUserList(w, PUBACK, id);
    NotOnUserList(w, PUBREC, id);
    if w.inbox == Synced(Packet.Pubrec(id)) && id !in w.abandoned {
      PubrecFindsNode(w, id);
    }
  }

  lemma {:induction false} NotOnUserList(w: World, kind: Kind, id: u16)
    requires HandedOver(w) && (kind == PUBACK || kind == PUBREC)
    ensures w.inbox == Synced(if kind == PUBACK then Packet.Puback(id) else Packet.Pubrec(id)) ==>
              forall n | n in w.c.userAcks :: !Waits(n, kind, id)
  {
    forall n | n in w.c.userAcks && Waits(n, kind, id) ensures KeyOf(n) in InFlight(w.c).user {
      KeyPresent(w.c.userAcks, KeyOf(n));
    }
  }

  lemma {:induction false} PubrecFindsNode(w: World, id: u16)
    requires Grounded(w) && OutboundOk(w) && w.inbox == Synced(Packet.Pubrec(id)) && id !in w.abandoned
    ensures exists n :: n in w.c.acks && (Waits(n, PUBREC, id) || Waits(n, PUBCOMP, id))
  {
    hide InFlight, StateOk, ToldOk, WireOk, Qos1Ok, AppOk;
    HeadInHand(w);
    assert Consistent(id, OutLink(w, id));
    PubrecArrives(id, OutLink(w, id));
    var k := (w.mine[id].kind, id, w.mine[id].body);
    assert InFlight(w.c).acks[k] + InFlight(w.c).user[k] == 1;
    if k in InFlight(w.c).user {
      UserKinds(w.c, k);
    }
    assert k in InFlight(w.c).acks;
    KeyInList(w.c, k);
  }

  lemma {:induction false} KeyInList(s: State, k: Key)
    requires k in InFlight(s).acks
    ensures exists n :: n in s.acks && Waits(n, k.0, k.1)
  {
    KeyPresent(s.acks, k);
    var n :| n in s.acks && KeyOf(n) == k;
    assert Waits(n, k.0, k.1);
  }
}
