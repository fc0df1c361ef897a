/** Publishes of the client at QoS 1 and 2: the stages each one goes through, the order on the wire, and what a
    Published event proves about the broker. */
module Outbound {
  import opened Bytes
  import opened Session
  import opened Requests
  import opened Effects
  import opened Events
  import opened Handshake
  import opened World

  // ---------------------------------------------------------------- the invariant

  function UsePhase(mine: map<u16, Use>, id: u16): Phase {
    if id !in mine then Idle
    else if mine[id].kind == PUBREC then Sending(mine[id].body)
    else if mine[id].kind == PUBCOMP then Releasing(mine[id].body)
    else Idle
  }

  /** A publish of the client, as a handshake. */
  function OutLink(w: World, id: u16): Link {
    Link(UsePhase(w.mine, id), id in w.broker.held, Up(w), Down(w), id in w.mine && w.mine[id].body in w.broker.app)
  }

  /** The nodes of both lists are exactly the ids in use: one node each, on one list. */
  ghost predicate Booked(w: World) {
    forall k: Key :: InFlight(w.c).acks[k] + InFlight(w.c).user[k] ==
                     if k.1 in w.mine && w.mine[k.1] == Use(k.0, k.2) then 1 else 0
  }

  predicate UsesOk(w: World) {
    && (forall id | id in w.mine :: OfPublish(w.mine[id].kind) && w.mine[id].body < |w.issuedAt| && id !in w.abandoned)
    && (forall i, j | i in w.mine && j in w.mine && i != j :: w.mine[i].body != w.mine[j].body)
    && (forall id | id in w.mine :: w.mine[id].body !in w.givenUp)
    && (forall b | b in w.givenUp :: b < |w.issuedAt|)
  }

  predicate Acknowledged(p: Packet) {
    p.Publish? && p.qos > 0
  }

  /** A publish in its first send: its node is there, and nothing of it has reached the wire. */
  predicate PendingOk(w: World) {
    && (forall b | b in w.pending ::
          var p := w.pending[b];
          && Acknowledged(p) && !p.dup && p.body == b && p.id in w.mine && w.mine[p.id] == Use(PublishKind(p.qos), b)
          && b !in w.broker.app && b !in w.broker.appOnce)
    && (forall p | p in w.c.wire && Acknowledged(p) :: p.body !in w.pending && p.body < |w.issuedAt|)
  }

  /** QoS 1: packets of an id in use belong to its publish. */
  predicate Qos1Ok(w: World) {
    forall id | id in w.mine && w.mine[id].kind == PUBACK ::
      && (forall p | p in Up(w) && p.Publish? && p.qos == 1 && p.id == id :: p.body == w.mine[id].body)
      && (Packet.Puback(id) in Down(w) ==> w.mine[id].body in w.broker.appOnce)
  }

  ghost predicate OutLinked(w: World) {
    forall id: u16 :: id !in w.abandoned ==> Consistent(id, OutLink(w, id))
  }

  predicate AppOk(w: World) {
    && (forall b | b in w.broker.app :: b < |w.issuedAt|)
    && (forall b | b in w.broker.appOnce :: b < |w.issuedAt|)
    && (forall b | b in w.broker.app && b !in w.givenUp :: Count(w.broker.app, b) == 1)
    && (forall p | p in Up(w) && p.Publish? && p.qos == 2 && p.id in w.abandoned :: p.body in w.givenUp)
  }

  /** Completions: at most one each, none of a publish still in flight or discarded, and the broker has the message. */
  ghost predicate ToldOk(w: World) {
    && (forall b: nat :: Completions(w.c.events, b) <= 1)
    && (forall b: nat | Completions(w.c.events, b) > 0 ::
          b < |w.issuedAt| && b !in w.givenUp && forall id | id in w.mine :: w.mine[id].body != b)
    && (forall e | e in w.c.events && e.Published? ::
          if e.node.kind == PUBCOMP then e.node.msg.userData in w.broker.app
          else e.node.kind == PUBACK && e.node.msg.userData in w.broker.appOnce)
  }

  /** The node a reply is about is not on the user list any more when the reply is dispatched. */
  ghost predicate HandedOver(w: World) {
    w.inbox.Synced? ==>
      && (forall id: u16, b: nat | w.inbox.p == Packet.Pubrec(id) :: (PUBREC, id, b) !in InFlight(w.c).user)
      && (forall id: u16, b: nat | w.inbox.p == Packet.Puback(id) :: (PUBACK, id, b) !in InFlight(w.c).user)
  }

  /** No PUBLISH follows the PUBREL of its id, counted from where the publish began. */
  predicate WireOk(w: World) {
    && (forall b | 0 <= b < |w.issuedAt| :: w.issuedAt[b] <= |w.c.wire|)
    && (forall i, j | 0 <= i < j < |w.c.wire| && w.c.wire[j].Publish? && w.c.wire[j].qos == 2
                   && w.c.wire[i] == Packet.Pubrel(w.c.wire[j].id) ::
          w.c.wire[j].body < |w.issuedAt| && i < w.issuedAt[w.c.wire[j].body])
    && (forall id, i | id in w.mine && w.mine[id].kind == PUBREC && w.mine[id].body < |w.issuedAt|
                   && w.issuedAt[w.mine[id].body] <= i < |w.c.wire| :: w.c.wire[i] != Packet.Pubrel(id))
  }

  ghost predicate OutboundOk(w: World) {
    && Booked(w) && UsesOk(w) && PendingOk(w) && Qos1Ok(w) && OutLinked(w) && AppOk(w) && ToldOk(w)
    && HandedOver(w) && WireOk(w)
  }

  // ---------------------------------------------------------------- steps that keep the ids in use

  /** What may go out while the ids in use stay as they are. */
  predicate Sendable(w: World, p: Packet) {
    && (Acknowledged(p) ==> p.id in w.mine && w.mine[p.id] == Use(PublishKind(p.qos), p.body) && p.body !in w.pending)
    && (p.Pubrel? ==> p.id in w.abandoned || (p.id in w.mine && w.mine[p.id].kind == PUBCOMP))
  }

  predicate NothingCompleted(s: State, r: State) {
    s.events <= r.events && forall i | |s.events| <= i < |r.events| :: !r.events[i].Published?
  }

  ghost predicate Proceeds(w: World, r: State) {
    && (forall k: Key :: InFlight(r).acks[k] + InFlight(r).user[k] == InFlight(w.c).acks[k] + InFlight(w.c).user[k])
    && (forall k: Key :: k in InFlight(r).user ==> k in InFlight(w.c).user)
    && w.c.wire <= r.wire
    && (forall i | |w.c.wire| <= i < |r.wire| :: Sendable(w, r.wire[i]))
    && NothingCompleted(w.c, r)
  }

  lemma {:induction false} NewSendable(w: World, r: State)
    requires Grounded(w) && Proceeds(w, r)
    ensures var more := r.wire[|w.c.wire|..];
            Up(w.(c := r)) == Up(w) + more && forall p | p in more :: Sendable(w, p)
  {
  }

  lemma {:induction false} LinksProceed(w: World, r: State, more: seq<Packet>)
    requires OutLinked(w) && UsesOk(w) && Up(w.(c := r)) == Up(w) + more && forall p | p in more :: Sendable(w, p)
    ensures OutLinked(w.(c := r))
  {
    hide Consistent;
    var v := w.(c := r);
    forall id: u16 | id !in v.abandoned ensures Consistent(id, OutLink(v, id)) {
      assert Consistent(id, OutLink(w, id));
      SenderAdds(id, OutLink(w, id), more);
      assert OutLink(v, id) == OutLink(w, id).(fwd := Up(w) + more);
    }
  }

  lemma {:induction false} LinkedProceeds(w: World, r: State)
    requires Grounded(w) && OutboundOk(w) && Proceeds(w, r)
    ensures OutLinked(w.(c := r)) && Qos1Ok(w.(c := r)) && AppOk(w.(c := r))
  {
    hide InFlight, StateOk, OutLinked, ToldOk, Booked, HandedOver, WireOk, PendingOk;
    var more := r.wire[|w.c.wire|..];
    NewSendable(w, r);
    LinksProceed(w, r, more);
    assert Qos1Ok(w.(c := r));
    hide Qos1Ok;
  }

  lemma {:induction false} WireProceeds(w: World, r: State)
    requires Grounded(w) && OutboundOk(w) && Proceeds(w, r)
    ensures WireOk(w.(c := r)) && PendingOk(w.(c := r))
  {
    hide InFlight, OutLinked, ToldOk, Booked, HandedOver, Qos1Ok, AppOk;
    var v := w.(c := r);
    forall p | p in r.wire && Acknowledged(p) ensures p.body !in v.pending && p.body < |v.issuedAt| {
      var i :| 0 <= i < |r.wire| && r.wire[i] == p;
      if i < |w.c.wire| {
        assert w.c.wire[i] == p;
      }
    }
    forall i, j | 0 <= i < j < |r.wire| && r.wire[j].Publish? && r.wire[j].qos == 2
                  && r.wire[i] == Packet.Pubrel(r.wire[j].id)
      ensures r.wire[j].body < |v.issuedAt| && i < v.issuedAt[r.wire[j].body]
    {
      if j < |w.c.wire| {
        assert w.c.wire[i] == r.wire[i] && w.c.wire[j] == r.wire[j];
      } else {
        assert Sendable(w, r.wire[j]);
        if i < |w.c.wire| {
          assert w.c.wire[i] == r.wire[i];
        }
      }
    }
    forall id, i | id in v.mine && v.mine[id].kind == PUBREC && v.mine[id].body < |v.issuedAt|
                   && v.issuedAt[v.mine[id].body] <= i < |r.wire|
      ensures r.wire[i] != Packet.Pubrel(id)
    {
      if i < |w.c.wire| {
        assert w.c.wire[i] == r.wire[i];
      } else {
        assert Sendable(w, r.wire[i]);
      }
    }
  }

  lemma {:induction false} ToldProceeds(w: World, r: State)
    requires ToldOk(w) && NothingCompleted(w.c, r)
    ensures ToldOk(w.(c := r))
  {
    forall b: nat ensures Completions(r.events, b) == Completions(w.c.events, b) {
      CompletionsQuiet(w.c.events, r.events, b);
    }
  }

  lemma {:induction false} ClientProceeds(w: World, r: State)
    requires Grounded(w) && OutboundOk(w) && Proceeds(w, r)
    ensures OutboundOk(w.(c := r))
  {
    hide OutLinked, Qos1Ok, AppOk, WireOk, PendingOk, ToldOk, NothingCompleted, Sendable, InFlight, StateOk;
    LinkedProceeds(w, r);
    WireProceeds(w, r);
    ToldProceeds(w, r);
    BooksProceed(w, r);
  }

  lemma {:induction false} BooksProceed(w: World, r: State)
    requires Booked(w) && UsesOk(w) && HandedOver(w) && Proceeds(w, r)
    ensures Booked(w.(c := r)) && UsesOk(w.(c := r)) && HandedOver(w.(c := r))
  {
  }

  // ---------------------------------------------------------------- steps that leave the records alone

  /** Everything the invariant is about but the channels. */
  predicate SameRecords(w: World, v: World) {
    && v.mine == w.mine && v.issuedAt == w.issuedAt && v.pending == w.pending && v.abandoned == w.abandoned
    && v.givenUp == w.givenUp && v.broker.app == w.broker.app && v.broker.appOnce == w.broker.appOnce
    && v.c.wire == w.c.wire && v.c.events == w.c.events && InFlight(v.c) == InFlight(w.c)
  }

  lemma {:induction false} RecordsKept(w: World, v: World)
    requires SameRecords(w, v) && Booked(w) && UsesOk(w) && PendingOk(w) && ToldOk(w) && WireOk(w)
    ensures Booked(v) && UsesOk(v) && PendingOk(v) && ToldOk(v) && WireOk(v)
  {
  }

  lemma {:induction false} SameLinks(w: World, v: World)
    requires OutLinked(w) && v.abandoned == w.abandoned && forall id: u16 :: OutLink(v, id) == OutLink(w, id)
    ensures OutLinked(v)
  {
  }

  // ---------------------------------------------------------------- the packet in hand

  lemma {:induction false} IdleForgets(id: u16, l: Link, accepted: bool)
    requires Consistent(id, l) && l.phase == Idle
    ensures Consistent(id, l.(accepted := accepted))
  {
  }

  lemma {:induction false} InHandLinks(w: World)
    requires Grounded(w) && OutLinked(w) && w.inbox.Synced?
    ensures OutLinked(w.(inbox := Empty))
  {
  }

  /** The packet in hand leaves the channel. */
  lemma {:induction false} InHandLeaves(w: World)
    requires Grounded(w) && OutboundOk(w) && w.inbox.Synced?
    ensures OutboundOk(w.(inbox := Empty))
  {
    hide InFlight, StateOk, OutLinked, ToldOk, Booked, WireOk, PendingOk, UsesOk, Qos1Ok, AppOk;
    var v := w.(inbox := Empty);
    HeadInHand(w);
    InHandLinks(w);
    RecordsKept(w, v);
    assert forall p | p in Down(v) :: p in Down(w);
    ChannelsShrink(w, v);
  }

  lemma {:induction false} ProceedsInHand(w: World, r: State)
    requires Proceeds(w, r)
    ensures Proceeds(w.(inbox := Empty), r)
  {
  }

  /** Handled without a change of the ids in use. */
  lemma {:induction false} HandledProceeds(w: World, now: u32, memory: nat, outcome: SendOutcome)
    requires Grounded(w) && OutboundOk(w) && w.inbox.Synced?
    requires Proceeds(w, Dispatch(w.c, w.inbox.p, now, memory, outcome))
    requires UsesAfter(w.mine, w.inbox.p, memory) == w.mine
    ensures OutboundOk(ApplyHandle(w, now, memory, outcome))
  {
    hide Dispatch, OutboundOk, StateOk, Proceeds, Delivers;
    var r := Dispatch(w.c, w.inbox.p, now, memory, outcome);
    var v := ApplyHandle(w, now, memory, outcome);
    var u := w.(inbox := Empty);
    assert Grounded(u) && v == u.(c := r).(recorded := v.recorded, unrecorded := v.unrecorded);
    hide Grounded, ApplyHandle;
    InHandLeaves(w);
    ProceedsInHand(w, r);
    ClientProceeds(u, r);
    HistoryIrrelevant(u.(c := r), v);
  }

  /** The record of inbound deliveries does not matter here. */
  lemma {:induction false} HistoryIrrelevant(w: World, v: World)
    requires OutboundOk(w) && v == w.(recorded := v.recorded, unrecorded := v.unrecorded)
    ensures OutboundOk(v)
  {
    hide InFlight, OutLinked, ToldOk, Booked, WireOk, PendingOk, UsesOk, Qos1Ok, AppOk;
    assert Up(v) == Up(w) && Down(v) == Down(w);
    RecordsKept(w, v);
    SameLinks(w, v);
    ChannelsShrink(w, v);
  }

  // ---------------------------------------------------------------- steps that retire ids

  /** Ids in use move on to PUBCOMP or leave; the wire stays. */
  predicate Retires(w: World, v: World) {
    && v.issuedAt == w.issuedAt && v.c.wire == w.c.wire
    && forall id | id in v.mine ::
         && id in w.mine && v.mine[id].body == w.mine[id].body
         && (v.mine[id] == w.mine[id] || v.mine[id].kind == PUBCOMP)
  }

  lemma {:induction false} UsesRetire(w: World, v: World)
    requires UsesOk(w) && Retires(w, v) && v.abandoned == w.abandoned && v.givenUp == w.givenUp
    ensures UsesOk(v)
  {
  }

  lemma {:induction false} WireRetires(w: World, v: World)
    requires WireOk(w) && UsesOk(w) && Retires(w, v)
    ensures WireOk(v)
  {
  }

  lemma {:induction false} PendingRetires(w: World, v: World)
    requires PendingOk(w) && Retires(w, v) && v.broker == w.broker
    requires forall b | b in v.pending ::
               b in w.pending && v.pending[b] == w.pending[b]
               && v.pending[b].Publish? && v.pending[b].id in v.mine
               && v.mine[v.pending[b].id] == w.mine[v.pending[b].id]
    ensures PendingOk(v)
  {
  }

  /** Channels that only lose packets, broker and discards unchanged. */
  predicate Shrinks(w: World, v: World) {
    && Up(v) == Up(w) && (forall p | p in Down(v) :: p in Down(w))
    && v.broker == w.broker && v.issuedAt == w.issuedAt && v.abandoned == w.abandoned && v.givenUp == w.givenUp
    && (forall id | id in v.mine && v.mine[id].kind == PUBACK :: id in w.mine && v.mine[id] == w.mine[id])
  }

  lemma {:induction false} ChannelsShrink(w: World, v: World)
    requires Qos1Ok(w) && AppOk(w) && Shrinks(w, v)
    ensures Qos1Ok(v) && AppOk(v)
  {
  }
}
