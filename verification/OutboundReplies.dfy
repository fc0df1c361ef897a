/** The packets the MQTT thread handles, as steps of the client's own publishes. */
module OutboundReplies {
  import opened Bytes
  import opened Session
  import opened Effects
  import opened RequestEffects
  import opened Handshake
  import opened World
  import opened Outbound

  // ---------------------------------------------------------------- packets that leave the ids in use

  lemma {:induction false} ProceedsSending(w: World, r: State, more: seq<Packet>)
    requires InFlight(r).acks == InFlight(w.c).acks && InFlight(r).user == InFlight(w.c).user
    requires NothingCompleted(w.c, r) && r.wire == w.c.wire + more
    requires forall p | p in more :: Sendable(w, p)
    ensures Proceeds(w, r)
  {
  }

  /** Messages of the broker and replies to SUBSCRIBE and UNSUBSCRIBE are no publish's business. */
  lemma {:induction false} OtherHandled(w: World, now: u32, memory: nat, outcome: SendOutcome)
    requires Grounded(w) && OutboundOk(w) && Orderly(w, Handles(now, memory, outcome))
    requires !Refused(w.inbox.p) && !w.inbox.p.Puback? && !w.inbox.p.Pubrec? && !w.inbox.p.Pubcomp?
    ensures OutboundOk(ApplyHandle(w, now, memory, outcome))
  {
    hide OutboundOk, Dispatch, Proceeds, OnlySubscriptionsUse;
    OtherProceeds(w, now, memory, outcome);
    HandledProceeds(w, now, memory, outcome);
  }

  lemma {:induction false} OtherProceeds(w: World, now: u32, memory: nat, outcome: SendOutcome)
    requires Grounded(w) && Orderly(w, Handles(now, memory, outcome))
    requires !Refused(w.inbox.p) && !w.inbox.p.Puback? && !w.inbox.p.Pubrec? && !w.inbox.p.Pubcomp?
    ensures Proceeds(w, Dispatch(w.c, w.inbox.p, now, memory, outcome))
  {
    hide StateOk, InFlight, OnPublish, OnPubrel, OnSuback, Proceeds, OnlySubscriptionsUse, Delivers;
    var p := w.inbox.p;
    var r := Dispatch(w.c, p, now, memory, outcome);
    match p {
      case Publish(_, _, _, _, _) =>
        PublishProceeds(w, p, now, memory, outcome);
      case Pubrel(id) =>
        OnPubrelEffect(w.c, id, outcome);
        ProceedsSending(w, r, SentIf(outcome, Packet.Pubcomp(id)));
      case Suback(id, codes) =>
        SubackAside(w.c, id, codes);
        ProceedsSending(w, r, []);
      case Unsuback(id) =>
        UnsubackFromEffect(w.c, 0, id);
        ProceedsSending(w, r, []);
      case _ =>
        ProceedsSending(w, r, []);
    }
  }

  lemma {:induction false} PublishProceeds(w: World, p: Packet, now: u32, memory: nat, outcome: SendOutcome)
    requires Grounded(w) && p.Publish?
    ensures Proceeds(w, OnPublish(w.c, p, now, memory, outcome))
  {
    hide StateOk, InFlight, OnPublish, Proceeds;
    OnPublishEffect(w.c, p, now, memory, outcome);
    ProceedsSending(w, OnPublish(w.c, p, now, memory, outcome), PublishReply(w.c, p, memory, outcome));
  }

  lemma {:induction false} SubackAside(s: State, id: u16, codes: seq<byte>)
    requires StateOk(s) && OnlySubscriptionsUse(s, id)
    ensures InFlight(OnSuback(s, id, codes)) == InFlight(s) && QuietEvents(s, OnSuback(s, id, codes))
    ensures OnSuback(s, id, codes).wire == s.wire
  {
    hide OutKeys, RelIds, StateOk;
    if CountSubs(s.subs, id) == |codes| {
      SubackFromEffect(s, 0, id, codes);
    } else {
      ClearSubscriptionsAside(s, SUBACK, id);
    }
  }

  // ---------------------------------------------------------------- PUBREC

  /** Where the node of an id in use is. */
  lemma {:induction false} UserKinds(s: State, k: Key)
    requires StateOk(s) && k in InFlight(s).user
    ensures k.0 == PUBACK || k.0 == PUBREC
  {
    KeyPresent(s.userAcks, k);
  }

  lemma {:induction false} MovedLinks(w: World, u: World, id: u16, b: nat)
    requires Grounded(w) && OutLinked(w) && w.inbox == Synced(Packet.Pubrec(id)) && id !in w.abandoned
    requires id in w.mine && w.mine[id] == Use(PUBREC, b)
    requires u == w.(inbox := Empty, mine := w.mine[id := Use(PUBCOMP, b)], c := u.c) && u.c.wire == w.c.wire
    ensures OutLinked(u) && b in w.broker.app
  {
  }

  lemma {:induction false} MovedBooked(w: World, u: World, id: u16, b: nat)
    requires Booked(w) && id in w.mine && w.mine[id] == Use(PUBREC, b)
    requires u.mine == w.mine[id := Use(PUBCOMP, b)] && Moves(InFlight(w.c), id, b, InFlight(u.c))
    ensures Booked(u)
  {
  }

  /** The session with PUBREC node `b` turned into its PUBCOMP node, nothing sent yet. */
  lemma {:induction false} NodeMoves(w: World, u: World, id: u16, b: nat)
    requires Grounded(w) && OutboundOk(w) && w.inbox == Synced(Packet.Pubrec(id))
    requires id in w.mine && w.mine[id] == Use(PUBREC, b)
    requires u == w.(inbox := Empty, mine := w.mine[id := Use(PUBCOMP, b)], c := u.c)
    requires Moves(InFlight(w.c), id, b, InFlight(u.c))
    requires u.c.wire == w.c.wire && NothingCompleted(w.c, u.c)
    ensures OutboundOk(u)
  {
    hide Moves, Booked, OutLinked, WireOk, ToldOk, Qos1Ok, AppOk, StateOk, NothingCompleted;
    MovedLinks(w, u, id, b);
    MovedBooked(w, u, id, b);
    UsesRetire(w, u);
    WireRetires(w, u);
    assert forall p | p in w.pending :: w.pending[p].id == id ==> false;
    PendingRetires(w, u);
    ShrinksInHand(w, u);
    MovedTold(w, u, id, b);
  }

  lemma {:induction false} ShrinksInHand(w: World, u: World)
    requires Grounded(w) && w.inbox.Synced? && Qos1Ok(w) && AppOk(w)
    requires u == w.(inbox := Empty, mine := u.mine, c := u.c) && u.c.wire == w.c.wire
    requires forall id | id in u.mine && u.mine[id].kind == PUBACK :: id in w.mine && u.mine[id] == w.mine[id]
    ensures Qos1Ok(u) && AppOk(u)
  {
  }

  lemma {:induction false} MovedTold(w: World, u: World, id: u16, b: nat)
    requires ToldOk(w) && id in w.mine && w.mine[id].body == b && NothingCompleted(w.c, u.c)
    requires u == w.(inbox := Empty, mine := w.mine[id := Use(PUBCOMP, b)], c := u.c)
    ensures ToldOk(u)
  {
    ToldProceeds(w, u.c);
  }

  lemma {:induction false} PubrecHandled(w: World, now: u32, memory: nat, outcome: SendOutcome)
    requires Grounded(w) && OutboundOk(w) && w.inbox.Synced? && w.inbox.p.Pubrec? && !Refused(w.inbox.p)
    ensures OutboundOk(ApplyHandle(w, now, memory, outcome))
  {
    hide InFlight, StateOk, OnPubrec, Consistent;
    var id := w.inbox.p.id;
    assert w.inbox.p == Packet.Pubrec(id);
    HeadInHand(w);
    if id !in w.abandoned {
      assert Consistent(id, OutLink(w, id));
      PubrecArrives(id, OutLink(w, id));
      assert id in w.mine;
    }
    if id in w.mine && w.mine[id].kind == PUBREC {
      NodeWaits(w, id);
      if memory >= 2 {
        PubrecMoves(w, now, memory, outcome);
      } else {
        OnPubrecStays(w.c, id, now, memory, outcome);
        ProceedsSending(w, OnPubrec(w.c, id, now, memory, outcome), []);
        HandledProceeds(w, now, memory, outcome);
      }
    } else {
      PubrecRepeats(w, now, memory, outcome);
    }
  }

  /** The PUBREC node is on the list of the MQTT thread, as its reply is dispatched. */
  lemma {:induction false} NodeWaits(w: World, id: u16)
    requires Booked(w) && HandedOver(w) && w.inbox == Synced(Packet.Pubrec(id))
    requires id in w.mine && w.mine[id].kind == PUBREC
    ensures AwaitsPubrec(InFlight(w.c), id)
    ensures forall b: nat :: (PUBREC, id, b) in InFlight(w.c).acks ==> b == w.mine[id].body
  {
    hide InFlight;
    var k := (PUBREC, id, w.mine[id].body);
    assert InFlight(w.c).acks[k] + InFlight(w.c).user[k] == 1;
    forall b: nat
      ensures (PUBCOMP, id, b) !in InFlight(w.c).acks
      ensures (PUBREC, id, b) in InFlight(w.c).acks ==> b == w.mine[id].body
    {
      var c, r := (PUBCOMP, id, b), (PUBREC, id, b);
      assert InFlight(w.c).acks[c] + InFlight(w.c).user[c] == 0;
      assert InFlight(w.c).acks[r] + InFlight(w.c).user[r] == if b == w.mine[id].body then 1 else 0;
    }
  }

  lemma {:induction false} PubrecMoves(w: World, now: u32, memory: nat, outcome: SendOutcome)
    requires Grounded(w) && OutboundOk(w) && w.inbox.Synced? && w.inbox.p.Pubrec? && !Refused(w.inbox.p) && memory >= 2
    requires w.inbox.p.id in w.mine && w.mine[w.inbox.p.id].kind == PUBREC
    requires AwaitsPubrec(InFlight(w.c), w.inbox.p.id)
    requires forall b: nat :: (PUBREC, w.inbox.p.id, b) in InFlight(w.c).acks ==> b == w.mine[w.inbox.p.id].body
    ensures OutboundOk(ApplyHandle(w, now, memory, outcome))
  {
    hide StateOk, OnPubrec, InFlight, OutboundOk, QuietEvents, AwaitsPubrec;
    var id := w.inbox.p.id;
    var r := OnPubrec(w.c, id, now, memory, outcome);
    var b := OnPubrecMoves(w.c, id, now, memory, outcome);
    assert b == w.mine[id].body;
    hide Moves;
    var v := w.(inbox := Empty, mine := w.mine[id := Use(PUBCOMP, b)], c := r);
    MovesThenSends(w, v, id, b, SentIf(outcome, Packet.Pubrel(id)));
    assert ApplyHandle(w, now, memory, outcome) == v;
  }

  /** The node moves, then PUBREL goes out. */
  lemma {:induction false} MovesThenSends(w: World, v: World, id: u16, b: nat, more: seq<Packet>)
    requires Grounded(w) && OutboundOk(w) && w.inbox == Synced(Packet.Pubrec(id))
    requires id in w.mine && w.mine[id] == Use(PUBREC, b)
    requires v == w.(inbox := Empty, mine := w.mine[id := Use(PUBCOMP, b)], c := v.c)
    requires Keeps(w.c, v.c) && Moves(InFlight(w.c), id, b, InFlight(v.c)) && QuietEvents(w.c, v.c)
    requires v.c.wire == w.c.wire + more && forall p | p in more :: p == Packet.Pubrel(id)
    ensures OutboundOk(v)
  {
    var u := v.(c := v.c.(wire := w.c.wire));
    assert InFlight(u.c) == InFlight(v.c);
    assert Grounded(u);
    hide InFlight, StateOk, OutboundOk, Moves;
    NodeMoves(w, u, id, b);
    hide Grounded, Keeps;
    ThenSends(u, v.c, id, more);
    assert u.(c := v.c) == v;
  }

  lemma {:induction false} ThenSends(u: World, r: State, id: u16, more: seq<Packet>)
    requires Grounded(u) && OutboundOk(u) && id in u.mine && u.mine[id].kind == PUBCOMP
    requires InFlight(r) == InFlight(u.c) && r.events == u.c.events && r.wire == u.c.wire + more
    requires forall p | p in more :: p == Packet.Pubrel(id)
    ensures OutboundOk(u.(c := r))
  {
    hide InFlight, StateOk, OutboundOk;
    ProceedsSending(u, r, more);
    ClientProceeds(u, r);
  }

  /** PUBREC for an id that waits for PUBCOMP already, or that was discarded: PUBREL once more. */
  lemma {:induction false} PubrecRepeats(w: World, now: u32, memory: nat, outcome: SendOutcome)
    requires Grounded(w) && OutboundOk(w) && w.inbox.Synced? && w.inbox.p.Pubrec? && !Refused(w.inbox.p)
    requires w.inbox.p.id in w.mine ==> w.mine[w.inbox.p.id].kind == PUBCOMP
    requires w.inbox.p.id in w.mine || w.inbox.p.id in w.abandoned
    ensures OutboundOk(ApplyHandle(w, now, memory, outcome))
  {
    hide InFlight, StateOk, OnPubrec;
    var id := w.inbox.p.id;
    forall b: nat ensures (PUBREC, id, b) !in InFlight(w.c).acks {
      var k := (PUBREC, id, b);
      assert InFlight(w.c).acks[k] + InFlight(w.c).user[k] == 0;
    }
    OnPubrecStays(w.c, id, now, memory, outcome);
    ProceedsSending(w, OnPubrec(w.c, id, now, memory, outcome), SentIf(outcome, Packet.Pubrel(id)));
    HandledProceeds(w, now, memory, outcome);
  }

  // ---------------------------------------------------------------- PUBACK and PUBCOMP

  /** The packet that completes a node of this kind. */
  function Completing(kind: Kind, id: u16): Packet
    requires kind == PUBACK || kind == PUBCOMP
  {
    if kind == PUBACK then Packet.Puback(id) else Packet.Pubcomp(id)
  }

  /** A completion arrives at a node that waits for it: the broker has the message. */
  lemma {:induction false} CompletionProves(w: World, kind: Kind, id: u16)
    requires Grounded(w) && OutboundOk(w) && (kind == PUBACK || kind == PUBCOMP)
    requires w.inbox == Synced(Completing(kind, id)) && id in w.mine && w.mine[id].kind == kind
    ensures if kind == PUBCOMP then w.mine[id].body in w.broker.app else w.mine[id].body in w.broker.appOnce
    ensures w.mine[id].body !in w.pending
    ensures (kind, id, w.mine[id].body) in InFlight(w.c).acks
    ensures forall b: nat :: (kind, id, b) in InFlight(w.c).acks ==> b == w.mine[id].body
  {
    hide InFlight, StateOk, Consistent;
    HeadInHand(w);
    assert Down(w)[0] in Down(w);
    if kind == PUBCOMP {
      assert Consistent(id, OutLink(w, id));
      PubcompArrives(id, OutLink(w, id));
    }
    var k := (kind, id, w.mine[id].body);
    assert InFlight(w.c).acks[k] + InFlight(w.c).user[k] == 1;
    if k in InFlight(w.c).user {
      UserKinds(w.c, k);
    }
    forall b: nat ensures (kind, id, b) in InFlight(w.c).acks ==> b == w.mine[id].body {
      var m := (kind, id, b);
      assert InFlight(w.c).acks[m] + InFlight(w.c).user[m] == if b == w.mine[id].body then 1 else 0;
    }
  }

  lemma {:induction false} CompletedLinks(w: World, v: World, kind: Kind, id: u16)
    requires Grounded(w) && OutLinked(w) && (kind == PUBACK || kind == PUBCOMP) && id !in w.abandoned
    requires w.inbox == Synced(Completing(kind, id)) && id in w.mine && w.mine[id].kind == kind
    requires v == w.(inbox := Empty, mine := w.mine - {id}, c := v.c) && v.c.wire == w.c.wire
    ensures OutLinked(v)
  {
    hide Consistent, StateOk;
    HeadInHand(w);
    assert Up(v) == Up(w);
    forall i: u16 | i !in v.abandoned ensures Consistent(i, OutLink(v, i)) {
      assert Consistent(i, OutLink(w, i));
      var l := OutLink(w, i).(back := Down(w)[1..]);
      FrontLeaves(i, OutLink(w, i), 0, 1);
      assert Up(w)[0..] == Up(w);
      if i == id {
        if kind == PUBCOMP {
          PubcompArrives(id, OutLink(w, id));
          l := l.(phase := Idle);
        }
        IdleForgets(id, l, false);
        assert OutLink(v, i) == l.(accepted := false);
      } else {
        assert OutLink(v, i) == l;
      }
    }
  }

  lemma {:induction false} CompletedBooked(w: World, v: World, id: u16, n: AckNode)
    requires Booked(w) && id in w.mine && v.mine == w.mine - {id}
    requires Completes(w.c, n, v.c) && KeyOf(n) == (w.mine[id].kind, id, w.mine[id].body)
    ensures Booked(v)
  {
  }

  /** The id leaves the books. */
  lemma {:induction false} NodeCompletes(w: World, v: World, kind: Kind, id: u16, n: AckNode)
    requires Grounded(w) && OutboundOk(w) && (kind == PUBACK || kind == PUBCOMP)
    requires w.inbox == Synced(Completing(kind, id)) && id in w.mine && w.mine[id].kind == kind
    requires Completes(w.c, n, v.c) && KeyOf(n) == (kind, id, w.mine[id].body) && v.c.wire == w.c.wire
    requires v == w.(inbox := Empty, mine := w.mine - {id}, c := v.c)
    ensures OutboundOk(v)
  {
    hide Booked, OutLinked, WireOk, ToldOk, Qos1Ok, AppOk, UsesOk, StateOk, InFlight;
    CompletionProves(w, kind, id);
    InUseNotAbandoned(w, id);
    CompletedLinks(w, v, kind, id);
    CompletedBooked(w, v, id, n);
    UsesRetire(w, v);
    WireRetires(w, v);
    PendingRetires(w, v);
    ShrinksInHand(w, v);
    NodeCompletesTold(w, v, id, n);
  }

  lemma {:induction false} InUseNotAbandoned(w: World, id: u16)
    requires UsesOk(w) && id in w.mine
    ensures id !in w.abandoned
  {
  }

  lemma {:induction false} NodeCompletesTold(w: World, v: World, id: u16, n: AckNode)
    requires ToldOk(w) && UsesOk(w) && id in w.mine && v.mine == w.mine - {id}
    requires v == w.(inbox := Empty, mine := v.mine, c := v.c)
    requires v.c.events == w.c.events + [Published(n)] && n.msg.userData == w.mine[id].body
    requires if n.kind == PUBCOMP then n.msg.userData in w.broker.app
             else n.kind == PUBACK && n.msg.userData in w.broker.appOnce
    ensures ToldOk(v)
  {
  }

  lemma {:induction false} CompletionFound(w: World, kind: Kind, id: u16)
    requires Grounded(w) && OutboundOk(w) && (kind == PUBACK || kind == PUBCOMP)
    requires w.inbox == Synced(Completing(kind, id)) && id in w.mine && w.mine[id].kind == kind
    ensures OutboundOk(w.(inbox := Empty, mine := w.mine - {id}, c := OnPuback(w.c, kind, id)))
  {
    hide InFlight, StateOk, OnPuback, OutboundOk;
    OnPubackEffect(w.c, kind, id);
    CompletionProves(w, kind, id);
    var r := OnPuback(w.c, kind, id);
    var n: AckNode :| Completes(w.c, n, r) && Waits(n, kind, id);
    assert KeyOf(n) == (kind, id, n.msg.userData);
    assert KeyOf(n) in InFlight(w.c).acks;
    hide Completes;
    NodeCompletes(w, w.(inbox := Empty, mine := w.mine - {id}, c := r), kind, id, n);
  }

  lemma {:induction false} CompletionIgnored(w: World, kind: Kind, now: u32, memory: nat, outcome: SendOutcome)
    requires Grounded(w) && OutboundOk(w) && (kind == PUBACK || kind == PUBCOMP)
    requires w.inbox.Synced? && !Refused(w.inbox.p) && (w.inbox.p.Puback? || w.inbox.p.Pubcomp?) && w.inbox.p == Completing(kind, w.inbox.p.id)
    requires w.inbox.p.id in w.mine ==> w.mine[w.inbox.p.id].kind != kind
    ensures OutboundOk(ApplyHandle(w, now, memory, outcome))
  {
    hide InFlight, StateOk, OnPuback, OutboundOk, Proceeds;
    var id := w.inbox.p.id;
    NoNodeWaits(w, kind, id);
    OnPubackEffect(w.c, kind, id);
    assert Dispatch(w.c, w.inbox.p, now, memory, outcome) == w.c;
    ProceedsSending(w, w.c, []);
    hide Dispatch;
    HandledProceeds(w, now, memory, outcome);
  }

  lemma {:induction false} CompletionHandled(w: World, kind: Kind, now: u32, memory: nat, outcome: SendOutcome)
    requires Grounded(w) && OutboundOk(w) && (kind == PUBACK || kind == PUBCOMP)
    requires w.inbox.Synced? && !Refused(w.inbox.p) && (w.inbox.p.Puback? || w.inbox.p.Pubcomp?)
    requires w.inbox.p == Completing(kind, w.inbox.p.id)
    ensures OutboundOk(ApplyHandle(w, now, memory, outcome))
  {
    hide OutboundOk, Grounded, OnPuback;
    var id := w.inbox.p.id;
    if id in w.mine && w.mine[id].kind == kind {
      CompletionFound(w, kind, id);
      assert ApplyHandle(w, now, memory, outcome) ==
             w.(inbox := Empty, mine := w.mine - {id}, c := OnPuback(w.c, kind, id));
    } else {
      CompletionIgnored(w, kind, now, memory, outcome);
    }
  }

  lemma {:induction false} NoNodeWaits(w: World, kind: Kind, id: u16)
    requires OutboundOk(w) && (id in w.mine ==> w.mine[id].kind != kind)
    ensures forall b: nat :: (kind, id, b) !in InFlight(w.c).acks
  {
  }

  lemma {:induction false} RefusedProceeds(w: World, now: u32, memory: nat, outcome: SendOutcome)
    requires Grounded(w) && OutboundOk(w) && w.inbox.Synced? && Refused(w.inbox.p)
    ensures OutboundOk(ApplyHandle(w, now, memory, outcome))
  {
    hide InFlight, StateOk, OutboundOk, Proceeds;
    ProceedsSending(w, w.c, []);
    HandledProceeds(w, now, memory, outcome);
  }

  lemma {:induction false} ReplyHandled(w: World, now: u32, memory: nat, outcome: SendOutcome)
    requires Grounded(w) && OutboundOk(w) && Orderly(w, Handles(now, memory, outcome))
    ensures OutboundOk(ApplyHandle(w, now, memory, outcome))
  {
    hide OutboundOk, ApplyHandle, Grounded;
    if Refused(w.inbox.p) {
      RefusedProceeds(w, now, memory, outcome);
    } else if w.inbox.p.Puback? {
      CompletionHandled(w, PUBACK, now, memory, outcome);
    } else if w.inbox.p.Pubcomp? {
      CompletionHandled(w, PUBCOMP, now, memory, outcome);
    } else if w.inbox.p.Pubrec? {
      PubrecHandled(w, now, memory, outcome);
    } else {
      OtherHandled(w, now, memory, outcome);
    }
  }
}
