/** Runs of a client against any broker whatever, clean session or not: no node is lost or freed twice, every accepted
    publish is accounted for, and what is stored stays what it was stored for. */
module Conservation {
  import opened Bytes
  import opened Common
  import opened PacketIds
  import opened Session
  import opened Requests
  import opened Operations
  import opened Effects
  import opened RequestEffects

  // ---------------------------------------------------------------- sums over lists of nodes

  type Weight = AckNode -> nat

  function Sum(nodes: seq<AckNode>, f: Weight): nat {
    if nodes == [] then 0 else f(nodes[0]) + Sum(nodes[1..], f)
  }

  lemma {:induction false} SumAppend(a: seq<AckNode>, b: seq<AckNode>, f: Weight)
    ensures Sum(a + b, f) == Sum(a, f) + Sum(b, f)
  {
    if a == [] {
      assert a + b == b;
    } else {
      assert (a + b)[1..] == a[1..] + b;
      SumAppend(a[1..], b, f);
    }
  }

  lemma {:induction false} SumPush(nodes: seq<AckNode>, n: AckNode, f: Weight)
    ensures Sum(nodes + [n], f) == Sum(nodes, f) + f(n)
  {
    SumAppend(nodes, [n], f);
    assert [n][1..] == [];
  }

  lemma {:induction false} SumAt(nodes: seq<AckNode>, i: nat, f: Weight)
    requires i < |nodes|
    ensures Sum(nodes, f) == Sum(RemoveAt(nodes, i), f) + f(nodes[i])
  {
    SumAppend(nodes[..i], nodes[i..], f);
    SumAppend(nodes[..i], nodes[i + 1..], f);
    assert nodes == nodes[..i] + nodes[i..] && nodes[i..][1..] == nodes[i + 1..];
  }

  lemma {:induction false} SumUpdate(nodes: seq<AckNode>, i: nat, n: AckNode, f: Weight)
    requires i < |nodes| && f(n) == f(nodes[i])
    ensures Sum(nodes[i := n], f) == Sum(nodes, f)
  {
    SumAt(nodes, i, f);
    SumAt(nodes[i := n], i, f);
    assert RemoveAt(nodes[i := n], i) == RemoveAt(nodes, i);
  }

  lemma {:induction false} SumSplit(nodes: seq<AckNode>, kind: Kind, id: u16, f: Weight)
    ensures Sum(nodes, f) == Sum(WithoutAcks(nodes, kind, id), f) + Sum(OnlyAcks(nodes, kind, id), f)
  {
    if nodes != [] {
      SumSplit(nodes[1..], kind, id, f);
      var without, only := WithoutAcks(nodes[1..], kind, id), OnlyAcks(nodes[1..], kind, id);
      assert ([nodes[0]] + without)[1..] == without && ([nodes[0]] + only)[1..] == only;
    }
  }

  // ---------------------------------------------------------------- ownership of nodes

  /** One for the node at `a`. */
  function At(a: nat): Weight {
    (n: AckNode) => if n.address == a then 1 else 0
  }

  function Times(s: seq<nat>, a: nat): nat {
    if s == [] then 0 else (if s[0] == a then 1 else 0) + Times(s[1..], a)
  }

  lemma {:induction false} TimesAppend(s: seq<nat>, t: seq<nat>, a: nat)
    ensures Times(s + t, a) == Times(s, a) + Times(t, a)
  {
    if s == [] {
      assert s + t == t;
    } else {
      assert (s + t)[1..] == s[1..] + t;
      TimesAppend(s[1..], t, a);
    }
  }

  lemma {:induction false} TimesPush(s: seq<nat>, x: nat, a: nat)
    ensures Times(s + [x], a) == Times(s, a) + if x == a then 1 else 0
  {
    TimesAppend(s, [x], a);
    assert [x][1..] == [];
  }

  lemma {:induction false} TimesAddresses(nodes: seq<AckNode>, a: nat)
    ensures Times(Addresses(nodes), a) == Sum(nodes, At(a))
  {
    if nodes != [] {
      TimesAddresses(nodes[1..], a);
      assert Addresses(nodes)[1..] == Addresses(nodes[1..]);
    }
  }

  /** How often the node at `a` is on a list or was destroyed. */
  function Places(s: State, a: nat): nat {
    Sum(s.acks, At(a)) + Sum(s.userAcks, At(a)) + Times(s.freed, a)
  }

  /** Every node ever made is in one place: on one list, or destroyed once. */
  ghost predicate Owned(s: State) {
    forall a: nat :: Places(s, a) == if a < s.nextAddress then 1 else 0
  }

  /** The same nodes in the same places, but for those made or moved. */
  ghost predicate Tracks(s: State, r: State) {
    r.nextAddress >= s.nextAddress
    && forall a: nat :: Places(r, a) == Places(s, a) + if s.nextAddress <= a < r.nextAddress then 1 else 0
  }

  lemma {:induction false} OwnedKept(s: State, r: State)
    requires Owned(s) && Tracks(s, r)
    ensures Owned(r)
  {
    forall a: nat ensures Places(r, a) == if a < r.nextAddress then 1 else 0 {
      assert Places(s, a) == if a < s.nextAddress then 1 else 0;
    }
  }

  lemma {:induction false} PlacesChain(s: State, r: State, t: State)
    requires Tracks(s, r) && Tracks(r, t)
    ensures Tracks(s, t)
  {
    forall a: nat ensures Places(t, a) == Places(s, a) + if s.nextAddress <= a < t.nextAddress then 1 else 0 {
      assert Places(r, a) == Places(s, a) + if s.nextAddress <= a < r.nextAddress then 1 else 0;
    }
  }

  /** A node made and put on the list. */
  lemma {:induction false} PlacesMade(s: State, n: AckNode)
    requires n.address == s.nextAddress
    ensures Tracks(s, AddAck(Allocated(s), n))
    ensures Tracks(s, Allocated(s).(userAcks := s.userAcks + [n]))
  {
    forall a: nat ensures Places(AddAck(Allocated(s), n), a) == Places(s, a) + if a == s.nextAddress then 1 else 0
      ensures Places(Allocated(s).(userAcks := s.userAcks + [n]), a) == Places(s, a) + if a == s.nextAddress then 1 else 0
    {
      SumPush(s.acks, n, At(a));
      SumPush(s.userAcks, n, At(a));
    }
  }

  /** A node taken off the list and destroyed. */
  lemma {:induction false} PlacesDead(s: State, i: nat)
    requires i < |s.acks|
    ensures Tracks(s, Destroy(RemoveAck(s, i), s.acks[i]))
  {
    forall a: nat ensures Places(Destroy(RemoveAck(s, i), s.acks[i]), a) == Places(s, a) {
      SumAt(s.acks, i, At(a));
      TimesPush(s.freed, s.acks[i].address, a);
    }
  }

  lemma {:induction false} PlacesPurge(s: State)
    ensures Tracks(s, Purge(s))
  {
    forall a: nat ensures Places(Purge(s), a) == Places(s, a) {
      TimesAppend(s.freed + Addresses(s.acks), Addresses(s.userAcks), a);
      TimesAppend(s.freed, Addresses(s.acks), a);
      TimesAddresses(s.acks, a);
      TimesAddresses(s.userAcks, a);
    }
  }

  lemma {:induction false} PlacesClear(s: State, kind: Kind, id: u16)
    ensures Tracks(s, ClearAcks(s, kind, id))
  {
    forall a: nat ensures Places(ClearAcks(s, kind, id), a) == Places(s, a) {
      SumSplit(s.acks, kind, id, At(a));
      SumSplit(s.userAcks, kind, id, At(a));
      var u, t := Addresses(OnlyAcks(s.userAcks, kind, id)), Addresses(OnlyAcks(s.acks, kind, id));
      TimesAppend(s.freed + u, t, a);
      TimesAppend(s.freed, u, a);
      TimesAddresses(OnlyAcks(s.userAcks, kind, id), a);
      TimesAddresses(OnlyAcks(s.acks, kind, id), a);
    }
  }

  lemma {:induction false} PlacesSend(s: State, p: Packet, outcome: SendOutcome)
    ensures Tracks(s, Send(s, p, outcome))
  {
    PlacesPurge(s);
  }

  lemma {:induction false} PlacesSync(s: State)
    ensures Tracks(s, Sync(s))
    decreases |s.userAcks|
  {
    if s.userAcks != [] {
      var r := AddAck(s.(userAcks := s.userAcks[1..]), s.userAcks[0]);
      forall a: nat ensures Places(r, a) == Places(s, a) {
        SumPush(s.acks, s.userAcks[0], At(a));
      }
      PlacesSync(r);
      PlacesChain(s, r, Sync(r));
    }
  }

  lemma {:induction false} PlacesAddUserNodes(s: State, kind: Kind, id: u16, msgs: seq<Msg>, now: u32)
    ensures Tracks(s, AddUserNodes(s, kind, id, msgs, now))
    decreases |msgs|
  {
    if msgs != [] {
      var node := NewNode(s, kind, id, None, msgs[0], now);
      var next := Allocated(s).(userAcks := s.userAcks + [node]);
      PlacesMade(s, node);
      PlacesAddUserNodes(next, kind, id, msgs[1..], now);
      PlacesChain(s, next, AddUserNodes(next, kind, id, msgs[1..], now));
    }
  }

  lemma {:induction false} PlacesSuback(s: State, i: nat, id: u16, codes: seq<byte>)
    ensures Tracks(s, SubackFrom(s, i, id, codes))
    decreases |s.acks| - i
  {
    if i < |s.acks| {
      var n := s.acks[i];
      if n.id != id {
        PlacesSuback(s, i + 1, id, codes);
      } else {
        var r := if n.kind == SUBACK then SettleNode(s, n, codes) else Settling(s, codes);
        var next := Destroy(RemoveAck(r.state, i), n);
        PlacesDead(r.state, i);
        PlacesSuback(next, i, id, r.codes);
        assert Tracks(s, r.state);
        PlacesChain(s, r.state, next);
        PlacesChain(s, next, SubackFrom(next, i, id, r.codes));
      }
    }
  }

  lemma {:induction false} PlacesUnsuback(s: State, i: nat, id: u16)
    ensures Tracks(s, UnsubackFrom(s, i, id))
    decreases |s.acks| - i
  {
    if i < |s.acks| {
      if s.acks[i].id != id {
        PlacesUnsuback(s, i + 1, id);
      } else {
        var next := UnsubackNode(s, i);
        PlacesDead(s, i);
        assert Tracks(s, next);
        PlacesUnsuback(next, i, id);
        PlacesChain(s, next, UnsubackFrom(next, i, id));
      }
    }
  }

  lemma {:induction false} PlacesScan(s: State, i: nat, k: nat, wait: bool, window: Timers.Timer, throttle: u32,
                                      input: ScanInput)
    ensures Tracks(s, ScanFrom(s, i, k, wait, window, throttle, input))
    decreases |s.acks| - i
  {
    var now := input.clock(k);
    if i < |s.acks| && s.clientState == Connected && Timers.Remain(window, now) != 0 {
      var n := s.acks[i];
      var remain := Timers.Remain(n.timer, now);
      var least := if remain != 0 then Min(remain, throttle) else throttle;
      if remain != 0 && wait {
        PlacesScan(s, i + 1, k + 1, wait, window, least, input);
      } else if Resendable(n.kind) {
        var next := ResendAt(s, i, now, input.sends(k));
        PlacesResend(s, i, now, input.sends(k));
        PlacesScan(next, i + 1, k + 1, wait, window, least, input);
        PlacesChain(s, next, ScanFrom(s, i, k, wait, window, throttle, input));
      } else {
        var next := ExpireAt(s, i);
        PlacesExpire(s, i);
        PlacesScan(next, i, k + 1, wait, window, least, input);
        PlacesChain(s, next, ScanFrom(s, i, k, wait, window, throttle, input));
      }
    }
  }

  lemma {:induction false} PlacesResend(s: State, i: nat, now: u32, outcome: SendOutcome)
    requires i < |s.acks| && Resendable(s.acks[i].kind)
    ensures Tracks(s, ResendAt(s, i, now, outcome))
  {
    forall a: nat ensures Places(ResendAt(s, i, now, outcome), a) == Places(s, a) {
      SumUpdate(s.acks, i, Resent(s.acks[i], now, s.config), At(a));
    }
  }

  lemma {:induction false} PlacesExpire(s: State, i: nat)
    requires i < |s.acks| && !Resendable(s.acks[i].kind)
    ensures Tracks(s, ExpireAt(s, i))
  {
    PlacesDead(s, i);
    forall a: nat ensures Places(ExpireAt(s, i), a) == Places(Destroy(RemoveAck(s, i), s.acks[i]), a) {
    }
  }

  lemma {:induction false} PlacesPubrec(s: State, id: u16, now: u32, memory: nat, outcome: SendOutcome)
    ensures Tracks(s, OnPubrec(s, id, now, memory, outcome))
  {
    var i := FindAck(s.acks, PUBREC, id);
    if FindAck(s.acks, PUBCOMP, id) < |s.acks| || i == |s.acks| {
      PlacesSend(s, Packet.Pubrel(id), outcome);
    } else if memory < 2 {
      var r := AddAck(RemoveAck(s, i), s.acks[i]);
      forall a: nat ensures Places(r, a) == Places(s, a) {
        SumAt(s.acks, i, At(a));
        SumPush(RemoveAt(s.acks, i), s.acks[i], At(a));
      }
    } else {
      var r := Moved(s, i, now);
      PlacesMoved(s, i, now);
      PlacesSend(r, Packet.Pubrel(id), outcome);
      PlacesChain(s, r, Send(r, Packet.Pubrel(id), outcome));
    }
  }

  lemma {:induction false} PlacesMoved(s: State, i: nat, now: u32)
    requires i < |s.acks|
    ensures Tracks(s, Moved(s, i, now))
  {
    var n := s.acks[i];
    var taken := RemoveAck(s, i);
    var node := NewNode(taken, PUBCOMP, n.id, Some(Packet.Pubrel(n.id)), n.msg.(packetId := SETTLED), now);
    forall a: nat ensures Places(Moved(s, i, now), a) == Places(s, a) + if a == s.nextAddress then 1 else 0 {
      SumAt(s.acks, i, At(a));
      SumPush(taken.acks, node, At(a));
      TimesPush(s.freed, n.address, a);
    }
  }

  lemma {:induction false} PlacesPublish(s: State, p: Packet, now: u32, memory: nat, outcome: SendOutcome)
    requires p.Publish?
    ensures Tracks(s, OnPublish(s, p, now, memory, outcome))
  {
    var told := Log(s, Data(p));
    if FindMatch(s.subs, p.topic) == |s.subs| || p.qos == 0 {
    } else if p.qos == 1 {
      PlacesSend(told, Packet.Puback(p.id), outcome);
      PlacesChain(s, told, Send(told, Packet.Puback(p.id), outcome));
    } else if FindAck(s.acks, PUBREL, p.id) < |s.acks| {
      PlacesSend(s, Packet.Pubrec(p.id), outcome);
    } else if memory >= 2 {
      var node := NewNode(s, PUBREL, p.id, Some(Packet.Pubrec(p.id)), Msg(p.topic, p.qos, SETTLED, 0), now);
      var added := AddAck(Allocated(told), node);
      PlacesMade(told, node);
      PlacesSend(added, Packet.Pubrec(p.id), outcome);
      PlacesChain(s, told, added);
      PlacesChain(s, added, Send(added, Packet.Pubrec(p.id), outcome));
    }
  }

  lemma {:induction false} TracksBatch(s: State, r: State, kind: Kind, id: u16, subs: seq<Msg>)
    requires Tracks(s, r)
    ensures Tracks(s, ClearAcks(r, kind, id)) && Tracks(s, ClearAcks(r, kind, id).(subs := subs))
    ensures Tracks(s, r.(subs := subs))
  {
    PlacesClear(r, kind, id);
    PlacesChain(s, r, ClearAcks(r, kind, id));
    var t := ClearAcks(r, kind, id);
    forall a: nat ensures Places(t.(subs := subs), a) == Places(t, a) && Places(r.(subs := subs), a) == Places(r, a) {
    }
  }

  lemma {:induction false} PlacesSubscribe(s: State, requests: seq<Request>, now: u32, memory: nat)
    ensures Tracks(s, BeginSubscribe(s, requests, now, memory).state)
  {
    if RequestsValid(requests) && s.clientState == Connected && memory >= 2 {
      var n, id, left := |requests|, NextPacketId(s.packetId), memory - 2;
      var numbered, msgs := s.(packetId := id), SubMsgs(requests, id);
      assert Tracks(s, numbered);
      if left < 2 * n {
        var part := AddUserNodes(numbered, SUBACK, id, msgs[..left / 2], now);
        PlacesAddUserNodes(numbered, SUBACK, id, msgs[..left / 2], now);
        PlacesChain(s, numbered, part);
        TracksBatch(s, part, SUBACK, id, part.subs);
      } else {
        var noded := AddUserNodes(numbered, SUBACK, id, msgs, now);
        PlacesAddUserNodes(numbered, SUBACK, id, msgs, now);
        PlacesChain(s, numbered, noded);
        if left < 3 * n {
          var tabled := noded.(subs := s.subs + msgs[..left - 2 * n]);
          TracksBatch(s, noded, SUBACK, id, tabled.subs);
          TracksBatch(s, tabled, SUBACK, id, DropBatch(tabled.subs, requests, id));
        } else {
          TracksBatch(s, noded, SUBACK, id, s.subs + msgs);
        }
      }
    }
  }

  lemma {:induction false} PlacesUnsubscribe(s: State, topics: seq<string>, now: u32, memory: nat)
    ensures Tracks(s, BeginUnsubscribe(s, topics, now, memory).state)
  {
    if TopicsValid(topics) && s.clientState == Connected && memory >= 2 {
      var n, id, left := |topics|, NextPacketId(s.packetId), memory - 2;
      var numbered, msgs := s.(packetId := id), UnsubMsgs(s.subs, topics, id);
      assert Tracks(s, numbered);
      if left < 2 * n {
        var part := AddUserNodes(numbered, UNSUBACK, id, msgs[..left / 2], now);
        PlacesAddUserNodes(numbered, UNSUBACK, id, msgs[..left / 2], now);
        PlacesChain(s, numbered, part);
        TracksBatch(s, part, UNSUBACK, id, part.subs);
      } else {
        PlacesAddUserNodes(numbered, UNSUBACK, id, msgs, now);
        PlacesChain(s, numbered, AddUserNodes(numbered, UNSUBACK, id, msgs, now));
      }
    }
  }

  /** A send, then perhaps a rollback. */
  lemma {:induction false} PlacesEnd(s: State, p: Packet, outcome: SendOutcome, kind: Kind, id: u16, subs: seq<Msg>)
    ensures Tracks(s, Send(s, p, outcome)) && Tracks(s, ClearAcks(Send(s, p, outcome), kind, id))
    ensures Tracks(s, ClearAcks(Send(s, p, outcome), kind, id).(subs := subs))
  {
    PlacesSend(s, p, outcome);
    TracksBatch(s, Send(s, p, outcome), kind, id, subs);
  }

  lemma {:induction false} PlacesUser(s: State, op: Op)
    requires !op.Handle? && !op.ScanList? && !op.SyncLists?
    ensures Tracks(s, Perform(s, op))
  {
    hide ClearAcks, Send, BeginSubscribe, BeginUnsubscribe, Tracks, DropBatch;
    var r := Perform(s, op);
    match op
    case PublishPlain(topic, body, memory, outcome) =>
      PlacesSend(s, Publish(false, 0, 0, topic, body), outcome);
      PlacesSame(s, s);
    case PublishBegin(qos, topic, body, now, memory) => PlacesBegin(s, qos, topic, body, now, memory);
    case PublishEnd(qos, id, topic, body, outcome) =>
      PlacesEnd(s, Publish(false, qos, id, topic, body), outcome, PublishKind(qos), id, []);
    case SubscribeBegin(requests, now, memory) => PlacesSubscribe(s, requests, now, memory);
    case SubscribeEnd(requests, id, outcome) =>
      PlacesEnd(s, Subscribe(id, Topics(requests)), outcome, SUBACK, id, r.subs);
    case UnsubscribeBegin(topics, now, memory) => PlacesUnsubscribe(s, topics, now, memory);
    case UnsubscribeEnd(topics, id, outcome) => PlacesEnd(s, Unsubscribe(id, topics), outcome, UNSUBACK, id, []);
    case UserDiscard(kind, id) => PlacesDiscard(s, kind, id);
    case ConnectionLost => PlacesLost(s);
    case Connack(present) => PlacesConnack(s, present);
    case SetState(state) => PlacesSame(s, r);
  }

  lemma {:induction false} PlacesLost(s: State)
    ensures Tracks(s, Disconnect(s))
  {
    PlacesSend(s, Packet.Unsuback(0), SocketError);
  }

  lemma {:induction false} PlacesSame(s: State, r: State)
    requires r.acks == s.acks && r.userAcks == s.userAcks && r.freed == s.freed && r.nextAddress == s.nextAddress
    ensures Tracks(s, r)
  {
  }

  lemma {:induction false} PlacesBegin(s: State, qos: Acked, topic: string, body: nat, now: u32, memory: nat)
    ensures Tracks(s, BeginPublish(s, qos, topic, body, now, memory))
  {
    var numbered := s.(packetId := NextPacketId(s.packetId));
    assert Tracks(s, numbered);
    if Accepts(s, topic, memory) {
      var node := PublishNode(numbered, qos, numbered.packetId, topic, body, now);
      PlacesMade(numbered, node);
      PlacesChain(s, numbered, BeginPublish(s, qos, topic, body, now, memory));
    }
  }

  lemma {:induction false} PlacesDiscard(s: State, kind: Kind, id: u16)
    ensures Tracks(s, Discard(s, kind, id))
  {
    var i := FindAck(s.acks, kind, id);
    if i < |s.acks| {
      PlacesDead(s, i);
      forall a: nat | 1 <= id <= MAX_PACKET_ID
        ensures Places(Discard(s, kind, id), a) == Places(Destroy(RemoveAck(s, i), s.acks[i]), a)
      {
      }
    }
  }

  lemma {:induction false} PlacesConnack(s: State, present: bool)
    ensures Tracks(s, OnConnack(s, present))
  {
    PlacesPurge(s);
    forall a: nat ensures Places(OnConnack(s, present), a) == Places(if present then s else Purge(s), a) {
    }
  }

  lemma {:induction false} PlacesPuback(s: State, kind: Kind, id: u16)
    ensures Tracks(s, OnPuback(s, kind, id))
  {
    var i := FindAck(s.acks, kind, id);
    if i < |s.acks| {
      PlacesDead(s, i);
      forall a: nat ensures Places(OnPuback(s, kind, id), a) == Places(Destroy(RemoveAck(s, i), s.acks[i]), a) {
      }
    }
  }

  lemma {:induction false} PlacesPubrel(s: State, id: u16, outcome: SendOutcome)
    ensures Tracks(s, OnPubrel(s, id, outcome))
  {
    var i := FindAck(s.acks, PUBREL, id);
    var released := if i == |s.acks| then s else Destroy(RemoveAck(s, i), s.acks[i]);
    if i < |s.acks| {
      PlacesDead(s, i);
    }
    assert Tracks(s, released);
    PlacesSend(released, Packet.Pubcomp(id), outcome);
    PlacesChain(s, released, Send(released, Packet.Pubcomp(id), outcome));
  }

  lemma {:induction false} PlacesOnSuback(s: State, id: u16, codes: seq<byte>)
    ensures Tracks(s, OnSuback(s, id, codes))
  {
    if CountSubs(s.subs, id) != |codes| {
      assert Tracks(s, s);
      TracksBatch(s, s, SUBACK, id, DropSubs(s.subs, WithId(id)));
    } else {
      PlacesSuback(s, 0, id, codes);
    }
  }

  lemma {:induction false} PlacesHandle(s: State, p: Packet, now: u32, memory: nat, outcome: SendOutcome)
    ensures Tracks(s, Dispatch(s, p, now, memory, outcome))
  {
    hide OnPublish, OnPuback, OnPubrec, OnPubrel, OnSuback, UnsubackFrom, Tracks;
    PlacesSame(s, s);
    match p
    case Publish(_, _, _, _, _) => PlacesPublish(s, p, now, memory, outcome);
    case Puback(id) => PlacesPuback(s, PUBACK, id);
    case Pubcomp(id) => PlacesPuback(s, PUBCOMP, id);
    case Pubrec(id) => PlacesPubrec(s, id, now, memory, outcome);
    case Pubrel(id) => PlacesPubrel(s, id, outcome);
    case Suback(id, codes) => PlacesOnSuback(s, id, codes);
    case Unsuback(id) => PlacesUnsuback(s, 0, id);
    case _ =>
  }

  /** Whatever happens to a session, its nodes stay tracked. */
  lemma {:induction false} PlacesKept(s: State, op: Op)
    ensures Tracks(s, Perform(s, op))
  {
    match op
    case Handle(p, now, memory, outcome) => PlacesHandle(s, p, now, memory, outcome);
    case ScanList(wait, input) =>
      PlacesScan(s, 0, 0, wait, Timers.Timer(input.clock(0), ScanWindow(s.config)), 1000, input);
    case SyncLists => PlacesSync(s);
    case _ => PlacesUser(s, op);
  }

  /** In every run every node made is on exactly one list or was destroyed exactly once: none leaks, none is freed
      twice, none is on both lists. */
  lemma {:induction false} NodesOwned(config: Config, ops: seq<Op>)
    ensures Owned(After(config, ops))
  {
    hide Perform;
    if ops != [] {
      var s := After(config, ops[..|ops| - 1]);
      NodesOwned(config, ops[..|ops| - 1]);
      PlacesKept(s, ops[|ops| - 1]);
      OwnedKept(s, After(config, ops));
    }
  }
}
