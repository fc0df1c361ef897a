/** What each session operation does to the nodes in flight, with the order of the lists and the SUBSCRIBE traffic
    left out; and the stored-packet invariant they all keep. */
module Effects {
  import opened Bytes
  import opened Common
  import opened Timers
  import opened PacketIds
  import opened Session
  import opened Requests

  // ---------------------------------------------------------------- the stored-packet invariant

  /** What a node stores: the packet to repeat until the reply it waits for arrives. Once repeated, a PUBLISH
      carries DUP. */
  predicate NodeOk(n: AckNode) {
    match n.kind
    case PUBACK => StoresPublish(n, 1)
    case PUBREC => StoresPublish(n, 2)
    case PUBREL => n.packet == Some(Packet.Pubrec(n.id))
    case PUBCOMP => n.packet == Some(Packet.Pubrel(n.id))
    case SUBACK => n.packet == None && n.msg.packetId == n.id
    case UNSUBACK => n.packet == None && n.msg.packetId == n.id
  }

  predicate StoresPublish(n: AckNode, qos: QoS) {
    && n.packet.Some? && n.packet.value.Publish?
    && n.packet.value == Publish(n.packet.value.dup, qos, n.id, n.msg.topic, n.msg.userData)
    && (n.repeatCount > 0 ==> n.packet.value.dup)
  }

  predicate NodesOk(nodes: seq<AckNode>) {
    forall n | n in nodes :: NodeOk(n)
  }

  predicate StateOk(s: State) {
    && NodesOk(s.acks) && NodesOk(s.userAcks)
    && forall n | n in s.userAcks :: n.kind != PUBREL && n.kind != PUBCOMP
  }

  /** The invariant is about the two lists only. */
  lemma {:induction false} StateOkSame(s: State, r: State)
    requires StateOk(s) && r.acks == s.acks && r.userAcks == s.userAcks
    ensures StateOk(r)
  {
  }

  lemma {:induction false} StateOkEmpty(r: State)
    requires r.acks == [] && r.userAcks == []
    ensures StateOk(r)
  {
  }

  // ---------------------------------------------------------------- the nodes in flight

  type Key = (Kind, u16, nat)

  function KeyOf(n: AckNode): Key {
    (n.kind, n.id, n.msg.userData)
  }

  function KeyBag(n: AckNode): multiset<Key> {
    if OfPublish(n.kind) then multiset{KeyOf(n)} else multiset{}
  }

  function RelBag(n: AckNode): multiset<u16> {
    if n.kind == PUBREL then multiset{n.id} else multiset{}
  }

  /** The nodes of the user's own publishes. */
  function OutKeys(nodes: seq<AckNode>): multiset<Key> {
    if nodes == [] then multiset{} else KeyBag(nodes[0]) + OutKeys(nodes[1..])
  }

  /** The ids of the broker's QoS 2 messages that were delivered and not yet released. */
  function RelIds(nodes: seq<AckNode>): multiset<u16> {
    if nodes == [] then multiset{} else RelBag(nodes[0]) + RelIds(nodes[1..])
  }

  datatype Flight = Flight(rel: multiset<u16>, acks: multiset<Key>, user: multiset<Key>)

  function InFlight(s: State): Flight {
    Flight(RelIds(s.acks), OutKeys(s.acks), OutKeys(s.userAcks))
  }

  /** One more node on the list of the MQTT thread. */
  function Plus(f: Flight, n: AckNode): Flight {
    Flight(f.rel + RelBag(n), f.acks + KeyBag(n), f.user)
  }

  lemma {:induction false} KeysAppend(a: seq<AckNode>, b: seq<AckNode>)
    ensures OutKeys(a + b) == OutKeys(a) + OutKeys(b)
    ensures RelIds(a + b) == RelIds(a) + RelIds(b)
  {
    if a == [] {
      assert a + b == b;
    } else {
      assert (a + b)[1..] == a[1..] + b;
      KeysAppend(a[1..], b);
    }
  }

  lemma {:induction false} OutKeysAt(nodes: seq<AckNode>, i: nat)
    requires i < |nodes|
    ensures OutKeys(nodes) == OutKeys(RemoveAt(nodes, i)) + KeyBag(nodes[i])
  {
    hide KeyBag;
    if i == 0 {
      assert RemoveAt(nodes, 0) == nodes[1..];
    } else {
      var rest := RemoveAt(nodes[1..], i - 1);
      OutKeysAt(nodes[1..], i - 1);
      assert RemoveAt(nodes, i)[1..] == rest && RemoveAt(nodes, i)[0] == nodes[0];
      var a, b, c := KeyBag(nodes[0]), OutKeys(rest), KeyBag(nodes[i]);
      assert OutKeys(nodes) == a + (b + c);
      assert OutKeys(RemoveAt(nodes, i)) == a + b;
      assert a + (b + c) == (a + b) + c;
    }
  }

  lemma {:induction false} RelIdsAt(nodes: seq<AckNode>, i: nat)
    requires i < |nodes|
    ensures RelIds(nodes) == RelIds(RemoveAt(nodes, i)) + RelBag(nodes[i])
  {
    hide RelBag;
    if i == 0 {
      assert RemoveAt(nodes, 0) == nodes[1..];
    } else {
      var rest := RemoveAt(nodes[1..], i - 1);
      RelIdsAt(nodes[1..], i - 1);
      assert RemoveAt(nodes, i)[1..] == rest && RemoveAt(nodes, i)[0] == nodes[0];
      var a, b, c := RelBag(nodes[0]), RelIds(rest), RelBag(nodes[i]);
      assert RelIds(nodes) == a + (b + c);
      assert RelIds(RemoveAt(nodes, i)) == a + b;
      assert a + (b + c) == (a + b) + c;
    }
  }

  lemma {:induction false} KeysAt(nodes: seq<AckNode>, i: nat)
    requires i < |nodes|
    ensures OutKeys(nodes) == OutKeys(RemoveAt(nodes, i)) + KeyBag(nodes[i])
    ensures RelIds(nodes) == RelIds(RemoveAt(nodes, i)) + RelBag(nodes[i])
  {
    OutKeysAt(nodes, i);
    RelIdsAt(nodes, i);
  }

  lemma {:induction false} KeysPush(nodes: seq<AckNode>, n: AckNode)
    ensures OutKeys(nodes + [n]) == OutKeys(nodes) + KeyBag(n)
    ensures RelIds(nodes + [n]) == RelIds(nodes) + RelBag(n)
  {
    KeysAppend(nodes, [n]);
    assert [n][1..] == [];
  }

  lemma {:induction false} KeysUpdate(nodes: seq<AckNode>, i: nat, n: AckNode)
    requires i < |nodes| && KeyOf(n) == KeyOf(nodes[i])
    ensures OutKeys(nodes[i := n]) == OutKeys(nodes)
    ensures RelIds(nodes[i := n]) == RelIds(nodes)
  {
    KeysAt(nodes, i);
    KeysAt(nodes[i := n], i);
    assert RemoveAt(nodes[i := n], i) == RemoveAt(nodes, i);
  }

  /** The multisets say which nodes are there. */
  lemma {:induction false} KeyPresent(nodes: seq<AckNode>, k: Key)
    ensures k in OutKeys(nodes) <==> OfPublish(k.0) && exists n :: n in nodes && KeyOf(n) == k
  {
    if nodes != [] {
      KeyPresent(nodes[1..], k);
      if k in OutKeys(nodes) {
        if k in OutKeys(nodes[1..]) {
          var n :| n in nodes[1..] && KeyOf(n) == k;
          assert n in nodes;
        } else {
          assert nodes[0] in nodes;
        }
      }
      if n :| n in nodes && KeyOf(n) == k {
        assert n == nodes[0] || n in nodes[1..];
      }
    }
  }

  lemma {:induction false} RelPresent(nodes: seq<AckNode>, id: u16)
    ensures id in RelIds(nodes) <==> exists n :: n in nodes && Waits(n, PUBREL, id)
  {
    if nodes != [] {
      RelPresent(nodes[1..], id);
      if id in RelIds(nodes) {
        if id in RelIds(nodes[1..]) {
          var n :| n in nodes[1..] && Waits(n, PUBREL, id);
          assert n in nodes;
        } else {
          assert nodes[0] in nodes;
        }
      }
      if n :| n in nodes && Waits(n, PUBREL, id) {
        assert n == nodes[0] || n in nodes[1..];
      }
    }
  }

  /** Finding a node, by the multisets. */
  lemma {:induction false} FindOutbound(nodes: seq<AckNode>, kind: Kind, id: u16)
    requires OfPublish(kind)
    ensures var i := FindAck(nodes, kind, id);
            if i < |nodes| then KeyOf(nodes[i]) in OutKeys(nodes) && nodes[i] in nodes
            else forall b: nat :: (kind, id, b) !in OutKeys(nodes)
  {
    var i := FindAck(nodes, kind, id);
    if i < |nodes| {
      KeyPresent(nodes, KeyOf(nodes[i]));
    } else {
      forall b: nat ensures (kind, id, b) !in OutKeys(nodes) {
        KeyPresent(nodes, (kind, id, b));
      }
    }
  }

  lemma {:induction false} FindRel(nodes: seq<AckNode>, id: u16)
    ensures FindAck(nodes, PUBREL, id) < |nodes| <==> id in RelIds(nodes)
  {
    RelPresent(nodes, id);
    var i := FindAck(nodes, PUBREL, id);
    if i < |nodes| {
      assert nodes[i] in nodes;
    }
  }

  // ---------------------------------------------------------------- effects of the shared steps

  lemma {:induction false} AddAckEffect(s: State, n: AckNode)
    requires StateOk(s) && NodeOk(n)
    ensures StateOk(AddAck(s, n))
    ensures InFlight(AddAck(s, n)) == Plus(InFlight(s), n)
  {
    KeysPush(s.acks, n);
    assert AddAck(s, n).acks == s.acks + [n] && AddAck(s, n).userAcks == s.userAcks;
  }

  lemma {:induction false} RemoveAckEffect(s: State, i: nat)
    requires StateOk(s) && i < |s.acks|
    ensures StateOk(RemoveAck(s, i)) && NodeOk(s.acks[i])
    ensures Plus(InFlight(RemoveAck(s, i)), s.acks[i]) == InFlight(s)
  {
    KeysAt(s.acks, i);
    assert RemoveAck(s, i).acks == RemoveAt(s.acks, i) && RemoveAck(s, i).userAcks == s.userAcks;
  }

  // ---------------------------------------------------------------- effects of the handlers

  /** What every handler leaves alone. */
  predicate Keeps(s: State, r: State) {
    StateOk(r) && r.config == s.config && r.userAcks == s.userAcks
  }

  /** The packets one send adds to the wire. */
  function SentIf(outcome: SendOutcome, p: Packet): seq<Packet> {
    if outcome == Sent then [p] else []
  }

  /** New events, none of which is a delivery, a completion or a discard. */
  predicate QuietEvents(s: State, r: State) {
    && s.events <= r.events
    && forall i | |s.events| <= i < |r.events| ::
         !r.events[i].Data? && !r.events[i].Published? && !r.events[i].AckHandlerDiscard?
  }

  /** A failed send leaves the session as it is unless it is a clean one. */
  lemma {:induction false} SendEffect(s: State, p: Packet, outcome: SendOutcome)
    requires StateOk(s) && (outcome == SocketError ==> !s.config.cleanSession)
    ensures Keeps(s, Send(s, p, outcome)) && Send(s, p, outcome).acks == s.acks
    ensures InFlight(Send(s, p, outcome)) == InFlight(s)
    ensures Send(s, p, outcome).wire == s.wire + SentIf(outcome, p)
    ensures QuietEvents(s, Send(s, p, outcome))
  {
  }

  lemma {:induction false} OnPubackEffect(s: State, kind: Kind, id: u16)
    requires StateOk(s) && kind in {PUBACK, PUBCOMP}
    ensures Keeps(s, OnPuback(s, kind, id)) && OnPuback(s, kind, id).wire == s.wire
    ensures (forall b: nat :: (kind, id, b) !in InFlight(s).acks) ==> OnPuback(s, kind, id) == s
    ensures (exists b: nat :: (kind, id, b) in InFlight(s).acks) ==>
              exists n: AckNode :: Completes(s, n, OnPuback(s, kind, id)) && Waits(n, kind, id)
  {
    hide OutKeys, RelIds, StateOk;
    var i := FindAck(s.acks, kind, id);
    FindOutbound(s.acks, kind, id);
    if i < |s.acks| {
      var n := s.acks[i];
      RemoveAckEffect(s, i);
      assert KeyOf(n) == (kind, id, n.msg.userData);
      var r := OnPuback(s, kind, id);
      assert r == Destroy(Log(RemoveAck(s, i), Published(n)), n);
      StateOkSame(RemoveAck(s, i), r);
      assert InFlight(r) == InFlight(RemoveAck(s, i));
      assert Completes(s, n, r) && Waits(n, kind, id);
    } else {
      assert StateOk(OnPuback(s, kind, id));
    }
  }

  /** Node `n` leaves with a Published event. */
  predicate Completes(s: State, n: AckNode, r: State) {
    && KeyOf(n) in InFlight(s).acks
    && InFlight(r) == InFlight(s).(acks := InFlight(s).acks - multiset{KeyOf(n)})
    && r.events == s.events + [Published(n)]
  }

  lemma {:induction false} OnPubrelEffect(s: State, id: u16, outcome: SendOutcome)
    requires StateOk(s) && (outcome == SocketError ==> !s.config.cleanSession)
    ensures Keeps(s, OnPubrel(s, id, outcome))
    ensures InFlight(OnPubrel(s, id, outcome)) == InFlight(s).(rel := InFlight(s).rel - multiset{id})
    ensures OnPubrel(s, id, outcome).wire == s.wire + SentIf(outcome, Packet.Pubcomp(id))
    ensures QuietEvents(s, OnPubrel(s, id, outcome))
  {
    hide OutKeys, RelIds, StateOk;
    var i := FindAck(s.acks, PUBREL, id);
    FindRel(s.acks, id);
    if i < |s.acks| {
      var n, taken := s.acks[i], RemoveAck(s, i);
      RemoveAckEffect(s, i);
      var released := Destroy(taken, n);
      StateOkSame(taken, released);
      assert InFlight(released) == InFlight(taken) && InFlight(s) == Plus(InFlight(taken), n);
      assert OnPubrel(s, id, outcome) == Send(released, Packet.Pubcomp(id), outcome);
      hide OnPubrel, Send;
      SendEffect(released, Packet.Pubcomp(id), outcome);
      assert InFlight(released) == InFlight(s).(rel := InFlight(s).rel - multiset{id});
    } else {
      assert OnPubrel(s, id, outcome) == Send(s, Packet.Pubcomp(id), outcome);
      hide OnPubrel, Send;
      SendEffect(s, Packet.Pubcomp(id), outcome);
    }
  }

  /** A node waits for PUBREC with `id`, and none for PUBCOMP. */
  ghost predicate AwaitsPubrec(f: Flight, id: u16) {
    (exists b: nat :: (PUBREC, id, b) in f.acks) && forall b: nat :: (PUBCOMP, id, b) !in f.acks
  }

  /** The PUBREC node of `b` has become its PUBCOMP node. */
  predicate Moves(f: Flight, id: u16, b: nat, g: Flight) {
    && (PUBREC, id, b) in f.acks
    && g == f.(acks := f.acks - multiset{(PUBREC, id, b)} + multiset{(PUBCOMP, id, b)})
  }

  lemma {:induction false} AwaitsPubrecFound(s: State, id: u16)
    ensures AwaitsPubrec(InFlight(s), id) <==>
              FindAck(s.acks, PUBREC, id) < |s.acks| && FindAck(s.acks, PUBCOMP, id) == |s.acks|
  {
    hide OutKeys, RelIds;
    var i, j := FindAck(s.acks, PUBREC, id), FindAck(s.acks, PUBCOMP, id);
    FindOutbound(s.acks, PUBREC, id);
    FindOutbound(s.acks, PUBCOMP, id);
    if i < |s.acks| {
      assert KeyOf(s.acks[i]) == (PUBREC, id, s.acks[i].msg.userData);
    }
    if j < |s.acks| {
      assert KeyOf(s.acks[j]) == (PUBCOMP, id, s.acks[j].msg.userData);
    }
  }

  /** The handler when there is nothing to move, or no memory to move it. */
  lemma {:induction false} OnPubrecStays(s: State, id: u16, now: u32, memory: nat, outcome: SendOutcome)
    requires StateOk(s) && (outcome == SocketError ==> !s.config.cleanSession) && (AwaitsPubrec(InFlight(s), id) ==> memory < 2)
    ensures Keeps(s, OnPubrec(s, id, now, memory, outcome)) && QuietEvents(s, OnPubrec(s, id, now, memory, outcome))
    ensures OnPubrec(s, id, now, memory, outcome).wire ==
            s.wire + if AwaitsPubrec(InFlight(s), id) then [] else SentIf(outcome, Packet.Pubrel(id))
    ensures InFlight(OnPubrec(s, id, now, memory, outcome)) == InFlight(s)
  {
    hide OutKeys, RelIds;
    AwaitsPubrecFound(s, id);
    if AwaitsPubrec(InFlight(s), id) {
      var i := FindAck(s.acks, PUBREC, id);
      RemoveAckEffect(s, i);
      AddAckEffect(RemoveAck(s, i), s.acks[i]);
      assert OnPubrec(s, id, now, memory, outcome) == AddAck(RemoveAck(s, i), s.acks[i]);
    } else {
      SendEffect(s, Packet.Pubrel(id), outcome);
      assert OnPubrec(s, id, now, memory, outcome) == Send(s, Packet.Pubrel(id), outcome);
    }
  }

  /** The session after the `i`-th node, waiting for PUBREC, gave way to one waiting for PUBCOMP. */
  function Moved(s: State, i: nat, now: u32): State
    requires i < |s.acks|
  {
    var n := s.acks[i];
    var taken := RemoveAck(s, i);
    var node := NewNode(taken, PUBCOMP, n.id, Some(Packet.Pubrel(n.id)), n.msg.(packetId := SETTLED), now);
    Destroy(AddAck(Allocated(taken), node), n)
  }

  lemma {:induction false} MovedEffect(s: State, i: nat, now: u32)
    requires StateOk(s) && i < |s.acks| && s.acks[i].kind == PUBREC
    ensures Keeps(s, Moved(s, i, now)) && QuietEvents(s, Moved(s, i, now)) && Moved(s, i, now).wire == s.wire
    ensures InFlight(Moved(s, i, now)) ==
            Plus(InFlight(RemoveAck(s, i)), s.acks[i].(kind := PUBCOMP))
  {
    hide OutKeys, RelIds;
    var n := s.acks[i];
    var taken := RemoveAck(s, i);
    RemoveAckEffect(s, i);
    var node := NewNode(taken, PUBCOMP, n.id, Some(Packet.Pubrel(n.id)), n.msg.(packetId := SETTLED), now);
    assert StateOk(Allocated(taken)) && NodeOk(node);
    AddAckEffect(Allocated(taken), node);
    assert KeyOf(node) == KeyOf(n.(kind := PUBCOMP));
    assert InFlight(Moved(s, i, now)) == InFlight(AddAck(Allocated(taken), node));
  }

  /** The node of `b` moves: PUBREC becomes PUBCOMP. */
  lemma {:induction false} MovedMoves(s: State, i: nat, now: u32)
    requires StateOk(s) && i < |s.acks| && s.acks[i].kind == PUBREC && KeyOf(s.acks[i]) in InFlight(s).acks
    ensures Moves(InFlight(s), s.acks[i].id, s.acks[i].msg.userData, InFlight(Moved(s, i, now)))
  {
    hide OutKeys, RelIds, StateOk, Moved;
    var n := s.acks[i];
    MovedEffect(s, i, now);
    RemoveAckEffect(s, i);
    var left := InFlight(RemoveAck(s, i));
    var k, m := KeyOf(n), (PUBCOMP, n.id, n.msg.userData);
    assert KeyBag(n) == multiset{k} && KeyBag(n.(kind := PUBCOMP)) == multiset{m};
    assert RelBag(n) == RelBag(n.(kind := PUBCOMP)) == multiset{};
    hide InFlight;
    KeySwap(InFlight(s).acks, left.acks, k, m);
  }

  /** The handler when it moves the node of `b`: PUBREL goes out. */
  lemma {:induction false} OnPubrecMoves(s: State, id: u16, now: u32, memory: nat, outcome: SendOutcome)
    returns (b: nat)
    requires StateOk(s) && (outcome == SocketError ==> !s.config.cleanSession) && AwaitsPubrec(InFlight(s), id) && memory >= 2
    ensures Keeps(s, OnPubrec(s, id, now, memory, outcome)) && QuietEvents(s, OnPubrec(s, id, now, memory, outcome))
    ensures OnPubrec(s, id, now, memory, outcome).wire == s.wire + SentIf(outcome, Packet.Pubrel(id))
    ensures Moves(InFlight(s), id, b, InFlight(OnPubrec(s, id, now, memory, outcome)))
  {
    hide OutKeys, RelIds, StateOk;
    AwaitsPubrecFound(s, id);
    var i := FindAck(s.acks, PUBREC, id);
    b := s.acks[i].msg.userData;
    FindOutbound(s.acks, PUBREC, id);
    MovedEffect(s, i, now);
    MovedMoves(s, i, now);
    var moved := Moved(s, i, now);
    assert OnPubrec(s, id, now, memory, outcome) == Send(moved, Packet.Pubrel(id), outcome);
    hide Moved, OnPubrec, InFlight, Send, Moves, QuietEvents;
    SendEffect(moved, Packet.Pubrel(id), outcome);
    QuietChain(s, moved, Send(moved, Packet.Pubrel(id), outcome));
  }

  lemma {:induction false} KeySwap(before: multiset<Key>, left: multiset<Key>, k: Key, m: Key)
    requires before == left + multiset{k}
    ensures left + multiset{m} == before - multiset{k} + multiset{m} && k in before
  {
  }

  /** Whether an inbound PUBLISH is handed to the application. */
  predicate Delivers(s: State, p: Packet)
    requires p.Publish?
  {
    FindMatch(s.subs, p.topic) < |s.subs| && (p.qos == 2 ==> p.id !in InFlight(s).rel)
  }

  /** Whether a QoS 2 PUBLISH leaves a record that it was delivered. */
  predicate Records(s: State, p: Packet, memory: nat)
    requires p.Publish?
  {
    p.qos == 2 && Delivers(s, p) && memory >= 2
  }

  /** The acknowledgement an inbound PUBLISH gets. */
  function PublishReply(s: State, p: Packet, memory: nat, outcome: SendOutcome): seq<Packet>
    requires p.Publish?
  {
    if FindMatch(s.subs, p.topic) == |s.subs| || p.qos == 0 then []
    else if p.qos == 1 then SentIf(outcome, Packet.Puback(p.id))
    else if Delivers(s, p) && memory < 2 then []
    else SentIf(outcome, Packet.Pubrec(p.id))
  }

  lemma {:induction false} OnPublishEffect(s: State, p: Packet, now: u32, memory: nat, outcome: SendOutcome)
    requires StateOk(s) && (outcome == SocketError ==> !s.config.cleanSession) && p.Publish?
    ensures Keeps(s, OnPublish(s, p, now, memory, outcome))
    ensures InFlight(OnPublish(s, p, now, memory, outcome)) ==
            if Records(s, p, memory) then InFlight(s).(rel := InFlight(s).rel + multiset{p.id}) else InFlight(s)
    ensures OnPublish(s, p, now, memory, outcome).wire == s.wire + PublishReply(s, p, memory, outcome)
    ensures QuietEvents(if Delivers(s, p) then Log(s, Data(p)) else s, OnPublish(s, p, now, memory, outcome))
  {
    hide OutKeys, RelIds;
    FindRel(s.acks, p.id);
    if Records(s, p, memory) {
      OnPublishRecords(s, p, now, memory, outcome);
    } else if FindMatch(s.subs, p.topic) == |s.subs| || p.qos == 0 || (p.qos == 2 && Delivers(s, p)) {
      assert s.wire + [] == s.wire;
    } else if p.qos == 1 {
      SendEffect(Log(s, Data(p)), Packet.Puback(p.id), outcome);
    } else {
      SendEffect(s, Packet.Pubrec(p.id), outcome);
    }
  }

  lemma {:induction false} OnPublishRecords(s: State, p: Packet, now: u32, memory: nat, outcome: SendOutcome)
    requires StateOk(s) && (outcome == SocketError ==> !s.config.cleanSession) && p.Publish? && Records(s, p, memory)
    ensures Keeps(s, OnPublish(s, p, now, memory, outcome))
    ensures InFlight(OnPublish(s, p, now, memory, outcome)) ==
            InFlight(s).(rel := InFlight(s).rel + multiset{p.id})
    ensures OnPublish(s, p, now, memory, outcome).wire == s.wire + SentIf(outcome, Packet.Pubrec(p.id))
    ensures QuietEvents(Log(s, Data(p)), OnPublish(s, p, now, memory, outcome))
  {
    hide OutKeys, RelIds;
    FindRel(s.acks, p.id);
    var told := Allocated(Log(s, Data(p)));
    var node := NewNode(s, PUBREL, p.id, Some(Packet.Pubrec(p.id)), Msg(p.topic, p.qos, SETTLED, 0), now);
    assert InFlight(told) == InFlight(s);
    AddAckEffect(told, node);
    var added := AddAck(told, node);
    SendEffect(added, Packet.Pubrec(p.id), outcome);
    assert OnPublish(s, p, now, memory, outcome) == Send(added, Packet.Pubrec(p.id), outcome);
  }

  /** Removing a node that is no publish's and no broker message's. */
  lemma {:induction false} RemoveQuiet(s: State, i: nat)
    requires StateOk(s) && i < |s.acks| && !OfPublish(s.acks[i].kind) && s.acks[i].kind != PUBREL
    ensures StateOk(RemoveAck(s, i)) && InFlight(RemoveAck(s, i)) == InFlight(s)
  {
    RemoveAckEffect(s, i);
  }

  /** No node in flight but SUBACK and UNSUBACK ones uses `id`. */
  predicate OnlySubscriptionsUse(s: State, id: u16) {
    forall n | n in s.acks && n.id == id :: n.kind == SUBACK || n.kind == UNSUBACK
  }

  lemma {:induction false} SubackFromEffect(s: State, i: nat, id: u16, codes: seq<byte>)
    requires StateOk(s) && OnlySubscriptionsUse(s, id)
    ensures Keeps(s, SubackFrom(s, i, id, codes)) && QuietEvents(s, SubackFrom(s, i, id, codes))
    ensures InFlight(SubackFrom(s, i, id, codes)) == InFlight(s) && SubackFrom(s, i, id, codes).wire == s.wire
    decreases |s.acks| - i
  {
    hide OutKeys, RelIds;
    if i < |s.acks| {
      var n := s.acks[i];
      if n.id != id {
        SubackFromEffect(s, i + 1, id, codes);
      } else {
        assert n in s.acks;
        var r := if n.kind == SUBACK then SettleNode(s, n, codes) else Settling(s, codes);
        assert StateOk(r.state);
        RemoveQuiet(r.state, i);
        SubackFromEffect(Destroy(RemoveAck(r.state, i), n), i, id, r.codes);
      }
    }
  }

  /** One step of the UNSUBACK loop on a node of its id. */
  function UnsubackNode(s: State, i: nat): State
    requires i < |s.acks|
  {
    var n := s.acks[i];
    var done := Destroy(RemoveAck(s, i), n);
    if n.kind != UNSUBACK then done
    else
      var j := FindSub(s.subs, n.msg.topic);
      if j == |s.subs| then Log(done, UnSubscribed(n.msg))
      else Log(done.(subs := RemoveAt(s.subs, j)), UnSubscribed(n.msg.(qos := s.subs[j].qos)))
  }

  lemma {:induction false} UnsubackFromEffect(s: State, i: nat, id: u16)
    requires StateOk(s) && OnlySubscriptionsUse(s, id)
    ensures Keeps(s, UnsubackFrom(s, i, id)) && QuietEvents(s, UnsubackFrom(s, i, id))
    ensures InFlight(UnsubackFrom(s, i, id)) == InFlight(s) && UnsubackFrom(s, i, id).wire == s.wire
    decreases |s.acks| - i
  {
    hide OutKeys, RelIds;
    if i < |s.acks| {
      if s.acks[i].id != id {
        UnsubackFromEffect(s, i + 1, id);
      } else {
        assert s.acks[i] in s.acks;
        RemoveQuiet(s, i);
        var next := UnsubackNode(s, i);
        assert StateOk(next) && InFlight(next) == InFlight(s);
        UnsubackFromEffect(next, i, id);
      }
    }
  }

  lemma {:induction false} ClearAcksSplit(nodes: seq<AckNode>, kind: Kind, id: u16)
    ensures OutKeys(nodes) == OutKeys(WithoutAcks(nodes, kind, id)) + OutKeys(OnlyAcks(nodes, kind, id))
    ensures RelIds(nodes) == RelIds(WithoutAcks(nodes, kind, id)) + RelIds(OnlyAcks(nodes, kind, id))
  {
    hide KeyBag, RelBag;
    if nodes != [] {
      ClearAcksSplit(nodes[1..], kind, id);
      var without, only := WithoutAcks(nodes[1..], kind, id), OnlyAcks(nodes[1..], kind, id);
      if Waits(nodes[0], kind, id) {
        assert OnlyAcks(nodes, kind, id)[1..] == only;
        BagSplit(KeyBag(nodes[0]), OutKeys(without), OutKeys(only));
        BagSplit(RelBag(nodes[0]), RelIds(without), RelIds(only));
      } else {
        assert WithoutAcks(nodes, kind, id)[1..] == without;
        BagSplit(KeyBag(nodes[0]), OutKeys(without), OutKeys(only));
        BagSplit(RelBag(nodes[0]), RelIds(without), RelIds(only));
      }
    }
  }

  lemma {:induction false} BagSplit<T>(a: multiset<T>, b: multiset<T>, c: multiset<T>)
    ensures a + (b + c) == b + (a + c) == (a + b) + c
  {
  }

  lemma {:induction false} ClearAcksMembers(nodes: seq<AckNode>, kind: Kind, id: u16)
    ensures forall n | n in WithoutAcks(nodes, kind, id) :: n in nodes && !Waits(n, kind, id)
    ensures forall n | n in OnlyAcks(nodes, kind, id) :: n in nodes && Waits(n, kind, id)
  {
    if nodes != [] {
      ClearAcksMembers(nodes[1..], kind, id);
    }
  }

  lemma {:induction false} ClearedKey(nodes: seq<AckNode>, kind: Kind, id: u16, k: Key)
    ensures OutKeys(WithoutAcks(nodes, kind, id))[k] == if k.0 == kind && k.1 == id then 0 else OutKeys(nodes)[k]
  {
    ClearAcksSplit(nodes, kind, id);
    ClearAcksMembers(nodes, kind, id);
    KeyPresent(WithoutAcks(nodes, kind, id), k);
    KeyPresent(OnlyAcks(nodes, kind, id), k);
  }

  /** The keys without those of `kind` and `id`. */
  ghost predicate Cleared(before: multiset<Key>, kind: Kind, id: u16, after: multiset<Key>) {
    forall k: Key :: after[k] == if k.0 == kind && k.1 == id then 0 else before[k]
  }

  /** Rolling back a kind: its nodes with that id go from both lists, nothing else does. */
  lemma {:induction false} ClearAcksEffect(s: State, kind: Kind, id: u16)
    requires StateOk(s) && kind != PUBREL
    ensures StateOk(ClearAcks(s, kind, id)) && ClearAcks(s, kind, id).config == s.config
    ensures ClearAcks(s, kind, id).wire == s.wire && ClearAcks(s, kind, id).events == s.events
    ensures InFlight(ClearAcks(s, kind, id)).rel == InFlight(s).rel
    ensures Cleared(InFlight(s).acks, kind, id, InFlight(ClearAcks(s, kind, id)).acks)
    ensures Cleared(InFlight(s).user, kind, id, InFlight(ClearAcks(s, kind, id)).user)
  {
    hide OutKeys, RelIds;
    ClearAcksMembers(s.acks, kind, id);
    ClearAcksMembers(s.userAcks, kind, id);
    ClearAcksSplit(s.acks, kind, id);
    OnlyRel(OnlyAcks(s.acks, kind, id), kind, id);
    forall k: Key
      ensures InFlight(ClearAcks(s, kind, id)).acks[k] == if k.0 == kind && k.1 == id then 0 else InFlight(s).acks[k]
      ensures InFlight(ClearAcks(s, kind, id)).user[k] == if k.0 == kind && k.1 == id then 0 else InFlight(s).user[k]
    {
      ClearedKey(s.acks, kind, id, k);
      ClearedKey(s.userAcks, kind, id, k);
    }
  }

  lemma {:induction false} OnlyRel(nodes: seq<AckNode>, kind: Kind, id: u16)
    requires kind != PUBREL && forall n | n in nodes :: Waits(n, kind, id)
    ensures RelIds(nodes) == multiset{}
  {
    if nodes != [] {
      assert nodes[0] in nodes;
      OnlyRel(nodes[1..], kind, id);
    }
  }

  lemma {:induction false} UserHead(s: State)
    requires StateOk(s) && s.userAcks != []
    ensures StateOk(s.(userAcks := s.userAcks[1..])) && NodeOk(s.userAcks[0]) && s.userAcks[0].kind != PUBREL
    ensures OutKeys(s.userAcks) == KeyBag(s.userAcks[0]) + OutKeys(s.userAcks[1..])
  {
    assert s.userAcks[0] in s.userAcks;
  }

  lemma {:induction false} SyncStep(s: State)
    requires StateOk(s) && s.userAcks != []
    ensures var r := AddAck(s.(userAcks := s.userAcks[1..]), s.userAcks[0]);
            StateOk(r) && r.config == s.config && r.wire == s.wire && QuietEvents(s, r)
    ensures var r := AddAck(s.(userAcks := s.userAcks[1..]), s.userAcks[0]);
            && InFlight(r).rel == InFlight(s).rel
            && InFlight(r).acks + InFlight(r).user == InFlight(s).acks + InFlight(s).user
    ensures var r := AddAck(s.(userAcks := s.userAcks[1..]), s.userAcks[0]);
            r.acks + r.userAcks == s.acks + s.userAcks
  {
    hide OutKeys, RelIds;
    UserHead(s);
    hide StateOk, NodeOk;
    var n := s.userAcks[0];
    AddAckEffect(s.(userAcks := s.userAcks[1..]), n);
    BagSplit(OutKeys(s.acks), KeyBag(n), OutKeys(s.userAcks[1..]));
  }

  /** Moving the user list over. */
  lemma {:induction false} SyncEffect(s: State)
    requires StateOk(s)
    ensures StateOk(Sync(s)) && Sync(s).config == s.config && Sync(s).wire == s.wire && QuietEvents(s, Sync(s))
    ensures Sync(s).userAcks == [] && Sync(s).acks == s.acks + s.userAcks
    ensures InFlight(Sync(s)).rel == InFlight(s).rel && InFlight(Sync(s)).user == multiset{}
    ensures InFlight(Sync(s)).acks == InFlight(s).acks + InFlight(s).user
    decreases |s.userAcks|
  {
    hide StateOk;
    if s.userAcks != [] {
      SyncStep(s);
      var r := AddAck(s.(userAcks := s.userAcks[1..]), s.userAcks[0]);
      assert r.userAcks == s.userAcks[1..] && Sync(s) == Sync(r);
      hide OutKeys, RelIds, QuietEvents, AddAck, Sync, InFlight;
      SyncEffect(r);
      QuietChain(s, r, Sync(r));
    } else {
      assert s.acks + [] == s.acks;
    }
  }

  lemma {:induction false} QuietChain(s: State, r: State, t: State)
    requires QuietEvents(s, r) && QuietEvents(r, t)
    ensures QuietEvents(s, t)
  {
  }

  // ---------------------------------------------------------------- the resend scan

  /** Packets a scan may send: the stored packet of a node in flight, a PUBLISH always with DUP. */
  ghost predicate MayRepeat(f: Flight, p: Packet) {
    match p
    case Publish(dup, qos, id, _, body) => dup && qos > 0 && (PublishKind(qos), id, body) in f.acks
    case Pubrel(id) => exists b: nat :: (PUBCOMP, id, b) in f.acks
    case Pubrec(id) => id in f.rel
    case _ => false
  }

  /** `r` has sent only such packets since `s`. */
  ghost predicate Repeats(f: Flight, s: State, r: State) {
    && s.wire <= r.wire
    && forall i | |s.wire| <= i < |r.wire| :: MayRepeat(f, r.wire[i])
  }

  lemma {:induction false} RepeatsTransitive(f: Flight, s: State, r: State, t: State)
    requires Repeats(f, s, r) && Repeats(f, r, t) && QuietEvents(s, r) && QuietEvents(r, t)
    ensures Repeats(f, s, t) && QuietEvents(s, t)
  {
  }

  /** What a repeated node stores afterwards, and what was sent. */
  lemma {:induction false} ResentNode(n: AckNode, now: u32, config: Config, f: Flight)
    requires NodeOk(n) && Resendable(n.kind)
    requires OfPublish(n.kind) ==> KeyOf(n) in f.acks
    requires n.kind == PUBREL ==> n.id in f.rel
    ensures NodeOk(Resent(n, now, config)) && KeyOf(Resent(n, now, config)) == KeyOf(n)
    ensures MarkedDup(n).packet.Some? && MayRepeat(f, MarkedDup(n).packet.value)
    ensures WithDup(n.packet.value) == MarkedDup(n).packet.value
  {
    if n.kind == PUBCOMP {
      assert KeyOf(n) == (PUBCOMP, n.id, n.msg.userData);
    }
  }

  lemma {:induction false} NodesOkUpdate(nodes: seq<AckNode>, i: nat, n: AckNode)
    requires NodesOk(nodes) && i < |nodes| && NodeOk(n)
    ensures NodesOk(nodes[i := n])
  {
  }

  lemma {:induction false} ResendAtEffect(s: State, i: nat, now: u32, outcome: SendOutcome)
    requires StateOk(s) && i < |s.acks| && Resendable(s.acks[i].kind)
    ensures Keeps(s, ResendAt(s, i, now, outcome)) && QuietEvents(s, ResendAt(s, i, now, outcome))
    ensures InFlight(ResendAt(s, i, now, outcome)) == InFlight(s)
    ensures Repeats(InFlight(s), s, ResendAt(s, i, now, outcome))
    ensures ResendAt(s, i, now, outcome).acks == s.acks[i := Resent(s.acks[i], now, s.config)]
  {
    hide OutKeys, RelIds;
    var n := s.acks[i];
    assert n in s.acks;
    KeyPresent(s.acks, KeyOf(n));
    RelPresent(s.acks, n.id);
    ResentNode(n, now, s.config, InFlight(s));
    NodesOkUpdate(s.acks, i, Resent(n, now, s.config));
    KeysUpdate(s.acks, i, Resent(n, now, s.config));
    hide NodeOk, NodesOk;
  }

  lemma {:induction false} ExpireAtEffect(s: State, i: nat)
    requires StateOk(s) && i < |s.acks| && !Resendable(s.acks[i].kind)
    ensures Keeps(s, ExpireAt(s, i)) && QuietEvents(s, ExpireAt(s, i))
    ensures InFlight(ExpireAt(s, i)) == InFlight(s) && ExpireAt(s, i).wire == s.wire
  {
    hide OutKeys, RelIds;
    var n := s.acks[i];
    var told := if n.kind == SUBACK
                then Log(s.(subs := DropSubs(s.subs, SameTopicSameId(n.msg.topic, n.msg.packetId))),
                         SubscribedFailed(n.msg))
                else Log(s, UnSubscribedFailed(n.msg));
    assert told.acks == s.acks && told.userAcks == s.userAcks;
    RemoveQuiet(told, i);
  }

  lemma {:induction false} ScanFromEffect(s: State, i: nat, k: nat, wait: bool, window: Timer, throttle: u32,
                                         input: ScanInput)
    requires StateOk(s)
    ensures Keeps(s, ScanFrom(s, i, k, wait, window, throttle, input))
    ensures QuietEvents(s, ScanFrom(s, i, k, wait, window, throttle, input))
    ensures InFlight(ScanFrom(s, i, k, wait, window, throttle, input)) == InFlight(s)
    ensures Repeats(InFlight(s), s, ScanFrom(s, i, k, wait, window, throttle, input))
    decreases |s.acks| - i
  {
    hide OutKeys, RelIds, NodesOk;
    var now := input.clock(k);
    if i < |s.acks| && s.clientState == Connected && Remain(window, now) != 0 {
      var n := s.acks[i];
      var remain := Remain(n.timer, now);
      var least := if remain != 0 then Min(remain, throttle) else throttle;
      if remain != 0 && wait {
        ScanFromEffect(s, i + 1, k + 1, wait, window, least, input);
      } else if Resendable(n.kind) {
        var next := ResendAt(s, i, now, input.sends(k));
        ResendAtEffect(s, i, now, input.sends(k));
        ScanFromEffect(next, i + 1, k + 1, wait, window, least, input);
        RepeatsTransitive(InFlight(s), s, next, ScanFrom(s, i, k, wait, window, throttle, input));
      } else {
        var next := ExpireAt(s, i);
        ExpireAtEffect(s, i);
        ScanFromEffect(next, i, k + 1, wait, window, least, input);
        RepeatsTransitive(InFlight(s), s, next, ScanFrom(s, i, k, wait, window, throttle, input));
      }
    }
  }

  /** A scan keeps the nodes in flight; what it sends is what they store. */
  lemma {:induction false} ScanEffect(s: State, wait: bool, input: ScanInput)
    requires StateOk(s)
    ensures Keeps(s, Scan(s, wait, input)) && QuietEvents(s, Scan(s, wait, input))
    ensures InFlight(Scan(s, wait, input)) == InFlight(s)
    ensures Repeats(InFlight(s), s, Scan(s, wait, input))
  {
    var now := input.clock(0);
    ScanFromEffect(s, 0, 0, wait, Timer(now, ScanWindow(s.config)), 1000, input);
  }

  // ---------------------------------------------------------------- which nodes a scan turns to

  /** A scan may turn to the node: at once after a reconnect, otherwise when its timer has run out at some reading. */
  ghost predicate ComesDue(n: AckNode, wait: bool, input: ScanInput) {
    !wait || exists k: nat :: Remain(n.timer, input.clock(k)) == 0
  }

  /** A PUBLISH that is sent belongs to a due node among `nodes`. */
  ghost predicate SentForDue(nodes: seq<AckNode>, wait: bool, input: ScanInput, p: Packet) {
    p.Publish? ==> exists n :: n in nodes && OfPublish(n.kind) && n.msg.userData == p.body && ComesDue(n, wait, input)
  }

  /** All packets sent since `s` do. */
  ghost predicate SendsForDue(nodes: seq<AckNode>, wait: bool, input: ScanInput, s: State, r: State) {
    && s.wire <= r.wire
    && forall j | |s.wire| <= j < |r.wire| :: SentForDue(nodes, wait, input, r.wire[j])
  }

  lemma {:induction false} ResendsDue(s: State, i: nat, k: nat, wait: bool, input: ScanInput)
    requires i < |s.acks| && Resendable(s.acks[i].kind) && NodeOk(s.acks[i])
    requires Remain(s.acks[i].timer, input.clock(k)) == 0 || !wait
    ensures SendsForDue(s.acks[i..], wait, input, s, ResendAt(s, i, input.clock(k), input.sends(k)))
    ensures ResendAt(s, i, input.clock(k), input.sends(k)).acks[i + 1..] == s.acks[i + 1..]
  {
    assert s.acks[i] in s.acks[i..] && ComesDue(s.acks[i], wait, input);
  }

  lemma {:induction false} DueChain(nodes: seq<AckNode>, rest: seq<AckNode>, wait: bool, input: ScanInput,
                                   s: State, r: State, t: State)
    requires SendsForDue(nodes, wait, input, s, r) && SendsForDue(rest, wait, input, r, t)
    requires forall n | n in rest :: n in nodes
    ensures SendsForDue(nodes, wait, input, s, t)
  {
    hide ComesDue;
    forall j | |s.wire| <= j < |t.wire| ensures SentForDue(nodes, wait, input, t.wire[j]) {
      if j < |r.wire| {
        assert r.wire[j] == t.wire[j];
      } else {
        assert SentForDue(rest, wait, input, t.wire[j]);
      }
    }
  }

  lemma {:induction false} DueMore(nodes: seq<AckNode>, rest: seq<AckNode>, wait: bool, input: ScanInput, s: State, r: State)
    requires SendsForDue(rest, wait, input, s, r) && forall n | n in rest :: n in nodes
    ensures SendsForDue(nodes, wait, input, s, r)
  {
    hide ComesDue;
    forall j | |s.wire| <= j < |r.wire| ensures SentForDue(nodes, wait, input, r.wire[j]) {
      assert SentForDue(rest, wait, input, r.wire[j]);
    }
  }

  lemma {:induction false} SameWire(nodes: seq<AckNode>, wait: bool, input: ScanInput, s: State, r: State, t: State)
    requires SendsForDue(nodes, wait, input, r, t) && s.wire == r.wire
    ensures SendsForDue(nodes, wait, input, s, t)
  {
  }

  lemma {:induction false} ScanFromSendsDue(s: State, i: nat, k: nat, wait: bool, window: Timer, throttle: u32,
                                           input: ScanInput)
    requires i <= |s.acks| && forall n | n in s.acks[i..] :: NodeOk(n)
    ensures SendsForDue(s.acks[i..], wait, input, s, ScanFrom(s, i, k, wait, window, throttle, input))
    decreases |s.acks| - i
  {
    hide ComesDue, ResendAt, Remain, NodeOk, SentForDue;
    var now := input.clock(k);
    if i < |s.acks| && s.clientState == Connected && Remain(window, now) != 0 {
      hide SendsForDue;
      var n := s.acks[i];
      assert n in s.acks[i..] && forall m | m in s.acks[i + 1..] :: m in s.acks[i..];
      var remain := Remain(n.timer, now);
      var least := if remain != 0 then Min(remain, throttle) else throttle;
      var r := ScanFrom(s, i, k, wait, window, throttle, input);
      if remain != 0 && wait {
        ScanFromSendsDue(s, i + 1, k + 1, wait, window, least, input);
        DueMore(s.acks[i..], s.acks[i + 1..], wait, input, s, r);
      } else if Resendable(n.kind) {
        var next := ResendAt(s, i, now, input.sends(k));
        ResendsDue(s, i, k, wait, input);
        ScanFromSendsDue(next, i + 1, k + 1, wait, window, least, input);
        DueChain(s.acks[i..], s.acks[i + 1..], wait, input, s, next, r);
      } else {
        var next := ExpireAt(s, i);
        assert next.acks[i..] == s.acks[i + 1..] && next.wire == s.wire;
        ScanFromSendsDue(next, i, k + 1, wait, window, least, input);
        DueMore(s.acks[i..], s.acks[i + 1..], wait, input, next, r);
        SameWire(s.acks[i..], wait, input, s, next, r);
      }
    }
  }

  /** A scan repeats a PUBLISH only for a node that is due; a throttled one, or one without a connection, none. */
  lemma {:induction false} ScanSendsDue(s: State, wait: bool, input: ScanInput)
    requires StateOk(s)
    ensures SendsForDue(s.acks, wait, input, s, Scan(s, wait, input))
    ensures s.clientState != Connected || Remain(s.scanThrottle, input.clock(0)) != 0 ==> Scan(s, wait, input) == s
  {
    assert s.acks[0..] == s.acks;
    ScanFromSendsDue(s, 0, 0, wait, Timer(input.clock(0), ScanWindow(s.config)), 1000, input);
  }
}
