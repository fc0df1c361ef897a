/** UNSUBSCRIBE from the call to its UNSUBACK, in one step and in whole runs against any broker. */
module Unsubscribing {
  import opened Bytes
  import opened Common
  import opened Timers
  import opened PacketIds
  import opened Session
  import opened Requests
  import opened Operations
  import opened Effects
  import opened Limits
  import opened Subscriptions
  import opened Subscribing
  import opened Batches
  import opened Pairing

  // ---------------------------------------------------------------- the call

  /** The QoS of the first entry for `t`, 0x80 when there is none. */
  function KnownQos(subs: seq<Msg>, t: string): byte {
    var e := Entries(subs, Is(t));
    if e == [] then 0x80 else e[0].qos
  }

  lemma {:induction false} FirstEntry(subs: seq<Msg>, t: string)
    ensures FindSub(subs, t) < |subs| <==> Entries(subs, Is(t)) != []
    ensures FindSub(subs, t) < |subs| ==> Entries(subs, Is(t))[0] == subs[FindSub(subs, t)]
  {
    if subs != [] {
      FirstEntry(subs[1..], t);
    }
  }

  lemma {:induction false} MsgsOf(subs: seq<Msg>, topics: seq<string>, id: u16)
    ensures forall k | 0 <= k < |topics| ::
              UnsubMsgs(subs, topics, id)[k] == Msg(topics[k], KnownQos(subs, topics[k]), id, 0)
  {
    if topics != [] {
      MsgsOf(subs, topics[1..], id);
      FirstEntry(subs, topics[0]);
      var rest := UnsubMsgs(subs, topics[1..], id);
      forall k | 0 <= k < |topics|
        ensures UnsubMsgs(subs, topics, id)[k] == Msg(topics[k], KnownQos(subs, topics[k]), id, 0)
      {
        if k > 0 {
          assert UnsubMsgs(subs, topics, id)[k] == rest[k - 1] && topics[k] == topics[1..][k - 1];
        }
      }
    }
  }

  /** An UNSUBSCRIBE gets as far as its send exactly when the client is connected, every topic has a length, and there is
      memory for the list, the packet and two blocks a topic. */
  lemma {:induction false} UnsubscribeReady(s: State, topics: seq<string>, now: u32, memory: nat)
    ensures BeginUnsubscribe(s, topics, now, memory).ready <==> GoesOut(s, topics, 2 * |topics|, memory)
  {
    hide AddUserNodes, UnsubMsgs, ClearAcks;
  }

  /** Then it has one node for each topic, in order, behind the others of the user list, with the topic and the QoS of its
      subscription, its time just begun; and it changed nothing else but the id. */
  lemma {:induction false} UnsubscribeAdds(s: State, topics: seq<string>, now: u32, memory: nat)
    returns (nodes: seq<AckNode>)
    requires GoesOut(s, topics, 2 * |topics|, memory)
    ensures var id, r := NextPacketId(s.packetId), BeginUnsubscribe(s, topics, now, memory).state;
            && r == s.(packetId := id, userAcks := s.userAcks + nodes, nextAddress := r.nextAddress)
            && |nodes| == |topics|
            && forall k | 0 <= k < |topics| ::
                 && Waits(nodes[k], UNSUBACK, id) && nodes[k].packet == None
                 && nodes[k].timer == Timer(now, s.config.ackTimeout)
                 && nodes[k].msg == Msg(topics[k], KnownQos(s.subs, topics[k]), id, 0)
  {
    var id := NextPacketId(s.packetId);
    UnsubscribeReady(s, topics, now, memory);
    MsgsOf(s.subs, topics, id);
    nodes := BatchNodes(s.(packetId := id), UNSUBACK, id, UnsubMsgs(s.subs, topics, id), now);
    hide AddUserNodes, UnsubMsgs, KnownQos;
  }

  /** Otherwise both lists, the table, the wire and the events are as they were. */
  lemma {:induction false} UnsubscribeRestores(s: State, topics: seq<string>, now: u32, memory: nat)
    requires !GoesOut(s, topics, 2 * |topics|, memory)
    requires forall n | n in s.acks + s.userAcks :: !Waits(n, UNSUBACK, NextPacketId(s.packetId))
    ensures var r := BeginUnsubscribe(s, topics, now, memory).state;
            r.acks == s.acks && r.userAcks == s.userAcks && r.subs == s.subs && r.wire == s.wire && r.events == s.events
  {
    UnsubscribeReady(s, topics, now, memory);
    if TopicsValid(topics) && s.clientState == Connected && memory >= 2 {
      var id, part := NextPacketId(s.packetId), (memory - 2) / 2;
      var msgs := UnsubMsgs(s.subs, topics, id)[..part];
      var nodes := BatchNodes(s.(packetId := id), UNSUBACK, id, msgs, now);
      NoneCleared(s.acks, UNSUBACK, id);
      NoneCleared(s.userAcks, UNSUBACK, id);
      AllCleared(nodes, UNSUBACK, id);
      ClearedAppend(s.userAcks, nodes, UNSUBACK, id);
      assert s.userAcks + [] == s.userAcks;
      hide AddUserNodes, UnsubMsgs, WithoutAcks, OnlyAcks;
    }
  }

  /** An UNSUBSCRIBE that could not be sent: its nodes are gone from both lists, everything else stays, in order. */
  lemma {:induction false} UnsubscribeWithdraws(s: State, topics: seq<string>, id: u16, outcome: SendOutcome)
    requires outcome != Sent && (outcome == SocketError ==> !s.config.cleanSession)
    ensures var r := FinishUnsubscribe(s, topics, id, outcome);
            && r.acks == WithoutAcks(s.acks, UNSUBACK, id) && r.userAcks == WithoutAcks(s.userAcks, UNSUBACK, id)
            && r.subs == s.subs && r.wire == s.wire
            && (forall n | n in r.acks + r.userAcks :: !Waits(n, UNSUBACK, id))
  {
    ClearAcksMembers(s.acks, UNSUBACK, id);
    ClearAcksMembers(s.userAcks, UNSUBACK, id);
  }

  // ---------------------------------------------------------------- what UNSUBACK tells

  /** The QoS told of the `k`-th node: of the entry it takes, which is the first the nodes before it left, or its own. */
  function TakenQos(subs: seq<Msg>, nodes: seq<AckNode>, k: nat): byte
    requires k < |nodes|
  {
    var e, c := Entries(subs, Is(nodes[k].msg.topic)), Times(nodes[..k], nodes[k].msg.topic);
    if c < |e| then e[c].qos else nodes[k].msg.qos
  }

  /** The table without the first entry of `q`. */
  ghost predicate LessOne(subs: seq<Msg>, left: seq<Msg>, q: string) {
    forall t: string :: Entries(left, Is(t)) == if t == q then Skip(Entries(subs, Is(t)), 1) else Entries(subs, Is(t))
  }

  lemma {:induction false} TakenLater(subs: seq<Msg>, left: seq<Msg>, n: AckNode, nodes: seq<AckNode>, k: nat)
    requires LessOne(subs, left, n.msg.topic) && k < |nodes|
    ensures TakenQos(subs, [n] + nodes, k + 1) == TakenQos(left, nodes, k)
  {
    var t, q := nodes[k].msg.topic, n.msg.topic;
    var e, f := Entries(subs, Is(t)), Entries(left, Is(t));
    assert f == if t == q then Skip(e, 1) else e;
    hide LessOne, Entries, Times;
    var all := [n] + nodes;
    assert all[k + 1] == nodes[k] && all[..k + 1] == [n] + nodes[..k];
    TimesAppend([n], nodes[..k], t);
    TimesOne(n, t);
    var c := Times(nodes[..k], t);
    assert TakenQos(left, nodes, k) == if c < |f| then f[c].qos else nodes[k].msg.qos;
    assert t == q && c < |f| ==> f[c] == e[c + 1];
  }

  /** The new events tell of each of the nodes, in order. */
  ghost predicate ToldOf(before: seq<Event>, after: seq<Event>, subs: seq<Msg>, nodes: seq<AckNode>) {
    && |after| == |before| + |nodes| && before <= after
    && forall k | 0 <= k < |nodes| ::
         after[|before| + k] == UnSubscribed(nodes[k].msg.(qos := TakenQos(subs, nodes, k)))
  }

  lemma {:induction false} ToldFirst(before: seq<Event>, mid: seq<Event>, after: seq<Event>, subs: seq<Msg>,
                                    left: seq<Msg>, n: AckNode, nodes: seq<AckNode>)
    requires mid == before + [UnSubscribed(n.msg.(qos := TakenQos(subs, [n], 0)))]
    requires ToldOf(mid, after, left, nodes) && LessOne(subs, left, n.msg.topic)
    ensures ToldOf(before, after, subs, [n] + nodes)
  {
    var all := [n] + nodes;
    assert TakenQos(subs, all, 0) == TakenQos(subs, [n], 0) by { assert all[..0] == [n][..0]; }
    hide TakenQos, LessOne;
    forall k | 0 <= k < |all|
      ensures after[|before| + k] == UnSubscribed(all[k].msg.(qos := TakenQos(subs, all, k)))
    {
      if k > 0 {
        TakenLater(subs, left, n, nodes, k - 1);
        assert after[|mid| + (k - 1)] == after[|before| + k] && all[k] == nodes[k - 1];
      } else {
        assert after[|before|] == mid[|before|];
      }
    }
  }

  /** UNSUBACK tells of every node of its UNSUBSCRIBE, in order, and of nothing else. */
  lemma {:induction false} UnsubackTells(s: State, i: nat, id: u16)
    requires i <= |s.acks|
    ensures ToldOf(s.events, UnsubackFrom(s, i, id).events, s.subs, OnlyAcks(s.acks[i..], UNSUBACK, id))
    decreases |s.acks| - i
  {
    hide TakenQos, UnsubackNode, LessOne;
    if i == |s.acks| {
      assert s.acks[i..] == [];
    } else {
      NodesFrom(s.acks, i, UNSUBACK, id);
      var n, left := s.acks[i], OnlyAcks(s.acks[i + 1..], UNSUBACK, id);
      assert [] + left == left;
      if n.id != id {
        UnsubackTells(s, i + 1, id);
      } else {
        var next := UnsubackNode(s, i);
        UnsubackNext(s, i, id);
        hide UnsubackFrom, OnlyAcks, ToldOf;
        UnsubackTells(next, i, id);
        UnsubackSays(s, i);
        if n.kind == UNSUBACK {
          ToldFirst(s.events, next.events, UnsubackFrom(next, i, id).events, s.subs, next.subs, n, left);
        }
      }
    }
  }

  lemma {:induction false} UnsubackSays(s: State, i: nat)
    requires i < |s.acks|
    ensures var n, next := s.acks[i], UnsubackNode(s, i);
            if n.kind == UNSUBACK
            then && next.events == s.events + [UnSubscribed(n.msg.(qos := TakenQos(s.subs, [n], 0)))]
                 && LessOne(s.subs, next.subs, n.msg.topic)
            else next.events == s.events && next.subs == s.subs
  {
    var n := s.acks[i];
    FirstEntry(s.subs, n.msg.topic);
    assert [n][..0] == [];
    TimesIn([], n.msg.topic);
    assert n.msg.(qos := n.msg.qos) == n.msg;
    if n.kind == UNSUBACK {
      forall t: string
        ensures Entries(UnsubackNode(s, i).subs, Is(t)) ==
                if t == n.msg.topic then Skip(Entries(s.subs, Is(t)), 1) else Entries(s.subs, Is(t))
      {
        UnsubackEntries(s, i, t);
      }
    }
  }

  // ---------------------------------------------------------------- in runs

  /** An UNSUBSCRIBE under way: begun as operation `i` under an id no other has, its nodes moved over since, and not
      touched. */
  ghost predicate UnsubUnderWay(config: Config, ops: seq<Op>, i: nat, topics: seq<string>, id: u16) {
    && i < |ops| && ops[i].UnsubscribeBegin? && ops[i].topics == topics
    && var s := After(config, ops[..i]);
    && GoesOut(s, topics, 2 * |topics|, ops[i].memory) && id == NextPacketId(s.packetId)
    && (forall n | n in s.acks + s.userAcks :: !Waits(n, UNSUBACK, id))
    && (exists j :: i < j < |ops| && ops[j].SyncLists?)
    && forall k | i < k < |ops| :: !Touches(After(config, ops[..k]), ops[k], UNSUBACK, id)
  }

  lemma {:induction false} AddedBatch(s: State, r: State, nodes: seq<AckNode>, id: u16)
    requires forall n | n in s.acks + s.userAcks :: !Waits(n, UNSUBACK, id)
    requires r.acks == s.acks && r.userAcks == s.userAcks + nodes && forall n | n in nodes :: Waits(n, UNSUBACK, id)
    ensures Batch(r, UNSUBACK, id) == nodes
  {
    NoneCleared(s.acks, UNSUBACK, id);
    NoneCleared(s.userAcks, UNSUBACK, id);
    AllCleared(nodes, UNSUBACK, id);
    ClearedAppend(s.userAcks, nodes, UNSUBACK, id);
    hide OnlyAcks;
    assert [] + ([] + nodes) == nodes;
  }

  lemma {:induction false} MovedBatch(s: State, id: u16)
    requires OnUser(s, UNSUBACK, id) == []
    ensures Batch(s, UNSUBACK, id) == OnlyAcks(s.acks, UNSUBACK, id)
  {
    var acks := OnlyAcks(s.acks, UNSUBACK, id);
    assert acks + [] == acks;
  }

  /** Then its nodes are on the list the UNSUBACK handler walks, one for each topic, in order. */
  lemma {:induction false} UnsubWaiting(config: Config, ops: seq<Op>, i: nat, topics: seq<string>, id: u16)
    requires UnsubUnderWay(config, ops, i, topics, id)
    ensures var nodes := OnlyAcks(After(config, ops).acks, UNSUBACK, id);
            && |nodes| == |topics|
            && forall k | 0 <= k < |topics| ::
                 nodes[k].msg == Msg(topics[k], KnownQos(After(config, ops[..i]).subs, topics[k]), id, 0)
  {
    var s0, begun := After(config, ops[..i]), ops[..i + 1];
    assert begun[..|begun| - 1] == ops[..i] && begun[|begun| - 1] == ops[i];
    var r := BeginUnsubscribe(s0, topics, ops[i].now, ops[i].memory).state;
    assert After(config, begun) == r;
    var nodes := UnsubscribeAdds(s0, topics, ops[i].now, ops[i].memory);
    AddedBatch(s0, r, nodes, id);
    hide Touches, BeginUnsubscribe, After, Perform, KnownQos, GoesOut, Batch, Waits;
    BatchFrom(config, ops, i + 1, UNSUBACK, id);
    MovedBatch(After(config, ops), id);
  }

  /** What the table, the list and the application have once the UNSUBACK is handled. */
  ghost predicate Unsubscribed(s: State, r: State, topics: seq<string>, id: u16, known: string -> byte) {
    && (forall t: string :: Entries(r.subs, Is(t)) == Skip(Entries(s.subs, Is(t)), multiset(topics)[t]))
    && (forall p: string -> bool | forall t | t in topics :: !p(t) :: Entries(r.subs, p) == Entries(s.subs, p))
    && (forall n | n in r.acks :: n.id != id)
    && AllTold(s.events, r.events, s.subs, topics, id, known)
  }

  /** The new events report every topic, in order, with the QoS of the entry taken or the one known at the call. */
  ghost predicate AllTold(before: seq<Event>, after: seq<Event>, subs: seq<Msg>, topics: seq<string>, id: u16,
                          known: string -> byte) {
    && |after| == |before| + |topics| && before <= after
    && forall k | 0 <= k < |topics| ::
         after[|before| + k] == UnSubscribed(Msg(topics[k], QosTold(subs, topics, k, known(topics[k])), id, 0))
  }

  /** The QoS of the entry the `k`-th topic takes: the first for it after those of earlier mentions; `own` without one. */
  function QosTold(subs: seq<Msg>, topics: seq<string>, k: nat, own: byte): byte
    requires k < |topics|
  {
    var e, c := Entries(subs, Is(topics[k])), multiset(topics[..k])[topics[k]];
    if c < |e| then e[c].qos else own
  }

  lemma {:induction false} NodesTold(before: seq<Event>, after: seq<Event>, subs: seq<Msg>, nodes: seq<AckNode>,
                                    topics: seq<string>, id: u16, known: string -> byte)
    requires ToldOf(before, after, subs, nodes) && |nodes| == |topics|
    requires forall k | 0 <= k < |topics| :: nodes[k].msg == Msg(topics[k], known(topics[k]), id, 0)
    ensures AllTold(before, after, subs, topics, id, known)
  {
    hide TakenQos, QosTold;
    forall k | 0 <= k < |topics|
      ensures after[|before| + k] == UnSubscribed(Msg(topics[k], QosTold(subs, topics, k, known(topics[k])), id, 0))
    {
      TakenSince(subs, nodes, topics, k);
      assert nodes[k].msg.qos == known(topics[k]);
    }
  }

  /** In any run against any broker: the UNSUBACK of an UNSUBSCRIBE that nothing touched takes, of each topic, as many
      entries as it was named, the first ones, and no others; leaves no node of the id; and reports every topic, in order,
      with the QoS of the entry taken. */
  lemma {:induction false} UnsubscribedInRun(config: Config, ops: seq<Op>, i: nat, topics: seq<string>, id: u16, now: u32,
                                            memory: nat, outcome: SendOutcome)
    requires UnsubUnderWay(config, ops, i, topics, id)
    ensures var s, s0 := After(config, ops), After(config, ops[..i]);
            Unsubscribed(s, Perform(s, Handle(Packet.Unsuback(id), now, memory, outcome)), topics, id,
                         (t: string) => KnownQos(s0.subs, t))
  {
    var s, s0 := After(config, ops), After(config, ops[..i]);
    assert id != 0;
    UnsubWaiting(config, ops, i, topics, id);
    UnsubackDispatched(s, id, now, memory, outcome);
    hide After, UnsubUnderWay, KnownQos, Perform, Unsubscribed, OnlyAcks;
    UnsubscribedBy(s, topics, id, (t: string) => KnownQos(s0.subs, t));
  }

  lemma {:induction false} UnsubackDispatched(s: State, id: u16, now: u32, memory: nat, outcome: SendOutcome)
    requires id != 0
    ensures Perform(s, Handle(Packet.Unsuback(id), now, memory, outcome)) == UnsubackFrom(s, 0, id)
  {
    hide UnsubackFrom;
  }

  lemma {:induction false} UnsubscribedBy(s: State, topics: seq<string>, id: u16, known: string -> byte)
    requires var nodes := OnlyAcks(s.acks, UNSUBACK, id);
             |nodes| == |topics| && forall k | 0 <= k < |topics| :: nodes[k].msg == Msg(topics[k], known(topics[k]), id, 0)
    ensures Unsubscribed(s, UnsubackFrom(s, 0, id), topics, id, known)
  {
    var nodes := OnlyAcks(s.acks, UNSUBACK, id);
    assert s.acks[0..] == s.acks;
    UnsubackTaken(s, topics, id);
    UnsubackTells(s, 0, id);
    UnsubackClears(s, id);
    hide UnsubackFrom, OnlyAcks, ToldOf, AllTold, Entries;
    NodesTold(s.events, UnsubackFrom(s, 0, id).events, s.subs, nodes, topics, id, known);
  }

  lemma {:induction false} UnsubackClears(s: State, id: u16)
    ensures forall n | n in UnsubackFrom(s, 0, id).acks :: n.id != id
  {
    UnsubackDestroys(s, 0, id);
    OtherIdsOk(s.acks, id);
    assert s.acks[0..] == s.acks && s.acks[..0] + OtherIds(s.acks, id) == OtherIds(s.acks, id);
  }

  /** The table after the UNSUBACK of an UNSUBSCRIBE that waits. */
  lemma {:induction false} UnsubackTaken(s: State, topics: seq<string>, id: u16)
    requires var nodes := OnlyAcks(s.acks, UNSUBACK, id);
             |nodes| == |topics| && forall k | 0 <= k < |topics| :: nodes[k].msg.topic == topics[k]
    ensures var r := UnsubackFrom(s, 0, id);
            && (forall t: string :: Entries(r.subs, Is(t)) == Skip(Entries(s.subs, Is(t)), multiset(topics)[t]))
            && (forall p: string -> bool | forall t | t in topics :: !p(t) :: Entries(r.subs, p) == Entries(s.subs, p))
  {
    var r, nodes := UnsubackFrom(s, 0, id), OnlyAcks(s.acks, UNSUBACK, id);
    assert s.acks[0..] == s.acks;
    TopicsAre(nodes, topics);
    hide UnsubackFrom, OnlyAcks, Entries;
    forall t: string ensures Entries(r.subs, Is(t)) == Skip(Entries(s.subs, Is(t)), multiset(topics)[t]) {
      UnsubackTable(s, 0, id, t);
    }
    forall p: string -> bool | forall t | t in topics :: !p(t) ensures Entries(r.subs, p) == Entries(s.subs, p) {
      forall n | n in s.acks && Waits(n, UNSUBACK, id) ensures !p(n.msg.topic) {
        WaitingIn(s.acks, n, UNSUBACK, id);
        var k :| 0 <= k < |nodes| && nodes[k] == n;
        assert topics[k] in topics;
      }
      UnsubackOthers(s, 0, id, p);
    }
  }

  lemma {:induction false} TakenSince(subs: seq<Msg>, nodes: seq<AckNode>, topics: seq<string>, k: nat)
    requires |nodes| == |topics| && k < |topics| && forall j | 0 <= j < |topics| :: nodes[j].msg.topic == topics[j]
    ensures TakenQos(subs, nodes, k) == QosTold(subs, topics, k, nodes[k].msg.qos)
  {
    TopicsAre(nodes[..k], topics[..k]);
    hide Entries, Times;
  }

  lemma {:induction false} TopicsAre(nodes: seq<AckNode>, topics: seq<string>)
    requires |nodes| == |topics| && forall k | 0 <= k < |topics| :: nodes[k].msg.topic == topics[k]
    ensures Filters(nodes) == topics && forall t: string :: Times(nodes, t) == multiset(topics)[t]
  {
    assert forall k | 0 <= k < |topics| :: Filters(nodes)[k] == topics[k];
  }

  lemma {:induction false} WaitingIn(nodes: seq<AckNode>, n: AckNode, kind: Kind, id: u16)
    requires n in nodes && Waits(n, kind, id)
    ensures n in OnlyAcks(nodes, kind, id)
  {
    if nodes[0] != n {
      WaitingIn(nodes[1..], n, kind, id);
    }
  }
}
