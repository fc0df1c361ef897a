/** The subscription table: what SUBSCRIBE, SUBACK, a timeout and a rollback make of it. */
module Subscriptions {
  import opened Bytes
  import opened Common
  import opened PacketIds
  import opened Session
  import opened Effects
  import opened Limits

  // ---------------------------------------------------------------- entries by filter

  /** The entries whose filter satisfies `p`, in order. */
  function Entries(subs: seq<Msg>, p: string -> bool): seq<Msg> {
    if subs == [] then [] else (if p(subs[0].topic) then [subs[0]] else []) + Entries(subs[1..], p)
  }

  /** How many entries for `t` wait for the reply to SUBSCRIBE `id`. */
  function Pending(subs: seq<Msg>, id: u16, t: string): nat {
    if subs == [] then 0
    else (if subs[0].topic == t && subs[0].packetId == id then 1 else 0) + Pending(subs[1..], id, t)
  }

  function Is(t: string): string -> bool {
    (u: string) => u == t
  }

  function Filters(nodes: seq<AckNode>): (r: seq<string>)
    ensures |r| == |nodes|
    ensures forall k | 0 <= k < |nodes| :: r[k] == nodes[k].msg.topic
  {
    if nodes == [] then [] else [nodes[0].msg.topic] + Filters(nodes[1..])
  }

  lemma {:induction false} EntriesAppend(a: seq<Msg>, b: seq<Msg>, p: string -> bool)
    ensures Entries(a + b, p) == Entries(a, p) + Entries(b, p)
  {
    if a == [] {
      assert a + b == b;
    } else {
      assert (a + b)[1..] == a[1..] + b;
      EntriesAppend(a[1..], b, p);
    }
  }

  lemma {:induction false} PendingAppend(a: seq<Msg>, b: seq<Msg>, id: u16, t: string)
    ensures Pending(a + b, id, t) == Pending(a, id, t) + Pending(b, id, t)
  {
    if a == [] {
      assert a + b == b;
    } else {
      assert (a + b)[1..] == a[1..] + b;
      PendingAppend(a[1..], b, id, t);
    }
  }

  // ---------------------------------------------------------------- dropping older entries of a filter

  lemma {:induction false} DropOlder(subs: seq<Msg>, t: string, id: u16, p: string -> bool)
    requires !p(t)
    ensures Entries(DropSubs(subs, SameTopicOtherId(t, id)), p) == Entries(subs, p)
  {
    if subs != [] {
      DropOlder(subs[1..], t, id, p);
      if !Selects(SameTopicOtherId(t, id), subs[0]) {
        assert ([subs[0]] + DropSubs(subs[1..], SameTopicOtherId(t, id)))[1..] ==
               DropSubs(subs[1..], SameTopicOtherId(t, id));
      }
    }
  }

  lemma {:induction false} DropOlderPending(subs: seq<Msg>, t: string, id: u16, u: string)
    ensures Pending(DropSubs(subs, SameTopicOtherId(t, id)), id, u) == Pending(subs, id, u)
    ensures forall m | m in DropSubs(subs, SameTopicOtherId(t, id)) && m.topic == t :: m.packetId == id
  {
    if subs != [] {
      DropOlderPending(subs[1..], t, id, u);
      if !Selects(SameTopicOtherId(t, id), subs[0]) {
        assert ([subs[0]] + DropSubs(subs[1..], SameTopicOtherId(t, id)))[1..] ==
               DropSubs(subs[1..], SameTopicOtherId(t, id));
      }
    }
  }

  /** All entries of `t` waiting for `id`: their number. */
  lemma {:induction false} AllPending(subs: seq<Msg>, t: string, id: u16)
    requires forall m | m in subs && m.topic == t :: m.packetId == id
    ensures |Entries(subs, Is(t))| == Pending(subs, id, t)
    ensures Pending(subs, id, t) > 0 ==> FindSub(subs, t) < |subs|
  {
    if subs != [] {
      assert subs[0] in subs;
      AllPending(subs[1..], t, id);
    }
  }

  // ---------------------------------------------------------------- one entry settled or removed

  lemma {:induction false} Cut(subs: seq<Msg>, j: nat, m: Msg, p: string -> bool)
    requires j < |subs|
    ensures Entries(subs, p) == Entries(subs[..j], p) + Entries([subs[j]], p) + Entries(subs[j + 1..], p)
    ensures Entries(subs[j := m], p) == Entries(subs[..j], p) + Entries([m], p) + Entries(subs[j + 1..], p)
    ensures Entries(RemoveAt(subs, j), p) == Entries(subs[..j], p) + Entries(subs[j + 1..], p)
  {
    assert subs == subs[..j] + [subs[j]] + subs[j + 1..] && subs[j := m] == subs[..j] + [m] + subs[j + 1..];
    EntriesAppend(subs[..j] + [subs[j]], subs[j + 1..], p);
    EntriesAppend(subs[..j] + [m], subs[j + 1..], p);
    EntriesAppend(subs[..j], [subs[j]], p);
    EntriesAppend(subs[..j], [m], p);
    EntriesAppend(subs[..j], subs[j + 1..], p);
  }

  lemma {:induction false} CutPending(subs: seq<Msg>, j: nat, m: Msg, id: u16, t: string)
    requires j < |subs|
    ensures Pending(subs, id, t) == Pending(subs[..j], id, t) + Pending([subs[j]], id, t) + Pending(subs[j + 1..], id, t)
    ensures Pending(subs[j := m], id, t) == Pending(subs[..j], id, t) + Pending([m], id, t) + Pending(subs[j + 1..], id, t)
    ensures Pending(RemoveAt(subs, j), id, t) == Pending(subs[..j], id, t) + Pending(subs[j + 1..], id, t)
  {
    assert subs == subs[..j] + [subs[j]] + subs[j + 1..] && subs[j := m] == subs[..j] + [m] + subs[j + 1..];
    PendingAppend(subs[..j] + [subs[j]], subs[j + 1..], id, t);
    PendingAppend(subs[..j] + [m], subs[j + 1..], id, t);
    PendingAppend(subs[..j], [subs[j]], id, t);
    PendingAppend(subs[..j], [m], id, t);
    PendingAppend(subs[..j], subs[j + 1..], id, t);
  }

  lemma {:induction false} NoneBefore(subs: seq<Msg>, t: string)
    requires forall m | m in subs :: m.topic != t
    ensures Entries(subs, Is(t)) == []
  {
    if subs != [] {
      assert subs[0] in subs;
      NoneBefore(subs[1..], t);
    }
  }

  /** The table after one SUBACK node of filter `t` and code `c`. */
  function Settled(subs: seq<Msg>, t: string, id: u16, c: byte): seq<Msg> {
    var kept := DropSubs(subs, SameTopicOtherId(t, id));
    var j := FindSub(kept, t);
    if j == |kept| then kept
    else if c <= 2 then kept[j := kept[j].(qos := c, packetId := SETTLED)]
    else RemoveAt(kept, j)
  }

  /** Other filters keep their entries; of `t` one pending entry is settled or gone, and older ones are gone. */
  lemma {:induction false} SettledTable(subs: seq<Msg>, t: string, id: u16, c: byte)
    requires Pending(subs, id, t) > 0 && id != SETTLED
    ensures forall p: string -> bool | !p(t) :: Entries(Settled(subs, t, id, c), p) == Entries(subs, p)
    ensures forall u: string :: Pending(Settled(subs, t, id, c), id, u) ==
                                if u == t then Pending(subs, id, u) - 1 else Pending(subs, id, u)
    ensures Pending(subs, id, t) == 1 ==>
              var e := Entries(Settled(subs, t, id, c), Is(t));
              if c <= 2 then |e| == 1 && e[0].qos == c && e[0].packetId == SETTLED else e == []
  {
    var kept := DropSubs(subs, SameTopicOtherId(t, id));
    DropOlderPending(subs, t, id, t);
    AllPending(kept, t, id);
    var j := FindSub(kept, t);
    var m := kept[j].(qos := c, packetId := SETTLED);
    forall p: string -> bool | !p(t) ensures Entries(Settled(subs, t, id, c), p) == Entries(subs, p) {
      DropOlder(subs, t, id, p);
      Cut(kept, j, m, p);
    }
    forall u: string
      ensures Pending(Settled(subs, t, id, c), id, u) == if u == t then Pending(subs, id, u) - 1 else Pending(subs, id, u)
    {
      DropOlderPending(subs, t, id, u);
      CutPending(kept, j, m, id, u);
    }
    if Pending(subs, id, t) == 1 {
      Cut(kept, j, m, Is(t));
      NoneBefore(kept[..j], t);
      assert |Entries(kept, Is(t))| == 1;
    }
  }

  // ---------------------------------------------------------------- SUBACK

  /** Pending entries and SUBACK nodes of one SUBSCRIBE correspond, filter by filter. */
  ghost predicate Paired(subs: seq<Msg>, nodes: seq<AckNode>, id: u16) {
    forall t: string :: Pending(subs, id, t) == multiset(Filters(nodes))[t]
  }

  /** The code of the last node for `t`. */
  function LastCode(nodes: seq<AckNode>, codes: seq<byte>, t: string): byte
    requires |codes| == |nodes| && t in Filters(nodes)
  {
    if t in Filters(nodes[1..]) then LastCode(nodes[1..], codes[1..], t)
    else
      assert Filters(nodes)[1..] == Filters(nodes[1..]);
      codes[0]
  }

  /** What the application hears, node by node. */
  function Told(nodes: seq<AckNode>, codes: seq<byte>): seq<Event>
    requires |codes| == |nodes|
  {
    if nodes == [] then []
    else [if codes[0] <= 2 then Subscribed(nodes[0].msg) else SubscribedFailed(nodes[0].msg)]
         + Told(nodes[1..], codes[1..])
  }

  /** A filter of the batch has one entry, settled with the granted QoS, or none after a refusal; all other filters
      have the entries they had, in the order they had. */
  ghost predicate Granted(before: seq<Msg>, after: seq<Msg>, nodes: seq<AckNode>, codes: seq<byte>)
    requires |codes| == |nodes|
  {
    && (forall t | t in Filters(nodes) ::
          var e, c := Entries(after, Is(t)), LastCode(nodes, codes, t);
          if c <= 2 then |e| == 1 && e[0].qos == c && e[0].packetId == SETTLED else e == [])
    && (forall p: string -> bool | forall t | t in Filters(nodes) :: !p(t) :: Entries(after, p) == Entries(before, p))
  }

  lemma {:induction false} NodesFrom(acks: seq<AckNode>, i: nat, kind: Kind, id: u16)
    requires i < |acks|
    ensures OnlyAcks(acks[i..], kind, id) ==
            (if Waits(acks[i], kind, id) then [acks[i]] else []) + OnlyAcks(acks[i + 1..], kind, id)
    ensures OnlyAcks(RemoveAt(acks, i)[i..], kind, id) == OnlyAcks(acks[i + 1..], kind, id)
  {
  }

  /** One node taken, the rest of the batch follows. */
  lemma {:induction false} GrantedStep(subs: seq<Msg>, after: seq<Msg>, nodes: seq<AckNode>, codes: seq<byte>, id: u16)
    requires nodes != [] && |codes| == |nodes| && Paired(subs, nodes, id) && id != SETTLED
    requires var rest := Settled(subs, nodes[0].msg.topic, id, codes[0]);
             Granted(rest, after, nodes[1..], codes[1..])
    ensures Granted(subs, after, nodes, codes)
  {
    var q := nodes[0].msg.topic;
    var rest := Settled(subs, q, id, codes[0]);
    assert Filters(nodes) == [q] + Filters(nodes[1..]);
    assert Pending(subs, id, q) == multiset(Filters(nodes))[q];
    SettledTable(subs, q, id, codes[0]);
    forall t | t in Filters(nodes)
      ensures var e, c := Entries(after, Is(t)), LastCode(nodes, codes, t);
              if c <= 2 then |e| == 1 && e[0].qos == c && e[0].packetId == SETTLED else e == []
    {
      if t !in Filters(nodes[1..]) {
        assert t == q && multiset(Filters(nodes[1..]))[q] == 0;
        assert Entries(after, Is(q)) == Entries(rest, Is(q));
      }
    }
    forall p: string -> bool | forall t | t in Filters(nodes) :: !p(t)
      ensures Entries(after, p) == Entries(subs, p)
    {
      assert !p(q);
      assert forall t | t in Filters(nodes[1..]) :: !p(t);
    }
  }

  lemma {:induction false} PairedStep(subs: seq<Msg>, nodes: seq<AckNode>, id: u16, c: byte)
    requires nodes != [] && Paired(subs, nodes, id) && id != SETTLED
    ensures Paired(Settled(subs, nodes[0].msg.topic, id, c), nodes[1..], id)
    ensures Pending(subs, id, nodes[0].msg.topic) > 0
  {
    var q := nodes[0].msg.topic;
    assert Filters(nodes) == [q] + Filters(nodes[1..]);
    assert Pending(subs, id, q) == multiset(Filters(nodes))[q];
    SettledTable(subs, q, id, c);
    forall t: string ensures Pending(Settled(subs, q, id, c), id, t) == multiset(Filters(nodes[1..]))[t] {
      assert Pending(subs, id, t) == multiset(Filters(nodes))[t];
    }
  }

  lemma {:induction false} SubackGrants(s: State, i: nat, id: u16, codes: seq<byte>)
    requires i <= |s.acks| && id != SETTLED && NodesOk(s.acks)
    requires var nodes := OnlyAcks(s.acks[i..], SUBACK, id); |codes| == |nodes| && Paired(s.subs, nodes, id)
    ensures var nodes := OnlyAcks(s.acks[i..], SUBACK, id);
            && Granted(s.subs, SubackFrom(s, i, id, codes).subs, nodes, codes)
            && SubackFrom(s, i, id, codes).events == s.events + Told(nodes, codes)
    decreases |s.acks| - i
  {
    if i == |s.acks| {
      assert s.acks[i..] == [];
    } else {
      NodesFrom(s.acks, i, SUBACK, id);
      var n := s.acks[i];
      var left := OnlyAcks(s.acks[i + 1..], SUBACK, id);
      if n.id != id {
        assert [] + left == left;
        SubackGrants(s, i + 1, id, codes);
      } else if n.kind != SUBACK {
        assert [] + left == left;
        SubackGrants(Destroy(RemoveAck(s, i), n), i, id, codes);
      } else {
        var nodes := OnlyAcks(s.acks[i..], SUBACK, id);
        assert nodes == [n] + left && nodes[0] == n && nodes[1..] == left;
        SubackNode(s, i, id, codes, nodes);
      }
    }
  }

  lemma {:induction false} SubackNode(s: State, i: nat, id: u16, codes: seq<byte>, nodes: seq<AckNode>)
    requires i < |s.acks| && id != SETTLED && NodesOk(s.acks) && Waits(s.acks[i], SUBACK, id)
    requires nodes == OnlyAcks(s.acks[i..], SUBACK, id) && |codes| == |nodes| && Paired(s.subs, nodes, id)
    requires nodes != [] && nodes[0] == s.acks[i] && nodes[1..] == OnlyAcks(s.acks[i + 1..], SUBACK, id)
    ensures Granted(s.subs, SubackFrom(s, i, id, codes).subs, nodes, codes)
    ensures SubackFrom(s, i, id, codes).events == s.events + Told(nodes, codes)
    decreases |s.acks| - i, 0
  {
    var n := s.acks[i];
    assert n in s.acks && n.msg.packetId == id;
    PairedStep(s.subs, nodes, id, codes[0]);
    NodesFrom(s.acks, i, SUBACK, id);
    var next := SubackTurn(s, i, id, codes);
    hide Granted, Paired, Settled, SubackFrom;
    assert NodesOk(next.acks);
    SubackGrants(next, i, id, codes[1..]);
    GrantedStep(s.subs, SubackFrom(next, i, id, codes[1..]).subs, nodes, codes, id);
    ToldFirst(s.events, nodes, codes);
  }

  lemma {:induction false} ToldFirst(events: seq<Event>, nodes: seq<AckNode>, codes: seq<byte>)
    requires nodes != [] && |codes| == |nodes|
    ensures var m := nodes[0].msg;
            events + [if codes[0] <= 2 then Subscribed(m) else SubscribedFailed(m)] + Told(nodes[1..], codes[1..])
            == events + Told(nodes, codes)
  {
  }

  /** One turn of the loop at a SUBACK node of the id. */
  lemma {:induction false} SubackTurn(s: State, i: nat, id: u16, codes: seq<byte>) returns (next: State)
    requires i < |s.acks| && Waits(s.acks[i], SUBACK, id) && s.acks[i].msg.packetId == id && codes != []
    requires id != SETTLED && Pending(s.subs, id, s.acks[i].msg.topic) > 0
    ensures SubackFrom(s, i, id, codes) == SubackFrom(next, i, id, codes[1..])
    ensures next.acks == RemoveAt(s.acks, i) && next.subs == Settled(s.subs, s.acks[i].msg.topic, id, codes[0])
    ensures var m := s.acks[i].msg;
            next.events == s.events + [if codes[0] <= 2 then Subscribed(m) else SubscribedFailed(m)]
  {
    var n := s.acks[i];
    SettledNode(s, n, codes);
    hide SettleNode, Settled, Pending;
    next := Destroy(RemoveAck(SettleNode(s, n, codes).state, i), n);
  }

  lemma {:induction false} SettledNode(s: State, n: AckNode, codes: seq<byte>)
    requires codes != [] && n.msg.packetId != SETTLED && Pending(s.subs, n.msg.packetId, n.msg.topic) > 0
    ensures var r := SettleNode(s, n, codes);
            && r.state.subs == Settled(s.subs, n.msg.topic, n.msg.packetId, codes[0]) && r.codes == codes[1..]
            && r.state.events == s.events + [if codes[0] <= 2 then Subscribed(n.msg) else SubscribedFailed(n.msg)]
  {
    var kept := DropSubs(s.subs, SameTopicOtherId(n.msg.topic, n.msg.packetId));
    DropOlderPending(s.subs, n.msg.topic, n.msg.packetId, n.msg.topic);
    AllPending(kept, n.msg.topic, n.msg.packetId);
  }

  lemma {:induction false} NoneLeft(acks: seq<AckNode>, id: u16)
    ensures forall n | n in OtherIds(acks, id) :: n.id != id
  {
    OtherIdsOk(acks, id);
  }

  /** The filters of the entries waiting for `id`. */
  function PendingFilters(subs: seq<Msg>, id: u16): (r: seq<string>)
    ensures |r| == CountSubs(subs, id)
  {
    if subs == [] then []
    else (if subs[0].packetId == id then [subs[0].topic] else []) + PendingFilters(subs[1..], id)
  }

  lemma {:induction false} PendingIs(subs: seq<Msg>, id: u16, t: string)
    ensures multiset(PendingFilters(subs, id))[t] == Pending(subs, id, t)
  {
    if subs != [] {
      PendingIs(subs[1..], id, t);
    }
  }

  /** Paired entries and nodes are equally many. */
  lemma {:induction false} PairedCount(subs: seq<Msg>, nodes: seq<AckNode>, id: u16)
    requires Paired(subs, nodes, id)
    ensures CountSubs(subs, id) == |nodes|
  {
    forall t: string ensures multiset(PendingFilters(subs, id))[t] == multiset(Filters(nodes))[t] {
      PendingIs(subs, id, t);
      assert Pending(subs, id, t) == multiset(Filters(nodes))[t];
    }
    assert multiset(PendingFilters(subs, id)) == multiset(Filters(nodes));
    assert |multiset(PendingFilters(subs, id))| == |PendingFilters(subs, id)|;
  }

  /** SUBACK whose codes are as many as the pending entries of its SUBSCRIBE: each filter ends up as granted, repeated
      ones by their last code, every other filter is untouched, and no node of the id is left. */
  lemma {:induction false} SubackSettles(s: State, id: u16, codes: seq<byte>)
    requires id != SETTLED && StateOk(s) && SubackCodesValid(codes) && CountSubs(s.subs, id) == |codes|
    requires Paired(s.subs, OnlyAcks(s.acks, SUBACK, id), id)
    ensures |OnlyAcks(s.acks, SUBACK, id)| == |codes|
    ensures var r, nodes := OnSuback(s, id, codes), OnlyAcks(s.acks, SUBACK, id);
            && Granted(s.subs, r.subs, nodes, codes)
            && r.events == s.events + Told(nodes, codes)
            && r.acks == OtherIds(s.acks, id) && forall n | n in r.acks :: n.id != id
  {
    assert s.acks[0..] == s.acks;
    PairedCount(s.subs, OnlyAcks(s.acks, SUBACK, id), id);
    SubackGrants(s, 0, id, codes);
    SubackDestroys(s, 0, id, codes);
    assert s.acks[..0] + OtherIds(s.acks, id) == OtherIds(s.acks, id);
    NoneLeft(s.acks, id);
  }
}
