/** The nodes and the pending entries of one SUBSCRIBE, wherever its nodes are: which operations keep them paired. */
module Pairing {
  import opened Bytes
  import opened Common
  import opened Timers
  import opened PacketIds
  import opened Session
  import opened Requests
  import opened Effects
  import opened Limits
  import opened Subscriptions
  import opened Subscribing
  import opened Batches

  /** Nodes and pending entries of SUBSCRIBE `id` correspond, filter by filter. */
  ghost predicate PairedIn(s: State, id: u16) {
    Paired(s.subs, Batch(s, SUBACK, id), id)
  }

  /** How many of the nodes are for filter `t`. */
  function Times(nodes: seq<AckNode>, t: string): nat {
    multiset(Filters(nodes))[t]
  }

  // ---------------------------------------------------------------- filters of nodes

  lemma {:induction false} FiltersAppend(a: seq<AckNode>, b: seq<AckNode>)
    ensures Filters(a + b) == Filters(a) + Filters(b)
  {
    if a == [] {
      assert a + b == b;
    } else {
      assert (a + b)[1..] == a[1..] + b;
      FiltersAppend(a[1..], b);
    }
  }

  lemma {:induction false} TimesAppend(a: seq<AckNode>, b: seq<AckNode>, t: string)
    ensures Times(a + b, t) == Times(a, t) + Times(b, t)
  {
    FiltersAppend(a, b);
  }

  lemma {:induction false} TimesOne(n: AckNode, t: string)
    ensures Times([n], t) == if n.msg.topic == t then 1 else 0
  {
    assert Filters([n]) == [n.msg.topic];
  }

  lemma {:induction false} TimesIn(nodes: seq<AckNode>, t: string)
    ensures Times(nodes, t) > 0 <==> t in Filters(nodes)
    ensures t in Filters(nodes) <==> exists n :: n in nodes && n.msg.topic == t
  {
    if t in Filters(nodes) {
      var k :| 0 <= k < |nodes| && Filters(nodes)[k] == t;
      assert nodes[k] in nodes;
    }
    if n :| n in nodes && n.msg.topic == t {
      var k :| 0 <= k < |nodes| && nodes[k] == n;
      assert Filters(nodes)[k] == t;
    }
  }

  // ---------------------------------------------------------------- the entries of one id in the table

  lemma {:induction false} PendingWithout(subs: seq<Msg>, sel: Selector, id: u16, t: string)
    requires sel.WithId? ==> sel.id != id
    requires sel.SameTopicSameId? ==> sel.id != id || sel.topic != t
    requires sel.SameTopicOtherId? ==> sel.topic != t
    ensures Pending(DropSubs(subs, sel), id, t) == Pending(subs, id, t)
  {
    if subs != [] {
      PendingWithout(subs[1..], sel, id, t);
      var rest := DropSubs(subs[1..], sel);
      assert ([subs[0]] + rest)[1..] == rest;
    }
  }

  lemma {:induction false} NoPending(subs: seq<Msg>, id: u16, t: string)
    requires forall m | m in subs :: m.topic != t || m.packetId != id
    ensures Pending(subs, id, t) == 0
  {
    if subs != [] {
      assert subs[0] in subs;
      NoPending(subs[1..], id, t);
    }
  }

  lemma {:induction false} SomePending(subs: seq<Msg>, m: Msg)
    requires m in subs
    ensures Pending(subs, m.packetId, m.topic) > 0
  {
    if subs[0] != m {
      SomePending(subs[1..], m);
    }
  }

  /** A batch dropped filter by filter. */
  lemma {:induction false} PendingBatch(subs: seq<Msg>, requests: seq<Request>, i: u16, id: u16, t: string)
    ensures Pending(DropBatch(subs, requests, i), id, t) ==
            if i == id && t in Topics(requests) then 0 else Pending(subs, id, t)
    decreases |requests|
  {
    if requests != [] {
      var topic := requests[0].topic;
      PendingBatch(DropSubs(subs, SameTopicSameId(topic, i)), requests[1..], i, id, t);
      if i == id {
        DropPending(subs, topic, id, t);
      } else {
        PendingWithout(subs, SameTopicSameId(topic, i), id, t);
      }
    }
  }

  // ---------------------------------------------------------------- steps that change neither

  lemma {:induction false} EmptiedPairs(r: State, id: u16)
    requires Emptied(r)
    ensures PairedIn(r, id) && Batch(r, SUBACK, id) == []
  {
  }

  lemma {:induction false} SparesPairs(s: State, r: State, id: u16)
    requires Spares(s, r, SUBACK, id) && PairedIn(s, id)
    ensures PairedIn(r, id)
  {
    if Emptied(r) {
      EmptiedPairs(r, id);
    }
  }

  // ---------------------------------------------------------------- a SUBACK

  /** The SUBACK of another SUBSCRIBE: pending entries of the filters it names go, all others stay. */
  lemma {:induction false} SubackElsewhere(s: State, i: nat, other: u16, codes: seq<byte>, id: u16, t: string)
    requires i <= |s.acks| && NodesOk(s.acks) && other != id && id != SETTLED
    ensures Pending(SubackFrom(s, i, other, codes).subs, id, t) ==
            if t in Filters(OnlyAcks(s.acks[i..], SUBACK, other)) then 0 else Pending(s.subs, id, t)
    decreases |s.acks| - i
  {
    hide Filters;
    if i == |s.acks| {
      assert s.acks[i..] == [];
      TimesIn([], t);
    } else {
      NodesFrom(s.acks, i, SUBACK, other);
      var n := s.acks[i];
      var left := OnlyAcks(s.acks[i + 1..], SUBACK, other);
      assert n in s.acks && [] + left == left;
      if n.id != other {
        SubackElsewhere(s, i + 1, other, codes, id, t);
      } else {
        var r := if n.kind == SUBACK then SettleNode(s, n, codes) else Settling(s, codes);
        var next := Destroy(RemoveAck(r.state, i), n);
        assert NodesOk(next.acks);
        SubackElsewhere(next, i, other, r.codes, id, t);
        hide SubackFrom, SettleNode, OnlyAcks;
        if n.kind == SUBACK {
          SettledElsewhere(s, n, codes, id, t);
          FirstFilter(n, left, t);
        }
      }
    }
  }

  lemma {:induction false} FirstFilter(n: AckNode, left: seq<AckNode>, t: string)
    ensures t in Filters([n] + left) <==> t == n.msg.topic || t in Filters(left)
  {
    assert ([n] + left)[1..] == left;
  }

  lemma {:induction false} SettledElsewhere(s: State, n: AckNode, codes: seq<byte>, id: u16, t: string)
    requires n.msg.packetId != id && id != SETTLED
    ensures Pending(SettleNode(s, n, codes).state.subs, id, t) == if t == n.msg.topic then 0 else Pending(s.subs, id, t)
  {
    var sel := SameTopicOtherId(n.msg.topic, n.msg.packetId);
    var kept := DropSubs(s.subs, sel);
    DropMembers(s.subs, sel);
    if t == n.msg.topic {
      NoPending(kept, id, t);
    } else {
      PendingWithout(s.subs, sel, id, t);
    }
    var j := FindSub(kept, n.msg.topic);
    if j < |kept| && codes != [] {
      assert kept[j] in kept;
      CutPending(kept, j, kept[j].(qos := codes[0], packetId := SETTLED), id, t);
    }
  }

  /** Its own SUBACK takes node and entry together, for the nodes the loop finds. */
  lemma {:induction false} SubackOwn(s: State, i: nat, id: u16, codes: seq<byte>)
    requires i <= |s.acks| && NodesOk(s.acks) && id != SETTLED
    requires |codes| >= |OnlyAcks(s.acks[i..], SUBACK, id)|
    requires Paired(s.subs, OnlyAcks(s.acks[i..], SUBACK, id) + OnlyAcks(s.userAcks, SUBACK, id), id)
    ensures Paired(SubackFrom(s, i, id, codes).subs, OnlyAcks(s.userAcks, SUBACK, id), id)
    decreases |s.acks| - i
  {
    hide Paired, SettleNode;
    var user := OnlyAcks(s.userAcks, SUBACK, id);
    if i == |s.acks| {
      assert s.acks[i..] == [] && [] + user == user;
    } else {
      NodesFrom(s.acks, i, SUBACK, id);
      var n := s.acks[i];
      var left := OnlyAcks(s.acks[i + 1..], SUBACK, id);
      assert n in s.acks && [] + left == left;
      if n.id != id {
        SubackOwn(s, i + 1, id, codes);
      } else if n.kind != SUBACK {
        SubackOwn(Destroy(RemoveAck(s, i), n), i, id, codes);
      } else {
        assert OnlyAcks(s.acks[i..], SUBACK, id) == [n] + left;
        hide OnlyAcks;
        OwnPaired(s.subs, n, left + user, id, codes[0]) by { assert [n] + left + user == [n] + (left + user); }
        SettledNode(s, n, codes) by { PairedPending(s.subs, n, left + user, id); }
        var next := Destroy(RemoveAck(SettleNode(s, n, codes).state, i), n);
        OwnTurn(s, i, id, codes);
        hide Settled, SubackFrom;
        SubackOwn(next, i, id, codes[1..]);
      }
    }
  }

  lemma {:induction false} PairedPending(subs: seq<Msg>, n: AckNode, rest: seq<AckNode>, id: u16)
    requires Paired(subs, [n] + rest, id)
    ensures Pending(subs, id, n.msg.topic) > 0
  {
    assert ([n] + rest)[0] == n;
    assert Pending(subs, id, n.msg.topic) == multiset(Filters([n] + rest))[n.msg.topic];
  }

  lemma {:induction false} OwnPaired(subs: seq<Msg>, n: AckNode, rest: seq<AckNode>, id: u16, c: byte)
    requires Paired(subs, [n] + rest, id) && id != SETTLED
    ensures Paired(Settled(subs, n.msg.topic, id, c), rest, id)
  {
    var nodes := [n] + rest;
    assert nodes[0] == n && nodes[1..] == rest;
    PairedStep(subs, nodes, id, c);
  }

  /** One turn of the loop at a node of the id. */
  lemma {:induction false} OwnTurn(s: State, i: nat, id: u16, codes: seq<byte>)
    requires i < |s.acks| && Waits(s.acks[i], SUBACK, id) && NodesOk(s.acks)
    ensures var settled := SettleNode(s, s.acks[i], codes);
            var next := Destroy(RemoveAck(settled.state, i), s.acks[i]);
            && SubackFrom(s, i, id, codes) == SubackFrom(next, i, id, settled.codes)
            && next.acks == RemoveAt(s.acks, i) && NodesOk(next.acks) && next.userAcks == s.userAcks
            && next.subs == settled.state.subs
  {
  }

  /** The two have a filter in common. */
  ghost predicate Overlaps(s: State, other: u16, id: u16) {
    exists n, m :: n in OnlyAcks(s.acks, SUBACK, other) && m in Batch(s, SUBACK, id) && n.msg.topic == m.msg.topic
  }

  lemma {:induction false} OverlapsPending(s: State, other: u16, id: u16)
    requires PairedIn(s, id)
    ensures Overlaps(s, other, id) <==>
            exists t :: t in Filters(OnlyAcks(s.acks, SUBACK, other)) && Pending(s.subs, id, t) > 0
  {
    hide Filters;
    var nodes, batch := OnlyAcks(s.acks, SUBACK, other), Batch(s, SUBACK, id);
    if n, m :| n in nodes && m in batch && n.msg.topic == m.msg.topic {
      TimesIn(nodes, n.msg.topic);
      TimesIn(batch, n.msg.topic);
      assert Pending(s.subs, id, n.msg.topic) == multiset(Filters(batch))[n.msg.topic];
    }
    if t :| t in Filters(nodes) && Pending(s.subs, id, t) > 0 {
      TimesIn(nodes, t);
      assert Pending(s.subs, id, t) == multiset(Filters(batch))[t];
      TimesIn(batch, t);
    }
  }

  /** A SUBACK whose codes count right keeps another SUBSCRIBE paired exactly when the two share no filter. */
  lemma {:induction false} OtherSubackPairs(s: State, other: u16, codes: seq<byte>, id: u16)
    requires StateOk(s) && PairedIn(s, id) && other != id && id != SETTLED
    requires CountSubs(s.subs, other) == |codes|
    ensures PairedIn(OnSuback(s, other, codes), id) <==> !Overlaps(s, other, id)
    ensures Batch(OnSuback(s, other, codes), SUBACK, id) == Batch(s, SUBACK, id)
  {
    hide OnlyAcks, Filters;
    var r := OnSuback(s, other, codes);
    SubackDestroys(s, 0, other, codes);
    assert s.acks[0..] == s.acks && s.acks[..0] + OtherIds(s.acks, other) == OtherIds(s.acks, other);
    OnlyOthers(s.acks, other, SUBACK, id);
    OverlapsPending(s, other, id);
    assert r == SubackFrom(s, 0, other, codes);
    hide OnSuback, SubackFrom, Overlaps;
    var nodes, batch := OnlyAcks(s.acks, SUBACK, other), Batch(s, SUBACK, id);
    forall t: string
      ensures Pending(r.subs, id, t) == if t in Filters(nodes) then 0 else multiset(Filters(batch))[t]
      ensures Pending(s.subs, id, t) == multiset(Filters(batch))[t]
    {
      SubackElsewhere(s, 0, other, codes, id, t);
      assert Pending(s.subs, id, t) == multiset(Filters(batch))[t];
    }
    if t: string :| t in Filters(nodes) && Pending(s.subs, id, t) > 0 {
      assert Pending(r.subs, id, t) != multiset(Filters(batch))[t];
    }
  }

  /** A SUBACK keeps its own SUBSCRIBE paired, whatever its codes, and any other when its codes count wrong. */
  lemma {:induction false} SubackPairs(s: State, other: u16, codes: seq<byte>, id: u16)
    requires StateOk(s) && PairedIn(s, id) && id != SETTLED
    requires other == id || CountSubs(s.subs, other) != |codes|
    ensures PairedIn(OnSuback(s, other, codes), id)
    ensures other != id ==> Batch(OnSuback(s, other, codes), SUBACK, id) == Batch(s, SUBACK, id)
  {
    hide OnlyAcks, Filters;
    var r := OnSuback(s, other, codes);
    if CountSubs(s.subs, other) != |codes| {
      ClearSpares(s, SUBACK, other, SUBACK, id);
      DropMembers(s.subs, WithId(other));
      forall t: string ensures Pending(r.subs, id, t) == multiset(Filters(Batch(r, SUBACK, id)))[t] {
        if other == id {
          NoPending(r.subs, id, t);
          TimesIn([], t);
        } else {
          PendingWithout(s.subs, WithId(other), id, t);
          assert Pending(s.subs, id, t) == multiset(Filters(Batch(s, SUBACK, id)))[t];
        }
      }
    } else {
      PairedCount(s.subs, Batch(s, SUBACK, id), id);
      assert s.acks[0..] == s.acks;
      SubackOwn(s, 0, id, codes);
      SubackDestroys(s, 0, id, codes);
      assert s.acks[..0] + OtherIds(s.acks, id) == OtherIds(s.acks, id);
      OnlyOthers(s.acks, id, SUBACK, id);
      assert Batch(r, SUBACK, id) == OnlyAcks(s.userAcks, SUBACK, id);
    }
  }

  // ---------------------------------------------------------------- an UNSUBACK

  /** The first `k` entries gone. */
  function Skip(entries: seq<Msg>, k: nat): seq<Msg> {
    if k <= |entries| then entries[k..] else []
  }

  function First(entries: seq<Msg>, k: nat): seq<Msg> {
    if k <= |entries| then entries[..k] else entries
  }

  /** How many UNSUBACK nodes of `id` are for filter `t`. */
  function Asked(nodes: seq<AckNode>, id: u16, t: string): nat {
    Times(OnlyAcks(nodes, UNSUBACK, id), t)
  }

  lemma {:induction false} AskedFrom(acks: seq<AckNode>, i: nat, id: u16, t: string)
    requires i < |acks|
    ensures Asked(acks[i..], id, t) ==
            (if Waits(acks[i], UNSUBACK, id) && acks[i].msg.topic == t then 1 else 0) + Asked(acks[i + 1..], id, t)
    ensures RemoveAt(acks, i)[i..] == acks[i + 1..]
  {
    NodesFrom(acks, i, UNSUBACK, id);
    var left := OnlyAcks(acks[i + 1..], UNSUBACK, id);
    TimesAppend([acks[i]], left, t);
    TimesOne(acks[i], t);
    assert [] + left == left;
  }

  /** One entry of filter `q` taken out, the first. */
  lemma {:induction false} FirstTaken(subs: seq<Msg>, q: string, p: string -> bool)
    requires FindSub(subs, q) < |subs|
    ensures !p(q) ==> Entries(RemoveAt(subs, FindSub(subs, q)), p) == Entries(subs, p)
    ensures Entries(RemoveAt(subs, FindSub(subs, q)), Is(q)) == Skip(Entries(subs, Is(q)), 1)
  {
    var j := FindSub(subs, q);
    if !p(q) {
      OthersKept(subs, j, p);
    }
    Cut(subs, j, subs[j], Is(q));
    NoneBefore(subs[..j], q) by {
      assert forall m | m in subs[..j] :: m.topic != q;
    }
    EntriesOne(subs[j], Is(q));
    hide Entries, RemoveAt, FindSub;
    var rest := Entries(subs[j + 1..], Is(q));
    assert [] + [subs[j]] + rest == [subs[j]] + rest && ([subs[j]] + rest)[1..] == rest;
  }

  lemma {:induction false} OthersKept(subs: seq<Msg>, j: nat, p: string -> bool)
    requires j < |subs| && !p(subs[j].topic)
    ensures Entries(RemoveAt(subs, j), p) == Entries(subs, p)
  {
    Cut(subs, j, subs[j], p);
    EntriesOne(subs[j], p);
    hide Entries, RemoveAt;
    var before, after := Entries(subs[..j], p), Entries(subs[j + 1..], p);
    assert before + [] + after == before + after;
  }

  lemma {:induction false} EntriesOne(m: Msg, p: string -> bool)
    ensures Entries([m], p) == if p(m.topic) then [m] else []
  {
    assert [m][1..] == [];
  }

  lemma {:induction false} NoEntry(subs: seq<Msg>, q: string)
    requires FindSub(subs, q) == |subs|
    ensures Entries(subs, Is(q)) == []
  {
    forall m | m in subs ensures m.topic != q {
      var k :| 0 <= k < |subs| && subs[k] == m;
    }
    NoneBefore(subs, q);
  }

  lemma {:induction false} SkipMore(entries: seq<Msg>, k: nat)
    ensures Skip(Skip(entries, 1), k) == Skip(entries, 1 + k)
  {
  }

  lemma {:induction false} UnsubackNext(s: State, i: nat, id: u16)
    requires i < |s.acks| && s.acks[i].id == id
    ensures UnsubackFrom(s, i, id) == UnsubackFrom(UnsubackNode(s, i), i, id)
    ensures UnsubackNode(s, i).acks == RemoveAt(s.acks, i)
  {
  }

  /** What UNSUBACK does to the table: of each filter it takes as many entries as the UNSUBSCRIBE named it times, the
      first ones; entries of filters it did not name stay in their order. */
  lemma {:induction false} UnsubackTable(s: State, i: nat, id: u16, t: string)
    requires i <= |s.acks|
    ensures Entries(UnsubackFrom(s, i, id).subs, Is(t)) == Skip(Entries(s.subs, Is(t)), Asked(s.acks[i..], id, t))
    decreases |s.acks| - i
  {
    hide Entries, UnsubackNode;
    if i == |s.acks| {
      assert s.acks[i..] == [];
    } else {
      AskedFrom(s.acks, i, id, t);
      var n := s.acks[i];
      if n.id != id {
        UnsubackTable(s, i + 1, id, t);
      } else {
        var next := UnsubackNode(s, i);
        UnsubackNext(s, i, id);
        hide UnsubackFrom, Asked, RemoveAt;
        UnsubackTable(next, i, id, t);
        UnsubackEntries(s, i, t);
        if n.kind == UNSUBACK && n.msg.topic == t {
          SkipMore(Entries(s.subs, Is(t)), Asked(s.acks[i + 1..], id, t));
        }
      }
    }
  }

  lemma {:induction false} UnsubackEntries(s: State, i: nat, t: string)
    requires i < |s.acks|
    ensures var n := s.acks[i];
            Entries(UnsubackNode(s, i).subs, Is(t)) ==
            if n.kind == UNSUBACK && n.msg.topic == t then Skip(Entries(s.subs, Is(t)), 1) else Entries(s.subs, Is(t))
  {
    var q := s.acks[i].msg.topic;
    if FindSub(s.subs, q) < |s.subs| {
      FirstTaken(s.subs, q, Is(t));
    } else {
      NoEntry(s.subs, q);
    }
  }

  lemma {:induction false} UnsubackOthers(s: State, i: nat, id: u16, p: string -> bool)
    requires i <= |s.acks| && forall n | n in s.acks && Waits(n, UNSUBACK, id) :: !p(n.msg.topic)
    ensures Entries(UnsubackFrom(s, i, id).subs, p) == Entries(s.subs, p)
    decreases |s.acks| - i
  {
    if i < |s.acks| {
      assert s.acks[i] in s.acks;
      if s.acks[i].id != id {
        UnsubackOthers(s, i + 1, id, p);
      } else {
        var next := UnsubackNode(s, i);
        UnsubackNext(s, i, id);
        hide UnsubackFrom;
        UnsubackOthers(next, i, id, p);
        if FindSub(s.subs, s.acks[i].msg.topic) < |s.subs| {
          FirstTaken(s.subs, s.acks[i].msg.topic, p);
        }
      }
    }
  }

  lemma {:induction false} PendingEntries(subs: seq<Msg>, id: u16, t: string)
    ensures Pending(Entries(subs, Is(t)), id, t) == Pending(subs, id, t)
  {
    if subs != [] {
      PendingEntries(subs[1..], id, t);
      PendingAppend(if Is(t)(subs[0].topic) then [subs[0]] else [], Entries(subs[1..], Is(t)), id, t);
    }
  }

  lemma {:induction false} PendingSkip(entries: seq<Msg>, k: nat, id: u16, t: string)
    ensures Pending(entries, id, t) == Pending(First(entries, k), id, t) + Pending(Skip(entries, k), id, t)
  {
    assert entries == First(entries, k) + Skip(entries, k);
    PendingAppend(First(entries, k), Skip(entries, k), id, t);
  }

  /** How many entries of `t` waiting for `id` the UNSUBACK of `other` takes. */
  function EntriesTaken(s: State, other: u16, id: u16, t: string): nat {
    Pending(First(Entries(s.subs, Is(t)), Asked(s.acks, other, t)), id, t)
  }

  /** How many nodes of `t` waiting for `id` it takes: all on the list if it has their id. */
  function NodesTaken(s: State, other: u16, id: u16, t: string): nat {
    if other == id then Times(OnlyAcks(s.acks, SUBACK, id), t) else 0
  }

  /** An UNSUBACK keeps a SUBSCRIBE paired exactly when of every filter it takes as many entries as nodes; for another
      id, when it takes no pending entry of it. */
  lemma {:induction false} UnsubackPairs(s: State, other: u16, id: u16)
    requires PairedIn(s, id)
    ensures PairedIn(UnsubackFrom(s, 0, other), id) <==>
            forall t: string :: EntriesTaken(s, other, id, t) == NodesTaken(s, other, id, t)
    ensures other != id ==> Batch(UnsubackFrom(s, 0, other), SUBACK, id) == Batch(s, SUBACK, id)
  {
    hide OnlyAcks, Filters;
    var r := UnsubackFrom(s, 0, other);
    UnsubackDestroys(s, 0, other);
    assert s.acks[0..] == s.acks && s.acks[..0] + OtherIds(s.acks, other) == OtherIds(s.acks, other);
    OnlyOthers(s.acks, other, SUBACK, id);
    var user := OnlyAcks(s.userAcks, SUBACK, id);
    assert [] + user == user;
    forall t: string
      ensures Pending(r.subs, id, t) + EntriesTaken(s, other, id, t) == multiset(Filters(Batch(s, SUBACK, id)))[t]
      ensures multiset(Filters(Batch(r, SUBACK, id)))[t] + NodesTaken(s, other, id, t) == multiset(Filters(Batch(s, SUBACK, id)))[t]
    {
      UnsubackTable(s, 0, other, t);
      PendingEntries(r.subs, id, t);
      PendingEntries(s.subs, id, t);
      PendingSkip(Entries(s.subs, Is(t)), Asked(s.acks, other, t), id, t);
      assert Pending(s.subs, id, t) == multiset(Filters(Batch(s, SUBACK, id)))[t];
      TimesAppend(OnlyAcks(s.acks, SUBACK, id), user, t);
    }
    hide UnsubackFrom, EntriesTaken, NodesTaken, Batch;
    if PairedIn(r, id) {
      forall t: string ensures EntriesTaken(s, other, id, t) == NodesTaken(s, other, id, t) {
        assert Pending(r.subs, id, t) == multiset(Filters(Batch(r, SUBACK, id)))[t];
      }
    }
  }

  // ---------------------------------------------------------------- a scan

  lemma {:induction false} ScanTakes(s: State, i: nat, k: nat, wait: bool, window: Timer, throttle: u32,
                                    input: ScanInput, id: u16, t: string)
    requires forall n | n in s.acks && n.kind == SUBACK :: n.msg.packetId == n.id
    ensures var r := ScanFrom(s, i, k, wait, window, throttle, input);
            var before, after := Times(OnlyAcks(s.acks, SUBACK, id), t), Times(OnlyAcks(r.acks, SUBACK, id), t);
            && after <= before && r.userAcks == s.userAcks
            && Pending(r.subs, id, t) == if after < before then 0 else Pending(s.subs, id, t)
    decreases |s.acks| - i
  {
    hide OnlyAcks, Times, Remain, ResendAt, ExpireAt;
    var now := input.clock(k);
    if i < |s.acks| && s.clientState == Connected && Remain(window, now) != 0 {
      var n := s.acks[i];
      assert n in s.acks;
      var remain := Remain(n.timer, now);
      var least := if remain != 0 then Min(remain, throttle) else throttle;
      if remain != 0 && wait {
        ScanTakes(s, i + 1, k + 1, wait, window, least, input, id, t);
      } else if Resendable(n.kind) {
        ResendTakes(s, i, now, input.sends(k), id);
        ScanTakes(ResendAt(s, i, now, input.sends(k)), i + 1, k + 1, wait, window, least, input, id, t);
      } else {
        ExpireTakes(s, i, id, t);
        ScanTakes(ExpireAt(s, i), i, k + 1, wait, window, least, input, id, t);
      }
    }
  }

  lemma {:induction false} ResendTakes(s: State, i: nat, now: u32, outcome: SendOutcome, id: u16)
    requires i < |s.acks| && Resendable(s.acks[i].kind)
    requires forall n | n in s.acks && n.kind == SUBACK :: n.msg.packetId == n.id
    ensures var r := ResendAt(s, i, now, outcome);
            && OnlyAcks(r.acks, SUBACK, id) == OnlyAcks(s.acks, SUBACK, id) && r.subs == s.subs && r.userAcks == s.userAcks
            && forall n | n in r.acks && n.kind == SUBACK :: n.msg.packetId == n.id
  {
    OnlyUpdated(s.acks, i, Resent(s.acks[i], now, s.config), SUBACK, id);
  }

  lemma {:induction false} ExpireTakes(s: State, i: nat, id: u16, t: string)
    requires i < |s.acks| && !Resendable(s.acks[i].kind)
    requires forall n | n in s.acks && n.kind == SUBACK :: n.msg.packetId == n.id
    ensures var r := ExpireAt(s, i);
            var before, after := Times(OnlyAcks(s.acks, SUBACK, id), t), Times(OnlyAcks(r.acks, SUBACK, id), t);
            && after <= before && r.userAcks == s.userAcks
            && Pending(r.subs, id, t) == (if after < before then 0 else Pending(s.subs, id, t))
            && forall n | n in r.acks && n.kind == SUBACK :: n.msg.packetId == n.id
  {
    var n, r := s.acks[i], ExpireAt(s, i);
    assert r.acks == RemoveAt(s.acks, i) && r.userAcks == s.userAcks;
    assert n in s.acks && forall m | m in r.acks :: m in s.acks;
    if n.kind == SUBACK {
      assert r.subs == DropSubs(s.subs, SameTopicSameId(n.msg.topic, n.id));
      hide ExpireAt, RemoveAt, Pending, DropSubs;
      ExpireCounts(s.acks, i, id, t);
      if n.id == id {
        DropPending(s.subs, n.msg.topic, id, t);
      } else {
        PendingWithout(s.subs, SameTopicSameId(n.msg.topic, n.id), id, t);
      }
    } else {
      assert r.subs == s.subs;
      hide ExpireAt, RemoveAt;
      OnlyRemoved(s.acks, i, SUBACK, id);
    }
  }

  lemma {:induction false} ExpireCounts(acks: seq<AckNode>, i: nat, id: u16, t: string)
    requires i < |acks| && acks[i].kind == SUBACK
    ensures Times(OnlyAcks(acks, SUBACK, id), t) == Times(OnlyAcks(RemoveAt(acks, i), SUBACK, id), t)
            + if acks[i].id == id && acks[i].msg.topic == t then 1 else 0
  {
    if acks[i].id == id {
      WaitingWithout(acks, i, id);
    } else {
      OnlyRemoved(acks, i, SUBACK, id);
    }
  }

  /** Every filter the scan gives up, it gives up altogether. */
  ghost predicate WholeFilters(s: State, wait: bool, input: ScanInput, id: u16) {
    forall t: string :: Times(Batch(Scan(s, wait, input), SUBACK, id), t) in {0, Times(Batch(s, SUBACK, id), t)}
  }

  /** A scan keeps a SUBSCRIBE paired exactly when of every filter it times out all nodes or none. */
  lemma {:induction false} ScanPairs(s: State, wait: bool, input: ScanInput, id: u16)
    requires StateOk(s) && PairedIn(s, id)
    ensures PairedIn(Scan(s, wait, input), id) <==> WholeFilters(s, wait, input, id)
  {
    var r := Scan(s, wait, input);
    var user := OnlyAcks(s.userAcks, SUBACK, id);
    forall t: string
      ensures var before, after := multiset(Filters(Batch(s, SUBACK, id)))[t], multiset(Filters(Batch(r, SUBACK, id)))[t];
              after <= before && Pending(r.subs, id, t) == if after < before then 0 else before
    {
      ScanCounts(s, wait, input, id, t);
      assert Pending(s.subs, id, t) == multiset(Filters(Batch(s, SUBACK, id)))[t];
    }
    hide Scan, Batch, Filters;
    if PairedIn(r, id) {
      forall t: string ensures Times(Batch(r, SUBACK, id), t) in {0, Times(Batch(s, SUBACK, id), t)} {
        assert Pending(r.subs, id, t) == multiset(Filters(Batch(r, SUBACK, id)))[t];
      }
    } else {
      var t: string :| Pending(r.subs, id, t) != multiset(Filters(Batch(r, SUBACK, id)))[t];
      assert Times(Batch(r, SUBACK, id), t) !in {0, Times(Batch(s, SUBACK, id), t)};
    }
  }

  lemma {:induction false} ScanCounts(s: State, wait: bool, input: ScanInput, id: u16, t: string)
    requires StateOk(s)
    ensures var r := Scan(s, wait, input);
            var before, after := Times(Batch(s, SUBACK, id), t), Times(Batch(r, SUBACK, id), t);
            after <= before && Pending(r.subs, id, t) == if after < before then 0 else Pending(s.subs, id, t)
  {
    var r, user := Scan(s, wait, input), OnlyAcks(s.userAcks, SUBACK, id);
    hide ScanFrom;
    ScanTakes(s, 0, 0, wait, Timer(input.clock(0), ScanWindow(s.config)), 1000, input, id, t);
    TimesAppend(OnlyAcks(s.acks, SUBACK, id), user, t);
    TimesAppend(OnlyAcks(r.acks, SUBACK, id), user, t);
  }

  /** With no filter named twice any scan does. */
  lemma {:induction false} DistinctScanPairs(s: State, wait: bool, input: ScanInput, id: u16)
    requires StateOk(s) && forall t: string :: Times(Batch(s, SUBACK, id), t) <= 1
    ensures WholeFilters(s, wait, input, id)
  {
    hide Scan, Batch;
    forall t: string ensures Times(Batch(Scan(s, wait, input), SUBACK, id), t) in {0, Times(Batch(s, SUBACK, id), t)} {
      ScanCounts(s, wait, input, id, t);
      assert Times(Batch(s, SUBACK, id), t) <= 1;
    }
  }
}
