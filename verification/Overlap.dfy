/** Two runs, step by step: a SUBSCRIBE that loses a granted filter to an older one, and a Subscribed event that shows
    another QoS than the one granted. */
module Overlap {
  import opened Bytes
  import opened Common
  import opened PacketIds
  import opened Session
  import opened Requests

  /** A SUBSCRIBE called and sent. */
  function Called(s: State, requests: seq<Request>, now: u32): State {
    var begun := BeginSubscribe(s, requests, now, 2 + 3 * |requests|).state;
    FinishSubscribe(begun, requests, NextPacketId(s.packetId), Sent)
  }

  /** What a call adds: nodes and entries for one or two filters. */
  lemma {:induction false} CalledOne(s: State, t: string, qos: QoS, now: u32) returns (n: AckNode)
    requires s.clientState == Connected && t != ""
    ensures var id, r := NextPacketId(s.packetId), Called(s, [Request(t, qos)], now);
            && Waits(n, SUBACK, id) && n.msg == Msg(t, qos, id, 0) && r.acks == s.acks && r.userAcks == s.userAcks + [n]
            && r.subs == s.subs + [n.msg] && r.packetId == id && r.clientState == Connected && r.events == s.events
  {
    var id, requests := NextPacketId(s.packetId), [Request(t, qos)];
    n := NewNode(s, SUBACK, id, None, Msg(t, qos, id, 0), now);
    assert requests[1..] == [] && SubMsgs(requests, id) == [n.msg];
    var numbered := s.(packetId := id);
    var next := Allocated(numbered).(userAcks := s.userAcks + [n]);
    assert AddUserNodes(numbered, SUBACK, id, [n.msg], now) == AddUserNodes(next, SUBACK, id, [n.msg][1..], now) == next;
  }

  lemma {:induction false} CalledTwo(s: State, t: string, u: string, now: u32) returns (n: AckNode, m: AckNode)
    requires s.clientState == Connected && t != "" && u != ""
    ensures var id, r := NextPacketId(s.packetId), Called(s, [Request(t, 0), Request(u, 0)], now);
            && Waits(n, SUBACK, id) && n.msg == Msg(t, 0, id, 0) && Waits(m, SUBACK, id) && m.msg == Msg(u, 0, id, 0)
            && r.acks == s.acks && r.userAcks == s.userAcks + [n] + [m] && r.subs == s.subs + [n.msg, m.msg]
            && r.events == s.events
  {
    var id, requests := NextPacketId(s.packetId), [Request(t, 0), Request(u, 0)];
    var numbered := s.(packetId := id);
    n := NewNode(numbered, SUBACK, id, None, Msg(t, 0, id, 0), now);
    var next := Allocated(numbered).(userAcks := s.userAcks + [n]);
    m := NewNode(next, SUBACK, id, None, Msg(u, 0, id, 0), now);
    var last := Allocated(next).(userAcks := s.userAcks + [n] + [m]);
    assert requests[1..] == [Request(u, 0)] && [Request(u, 0)][1..] == [];
    assert SubMsgs([Request(u, 0)], id) == [m.msg] && SubMsgs(requests, id) == [n.msg] + [m.msg];
    var msgs := [n.msg, m.msg];
    assert msgs[1..] == [m.msg] && [m.msg][1..] == [];
    assert AddUserNodes(numbered, SUBACK, id, msgs, now) == AddUserNodes(next, SUBACK, id, [m.msg], now);
    assert AddUserNodes(next, SUBACK, id, [m.msg], now) == AddUserNodes(last, SUBACK, id, [], now) == last;
  }

  /** SUBACK for the one-filter SUBSCRIBE: its filter is settled, entries of the same filter are dropped. */
  lemma {:induction false} FirstAnswered(s: State, n: AckNode, rest: seq<AckNode>, c: byte)
    requires s.acks == [n] + rest && n.kind == SUBACK && n.msg.packetId == n.id && c <= 2
    requires CountSubs(s.subs, n.id) == 1 && forall m | m in rest :: m.id != n.id
    ensures var r := OnSuback(s, n.id, [c]);
            && r.acks == rest && r.userAcks == s.userAcks && r.subs == SettleNode(s, n, [c]).state.subs
            && r.events == SettleNode(s, n, [c]).state.events
  {
    var settled := SettleNode(s, n, [c]);
    var next := Destroy(RemoveAck(settled.state, 0), n);
    assert next.acks == rest && OnSuback(s, n.id, [c]) == SubackFrom(next, 0, n.id, settled.codes);
    NothingFound(next, 0, n.id, settled.codes);
  }

  lemma {:induction false} NothingFound(s: State, i: nat, id: u16, codes: seq<byte>)
    requires i <= |s.acks| && forall n | n in s.acks :: n.id != id
    ensures SubackFrom(s, i, id, codes) == s
    decreases |s.acks| - i
  {
    if i < |s.acks| {
      assert s.acks[i] in s.acks;
      NothingFound(s, i + 1, id, codes);
    }
  }

  /** Moving the user list over tells of nothing but the number of nodes. */
  lemma {:induction false} SyncTells(s: State)
    ensures var r := Sync(s);
            && r.acks == s.acks + s.userAcks && r.userAcks == [] && r.subs == s.subs && s.events <= r.events
            && forall e | e in r.events[|s.events|..] :: e.AckCountWarning?
    decreases |s.userAcks|
  {
    if s.userAcks == [] {
      assert s.acks + [] == s.acks;
    } else {
      var next := AddAck(s.(userAcks := s.userAcks[1..]), s.userAcks[0]);
      assert Sync(s) == Sync(next);
      assert next.acks == s.acks + [s.userAcks[0]] && next.userAcks == s.userAcks[1..] && next.subs == s.subs;
      assert next.events == s.events || exists c :: next.events == s.events + [AckCountWarning(c)];
      hide Sync, AddAck;
      SyncTells(next);
      assert s.acks + [s.userAcks[0]] + s.userAcks[1..] == s.acks + s.userAcks;
      var r := Sync(next);
      assert s.events <= next.events <= r.events;
      forall e | e in r.events[|s.events|..] ensures e.AckCountWarning? {
        var k :| |s.events| <= k < |r.events| && r.events[k] == e;
        if k >= |next.events| {
          assert e in r.events[|next.events|..];
        } else {
          assert e == next.events[k];
        }
      }
    }
  }

  /** The first SUBACK at the table of the two calls. */
  lemma {:induction false} OlderDropped(s: State, n: AckNode, t: string, u: string, first: u16, second: u16)
    requires n.msg == Msg(t, 0, first, 0) && t != u && first != second && first != SETTLED && second != SETTLED
    requires s.subs == [Msg(t, 0, first, 0), Msg(t, 0, second, 0), Msg(u, 0, second, 0)]
    ensures CountSubs(s.subs, first) == 1
    ensures var r := SettleNode(s, n, [0]).state;
            && r.subs == [Msg(t, 0, SETTLED, 0), Msg(u, 0, second, 0)] && r.events == s.events + [Subscribed(n.msg)]
            && CountSubs(r.subs, second) == 1 && DropSubs(r.subs, WithId(second)) == [Msg(t, 0, SETTLED, 0)]
  {
    var a, b, c := Msg(t, 0, first, 0), Msg(t, 0, second, 0), Msg(u, 0, second, 0);
    var sel := SameTopicOtherId(t, first);
    assert s.subs[1..] == [b, c] && [b, c][1..] == [c] && [c][1..] == [];
    assert CountSubs([c], first) == 0 && CountSubs([b, c], first) == 0;
    assert DropSubs([c], sel) == [c] && DropSubs([b, c], sel) == [c] && DropSubs(s.subs, sel) == [a] + [c];
    var settled := [Msg(t, 0, SETTLED, 0), c];
    assert settled[1..] == [c];
    assert CountSubs([c], second) == 1 && DropSubs([c], WithId(second)) == [];
  }

  /** SUBSCRIBE `t`, then SUBSCRIBE `t` and `u`; both are granted in full. The first SUBACK drops the pending entry of
      `t` of the second, whose SUBACK then counts wrong: `u` is granted by the broker but gone, and nobody is told. */
  lemma {:induction false} OverlapLoses(s: State, t: string, u: string, now: u32)
    requires s.clientState == Connected && s.acks == [] && s.userAcks == [] && s.subs == []
    requires t != "" && u != "" && t != u && 1 <= s.packetId < MAX_PACKET_ID - 1
    ensures var first := NextPacketId(s.packetId);
            var second := NextPacketId(first);
            var synced := Sync(Called(Called(s, [Request(t, 0)], now), [Request(t, 0), Request(u, 0)], now));
            var r := OnSuback(OnSuback(synced, first, [0]), second, [0, 0]);
            && r.subs == [Msg(t, 0, SETTLED, 0)] && r.acks == [] && s.events <= r.events
            && forall e | e in r.events[|s.events|..] :: e.AckCountWarning? || e == Subscribed(Msg(t, 0, first, 0))
  {
    var first := NextPacketId(s.packetId);
    var second := NextPacketId(first);
    var n, m, k, synced := BothCalled(s, t, u, now);
    hide Called, Sync;
    BothAnswered(synced, n, m, k, t, u, first, second);
    var r := OnSuback(OnSuback(synced, first, [0]), second, [0, 0]);
    hide OnSuback;
    forall e | e in r.events[|s.events|..] ensures e.AckCountWarning? || e == Subscribed(Msg(t, 0, first, 0)) {
      assert r.events[|s.events|..] == synced.events[|s.events|..] + [Subscribed(Msg(t, 0, first, 0))];
    }
  }

  /** The two calls, and the lists moved over. */
  lemma {:induction false} BothCalled(s: State, t: string, u: string, now: u32)
    returns (n: AckNode, m: AckNode, k: AckNode, synced: State)
    requires s.clientState == Connected && s.acks == [] && s.userAcks == [] && s.subs == [] && t != "" && u != ""
    ensures synced == Sync(Called(Called(s, [Request(t, 0)], now), [Request(t, 0), Request(u, 0)], now))
    ensures var first := NextPacketId(s.packetId);
            var second := NextPacketId(first);
            && Waits(n, SUBACK, first) && n.msg == Msg(t, 0, first, 0)
            && Waits(m, SUBACK, second) && Waits(k, SUBACK, second)
            && synced.acks == [n] + [m, k] && synced.userAcks == []
            && synced.subs == [Msg(t, 0, first, 0), Msg(t, 0, second, 0), Msg(u, 0, second, 0)]
    ensures s.events <= synced.events && forall e | e in synced.events[|s.events|..] :: e.AckCountWarning?
  {
    n := CalledOne(s, t, 0, now);
    var one := Called(s, [Request(t, 0)], now);
    m, k := CalledTwo(one, t, u, now);
    var two := Called(one, [Request(t, 0), Request(u, 0)], now);
    synced := Sync(two);
    SyncTells(two);
    hide Called, Sync;
  }

  /** Both SUBACKs, one after the other. */
  lemma {:induction false} BothAnswered(s: State, n: AckNode, m: AckNode, k: AckNode, t: string, u: string, first: u16,
                                       second: u16)
    requires Waits(n, SUBACK, first) && n.msg == Msg(t, 0, first, 0)
    requires Waits(m, SUBACK, second) && Waits(k, SUBACK, second)
    requires s.acks == [n] + [m, k] && s.userAcks == []
    requires s.subs == [Msg(t, 0, first, 0), Msg(t, 0, second, 0), Msg(u, 0, second, 0)]
    requires t != u && first != second && first != SETTLED && second != SETTLED
    ensures var r := OnSuback(OnSuback(s, first, [0]), second, [0, 0]);
            && r.subs == [Msg(t, 0, SETTLED, 0)] && r.acks == [] && r.events == s.events + [Subscribed(Msg(t, 0, first, 0))]
  {
    hide OnSuback, SettleNode, CountSubs, DropSubs;
    OlderDropped(s, n, t, u, first, second);
    FirstAnswered(s, n, [m, k], 0);
    SecondAnswered(OnSuback(s, first, [0]), m, k, second);
  }

  lemma {:induction false} SecondAnswered(s: State, m: AckNode, k: AckNode, second: u16)
    requires s.acks == [m, k] && s.userAcks == [] && Waits(m, SUBACK, second) && Waits(k, SUBACK, second)
    requires CountSubs(s.subs, second) == 1
    ensures var r := OnSuback(s, second, [0, 0]);
            r.acks == [] && r.subs == DropSubs(s.subs, WithId(second)) && r.events == s.events
  {
    assert s.acks[1..] == [k] && [k][1..] == [];
    assert WithoutAcks([k], SUBACK, second) == [];
  }

  /** SUBSCRIBE `t` at QoS 2, granted QoS 0: the event shows 2, the table has 0. */
  lemma {:induction false} EventShowsRequest(s: State, t: string, now: u32)
    requires s.clientState == Connected && s.acks == [] && s.userAcks == [] && s.subs == [] && t != ""
    ensures var id := NextPacketId(s.packetId);
            var r := OnSuback(Sync(Called(s, [Request(t, 2)], now)), id, [0]);
            && r.subs == [Msg(t, 0, SETTLED, 0)]
            && |r.events| > |s.events| && r.events[|r.events| - 1] == Subscribed(Msg(t, 2, id, 0))
  {
    var id := NextPacketId(s.packetId);
    var n := CalledOne(s, t, 2, now);
    var one := Called(s, [Request(t, 2)], now);
    SyncTells(one);
    var synced := Sync(one);
    hide Called, Sync;
    assert synced.acks == [n] + [] && synced.subs == [n.msg] && [n.msg][1..] == [];
    assert CountSubs(synced.subs, id) == 1;
    assert DropSubs(synced.subs, SameTopicOtherId(t, id)) == [n.msg];
    FirstAnswered(synced, n, [], 0);
  }
}
