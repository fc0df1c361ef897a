/** A scan that overtakes the first send of a publish. */
module Overtaking {
  import opened Bytes
  import opened Timers
  import opened PacketIds
  import opened Session
  import opened Requests
  import opened World

  /** A scan over the one node `n`, everything sent at once. */
  lemma {:induction false} ScanOne(s: State, n: AckNode, input: ScanInput)
    requires s.clientState == Connected && s.acks == [n] && n.kind == PUBREC && n.packet.Some? && n.repeatCount == 0
    requires Remain(s.scanThrottle, input.clock(0)) == 0 && input.clock(1) == input.clock(0)
    requires s.config.recvTimeout > 0 && input.sends(0) == Sent
    ensures var r := Scan(s, false, input);
            && r.wire == s.wire + [WithDup(n.packet.value)] && r.acks == [Resent(n, input.clock(0), s.config)]
            && r.config == s.config && r.clientState == Connected
  {
    var now := input.clock(0);
    var window := Timer(now, ScanWindow(s.config));
    assert Remain(window, now) != 0;
    var remain := Remain(n.timer, now);
    var least := if remain != 0 then Min(remain, 1000) else 1000;
    var next := ResendAt(s, 0, now, Sent);
    assert Scan(s, false, input) == ScanFrom(s, 0, 0, false, window, 1000, input);
    assert ScanFrom(s, 0, 0, false, window, 1000, input) == ScanFrom(next, 1, 1, false, window, least, input);
    assert next.acks == [Resent(n, now, s.config)];
    assert ScanFrom(next, 1, 1, false, window, least, input) == ScanEnd(next, window, now, least);
  }

  /** The node joins the list before the first send; if a reconnect scan comes in between, PUBLISH follows PUBREL. */
  lemma {:induction false} FirstSendOvertaken(s: State, topic: string, body: nat, now: u32, input: ScanInput)
    requires s.clientState == Connected && s.acks == [] && s.userAcks == [] && topic != ""
    requires Remain(s.scanThrottle, input.clock(0)) == 0 && input.clock(1) == input.clock(0)
    requires s.config.recvTimeout > 0 && input.sends(0) == Sent
    ensures var id := NextPacketId(s.packetId);
            var scanned := Scan(Sync(BeginPublish(s, 2, topic, body, now, 3)), false, input);
            var released := OnPubrec(scanned, id, now, 2, Sent);
            var first := Publish(false, 2, id, topic, body);
            FinishPublish(released, PUBREC, id, first, Sent).wire
            == s.wire + [Publish(true, 2, id, topic, body)] + [Packet.Pubrel(id)] + [first]
  {
    var id := NextPacketId(s.packetId);
    var begun := BeginPublish(s, 2, topic, body, now, 3);
    var n := PublishNode(s.(packetId := id), 2, id, topic, body, now);
    assert begun.userAcks == [n];
    var synced := AddAck(begun.(userAcks := begun.userAcks[1..]), n);
    assert Sync(begun) == synced && synced.acks == [n];
    ScanOne(synced, n, input);
    var scanned := Scan(synced, false, input);
    var again := Resent(n, input.clock(0), s.config);
    assert FindAck([again], PUBREC, id) == 0;
    assert FindAck([again], PUBCOMP, id) == 1 + FindAck([again][1..], PUBCOMP, id) && [again][1..] == [];
  }

  /** What a compliant broker that does not hold the id makes of these three packets: the message twice. */
  lemma {:induction false} HandedOnTwice(b: Broker, id: u16, topic: string, body: nat)
    ensures var after1 := BrokerHandles(b, Publish(true, 2, id, topic, body)).0;
            var after2 := BrokerHandles(after1, Packet.Pubrel(id)).0;
            BrokerHandles(after2, Publish(false, 2, id, topic, body)).0.app
            == if id in b.held then b.app + [body] else b.app + [body, body]
  {
  }
}
