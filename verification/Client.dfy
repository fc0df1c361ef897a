/** The client object: its methods in the form of the C source, each proved against the session functions. */
module Client {
  import opened Bytes
  import opened Common
  import opened Timers
  import opened PacketIds
  import opened TopicMatcher
  import opened Session
  import opened Requests

  lemma {:induction false} FindAckIs(acks: seq<AckNode>, kind: Kind, id: u16, i: nat)
    requires i <= |acks| && forall k | 0 <= k < i :: !Waits(acks[k], kind, id)
    requires i == |acks| || Waits(acks[i], kind, id)
    ensures FindAck(acks, kind, id) == i
  {
  }

  lemma {:induction false} FindSubIs(subs: seq<Msg>, topic: string, i: nat)
    requires i <= |subs| && forall k | 0 <= k < i :: subs[k].topic != topic
    requires i == |subs| || subs[i].topic == topic
    ensures FindSub(subs, topic) == i
  {
  }

  lemma {:induction false} FindMatchIs(subs: seq<Msg>, topic: string, i: nat)
    requires i <= |subs| && forall k | 0 <= k < i :: !CodeMatches(topic, subs[k].topic)
    requires i == |subs| || CodeMatches(topic, subs[i].topic)
    ensures FindMatch(subs, topic) == i
  {
  }

  /** Taking the first waiting node out. */
  lemma {:induction false} RemoveFirstAck(acks: seq<AckNode>, kind: Kind, id: u16)
    requires FindAck(acks, kind, id) < |acks|
    ensures var i := FindAck(acks, kind, id);
            && WithoutAcks(RemoveAt(acks, i), kind, id) == WithoutAcks(acks, kind, id)
            && OnlyAcks(acks, kind, id) == [acks[i]] + OnlyAcks(RemoveAt(acks, i), kind, id)
  {
    var i := FindAck(acks, kind, id);
    if i == 0 {
      assert RemoveAt(acks, 0) == acks[1..];
    } else {
      RemoveFirstAck(acks[1..], kind, id);
      assert RemoveAt(acks, i) == [acks[0]] + RemoveAt(acks[1..], i - 1);
      assert RemoveAt(acks, i)[1..] == RemoveAt(acks[1..], i - 1);
    }
  }

  lemma {:induction false} NoneWaiting(acks: seq<AckNode>, kind: Kind, id: u16)
    requires FindAck(acks, kind, id) == |acks|
    ensures WithoutAcks(acks, kind, id) == acks && OnlyAcks(acks, kind, id) == []
  {
    if acks != [] {
      NoneWaiting(acks[1..], kind, id);
    }
  }

  lemma {:induction false} AddressesAppend(a: seq<AckNode>, b: seq<AckNode>)
    ensures Addresses(a + b) == Addresses(a) + Addresses(b)
  {
    if a == [] {
      assert a + b == b;
    } else {
      assert (a + b)[1..] == a[1..] + b;
      AddressesAppend(a[1..], b);
    }
  }

  lemma {:induction false} AddressFirst(freed: seq<nat>, nodes: seq<AckNode>)
    requires nodes != []
    ensures freed + [nodes[0].address] + Addresses(nodes[1..]) == freed + Addresses(nodes)
  {
  }

  /** The table walked one entry further. */
  lemma {:induction false} DropStep(subs: seq<Msg>, sel: Selector, i: nat)
    requires i < |subs|
    ensures var next := subs[..i] + subs[i + 1..];
            Selects(sel, subs[i]) ==> next[..i] == subs[..i] && DropSubs(subs[i..], sel) == DropSubs(next[i..], sel)
    ensures !Selects(sel, subs[i]) ==>
              subs[..i] + DropSubs(subs[i..], sel) == subs[..i + 1] + DropSubs(subs[i + 1..], sel)
  {
  }

  lemma {:induction false} CountSubsAt(subs: seq<Msg>, id: u16, i: nat)
    requires i < |subs|
    ensures CountSubs(subs[..i + 1], id) == CountSubs(subs[..i], id) + if subs[i].packetId == id then 1 else 0
  {
    if i > 0 {
      CountSubsAt(subs[1..], id, i - 1);
      assert subs[..i + 1][1..] == subs[1..][..i];
      assert subs[..i][1..] == subs[1..][..i - 1];
    } else {
      assert subs[..1][1..] == [];
    }
  }

  class Client {
    var config: Config
    var acks: seq<AckNode>
    var userAcks: seq<AckNode>
    var subs: seq<Msg>
    var ackCount: u16
    var packetId: u16
    var clientState: ClientState
    var scanThrottle: Timer
    var pendingAck: bool
    var wire: seq<Packet>
    var events: seq<Event>
    var freed: seq<nat>
    var nextAddress: nat

    function View(): State
      reads this
    {
      State(config, acks, userAcks, subs, ackCount, packetId, clientState, scanThrottle, pendingAck,
            wire, events, freed, nextAddress)
    }

    constructor (config: Config)
      ensures View() == Initial(config)
    {
      this.config := config;
      acks, userAcks, subs, wire, events, freed := [], [], [], [], [], [];
      ackCount, packetId, nextAddress := 0, 1, 0;
      clientState, scanThrottle, pendingAck := Init, Timer(0, 0), false;
    }

    method EventCallback(e: Event)
      modifies this`events
      ensures View() == Log(old(View()), e)
    {
      events := events + [e];
    }

    method AckHandlerDestroy(n: AckNode)
      modifies this`freed
      ensures View() == Destroy(old(View()), n)
    {
      freed := freed + [n.address];
    }

    method AckHandlerCreate(kind: Kind, id: u16, packet: Option<Packet>, msg: Msg, now: u32) returns (n: AckNode)
      modifies this`nextAddress
      ensures n == NewNode(old(View()), kind, id, packet, msg, now)
      ensures View() == Allocated(old(View()))
    {
      n := AckNode(kind, id, packet, 0, Timer(now, config.ackTimeout), msg, nextAddress);
      nextAddress := nextAddress + 1;
    }

    method AckListAddToAckList(n: AckNode)
      modifies this`acks, this`ackCount, this`events
      ensures View() == AddAck(old(View()), n)
    {
      acks := acks + [n];
      ackCount := (ackCount + 1) % 0x1_0000;
      if ackCount >= config.ackCountWarning {
        EventCallback(AckCountWarning(ackCount));
      }
    }

    method AckListRemoveToAckList(i: nat)
      requires i < |acks|
      modifies this`acks, this`ackCount
      ensures View() == RemoveAck(old(View()), i)
    {
      acks := acks[..i] + acks[i + 1..];
      if ackCount > 0 {
        ackCount := ackCount - 1;
      }
    }

    method AckListNodeFind(kind: Kind, id: u16, removeOnMatch: bool) returns (found: Option<AckNode>)
      modifies this`acks, this`ackCount
      ensures var s, i := old(View()), FindAck(old(acks), kind, id);
              if i == |old(acks)| then found == None && View() == s
              else found == Some(old(acks)[i]) && View() == if removeOnMatch then RemoveAck(s, i) else s
    {
      var i := 0;
      while i < |acks|
        invariant 0 <= i <= |acks| && View() == old(View())
        invariant forall k | 0 <= k < i :: !Waits(acks[k], kind, id)
      {
        if acks[i].id == id && acks[i].kind == kind {
          FindAckIs(acks, kind, id, i);
          found := Some(acks[i]);
          if removeOnMatch {
            AckListRemoveToAckList(i);
          }
          return;
        }
        i := i + 1;
      }
      FindAckIs(acks, kind, id, |acks|);
      found := None;
    }

    method AckListNodeFindByUserAckList(kind: Kind, id: u16) returns (found: Option<AckNode>)
      modifies this`userAcks
      ensures var s, i := old(View()), FindAck(old(userAcks), kind, id);
              if i == |old(userAcks)| then found == None && View() == s
              else found == Some(old(userAcks)[i]) && View() == s.(userAcks := RemoveAt(s.userAcks, i))
    {
      var i := 0;
      while i < |userAcks|
        invariant 0 <= i <= |userAcks| && View() == old(View())
        invariant forall k | 0 <= k < i :: !Waits(userAcks[k], kind, id)
      {
        if userAcks[i].id == id && userAcks[i].kind == kind {
          FindAckIs(userAcks, kind, id, i);
          found := Some(userAcks[i]);
          userAcks := userAcks[..i] + userAcks[i + 1..];
          return;
        }
        i := i + 1;
      }
      FindAckIs(userAcks, kind, id, |userAcks|);
      found := None;
    }

    /** RyanMqttClearAckSession: terminates because every round takes a node off one of the lists. */
    method ClearAckSession(kind: Kind, id: u16)
      modifies this`acks, this`userAcks, this`ackCount, this`freed
      ensures View() == ClearAcks(old(View()), kind, id)
    {
      ghost var s := View();
      ghost var target := ClearAcks(s, kind, id);
      var done := false;
      while !done
        invariant View() == s.(acks := acks, userAcks := userAcks, ackCount := ackCount, freed := freed)
        invariant ClearAcks(View(), kind, id) == target
        invariant done ==> FindAck(acks, kind, id) == |acks| && FindAck(userAcks, kind, id) == |userAcks|
        decreases |acks| + |userAcks| + if done then 0 else 1
      {
        ghost var v := View();
        var found := AckListNodeFindByUserAckList(kind, id);
        if found.Some? {
          RemoveFirstAck(v.userAcks, kind, id);
          AckHandlerDestroy(found.value);
          ClearStepUser(v, kind, id);
          continue;
        }
        found := AckListNodeFind(kind, id, true);
        if found.Some? {
          RemoveFirstAck(v.acks, kind, id);
          NoneWaiting(v.userAcks, kind, id);
          AckHandlerDestroy(found.value);
          ClearStepAck(v, kind, id);
          continue;
        }
        done := true;
      }
      NoneWaiting(acks, kind, id);
      NoneWaiting(userAcks, kind, id);
    }

    method PurgeSession()
      modifies this
      ensures View() == Purge(old(View()))
    {
      subs := [];
      ghost var s := View();
      while acks != []
        invariant View() == s.(acks := acks, ackCount := ackCount, freed := freed)
        invariant freed + Addresses(acks) == s.freed + Addresses(s.acks)
        decreases |acks|
      {
        ghost var before := acks;
        AddressFirst(freed, acks);
        var n := acks[0];
        AckListRemoveToAckList(0);
        AckHandlerDestroy(n);
        assert acks == before[1..];
      }
      ackCount := 0;
      assert freed + [] == freed;
      PurgeUserList();
    }

    /** The second loop of RyanMqttPurgeSession */
    method PurgeUserList()
      modifies this`userAcks, this`freed
      ensures View() == old(View()).(userAcks := [], freed := old(freed) + Addresses(old(userAcks)))
    {
      ghost var s := View();
      while userAcks != []
        invariant View() == s.(userAcks := userAcks, freed := freed)
        invariant freed + Addresses(userAcks) == s.freed + Addresses(s.userAcks)
        decreases |userAcks|
      {
        AddressFirst(freed, userAcks);
        var n := userAcks[0];
        userAcks := userAcks[1..];
        AckHandlerDestroy(n);
      }
      assert freed + [] == freed;
    }

    /** RyanMqttEventMachine on RyanMqttEventDisconnected */
    method Disconnected()
      modifies this
      ensures View() == Disconnect(old(View()))
    {
      clientState := ClientState.Disconnected;
      if config.cleanSession {
        PurgeSession();
      }
      EventCallback(DisconnectedEvent);
    }

    method SendPacket(p: Packet, outcome: SendOutcome)
      modifies this
      ensures View() == Send(old(View()), p, outcome)
    {
      match outcome
      case Sent => wire := wire + [p];
      case SendTimedOut =>
      case SocketError => Disconnected();
    }

    /** RyanMqttPubackAndPubcompPacketHandler */
    method PubackAndPubcompPacketHandler(kind: Kind, id: u16)
      modifies this
      ensures View() == if id == 0 then old(View()) else OnPuback(old(View()), kind, id)
    {
      if id == 0 {
        return;
      }
      var found := AckListNodeFind(kind, id, true);
      if found.Some? {
        EventCallback(Published(found.value));
        AckHandlerDestroy(found.value);
      }
    }

    method PubrelPacketHandler(id: u16, outcome: SendOutcome)
      modifies this
      ensures View() == if id == 0 then old(View()) else OnPubrel(old(View()), id, outcome)
    {
      if id == 0 {
        return;
      }
      var found := AckListNodeFind(PUBREL, id, true);
      if found.Some? {
        AckHandlerDestroy(found.value);
      }
      SendPacket(Packet.Pubcomp(id), outcome);
    }

    method PubrecPacketHandler(id: u16, now: u32, memory: nat, outcome: SendOutcome)
      modifies this
      ensures View() == if id == 0 then old(View()) else OnPubrec(old(View()), id, now, memory, outcome)
    {
      if id == 0 {
        return;
      }
      var pubcomp := AckListNodeFind(PUBCOMP, id, false);
      if pubcomp.None? {
        var found := AckListNodeFind(PUBREC, id, true);
        if found.Some? {
          var pubrec := found.value;
          if memory == 0 {
            AckListAddToAckList(pubrec);
            return;
          }
          var msg := Msg(pubrec.msg.topic, pubrec.msg.qos, SETTLED, pubrec.msg.userData);
          if memory == 1 {
            AckListAddToAckList(pubrec);
            return;
          }
          var n := AckHandlerCreate(PUBCOMP, id, Some(Packet.Pubrel(id)), msg, now);
          AckListAddToAckList(n);
          AckHandlerDestroy(pubrec);
        }
      }
      SendPacket(Packet.Pubrel(id), outcome);
    }

    method MsgHandlerFindMatch(topic: string) returns (i: nat)
      ensures i == FindMatch(subs, topic)
    {
      i := 0;
      while i < |subs|
        invariant 0 <= i <= |subs|
        invariant forall k | 0 <= k < i :: !CodeMatches(topic, subs[k].topic)
      {
        if CodeMatches(topic, subs[i].topic) {
          break;
        }
        i := i + 1;
      }
      FindMatchIs(subs, topic, i);
    }

    /** RyanMqttMsgHandlerFind by equal text. */
    method MsgHandlerFind(topic: string) returns (i: nat)
      ensures i == FindSub(subs, topic)
    {
      i := 0;
      while i < |subs|
        invariant 0 <= i <= |subs|
        invariant forall k | 0 <= k < i :: subs[k].topic != topic
      {
        if subs[i].topic == topic {
          break;
        }
        i := i + 1;
      }
      FindSubIs(subs, topic, i);
    }

    /** RyanMqttMsgHandlerFindAndDestroyByPacketId, and the other loops that take entries off the table while
        walking it. */
    method DestroySubs(sel: Selector)
      modifies this`subs
      ensures View() == old(View()).(subs := DropSubs(old(subs), sel))
    {
      ghost var s := View();
      var i := 0;
      assert subs[..0] == [] && subs[0..] == subs;
      while i < |subs|
        invariant 0 <= i <= |subs| && View() == s.(subs := subs)
        invariant DropSubs(s.subs, sel) == subs[..i] + DropSubs(subs[i..], sel)
        decreases |subs| - i
      {
        DropStep(subs, sel, i);
        if Selects(sel, subs[i]) {
          subs := subs[..i] + subs[i + 1..];
        } else {
          i := i + 1;
        }
      }
      assert subs[i..] == [] && subs[..i] == subs;
    }

    method PublishPacketHandler(p: Packet, now: u32, memory: nat, outcome: SendOutcome)
      requires p.Publish?
      modifies this
      ensures View() == if p.qos > 0 && p.id == 0 then old(View()) else OnPublish(old(View()), p, now, memory, outcome)
    {
      if p.qos > 0 && p.id == 0 {
        return;
      }
      var i := MsgHandlerFindMatch(p.topic);
      if i == |subs| {
        EventCallback(UnsubscribedData(p));
        return;
      }
      if p.qos == 0 {
        EventCallback(Data(p));
      } else if p.qos == 1 {
        EventCallback(Data(p));
        SendPacket(Packet.Puback(p.id), outcome);
      } else {
        var found := AckListNodeFind(PUBREL, p.id, false);
        if found.None? {
          EventCallback(Data(p));
          if memory == 0 {
            return;
          }
          var msg := Msg(p.topic, p.qos, SETTLED, 0);
          if memory == 1 {
            return;
          }
          var n := AckHandlerCreate(PUBREL, p.id, Some(Packet.Pubrec(p.id)), msg, now);
          AckListAddToAckList(n);
        }
        SendPacket(Packet.Pubrec(p.id), outcome);
      }
    }

    method CountPending(id: u16) returns (count: nat)
      ensures count == CountSubs(subs, id)
    {
      count := 0;
      var i := 0;
      while i < |subs|
        invariant 0 <= i <= |subs| && count == CountSubs(subs[..i], id)
      {
        CountSubsAt(subs, id, i);
        if subs[i].packetId == id {
          count := count + 1;
        }
        i := i + 1;
      }
      assert subs[..|subs|] == subs;
    }

    method SubackHandler(id: u16, codes: seq<byte>)
      modifies this
      ensures View() == if Refused(Packet.Suback(id, codes)) then old(View()) else OnSuback(old(View()), id, codes)
    {
      if id == 0 || !SubackCodesValid(codes) {
        return;
      }
      var ackMsgCount := CountPending(id);
      if ackMsgCount != |codes| {
        ClearAckSession(SUBACK, id);
        DestroySubs(WithId(id));
        return;
      }
      ghost var target := OnSuback(View(), id, codes);
      var left := codes;
      var i := 0;
      while i < |acks|
        invariant 0 <= i <= |acks|
        invariant SubackFrom(View(), i, id, left) == target
        decreases |acks| - i
      {
        var n := acks[i];
        if n.id != id {
          i := i + 1;
          continue;
        }
        if n.kind == SUBACK {
          left := SettleSubscription(n, left);
        }
        AckListRemoveToAckList(i);
        AckHandlerDestroy(n);
      }
    }

    method SettleSubscription(n: AckNode, codes: seq<byte>) returns (left: seq<byte>)
      modifies this
      ensures Settling(View(), left) == SettleNode(old(View()), n, codes)
    {
      left := codes;
      DestroySubs(SameTopicOtherId(n.msg.topic, n.msg.packetId));
      var j := MsgHandlerFind(n.msg.topic);
      if j < |subs| && left != [] {
        var code := left[0];
        left := left[1..];
        if code <= 2 {
          subs := subs[j := subs[j].(qos := code, packetId := SETTLED)];
          EventCallback(Subscribed(n.msg));
        } else {
          subs := subs[..j] + subs[j + 1..];
          EventCallback(SubscribedFailed(n.msg));
        }
      }
    }

    method UnSubackHandler(id: u16)
      modifies this
      ensures View() == if id == 0 then old(View()) else UnsubackFrom(old(View()), 0, id)
    {
      if id == 0 {
        return;
      }
      ghost var target := UnsubackFrom(View(), 0, id);
      var i := 0;
      while i < |acks|
        invariant 0 <= i <= |acks|
        invariant UnsubackFrom(View(), i, id) == target
        decreases |acks| - i
      {
        var n := acks[i];
        if n.id != id {
          i := i + 1;
          continue;
        }
        if n.kind == UNSUBACK {
          var msg := n.msg;
          var j := MsgHandlerFind(msg.topic);
          if j < |subs| {
            msg := msg.(qos := subs[j].qos);
            subs := subs[..j] + subs[j + 1..];
          }
          EventCallback(UnSubscribed(msg));
        }
        AckListRemoveToAckList(i);
        AckHandlerDestroy(n);
      }
    }

    /** RyanMqttSyncUserAckHandle */
    method SyncUserAckHandle()
      modifies this
      ensures View() == Sync(old(View()))
    {
      while userAcks != []
        invariant Sync(View()) == Sync(old(View()))
        decreases |userAcks|
      {
        var n := userAcks[0];
        userAcks := userAcks[1..];
        AckListAddToAckList(n);
      }
    }

    /** The switch of RyanMqttProcessPacketHandler. */
    method ProcessPacket(p: Packet, now: u32, memory: nat, outcome: SendOutcome)
      modifies this
      ensures View() == Dispatch(old(View()), p, now, memory, outcome)
    {
      match p
      case Publish(_, _, _, _, _) => PublishPacketHandler(p, now, memory, outcome);
      case Puback(id) => PubackAndPubcompPacketHandler(PUBACK, id);
      case Pubcomp(id) => PubackAndPubcompPacketHandler(PUBCOMP, id);
      case Pubrec(id) => PubrecPacketHandler(id, now, memory, outcome);
      case Pubrel(id) => PubrelPacketHandler(id, outcome);
      case Suback(id, codes) => SubackHandler(id, codes);
      case Unsuback(id) => UnSubackHandler(id);
      case _ =>
    }

    /** RyanMqttAckListScan */
    method AckListScan(wait: bool, input: ScanInput)
      modifies this
      ensures View() == Scan(old(View()), wait, input)
    {
      if clientState != Connected {
        return;
      }
      if Remain(scanThrottle, input.clock(0)) != 0 {
        return;
      }
      ScanNodes(wait, Timer(input.clock(0), ScanWindow(config)), input);
    }

    /** The loop of RyanMqttAckListScan and what follows it */
    method ScanNodes(wait: bool, window: Timer, input: ScanInput)
      modifies this
      ensures View() == ScanFrom(old(View()), 0, 0, wait, window, 1000, input)
    {
      hide ResendAt, ExpireAt, Remain, ScanFrom, ScanEnd;
      ghost var s := View();
      var throttle: u32 := 1000;
      var i, k := 0, 0;
      while i < |acks| && clientState == Connected && Remain(window, input.clock(k)) != 0
        invariant 0 <= i <= |acks|
        invariant ScanFrom(View(), i, k, wait, window, throttle, input) == ScanFrom(s, 0, 0, wait, window, 1000, input)
        decreases |acks| - i
      {
        ScanGoesOn(View(), i, k, wait, window, throttle, input);
        var now := input.clock(k);
        var remain := Remain(acks[i].timer, now);
        if remain != 0 && remain < throttle {
          throttle := remain;
        }
        if remain != 0 && wait {
          i := i + 1;
        } else {
          i := ScanNode(i, now, input.sends(k));
        }
        k := k + 1;
      }
      ScanStops(View(), i, k, wait, window, throttle, input);
      FinishScan(window, input.clock(k), throttle);
    }

    /** The switch on the kind of a node whose time is up */
    method ScanNode(i: nat, now: u32, outcome: SendOutcome) returns (next: nat)
      requires i < |acks|
      modifies this
      ensures var s := old(View());
              if Resendable(s.acks[i].kind) then View() == ResendAt(s, i, now, outcome) && next == i + 1
              else View() == ExpireAt(s, i) && next == i
    {
      if acks[i].kind in {PUBACK, PUBREC, PUBREL, PUBCOMP} {
        ResendNode(i, now, outcome);
        next := i + 1;
      } else {
        ExpireNode(i);
        next := i;
      }
    }

    method FinishScan(window: Timer, now: u32, throttle: u32)
      modifies this`scanThrottle, this`pendingAck
      ensures View() == ScanEnd(old(View()), window, now, throttle)
    {
      if Remain(window, now) != 0 {
        scanThrottle := Timer(now, throttle);
        pendingAck := false;
      } else {
        pendingAck := true;
      }
    }

    method ResendNode(i: nat, now: u32, outcome: SendOutcome)
      requires i < |acks| && Resendable(acks[i].kind)
      modifies this
      ensures View() == ResendAt(old(View()), i, now, outcome)
    {
      ghost var s, marked := View(), MarkedDup(acks[i]);
      var n := acks[i];
      if n.repeatCount == 0 && n.packet.Some? {
        n := n.(packet := Some(WithDup(n.packet.value)));
      }
      EventCallback(RepeatPublishPacket(n));
      SendScanned(n.packet, outcome);
      assert n == marked && View() == SendInScan(Log(s, RepeatPublishPacket(marked)), marked.packet, outcome);
      ghost var sent := View();
      n := n.(timer := Timer(now, config.ackTimeout), repeatCount := (n.repeatCount + 1) % 0x1_0000);
      assert n == Resent(s.acks[i], now, s.config);
      acks := acks[i := n];
      assert View() == sent.(acks := s.acks[i := n]);
      hide SendInScan, MarkedDup, Resent;
      if n.repeatCount >= config.repeatCountWarning {
        EventCallback(AckRepeatCountWarning(n));
      }
    }

    /** RyanMqttSendPacket as the scan calls it */
    method SendScanned(packet: Option<Packet>, outcome: SendOutcome)
      modifies this`wire, this`clientState, this`events
      ensures View() == SendInScan(old(View()), packet, outcome)
    {
      if packet.Some? {
        match outcome
        case Sent => wire := wire + [packet.value];
        case SendTimedOut =>
        case SocketError =>
          clientState := ClientState.Disconnected;
          EventCallback(DisconnectedEvent);
      }
    }

    method ExpireNode(i: nat)
      requires i < |acks| && !Resendable(acks[i].kind)
      modifies this
      ensures View() == ExpireAt(old(View()), i)
    {
      var n := acks[i];
      if n.kind == SUBACK {
        DestroySubs(SameTopicSameId(n.msg.topic, n.msg.packetId));
        EventCallback(SubscribedFailed(n.msg));
      } else {
        EventCallback(UnSubscribedFailed(n.msg));
      }
      AckListRemoveToAckList(i);
      AckHandlerDestroy(n);
    }

    // -------------------------------------------------------------- calls of user threads

    /** RyanMqttGetNextPacketId */
    method GetNextPacketId() returns (id: u16)
      modifies this`packetId
      ensures id == NextPacketId(old(packetId))
      ensures View() == old(View()).(packetId := id)
    {
      if packetId >= MAX_PACKET_ID || packetId < 1 {
        packetId := 1;
      } else {
        packetId := packetId + 1;
      }
      id := packetId;
    }

    /** RyanMqttPublishWithUserData at QoS 0 */
    method PublishPlain(topic: string, body: nat, memory: nat, outcome: SendOutcome)
      modifies this
      ensures View() == PublishOnce(old(View()), topic, body, memory, outcome)
    {
      if topic == "" || clientState != Connected || memory == 0 {
        return;
      }
      SendPacket(Publish(false, 0, 0, topic, body), outcome);
    }

    /** RyanMqttPublishWithUserData at QoS 1 or 2, up to its send */
    method PublishBegin(qos: QoS, topic: string, body: nat, now: u32, memory: nat) returns (started: bool)
      requires qos > 0
      modifies this
      ensures View() == BeginPublish(old(View()), qos, topic, body, now, memory)
      ensures started <==> topic != "" && old(clientState) == Connected && memory >= 3
    {
      if topic == "" || clientState != Connected || memory == 0 {
        return false;
      }
      var id := GetNextPacketId();
      if memory < 3 {
        return false;
      }
      var kind := if qos == 1 then PUBACK else PUBREC;
      var node := AckHandlerCreate(kind, id, Some(Publish(false, qos, id, topic, body)), Msg(topic, qos, SETTLED, body),
                                   now);
      userAcks := userAcks + [node];
      started := true;
    }

    /** The rest of RyanMqttPublishWithUserData */
    method PublishEnd(kind: Kind, id: u16, packet: Packet, outcome: SendOutcome)
      modifies this
      ensures View() == FinishPublish(old(View()), kind, id, packet, outcome)
    {
      SendPacket(packet, outcome);
      if outcome != Sent {
        ClearAckSession(kind, id);
      }
    }

    /** RyanMqttSubscribeMany up to its send */
    method SubscribeBegin(requests: seq<Request>, now: u32, memory: nat) returns (ready: bool)
      modifies this
      ensures Begun(View(), ready) == BeginSubscribe(old(View()), requests, now, memory)
    {
      var valid := CheckTopics(Topics(requests));
      TopicsOf(requests);
      if !valid || clientState != Connected || memory < 2 {
        return false;
      }
      var id := GetNextPacketId();
      ghost var numbered := View();
      ghost var msgs := SubMsgs(requests, id);
      AddUserNodesTable(numbered, SUBACK, id, msgs, now);
      var left;
      ready, left := CreateSubNodes(requests, id, now, memory - 2);
      if ready {
        ready := CreateSubEntries(requests, id, left);
      }
    }

    /** A node without a packet, made and put on the user list. */
    method AddRequestNode(kind: Kind, id: u16, msg: Msg, now: u32)
      modifies this`nextAddress, this`userAcks
      ensures View() == Allocated(old(View())).(userAcks := old(userAcks) + [NewNode(old(View()), kind, id, None, msg, now)])
    {
      var node := AckHandlerCreate(kind, id, None, msg, now);
      userAcks := userAcks + [node];
    }

    /** The nodes of a SUBSCRIBE; when memory runs out, all of them are cleared again. */
    method CreateSubNodes(requests: seq<Request>, id: u16, now: u32, memory: nat) returns (ready: bool, left: nat)
      modifies this
      ensures ready <==> memory >= 2 * |requests|
      ensures ready ==> left == memory - 2 * |requests|
      ensures var s, msgs := old(View()), SubMsgs(requests, id);
              View() == if ready then AddUserNodes(s, SUBACK, id, msgs, now)
                        else ClearAcks(AddUserNodes(s, SUBACK, id, msgs[..memory / 2], now), SUBACK, id)
    {
      ghost var s, msgs := View(), SubMsgs(requests, id);
      left := memory;
      var i := 0;
      while i < |requests|
        invariant i <= |requests| && left == memory - 2 * i
        invariant View() == AddUserNodes(s, SUBACK, id, msgs[..i], now)
      {
        if left < 2 {
          ClearAckSession(SUBACK, id);
          return false, left;
        }
        SubMsgAt(requests, id, i);
        AddUserNodesNext(s, SUBACK, id, msgs, i, now);
        AddRequestNode(SUBACK, id, Msg(requests[i].topic, requests[i].qos, id, 0), now);
        left := left - 2;
        i := i + 1;
      }
      assert msgs[..i] == msgs;
      ready := true;
    }

    /** The pending entries of a SUBSCRIBE; when memory runs out, nodes and entries go again. */
    method CreateSubEntries(requests: seq<Request>, id: u16, memory: nat) returns (ready: bool)
      modifies this
      ensures ready <==> memory >= |requests|
      ensures var s, msgs := old(View()), SubMsgs(requests, id);
              View() == if ready then s.(subs := s.subs + msgs)
                        else RollbackSubscribe(s.(subs := s.subs + msgs[..memory]), requests, id)
    {
      ghost var s, msgs := View(), SubMsgs(requests, id);
      var i := 0;
      assert s.subs + msgs[..0] == s.subs;
      while i < |requests|
        invariant i <= |requests| && i <= memory
        invariant View() == s.(subs := s.subs + msgs[..i])
      {
        if memory - i < 1 {
          ClearAckSession(SUBACK, id);
          RollbackTable(requests, id);
          return false;
        }
        SubMsgAt(requests, id, i);
        subs := subs + [Msg(requests[i].topic, requests[i].qos, id, 0)];
        assert msgs[..i + 1] == msgs[..i] + [msgs[i]];
        i := i + 1;
      }
      assert msgs[..i] == msgs;
      ready := true;
    }

    /** The checks of the filters before a SUBSCRIBE or UNSUBSCRIBE */
    method CheckTopics(topics: seq<string>) returns (valid: bool)
      ensures valid == TopicsValid(topics)
    {
      if topics == [] {
        return false;
      }
      var i := 0;
      while i < |topics|
        invariant i <= |topics| && forall k | 0 <= k < i :: topics[k] != ""
      {
        if topics[i] == "" {
          assert topics[i] in topics;
          return false;
        }
        i := i + 1;
      }
      valid := true;
    }

    /** The entries of a batch taken off the table again */
    method RollbackTable(requests: seq<Request>, id: u16)
      modifies this`subs
      ensures View() == old(View()).(subs := DropBatch(old(subs), requests, id))
    {
      var i := 0;
      ghost var s := View();
      assert requests[0..] == requests;
      while i < |requests|
        invariant i <= |requests| && View() == s.(subs := subs)
        invariant DropBatch(s.subs, requests, id) == DropBatch(subs, requests[i..], id)
      {
        assert requests[i..][0] == requests[i] && requests[i..][1..] == requests[i + 1..];
        DestroySubs(SameTopicSameId(requests[i].topic, id));
        i := i + 1;
      }
    }

    /** The rest of RyanMqttSubscribeMany */
    method SubscribeEnd(requests: seq<Request>, id: u16, outcome: SendOutcome)
      modifies this
      ensures View() == FinishSubscribe(old(View()), requests, id, outcome)
    {
      SendPacket(Subscribe(id, Topics(requests)), outcome);
      if outcome != Sent {
        ClearAckSession(SUBACK, id);
        RollbackTable(requests, id);
      }
    }

    /** RyanMqttUnSubscribeMany up to its send */
    method UnsubscribeBegin(topics: seq<string>, now: u32, memory: nat) returns (ready: bool)
      modifies this
      ensures Begun(View(), ready) == BeginUnsubscribe(old(View()), topics, now, memory)
    {
      var valid := CheckTopics(topics);
      if !valid || clientState != Connected || memory < 2 {
        return false;
      }
      var id := GetNextPacketId();
      ready := CreateUnsubNodes(topics, id, now, memory - 2);
    }

    /** The QoS of the subscription to `topic`, if there is one */
    method SubscribedQos(topic: string) returns (qos: byte)
      ensures var j := FindSub(subs, topic); qos == if j < |subs| then subs[j].qos else SUB_FAIL
    {
      var j := MsgHandlerFind(topic);
      qos := if j < |subs| then subs[j].qos else SUB_FAIL;
    }

    /** The nodes of an UNSUBSCRIBE; when memory runs out, all of them are cleared again. */
    method CreateUnsubNodes(topics: seq<string>, id: u16, now: u32, memory: nat) returns (ready: bool)
      modifies this
      ensures ready <==> memory >= 2 * |topics|
      ensures var s, msgs := old(View()), UnsubMsgs(old(subs), topics, id);
              View() == if ready then AddUserNodes(s, UNSUBACK, id, msgs, now)
                        else ClearAcks(AddUserNodes(s, UNSUBACK, id, msgs[..memory / 2], now), UNSUBACK, id)
    {
      ghost var s, msgs := View(), UnsubMsgs(subs, topics, id);
      var left := memory;
      var i := 0;
      assert AddUserNodes(s, UNSUBACK, id, msgs[..0], now) == s;
      hide AddUserNodes, UnsubMsgs, ClearAcks;
      while i < |topics|
        invariant i <= |topics| && left == memory - 2 * i
        invariant View() == AddUserNodes(s, UNSUBACK, id, msgs[..i], now)
      {
        AddUserNodesTable(s, UNSUBACK, id, msgs[..i], now);
        var qos := SubscribedQos(topics[i]);
        if left < 2 {
          ClearAckSession(UNSUBACK, id);
          return false;
        }
        UnsubMsgAt(s.subs, topics, id, i);
        AddUserNodesNext(s, UNSUBACK, id, msgs, i, now);
        AddRequestNode(UNSUBACK, id, Msg(topics[i], qos, id, 0), now);
        left := left - 2;
        i := i + 1;
      }
      assert msgs[..i] == msgs;
      ready := true;
    }

    /** The rest of RyanMqttUnSubscribeMany */
    method UnsubscribeEnd(topics: seq<string>, id: u16, outcome: SendOutcome)
      modifies this
      ensures View() == FinishUnsubscribe(old(View()), topics, id, outcome)
    {
      SendPacket(Unsubscribe(id, topics), outcome);
      if outcome != Sent {
        ClearAckSession(UNSUBACK, id);
      }
    }

    /** RyanMqttDiscardAckHandler */
    method DiscardAckHandler(kind: Kind, id: u16)
      modifies this
      ensures View() == Discard(old(View()), kind, id)
    {
      if id < 1 || id > MAX_PACKET_ID {
        return;
      }
      var found := AckListNodeFind(kind, id, true);
      if found.Some? {
        EventCallback(AckHandlerDiscard(found.value));
        AckHandlerDestroy(found.value);
      }
    }

    /** RyanMqttConnectBroker once the CONNACK has been read, which moved the user list over; then the state of a
        connected client. */
    method ConnackAccepted(sessionPresent: bool)
      modifies this
      ensures View() == OnConnack(Sync(old(View())), sessionPresent)
    {
      SyncUserAckHandle();
      if !sessionPresent {
        PurgeSession();
      }
      clientState := Connected;
    }

    /** RyanMqttEventMachine on RyanMqttEventConnected, the state being set */
    method ConnectedEventMachine(input: ScanInput)
      modifies this
      ensures View() == OnConnected(old(View()), input)
    {
      AckListScan(false, input);
      EventCallback(ConnectedEvent);
    }
  }

  lemma {:induction false} TopicsOf(requests: seq<Request>)
    ensures |Topics(requests)| == |requests|
    ensures forall k | 0 <= k < |requests| :: Topics(requests)[k] == requests[k].topic
    ensures TopicsValid(Topics(requests)) <==> RequestsValid(requests)
  {
    if requests != [] {
      TopicsOf(requests[1..]);
      assert Topics(requests) == [requests[0].topic] + Topics(requests[1..]);
      if RequestsValid(requests) {
        forall t | t in Topics(requests) ensures t != "" {
          var k :| 0 <= k < |requests| && Topics(requests)[k] == t;
          assert requests[k] in requests;
        }
      }
      if TopicsValid(Topics(requests)) {
        forall r | r in requests ensures r.topic != "" {
          var k :| 0 <= k < |requests| && requests[k] == r;
          assert Topics(requests)[k] in Topics(requests);
        }
      }
    }
  }

  lemma {:induction false} SubMsgAt(requests: seq<Request>, id: u16, i: nat)
    requires i < |requests|
    ensures SubMsgs(requests, id)[i] == Msg(requests[i].topic, requests[i].qos, id, 0)
  {
    if i > 0 {
      SubMsgAt(requests[1..], id, i - 1);
    }
  }

  lemma {:induction false} UnsubMsgAt(subs: seq<Msg>, topics: seq<string>, id: u16, i: nat)
    requires i < |topics|
    ensures var j := FindSub(subs, topics[i]);
            UnsubMsgs(subs, topics, id)[i] == Msg(topics[i], if j < |subs| then subs[j].qos else SUB_FAIL, id, 0)
  {
    if i > 0 {
      UnsubMsgAt(subs, topics[1..], id, i - 1);
    }
  }

  /** One node more. */
  lemma {:induction false} AddUserNodesNext(s: State, kind: Kind, id: u16, msgs: seq<Msg>, i: nat, now: u32)
    requires i < |msgs|
    ensures var t := AddUserNodes(s, kind, id, msgs[..i], now);
            AddUserNodes(s, kind, id, msgs[..i + 1], now) ==
            Allocated(t).(userAcks := t.userAcks + [NewNode(t, kind, id, None, msgs[i], now)])
    decreases i
  {
    assert msgs[..i + 1][0] == msgs[0] && msgs[..i + 1][1..] == msgs[1..][..i];
    if i > 0 {
      var next := Allocated(s).(userAcks := s.userAcks + [NewNode(s, kind, id, None, msgs[0], now)]);
      AddUserNodesNext(next, kind, id, msgs[1..], i - 1, now);
      assert msgs[..i][0] == msgs[0] && msgs[..i][1..] == msgs[1..][..i - 1];
    } else {
      assert msgs[..0] == [] && msgs[1..][..0] == [];
    }
  }

  lemma {:induction false} AddUserNodesTable(s: State, kind: Kind, id: u16, msgs: seq<Msg>, now: u32)
    ensures AddUserNodes(s, kind, id, msgs, now).subs == s.subs
    decreases |msgs|
  {
    if msgs != [] {
      var next := Allocated(s).(userAcks := s.userAcks + [NewNode(s, kind, id, None, msgs[0], now)]);
      AddUserNodesTable(next, kind, id, msgs[1..], now);
    }
  }

  /** The scan at a node it looks at. */
  lemma {:induction false} ScanGoesOn(s: State, i: nat, k: nat, wait: bool, window: Timer, throttle: u32,
                                     input: ScanInput)
    requires i < |s.acks| && s.clientState == Connected && Remain(window, input.clock(k)) != 0
    ensures var n, now := s.acks[i], input.clock(k);
            var remain := Remain(n.timer, now);
            var least := if remain != 0 && remain < throttle then remain else throttle;
            ScanFrom(s, i, k, wait, window, throttle, input) ==
            if remain != 0 && wait then ScanFrom(s, i + 1, k + 1, wait, window, least, input)
            else if Resendable(n.kind)
            then ScanFrom(ResendAt(s, i, now, input.sends(k)), i + 1, k + 1, wait, window, least, input)
            else ScanFrom(ExpireAt(s, i), i, k + 1, wait, window, least, input)
  {
  }

  /** The scan at its end. */
  lemma {:induction false} ScanStops(s: State, i: nat, k: nat, wait: bool, window: Timer, throttle: u32,
                                    input: ScanInput)
    requires i >= |s.acks| || s.clientState != Connected || Remain(window, input.clock(k)) == 0
    ensures ScanFrom(s, i, k, wait, window, throttle, input) == ScanEnd(s, window, input.clock(k), throttle)
  {
  }

  lemma {:induction false} ClearStepUser(s: State, kind: Kind, id: u16)
    requires FindAck(s.userAcks, kind, id) < |s.userAcks|
    ensures var i := FindAck(s.userAcks, kind, id);
            ClearAcks(Destroy(s.(userAcks := RemoveAt(s.userAcks, i)), s.userAcks[i]), kind, id)
            == ClearAcks(s, kind, id)
  {
    var i := FindAck(s.userAcks, kind, id);
    RemoveFirstAck(s.userAcks, kind, id);
    AddressesAppend([s.userAcks[i]], OnlyAcks(RemoveAt(s.userAcks, i), kind, id));
    assert Addresses([s.userAcks[i]]) == [s.userAcks[i].address];
  }

  lemma {:induction false} ClearStepAck(s: State, kind: Kind, id: u16)
    requires FindAck(s.userAcks, kind, id) == |s.userAcks| && FindAck(s.acks, kind, id) < |s.acks|
    ensures var i := FindAck(s.acks, kind, id);
            ClearAcks(Destroy(RemoveAck(s, i), s.acks[i]), kind, id) == ClearAcks(s, kind, id)
  {
    var i := FindAck(s.acks, kind, id);
    RemoveFirstAck(s.acks, kind, id);
    NoneWaiting(s.userAcks, kind, id);
    AddressesAppend([s.acks[i]], OnlyAcks(RemoveAt(s.acks, i), kind, id));
    assert Addresses([s.acks[i]]) == [s.acks[i].address];
  }
}
