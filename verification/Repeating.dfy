/** Repeats and completions over whole runs against any broker: how far apart two repeats of a node are, and that what
    completes is what was asked for. */
module Repeating {
  import opened Bytes
  import opened Common
  import opened Timers
  import opened PacketIds
  import opened Session
  import opened Requests
  import opened Operations
  import opened Effects
  import opened Limits
  import opened Ledger
  import opened Conservation
  import opened Resend
  import opened Scanning
  import opened Origins
  import RequestEffects

  // ---------------------------------------------------------------- one node, one address

  lemma {:induction false} OneAt(nodes: seq<AckNode>, n: AckNode)
    requires n in nodes
    ensures Sum(nodes, At(n.address)) >= 1
  {
    if nodes[0] != n {
      OneAt(nodes[1..], n);
    }
  }

  lemma {:induction false} TwoAt(nodes: seq<AckNode>, n: AckNode, m: AckNode)
    requires n in nodes && m in nodes && n != m && n.address == m.address
    ensures Sum(nodes, At(n.address)) >= 2
  {
    if nodes[0] == n {
      OneAt(nodes[1..], m);
    } else if nodes[0] == m {
      OneAt(nodes[1..], n);
    } else {
      TwoAt(nodes[1..], n, m);
    }
  }

  /** The address of a node on a list tells it from all others, and from those still to be made. */
  lemma {:induction false} AddressTells(s: State, n: AckNode, m: AckNode)
    requires Owned(s) && Listed(s, n)
    ensures n.address < s.nextAddress
    ensures Listed(s, m) && m.address == n.address ==> m == n
  {
    var a := n.address;
    assert Places(s, a) == if a < s.nextAddress then 1 else 0;
    if n in s.acks {
      OneAt(s.acks, n);
    } else {
      OneAt(s.userAcks, n);
    }
    if Listed(s, m) && m.address == a && m != n {
      if n in s.acks && m in s.acks {
        TwoAt(s.acks, n, m);
      } else if n in s.userAcks && m in s.userAcks {
        TwoAt(s.userAcks, n, m);
      } else if n in s.acks {
        OneAt(s.userAcks, m);
      } else {
        OneAt(s.acks, m);
      }
    }
  }

  // ---------------------------------------------------------------- timers

  ghost predicate AllTimed(s: State, config: Config) {
    s.config == config && forall n | Listed(s, n) :: n.timer.timeout == config.ackTimeout
  }

  lemma {:induction false} TimedStep(s: State, op: Op, config: Config)
    requires StateOk(s) && AllTimed(s, config)
    ensures AllTimed(Perform(s, op), config)
  {
    NodesComeFrom(s, op);
    var r := Perform(s, op);
    hide Perform, StateOk, RepeatedAt, Announced, Tells, Owed;
    forall n | Listed(r, n) ensures n.timer.timeout == config.ackTimeout {
      assert Listed(s, n) || MadeBy(s, op, n) || RepeatedBy(s, op, n);
    }
  }

  /** In every run every node on a list has a timer of ackTimeout. */
  lemma {:induction false} TimersSet(config: Config, ops: seq<Op>)
    ensures AllTimed(After(config, ops), config)
  {
    hide Perform, StateOk;
    if ops != [] {
      var before := ops[..|ops| - 1];
      TimersSet(config, before);
      StoredPackets(config, before);
      TimedStep(After(config, before), ops[|ops| - 1], config);
    }
  }

  // ---------------------------------------------------------------- until it is repeated

  /** The step repeats the node at `a`, as the application hears. */
  ghost predicate Repeated(s: State, r: State, a: nat) {
    exists n: AckNode :: n.address == a && Tells(s, r, RepeatPublishPacket(n))
  }

  lemma {:induction false} RepeatedTold(s: State, op: Op, n: AckNode)
    requires RepeatedBy(s, op, n)
    ensures Repeated(s, Perform(s, op), n.address)
  {
    var m, k :| m in s.acks && n == Again(m, op.input.clock(k), s.config)
                && RepeatedAt(m, k, op.wait, Timer(op.input.clock(0), ScanWindow(s.config)), op.input)
                && Tells(s, Perform(s, op), Announced(m));
    hide Perform, Tells, RepeatedAt;
    assert Announced(m) == RepeatPublishPacket(m.(packet := Some(Owed(m))));
  }

  /** One step without a repeat of the node: whatever is at its address afterwards is the node itself. */
  lemma {:induction false} StaysStep(s: State, op: Op, n: AckNode, m: AckNode)
    requires StateOk(s) && Owned(s) && n.address < s.nextAddress && !Repeated(s, Perform(s, op), n.address)
    requires forall x | Listed(s, x) && x.address == n.address :: x == n
    requires Listed(Perform(s, op), m) && m.address == n.address
    ensures m == n && Perform(s, op).nextAddress >= s.nextAddress
  {
    NodesComeFrom(s, op);
    PlacesKept(s, op);
    assert Listed(s, m) || MadeBy(s, op, m) || RepeatedBy(s, op, m);
    hide Perform, StateOk, Repeated, Owed, Owned;
    if RepeatedBy(s, op, m) {
      RepeatedTold(s, op, m);
    }
  }

  /** Until it is repeated a node is never altered, whatever else happens. */
  lemma {:induction false} StaysUntil(config: Config, ops: seq<Op>, i: nat, n: AckNode)
    requires i <= |ops| && Listed(After(config, ops[..i]), n)
    requires forall k | i <= k < |ops| ::
               !Repeated(After(config, ops[..k]), Perform(After(config, ops[..k]), ops[k]), n.address)
    ensures n.address < After(config, ops).nextAddress
    ensures forall m | Listed(After(config, ops), m) && m.address == n.address :: m == n
    decreases |ops|
  {
    hide Perform, StateOk, Repeated, Listed, Owned;
    assert ops[..|ops|] == ops;
    if i == |ops| {
      NodesOwned(config, ops);
      forall m | Listed(After(config, ops), m) && m.address == n.address ensures m == n {
        AddressTells(After(config, ops), n, m);
      }
      AddressTells(After(config, ops), n, n);
    } else {
      var before, last := ops[..|ops| - 1], ops[|ops| - 1];
      var s := After(config, before);
      assert After(config, ops) == Perform(s, last) && before[..i] == ops[..i];
      forall k | i <= k < |before| ensures !Repeated(After(config, before[..k]), Perform(After(config, before[..k]), before[k]), n.address) {
        assert before[..k] == ops[..k];
      }
      StaysUntil(config, before, i, n);
      assert ops[..|before|] == before;
      StoredPackets(config, before);
      NodesOwned(config, before);
      PlacesKept(s, last);
      hide After;
      forall m | Listed(Perform(s, last), m) && m.address == n.address ensures m == n {
        StaysStep(s, last, n, m);
      }
    }
  }

  /** A scan that repeats the node at an address found it due. */
  lemma {:induction false} RepeatFoundDue(s: State, op: Op, a: nat) returns (m: AckNode, k: nat)
    requires StateOk(s) && op.ScanList? && Repeated(s, Perform(s, op), a)
    ensures m in s.acks && m.address == a && Again(m, op.input.clock(k), s.config) in Perform(s, op).acks
    ensures RepeatedAt(m, k, op.wait, Timer(op.input.clock(0), ScanWindow(s.config)), op.input)
  {
    var told := Scanning.ScanLeaves(s, op.wait, op.input);
    var r, window := Perform(s, op), Timer(op.input.clock(0), ScanWindow(s.config));
    assert r.events[|s.events|..] == told;
    var n: AckNode :| n.address == a && Tells(s, r, RepeatPublishPacket(n));
    hide Scan, StateOk, RepeatedAt, Owed;
    assert Meant(s.acks, r.acks, RepeatPublishPacket(n), op.wait, window, op.input, s.config);
    m, k :| m in s.acks && RepeatedAt(m, k, op.wait, window, op.input) && RepeatPublishPacket(n) == Announced(m)
            && Again(m, op.input.clock(k), s.config) in r.acks;
  }

  /** A waiting scan that repeats the one node at its address: how late it is, and what the node becomes. */
  lemma {:induction false} RepeatLate(s: State, config: Config, n: AckNode, input: ScanInput) returns (k: nat)
    requires StateOk(s) && AllTimed(s, config) && forall m | Listed(s, m) && m.address == n.address :: m == n
    requires Repeated(s, Perform(s, ScanList(true, input)), n.address)
    ensures (input.clock(k) - n.timer.start) % 0x1_0000_0000 >= config.ackTimeout
    ensures exists m :: m in Perform(s, ScanList(true, input)).acks && m.address == n.address && m.id == n.id
                        && m.kind == n.kind && m.msg == n.msg && m.repeatCount == (n.repeatCount + 1) % 0x1_0000
                        && m.timer == Timer(input.clock(k), config.ackTimeout)
  {
    var m;
    m, k := RepeatFoundDue(s, ScanList(true, input), n.address);
    hide Perform, StateOk, Repeated;
    assert Listed(s, m) && m == n;
    WindowIs(n, k, true, s.config, input);
  }

  /** In every run, between the reading that started a node's timer and a waiting scan's repeat of it, with no repeat in
      between, at least ackTimeout passes; the repeat starts the timer again. So two repeats of a packet, or its call and
      the first repeat, are never closer while the connection holds. */
  lemma {:induction false} RepeatsApart(config: Config, ops: seq<Op>, i: nat, n: AckNode, input: ScanInput)
    returns (k: nat)
    requires i < |ops| && Listed(After(config, ops[..i]), n) && ops[|ops| - 1] == ScanList(true, input)
    requires forall k | i <= k < |ops| - 1 ::
               !Repeated(After(config, ops[..k]), Perform(After(config, ops[..k]), ops[k]), n.address)
    requires Repeated(After(config, ops[..|ops| - 1]), After(config, ops), n.address)
    ensures (input.clock(k) - n.timer.start) % 0x1_0000_0000 >= config.ackTimeout
    ensures exists m :: m in After(config, ops).acks && m.address == n.address && m.id == n.id && m.kind == n.kind
                        && m.msg == n.msg && m.repeatCount == (n.repeatCount + 1) % 0x1_0000
                        && m.timer == Timer(input.clock(k), config.ackTimeout)
  {
    hide Perform, StateOk, Repeated, Owned, Listed, AllTimed;
    var before, last := ops[..|ops| - 1], ops[|ops| - 1];
    var s := After(config, before);
    assert After(config, ops) == Perform(s, last) && before[..i] == ops[..i];
    hide After;
    forall k | i <= k < |before| ensures !Repeated(After(config, before[..k]), Perform(After(config, before[..k]), before[k]), n.address) {
      assert before[..k] == ops[..k];
    }
    StaysUntil(config, before, i, n);
    StoredPackets(config, before);
    TimersSet(config, before);
    k := RepeatLate(s, config, n, input);
  }

  // ---------------------------------------------------------------- what completes is what was asked for

  /** The message is that of a QoS 1 or 2 publish of the run, whose QoS fits the kind of the node. */
  ghost predicate AskedFor(ops: seq<Op>, n: AckNode) {
    exists k :: 0 <= k < |ops| && ops[k].PublishBegin?
                && n.msg == Msg(ops[k].topic, ops[k].qos, SETTLED, ops[k].body)
                && (n.kind == PUBACK <==> ops[k].qos == 1)
  }

  ghost predicate AllAsked(s: State, ops: seq<Op>) {
    && (forall n | Listed(s, n) && OfPublish(n.kind) :: AskedFor(ops, n))
    && (forall n | Published(n) in s.events :: OfPublish(n.kind) && AskedFor(ops, n))
  }

  lemma {:induction false} AskedGrows(ops: seq<Op>, op: Op, n: AckNode)
    requires AskedFor(ops, n)
    ensures AskedFor(ops + [op], n)
  {
    var k :| 0 <= k < |ops| && ops[k].PublishBegin? && n.msg == Msg(ops[k].topic, ops[k].qos, SETTLED, ops[k].body)
             && (n.kind == PUBACK <==> ops[k].qos == 1);
    assert (ops + [op])[k] == ops[k];
  }

  lemma {:induction false} NodeAsked(s: State, ops: seq<Op>, op: Op, n: AckNode)
    requires AllAsked(s, ops) && OfPublish(n.kind)
    requires Listed(s, n) || MadeBy(s, op, n) || RepeatedBy(s, op, n)
    ensures AskedFor(ops + [op], n)
  {
    hide Perform, RepeatedAt, Tells, Announced, Owed;
    if Listed(s, n) {
      AskedGrows(ops, op, n);
    } else if MadeBy(s, op, n) {
      if op.PublishBegin? {
        assert (ops + [op])[|ops|] == op;
      } else {
        var w :| w in s.acks && Waits(w, PUBREC, op.packet.id)
                 && n.kind == PUBCOMP && n.msg == w.msg.(packetId := SETTLED);
        AskedGrows(ops, op, w);
      }
    } else {
      var m, k :| m in s.acks && n == Again(m, op.input.clock(k), s.config);
      AskedGrows(ops, op, m);
    }
  }

  /** New Published events are about nodes that were on the list. */
  ghost predicate CompletesListed(s: State, r: State) {
    s.events <= r.events
    && forall j | |s.events| <= j < |r.events| && r.events[j].Published? ::
         r.events[j].node in s.acks && OfPublish(r.events[j].node.kind)
  }

  lemma {:induction false} SendCompletes(s: State, t: State, p: Packet, outcome: SendOutcome)
    requires CompletesListed(s, t)
    ensures CompletesListed(s, Send(t, p, outcome))
  {
  }

  lemma {:induction false} QuietCompletes(s: State, r: State)
    requires QuietEvents(s, r)
    ensures CompletesListed(s, r)
  {
  }

  lemma {:induction false} HandleCompletes(s: State, p: Packet, now: u32, memory: nat, outcome: SendOutcome)
    requires StateOk(s)
    ensures CompletesListed(s, Dispatch(s, p, now, memory, outcome))
  {
    hide SubackFrom, UnsubackFrom, Send, StateOk, CompletesListed, FindMatch;
    SameCompletes(s, s);
    if Refused(p) {
      return;
    }
    match p
    case Publish(_, _, _, _, _) => PublishCompletes(s, p, now, memory, outcome);
    case Puback(id) => PubackCompletes(s, PUBACK, id);
    case Pubcomp(id) => PubackCompletes(s, PUBCOMP, id);
    case Pubrec(id) => PubrecCompletes(s, id, now, memory, outcome);
    case Pubrel(id) => PubrelCompletes(s, id, outcome);
    case Suback(id, codes) =>
      SubackDestroys(s, 0, id, codes);
      QuietCompletes(s, SubackFrom(s, 0, id, codes));
      SameCompletes(s, ClearAcks(s, SUBACK, id).(subs := DropSubs(s.subs, WithId(id))));
    case Unsuback(id) =>
      UnsubackDestroys(s, 0, id);
      QuietCompletes(s, UnsubackFrom(s, 0, id));
    case _ =>
  }

  lemma {:induction false} SameCompletes(s: State, r: State)
    ensures r.events == s.events ==> CompletesListed(s, r)
  {
  }

  lemma {:induction false} PublishCompletes(s: State, p: Packet, now: u32, memory: nat, outcome: SendOutcome)
    requires p.Publish?
    ensures CompletesListed(s, OnPublish(s, p, now, memory, outcome))
  {
    var told := Log(s, Data(p));
    var node := NewNode(s, PUBREL, p.id, Some(Packet.Pubrec(p.id)), Msg(p.topic, p.qos, SETTLED, 0), now);
    var added := AddAck(Allocated(told), node);
    assert CompletesListed(s, s) && CompletesListed(s, told) && CompletesListed(s, Log(s, UnsubscribedData(p)));
    assert CompletesListed(s, added);
    hide Send, CompletesListed, AddAck, FindAck, FindMatch;
    SendCompletes(s, told, Packet.Puback(p.id), outcome);
    SendCompletes(s, s, Packet.Pubrec(p.id), outcome);
    SendCompletes(s, added, Packet.Pubrec(p.id), outcome);
  }

  lemma {:induction false} PubackCompletes(s: State, kind: Kind, id: u16)
    requires kind == PUBACK || kind == PUBCOMP
    ensures CompletesListed(s, OnPuback(s, kind, id))
  {
    var i := FindAck(s.acks, kind, id);
    if i < |s.acks| {
      assert OnPuback(s, kind, id).events == s.events + [Published(s.acks[i])] && s.acks[i] in s.acks;
    }
  }

  lemma {:induction false} PubrecCompletes(s: State, id: u16, now: u32, memory: nat, outcome: SendOutcome)
    ensures CompletesListed(s, OnPubrec(s, id, now, memory, outcome))
  {
    var i := FindAck(s.acks, PUBREC, id);
    if FindAck(s.acks, PUBCOMP, id) < |s.acks| || i == |s.acks| {
      SendCompletes(s, s, Packet.Pubrel(id), outcome);
    } else if memory >= 2 {
      var moved := Moved(s, i, now);
      assert OnPubrec(s, id, now, memory, outcome) == Send(moved, Packet.Pubrel(id), outcome);
      assert CompletesListed(s, moved);
      hide Moved, OnPubrec, Send;
      SendCompletes(s, moved, Packet.Pubrel(id), outcome);
    }
  }

  lemma {:induction false} PubrelCompletes(s: State, id: u16, outcome: SendOutcome)
    ensures CompletesListed(s, OnPubrel(s, id, outcome))
  {
    var i := FindAck(s.acks, PUBREL, id);
    var released := if i == |s.acks| then s else Destroy(RemoveAck(s, i), s.acks[i]);
    SendCompletes(s, released, Packet.Pubcomp(id), outcome);
  }

  lemma {:induction false} StepCompletes(s: State, op: Op)
    requires StateOk(s)
    ensures CompletesListed(s, Perform(s, op))
  {
    hide Dispatch, Scan, Sync, BeginSubscribe, BeginUnsubscribe, Send, StateOk, CompletesListed, DropBatch, ClearAcks;
    SameCompletes(s, s);
    match op
    case Handle(p, now, memory, outcome) => HandleCompletes(s, p, now, memory, outcome);
    case ScanList(wait, input) =>
      ScanEffect(s, wait, input);
      QuietCompletes(s, Scan(s, wait, input));
    case SyncLists =>
      SyncEffect(s);
      QuietCompletes(s, Sync(s));
    case SubscribeBegin(requests, now, memory) =>
      RequestEffects.BeginSubscribeAside(s, requests, now, memory);
      QuietCompletes(s, Perform(s, op));
    case UnsubscribeBegin(topics, now, memory) =>
      RequestEffects.BeginUnsubscribeAside(s, topics, now, memory);
      QuietCompletes(s, Perform(s, op));
    case _ => CallCompletes(s, op);
  }

  lemma {:induction false} CallCompletes(s: State, op: Op)
    requires !op.Handle? && !op.ScanList? && !op.SyncLists? && !op.SubscribeBegin? && !op.UnsubscribeBegin?
    ensures CompletesListed(s, Perform(s, op))
  {
    hide DropBatch;
  }

  lemma {:induction false} AskedStep(s: State, ops: seq<Op>, op: Op)
    requires StateOk(s) && AllAsked(s, ops)
    ensures AllAsked(Perform(s, op), ops + [op])
  {
    NodesComeFrom(s, op);
    StepCompletes(s, op);
    var r := Perform(s, op);
    hide Perform, StateOk, AskedFor, MadeBy, RepeatedBy;
    forall n | Listed(r, n) && OfPublish(n.kind) ensures AskedFor(ops + [op], n) {
      assert Listed(s, n) || MadeBy(s, op, n) || RepeatedBy(s, op, n);
      NodeAsked(s, ops, op, n);
    }
    forall n | Published(n) in r.events ensures OfPublish(n.kind) && AskedFor(ops + [op], n) {
      var j :| 0 <= j < |r.events| && r.events[j] == Published(n);
      if j < |s.events| {
        assert s.events[j] == Published(n);
      } else {
        assert Listed(s, n);
      }
      AskedGrows(ops, op, n);
    }
  }

  /** In every run a Published event is about the topic, QoS and user data of a publish that was called. */
  lemma {:induction false} PublishedAsAsked(config: Config, ops: seq<Op>)
    ensures AllAsked(After(config, ops), ops)
  {
    hide Perform, StateOk;
    if ops != [] {
      var before := ops[..|ops| - 1];
      PublishedAsAsked(config, before);
      StoredPackets(config, before);
      assert before + [ops[|ops| - 1]] == ops;
      AskedStep(After(config, before), before, ops[|ops| - 1]);
    }
  }
}
