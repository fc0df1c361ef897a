/** The account of the user's QoS 1 and 2 publishes, in runs against any broker, clean session or not. */
module Accounts {
  import opened Bytes
  import opened Common
  import opened PacketIds
  import opened Session
  import opened Requests
  import opened Operations
  import opened Effects
  import opened RequestEffects
  import opened Events
  import opened Limits
  import opened Conservation

  /** One for a node of publish `b`. */
  function Of(b: nat): Weight {
    (n: AckNode) => if OfPublish(n.kind) && n.msg.userData == b then 1 else 0
  }

  /** The nodes of publish `b` in flight. */
  function Outstanding(s: State, b: nat): nat {
    Sum(s.acks, Of(b)) + Sum(s.userAcks, Of(b))
  }

  /** `gone` nodes of publish `b` leave without a word to the application. */
  ghost predicate Loses(s: State, r: State, b: nat, gone: nat) {
    && Outstanding(r, b) + gone == Outstanding(s, b)
    && Completions(r.events, b) == Completions(s.events, b) && Discards(r.events, b) == Discards(s.events, b)
  }

  lemma {:induction false} QuietLoses(s: State, r: State, b: nat, gone: nat)
    requires QuietEvents(s, r) && Outstanding(r, b) + gone == Outstanding(s, b)
    ensures Loses(s, r, b, gone)
  {
    CompletionsQuiet(s.events, r.events, b);
    DiscardsQuiet(s.events, r.events, b);
  }

  // ---------------------------------------------------------------- losing the connection

  /** The connection went down during the step. */
  predicate Drops(s: State, r: State) {
    |r.events| > |s.events| && r.events[|r.events| - 1] == DisconnectedEvent
  }

  /** The step purged the session. */
  predicate Purges(s: State, op: Op) {
    || (op.Connack? && !op.sessionPresent)
    || (s.config.cleanSession && !op.ScanList? && Drops(s, Perform(s, op)))
  }

  /** `t` continues `s`, its last new event not a lost connection. */
  predicate Holds(s: State, t: State) {
    && t.config == s.config && s.events <= t.events
    && (|t.events| > |s.events| ==> t.events[|t.events| - 1] != DisconnectedEvent)
  }

  /** A send after the other work of a step. */
  lemma {:induction false} SendLoses(s: State, t: State, p: Packet, outcome: SendOutcome, b: nat)
    requires Loses(s, t, b, 0) && Holds(s, t)
    ensures var r := Send(t, p, outcome);
            Loses(s, r, b, if s.config.cleanSession && Drops(s, r) then Outstanding(s, b) else 0)
  {
    var r := Send(t, p, outcome);
    if outcome == SocketError {
      CompletionsPush(t.events, DisconnectedEvent, b);
      DiscardsPush(t.events, DisconnectedEvent, b);
      assert r.events == t.events + [DisconnectedEvent];
    } else {
      assert r.events == t.events;
    }
  }

  // ---------------------------------------------------------------- nodes that are no publish's

  lemma {:induction false} OtherKind(nodes: seq<AckNode>, kind: Kind, id: u16, b: nat)
    requires !OfPublish(kind)
    ensures Sum(OnlyAcks(nodes, kind, id), Of(b)) == 0
  {
    if nodes != [] {
      OtherKind(nodes[1..], kind, id, b);
      if Waits(nodes[0], kind, id) {
        assert OnlyAcks(nodes, kind, id)[1..] == OnlyAcks(nodes[1..], kind, id);
      }
    }
  }

  lemma {:induction false} ClearLoses(s: State, kind: Kind, id: u16, b: nat)
    ensures Loses(s, ClearAcks(s, kind, id), b,
                  Sum(OnlyAcks(s.acks, kind, id), Of(b)) + Sum(OnlyAcks(s.userAcks, kind, id), Of(b)))
  {
    SumSplit(s.acks, kind, id, Of(b));
    SumSplit(s.userAcks, kind, id, Of(b));
  }

  lemma {:induction false} ClearOther(s: State, kind: Kind, id: u16, b: nat)
    requires !OfPublish(kind)
    ensures Loses(s, ClearAcks(s, kind, id), b, 0)
  {
    ClearLoses(s, kind, id, b);
    OtherKind(s.acks, kind, id, b);
    OtherKind(s.userAcks, kind, id, b);
  }

  lemma {:induction false} NodesLose(s: State, kind: Kind, id: u16, msgs: seq<Msg>, now: u32, b: nat)
    requires !OfPublish(kind)
    ensures Loses(s, AddUserNodes(s, kind, id, msgs, now), b, 0)
    ensures AddUserNodes(s, kind, id, msgs, now).events == s.events
    decreases |msgs|
  {
    if msgs != [] {
      var node := NewNode(s, kind, id, None, msgs[0], now);
      SumPush(s.userAcks, node, Of(b));
      NodesLose(Allocated(s).(userAcks := s.userAcks + [node]), kind, id, msgs[1..], now, b);
    }
  }

  lemma {:induction false} SyncLoses(s: State, b: nat)
    ensures Loses(s, Sync(s), b, 0) && QuietEvents(s, Sync(s)) && Holds(s, Sync(s))
    decreases |s.userAcks|
  {
    hide Outstanding, Completions, Discards;
    if s.userAcks != [] {
      SyncStepLoses(s, b);
      var r := AddAck(s.(userAcks := s.userAcks[1..]), s.userAcks[0]);
      SyncLoses(r, b);
      assert Sync(s) == Sync(r);
      hide Loses, QuietEvents, Holds, AddAck, Sync;
      LosesChain(s, r, Sync(r), b);
    } else {
      assert Sync(s) == s;
    }
  }

  lemma {:induction false} LosesChain(s: State, r: State, t: State, b: nat)
    requires Loses(s, r, b, 0) && QuietEvents(s, r) && Holds(s, r)
    requires Loses(r, t, b, 0) && QuietEvents(r, t) && Holds(r, t)
    ensures Loses(s, t, b, 0) && QuietEvents(s, t) && Holds(s, t)
  {
  }

  lemma {:induction false} SyncStepLoses(s: State, b: nat)
    requires s.userAcks != []
    ensures var r := AddAck(s.(userAcks := s.userAcks[1..]), s.userAcks[0]);
            Loses(s, r, b, 0) && QuietEvents(s, r) && Holds(s, r)
  {
    SumPush(s.acks, s.userAcks[0], Of(b));
    QuietLoses(s, AddAck(s.(userAcks := s.userAcks[1..]), s.userAcks[0]), b, 0);
  }

  lemma {:induction false} ScanLoses(s: State, i: nat, k: nat, wait: bool, window: Timers.Timer, throttle: u32,
                                    input: ScanInput, b: nat)
    ensures Loses(s, ScanFrom(s, i, k, wait, window, throttle, input), b, 0)
    decreases |s.acks| - i
  {
    hide ResendAt, ExpireAt;
    var now := input.clock(k);
    if i < |s.acks| && s.clientState == Connected && Timers.Remain(window, now) != 0 {
      var n := s.acks[i];
      var remain := Timers.Remain(n.timer, now);
      var least := if remain != 0 then Min(remain, throttle) else throttle;
      if remain != 0 && wait {
        ScanLoses(s, i + 1, k + 1, wait, window, least, input, b);
      } else if Resendable(n.kind) {
        ResendLoses(s, i, now, input.sends(k), b);
        ScanLoses(ResendAt(s, i, now, input.sends(k)), i + 1, k + 1, wait, window, least, input, b);
      } else {
        ExpireLoses(s, i, b);
        ScanLoses(ExpireAt(s, i), i, k + 1, wait, window, least, input, b);
      }
    }
  }

  lemma {:induction false} ResendLoses(s: State, i: nat, now: u32, outcome: SendOutcome, b: nat)
    requires i < |s.acks| && Resendable(s.acks[i].kind)
    ensures Loses(s, ResendAt(s, i, now, outcome), b, 0)
  {
    SumUpdate(s.acks, i, Resent(s.acks[i], now, s.config), Of(b));
    QuietLoses(s, ResendAt(s, i, now, outcome), b, 0);
  }

  lemma {:induction false} ExpireLoses(s: State, i: nat, b: nat)
    requires i < |s.acks| && !Resendable(s.acks[i].kind)
    ensures Loses(s, ExpireAt(s, i), b, 0)
  {
    SumAt(s.acks, i, Of(b));
    QuietLoses(s, ExpireAt(s, i), b, 0);
  }

  // ---------------------------------------------------------------- the account

  /** How many publish calls for `b` a step accepts. */
  function Accepted(s: State, op: Op, b: nat): nat {
    if op.PublishBegin? && op.body == b && Accepts(s, op.topic, op.memory) then 1 else 0
  }

  /** Nodes of `b` taken back because the first send failed. */
  function RolledBack(s: State, op: Op, b: nat): nat {
    if op.PublishEnd? && op.outcome != Sent && !Purges(s, op)
    then Sum(OnlyAcks(s.acks, PublishKind(op.qos), op.id), Of(b))
         + Sum(OnlyAcks(s.userAcks, PublishKind(op.qos), op.id), Of(b))
    else 0
  }

  /** Nodes of `b` that go with the session. */
  function Purged(s: State, op: Op, b: nat): nat {
    if Purges(s, op) then Outstanding(s, b) else 0
  }

  /** Whether the packet makes the client destroy every node of its id. */
  predicate Sweeps(s: State, p: Packet) {
    !Refused(p) && (p.Unsuback? || (p.Suback? && CountSubs(s.subs, p.id) == |p.codes|))
  }

  /** Nodes of `b` destroyed by a SUBACK or UNSUBACK that has their id. */
  function Swept(s: State, op: Op, b: nat): nat {
    if op.Handle? && Sweeps(s, op.packet) then Sum(SameIds(s.acks, op.packet.id), Of(b)) else 0
  }

  function SameIds(acks: seq<AckNode>, id: u16): seq<AckNode> {
    if acks == [] then [] else (if acks[0].id == id then [acks[0]] else []) + SameIds(acks[1..], id)
  }

  lemma {:induction false} IdsSplit(acks: seq<AckNode>, id: u16, f: Weight)
    ensures Sum(acks, f) == Sum(OtherIds(acks, id), f) + Sum(SameIds(acks, id), f)
  {
    if acks != [] {
      IdsSplit(acks[1..], id, f);
      var other, same := OtherIds(acks[1..], id), SameIds(acks[1..], id);
      assert ([acks[0]] + other)[1..] == other && ([acks[0]] + same)[1..] == same;
      assert [] + other == other && [] + same == same;
    }
  }

  /** The account of one step: what was in flight and what comes in is what stays in flight, is completed or discarded
      before the application's eyes, or is rolled back, purged or swept away. */
  ghost predicate Balances(s: State, op: Op, b: nat) {
    var r := Perform(s, op);
    && Completions(r.events, b) >= Completions(s.events, b) && Discards(r.events, b) >= Discards(s.events, b)
    && Outstanding(s, b) + Accepted(s, op, b) ==
       Outstanding(r, b) + (Completions(r.events, b) - Completions(s.events, b))
       + (Discards(r.events, b) - Discards(s.events, b))
       + RolledBack(s, op, b) + Purged(s, op, b) + Swept(s, op, b)
  }

  lemma {:induction false} LosesBalances(s: State, op: Op, b: nat)
    requires Accepted(s, op, b) == 0
    requires Loses(s, Perform(s, op), b, RolledBack(s, op, b) + Purged(s, op, b) + Swept(s, op, b))
    ensures Balances(s, op, b)
  {
  }

  lemma {:induction false} TellLoses(s: State, e: Event, b: nat)
    requires e.Data? || e.UnsubscribedData?
    ensures Loses(s, Log(s, e), b, 0) && Holds(s, Log(s, e))
  {
  }

  lemma {:induction false} RecordLoses(s: State, n: AckNode, b: nat)
    requires n.kind == PUBREL
    ensures Loses(s, AddAck(Allocated(s), n), b, 0) && Holds(s, AddAck(Allocated(s), n))
  {
    SumPush(s.acks, n, Of(b));
    QuietLoses(s, AddAck(Allocated(s), n), b, 0);
  }

  lemma {:induction false} PublishLoses(s: State, p: Packet, now: u32, memory: nat, outcome: SendOutcome, b: nat)
    requires p.Publish?
    ensures var r := OnPublish(s, p, now, memory, outcome);
            Loses(s, r, b, if s.config.cleanSession && Drops(s, r) then Outstanding(s, b) else 0)
  {
    hide Outstanding, AddAck, Send, Completions, Discards;
    var told := Log(s, Data(p));
    TellLoses(s, Data(p), b);
    TellLoses(s, UnsubscribedData(p), b);
    if FindMatch(s.subs, p.topic) == |s.subs| || p.qos == 0 {
    } else if p.qos == 1 {
      SendLoses(s, told, Packet.Puback(p.id), outcome, b);
    } else if FindAck(s.acks, PUBREL, p.id) < |s.acks| {
      assert Loses(s, s, b, 0);
      SendLoses(s, s, Packet.Pubrec(p.id), outcome, b);
    } else if memory >= 2 {
      var node := NewNode(s, PUBREL, p.id, Some(Packet.Pubrec(p.id)), Msg(p.topic, p.qos, SETTLED, 0), now);
      var added := AddAck(Allocated(told), node);
      RecordLoses(told, node, b);
      SendLoses(s, added, Packet.Pubrec(p.id), outcome, b);
    }
  }

  lemma {:induction false} PublishBalances(s: State, op: Op, b: nat)
    requires op.Handle? && !Refused(op.packet) && op.packet.Publish?
    ensures Balances(s, op, b)
  {
    hide OnPublish, Outstanding, Loses, Balances, Drops;
    PublishLoses(s, op.packet, op.now, op.memory, op.outcome, b);
    LosesBalances(s, op, b);
  }

  lemma {:induction false} PubrelBalances(s: State, op: Op, b: nat)
    requires op.Handle? && !Refused(op.packet) && op.packet.Pubrel?
    ensures Balances(s, op, b)
  {
    var id := op.packet.id;
    var i := FindAck(s.acks, PUBREL, id);
    var released := if i == |s.acks| then s else Destroy(RemoveAck(s, i), s.acks[i]);
    if i < |s.acks| {
      SumAt(s.acks, i, Of(b));
    }
    SendLoses(s, released, Packet.Pubcomp(id), op.outcome, b);
    LosesBalances(s, op, b);
  }

  lemma {:induction false} MovedLoses(s: State, i: nat, now: u32, b: nat)
    requires i < |s.acks| && s.acks[i].kind == PUBREC
    ensures Loses(s, Moved(s, i, now), b, 0) && Holds(s, Moved(s, i, now))
  {
    var n := s.acks[i];
    var taken := RemoveAck(s, i);
    var node := NewNode(taken, PUBCOMP, n.id, Some(Packet.Pubrel(n.id)), n.msg.(packetId := SETTLED), now);
    SumAt(s.acks, i, Of(b));
    SumPush(taken.acks, node, Of(b));
    QuietLoses(s, Moved(s, i, now), b, 0);
  }

  lemma {:induction false} PubrecLoses(s: State, id: u16, now: u32, memory: nat, outcome: SendOutcome, b: nat)
    ensures var r := OnPubrec(s, id, now, memory, outcome); Loses(s, r, b, Taken(s, r, b))
  {
    hide FindAck, Send;
    var i := FindAck(s.acks, PUBREC, id);
    if FindAck(s.acks, PUBCOMP, id) < |s.acks| || i == |s.acks| {
      assert Loses(s, s, b, 0) && Holds(s, s);
      SendLoses(s, s, Packet.Pubrel(id), outcome, b);
    } else if memory < 2 {
      PutBackLoses(s, i, b);
    } else {
      MovedLoses(s, i, now, b);
      SendLoses(s, Moved(s, i, now), Packet.Pubrel(id), outcome, b);
      assert OnPubrec(s, id, now, memory, outcome) == Send(Moved(s, i, now), Packet.Pubrel(id), outcome);
    }
  }

  lemma {:induction false} PutBackLoses(s: State, i: nat, b: nat)
    requires i < |s.acks|
    ensures var r := AddAck(RemoveAck(s, i), s.acks[i]); Loses(s, r, b, 0) && Holds(s, r)
  {
    SumAt(s.acks, i, Of(b));
    SumPush(RemoveAt(s.acks, i), s.acks[i], Of(b));
    QuietLoses(s, AddAck(RemoveAck(s, i), s.acks[i]), b, 0);
  }

  lemma {:induction false} PubrecBalances(s: State, op: Op, b: nat)
    requires op.Handle? && !Refused(op.packet) && op.packet.Pubrec?
    ensures Balances(s, op, b)
  {
    hide Loses, OnPubrec, Taken, Balances;
    PubrecLoses(s, op.packet.id, op.now, op.memory, op.outcome, b);
    TakenBalances(s, op, b);
  }

  lemma {:induction false} CompletionBalances(s: State, op: Op, b: nat)
    requires op.Handle? && !Refused(op.packet) && (op.packet.Puback? || op.packet.Pubcomp?)
    ensures Balances(s, op, b)
  {
    var kind := if op.packet.Puback? then PUBACK else PUBCOMP;
    hide OnPuback, Tells, Balances;
    PubackTells(s, kind, op.packet.id, b);
    assert Perform(s, op) == OnPuback(s, kind, op.packet.id);
    TellsBalances(s, op, b);
  }

  lemma {:induction false} TellsBalances(s: State, op: Op, b: nat)
    requires op.Handle? && !Sweeps(s, op.packet) && Tells(s, Perform(s, op), b)
    ensures Balances(s, op, b)
  {
  }

  /** A node of `b` less is a completion more. */
  ghost predicate Tells(s: State, r: State, b: nat) {
    && Outstanding(r, b) + Completions(r.events, b) == Outstanding(s, b) + Completions(s.events, b)
    && Completions(r.events, b) >= Completions(s.events, b) && Discards(r.events, b) == Discards(s.events, b)
    && !Drops(s, r)
  }

  /** A node completed is a node less and a completion more. */
  lemma {:induction false} PubackTells(s: State, kind: Kind, id: u16, b: nat)
    requires kind == PUBACK || kind == PUBCOMP
    ensures Tells(s, OnPuback(s, kind, id), b)
  {
    var i := FindAck(s.acks, kind, id);
    if i == |s.acks| {
      assert OnPuback(s, kind, id) == s;
    } else {
      var n, r := s.acks[i], OnPuback(s, kind, id);
      assert r.acks == RemoveAt(s.acks, i) && r.userAcks == s.userAcks && r.events == s.events + [Published(n)];
      assert OfPublish(n.kind);
      hide OnPuback, FindAck, Sum, RemoveAt;
      SumAt(s.acks, i, Of(b));
      CompletionsPush(s.events, Published(n), b);
      DiscardsPush(s.events, Published(n), b);
    }
  }

  lemma {:induction false} SweepLoses(s: State, r: State, id: u16, b: nat)
    requires r.acks == OtherIds(s.acks, id) && r.userAcks == s.userAcks && QuietEvents(s, r)
    ensures Loses(s, r, b, Sum(SameIds(s.acks, id), Of(b)))
  {
    IdsSplit(s.acks, id, Of(b));
    QuietLoses(s, r, b, Sum(SameIds(s.acks, id), Of(b)));
  }

  lemma {:induction false} SubackLoses(s: State, id: u16, codes: seq<byte>, b: nat)
    ensures var r := OnSuback(s, id, codes);
            && Loses(s, r, b, if CountSubs(s.subs, id) == |codes| then Sum(SameIds(s.acks, id), Of(b)) else 0)
            && Holds(s, r)
  {
    hide Outstanding, Loses;
    if CountSubs(s.subs, id) == |codes| {
      SubackDestroys(s, 0, id, codes);
      SubackHolds(s, 0, id, codes);
      assert s.acks[0..] == s.acks && [] + OtherIds(s.acks, id) == OtherIds(s.acks, id);
      SweepLoses(s, OnSuback(s, id, codes), id, b);
    } else {
      MismatchLoses(s, id, codes, b);
    }
  }

  lemma {:induction false} MismatchLoses(s: State, id: u16, codes: seq<byte>, b: nat)
    requires CountSubs(s.subs, id) != |codes|
    ensures Loses(s, OnSuback(s, id, codes), b, 0) && Holds(s, OnSuback(s, id, codes))
  {
    ClearOther(s, SUBACK, id, b);
  }

  lemma {:induction false} SubackBalances(s: State, op: Op, b: nat)
    requires op.Handle? && !Refused(op.packet) && op.packet.Suback?
    ensures Balances(s, op, b)
  {
    hide OnSuback, Outstanding, Completions, Discards;
    SubackLoses(s, op.packet.id, op.packet.codes, b);
    assert Loses(s, s, b, 0);
    hide Loses;
    LosesBalances(s, op, b);
  }

  lemma {:induction false} UnsubackBalances(s: State, op: Op, b: nat)
    requires op.Handle? && !Refused(op.packet) && op.packet.Unsuback?
    ensures Balances(s, op, b)
  {
    hide UnsubackFrom, Outstanding;
    var id := op.packet.id;
    UnsubackDestroys(s, 0, id);
    assert s.acks[0..] == s.acks && [] + OtherIds(s.acks, id) == OtherIds(s.acks, id);
    UnsubackHolds(s, 0, id);
    SweepLoses(s, Perform(s, op), id, b);
    hide Loses;
    LosesBalances(s, op, b);
  }

  lemma {:induction false} SubackHolds(s: State, i: nat, id: u16, codes: seq<byte>)
    ensures Holds(s, SubackFrom(s, i, id, codes))
    decreases |s.acks| - i
  {
    if i < |s.acks| {
      var n := s.acks[i];
      if n.id != id {
        SubackHolds(s, i + 1, id, codes);
      } else {
        var r := if n.kind == SUBACK then SettleNode(s, n, codes) else Settling(s, codes);
        SubackHolds(Destroy(RemoveAck(r.state, i), n), i, id, r.codes);
      }
    }
  }

  lemma {:induction false} UnsubackHolds(s: State, i: nat, id: u16)
    ensures Holds(s, UnsubackFrom(s, i, id))
    decreases |s.acks| - i
  {
    if i < |s.acks| {
      if s.acks[i].id != id {
        UnsubackHolds(s, i + 1, id);
      } else {
        UnsubackHolds(UnsubackNode(s, i), i, id);
      }
    }
  }

  lemma {:induction false} HandleBalances(s: State, op: Op, b: nat)
    requires op.Handle?
    ensures Balances(s, op, b)
  {
    hide Balances;
    var p := op.packet;
    if Refused(p) {
      assert Perform(s, op) == s;
      LosesBalances(s, op, b);
    } else if p.Publish? {
      PublishBalances(s, op, b);
    } else if p.Puback? || p.Pubcomp? {
      CompletionBalances(s, op, b);
    } else if p.Pubrec? {
      PubrecBalances(s, op, b);
    } else if p.Pubrel? {
      PubrelBalances(s, op, b);
    } else if p.Suback? {
      SubackBalances(s, op, b);
    } else if p.Unsuback? {
      UnsubackBalances(s, op, b);
    } else {
      assert Perform(s, op) == s;
      LosesBalances(s, op, b);
    }
  }

  /** What a step that may lose the connection takes from publish `b`. */
  function Taken(s: State, r: State, b: nat): nat {
    if s.config.cleanSession && Drops(s, r) then Outstanding(s, b) else 0
  }

  /** The step of such an operation balances. */
  lemma {:induction false} TakenBalances(s: State, op: Op, b: nat)
    requires Loses(s, Perform(s, op), b, Taken(s, Perform(s, op), b))
    requires !op.PublishBegin? && !op.PublishEnd? && !op.ScanList? && !op.Connack? && !(op.Handle? && Sweeps(s, op.packet))
    ensures Balances(s, op, b)
  {
  }

  lemma {:induction false} EndLoses(s: State, p: Packet, outcome: SendOutcome, kind: Kind, id: u16, subs: seq<Msg>, b: nat)
    requires !OfPublish(kind)
    ensures var r := Send(s, p, outcome); Loses(s, r, b, Taken(s, r, b))
    ensures var r := ClearAcks(Send(s, p, outcome), kind, id).(subs := subs); Loses(s, r, b, Taken(s, r, b))
    ensures var r := ClearAcks(Send(s, p, outcome), kind, id); Loses(s, r, b, Taken(s, r, b))
  {
    assert Loses(s, s, b, 0) && Holds(s, s);
    SendLoses(s, s, p, outcome, b);
    hide Outstanding, Send, Completions, Discards, ClearAcks;
    ClearsNothing(Send(s, p, outcome), kind, id, subs, b);
  }

  lemma {:induction false} NothingLost(s: State, b: nat)
    ensures Loses(s, s, b, Taken(s, s, b))
  {
  }

  lemma {:induction false} EndBalances(s: State, op: Op, b: nat)
    requires op.PublishPlain? || op.SubscribeEnd? || op.UnsubscribeEnd?
    ensures Balances(s, op, b)
  {
    hide Loses, Taken, Send, ClearAcks, Balances, DropBatch;
    match op {
      case PublishPlain(topic, body, memory, outcome) =>
        EndLoses(s, Publish(false, 0, 0, topic, body), outcome, SUBACK, 0, [], b);
        NothingLost(s, b);
      case SubscribeEnd(requests, id, outcome) =>
        EndLoses(s, Subscribe(id, Topics(requests)), outcome, SUBACK, id, Perform(s, op).subs, b);
      case UnsubscribeEnd(topics, id, outcome) =>
        EndLoses(s, Unsubscribe(id, topics), outcome, UNSUBACK, id, [], b);
    }
    TakenBalances(s, op, b);
  }

  /** Clearing the nodes of a SUBSCRIBE or UNSUBSCRIBE touches no publish and no event. */
  lemma {:induction false} ClearsNothing(s: State, kind: Kind, id: u16, subs: seq<Msg>, b: nat)
    requires !OfPublish(kind)
    ensures var r := ClearAcks(s, kind, id).(subs := subs);
            Outstanding(r, b) == Outstanding(s, b) && r.events == s.events
    ensures Outstanding(ClearAcks(s, kind, id), b) == Outstanding(s, b) && ClearAcks(s, kind, id).events == s.events
  {
    ClearOther(s, kind, id, b);
  }

  lemma {:induction false} PublishEndBalances(s: State, op: Op, b: nat)
    requires op.PublishEnd?
    ensures Balances(s, op, b)
  {
    var p := Publish(false, op.qos, op.id, op.topic, op.body);
    var kind := PublishKind(op.qos);
    var sent := Send(s, p, op.outcome);
    SendLoses(s, s, p, op.outcome, b);
    ClearLoses(sent, kind, op.id, b);
    assert Perform(s, op).events == sent.events;
    assert sent.acks == [] ==> OnlyAcks(sent.acks, kind, op.id) == [];
    assert sent.userAcks == [] ==> OnlyAcks(sent.userAcks, kind, op.id) == [];
    LosesBalances(s, op, b);
  }

  /** Nodes of a batch added, the table changed, perhaps the nodes cleared again: nothing of a publish changes. */
  lemma {:induction false} BatchLoses(s: State, kind: Kind, id: u16, msgs: seq<Msg>, now: u32, tabled: seq<Msg>,
                                     subs: seq<Msg>, b: nat)
    requires !OfPublish(kind)
    ensures var t := AddUserNodes(s.(packetId := id), kind, id, msgs, now);
            && Same(s, t, b) && Same(s, t.(subs := tabled), b) && Same(s, ClearAcks(t, kind, id), b)
            && Same(s, ClearAcks(t.(subs := tabled), kind, id).(subs := subs), b)
  {
    var t := AddUserNodes(s.(packetId := id), kind, id, msgs, now);
    NodesLose(s.(packetId := id), kind, id, msgs, now, b);
    hide AddUserNodes, ClearAcks;
    ClearsNothing(t, kind, id, subs, b);
    ClearsNothing(t.(subs := tabled), kind, id, subs, b);
  }

  /** No node of publish `b` and no event more or less. */
  predicate Same(s: State, r: State, b: nat) {
    r.events == s.events && Outstanding(r, b) == Outstanding(s, b)
  }

  lemma {:induction false} SubscribeSame(s: State, requests: seq<Request>, now: u32, memory: nat, b: nat)
    ensures Same(s, BeginSubscribe(s, requests, now, memory).state, b)
  {
    assert Same(s, s, b);
    hide Same, AddUserNodes, ClearAcks, DropBatch;
    if RequestsValid(requests) && s.clientState == Connected && memory >= 2 {
      var n, id, left := |requests|, NextPacketId(s.packetId), memory - 2;
      var msgs := SubMsgs(requests, id);
      var part := if left < 2 * n then msgs[..left / 2] else msgs;
      var tabled := s.subs + if 2 * n <= left < 3 * n then msgs[..left - 2 * n] else msgs;
      NodesTable(s.(packetId := id), id, part, now);
      BatchLoses(s, SUBACK, id, part, now, tabled, DropBatch(tabled, requests, id), b);
    }
  }

  lemma {:induction false} NodesTable(s: State, id: u16, msgs: seq<Msg>, now: u32)
    ensures AddUserNodes(s, SUBACK, id, msgs, now).subs == s.subs
    decreases |msgs|
  {
    if msgs != [] {
      var node := NewNode(s, SUBACK, id, None, msgs[0], now);
      NodesTable(Allocated(s).(userAcks := s.userAcks + [node]), id, msgs[1..], now);
    }
  }

  lemma {:induction false} UnsubscribeSame(s: State, topics: seq<string>, now: u32, memory: nat, b: nat)
    ensures Same(s, BeginUnsubscribe(s, topics, now, memory).state, b)
  {
    assert Same(s, s, b);
    hide Same, AddUserNodes, ClearAcks;
    if TopicsValid(topics) && s.clientState == Connected && memory >= 2 {
      var n, id, left := |topics|, NextPacketId(s.packetId), memory - 2;
      var msgs := UnsubMsgs(s.subs, topics, id);
      BatchLoses(s, UNSUBACK, id, if left < 2 * n then msgs[..left / 2] else msgs, now, [], [], b);
    }
  }

  lemma {:induction false} SameBalances(s: State, op: Op, b: nat)
    requires Same(s, Perform(s, op), b)
    requires !op.PublishBegin? && !op.PublishEnd? && !op.Connack? && !(op.Handle? && Sweeps(s, op.packet))
    ensures Balances(s, op, b)
  {
  }

  lemma {:induction false} BeginBalances(s: State, op: Op, b: nat)
    requires op.SubscribeBegin? || op.UnsubscribeBegin?
    ensures Balances(s, op, b)
  {
    hide Same, BeginSubscribe, BeginUnsubscribe, Balances;
    match op {
      case SubscribeBegin(requests, now, memory) => SubscribeSame(s, requests, now, memory, b);
      case UnsubscribeBegin(topics, now, memory) => UnsubscribeSame(s, topics, now, memory, b);
    }
    SameBalances(s, op, b);
  }

  lemma {:induction false} PublishBeginBalances(s: State, op: Op, b: nat)
    requires op.PublishBegin?
    ensures Balances(s, op, b)
  {
    var id := NextPacketId(s.packetId);
    var node := PublishNode(s.(packetId := id), op.qos, id, op.topic, op.body, op.now);
    SumPush(s.userAcks, node, Of(b));
  }

  lemma {:induction false} DiscardBalances(s: State, op: Op, b: nat)
    requires op.UserDiscard?
    ensures Balances(s, op, b)
  {
    var i, r := FindAck(s.acks, op.kind, op.id), Perform(s, op);
    if op.id == 0 || op.id > MAX_PACKET_ID || i == |s.acks| {
      assert r == s;
    } else {
      var n := s.acks[i];
      assert r.acks == RemoveAt(s.acks, i) && r.userAcks == s.userAcks && r.events == s.events + [AckHandlerDiscard(n)];
      hide Perform, FindAck, Sum, RemoveAt, Completions, Discards;
      SumAt(s.acks, i, Of(b));
      CompletionsPush(s.events, AckHandlerDiscard(n), b);
      DiscardsPush(s.events, AckHandlerDiscard(n), b);
    }
  }

  lemma {:induction false} StepBalances(s: State, op: Op, b: nat)
    ensures Balances(s, op, b)
  {
    hide Balances, Perform;
    match op
    case Handle(_, _, _, _) => HandleBalances(s, op, b);
    case PublishBegin(_, _, _, _, _) => PublishBeginBalances(s, op, b);
    case PublishEnd(_, _, _, _, _) => PublishEndBalances(s, op, b);
    case UserDiscard(_, _) => DiscardBalances(s, op, b);
    case SubscribeBegin(_, _, _) => BeginBalances(s, op, b);
    case UnsubscribeBegin(_, _, _) => BeginBalances(s, op, b);
    case PublishPlain(_, _, _, _) => EndBalances(s, op, b);
    case SubscribeEnd(_, _, _) => EndBalances(s, op, b);
    case UnsubscribeEnd(_, _, _) => EndBalances(s, op, b);
    case _ => ThreadBalances(s, op, b);
  }

  lemma {:induction false} ThreadBalances(s: State, op: Op, b: nat)
    requires op.SyncLists? || op.ScanList? || op.ConnectionLost? || op.Connack? || op.SetState?
    ensures Balances(s, op, b)
  {
    hide Balances, Completions, Discards, Scan, Sync, Loses, Disconnect;
    match op {
      case SyncLists =>
        SyncLoses(s, b);
        KeptBalances(s, op, b);
      case ScanList(wait, input) =>
        WholeScanLoses(s, wait, input, b);
        KeptBalances(s, op, b);
      case ConnectionLost =>
        LostLoses(s, b);
        TakenBalances(s, op, b);
      case Connack(_) => ConnackBalances(s, op, b);
      case SetState(_) => SameBalances(s, op, b);
    }
  }

  lemma {:induction false} WholeScanLoses(s: State, wait: bool, input: ScanInput, b: nat)
    ensures Loses(s, Scan(s, wait, input), b, 0)
  {
    hide ScanFrom;
    ScanLoses(s, 0, 0, wait, Timers.Timer(input.clock(0), ScanWindow(s.config)), 1000, input, b);
  }

  lemma {:induction false} LostLoses(s: State, b: nat)
    ensures Loses(s, Disconnect(s), b, Taken(s, Disconnect(s), b))
  {
    EndLoses(s, Packet.Unsuback(0), SocketError, SUBACK, 0, [], b);
    assert Disconnect(s) == Send(s, Packet.Unsuback(0), SocketError);
  }

  lemma {:induction false} KeptBalances(s: State, op: Op, b: nat)
    requires (op.SyncLists? || op.ScanList?) && Loses(s, Perform(s, op), b, 0)
    requires op.SyncLists? ==> !Drops(s, Perform(s, op))
    ensures Balances(s, op, b)
  {
  }

  lemma {:induction false} ConnackBalances(s: State, op: Op, b: nat)
    requires op.Connack?
    ensures Balances(s, op, b)
  {
  }

  // ---------------------------------------------------------------- whole runs

  datatype Account = Account(accepted: nat, rolledBack: nat, purged: nat, swept: nat)

  /** What became of publish `b` over a run, apart from what the application was told. */
  function AccountOf(config: Config, ops: seq<Op>, b: nat): Account {
    if ops == [] then Account(0, 0, 0, 0)
    else
      var s, op := After(config, ops[..|ops| - 1]), ops[|ops| - 1];
      var a := AccountOf(config, ops[..|ops| - 1], b);
      Account(a.accepted + Accepted(s, op, b), a.rolledBack + RolledBack(s, op, b), a.purged + Purged(s, op, b),
              a.swept + Swept(s, op, b))
  }

  /** Accepted publishes are completed, discarded, rolled back, purged, swept away by a shared id, or in flight. */
  lemma {:induction false} PublishesAccounted(config: Config, ops: seq<Op>, b: nat)
    ensures var s, a := After(config, ops), AccountOf(config, ops, b);
            a.accepted == Outstanding(s, b) + Completions(s.events, b) + Discards(s.events, b)
                          + a.rolledBack + a.purged + a.swept
  {
    assert Outstanding(Initial(config), b) == 0;
    hide Perform, Outstanding, RolledBack, Purged, Swept, Accepted;
    if ops != [] {
      PublishesAccounted(config, ops[..|ops| - 1], b);
      StepBalances(After(config, ops[..|ops| - 1]), ops[|ops| - 1], b);
    }
  }

  /** So a publish accepted once completes at most once, and then nothing else becomes of it. */
  lemma {:induction false} CompletesOnce(config: Config, ops: seq<Op>, b: nat)
    requires AccountOf(config, ops, b).accepted <= 1
    ensures Completions(After(config, ops).events, b) <= 1
    ensures Completions(After(config, ops).events, b) == 1 ==>
              Outstanding(After(config, ops), b) == 0 && Discards(After(config, ops).events, b) == 0
  {
    PublishesAccounted(config, ops, b);
  }
}
