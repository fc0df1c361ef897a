/** SUBSCRIBE to SUBACK in whole runs: what the table and the application have in the end, whatever came in between. */
module Granting {
  import opened Bytes
  import opened PacketIds
  import opened Session
  import opened Requests
  import opened Operations
  import opened Effects
  import opened Ledger
  import opened Subscriptions
  import opened Subscribing
  import opened Batches
  import opened Pairing
  import opened PairingRuns

  // ---------------------------------------------------------------- pairing in runs

  /** From an operation at which a SUBSCRIBE is paired, it stays so through every run of harmless operations. */
  lemma {:induction false} PairedFrom(config: Config, ops: seq<Op>, i: nat, id: u16)
    requires i <= |ops| && id != SETTLED && PairedIn(After(config, ops[..i]), id)
    requires forall k | i <= k < |ops| :: Harmless(After(config, ops[..k]), ops[k], id)
    ensures PairedIn(After(config, ops), id)
    decreases |ops|
  {
    hide PairedIn, Harmless, Perform, StateOk;
    assert ops[..|ops|] == ops;
    if i < |ops| {
      var before, last := ops[..|ops| - 1], ops[|ops| - 1];
      forall k | i <= k < |before| ensures Harmless(After(config, before[..k]), before[k], id) {
        assert before[..k] == ops[..k];
      }
      assert before[..i] == ops[..i];
      PairedFrom(config, before, i, id);
      StoredPackets(config, before);
      PairingKept(After(config, before), last, id);
    }
  }

  /** In every run, nodes and pending entries of every id are paired as long as no operation was harmful to it, and no
      longer after the first that was. */
  lemma {:induction false} PairedInRun(config: Config, ops: seq<Op>, id: u16)
    requires id != SETTLED && ops != []
    requires forall k | 0 <= k < |ops| - 1 :: Harmless(After(config, ops[..k]), ops[k], id)
    ensures PairedIn(After(config, ops), id) <==> Harmless(After(config, ops[..|ops| - 1]), ops[|ops| - 1], id)
  {
    var before := ops[..|ops| - 1];
    EmptiedPairs(Initial(config), id);
    hide PairedIn, Harmless, Perform, StateOk;
    forall k | 0 <= k < |before| ensures Harmless(After(config, before[..k]), before[k], id) {
      assert before[..k] == ops[..k];
    }
    assert before[..0] == [];
    PairedFrom(config, before, 0, id);
    StoredPackets(config, before);
    PairingKept(After(config, before), ops[|ops| - 1], id);
  }

  // ---------------------------------------------------------------- from the call to the SUBACK

  /** The operation neither touches the nodes of SUBSCRIBE `id` nor comes between them and their entries. */
  ghost predicate Leaves(s: State, op: Op, id: u16) {
    !Touches(s, op, SUBACK, id) && Harmless(s, op, id)
  }

  lemma {:induction false} UnusedPairs(s: State, id: u16)
    requires Unused(s, id)
    ensures Batch(s, SUBACK, id) == [] && PairedIn(s, id)
  {
    NoneCleared(s.acks, SUBACK, id);
    NoneCleared(s.userAcks, SUBACK, id);
    forall t: string ensures Pending(s.subs, id, t) == multiset(Filters(Batch(s, SUBACK, id)))[t] {
      NoPending(s.subs, id, t);
      TimesIn([], t);
    }
  }

  /** A SUBSCRIBE under way: begun as operation `i` under an id not in use, its nodes moved over since, and left alone. */
  ghost predicate UnderWay(config: Config, ops: seq<Op>, i: nat, requests: seq<Request>, id: u16) {
    && i < |ops| && ops[i].SubscribeBegin? && ops[i].requests == requests
    && var s := After(config, ops[..i]);
    && GoesOut(s, Topics(requests), 3 * |requests|, ops[i].memory) && Unused(s, id) && id == NextPacketId(s.packetId)
    && (exists j :: i < j < |ops| && ops[j].SyncLists?)
    && forall k | i < k < |ops| :: Leaves(After(config, ops[..k]), ops[k], id)
  }

  /** Then its nodes are on the list the SUBACK handler walks, one for each request in order, with their entries. */
  lemma {:induction false} UnderWayPaired(config: Config, ops: seq<Op>, i: nat, requests: seq<Request>, id: u16)
    requires UnderWay(config, ops, i, requests, id)
    ensures var s := After(config, ops); var nodes := OnlyAcks(s.acks, SUBACK, id);
            && Paired(s.subs, nodes, id) && Filters(nodes) == Topics(requests) && |nodes| == |requests|
            && OnUser(s, SUBACK, id) == []
            && forall k | 0 <= k < |nodes| :: nodes[k].msg == Msg(requests[k].topic, requests[k].qos, id, 0)
  {
    var s0 := After(config, ops[..i]);
    var begun := ops[..i + 1];
    assert begun[..|begun| - 1] == ops[..i] && begun[|begun| - 1] == ops[i];
    assert After(config, begun) == BeginSubscribe(s0, requests, ops[i].now, ops[i].memory).state;
    UnusedPairs(s0, id);
    SubscribeReady(s0, requests, ops[i].now, ops[i].memory);
    BeginAdds(s0, requests, ops[i].now, ops[i].memory, id);
    var nodes := BatchAdded(s0, requests, ops[i].now, ops[i].memory, id);
    MsgsAre(requests, id);
    hide PairedIn, Harmless, Touches, Batch, BeginSubscribe, Filters, After, Perform;
    PairedFrom(config, ops, i + 1, id);
    BatchFrom(config, ops, i + 1, SUBACK, id);
    assert [] + nodes == nodes;
    assert Batch(After(config, ops), SUBACK, id) == nodes;
    BatchMoved(After(config, ops), id);
  }

  lemma {:induction false} BatchMoved(s: State, id: u16)
    requires OnUser(s, SUBACK, id) == []
    ensures Batch(s, SUBACK, id) == OnlyAcks(s.acks, SUBACK, id)
    ensures PairedIn(s, id) ==> Paired(s.subs, OnlyAcks(s.acks, SUBACK, id), id)
  {
    var acks := OnlyAcks(s.acks, SUBACK, id);
    assert acks + [] == acks;
  }

  lemma {:induction false} MsgsAre(requests: seq<Request>, id: u16)
    ensures forall k | 0 <= k < |requests| ::
              SubMsgs(requests, id)[k] == Msg(requests[k].topic, requests[k].qos, id, 0)
  {
    if requests != [] {
      MsgsAre(requests[1..], id);
      var rest := SubMsgs(requests[1..], id);
      forall k | 0 <= k < |requests|
        ensures SubMsgs(requests, id)[k] == Msg(requests[k].topic, requests[k].qos, id, 0)
      {
        if k > 0 {
          assert SubMsgs(requests, id)[k] == rest[k - 1] && requests[k] == requests[1..][k - 1];
        }
      }
    }
  }

  lemma {:induction false} ToldAt(nodes: seq<AckNode>, codes: seq<byte>)
    requires |codes| == |nodes|
    ensures |Told(nodes, codes)| == |nodes|
    ensures forall k | 0 <= k < |nodes| ::
              Told(nodes, codes)[k] == if codes[k] <= 2 then Subscribed(nodes[k].msg) else SubscribedFailed(nodes[k].msg)
  {
    if nodes != [] {
      ToldAt(nodes[1..], codes[1..]);
      var rest := Told(nodes[1..], codes[1..]);
      assert forall k | 0 < k < |nodes| :: Told(nodes, codes)[k] == rest[k - 1];
    }
  }

  /** The filters of a batch as granted, all others as they were, no node of the id left. */
  ghost predicate AsGranted(s: State, r: State, topics: seq<string>, id: u16, codes: seq<byte>)
    requires |codes| == |topics|
  {
    && (forall t | t in topics ::
          var e, c := Entries(r.subs, Is(t)), LastFor(topics, codes, t);
          if c <= 2 then |e| == 1 && e[0].qos == c && e[0].packetId == SETTLED else e == [])
    && (forall p: string -> bool | forall t | t in topics :: !p(t) :: Entries(r.subs, p) == Entries(s.subs, p))
    && (forall n | n in r.acks :: n.id != id)
  }

  /** What the application hears of each request: the request itself, granted or refused. */
  predicate Reported(s: State, r: State, requests: seq<Request>, id: u16, codes: seq<byte>)
    requires |codes| == |requests|
  {
    && |r.events| == |s.events| + |codes| && s.events <= r.events
    && forall k | 0 <= k < |codes| ::
         var m := Msg(requests[k].topic, requests[k].qos, id, 0);
         r.events[|s.events| + k] == if codes[k] <= 2 then Subscribed(m) else SubscribedFailed(m)
  }

  /** The return codes of a SUBACK (section 3.9.3 of MQTT 3.1.1): QoS 0, 1 or 2 granted, or a failure. */
  predicate ReturnCodes(codes: seq<byte>) {
    codes != [] && forall c | c in codes :: c == 0 || c == 1 || c == 2 || c == 0x80
  }

  /** Any other SUBACK, and one without a packet id, is refused: the session stays as it was. */
  lemma {:induction false} SubackRefused(s: State, id: u16, codes: seq<byte>, now: u32, memory: nat, outcome: SendOutcome)
    requires id == 0 || !ReturnCodes(codes)
    ensures Perform(s, Handle(Packet.Suback(id, codes), now, memory, outcome)) == s
  {
    CodesAre(codes);
    hide OnSuback;
  }

  lemma {:induction false} SubackTaken(s: State, id: u16, codes: seq<byte>, now: u32, memory: nat, outcome: SendOutcome)
    requires id != 0 && ReturnCodes(codes)
    ensures Perform(s, Handle(Packet.Suback(id, codes), now, memory, outcome)) == OnSuback(s, id, codes)
    ensures SubackCodesValid(codes)
  {
    CodesAre(codes);
    hide OnSuback;
  }

  lemma {:induction false} CodesAre(codes: seq<byte>)
    ensures SubackCodesValid(codes) <==> ReturnCodes(codes)
  {
  }

  /** In any run against any broker: a SUBSCRIBE whose SUBACK comes with as many codes as it named filters leaves
      exactly the subscriptions asked for and allowed, provided nothing in between touched it. */
  lemma {:induction false} GrantedInRun(config: Config, ops: seq<Op>, i: nat, requests: seq<Request>, id: u16,
                                       codes: seq<byte>, now: u32, memory: nat, outcome: SendOutcome)
    requires UnderWay(config, ops, i, requests, id) && ReturnCodes(codes) && |codes| == |requests|
    ensures |Topics(requests)| == |requests|
    ensures var s := After(config, ops);
            var r := Perform(s, Handle(Packet.Suback(id, codes), now, memory, outcome));
            AsGranted(s, r, Topics(requests), id, codes) && Reported(s, r, requests, id, codes)
  {
    hide OnlyAcks, StateOk, Granted, SubackCodesValid, After, Filters, ReturnCodes;
    var s := After(config, ops);
    var nodes := OnlyAcks(s.acks, SUBACK, id);
    UnderWayPaired(config, ops, i, requests, id);
    StoredPackets(config, ops);
    PairedCount(s.subs, nodes, id);
    SubackTaken(s, id, codes, now, memory, outcome);
    hide Perform;
    SubackSettles(s, id, codes);
    ToldAt(nodes, codes);
    hide OnSuback;
    GrantedAs(s, OnSuback(s, id, codes), nodes, Topics(requests), id, codes);
  }

  lemma {:induction false} GrantedAs(s: State, r: State, nodes: seq<AckNode>, topics: seq<string>, id: u16,
                                    codes: seq<byte>)
    requires |codes| == |nodes| && Filters(nodes) == topics && Granted(s.subs, r.subs, nodes, codes)
    requires forall n | n in r.acks :: n.id != id
    ensures AsGranted(s, r, topics, id, codes)
  {
    forall t | t in topics
      ensures var e, c := Entries(r.subs, Is(t)), LastFor(topics, codes, t);
              if c <= 2 then |e| == 1 && e[0].qos == c && e[0].packetId == SETTLED else e == []
    {
      LastCodes(nodes, codes, t);
    }
  }

  /** The `k`-th new event reports a subscription, with the QoS granted if and only if that was the one asked for. */
  predicate ShowsQos(s: State, r: State, k: nat, granted: byte, asked: byte) {
    && |r.events| > |s.events| + k && r.events[|s.events| + k].Subscribed?
    && (r.events[|s.events| + k].msg.qos == granted <==> granted == asked)
  }

  /** The Subscribed event carries the QoS granted exactly when that is the QoS asked for. */
  lemma {:induction false} EventQos(config: Config, ops: seq<Op>, i: nat, requests: seq<Request>, id: u16,
                                   codes: seq<byte>, k: nat, now: u32, memory: nat, outcome: SendOutcome)
    requires UnderWay(config, ops, i, requests, id) && ReturnCodes(codes) && |codes| == |requests|
    requires k < |codes| && codes[k] <= 2
    ensures ShowsQos(After(config, ops), Perform(After(config, ops), Handle(Packet.Suback(id, codes), now, memory, outcome)),
                     k, codes[k], requests[k].qos)
  {
    hide Perform, After, UnderWay, AsGranted, ReturnCodes;
    GrantedInRun(config, ops, i, requests, id, codes, now, memory, outcome);
  }
}
