/** A client that keeps its session, a broker that complies with section 4.3.3 of MQTT 3.1.1, and the channels
    between them. Any packet may be repeated by the broker; a lost connection loses whatever is under way. */
module World {
  import opened Bytes
  import opened Timers
  import opened PacketIds
  import opened Session
  import opened Requests
  import opened Operations
  import opened Effects
  import opened RequestEffects

  /** What the MQTT thread has in hand: nothing, a packet just read, a packet read with the user list moved over. */
  datatype Inbox = Empty | Received(p: Packet) | Synced(p: Packet)

  /** A QoS 2 message the broker is sending. */
  datatype Outgoing = Outgoing(topic: string, body: nat, released: bool)

  /** `out` and `done`: messages on their way to the client and completed ones, by id and by number. `held`, `app`,
      `appOnce`: ids of QoS 2 messages from the client, what of QoS 2 and QoS 1 was handed on. */
  datatype Broker = Broker(
    out: map<u16, Outgoing>,
    started: nat,
    done: set<nat>,
    held: map<u16, nat>,
    app: seq<nat>,
    appOnce: set<nat>)

  /** What an id of the client stands for. */
  datatype Use = Use(kind: Kind, body: nat)

  /** The channels are the packets of the histories `c.wire` and `sent` not yet `taken` and `got`. The remaining
      fields record the run: the ids in use, the publishes begun and those whose first send is still to come, where
      the wire stood when each began; ids and messages discarded by the user; broker messages delivered with and
      without a record. */
  datatype World = World(
    c: State,
    inbox: Inbox,
    taken: nat,
    sent: seq<Packet>,
    got: nat,
    broker: Broker,
    mine: map<u16, Use>,
    issuedAt: seq<nat>,
    pending: map<nat, Packet>,
    abandoned: set<u16>,
    givenUp: set<nat>,
    recorded: set<nat>,
    unrecorded: seq<nat>)

  function Beginning(config: Config): World {
    World(Initial(config), Empty, 0, [], 0, Broker(map[], 0, {}, map[], [], {}), map[], [], map[], {}, {}, {}, [])
  }

  function Suffix(s: seq<Packet>, n: nat): seq<Packet> {
    if n <= |s| then s[n..] else []
  }

  /** Packets from the client the broker has not taken. */
  function Up(w: World): seq<Packet> {
    Suffix(w.c.wire, w.taken)
  }

  /** Packets from the broker not yet handled, the one in hand included. */
  function Down(w: World): seq<Packet> {
    Suffix(w.sent, if w.inbox.Empty? || w.got == 0 then w.got else w.got - 1)
  }

  datatype Step =
    | UserPublishPlain(topic: string, body: nat, memory: nat, outcome: SendOutcome)
    | UserPublishBegin(qos: Acked, topic: string, now: u32, memory: nat)
    | UserPublishEnd(body: nat, outcome: SendOutcome)
    | UserSubscribeBegin(requests: seq<Request>, now: u32, memory: nat)
    | UserSubscribeEnd(requests: seq<Request>, id: u16, outcome: SendOutcome)
    | UserUnsubscribeBegin(topics: seq<string>, now: u32, memory: nat)
    | UserUnsubscribeEnd(topics: seq<string>, id: u16, outcome: SendOutcome)
    | UserDiscards(kind: Kind, id: u16)
    | Loses
    | Reconnects(sessionPresent: bool)
    | Receives
    | Syncs
    | Handles(now: u32, memory: nat, outcome: SendOutcome)
    | Scans(wait: bool, input: ScanInput)
    | BrokerSends(p: Packet)
    | BrokerStarts(id: u16, topic: string)
    | BrokerRepeats(id: u16)
    | BrokerTakes

  /** The id a publish would get may be used: it stands for no publish in flight, none that was discarded half-way,
      and at QoS 1 nothing of an earlier use is under way. */
  predicate Fresh(w: World, qos: Acked, id: u16) {
    && id !in w.mine && id !in w.abandoned
    && (qos == 1 ==> Packet.Puback(id) !in Down(w) && forall p | p in Up(w) && p.Publish? && p.qos == 1 :: p.id != id)
  }

  /** The scan finds no node due whose call is still in its first send. */
  ghost predicate FirstSendsOver(w: World, wait: bool, input: ScanInput) {
    w.c.clientState == Connected && Remain(w.c.scanThrottle, input.clock(0)) == 0 ==>
      forall n | n in w.c.acks && OfPublish(n.kind) && n.msg.userData in w.pending ::
        !ComesDue(n, wait, input)
  }

  /** No record of a delivered message has the id of a SUBACK or UNSUBACK. */
  predicate SparesRecords(s: State, p: Packet) {
    p.Suback? || p.Unsuback? ==> forall n | n in s.acks :: !Waits(n, PUBREL, p.id)
  }

  /** The steps there are: calls return after they began, the broker complies; and, beyond that, no SUBACK or UNSUBACK
      has the id of a delivered message's record, and the user discards no such record. */
  predicate Enabled(w: World, step: Step) {
    match step
    case UserPublishEnd(body, _) => body in w.pending && w.pending[body].Publish? && w.pending[body].qos > 0
    case UserDiscards(kind, _) => kind != PUBREL
    case Reconnects(_) => w.inbox.Empty? && w.c.clientState != Connected
    case Receives => w.inbox.Empty? && w.got < |w.sent|
    case Handles(_, _, _) => w.inbox.Synced? && SparesRecords(w.c, w.inbox.p)
    case Scans(_, _) => w.inbox.Empty?
    case BrokerSends(p) => p.Suback? || p.Unsuback? || (p.Publish? && p.qos < 2)
    case BrokerStarts(id, _) => id > 0 && id !in w.broker.out
    case BrokerRepeats(id) => id in w.broker.out
    case BrokerTakes => w.taken < |w.c.wire|
    case _ => true
  }

  /** The steps that also leave the client's own publishes alone: no id is reused too early, no SUBACK or UNSUBACK has
      the id of any message, and while a PUBLISH is in its first send no scan can repeat it, no discard takes its node
      and the session is not dropped. */
  ghost predicate Orderly(w: World, step: Step) {
    && Enabled(w, step)
    && match step
       case UserPublishBegin(qos, topic, _, memory) =>
         Accepts(w.c, topic, memory) ==> Fresh(w, qos, NextPacketId(w.c.packetId))
       case UserDiscards(_, id) => forall b | b in w.pending && w.pending[b].Publish? :: w.pending[b].id != id
       case Reconnects(present) => !present ==> w.pending == map[]
       case Handles(_, _, _) => w.inbox.p.Suback? || w.inbox.p.Unsuback? ==> OnlySubscriptionsUse(w.c, w.inbox.p.id)
       case Scans(wait, input) => FirstSendsOver(w, wait, input)
       case _ => true
  }

  // ---------------------------------------------------------------- the broker

  /** What the broker makes of a packet from the client, and what it answers. */
  function BrokerHandles(b: Broker, p: Packet): (Broker, seq<Packet>) {
    match p
    case Publish(_, qos, id, _, body) =>
      if qos == 0 then (b, [])
      else if qos == 1 then (b.(appOnce := b.appOnce + {body}), [Packet.Puback(id)])
      else if id in b.held then (b, [Packet.Pubrec(id)])
      else (b.(held := b.held[id := body], app := b.app + [body]), [Packet.Pubrec(id)])
    case Pubrel(id) => (b.(held := b.held - {id}), [Packet.Pubcomp(id)])
    case Pubrec(id) =>
      if id in b.out then (b.(out := b.out[id := b.out[id].(released := true)]), [Packet.Pubrel(id)]) else (b, [])
    case Pubcomp(id) =>
      if id in b.out && b.out[id].released then (b.(out := b.out - {id}, done := b.done + {b.out[id].body}), [])
      else (b, [])
    case _ => (b, [])
  }

  /** The packet the broker repeats for a message on its way. */
  function Repeated(id: u16, o: Outgoing): Packet {
    if o.released then Packet.Pubrel(id) else Publish(true, 2, id, o.topic, o.body)
  }

  // ---------------------------------------------------------------- the client

  function ApplyPublishBegin(w: World, qos: Acked, topic: string, now: u32, memory: nat): World {
    var body := |w.issuedAt|;
    var begun := w.(c := Perform(w.c, PublishBegin(qos, topic, body, now, memory)));
    if !Accepts(w.c, topic, memory) then begun
    else
      var id := NextPacketId(w.c.packetId);
      begun.(mine := w.mine[id := Use(PublishKind(qos), body)],
             issuedAt := w.issuedAt + [|w.c.wire|],
             pending := w.pending[body := Publish(false, qos, id, topic, body)])
  }

  function ApplyPublishEnd(w: World, body: nat, outcome: SendOutcome): World
    requires Enabled(w, UserPublishEnd(body, outcome))
  {
    var p := w.pending[body];
    var ended := w.(c := Perform(w.c, PublishEnd(p.qos, p.id, p.topic, p.body, outcome)), pending := w.pending - {body});
    if outcome == Sent then ended else ended.(mine := w.mine - {p.id})
  }

  /** A discard that takes the node of a publish in flight. */
  predicate TakesPublish(w: World, kind: Kind, id: u16) {
    1 <= id <= MAX_PACKET_ID && id in w.mine && w.mine[id].kind == kind && FindAck(w.c.acks, kind, id) < |w.c.acks|
  }

  function ApplyDiscard(w: World, kind: Kind, id: u16): World {
    var discarded := w.(c := Perform(w.c, UserDiscard(kind, id)));
    if !TakesPublish(w, kind, id) then discarded
    else if kind == PUBACK then discarded.(mine := w.mine - {id})
    else discarded.(mine := w.mine - {id}, abandoned := w.abandoned + {id}, givenUp := w.givenUp + {w.mine[id].body})
  }

  /** A new connection: what was under way is gone. Without session-present both ends start afresh. */
  function ApplyReconnect(w: World, present: bool): World {
    var linked := w.(c := Perform(w.c, Connack(present)), taken := |w.c.wire|, got := |w.sent|);
    if present then linked
    else linked.(mine := map[], abandoned := {}, broker := w.broker.(out := map[], held := map[]))
  }

  /** What the ids in use stand for once `p` was handled. */
  function UsesAfter(mine: map<u16, Use>, p: Packet, memory: nat): map<u16, Use> {
    if Refused(p) then mine
    else
      match p
      case Puback(id) => if id in mine && mine[id].kind == PUBACK then mine - {id} else mine
      case Pubcomp(id) => if id in mine && mine[id].kind == PUBCOMP then mine - {id} else mine
      case Pubrec(id) =>
        if id in mine && mine[id].kind == PUBREC && memory >= 2 then mine[id := Use(PUBCOMP, mine[id].body)] else mine
      case _ => mine
  }

  function ApplyHandle(w: World, now: u32, memory: nat, outcome: SendOutcome): World
    requires w.inbox.Synced?
  {
    var p := w.inbox.p;
    var told := !Refused(p) && p.Publish? && p.qos == 2 && Delivers(w.c, p);
    w.(c := Perform(w.c, Handle(p, now, memory, outcome)),
       inbox := Empty,
       mine := UsesAfter(w.mine, p, memory),
       recorded := if told && memory >= 2 then w.recorded + {p.body} else w.recorded,
       unrecorded := if told && memory < 2 then w.unrecorded + [p.body] else w.unrecorded)
  }

  function ApplyBrokerTakes(w: World): World
    requires w.taken < |w.c.wire|
  {
    var (broker, answer) := BrokerHandles(w.broker, w.c.wire[w.taken]);
    w.(taken := w.taken + 1, broker := broker, sent := w.sent + answer)
  }

  function ApplyBrokerStarts(w: World, id: u16, topic: string): World {
    var body := w.broker.started;
    w.(broker := w.broker.(out := w.broker.out[id := Outgoing(topic, body, false)], started := body + 1),
       sent := w.sent + [Publish(false, 2, id, topic, body)])
  }

  function Apply(w: World, step: Step): World
    requires Enabled(w, step)
  {
    match step
    case UserPublishPlain(topic, body, memory, outcome) => w.(c := Perform(w.c, PublishPlain(topic, body, memory, outcome)))
    case UserPublishBegin(qos, topic, now, memory) => ApplyPublishBegin(w, qos, topic, now, memory)
    case UserPublishEnd(body, outcome) => ApplyPublishEnd(w, body, outcome)
    case UserSubscribeBegin(requests, now, memory) => w.(c := Perform(w.c, SubscribeBegin(requests, now, memory)))
    case UserSubscribeEnd(requests, id, outcome) => w.(c := Perform(w.c, SubscribeEnd(requests, id, outcome)))
    case UserUnsubscribeBegin(topics, now, memory) => w.(c := Perform(w.c, UnsubscribeBegin(topics, now, memory)))
    case UserUnsubscribeEnd(topics, id, outcome) => w.(c := Perform(w.c, UnsubscribeEnd(topics, id, outcome)))
    case UserDiscards(kind, id) => ApplyDiscard(w, kind, id)
    case Loses => w.(c := Perform(w.c, ConnectionLost))
    case Reconnects(present) => ApplyReconnect(w, present)
    case Receives => w.(inbox := Received(w.sent[w.got]), got := w.got + 1)
    case Syncs => w.(c := Perform(w.c, SyncLists), inbox := if w.inbox.Received? then Synced(w.inbox.p) else w.inbox)
    case Handles(now, memory, outcome) => ApplyHandle(w, now, memory, outcome)
    case Scans(wait, input) => w.(c := Perform(w.c, ScanList(wait, input)))
    case BrokerSends(p) => w.(sent := w.sent + [p])
    case BrokerStarts(id, topic) => ApplyBrokerStarts(w, id, topic)
    case BrokerRepeats(id) => w.(sent := w.sent + [Repeated(id, w.broker.out[id])])
    case BrokerTakes => ApplyBrokerTakes(w)
  }

  /** `w` is where a run of the given steps leads from `start`. */
  ghost predicate Run(start: World, steps: seq<Step>, w: World)
    decreases |steps|
  {
    if steps == [] then w == start
    else
      var last := steps[|steps| - 1];
      exists v: World :: Run(start, steps[..|steps| - 1], v) && Enabled(v, last) && w == Apply(v, last)
  }

  /** Such a run, made of orderly steps only. */
  ghost predicate OrderlyRun(start: World, steps: seq<Step>, w: World)
    decreases |steps|
  {
    if steps == [] then w == start
    else
      var last := steps[|steps| - 1];
      exists v: World :: OrderlyRun(start, steps[..|steps| - 1], v) && Orderly(v, last) && w == Apply(v, last)
  }

  lemma {:induction false} OrderlyIsRun(start: World, steps: seq<Step>, w: World)
    requires OrderlyRun(start, steps, w)
    ensures Run(start, steps, w)
  {
    hide Apply, Enabled;
    if steps != [] {
      var last := steps[|steps| - 1];
      var v: World :| OrderlyRun(start, steps[..|steps| - 1], v) && Orderly(v, last) && w == Apply(v, last);
      OrderlyIsRun(start, steps[..|steps| - 1], v);
    }
  }

  function Count(s: seq<nat>, m: nat): nat {
    if s == [] then 0 else Count(s[..|s| - 1], m) + if s[|s| - 1] == m then 1 else 0
  }

  lemma {:induction false} CountPush(s: seq<nat>, x: nat, m: nat)
    ensures Count(s + [x], m) == Count(s, m) + if x == m then 1 else 0
  {
    assert (s + [x])[..|s + [x]| - 1] == s;
  }

  lemma {:induction false} CountNone(s: seq<nat>, m: nat)
    requires m !in s
    ensures Count(s, m) == 0
  {
    if s != [] {
      CountNone(s[..|s| - 1], m);
    }
  }

  /** Multiplicity and membership. */
  lemma {:induction false} CountMember(s: seq<nat>, m: nat)
    ensures Count(s, m) > 0 <==> m in s
  {
    if s != [] {
      CountMember(s[..|s| - 1], m);
      assert s == s[..|s| - 1] + [s[|s| - 1]];
    }
  }

  /** The cursors are in range, the client keeps its session. */
  predicate Grounded(w: World) {
    && StateOk(w.c) && !w.c.config.cleanSession
    && w.taken <= |w.c.wire| && w.got <= |w.sent|
    && (w.inbox != Empty ==> w.got > 0 && w.inbox.p == w.sent[w.got - 1])
  }

  lemma {:induction false} HeadInHand(w: World)
    requires Grounded(w) && w.inbox.Synced?
    ensures Down(w) != [] && Down(w)[0] == w.inbox.p && Down(w)[1..] == Suffix(w.sent, w.got)
  {
  }

  lemma {:induction false} TakenHead(w: World)
    requires Grounded(w) && w.taken < |w.c.wire|
    ensures Up(w) != [] && Up(w)[0] == w.c.wire[w.taken] && Up(w)[1..] == Suffix(w.c.wire, w.taken + 1)
  {
  }

  // ---------------------------------------------------------------- the client on its own

  /** The operations of the client in one step of the world. */
  function OpsOf(w: World, step: Step): seq<Op>
    requires Enabled(w, step)
  {
    match step
    case UserPublishPlain(topic, body, memory, outcome) => [PublishPlain(topic, body, memory, outcome)]
    case UserPublishBegin(qos, topic, now, memory) => [PublishBegin(qos, topic, |w.issuedAt|, now, memory)]
    case UserPublishEnd(body, outcome) =>
      var p := w.pending[body];
      [PublishEnd(p.qos, p.id, p.topic, p.body, outcome)]
    case UserSubscribeBegin(requests, now, memory) => [SubscribeBegin(requests, now, memory)]
    case UserSubscribeEnd(requests, id, outcome) => [SubscribeEnd(requests, id, outcome)]
    case UserUnsubscribeBegin(topics, now, memory) => [UnsubscribeBegin(topics, now, memory)]
    case UserUnsubscribeEnd(topics, id, outcome) => [UnsubscribeEnd(topics, id, outcome)]
    case UserDiscards(kind, id) => [UserDiscard(kind, id)]
    case Loses => [ConnectionLost]
    case Reconnects(present) => [Connack(present)]
    case Syncs => [SyncLists]
    case Handles(now, memory, outcome) => [Handle(w.inbox.p, now, memory, outcome)]
    case Scans(wait, input) => [ScanList(wait, input)]
    case _ => []
  }

  lemma {:induction false} ClientStep(w: World, step: Step)
    requires Enabled(w, step)
    ensures |OpsOf(w, step)| <= 1
    ensures Apply(w, step).c == if OpsOf(w, step) == [] then w.c else Perform(w.c, OpsOf(w, step)[0])
  {
    hide Perform, Up, Down, OnlySubscriptionsUse, Delivers;
  }

  /** The client of a world is a client run on its own: what holds against any broker holds here. */
  lemma {:induction false} ClientOfRun(config: Config, steps: seq<Step>, w: World) returns (ops: seq<Op>)
    requires Run(Beginning(config), steps, w)
    ensures After(config, ops) == w.c
  {
    hide Perform, Apply, Enabled, OpsOf;
    if steps == [] {
      ops := [];
    } else {
      var last := steps[|steps| - 1];
      var v: World :| Run(Beginning(config), steps[..|steps| - 1], v) && Enabled(v, last) && w == Apply(v, last);
      var before := ClientOfRun(config, steps[..|steps| - 1], v);
      ClientStep(v, last);
      ops := before + OpsOf(v, last);
      if OpsOf(v, last) == [] {
        assert ops == before;
      } else {
        assert ops[..|ops| - 1] == before && ops[|ops| - 1] == OpsOf(v, last)[0];
      }
    }
  }
}
