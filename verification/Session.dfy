/** The session state of a client and what every operation does to it: the in-flight list keyed by packet id and
    expected reply, the list the user threads append to, and the subscription table. */
module Session {
  import opened Bytes
  import opened Common
  import opened Timers
  import opened PacketIds
  import opened TopicMatcher

  /** The code a refused subscription carries (RyanMqttSubFail). */
  const SUB_FAIL: byte := 0x80

  /** Application messages carry their topic and a number that stands for the payload; user publishes pass the
      same number as their user data. */
  datatype Packet =
    | Publish(dup: bool, qos: QoS, id: u16, topic: string, body: nat)
    | Puback(id: u16)
    | Pubrec(id: u16)
    | Pubrel(id: u16)
    | Pubcomp(id: u16)
    | Subscribe(id: u16, filters: seq<string>)
    | Unsubscribe(id: u16, filters: seq<string>)
    | Suback(id: u16, codes: seq<byte>)
    | Unsuback(id: u16)

  /** The reply an ack node waits for. */
  datatype Kind = PUBACK | PUBREC | PUBREL | PUBCOMP | SUBACK | UNSUBACK

  /** The kinds of the user's own publishes. */
  predicate OfPublish(kind: Kind) {
    kind == PUBACK || kind == PUBREC || kind == PUBCOMP
  }

  /** RyanMqttMsgHandler_t */
  datatype Msg = Msg(topic: string, qos: byte, packetId: u16, userData: nat)

  /** RyanMqttAckHandler_t. `address` tells allocations apart. */
  datatype AckNode = AckNode(
    kind: Kind,
    id: u16,
    packet: Option<Packet>,
    repeatCount: u16,
    timer: Timer,
    msg: Msg,
    address: nat)

  datatype ClientState = Init | Start | Connected | Disconnected | Reconnecting

  datatype Event =
    | ConnectedEvent
    | DisconnectedEvent
    | ReconnectBefore
    | Subscribed(msg: Msg)
    | SubscribedFailed(msg: Msg)
    | UnSubscribed(msg: Msg)
    | UnSubscribedFailed(msg: Msg)
    | Published(node: AckNode)
    | RepeatPublishPacket(node: AckNode)
    | AckRepeatCountWarning(node: AckNode)
    | AckCountWarning(count: u16)
    | AckHandlerDiscard(node: AckNode)
    | Data(packet: Packet)
    | UnsubscribedData(packet: Packet)

  datatype Config = Config(
    cleanSession: bool,
    ackTimeout: u16,
    recvTimeout: u16,
    ackCountWarning: u16,
    repeatCountWarning: u16)

  /** `wire`, `events` and `freed` are histories: packets fully sent, callbacks made, nodes destroyed. */
  datatype State = State(
    config: Config,
    acks: seq<AckNode>,
    userAcks: seq<AckNode>,
    subs: seq<Msg>,
    ackCount: u16,
    packetId: u16,
    clientState: ClientState,
    scanThrottle: Timer,
    pendingAck: bool,
    wire: seq<Packet>,
    events: seq<Event>,
    freed: seq<nat>,
    nextAddress: nat)

  /** RyanMqttInit */
  function Initial(config: Config): State {
    State(config, [], [], [], 0, 1, Init, Timer(0, 0), false, [], [], [], 0)
  }

  /** How RyanMqttSendPacket ends: all bytes out, not all before the timeout, or a socket error. */
  datatype SendOutcome = Sent | SendTimedOut | SocketError

  // ---------------------------------------------------------------- lists

  predicate Waits(n: AckNode, kind: Kind, id: u16) {
    n.kind == kind && n.id == id
  }

  /** The first node waiting for `kind` with `id` (RyanMqttAckListNodeFind); |acks| when there is none. */
  function FindAck(acks: seq<AckNode>, kind: Kind, id: u16): (i: nat)
    ensures i <= |acks|
    ensures i < |acks| ==> Waits(acks[i], kind, id)
    ensures forall k | 0 <= k < i :: !Waits(acks[k], kind, id)
  {
    if acks == [] || Waits(acks[0], kind, id) then 0 else 1 + FindAck(acks[1..], kind, id)
  }

  /** The nodes not waiting for `kind` with `id`. */
  function WithoutAcks(acks: seq<AckNode>, kind: Kind, id: u16): (r: seq<AckNode>)
    ensures |r| <= |acks|
  {
    if acks == [] then []
    else if Waits(acks[0], kind, id) then WithoutAcks(acks[1..], kind, id)
    else [acks[0]] + WithoutAcks(acks[1..], kind, id)
  }

  /** The nodes waiting for `kind` with `id`. */
  function OnlyAcks(acks: seq<AckNode>, kind: Kind, id: u16): seq<AckNode> {
    if acks == [] then []
    else if Waits(acks[0], kind, id) then [acks[0]] + OnlyAcks(acks[1..], kind, id)
    else OnlyAcks(acks[1..], kind, id)
  }

  /** Ways the source selects entries of the subscription table. */
  datatype Selector =
    | WithId(id: u16)
    | SameTopicSameId(topic: string, id: u16)
    | SameTopicOtherId(topic: string, id: u16)

  predicate Selects(sel: Selector, m: Msg) {
    match sel
    case WithId(id) => m.packetId == id
    case SameTopicSameId(topic, id) => m.topic == topic && m.packetId == id
    case SameTopicOtherId(topic, id) => m.topic == topic && m.packetId != id
  }

  /** The table without the selected entries. */
  function DropSubs(subs: seq<Msg>, sel: Selector): (r: seq<Msg>)
    ensures |r| <= |subs|
  {
    if subs == [] then []
    else if Selects(sel, subs[0]) then DropSubs(subs[1..], sel)
    else [subs[0]] + DropSubs(subs[1..], sel)
  }

  function CountSubs(subs: seq<Msg>, id: u16): nat {
    if subs == [] then 0 else (if subs[0].packetId == id then 1 else 0) + CountSubs(subs[1..], id)
  }

  /** RyanMqttMsgHandlerFind by equal text: the first entry for `topic`; |subs| when there is none. */
  function FindSub(subs: seq<Msg>, topic: string): (i: nat)
    ensures i <= |subs|
    ensures i < |subs| ==> subs[i].topic == topic
    ensures forall k | 0 <= k < i :: subs[k].topic != topic
  {
    if subs == [] || subs[0].topic == topic then 0 else 1 + FindSub(subs[1..], topic)
  }

  /** RyanMqttMsgHandlerFind with wildcard matching: the first entry whose filter matches `topic`. */
  function FindMatch(subs: seq<Msg>, topic: string): (i: nat)
    ensures i <= |subs|
    ensures i < |subs| ==> CodeMatches(topic, subs[i].topic)
    ensures forall k | 0 <= k < i :: !CodeMatches(topic, subs[k].topic)
  {
    if subs == [] || CodeMatches(topic, subs[0].topic) then 0 else 1 + FindMatch(subs[1..], topic)
  }

  function Addresses(nodes: seq<AckNode>): (r: seq<nat>)
    ensures |r| == |nodes|
  {
    if nodes == [] then [] else [nodes[0].address] + Addresses(nodes[1..])
  }

  // ---------------------------------------------------------------- shared steps

  function Log(s: State, e: Event): State {
    s.(events := s.events + [e])
  }

  /** RyanMqttAckHandlerDestroy */
  function Destroy(s: State, n: AckNode): State {
    s.(freed := s.freed + [n.address])
  }

  /** RyanMqttAckListAddToAckList */
  function AddAck(s: State, n: AckNode): State {
    var count: u16 := (s.ackCount + 1) % 0x1_0000;
    var added := s.(acks := s.acks + [n], ackCount := count);
    if count >= s.config.ackCountWarning then Log(added, AckCountWarning(count)) else added
  }

  /** RyanMqttAckListRemoveToAckList of the `i`-th node */
  function RemoveAck(s: State, i: nat): State
    requires i < |s.acks|
  {
    s.(acks := RemoveAt(s.acks, i), ackCount := if s.ackCount > 0 then s.ackCount - 1 else 0)
  }

  /** RyanMqttPurgeSession */
  function Purge(s: State): State {
    s.(subs := [], acks := [], userAcks := [], ackCount := 0,
       freed := s.freed + Addresses(s.acks) + Addresses(s.userAcks))
  }

  /** RyanMqttEventMachine on RyanMqttEventDisconnected */
  function Disconnect(s: State): State {
    var closed := s.(clientState := Disconnected);
    Log(if s.config.cleanSession then Purge(closed) else closed, DisconnectedEvent)
  }

  /** RyanMqttSendPacket */
  function Send(s: State, p: Packet, outcome: SendOutcome): State {
    match outcome
    case Sent => s.(wire := s.wire + [p])
    case SendTimedOut => s
    case SocketError => Disconnect(s)
  }

  /** RyanMqttAckHandlerCreate: a node at a fresh address, its timer running. */
  function NewNode(s: State, kind: Kind, id: u16, packet: Option<Packet>, msg: Msg, now: u32): AckNode {
    AckNode(kind, id, packet, 0, Timer(now, s.config.ackTimeout), msg, s.nextAddress)
  }

  function Allocated(s: State): State {
    s.(nextAddress := s.nextAddress + 1)
  }

  // ---------------------------------------------------------------- QoS 1 and 2 packets from the broker

  /** RyanMqttPubackAndPubcompPacketHandler */
  function OnPuback(s: State, kind: Kind, id: u16): State {
    var i := FindAck(s.acks, kind, id);
    if i == |s.acks| then s
    else Destroy(Log(RemoveAck(s, i), Published(s.acks[i])), s.acks[i])
  }

  /** RyanMqttPubrelPacketHandler: always answers PUBCOMP. */
  function OnPubrel(s: State, id: u16, outcome: SendOutcome): State {
    var i := FindAck(s.acks, PUBREL, id);
    var released := if i == |s.acks| then s else Destroy(RemoveAck(s, i), s.acks[i]);
    Send(released, Packet.Pubcomp(id), outcome)
  }

  /** RyanMqttPubrecPacketHandler. `memory` allocations succeed before one fails; a failure puts the PUBREC node
      back, at the end of the list, and sends nothing. */
  function OnPubrec(s: State, id: u16, now: u32, memory: nat, outcome: SendOutcome): State {
    var i := FindAck(s.acks, PUBREC, id);
    if FindAck(s.acks, PUBCOMP, id) < |s.acks| || i == |s.acks| then Send(s, Packet.Pubrel(id), outcome)
    else
      var waiting := s.acks[i];
      var taken := RemoveAck(s, i);
      if memory < 2 then AddAck(taken, waiting)
      else
        var node := NewNode(s, PUBCOMP, id, Some(Packet.Pubrel(id)), waiting.msg.(packetId := SETTLED), now);
        Send(Destroy(AddAck(Allocated(taken), node), waiting), Packet.Pubrel(id), outcome)
  }

  /** RyanMqttPublishPacketHandler */
  function OnPublish(s: State, p: Packet, now: u32, memory: nat, outcome: SendOutcome): State
    requires p.Publish?
  {
    if FindMatch(s.subs, p.topic) == |s.subs| then Log(s, UnsubscribedData(p))
    else if p.qos == 0 then Log(s, Data(p))
    else if p.qos == 1 then Send(Log(s, Data(p)), Packet.Puback(p.id), outcome)
    else if FindAck(s.acks, PUBREL, p.id) < |s.acks| then Send(s, Packet.Pubrec(p.id), outcome)
    else if memory < 2 then Log(s, Data(p))
    else
      var node := NewNode(s, PUBREL, p.id, Some(Packet.Pubrec(p.id)), Msg(p.topic, p.qos, SETTLED, 0), now);
      Send(AddAck(Allocated(Log(s, Data(p))), node), Packet.Pubrec(p.id), outcome)
  }

  // ---------------------------------------------------------------- SUBACK and UNSUBACK

  /** RyanMqttClearAckSession: every node waiting for `kind` with `id`, on both lists. */
  function ClearAcks(s: State, kind: Kind, id: u16): State {
    var cleared := |OnlyAcks(s.acks, kind, id)|;
    s.(acks := WithoutAcks(s.acks, kind, id),
       userAcks := WithoutAcks(s.userAcks, kind, id),
       ackCount := if s.ackCount > cleared then s.ackCount - cleared else 0,
       freed := s.freed + Addresses(OnlyAcks(s.userAcks, kind, id)) + Addresses(OnlyAcks(s.acks, kind, id)))
  }

  /** RyanMqttSubackHandler, for return codes that MQTT_DeserializeAck lets through. */
  function OnSuback(s: State, id: u16, codes: seq<byte>): State {
    if CountSubs(s.subs, id) != |codes| then
      var cleared := ClearAcks(s, SUBACK, id);
      cleared.(subs := DropSubs(s.subs, WithId(id)))
    else SubackFrom(s, 0, id, codes)
  }

  /** readSubackStatus: a code outside 0, 1, 2, 0x80 makes the packet malformed. */
  predicate SubackCodesValid(codes: seq<byte>) {
    codes != [] && forall c | c in codes :: c <= 2 || c == SUB_FAIL
  }

  datatype Settling = Settling(state: State, codes: seq<byte>)

  /** One SUBACK node: older entries of its filter go, its own entry is settled or removed by the next code. */
  function SettleNode(s: State, n: AckNode, codes: seq<byte>): (r: Settling)
    ensures r.state.acks == s.acks
  {
    var subs := DropSubs(s.subs, SameTopicOtherId(n.msg.topic, n.msg.packetId));
    var j := FindSub(subs, n.msg.topic);
    if j == |subs| || codes == [] then Settling(s.(subs := subs), codes)
    else if codes[0] <= 2 then
      var settled := subs[j := subs[j].(qos := codes[0], packetId := SETTLED)];
      Settling(Log(s.(subs := settled), Subscribed(n.msg)), codes[1..])
    else Settling(Log(s.(subs := RemoveAt(subs, j)), SubscribedFailed(n.msg)), codes[1..])
  }

  /** The loop of RyanMqttSubackHandler from the `i`-th node on, `codes` being the return codes left. */
  function SubackFrom(s: State, i: nat, id: u16, codes: seq<byte>): State
    decreases |s.acks| - i
  {
    if i >= |s.acks| then s
    else if s.acks[i].id != id then SubackFrom(s, i + 1, id, codes)
    else
      var n := s.acks[i];
      var r := if n.kind == SUBACK then SettleNode(s, n, codes) else Settling(s, codes);
      SubackFrom(Destroy(RemoveAck(r.state, i), n), i, id, r.codes)
  }

  /** RyanMqttUnSubackHandler from the `i`-th node on. */
  function UnsubackFrom(s: State, i: nat, id: u16): State
    decreases |s.acks| - i
  {
    if i >= |s.acks| then s
    else if s.acks[i].id != id then UnsubackFrom(s, i + 1, id)
    else
      var n := s.acks[i];
      var done := Destroy(RemoveAck(s, i), n);
      if n.kind != UNSUBACK then UnsubackFrom(done, i, id)
      else
        var j := FindSub(s.subs, n.msg.topic);
        if j == |s.subs| then UnsubackFrom(Log(done, UnSubscribed(n.msg)), i, id)
        else
          var msg := n.msg.(qos := s.subs[j].qos);
          UnsubackFrom(Log(done.(subs := RemoveAt(s.subs, j)), UnSubscribed(msg)), i, id)
  }

  // ---------------------------------------------------------------- the dispatch of RyanMqttProcessPacketHandler

  /** Packets MQTT_DeserializePublish and MQTT_DeserializeAck reject: no packet id, or a code that is none. */
  predicate Refused(p: Packet) {
    match p
    case Publish(_, qos, id, _, _) => qos > 0 && id == 0
    case Suback(id, codes) => id == 0 || !SubackCodesValid(codes)
    case _ => p.id == 0
  }

  function Dispatch(s: State, p: Packet, now: u32, memory: nat, outcome: SendOutcome): State {
    if Refused(p) then s
    else
      match p
      case Publish(_, _, _, _, _) => OnPublish(s, p, now, memory, outcome)
      case Puback(id) => OnPuback(s, PUBACK, id)
      case Pubcomp(id) => OnPuback(s, PUBCOMP, id)
      case Pubrec(id) => OnPubrec(s, id, now, memory, outcome)
      case Pubrel(id) => OnPubrel(s, id, outcome)
      case Suback(id, codes) => OnSuback(s, id, codes)
      case Unsuback(id) => UnsubackFrom(s, 0, id)
      case _ => s
  }

  /** RyanMqttSyncUserAckHandle */
  function Sync(s: State): State
    decreases |s.userAcks|
  {
    if s.userAcks == [] then s
    else Sync(AddAck(s.(userAcks := s.userAcks[1..]), s.userAcks[0]))
  }

  // ---------------------------------------------------------------- the resend scan

  /** MQTT_UpdateDuplicatePublishFlag on a stored packet: only a PUBLISH has the flag. */
  function WithDup(p: Packet): Packet {
    if p.Publish? then p.(dup := true) else p
  }

  /** A node just before it is sent again. */
  function MarkedDup(n: AckNode): AckNode {
    if n.repeatCount == 0 && n.packet.Some? then n.(packet := Some(WithDup(n.packet.value))) else n
  }

  /** A node after it was sent again at `now`. */
  function Resent(n: AckNode, now: u32, config: Config): AckNode {
    MarkedDup(n).(timer := Timer(now, config.ackTimeout), repeatCount := (n.repeatCount + 1) % 0x1_0000)
  }

  predicate Resendable(kind: Kind) {
    kind in {PUBACK, PUBREC, PUBREL, PUBCOMP}
  }

  /** What the outside does to one scan: the clock read and the end of the send at each node visited. */
  datatype ScanInput = ScanInput(clock: nat -> u32, sends: nat -> SendOutcome)

  /** The longest time a scan may take. */
  function ScanWindow(config: Config): u32 {
    if config.recvTimeout > 100 then config.recvTimeout - 100 else config.recvTimeout
  }

  function Min(a: u32, b: u32): u32 {
    if a < b then a else b
  }

  /** The end of RyanMqttAckListScan: the throttle runs only if the window was not used up. */
  function ScanEnd(s: State, window: Timer, now: u32, throttle: u32): State {
    if Remain(window, now) != 0 then s.(scanThrottle := Timer(now, throttle), pendingAck := false)
    else s.(pendingAck := true)
  }

  /** The loop of RyanMqttAckListScan from the `i`-th node on, `k` nodes having been visited. */
  function ScanFrom(s: State, i: nat, k: nat, wait: bool, window: Timer, throttle: u32, input: ScanInput): State
    decreases |s.acks| - i
  {
    var now := input.clock(k);
    if i >= |s.acks| || s.clientState != Connected || Remain(window, now) == 0 then ScanEnd(s, window, now, throttle)
    else
      var n := s.acks[i];
      var remain := Remain(n.timer, now);
      var least := if remain != 0 then Min(remain, throttle) else throttle;
      if remain != 0 && wait then ScanFrom(s, i + 1, k + 1, wait, window, least, input)
      else if Resendable(n.kind) then
        ScanFrom(ResendAt(s, i, now, input.sends(k)), i + 1, k + 1, wait, window, least, input)
      else ScanFrom(ExpireAt(s, i), i, k + 1, wait, window, least, input)
  }

  /** One node sent again: the event, the send (whatever becomes of it), the timer, perhaps the warning. */
  function ResendAt(s: State, i: nat, now: u32, outcome: SendOutcome): (r: State)
    requires i < |s.acks| && Resendable(s.acks[i].kind)
    ensures |r.acks| == |s.acks|
  {
    var n := s.acks[i];
    var sent := SendInScan(Log(s, RepeatPublishPacket(MarkedDup(n))), MarkedDup(n).packet, outcome);
    var again := Resent(n, now, s.config);
    var updated := sent.(acks := s.acks[i := again]);
    if again.repeatCount >= s.config.repeatCountWarning then Log(updated, AckRepeatCountWarning(again)) else updated
  }

  /** RyanMqttSendPacket inside the scan, where a socket error leaves the lists in place. */
  function SendInScan(s: State, packet: Option<Packet>, outcome: SendOutcome): (r: State)
    ensures r.acks == s.acks
  {
    if packet.None? then s
    else
      match outcome
      case Sent => s.(wire := s.wire + [packet.value])
      case SendTimedOut => s
      case SocketError => Log(s.(clientState := Disconnected), DisconnectedEvent)
  }

  /** A SUBSCRIBE or UNSUBSCRIBE whose reply did not come in time. */
  function ExpireAt(s: State, i: nat): (r: State)
    requires i < |s.acks| && !Resendable(s.acks[i].kind)
    ensures |r.acks| == |s.acks| - 1
  {
    var n := s.acks[i];
    var told := if n.kind == SUBACK
                then Log(s.(subs := DropSubs(s.subs, SameTopicSameId(n.msg.topic, n.msg.packetId))),
                         SubscribedFailed(n.msg))
                else Log(s, UnSubscribedFailed(n.msg));
    Destroy(RemoveAck(told, i), n)
  }

  /** RyanMqttAckListScan */
  function Scan(s: State, wait: bool, input: ScanInput): State {
    var now := input.clock(0);
    if s.clientState != Connected || Remain(s.scanThrottle, now) != 0 then s
    else ScanFrom(s, 0, 0, wait, Timer(now, ScanWindow(s.config)), 1000, input)
  }
}
