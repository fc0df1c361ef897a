/** What the user threads do to a session: publish, subscribe, unsubscribe, discard; and how a connection starts. */
module Requests {
  import opened Bytes
  import opened Common
  import opened PacketIds
  import opened Session

  /** One entry of RyanMqttSubscribeMany. */
  datatype Request = Request(topic: string, qos: QoS)

  // ---------------------------------------------------------------- publish

  function PublishKind(qos: QoS): Kind
    requires qos > 0
  {
    if qos == 1 then PUBACK else PUBREC
  }

  /** RyanMqttPublishWithUserData at QoS 0: one allocation, one send, no node. */
  function PublishOnce(s: State, topic: string, body: nat, memory: nat, outcome: SendOutcome): State {
    if topic == "" || s.clientState != Connected || memory == 0 then s
    else Send(s, Publish(false, 0, 0, topic, body), outcome)
  }

  /** The node a QoS 1 or 2 publish adds. */
  function PublishNode(s: State, qos: QoS, id: u16, topic: string, body: nat, now: u32): AckNode
    requires qos > 0
  {
    NewNode(s, PublishKind(qos), id, Some(Publish(false, qos, id, topic, body)), Msg(topic, qos, SETTLED, body), now)
  }

  /** RyanMqttPublishWithUserData at QoS 1 or 2 up to the send: the node goes to the user list first. Of the three
      allocations (buffer, message, node) the first `memory` succeed. */
  function BeginPublish(s: State, qos: QoS, topic: string, body: nat, now: u32, memory: nat): State
    requires qos > 0
  {
    if topic == "" || s.clientState != Connected || memory == 0 then s
    else
      var numbered := s.(packetId := NextPacketId(s.packetId));
      if memory < 3 then numbered
      else
        var node := PublishNode(numbered, qos, numbered.packetId, topic, body, now);
        Allocated(numbered).(userAcks := s.userAcks + [node])
  }

  /** The rest: send; on failure roll back through both lists. */
  function FinishPublish(s: State, kind: Kind, id: u16, packet: Packet, outcome: SendOutcome): State {
    var sent := Send(s, packet, outcome);
    if outcome == Sent then sent else ClearAcks(sent, kind, id)
  }

  // ---------------------------------------------------------------- subscribe and unsubscribe

  /** The nodes of a batch, in order, on the user list. */
  function AddUserNodes(s: State, kind: Kind, id: u16, msgs: seq<Msg>, now: u32): State
    decreases |msgs|
  {
    if msgs == [] then s
    else
      var node := NewNode(s, kind, id, None, msgs[0], now);
      AddUserNodes(Allocated(s).(userAcks := s.userAcks + [node]), kind, id, msgs[1..], now)
  }

  function SubMsgs(requests: seq<Request>, id: u16): (r: seq<Msg>)
    ensures |r| == |requests|
  {
    if requests == [] then []
    else [Msg(requests[0].topic, requests[0].qos, id, 0)] + SubMsgs(requests[1..], id)
  }

  /** The pending entries of a batch removed again, filter by filter. */
  function DropBatch(subs: seq<Msg>, requests: seq<Request>, id: u16): seq<Msg>
    decreases |requests|
  {
    if requests == [] then subs
    else DropBatch(DropSubs(subs, SameTopicSameId(requests[0].topic, id)), requests[1..], id)
  }

  predicate RequestsValid(requests: seq<Request>) {
    requests != [] && forall r | r in requests :: r.topic != ""
  }

  /** Rollback of a SUBSCRIBE that could not be sent. */
  function RollbackSubscribe(s: State, requests: seq<Request>, id: u16): State {
    var cleared := ClearAcks(s, SUBACK, id);
    cleared.(subs := DropBatch(s.subs, requests, id))
  }

  datatype Begun = Begun(state: State, ready: bool)

  /** RyanMqttSubscribeMany up to the send. Of its allocations (list, buffer, two per node, one per table entry) the
      first `memory` succeed. */
  function BeginSubscribe(s: State, requests: seq<Request>, now: u32, memory: nat): Begun {
    if !RequestsValid(requests) || s.clientState != Connected || memory < 2 then Begun(s, false)
    else
      var n := |requests|;
      var id := NextPacketId(s.packetId);
      var numbered := s.(packetId := id);
      var msgs := SubMsgs(requests, id);
      var left := memory - 2;
      if left < 2 * n then
        Begun(ClearAcks(AddUserNodes(numbered, SUBACK, id, msgs[..left / 2], now), SUBACK, id), false)
      else
        var noded := AddUserNodes(numbered, SUBACK, id, msgs, now);
        if left < 3 * n then
          Begun(RollbackSubscribe(noded.(subs := s.subs + msgs[..left - 2 * n]), requests, id), false)
        else Begun(noded.(subs := s.subs + msgs), true)
  }

  function Topics(requests: seq<Request>): seq<string> {
    if requests == [] then [] else [requests[0].topic] + Topics(requests[1..])
  }

  /** The rest of RyanMqttSubscribeMany. */
  function FinishSubscribe(s: State, requests: seq<Request>, id: u16, outcome: SendOutcome): State {
    var sent := Send(s, Subscribe(id, Topics(requests)), outcome);
    if outcome == Sent then sent else RollbackSubscribe(sent, requests, id)
  }

  /** The messages of an UNSUBSCRIBE: the QoS of the subscription if there is one. */
  function UnsubMsgs(subs: seq<Msg>, topics: seq<string>, id: u16): (r: seq<Msg>)
    ensures |r| == |topics|
  {
    if topics == [] then []
    else
      var j := FindSub(subs, topics[0]);
      [Msg(topics[0], if j < |subs| then subs[j].qos else SUB_FAIL, id, 0)] + UnsubMsgs(subs, topics[1..], id)
  }

  predicate TopicsValid(topics: seq<string>) {
    topics != [] && forall t | t in topics :: t != ""
  }

  /** RyanMqttUnSubscribeMany up to the send. */
  function BeginUnsubscribe(s: State, topics: seq<string>, now: u32, memory: nat): Begun {
    if !TopicsValid(topics) || s.clientState != Connected || memory < 2 then Begun(s, false)
    else
      var n := |topics|;
      var id := NextPacketId(s.packetId);
      var numbered := s.(packetId := id);
      var msgs := UnsubMsgs(s.subs, topics, id);
      var left := memory - 2;
      if left < 2 * n then
        Begun(ClearAcks(AddUserNodes(numbered, UNSUBACK, id, msgs[..left / 2], now), UNSUBACK, id), false)
      else Begun(AddUserNodes(numbered, UNSUBACK, id, msgs, now), true)
  }

  function FinishUnsubscribe(s: State, topics: seq<string>, id: u16, outcome: SendOutcome): State {
    var sent := Send(s, Unsubscribe(id, topics), outcome);
    if outcome == Sent then sent else ClearAcks(sent, UNSUBACK, id)
  }

  // ---------------------------------------------------------------- discard and connect

  /** RyanMqttDiscardAckHandler */
  function Discard(s: State, kind: Kind, id: u16): State {
    var i := FindAck(s.acks, kind, id);
    if id == 0 || id > MAX_PACKET_ID || i == |s.acks| then s
    else Destroy(Log(RemoveAck(s, i), AckHandlerDiscard(s.acks[i])), s.acks[i])
  }

  /** An accepted CONNACK: without session-present the session is purged. */
  function OnConnack(s: State, sessionPresent: bool): State {
    (if sessionPresent then s else Purge(s)).(clientState := Connected)
  }

  /** RyanMqttEventMachine on RyanMqttEventConnected: scan without waiting, then the callback. */
  function OnConnected(s: State, input: ScanInput): State {
    Log(Scan(s, false, input), ConnectedEvent)
  }
}
