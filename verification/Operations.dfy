/** Everything that can happen to a session, as one step relation: calls of user threads cut at the points where
    another thread can come in between, and what the MQTT thread does. */
module Operations {
  import opened Bytes
  import opened Session
  import opened Requests

  type Acked = q: int | 1 <= q <= 2 witness 1

  datatype Op =
    | PublishPlain(topic: string, body: nat, memory: nat, outcome: SendOutcome)
    | PublishBegin(qos: Acked, topic: string, body: nat, now: u32, memory: nat)
    | PublishEnd(qos: Acked, id: u16, topic: string, body: nat, outcome: SendOutcome)
    | SubscribeBegin(requests: seq<Request>, now: u32, memory: nat)
    | SubscribeEnd(requests: seq<Request>, id: u16, outcome: SendOutcome)
    | UnsubscribeBegin(topics: seq<string>, now: u32, memory: nat)
    | UnsubscribeEnd(topics: seq<string>, id: u16, outcome: SendOutcome)
    | UserDiscard(kind: Kind, id: u16)
    | SyncLists
    | Handle(packet: Packet, now: u32, memory: nat, outcome: SendOutcome)
    | ScanList(wait: bool, input: ScanInput)
    | ConnectionLost
    | Connack(sessionPresent: bool)
    | SetState(state: ClientState)

  function Perform(s: State, op: Op): State {
    match op
    case PublishPlain(topic, body, memory, outcome) => PublishOnce(s, topic, body, memory, outcome)
    case PublishBegin(qos, topic, body, now, memory) => BeginPublish(s, qos, topic, body, now, memory)
    case PublishEnd(qos, id, topic, body, outcome) =>
      FinishPublish(s, PublishKind(qos), id, Publish(false, qos, id, topic, body), outcome)
    case SubscribeBegin(requests, now, memory) => BeginSubscribe(s, requests, now, memory).state
    case SubscribeEnd(requests, id, outcome) => FinishSubscribe(s, requests, id, outcome)
    case UnsubscribeBegin(topics, now, memory) => BeginUnsubscribe(s, topics, now, memory).state
    case UnsubscribeEnd(topics, id, outcome) => FinishUnsubscribe(s, topics, id, outcome)
    case UserDiscard(kind, id) => Discard(s, kind, id)
    case SyncLists => Sync(s)
    case Handle(packet, now, memory, outcome) => Dispatch(s, packet, now, memory, outcome)
    case ScanList(wait, input) => Scan(s, wait, input)
    case ConnectionLost => Disconnect(s)
    case Connack(sessionPresent) => OnConnack(s, sessionPresent)
    case SetState(state) => s.(clientState := state)
  }

  /** The session after a run of operations. */
  function After(config: Config, ops: seq<Op>): State {
    if ops == [] then Initial(config) else Perform(After(config, ops[..|ops| - 1]), ops[|ops| - 1])
  }
}
