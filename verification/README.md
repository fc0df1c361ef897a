# RyanMqtt: a verified model

RyanMqtt is an MQTT 3.1.1 client for embedded systems. This project models the parts of it that carry the protocol and
proves what they promise: the QoS 1 and 2 session, the subscription table, the topic matcher, the packet codec and the
framing of the byte stream, and the list, timer, keep alive and packet id machinery below them. "Section" refers to
MQTT Version 3.1.1 (OASIS).

## How it is built

| file | content |
|---|---|
| `Common`, `Bytes`, `RemainingLength`, `Packets`, `RequestPackets`, `Framing`, `Octets` | the codec on byte arrays, its readers, the reader that cuts the stream into packets, and the packets in numbers |
| `TopicFilter`, `TopicMatcher` | matching as section 4.7 defines it, level by level, and the two-index loop of the source |
| `CircularList`, `Timers`, `PacketIds`, `Keepalive`, `Network` | intrusive list, 32-bit timers, id cycle, keep alive, the send and receive loops |
| `Session`, `Requests`, `Operations` | the session as a value, and one function for each thing that can happen to it |
| `Client` | the client object with the fields and loops of the source; every method is proved equal to its function in `Session` or `Requests` |
| `Effects`, `RequestEffects`, `Limits`, `Overtaking` | what each function does to the nodes in flight, and where a shared id or an overtaking scan spoils it |
| `Handshake`, `World` | the QoS 2 handshake of section 4.3.3 for one id; client, compliant broker and channels as a transition system |
| `Inbound`, `Outbound`, `OutboundReplies`, `OutboundRuns` | the run-level theorems for messages from and to the broker |
| `Events`, `Conservation`, `Ledger`, `StoredBytes`, `Parsing`, `Accounts`, `Presence`, `Numbering`, `Origins`, `Repeating`, `Reports` | runs of a client against any broker whatever |
| `Publishing` | the publish call: when it goes out, and what a failed one takes back |
| `Subscriptions`, `Subscribing`, `Unsubscribing`, `Batches`, `Pairing`, `PairingRuns`, `Granting`, `Overlap` | the subscription table: one SUBACK, one call, every operation, whole runs against any broker |
| `Resend`, `Scanning` | what survives a lost connection and what is repeated; any scan, cut short or not |

A call of a user thread is cut where it sends: what comes before is one step, the send with its rollback another, and
everything the other threads do can come in between. What the MQTT thread does is cut into the reading of a packet, the
hand-over of the user list, the dispatch, and the scan. Sends end in success, timeout or socket error, allocations
succeed `memory` times and then fail, and clock readings are inputs.

### The runs of `World`

The client keeps its session (clean session off). The broker complies with section 4.3.3: it starts messages under free
ids, may repeat any PUBLISH or PUBREL at any time, answers PUBLISH, PUBREL and PUBREC, and sends SUBACK and UNSUBACK
with any content at any time. Both channels are FIFO; a new connection loses whatever is under way and leaves both
sessions as they are, or, without session-present, drops both.

The runs of the inbound theorems (`World.Run`) leave out two things, both guards of `World.Enabled`: a SUBACK or
UNSUBACK with the id of a delivered message's record (both handlers destroy every node of the id, see
`Limits.RecordsSurvive` and `Limits.SharedIdRedelivers`), and the discard of such a record.

The runs of the outbound theorems (`World.OrderlyRun`) leave out what else spoils the client's own publishes, each a
guard of `World.Orderly`:

- a publish takes an id that another publish in flight still has (the source does not check, see
  `Numbering.SameIdAgain`), or that the user discarded half-way through QoS 2, or, at QoS 1, whose earlier PUBLISH
  or PUBACK is still under way;
- a SUBACK or UNSUBACK has the id of any message in flight;
- a scan runs while a PUBLISH still in its first send is on its list and due (the node joins the list before the send,
  so a reconnect scan can overtake it, see `Overtaking.FirstSendOvertaken`);
- the user discards a node whose first send is under way, or the session is dropped during one.

The theorems of `Conservation`, `Ledger`, `StoredBytes`, `Accounts`, `Presence`, `Numbering`, `Origins`, `Repeating`,
`Reports`, `Unsubscribing`, `Pairing`, `PairingRuns` and `Granting` need none of these: they hold of every sequence of
operations and every packet received, with clean session on or off.

## Where the code departs from its intent

- The matcher misses some matches section 4.7 requires, such as `sport/+/#` for `sport/tennis` or `+/+` for `a/`.
  `TopicMatcher.MatcherExact` gives the exact set.
- The throttle of the resend scan also applies to the scan after a reconnect: if it is still running, nothing is
  repeated then (`Resend.ReconnectRepeats`).
- A keep alive interval of zero, which should switch the keep alive off, leaves no time to send: the checks of
  `RyanMqttSetConfig` then force both timeouts to zero, and no connection is ever made (`Network.ConnectsIff`,
  `Network.ZeroNeverConnects`).
- A SUBACK deletes the pending entries of its filters under every other id (mqttclient/RyanMqttThreadProcessPacket.c:340).
  A newer SUBSCRIBE that shares one loses it, counts wrong at its own SUBACK and loses its other filters too, and nobody
  is told (`Overlap.OverlapLoses`). `PairingRuns.PairingKept` says exactly which operations come between the nodes and
  the entries of a SUBSCRIBE.
- When a batch names a filter twice and times out, the first of its nodes takes both table entries with it
  (`Subscribing.TimeoutPairs`).
- The Subscribed event passes the request with the QoS asked for, while the comment at mqttclient/RyanMqttClient.c:227
  says that the callback sees the QoS granted: it does exactly if that is the QoS asked for (`Granting.EventQos`,
  `Overlap.EventShowsRequest`). The table entry has the granted one.
- A node stores the length of its packet in 16 bits (mqttclient/RyanMqttUtileAck.c:21-23), and the first send already
  uses that length. What goes out is the packet exactly if it has at most 65535 bytes (`StoredBytes.StoredWhole`);
  otherwise it is a prefix the broker can make nothing of (`StoredBytes.LongIsCut`), at 65536 bytes an empty one
  (`StoredBytes.NothingSent`). The runs of `World` are about packets that go out whole.

## Model

| member | source | states |
|---|---|---|
| Inbound.ExactlyOnceInbound | mqttclient/RyanMqttThreadProcessPacket.c:45-246 | In every run, whatever is repeated, lost or reconnected, a QoS 2 message of the broker is delivered at most once, and exactly once by the time the broker has its PUBCOMP, apart from deliveries for which there was no memory left to record them. |
| Inbound.InboundStep | mqttclient/RyanMqttThreadProcessPacket.c:45-254 | Every step of client, broker or network that is no SUBACK or UNSUBACK with a record's id and no discard of a record keeps the invariant that ties each id's handshake, both channels, the PUBREL nodes and the deliveries together. |
| OutboundRuns.ExactlyOnceOutbound | mqttclient/RyanMqttThreadProcessPacket.c:15-143 | A Published event at QoS 2 means the broker handed the message on exactly once, at QoS 1 at least once; no publish completes twice; no QoS 2 publish is handed on twice unless the user discarded it half-way. |
| OutboundRuns.NoPublishAfterPubrel | mqttclient/RyanMqttThread.c:160-190 | On the wire no QoS 2 PUBLISH follows a PUBREL of its id, unless that PUBREL went out before the publish began. |
| OutboundRuns.StagesInOrder | mqttclient/RyanMqttThreadProcessPacket.c:85-143 | In any run a publish comes in waiting for PUBACK or PUBREC, moves to waiting for PUBCOMP only when PUBREC is handled, and leaves only by its PUBACK or PUBCOMP, by discard or a dropped session, or, before PUBREC, by the failure of its own first send. |
| OutboundRuns.ReplyFindsItsNode | mqttclient/RyanMqttThreadProcessPacket.c:453-467 | When PUBACK, PUBREC or PUBCOMP is dispatched no node waiting for it is on the user list any more, and a PUBREC finds its PUBREC or PUBCOMP node on the list. |
| OutboundRuns.OutboundStep | mqttclient/RyanMqttThreadProcessPacket.c:15-143 | Every step keeps the outbound invariant: one node per id on one list, the handshake of each id, the order on the wire, what completions prove. |
| Presence.ReplyFindsNode | mqttclient/RyanMqttClient.c:576-604 | Against any broker and in every interleaving, a node put on the user list before its request was sent is on the searched list when the reply is dispatched, unless one of the operations on the way removed it as in the next row. |
| Presence.NodeKept | mqttclient/RyanMqttUtileAck.c:97-286 | No operation takes a node off both lists except the reply it waits for, a SUBACK or UNSUBACK that sweeps its id, a scan that runs while the SUBSCRIBE or UNSUBSCRIBE node is on its list with its time up or after a reconnect, the rollback of its own kind and id, its discard, or a purge. |
| World.ClientOfRun | mqttclient/RyanMqttThread.c:461-572 | The client of every world run is a client run on its own, so everything proved against any broker holds there too. |
| Handshake.MessageArrives | mqttclient/RyanMqttThreadProcessPacket.c:205-246 | A PUBLISH that arrives where its id is not remembered is the sender's current message and was not taken over before. |
| Handshake.PubcompArrives | mqttclient/RyanMqttThreadProcessPacket.c:15-37 | A sender that gets the PUBCOMP it waits for has had its message taken over. |
| Conservation.NodesOwned | mqttclient/RyanMqttUtileAck.c:78-286 | In every run each node ever made is on exactly one of the two lists or was destroyed exactly once: no leak, no double free. |
| Ledger.StoredPackets | mqttclient/RyanMqttUtileAck.c:21-70 | In every run the buffer of a PUBACK or PUBREC node holds the QoS 1 or 2 PUBLISH with its id (with DUP once repeated), of a PUBCOMP node the PUBREL, of a PUBREL node the PUBREC, and SUBACK and UNSUBACK nodes have none; how much of it is sent is the next row. |
| StoredBytes.StoredWhole | mqttclient/RyanMqttUtileAck.c:21-70 | In every run what a node sends, first and each time again, is the whole packet in its buffer if and only if that has at most 65535 bytes; PUBREL and PUBREC always go out whole. |
| StoredBytes.OnlyDupChanges | mqttclient/RyanMqttThread.c:168-182 | Before a repeat the DUP bit of a PUBLISH is set and no other byte changes, nor any byte of another packet. |
| StoredBytes.LongIsCut | mqttclient/RyanMqttClient.c:589-598 | Of a QoS 1 or 2 publish longer than 65535 bytes a prefix goes out that no reader takes for a packet. |
| StoredBytes.NothingSent | mqttclient/RyanMqttUtileAck.c:21-23 | A publish whose packet has 65536 bytes, of which none is sent. |
| Ledger.CounterIsLength | mqttclient/RyanMqttUtileAck.c:148-190 | The 16-bit node counter is the length of the list in every run in which the list never reaches 65536 nodes. |
| Accounts.PublishesAccounted | mqttclient/RyanMqttClient.c:568-604 | Over every run accepted publishes equal completed plus discarded plus rolled back plus purged plus swept away by a shared id plus outstanding. |
| Accounts.CompletesOnce | mqttclient/RyanMqttThreadProcessPacket.c:27-36 | A publish accepted once completes at most once, and then it is neither outstanding nor discarded. |
| Limits.SubackDestroys | mqttclient/RyanMqttThreadProcessPacket.c:315-384 | A SUBACK with the right number of codes leaves exactly the nodes of other ids, in order. |
| Limits.UnsubackDestroys | mqttclient/RyanMqttThreadProcessPacket.c:410-444 | An UNSUBACK leaves exactly the nodes of other ids, in order. |
| Limits.RecordsSurvive | mqttclient/RyanMqttThreadProcessPacket.c:332-336 | The records of delivered QoS 2 messages survive a SUBACK or UNSUBACK if and only if none of them has its id. |
| Limits.SharedIdRedelivers | mqttclient/RyanMqttThreadProcessPacket.c:381-383 | PUBLISH, a SUBACK with the same id, and the repeated PUBLISH deliver the message twice. |
| Overtaking.FirstSendOvertaken | mqttclient/RyanMqttClient.c:596-604 | If a reconnect scan comes between adding the node and the first send, the wire has PUBLISH, PUBREL, PUBLISH. |
| Overtaking.HandedOnTwice | mqttclient/RyanMqttClient.c:596-604 | A compliant broker hands the message of that sequence on twice. |
| Subscriptions.SubackSettles | mqttclient/RyanMqttThreadProcessPacket.c:262-388 | With nodes and entries paired, each filter of the batch, even if repeated, ends with exactly one entry of the granted QoS and the settled id if its last code is 0, 1 or 2, and with none after a refusal; other filters keep their entries in order; the events are told node by node; no node of the id remains. |
| Subscriptions.SettledTable | mqttclient/RyanMqttUtileMsg.c:312-356 | One code settles or removes one pending entry of its filter and drops the older ones, and touches no other filter. |
| Subscriptions.PairedCount | mqttclient/RyanMqttThreadProcessPacket.c:278-297 | Entries and nodes that correspond by filter are equally many, so counting either decides the mismatch check. |
| Subscribing.SubscribeReady | mqttclient/RyanMqttClient.c:232-337 | A SUBSCRIBE reaches its send if and only if the client is connected, every filter has a length, and memory is enough for the list, the packet and three blocks a filter. |
| Subscribing.SubscribePairs | mqttclient/RyanMqttClient.c:287-337 | Then it has one node and one pending entry for each filter, in order, and changed nothing else. |
| Subscribing.SubscribeRestores | mqttclient/RyanMqttClient.c:303-350 | A SUBSCRIBE that runs out of memory leaves both lists, the table, the wire and the events as they were. |
| Subscribing.SubscribeWithdraws | mqttclient/RyanMqttClient.c:339-356 | A SUBSCRIBE that could not be sent keeps nothing with its id on either list or in the table and leaves all else unchanged, in order. |
| Subscribing.SubackMismatch | mqttclient/RyanMqttThreadProcessPacket.c:292-309 | A SUBACK with the wrong number of codes ends its SUBSCRIBE in the same state. |
| Subscribing.TimeoutPairs | mqttclient/RyanMqttThread.c:193-200 | A SUBSCRIBE node that times out keeps nodes and entries paired if and only if its filter occurs once in the batch. |
| Pairing.OtherSubackPairs | mqttclient/RyanMqttThreadProcessPacket.c:330-346 | A SUBACK that counts right keeps another SUBSCRIBE's nodes and entries paired if and only if the two share no filter. |
| Pairing.SubackPairs | mqttclient/RyanMqttThreadProcessPacket.c:276-384 | A SUBACK keeps its own SUBSCRIBE paired, and every other if it counts wrong. |
| Pairing.UnsubackTable | mqttclient/RyanMqttThreadProcessPacket.c:410-444 | Of each filter an UNSUBACK takes as many entries as its UNSUBSCRIBE named it times, the first ones. |
| Pairing.UnsubackOthers | mqttclient/RyanMqttThreadProcessPacket.c:410-444 | Entries of filters the UNSUBSCRIBE did not name stay, in their order. |
| Pairing.UnsubackPairs | mqttclient/RyanMqttThreadProcessPacket.c:410-444 | An UNSUBACK keeps a SUBSCRIBE paired if and only if of every filter it takes as many of its entries as of its nodes. |
| Pairing.ScanPairs | mqttclient/RyanMqttThread.c:193-200 | A scan keeps a SUBSCRIBE paired if and only if of every filter it times out all nodes or none. |
| Pairing.DistinctScanPairs | mqttclient/RyanMqttThread.c:193-200 | Which any scan does if the SUBSCRIBE names no filter twice. |
| PairingRuns.PairingKept | mqttclient/RyanMqttUtileMsg.c:312-356 | An operation of any kind keeps nodes and entries of a SUBSCRIBE, on both lists, paired if and only if it is none of: a SUBACK that shares a filter, an UNSUBACK that takes an entry, a discard, a timeout of part of a filter, a rollback of the same id that misses an entry. |
| PairingRuns.BatchKept | mqttclient/RyanMqttUtileAck.c:97-286 | The nodes of a SUBSCRIBE stay, in their order, through every operation that is no reply, rollback, discard, timeout or purge of theirs and no new use of the id. |
| Granting.PairedInRun | mqttclient/RyanMqttClient.c:290-360 | In every run against any broker nodes and entries of every id are paired up to the first operation that is harmful to it, and not after it. |
| Granting.UnderWayPaired | mqttclient/RyanMqttClient.c:290-337 | A SUBSCRIBE begun under an unused id has, whatever harmless operations came since, one node for each request in order, all on the list the SUBACK handler walks once it was moved over, and their entries. |
| Granting.GrantedInRun | mqttclient/RyanMqttThreadProcessPacket.c:262-388 | In any run against any broker, handling the SUBACK of such a SUBSCRIBE, with as many codes as filters, each 0, 1, 2 or 128, leaves exactly the subscriptions asked for and allowed, every other filter untouched and no node of the id, and reports each request. |
| Granting.SubackRefused | coreMqtt/core_mqtt_serializer.c:1249-1346 | A SUBACK without codes, with a code other than 0, 1, 2 or 128, or with packet id 0 leaves the session as it was. |
| Granting.EventQos | mqttclient/RyanMqttThreadProcessPacket.c:355-367 | Then the Subscribed event shows the QoS granted if and only if it is the QoS asked for. |
| Overlap.OverlapLoses | mqttclient/RyanMqttThreadProcessPacket.c:338-346 | SUBSCRIBE of one filter, SUBSCRIBE of the same and another, both granted in full: the other filter is gone and nobody is told. |
| Overlap.EventShowsRequest | mqttclient/RyanMqttThreadProcessPacket.c:355-367 | A subscription asked for at QoS 2 and granted at 0: the event says 2, the table 0. |
| Unsubscribing.UnsubscribeReady | mqttclient/RyanMqttClient.c:386-475 | An UNSUBSCRIBE reaches its send if and only if the client is connected, every topic has a length, and memory is enough for the list, the packet and two blocks a topic. |
| Unsubscribing.UnsubscribeAdds | mqttclient/RyanMqttClient.c:440-475 | Then it has one UNSUBACK node for each topic, in order, behind the others of the user list, with the topic and the QoS of its subscription, and changed nothing else but the id. |
| Unsubscribing.UnsubscribeRestores | mqttclient/RyanMqttClient.c:465-475 | Otherwise both lists, the table, the wire and the events are as they were. |
| Unsubscribing.UnsubscribeWithdraws | mqttclient/RyanMqttClient.c:477-490 | An UNSUBSCRIBE that could not be sent keeps none of its nodes and leaves all else unchanged, in order. |
| Unsubscribing.UnsubscribedInRun | mqttclient/RyanMqttThreadProcessPacket.c:396-446 | In any run against any broker, handling the UNSUBACK of an UNSUBSCRIBE nothing touched takes of each topic as many entries as it was named, the first ones, and no others, leaves no node of the id, and reports every topic in order with the QoS of the entry taken. |
| Publishing.PlainSends | mqttclient/RyanMqttClient.c:514-566 | A QoS 0 publish is on the wire exactly if the client is connected, the topic has a length, there is memory and the send succeeds; it leaves no node and takes no id. |
| Publishing.PublishAdds | mqttclient/RyanMqttClient.c:514-596 | A QoS 1 or 2 publish reaches its send exactly if there is memory for packet, message and node as well, and then one node is new, last of the user list; an id is used as soon as the packet has its memory. |
| Publishing.PublishEnds | mqttclient/RyanMqttClient.c:598-604 | A publish that could not be sent has no node of its kind and id on either list any more and leaves the others in order. |
| Publishing.FailedPublishLeavesNothing | mqttclient/RyanMqttClient.c:568-604 | So a call that fails to send, alone with its id, leaves lists, table and wire as it found them and frees the node it made. |
| Resend.ScanRepeatsDue | mqttclient/RyanMqttThread.c:94-229 | A scan with time enough sends exactly the packets due, each node once, in list order, PUBLISH with DUP; a repeated node has its timer started anew for ackTimeout and one more repeat, a due SUBSCRIBE or UNSUBSCRIBE is given up, all others stay; the application hears of each in turn; the throttle is the least time left that was found, and nothing is pending. |
| Resend.LeastDelays | mqttclient/RyanMqttThread.c:144-156 | That throttle delays no node that was not due, is a second at most, and is no less than that demands. |
| Scanning.ScanLeaves | mqttclient/RyanMqttThread.c:128-214 | After any scan, cut short or not, a node is unchanged, or was due at a reading within the window and repeated then; and every repeat told of was one of these. |
| Scanning.WindowIs | mqttclient/RyanMqttThread.c:116-126 | Due is elapsed ackTimeout, or a new connection; the window is recvTimeout, less 100 ms where it is longer. |
| Scanning.ScanEnds | mqttclient/RyanMqttThread.c:218-228 | A scan that ends within its window sets the throttle from then, to a second at most, and leaves nothing pending; one that does not is pending and leaves the throttle. |
| Scanning.ScanLoses | mqttclient/RyanMqttThread.c:130-134 | A scan loses the connection at most once, and only then is the client not connected afterwards. |
| Repeating.RepeatsApart | mqttclient/RyanMqttThread.c:144-190 | In every run, from the reading that started a node's timer, by its call or its last repeat, to a waiting scan's repeat of it at least ackTimeout passes, whatever happens in between; the repeat starts the timer again and counts one more. |
| Repeating.TimersSet | mqttclient/RyanMqttUtileAck.c:46 | In every run every node on a list has a timer of ackTimeout. |
| Repeating.StaysUntil | mqttclient/RyanMqttThread.c:160-190 | In every run nothing alters a node until it is repeated. |
| Repeating.PublishedAsAsked | mqttclient/RyanMqttClient.c:568-596 | In every run a Published event has the topic, QoS and user data of a publish that was called. |
| Origins.NodesComeFrom | mqttclient/RyanMqttUtileAck.c:21-70 | Whatever the operation, every node on a list afterwards was there before, was repeated by the scan, or was made by the call or packet, with its kind, id, packet without DUP, message, no repeat, and its timer started then. |
| Reports.StateFollows | mqttclient/RyanMqttThread.c:408-432 | Every operation tells of a loss of the connection exactly when it is one, or sends and the socket fails, or the scan lost it; then the client is disconnected, and no other operation but a CONNACK or a step of the reconnect changes its state. |
| Reports.PublishReported | mqttclient/RyanMqttThreadProcessPacket.c:151-254 | A PUBLISH is reported once, as data or as unsubscribed data, but for a QoS 2 message whose record is still there, and is answered by its QoS. |
| Reports.SyncWarns | mqttclient/RyanMqttUtileAck.c:148-170 | The hand-over of the user list warns of every node that brings the list to the threshold or beyond, with the number. |
| Resend.ReconnectRepeats | mqttclient/RyanMqttThread.c:412-420 | After a reconnect that keeps the session every packet still owed, those of the user list last, is repeated once and in order if the scan throttle has run out; otherwise none is. |
| Resend.SessionSurvives | mqttclient/RyanMqttThread.c:345-380 | A reconnect keeps the table and the nodes of both lists, now on one, if the session is not clean and the server reports it present, and otherwise empties all three lists. |
| TopicMatcher.MatcherExact | mqttclient/RyanMqttUtileMsg.c:18-166 | On a well-formed filter and a wildcard-free topic the matcher says yes exactly when section 4.7 does and the pair is not in the missed family. |
| TopicMatcher.MissedMatches | mqttclient/RyanMqttUtileMsg.c:52-112 | Concrete topics and filters of the missed family that section 4.7 matches. |
| TopicMatcher.MatchTopic | mqttclient/RyanMqttUtileMsg.c:18-166 | The nested loops compute that decision for every topic and filter. |
| RemainingLength.EncodedSizeCorrect | coreMqtt/core_mqtt_serializer.c:456-489 | The size function is the length of the encoding for every length up to 268435455. |
| RemainingLength.DecodeEncode | coreMqtt/core_mqtt_serializer.c:847-914 | Decoding an encoding, whatever follows it, gives the length and the bytes used. |
| RemainingLength.DecodeExact | coreMqtt/core_mqtt_serializer.c:847-914 | The decoder accepts exactly the minimal encodings. |
| RemainingLength.DecodeStable | coreMqtt/core_mqtt_serializer.c:847-914 | A decided answer is never changed by further bytes, and it is undecided exactly on fewer than four bytes that all announce another. |
| RemainingLength.EncodeRemainingLength | coreMqtt/core_mqtt_serializer.c:493-522 | The encoder's loop writes the encoding of section 2.2.3 and nothing else. |
| RemainingLength.ProcessRemainingLength | coreMqtt/core_mqtt_serializer.c:847-914 | The buffered decoder computes that decision. |
| RemainingLength.GetRemainingLength | coreMqtt/core_mqtt_serializer.c:795-843 | The byte-by-byte decoder agrees with it. |
| Packets.CalculatePublishPacketSize | coreMqtt/core_mqtt_serializer.c:558-633 | A PUBLISH passes the size check if and only if its whole packet has at most 268435455 bytes, and then the sizes are those of the bytes written. |
| Packets.SerializePublish | coreMqtt/core_mqtt_serializer.c:2104-2185 | The serialiser accepts exactly the valid publishes that fit, and writes the packet of section 3.3 and nothing beyond it. |
| Packets.PublishRoundTrip | coreMqtt/core_mqtt_serializer.c:1409-1500 | Parsing a serialised PUBLISH gives back topic, payload, QoS, retain, dup and id. |
| Packets.PublishParsePartition | coreMqtt/core_mqtt_serializer.c:1409-1500 | The fields of any parsed PUBLISH partition its bytes, and serialise to the same bytes again. |
| Packets.UpdateDuplicatePublishFlag | coreMqtt/core_mqtt_serializer.c:2632-2657 | Setting DUP turns the bytes of a PUBLISH into those of the same PUBLISH with DUP, and changes no other packet. |
| Packets.SerializeAck | coreMqtt/core_mqtt_serializer.c:2272-2323 | An acknowledgement is written exactly as section 3.4 to 3.7 say, or the call is refused and nothing is. |
| Packets.AckExact | coreMqtt/core_mqtt_serializer.c:1504-1537 | The acknowledgement parser accepts exactly what the serialiser writes. |
| Packets.ReadSubackStatus | coreMqtt/core_mqtt_serializer.c:1249-1303 | The loop finds a bad code if there is one, else a refusal if there is one. |
| Packets.DeserializeSuback | coreMqtt/core_mqtt_serializer.c:1307-1350 | Exactly a packet id that is not 0 and one or more return codes pass. |
| Parsing.AckRefused | coreMqtt/core_mqtt_serializer.c:1504-1537 | The session refuses an acknowledgement if and only if the parser rejects its bytes. |
| Parsing.SubackRefused | coreMqtt/core_mqtt_serializer.c:1307-1350 | The same of a SUBACK. |
| Parsing.PublishRefused | coreMqtt/core_mqtt_serializer.c:1409-1500 | The bytes of a PUBLISH parse to its fields, or are rejected if and only if the session refuses it. |
| Octets.PublishFirst | coreMqtt/core_mqtt_serializer.c:705-750 | The first byte of a PUBLISH in numbers: type, DUP, QoS, RETAIN by their bits. |
| Octets.AckOctets | coreMqtt/core_mqtt_serializer.c:2272-2323 | The four bytes of each acknowledgement in numbers. |
| Octets.RequestOctets | coreMqtt/core_mqtt_serializer.c:1938-2059 | SUBSCRIBE and UNSUBSCRIBE in numbers, filter by filter. |
| Octets.ConnectOctets | coreMqtt/core_mqtt_serializer.c:1559-1692 | CONNECT in numbers: first byte, protocol name and level, each flag by its bit, keep alive. |
| Octets.LengthTable | coreMqtt/core_mqtt_serializer.c:493-522 | The ends of the ranges of one to four length bytes, as table 2.4 prints them. |
| RequestPackets.CalculateSubscriptionPacketSize | coreMqtt/core_mqtt_serializer.c:1173-1247 | The size loop passes exactly the lists without an empty filter whose remaining length fits, and gives the sizes of the packet. |
| RequestPackets.SerializeRequest | coreMqtt/core_mqtt_serializer.c:1938-2059 | SUBSCRIBE and UNSUBSCRIBE are written as exactly the bytes of that size. |
| RequestPackets.RequestRead | coreMqtt/core_mqtt_serializer.c:1938-2059 | A reader by section 3.8.3 or 3.10.3 gets back every filter in order, with its QoS in a SUBSCRIBE. |
| RequestPackets.GetConnectPacketSize | coreMqtt/core_mqtt_serializer.c:1696-1792 | The CONNECT size is that of the bytes written and never exceeds 327699. |
| RequestPackets.LargestConnect | coreMqtt/core_mqtt_serializer.c:1759-1777 | A CONNECT has 327699 bytes exactly when every field is present and as long as it can be. |
| RequestPackets.SerializeConnect | coreMqtt/core_mqtt_serializer.c:1559-1850 | CONNECT is written as exactly the bytes of that size. |
| RequestPackets.ConnectRead | coreMqtt/core_mqtt_serializer.c:1559-1692 | A reader by section 3.1 gets back every field of a CONNECT, optional ones included. |
| Framing.TypesAccepted | coreMqtt/core_mqtt_serializer.c:916-955 | The reader accepts a first byte if and only if it is 0x20, 0x40, 0x50, 0x70, 0x90, 0xB0, 0xD0, 0x30 to 0x3F without both QoS bits, or 0x60 to 0x6F with bit 1. |
| Framing.ReadExact | mqttclient/RyanMqttThreadProcessPacket.c:469-567 | Reading a packet with one of these bytes and a length within the limit takes exactly its own bytes, whatever follows. |
| Framing.ReadFails | mqttclient/RyanMqttThreadProcessPacket.c:469-567 | Exactly when a read times out or finds a bad header, and what it then takes off the stream. |
| Framing.ReadWithoutMemory | mqttclient/RyanMqttThreadProcessPacket.c:520-528 | Without memory a packet with data is not returned, its header is lost and its data left on the stream. |
| Framing.ReadsInOrder | mqttclient/RyanMqttThreadProcessPacket.c:469-567 | Successive reads return exactly the packets the stream was made of, in order. |
| Framing.ReadConsumes | mqttclient/RyanMqttThreadProcessPacket.c:469-567 | Whatever is returned as a packet is well formed, and its framing is what was consumed. |
| Framing.OverReadStaysInside | mqttclient/RyanMqttThreadProcessPacket.c:469-567 | A header that needs a third byte announces enough payload for the five bytes then read. |
| Framing.Connection.GetPacketInfo | mqttclient/RyanMqttThreadProcessPacket.c:469-567 | The two-round loop over the five-byte header buffer performs that read. |
| CircularList.Add | common/RyanMqttList.c:63-66 | Adding puts the node in front of the sequence and keeps next and prev mutually inverse. |
| CircularList.AddTail | common/RyanMqttList.c:75-78 | Adding at the tail appends the node. |
| CircularList.Del | common/RyanMqttList.c:86-89 | Deleting takes exactly that node out and does not touch its own links. |
| CircularList.DelInit | common/RyanMqttList.c:97-101 | Deleting and reinitialising also leaves the node a list of its own. |
| CircularList.Move | common/RyanMqttList.c:110-114 | Moving to the front of the same or another list puts the node first there and keeps the order of the others. |
| CircularList.MoveTail | common/RyanMqttList.c:123-127 | Moving to the tail of the same or another list does the same on both sequences. |
| CircularList.IsEmpty | common/RyanMqttList.c:136-139 | The emptiness test is right. |
| CircularList.ForEachSafe | common/RyanMqttList.h:29-31 | Iteration that saves its successor visits every original node once and in order although the body removes nodes, and leaves the others in order. |
| CircularList.Drain | mqttclient/RyanMqttThreadProcessPacket.c:453-467 | Moving every node over while iterating empties one list and appends it, in order, to the other. |
| Timers.RemainAcrossWrap | mqttclient/RyanMqttUtil.c:340-352 | The time left is right across the wrap of the 32-bit clock as long as less than a turn has passed. |
| PacketIds.CyclePermutation | mqttclient/RyanMqttUtil.c:360-376 | Any 65534 consecutive ids are the numbers 1 to 65534, each once. |
| PacketIds.InFlightDistinct | mqttclient/RyanMqttUtil.c:360-376 | Ids in flight are distinct as long as no node outlives 65533 further allocations. |
| PacketIds.ReusedAfterCycle | mqttclient/RyanMqttUtil.c:365-372 | One allocation later the first id is back, whatever still uses it. |
| Numbering.CounterInRun | mqttclient/RyanMqttUtil.c:360-376 | In every run the id counter is as far round its cycle as calls have taken ids; nothing else moves it. |
| Numbering.SameIdAgain | mqttclient/RyanMqttUtil.c:365-372 | In every run two calls take the same id if and only if a multiple of 65534 calls lies between them, so never less than 65534 calls apart. |
| Keepalive.NeverRunsOut | mqttclient/RyanMqttThread.c:26-83 | With an interval of a second or more, an accepted configuration, checks at most recvTimeout + 100 ms apart and successful sends, the timer never runs out in any run, wraps of the clock included. |
| Keepalive.CheckEnds | mqttclient/RyanMqttThread.c:26-83 | A check ends the connection if and only if one and a half intervals are over since the timer was fed, or a PINGREQ was due and its send failed. |
| Keepalive.CheckFeeds | mqttclient/RyanMqttThread.c:26-83 | A PINGREQ goes out if and only if it is due and its send succeeds; it feeds the timer and throttles the next for recvTimeout + 1500 ms; otherwise, timed out or failed, neither timer changes. |
| Keepalive.RunsOutInTime | mqttclient/RyanMqttThread.c:55-66 | In any run, whatever sends timed out, the first check one and a half intervals or more after the last feed ends the connection, and an earlier one only if a PINGREQ is due and fails. |
| Keepalive.FedBy | mqttclient/RyanMqttUtil.c:190-193 | In any run the timer is fed by another send, a PINGRESP or a PINGREQ that went out, and by nothing else. |
| Keepalive.LookInTime | mqttclient/RyanMqttThread.c:37-55 | A check in time sends PINGREQ exactly when 0.9 of the interval was silent and the throttle is off, or the timer could run out before the next check; never before 0.9 of the interval. |
| Keepalive.PingsInSilence | mqttclient/RyanMqttThread.c:37-55 | In any such run no PINGREQ goes out before 0.9 of the interval has passed without a send or a PINGRESP. |
| Network.MovePacket | mqttclient/RyanMqttUtil.c:146-196 | The loop of sending and receiving, whatever the platform answers, ends as the transfer is defined: done, unfinished when the time is up, or broken. |
| Network.TransferEnds | mqttclient/RyanMqttUtil.c:146-196 | It is done when all bytes are through, unfinished when the time is up before or the platform took too many, broken when the platform reports an error before. |
| Network.ConnectsIff | mqttclient/RyanMqttThread.c:331-372 | With an accepted configuration a connection can be made if and only if sendTimeout is not zero. |
| Network.ZeroNeverConnects | mqttclient/RyanMqttClient.c:954-956 | A configuration with which a connection can be made has a keep alive interval. |
| Keepalive.Keeper.KeepaliveCheck | mqttclient/RyanMqttThread.c:26-83 | The branches of the source compute the check the run theorems are about. |
| Client.Client.AckListNodeFind | mqttclient/RyanMqttUtileAck.c:106-139 | Finds, and removes if asked to, the first node of that kind and id. |
| Client.Client.ClearAckSession | mqttclient/RyanMqttUtileAck.c:261-286 | Ends, and removes and destroys every node of that kind and id on both lists and nothing else. |
| Client.Client.PurgeSession | mqttclient/RyanMqttUtil.c:231-269 | Empties all three lists and destroys every node once. |
| Client.Client.PubackAndPubcompPacketHandler | mqttclient/RyanMqttThreadProcessPacket.c:15-37 | PUBACK or PUBCOMP reports and destroys the first node that waits for it under its id, and does nothing without one or with packet id 0. |
| Client.Client.PubrelPacketHandler | mqttclient/RyanMqttThreadProcessPacket.c:45-77 | PUBREL destroys the record of its id, if there is one, and is answered with PUBCOMP in either case; with packet id 0 it is refused. |
| Client.Client.PubrecPacketHandler | mqttclient/RyanMqttThreadProcessPacket.c:85-143 | PUBREC turns the PUBREC node of its id into a PUBCOMP node before PUBREL is sent; when memory fails the PUBREC node is back in the list and nothing is sent; with packet id 0 it is refused. |
| Client.Client.PublishPacketHandler | mqttclient/RyanMqttThreadProcessPacket.c:151-254 | A PUBLISH without a matching subscription is reported and changes nothing else; QoS 0 and 1 are delivered each time, QoS 2 only when no record of its id exists, and the record is in the list before PUBREC is sent; at QoS 1 or 2 with packet id 0 it is refused. |
| Client.Client.SubackHandler | mqttclient/RyanMqttThreadProcessPacket.c:262-388 | The loop over the list, deleting as it goes, computes the SUBACK step of `Subscriptions` and of the run theorems. |
| Client.Client.UnSubackHandler | mqttclient/RyanMqttThreadProcessPacket.c:396-446 | The loop deletes every node of the id, and for the UNSUBACK nodes the table entry of their filter. |
| Client.Client.ProcessPacket | mqttclient/RyanMqttThreadProcessPacket.c:575-669 | Each received packet has the effect on the whole session, events and sent packets included, that the run theorems give it. |
| Client.Client.ConnackAccepted | mqttclient/RyanMqttThread.c:345-380 | Reading the CONNACK moves the user list over; an accepted one without session-present then empties the three lists, with it they stay. |
| Client.Client.ConnectedEventMachine | mqttclient/RyanMqttThread.c:412-420 | A new connection is followed by one scan that does not wait for time-outs. |
| Client.Client.SyncUserAckHandle | mqttclient/RyanMqttThreadProcessPacket.c:453-467 | The loop moves the user list over in order. |
| Client.Client.AckListScan | mqttclient/RyanMqttThread.c:94-229 | The loop, its window, throttle and pending flag are the scan step. |
| Client.Client.PublishPlain | mqttclient/RyanMqttClient.c:514-566 | A QoS 0 publish is sent and leaves nothing, or is refused by the checks. |
| Client.Client.PublishBegin | mqttclient/RyanMqttClient.c:514-598 | A publish up to its send adds one node and takes one id, or nothing but perhaps the id. |
| Client.Client.PublishEnd | mqttclient/RyanMqttClient.c:598-604 | The send of a publish, and its rollback through both lists. |
| Client.Client.SubscribeBegin | mqttclient/RyanMqttClient.c:232-337 | The loops of a SUBSCRIBE up to its send, with both rollbacks. |
| Client.Client.SubscribeEnd | mqttclient/RyanMqttClient.c:332-356 | The send of a SUBSCRIBE and its rollback. |
| Client.Client.UnsubscribeBegin | mqttclient/RyanMqttClient.c:386-480 | The loop of an UNSUBSCRIBE up to its send, with its rollback. |
| Client.Client.DiscardAckHandler | mqttclient/RyanMqttClient.c:1073-1088 | A discard takes one node of that kind and id off the list and tells the application. |

## Left out

- Sockets, DNS, threads, mutexes and the heap are foreign calls: sends and allocations have any outcome, each locked list operation is atomic, a send that did not finish counts as not sent.
- A receive that times out in the middle of a packet loses the alignment of the stream; the framing theorems are about reads that complete.
- A socket error inside the resend scan with clean session on re-enters the purge while the scan holds the node; in the model the scan leaves the lists in place.
- Resend.ScanRepeatsDue: it is about a scan with time enough in which every send succeeds; Scanning says what holds of any scan.
- Scanning.ScanLeaves: one reading of the clock serves for all comparisons at one node.
- Client.Client.SubscribeBegin: a call up to its send is one step, although the source takes its locks once for each node and entry; a scan of the MQTT thread in the middle of it is not modelled.
- Client.Client.AckListNodeFind: the client's lists are fields of sequence type; the links are the subject of CircularList, which does not model the nodes' other fields.
- Inbound.ExactlyOnceInbound: the sequence of steps is arbitrary within the two guards listed above; a message without a matching subscription is simply not acknowledged and so not complete.
- Overtaking.FirstSendOvertaken: the source then reads a packet that the MQTT thread may have freed; memory contents are not modelled.
- User callbacks are recorded as events and do nothing; a callback that discards a node during a scan or calls back into the client is not modelled.
- Payloads and user data are numbers in the session model; StoredBytes joins them to the bytes of Packets.
- Numbering.SameIdAgain: it is about the calls of a run; that an id in flight is not issued again is a guard of World.Orderly and not derived from the age of the nodes.
- RequestPackets.CalculateSubscriptionPacketSize: lengths are added without a bound, so an overflow of size_t is not modelled.
- Copying of configurations, will message setters, getters, error texts, logging and NULL checks of parameters are plumbing.
- CONNACK return codes other than accepted, refused connections and the waiting time before a reconnect only decide whether a reconnect happens.
