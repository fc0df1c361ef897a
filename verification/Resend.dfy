/** What survives a lost connection, and what is sent again over the next one. */
module Resend {
  import opened Bytes
  import opened Common
  import opened Timers
  import opened Session
  import opened Requests
  import opened Effects

  /** The packet section 4.4 of MQTT 3.1.1 wants repeated for a node: its PUBLISH with DUP, its PUBREL, or the PUBREC
      of a message from the broker. */
  function Owed(n: AckNode): Packet {
    match n.kind
    case PUBACK => Publish(true, 1, n.id, n.msg.topic, n.msg.userData)
    case PUBREC => Publish(true, 2, n.id, n.msg.topic, n.msg.userData)
    case PUBCOMP => Packet.Pubrel(n.id)
    case _ => Packet.Pubrec(n.id)
  }

  /** The scan repeats a node if its time is up, or right away after a reconnect. */
  predicate Due(n: AckNode, now: u32, wait: bool) {
    Remain(n.timer, now) == 0 || !wait
  }

  /** The packets due, node by node, the `k`-th node being looked at at `clock(k)`. */
  function DuePackets(nodes: seq<AckNode>, k: nat, wait: bool, clock: nat -> u32): seq<Packet> {
    if nodes == [] then []
    else (if Resendable(nodes[0].kind) && Due(nodes[0], clock(k), wait) then [Owed(nodes[0])] else [])
         + DuePackets(nodes[1..], k + 1, wait, clock)
  }

  /** A node once repeated at `now`: same kind, id, message and place; its packet the one it owes; its timer just
      started; one more repeat, in 16 bits. */
  function Again(n: AckNode, now: u32, config: Config): AckNode {
    AckNode(n.kind, n.id, Some(Owed(n)), (n.repeatCount + 1) % 0x1_0000, Timer(now, config.ackTimeout), n.msg, n.address)
  }

  /** What a node becomes: repeated if it is due, given up if it is a due SUBSCRIBE or UNSUBSCRIBE, else left alone. */
  function Next(n: AckNode, now: u32, wait: bool, config: Config): seq<AckNode> {
    if !Due(n, now, wait) then [n] else if Resendable(n.kind) then [Again(n, now, config)] else []
  }

  function AllNext(nodes: seq<AckNode>, k: nat, wait: bool, clock: nat -> u32, config: Config): seq<AckNode> {
    if nodes == [] then [] else Next(nodes[0], clock(k), wait, config) + AllNext(nodes[1..], k + 1, wait, clock, config)
  }

  /** What the application hears of a node: that it is repeated, as what, and from the threshold on how often; or that
      its SUBSCRIBE or UNSUBSCRIBE failed. */
  function Heard(n: AckNode, now: u32, wait: bool, config: Config): seq<Event> {
    if !Due(n, now, wait) then []
    else
      match n.kind
      case SUBACK => [SubscribedFailed(n.msg)]
      case UNSUBACK => [UnSubscribedFailed(n.msg)]
      case _ =>
        [RepeatPublishPacket(n.(packet := Some(Owed(n))))]
        + if (n.repeatCount + 1) % 0x1_0000 >= config.repeatCountWarning then [AckRepeatCountWarning(Again(n, now, config))]
          else []
  }

  function AllHeard(nodes: seq<AckNode>, k: nat, wait: bool, clock: nat -> u32, config: Config): seq<Event> {
    if nodes == [] then []
    else Heard(nodes[0], clock(k), wait, config) + AllHeard(nodes[1..], k + 1, wait, clock, config)
  }

  function Lesser(remain: u32, throttle: u32): u32 {
    if 0 < remain < throttle then remain else throttle
  }

  /** The least time left on a timer that was found running, and no more than `throttle`. */
  function LeastLeft(nodes: seq<AckNode>, k: nat, throttle: u32, clock: nat -> u32): u32
    decreases |nodes|
  {
    if nodes == [] then throttle
    else LeastLeft(nodes[1..], k + 1, Lesser(Remain(nodes[0].timer, clock(k)), throttle), clock)
  }

  /** It delays no node that was not due, and is no less than that demands. */
  lemma {:induction false} LeastDelays(nodes: seq<AckNode>, k: nat, throttle: u32, clock: nat -> u32)
    requires throttle > 0
    ensures var t := LeastLeft(nodes, k, throttle, clock);
            && 0 < t <= throttle
            && (forall j | 0 <= j < |nodes| && Remain(nodes[j].timer, clock(k + j)) > 0 ::
                  t <= Remain(nodes[j].timer, clock(k + j)))
            && (t == throttle || exists j :: 0 <= j < |nodes| && t == Remain(nodes[j].timer, clock(k + j)))
    decreases |nodes|
  {
    if nodes != [] {
      var first := Remain(nodes[0].timer, clock(k));
      LeastDelays(nodes[1..], k + 1, Lesser(first, throttle), clock);
      var t := LeastLeft(nodes, k, throttle, clock);
      hide Remain, LeastLeft;
      forall j | 0 <= j < |nodes| && Remain(nodes[j].timer, clock(k + j)) > 0
        ensures t <= Remain(nodes[j].timer, clock(k + j))
      {
        if j > 0 {
          assert nodes[1..][j - 1] == nodes[j] && k + 1 + (j - 1) == k + j;
        }
      }
      if j :| 0 <= j < |nodes[1..]| && t == Remain(nodes[1..][j].timer, clock(k + 1 + j)) {
        assert nodes[1..][j] == nodes[j + 1] && k + (j + 1) == k + 1 + j;
      } else {
        assert t == throttle || t == Remain(nodes[0].timer, clock(k + 0));
      }
    }
  }

  /** The scan is never cut short. */
  ghost predicate Undisturbed(window: Timer, input: ScanInput, from: nat, to: nat) {
    && (forall j: nat | from <= j <= to :: Remain(window, input.clock(j)) != 0)
    && forall j: nat | from <= j < to :: input.sends(j) == Sent
  }

  lemma {:induction false} ResentOwes(n: AckNode, now: u32, config: Config)
    requires NodeOk(n) && Resendable(n.kind)
    ensures MarkedDup(n) == n.(packet := Some(Owed(n))) && Resent(n, now, config) == Again(n, now, config)
    ensures NodeOk(Again(n, now, config)) && Owed(Again(n, now, config)) == Owed(n)
  {
  }

  lemma {:induction false} RepeatedOnce(s: State, i: nat, now: u32)
    requires i < |s.acks| && NodesOk(s.acks) && Resendable(s.acks[i].kind)
    ensures var r := ResendAt(s, i, now, Sent);
            && r.wire == s.wire + [Owed(s.acks[i])] && r.acks == s.acks[i := Again(s.acks[i], now, s.config)]
            && r.events == s.events + Heard(s.acks[i], now, false, s.config)
            && r.userAcks == s.userAcks && r.clientState == s.clientState && r.config == s.config && NodesOk(r.acks)
  {
    assert s.acks[i] in s.acks;
    ResentOwes(s.acks[i], now, s.config);
    NodesOkUpdate(s.acks, i, Again(s.acks[i], now, s.config));
  }

  /** The session and the place to go on from, after the `i`-th node was looked at. */
  function Turn(s: State, i: nat, now: u32, wait: bool): (State, nat)
    requires i < |s.acks|
  {
    if !Due(s.acks[i], now, wait) then (s, i + 1)
    else if Resendable(s.acks[i].kind) then (ResendAt(s, i, now, Sent), i + 1)
    else (ExpireAt(s, i), i)
  }

  lemma {:induction false} TurnDoes(s: State, i: nat, now: u32, wait: bool)
    requires i < |s.acks| && NodesOk(s.acks)
    ensures var (t, j) := Turn(s, i, now, wait);
            && j <= |t.acks| && t.acks[..j] == s.acks[..i] + Next(s.acks[i], now, wait, s.config)
            && t.events == s.events + Heard(s.acks[i], now, wait, s.config)
            && t.acks[j..] == s.acks[i + 1..] && NodesOk(t.acks)
            && t.userAcks == s.userAcks && t.clientState == s.clientState && t.config == s.config
            && t.wire == s.wire + if Resendable(s.acks[i].kind) && Due(s.acks[i], now, wait) then [Owed(s.acks[i])] else []
  {
    if Due(s.acks[i], now, wait) && Resendable(s.acks[i].kind) {
      RepeatedOnce(s, i, now);
    }
  }

  /** One turn of the scan's loop. */
  lemma {:induction false} ScanTurn(s: State, i: nat, k: nat, wait: bool, window: Timer, throttle: u32, input: ScanInput)
    requires i < |s.acks| && s.clientState == Connected && Remain(window, input.clock(k)) != 0 && input.sends(k) == Sent
    ensures var (t, j) := Turn(s, i, input.clock(k), wait);
            ScanFrom(s, i, k, wait, window, throttle, input) ==
            ScanFrom(t, j, k + 1, wait, window, Lesser(Remain(s.acks[i].timer, input.clock(k)), throttle), input)
  {
    var remain := Remain(s.acks[i].timer, input.clock(k));
    assert Lesser(remain, throttle) == if remain != 0 then Min(remain, throttle) else throttle;
    hide Remain;
  }

  lemma {:induction false} FromNode(acks: seq<AckNode>, i: nat, k: nat, wait: bool, clock: nat -> u32, config: Config)
    requires i < |acks|
    ensures DuePackets(acks[i..], k, wait, clock) ==
            (if Resendable(acks[i].kind) && Due(acks[i], clock(k), wait) then [Owed(acks[i])] else [])
            + DuePackets(acks[i + 1..], k + 1, wait, clock)
    ensures AllNext(acks[i..], k, wait, clock, config) ==
            Next(acks[i], clock(k), wait, config) + AllNext(acks[i + 1..], k + 1, wait, clock, config)
  {
  }

  lemma {:induction false} ScanSilent(s: State, k: nat, wait: bool, window: Timer, throttle: u32, input: ScanInput)
    requires s.clientState == Connected && Remain(window, input.clock(k)) != 0
    ensures var r := ScanFrom(s, |s.acks|, k, wait, window, throttle, input);
            && r.wire == s.wire + DuePackets(s.acks[|s.acks|..], k, wait, input.clock)
            && r.acks == s.acks[..|s.acks|] + AllNext(s.acks[|s.acks|..], k, wait, input.clock, s.config)
            && r.userAcks == s.userAcks
  {
    hide Remain;
    assert s.acks[|s.acks|..] == [] && s.acks[..|s.acks|] + [] == s.acks && s.wire + [] == s.wire;
  }

  lemma {:induction false} ScanRepeats(s: State, i: nat, k: nat, wait: bool, window: Timer, throttle: u32,
                                      input: ScanInput)
    requires i <= |s.acks| && NodesOk(s.acks) && s.clientState == Connected
    requires Undisturbed(window, input, k, k + |s.acks| - i)
    ensures var r := ScanFrom(s, i, k, wait, window, throttle, input);
            && r.wire == s.wire + DuePackets(s.acks[i..], k, wait, input.clock)
            && r.acks == s.acks[..i] + AllNext(s.acks[i..], k, wait, input.clock, s.config)
            && r.userAcks == s.userAcks
    decreases |s.acks| - i
  {
    hide Turn, NodesOk, Remain, ScanFrom, Next, Owed, AllNext, DuePackets, Due, Heard, Lesser;
    assert Remain(window, input.clock(k)) != 0;
    if i == |s.acks| {
      ScanSilent(s, k, wait, window, throttle, input);
    } else {
      assert input.sends(k) == Sent;
      var (t, j) := Turn(s, i, input.clock(k), wait);
      TurnDoes(s, i, input.clock(k), wait);
      var least := Lesser(Remain(s.acks[i].timer, input.clock(k)), throttle);
      ScanTurn(s, i, k, wait, window, throttle, input);
      assert |t.acks| - j == |s.acks| - i - 1;
      assert Undisturbed(window, input, k + 1, k + 1 + |t.acks| - j);
      hide Undisturbed;
      ScanRepeats(t, j, k + 1, wait, window, least, input);
      FromNode(s.acks, i, k, wait, input.clock, s.config);
      Assoc(s.acks[..i], Next(s.acks[i], input.clock(k), wait, s.config),
            AllNext(s.acks[i + 1..], k + 1, wait, input.clock, s.config));
      var due := if Resendable(s.acks[i].kind) && Due(s.acks[i], input.clock(k), wait) then [Owed(s.acks[i])] else [];
      Assoc(s.wire, due, DuePackets(s.acks[i + 1..], k + 1, wait, input.clock));
    }
  }

  lemma {:induction false} HeardFrom(acks: seq<AckNode>, i: nat, k: nat, wait: bool, clock: nat -> u32, config: Config,
                                    throttle: u32)
    requires i < |acks|
    ensures AllHeard(acks[i..], k, wait, clock, config) ==
            Heard(acks[i], clock(k), wait, config) + AllHeard(acks[i + 1..], k + 1, wait, clock, config)
    ensures LeastLeft(acks[i..], k, throttle, clock) ==
            LeastLeft(acks[i + 1..], k + 1, Lesser(Remain(acks[i].timer, clock(k)), throttle), clock)
  {
  }

  lemma {:induction false} ScanOver(s: State, k: nat, wait: bool, window: Timer, throttle: u32, input: ScanInput)
    requires s.clientState == Connected && Remain(window, input.clock(k)) != 0
    ensures var r := ScanFrom(s, |s.acks|, k, wait, window, throttle, input);
            && r.events == s.events + AllHeard(s.acks[|s.acks|..], k, wait, input.clock, s.config) && !r.pendingAck
            && r.scanThrottle == Timer(input.clock(k), LeastLeft(s.acks[|s.acks|..], k, throttle, input.clock))
  {
    hide Remain;
    assert s.acks[|s.acks|..] == [] && s.events + [] == s.events;
  }

  lemma {:induction false} ScanTells(s: State, i: nat, k: nat, wait: bool, window: Timer, throttle: u32, input: ScanInput)
    requires i <= |s.acks| && NodesOk(s.acks) && s.clientState == Connected
    requires Undisturbed(window, input, k, k + |s.acks| - i)
    ensures var r := ScanFrom(s, i, k, wait, window, throttle, input);
            && r.events == s.events + AllHeard(s.acks[i..], k, wait, input.clock, s.config)
            && r.scanThrottle == Timer(input.clock(k + |s.acks| - i), LeastLeft(s.acks[i..], k, throttle, input.clock))
            && !r.pendingAck
    decreases |s.acks| - i
  {
    hide Turn, NodesOk, Remain, ScanFrom, Next, Owed, Due, Heard, AllHeard, Lesser, LeastLeft;
    assert Remain(window, input.clock(k)) != 0;
    if i == |s.acks| {
      ScanOver(s, k, wait, window, throttle, input);
    } else {
      assert input.sends(k) == Sent;
      var (t, j) := Turn(s, i, input.clock(k), wait);
      TurnDoes(s, i, input.clock(k), wait);
      var least := Lesser(Remain(s.acks[i].timer, input.clock(k)), throttle);
      ScanTurn(s, i, k, wait, window, throttle, input);
      assert k + 1 + |t.acks| - j == k + |s.acks| - i;
      assert Undisturbed(window, input, k + 1, k + 1 + |t.acks| - j);
      hide Undisturbed;
      ScanTells(t, j, k + 1, wait, window, least, input);
      HeardFrom(s.acks, i, k, wait, input.clock, s.config, throttle);
      Assoc(s.events, Heard(s.acks[i], input.clock(k), wait, s.config),
            AllHeard(s.acks[i + 1..], k + 1, wait, input.clock, s.config));
    }
  }

  /** A scan with time enough repeats what is due, each node once and in list order, and nothing else; a repeated node
      has its timer started anew and one more repeat, all others are as they were; the application hears of each; and the
      next scan may come when the first timer found running is over, or after a second. */
  lemma {:induction false} ScanRepeatsDue(s: State, wait: bool, input: ScanInput)
    requires StateOk(s) && s.clientState == Connected && Remain(s.scanThrottle, input.clock(0)) == 0
    requires Undisturbed(Timer(input.clock(0), ScanWindow(s.config)), input, 0, |s.acks|)
    ensures var r := Scan(s, wait, input);
            && r.wire == s.wire + DuePackets(s.acks, 0, wait, input.clock)
            && r.acks == AllNext(s.acks, 0, wait, input.clock, s.config) && r.userAcks == s.userAcks
            && r.events == s.events + AllHeard(s.acks, 0, wait, input.clock, s.config)
            && r.scanThrottle == Timer(input.clock(|s.acks|), LeastLeft(s.acks, 0, 1000, input.clock)) && !r.pendingAck
  {
    assert s.acks[0..] == s.acks;
    ScanRepeats(s, 0, 0, wait, Timer(input.clock(0), ScanWindow(s.config)), 1000, input);
    ScanTells(s, 0, 0, wait, Timer(input.clock(0), ScanWindow(s.config)), 1000, input);
    hide ScanFrom, NodesOk, AllHeard, DuePackets, LeastLeft;
    assert s.acks[..0] + AllNext(s.acks, 0, wait, input.clock, s.config) == AllNext(s.acks, 0, wait, input.clock, s.config);
  }

  /** The packets owed for the nodes that are repeated, in list order. */
  function AllOwed(nodes: seq<AckNode>): seq<Packet> {
    if nodes == [] then [] else (if Resendable(nodes[0].kind) then [Owed(nodes[0])] else []) + AllOwed(nodes[1..])
  }

  lemma {:induction false} DueAtOnce(nodes: seq<AckNode>, k: nat, clock: nat -> u32)
    ensures DuePackets(nodes, k, false, clock) == AllOwed(nodes)
  {
    if nodes != [] {
      DueAtOnce(nodes[1..], k + 1, clock);
    }
  }

  /** The session after the connection was lost and made again. Reading the CONNACK moves the user list over, as
      every read does, before the session decision. */
  function Reconnected(s: State, present: bool): State {
    OnConnack(Sync(Disconnect(s).(clientState := Reconnecting)), present)
  }

  lemma {:induction false} SyncRest(s: State)
    ensures var r := Sync(s);
            && r.acks == s.acks + s.userAcks && r.userAcks == [] && r.subs == s.subs && r.wire == s.wire
            && r.config == s.config && r.scanThrottle == s.scanThrottle && r.clientState == s.clientState
            && r.ackCount == (s.ackCount + |s.userAcks|) % 0x1_0000
    decreases |s.userAcks|
  {
    if s.userAcks == [] {
      assert s.acks + [] == s.acks;
    } else {
      var next := AddAck(s.(userAcks := s.userAcks[1..]), s.userAcks[0]);
      assert Sync(s) == Sync(next);
      assert next == s.(acks := s.acks + [s.userAcks[0]], userAcks := s.userAcks[1..], ackCount := next.ackCount,
                        events := next.events) && next.ackCount == (s.ackCount + 1) % 0x1_0000;
      hide Sync, AddAck;
      SyncRest(next);
      assert s.acks + [s.userAcks[0]] + s.userAcks[1..] == s.acks + s.userAcks;
      OneCounted(s.ackCount, |s.userAcks| - 1);
    }
  }

  lemma {:induction false} OneCounted(count: u16, more: nat)
    ensures ((count + 1) % 0x1_0000 + more) % 0x1_0000 == (count + (more + 1)) % 0x1_0000
  {
  }

  /** The nodes and the table survive a reconnect exactly when neither end dropped the session, the user's nodes then
      being on the list behind the others; otherwise all three lists are empty. */
  lemma {:induction false} SessionSurvives(s: State, present: bool)
    ensures var r := Reconnected(s, present);
            && r.userAcks == []
            && if s.config.cleanSession || !present then r.acks == [] && r.subs == [] && r.ackCount == 0
               else && r.acks == s.acks + s.userAcks && r.subs == s.subs
                    && r.ackCount == (s.ackCount + |s.userAcks|) % 0x1_0000
  {
    SyncRest(Disconnect(s).(clientState := Reconnecting));
  }

  /** Over the next connection everything still owed is repeated, once and in order, before anything else goes out,
      what the user's calls added last included; but only if the throttle of the last scan has run out: otherwise
      nothing is. */
  lemma {:induction false} ReconnectRepeats(s: State, input: ScanInput)
    requires StateOk(s) && !s.config.cleanSession
    requires Undisturbed(Timer(input.clock(0), ScanWindow(s.config)), input, 0, |s.acks| + |s.userAcks|)
    ensures OnConnected(Reconnected(s, true), input).wire ==
            s.wire + if Remain(s.scanThrottle, input.clock(0)) == 0 then AllOwed(s.acks + s.userAcks) else []
    ensures OnConnected(Reconnected(s, true), input).userAcks == []
    ensures var e := OnConnected(Reconnected(s, true), input).events; |e| > 0 && e[|e| - 1] == ConnectedEvent
  {
    hide OnConnected;
    var down := Disconnect(s).(clientState := Reconnecting);
    var r := Reconnected(s, true);
    SyncRest(down);
    StateOkSame(s, down);
    SyncEffect(down);
    StateOkSame(Sync(down), r);
    ConnectedScan(r, input);
    if Remain(s.scanThrottle, input.clock(0)) == 0 {
      ScanRepeatsDue(r, false, input);
      DueAtOnce(r.acks, 0, input.clock);
    } else {
      assert s.wire + [] == s.wire;
    }
  }

  lemma {:induction false} ConnectedScan(s: State, input: ScanInput)
    ensures OnConnected(s, input).wire == Scan(s, false, input).wire
    ensures OnConnected(s, input).userAcks == Scan(s, false, input).userAcks
    ensures OnConnected(s, input).events == Scan(s, false, input).events + [ConnectedEvent]
  {
  }
}
