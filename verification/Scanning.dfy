/** Any resend scan, cut short or not: what becomes of a node, what the application hears of it, and how the scan ends. */
module Scanning {
  import opened Bytes
  import opened Common
  import opened Timers
  import opened Session
  import opened Effects
  import opened Resend

  /** The scan repeats node `m` at its `k`-th reading of the clock: due, and its window not used up. */
  predicate RepeatedAt(m: AckNode, k: nat, wait: bool, window: Timer, input: ScanInput) {
    && Resendable(m.kind) && (Remain(m.timer, input.clock(k)) == 0 || !wait) && Remain(window, input.clock(k)) != 0
  }

  /** What the application hears when `m` is repeated. */
  function Announced(m: AckNode): Event {
    RepeatPublishPacket(m.(packet := Some(Owed(m))))
  }

  /** A node left by a scan over `nodes` is as it was, or was repeated and announced. */
  ghost predicate LeftBy(nodes: seq<AckNode>, n: AckNode, events: seq<Event>, wait: bool, window: Timer,
                         input: ScanInput, config: Config) {
    n in nodes
    || exists m, k :: m in nodes && RepeatedAt(m, k, wait, window, input) && n == Again(m, input.clock(k), config)
                      && Announced(m) in events
  }

  /** Whatever is announced was due, and was repeated. */
  ghost predicate Meant(nodes: seq<AckNode>, left: seq<AckNode>, e: Event, wait: bool, window: Timer,
                        input: ScanInput, config: Config) {
    e.RepeatPublishPacket? ==>
      exists m, k :: m in nodes && RepeatedAt(m, k, wait, window, input) && e == Announced(m)
                     && Again(m, input.clock(k), config) in left
  }

  ghost predicate Treated(nodes: seq<AckNode>, left: seq<AckNode>, events: seq<Event>, wait: bool, window: Timer,
                          input: ScanInput, config: Config) {
    && (forall n | n in left :: LeftBy(nodes, n, events, wait, window, input, config))
    && (forall e | e in events :: Meant(nodes, left, e, wait, window, input, config))
  }

  /** A node before the others, not announced: left or given up. */
  lemma {:induction false} NodePassed(n: AckNode, nodes: seq<AckNode>, kept: seq<AckNode>, left: seq<AckNode>,
                                     told: seq<Event>, events: seq<Event>, wait: bool, window: Timer, input: ScanInput,
                                     config: Config)
    requires Treated(nodes, left, events, wait, window, input, config) && (kept == [] || kept == [n])
    requires forall e | e in told :: !e.RepeatPublishPacket?
    ensures Treated([n] + nodes, kept + left, told + events, wait, window, input, config)
  {
    hide RepeatedAt;
    forall x | x in kept + left ensures LeftBy([n] + nodes, x, told + events, wait, window, input, config) {
      if x in left && !(x in nodes) {
        assert LeftBy(nodes, x, events, wait, window, input, config);
        var m, k :| m in nodes && RepeatedAt(m, k, wait, window, input) && x == Again(m, input.clock(k), config)
                    && Announced(m) in events;
        assert m in [n] + nodes && Announced(m) in told + events;
      }
    }
    forall e | e in told + events ensures Meant([n] + nodes, kept + left, e, wait, window, input, config) {
      if e in events && e.RepeatPublishPacket? {
        assert Meant(nodes, left, e, wait, window, input, config);
        var m, k :| m in nodes && RepeatedAt(m, k, wait, window, input) && e == Announced(m)
                    && Again(m, input.clock(k), config) in left;
        assert m in [n] + nodes && Again(m, input.clock(k), config) in kept + left;
      }
    }
  }

  /** A node before the others, repeated. */
  lemma {:induction false} NodeRepeated(n: AckNode, k: nat, nodes: seq<AckNode>, left: seq<AckNode>, told: seq<Event>,
                                       events: seq<Event>, wait: bool, window: Timer, input: ScanInput, config: Config)
    requires Treated(nodes, left, events, wait, window, input, config) && RepeatedAt(n, k, wait, window, input)
    requires Announced(n) in told && forall e | e in told && e.RepeatPublishPacket? :: e == Announced(n)
    ensures Treated([n] + nodes, [Again(n, input.clock(k), config)] + left, told + events, wait, window, input, config)
  {
    hide RepeatedAt;
    var again := Again(n, input.clock(k), config);
    forall x | x in [again] + left ensures LeftBy([n] + nodes, x, told + events, wait, window, input, config) {
      if x == again {
        assert n in [n] + nodes && Announced(n) in told + events;
      } else if !(x in nodes) {
        assert LeftBy(nodes, x, events, wait, window, input, config);
        var m, j :| m in nodes && RepeatedAt(m, j, wait, window, input) && x == Again(m, input.clock(j), config)
                    && Announced(m) in events;
        assert m in [n] + nodes && Announced(m) in told + events;
      }
    }
    forall e | e in told + events ensures Meant([n] + nodes, [again] + left, e, wait, window, input, config) {
      if e in told && e.RepeatPublishPacket? {
        assert e == Announced(n) && n in [n] + nodes && again in [again] + left;
      } else if e.RepeatPublishPacket? {
        assert Meant(nodes, left, e, wait, window, input, config);
        var m, j :| m in nodes && RepeatedAt(m, j, wait, window, input) && e == Announced(m)
                    && Again(m, input.clock(j), config) in left;
        assert m in [n] + nodes && Again(m, input.clock(j), config) in [again] + left;
      }
    }
  }

  lemma {:induction false} NothingDone(nodes: seq<AckNode>, wait: bool, window: Timer, input: ScanInput, config: Config)
    ensures Treated(nodes, nodes, [], wait, window, input, config)
  {
  }

  /** What a repeat tells the application: the repeat, perhaps that the connection is lost, perhaps how often. */
  function ToldOfRepeat(n: AckNode, now: u32, outcome: SendOutcome, config: Config): (seq<Event>, seq<Event>) {
    (if n.packet.Some? && outcome == SocketError then [DisconnectedEvent] else [],
     if (n.repeatCount + 1) % 0x1_0000 >= config.repeatCountWarning then [AckRepeatCountWarning(Resent(n, now, config))]
     else [])
  }

  lemma {:induction false} ResendEvents(s: State, i: nat, now: u32, outcome: SendOutcome)
    requires i < |s.acks| && Resendable(s.acks[i].kind)
    ensures var r, n := ResendAt(s, i, now, outcome), s.acks[i];
            var (lost, warned) := ToldOfRepeat(n, now, outcome, s.config);
            && r.events == s.events + [RepeatPublishPacket(MarkedDup(n))] + lost + warned
            && r.clientState == (if lost != [] then Disconnected else s.clientState)
            && r.acks == s.acks[i := Resent(n, now, s.config)] && r.config == s.config && r.userAcks == s.userAcks
  {
    var n := s.acks[i];
    var logged := Log(s, RepeatPublishPacket(MarkedDup(n)));
    var sent := SendInScan(logged, MarkedDup(n).packet, outcome);
    assert sent.events == logged.events + ToldOfRepeat(n, now, outcome, s.config).0;
    assert Resent(n, now, s.config).repeatCount == (n.repeatCount + 1) % 0x1_0000;
  }

  /** One node sent again, however the send ends. */
  lemma {:induction false} ResendTold(s: State, i: nat, now: u32, outcome: SendOutcome) returns (told: seq<Event>)
    requires i < |s.acks| && NodesOk(s.acks) && Resendable(s.acks[i].kind)
    ensures var r := ResendAt(s, i, now, outcome);
            && r.events == s.events + told && r.acks == s.acks[i := Again(s.acks[i], now, s.config)] && NodesOk(r.acks)
            && r.config == s.config && r.userAcks == s.userAcks
    ensures Announced(s.acks[i]) in told
    ensures forall e | e in told && e.RepeatPublishPacket? :: e == Announced(s.acks[i])
  {
    var n := s.acks[i];
    assert n in s.acks;
    ResentOwes(n, now, s.config);
    NodesOkUpdate(s.acks, i, Again(n, now, s.config));
    ResendEvents(s, i, now, outcome);
    hide ResendAt, Resent, MarkedDup, NodeOk, NodesOk;
    var (lost, warned) := ToldOfRepeat(n, now, outcome, s.config);
    var a := RepeatPublishPacket(MarkedDup(n));
    assert a == Announced(n);
    told := [a] + lost + warned;
    Assoc(s.events, [a], lost);
    Assoc(s.events, [a] + lost, warned);
  }

  lemma {:induction false} ExpireTold(s: State, i: nat) returns (told: seq<Event>)
    requires i < |s.acks| && NodesOk(s.acks) && !Resendable(s.acks[i].kind)
    ensures var r := ExpireAt(s, i);
            && r.events == s.events + told && r.acks == RemoveAt(s.acks, i) && NodesOk(r.acks)
            && r.config == s.config && r.userAcks == s.userAcks
    ensures forall e | e in told :: !e.RepeatPublishPacket?
  {
    told := ExpireAt(s, i).events[|s.events|..];
  }

  lemma {:induction false} ScanTreats(s: State, i: nat, k: nat, wait: bool, window: Timer, throttle: u32, input: ScanInput)
    returns (left: seq<AckNode>, told: seq<Event>)
    requires i <= |s.acks| && NodesOk(s.acks)
    ensures var r := ScanFrom(s, i, k, wait, window, throttle, input);
            && r.acks == s.acks[..i] + left && r.events == s.events + told && r.userAcks == s.userAcks
            && Treated(s.acks[i..], left, told, wait, window, input, s.config)
    decreases |s.acks| - i
  {
    hide Treated, NodesOk, ResendAt, ExpireAt, Remain, RepeatedAt;
    var now := input.clock(k);
    if i >= |s.acks| || s.clientState != Connected || Remain(window, now) == 0 {
      left, told := s.acks[i..], [];
      NothingDone(s.acks[i..], wait, window, input, s.config);
      assert s.acks[..i] + s.acks[i..] == s.acks && s.events + [] == s.events;
    } else {
      var n := s.acks[i];
      var remain := Remain(n.timer, now);
      var least := if remain != 0 then Min(remain, throttle) else throttle;
      var rest := s.acks[i + 1..];
      assert s.acks[i..] == [n] + rest;
      if remain != 0 && wait {
        left, told := ScanTreats(s, i + 1, k + 1, wait, window, least, input);
        NodePassed(n, rest, [n], left, [], told, wait, window, input, s.config);
        left, told := [n] + left, [] + told;
        assert s.acks[..i + 1] + left[1..] == s.acks[..i] + left && left[1..] == left[1..];
      } else if Resendable(n.kind) {
        left, told := ScanResent(s, i, k, wait, window, least, input);
      } else {
        var e := ExpireTold(s, i);
        left, told := ScanTreats(ExpireAt(s, i), i, k + 1, wait, window, least, input);
        assert RemoveAt(s.acks, i)[..i] == s.acks[..i] && RemoveAt(s.acks, i)[i..] == rest;
        NodePassed(n, rest, [], left, e, told, wait, window, input, s.config);
        Assoc(s.events, e, told);
        left, told := [] + left, e + told;
      }
    }
  }

  lemma {:induction false} ScanResent(s: State, i: nat, k: nat, wait: bool, window: Timer, least: u32, input: ScanInput)
    returns (left: seq<AckNode>, told: seq<Event>)
    requires i < |s.acks| && NodesOk(s.acks) && Resendable(s.acks[i].kind) && Remain(window, input.clock(k)) != 0
    requires Remain(s.acks[i].timer, input.clock(k)) == 0 || !wait
    ensures var r := ScanFrom(ResendAt(s, i, input.clock(k), input.sends(k)), i + 1, k + 1, wait, window, least, input);
            && r.acks == s.acks[..i] + left && r.events == s.events + told && r.userAcks == s.userAcks
            && Treated(s.acks[i..], left, told, wait, window, input, s.config)
    decreases |s.acks| - i, 0
  {
    var n, rest := s.acks[i], s.acks[i + 1..];
    assert RepeatedAt(n, k, wait, window, input);
    hide Treated, NodesOk, ResendAt, Remain, RepeatedAt, ScanFrom;
    var again := Again(n, input.clock(k), s.config);
    var next := ResendAt(s, i, input.clock(k), input.sends(k));
    var e := ResendTold(s, i, input.clock(k), input.sends(k));
    left, told := ScanTreats(next, i + 1, k + 1, wait, window, least, input);
    assert next.acks[i + 1..] == rest && next.acks[..i + 1] == s.acks[..i] + [again] && s.acks[i..] == [n] + rest;
    NodeRepeated(n, k, rest, left, e, told, wait, window, input, s.config);
    Assoc(s.events, e, told);
    Assoc(s.acks[..i], [again], left);
    left, told := [again] + left, e + told;
  }

  /** After any scan a node is one that was there, unchanged, or one that was due at a reading within the window, and was
      repeated then; and whatever repeat the application heard of was one of these. */
  lemma {:induction false} ScanLeaves(s: State, wait: bool, input: ScanInput) returns (told: seq<Event>)
    requires StateOk(s)
    ensures var r := Scan(s, wait, input);
            && r.events == s.events + told && r.userAcks == s.userAcks
            && Treated(s.acks, r.acks, told, wait, Timer(input.clock(0), ScanWindow(s.config)), input, s.config)
  {
    var window := Timer(input.clock(0), ScanWindow(s.config));
    assert s.acks[0..] == s.acks;
    NothingDone(s.acks, wait, window, input, s.config);
    hide Treated, ScanFrom;
    if s.clientState != Connected || Remain(s.scanThrottle, input.clock(0)) != 0 {
      told := [];
      assert s.events + [] == s.events;
    } else {
      var left;
      left, told := ScanTreats(s, 0, 0, wait, window, 1000, input);
      assert s.acks[..0] + left == left;
    }
  }

  // ---------------------------------------------------------------- how long, and how it ends

  /** A scan repeats nothing once as many milliseconds have passed as a receive may take, less a tenth of a second where
      there is one. */
  lemma {:induction false} WindowIs(m: AckNode, k: nat, wait: bool, config: Config, input: ScanInput)
    ensures var elapsed := (input.clock(k) - input.clock(0)) % 0x1_0000_0000;
            RepeatedAt(m, k, wait, Timer(input.clock(0), ScanWindow(config)), input) <==>
            && m.kind != SUBACK && m.kind != UNSUBACK
            && (!wait || (input.clock(k) - m.timer.start) % 0x1_0000_0000 >= m.timer.timeout)
            && elapsed < if config.recvTimeout > 100 then config.recvTimeout - 100 else config.recvTimeout
  {
  }

  /** How a scan that started ends: within its window, and then it sets the throttle to a second or less and leaves
      nothing pending; or it ran out of the window, and then it is pending and the throttle stays as it was. */
  lemma {:induction false} ScanFromEnds(s: State, i: nat, k: nat, wait: bool, window: Timer, throttle: u32, input: ScanInput)
    returns (m: nat)
    requires throttle > 0
    ensures m >= k
    ensures var r := ScanFrom(s, i, k, wait, window, throttle, input);
            if Remain(window, input.clock(m)) != 0
            then !r.pendingAck && r.scanThrottle.start == input.clock(m) && 0 < r.scanThrottle.timeout <= throttle
            else r.pendingAck && r.scanThrottle == s.scanThrottle
    decreases |s.acks| - i
  {
    hide Remain, ResendAt, ExpireAt;
    var now := input.clock(k);
    if i >= |s.acks| || s.clientState != Connected || Remain(window, now) == 0 {
      m := k;
    } else {
      var remain := Remain(s.acks[i].timer, now);
      var least := if remain != 0 then Min(remain, throttle) else throttle;
      if remain != 0 && wait {
        m := ScanFromEnds(s, i + 1, k + 1, wait, window, least, input);
      } else if Resendable(s.acks[i].kind) {
        SameThrottle(s, i, now, input.sends(k));
        m := ScanFromEnds(ResendAt(s, i, now, input.sends(k)), i + 1, k + 1, wait, window, least, input);
      } else {
        assert ExpireAt(s, i).scanThrottle == s.scanThrottle by { ExpireThrottle(s, i); }
        m := ScanFromEnds(ExpireAt(s, i), i, k + 1, wait, window, least, input);
      }
    }
  }

  lemma {:induction false} SameThrottle(s: State, i: nat, now: u32, outcome: SendOutcome)
    requires i < |s.acks| && Resendable(s.acks[i].kind)
    ensures ResendAt(s, i, now, outcome).scanThrottle == s.scanThrottle
  {
  }

  lemma {:induction false} ExpireThrottle(s: State, i: nat)
    requires i < |s.acks| && !Resendable(s.acks[i].kind)
    ensures ExpireAt(s, i).scanThrottle == s.scanThrottle
  {
  }

  lemma {:induction false} ScanEnds(s: State, wait: bool, input: ScanInput) returns (m: nat)
    requires s.clientState == Connected && Remain(s.scanThrottle, input.clock(0)) == 0
    ensures var r := Scan(s, wait, input);
            var elapsed := (input.clock(m) - input.clock(0)) % 0x1_0000_0000;
            if elapsed < (if s.config.recvTimeout > 100 then s.config.recvTimeout - 100 else s.config.recvTimeout)
            then !r.pendingAck && r.scanThrottle.start == input.clock(m) && 0 < r.scanThrottle.timeout <= 1000
            else r.pendingAck && r.scanThrottle == s.scanThrottle
  {
    m := ScanFromEnds(s, 0, 0, wait, Timer(input.clock(0), ScanWindow(s.config)), 1000, input);
    hide ScanFrom;
  }

  // ---------------------------------------------------------------- losing the connection on the way

  function Losses(events: seq<Event>): nat {
    if events == [] then 0
    else Losses(events[..|events| - 1]) + if events[|events| - 1] == DisconnectedEvent then 1 else 0
  }

  lemma {:induction false} LossesAppend(a: seq<Event>, b: seq<Event>)
    ensures Losses(a + b) == Losses(a) + Losses(b)
  {
    if b == [] {
      assert a + b == a;
    } else {
      assert (a + b)[..|a + b| - 1] == a + b[..|b| - 1];
      LossesAppend(a, b[..|b| - 1]);
    }
  }

  /** A scan loses the connection at most once, and sends nothing more when it has. */
  lemma {:induction false} ScanFromLoses(s: State, i: nat, k: nat, wait: bool, window: Timer, throttle: u32, input: ScanInput)
    requires s.clientState == Connected || s.clientState == Disconnected
    ensures var r := ScanFrom(s, i, k, wait, window, throttle, input);
            && Losses(r.events) == Losses(s.events) + (if s.clientState == Connected && r.clientState != Connected then 1 else 0)
            && (s.clientState == Disconnected ==> r.wire == s.wire && r.clientState == Disconnected)
            && r.clientState in {Connected, Disconnected}
    decreases |s.acks| - i
  {
    hide Remain, ResendAt, ExpireAt, Losses;
    var now := input.clock(k);
    if i < |s.acks| && s.clientState == Connected && Remain(window, now) != 0 {
      var remain := Remain(s.acks[i].timer, now);
      var least := if remain != 0 then Min(remain, throttle) else throttle;
      if remain != 0 && wait {
        ScanFromLoses(s, i + 1, k + 1, wait, window, least, input);
      } else if Resendable(s.acks[i].kind) {
        ResendLosses(s, i, now, input.sends(k));
        ScanFromLoses(ResendAt(s, i, now, input.sends(k)), i + 1, k + 1, wait, window, least, input);
      } else {
        ExpireLosses(s, i);
        ScanFromLoses(ExpireAt(s, i), i, k + 1, wait, window, least, input);
      }
    }
  }

  lemma {:induction false} ResendLosses(s: State, i: nat, now: u32, outcome: SendOutcome)
    requires i < |s.acks| && Resendable(s.acks[i].kind) && s.clientState == Connected
    ensures var r := ResendAt(s, i, now, outcome);
            && Losses(r.events) == Losses(s.events) + (if r.clientState != Connected then 1 else 0)
            && r.clientState == if outcome == SocketError && s.acks[i].packet.Some? then Disconnected else Connected
  {
    var n := s.acks[i];
    ResendEvents(s, i, now, outcome);
    var (lost, warned) := ToldOfRepeat(n, now, outcome, s.config);
    var a := RepeatPublishPacket(MarkedDup(n));
    hide ResendAt, Resent, MarkedDup, Losses;
    LossesAppend(s.events + [a] + lost, warned);
    LossesAppend(s.events + [a], lost);
    LossesAppend(s.events, [a]);
    LossesOne(a);
    NoLosses();
    if lost != [] {
      LossesOne(lost[0]);
    }
    if warned != [] {
      LossesOne(warned[0]);
    }
  }

  lemma {:induction false} NoLosses()
    ensures Losses([]) == 0
  {
  }

  lemma {:induction false} LossesOne(e: Event)
    ensures Losses([e]) == if e == DisconnectedEvent then 1 else 0
  {
    assert [e][..0] == [];
  }

  lemma {:induction false} ExpireLosses(s: State, i: nat)
    requires i < |s.acks| && !Resendable(s.acks[i].kind)
    ensures Losses(ExpireAt(s, i).events) == Losses(s.events) && ExpireAt(s, i).clientState == s.clientState
  {
    var e := if s.acks[i].kind == SUBACK then SubscribedFailed(s.acks[i].msg) else UnSubscribedFailed(s.acks[i].msg);
    assert ExpireAt(s, i).events == s.events + [e];
    hide ExpireAt;
    LossesAppend(s.events, [e]);
    LossesOne(e);
  }

  lemma {:induction false} ScanLoses(s: State, wait: bool, input: ScanInput)
    requires s.clientState == Connected
    ensures var r := Scan(s, wait, input);
            && r.clientState in {Connected, Disconnected}
            && Losses(r.events) == Losses(s.events) + if r.clientState != Connected then 1 else 0
  {
    hide ScanFrom, Losses;
    ScanFromLoses(s, 0, 0, wait, Timer(input.clock(0), ScanWindow(s.config)), 1000, input);
  }
}
