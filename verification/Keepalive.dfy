/** RyanMqttKeepalive: PINGREQ in time, not too early, and across the wrap of the 32-bit clock. */
module Keepalive {
  import opened Bytes
  import opened Timers

  /** The times of the configuration: keepaliveTimeoutS, recvTimeout and sendTimeout. */
  datatype Timing = Timing(keepaliveS: u16, recvTimeout: u16, sendTimeout: u16)

  /** The keep alive interval in milliseconds. */
  function Interval(c: Timing): nat {
    c.keepaliveS * 1000
  }

  /** What RyanMqttSetConfig checks. */
  predicate Accepted(c: Timing) {
    c.recvTimeout <= Interval(c) / 2 && c.sendTimeout <= c.recvTimeout
  }

  /** The timer of RyanMqttRefreshKeepaliveTime: one and a half intervals. */
  function Patience(c: Timing): u32 {
    c.keepaliveS * 1500
  }

  /** The longest pause between two checks of the main loop considered: a receive that times out, and some work. */
  function Pause(c: Timing): u32 {
    c.recvTimeout + 100
  }

  datatype Outcome = Sent | TimedOut | Failed

  /** `fed` and `pings` record when the timer was last started and how often PINGREQ was sent. */
  datatype Keep = Keep(connected: bool, timer: Timer, throttle: Timer, fed: nat, pings: nat)

  /** A send or a PINGRESP at `time` restarts the timer. */
  function Feed(k: Keep, c: Timing, time: nat): Keep {
    k.(timer := Started(time, Patience(c)), fed := time)
  }

  /** The 0.6 of the source, the timer's one and a half less 0.9, as a rational. */
  predicate Early(c: Timing, remain: u32) {
    10 * remain > 6 * Interval(c)
  }

  /** RyanMqttKeepalive at `time`; a PINGREQ that goes out has done so at `after`. */
  function Check(k: Keep, c: Timing, time: nat, after: nat, outcome: Outcome): Keep {
    var remain := Remain(k.timer, Clock(time));
    if !k.connected then k
    else if remain > Pause(c) && (Early(c, remain) || Remain(k.throttle, Clock(time)) != 0) then k
    else if remain == 0 then k.(connected := false)
    else
      match outcome
      case Sent => Feed(k, c, after).(throttle := Started(after, c.recvTimeout + 1500), pings := k.pings + 1)
      case TimedOut => k
      case Failed => k.(connected := false)
  }

  class Keeper {
    var keep: Keep
    const timing: Timing

    constructor (timing: Timing, time: nat)
      ensures keep == Keep(true, Started(time, Patience(timing)), Timer(0, 0), time, 0) && this.timing == timing
    {
      this.timing := timing;
      keep := Keep(true, Started(time, Patience(timing)), Timer(0, 0), time, 0);
    }

    /** RyanMqttRefreshKeepaliveTime */
    method Refresh(time: nat)
      modifies this`keep
      ensures keep == Feed(old(keep), timing, time)
    {
      keep := keep.(timer := Started(time, timing.keepaliveS * 1500), fed := time);
    }

    /** RyanMqttKeepalive, its branches in the order of the source */
    method KeepaliveCheck(time: nat, after: nat, outcome: Outcome)
      modifies this`keep
      ensures keep == Check(old(keep), timing, time, after, outcome)
    {
      if !keep.connected {
        return;
      }
      var timeRemain := Remain(keep.timer, Clock(time));
      if timeRemain > timing.recvTimeout + 100 {
        if 10 * timeRemain > timing.keepaliveS * 1000 * 6 {
          return;
        }
        if Remain(keep.throttle, Clock(time)) != 0 {
          return;
        }
      }
      if timeRemain == 0 {
        keep := keep.(connected := false);
        return;
      }
      match outcome {
        case Sent =>
          Refresh(after);
          keep := keep.(throttle := Started(after, timing.recvTimeout + 1500), pings := keep.pings + 1);
        case TimedOut =>
        case Failed =>
          keep := keep.(connected := false);
      }
    }
  }

  // ---------------------------------------------------------------- one check, in numbers

  /** The timer was started when `fed` says. */
  predicate Kept(k: Keep, c: Timing) {
    k.timer == Started(k.fed, Patience(c))
  }

  /** A PINGREQ is due at `time`: 0.9 of the interval was silent and none was sent lately, or less than a pause is left;
      and one and a half intervals are not over. All in milliseconds. */
  predicate PingDue(k: Keep, c: Timing, time: nat) {
    var silent := time - k.fed;
    && silent < 1500 * c.keepaliveS
    && (|| 1500 * c.keepaliveS - silent <= c.recvTimeout + 100
        || (silent >= 900 * c.keepaliveS && Remain(k.throttle, Clock(time)) == 0))
  }

  /** Any check of a connected client, less than a turn of the clock after the timer was fed, however its send ends: the
      connection ends exactly when one and a half intervals are over, or a PINGREQ was due and failed. */
  lemma {:induction false} CheckEnds(k: Keep, c: Timing, time: nat, after: nat, outcome: Outcome)
    requires k.connected && Kept(k, c) && k.fed <= time < k.fed + 0x1_0000_0000
    ensures !Check(k, c, time, after, outcome).connected <==>
              time >= k.fed + 1500 * c.keepaliveS || (PingDue(k, c, time) && outcome == Failed)
  {
    RemainAcrossWrap(k.fed, Patience(c), time);
  }

  /** A PINGREQ goes out exactly when it is due and its send succeeds. It feeds the timer and starts the throttle when it
      is out; otherwise neither timer changes. */
  lemma {:induction false} CheckFeeds(k: Keep, c: Timing, time: nat, after: nat, outcome: Outcome)
    requires k.connected && Kept(k, c) && k.fed <= time < k.fed + 0x1_0000_0000
    ensures var next := Check(k, c, time, after, outcome);
            if PingDue(k, c, time) && outcome == Sent
            then && next.connected && next.pings == k.pings + 1 && next.fed == after && Kept(next, c)
                 && forall later: nat | after <= later < after + 0x1_0000_0000 ::
                      Remain(next.throttle, Clock(later)) == 0 <==> later - after >= c.recvTimeout + 1500
            else next == k.(connected := next.connected)
  {
    RemainAcrossWrap(k.fed, Patience(c), time);
    if PingDue(k, c, time) && outcome == Sent {
      var next := Check(k, c, time, after, outcome);
      forall later: nat | after <= later < after + 0x1_0000_0000
        ensures Remain(next.throttle, Clock(later)) == 0 <==> later - after >= c.recvTimeout + 1500
      {
        RemainAcrossWrap(after, c.recvTimeout + 1500, later);
      }
    }
  }

  // ---------------------------------------------------------------- runs

  /** What feeds or checks the timer: another send or a PINGRESP at `time`, or a check at `time` whose PINGREQ, if it
      sends one, ends as `outcome` says and is out at `after`. */
  datatype Beat = Other(time: nat) | Look(time: nat, after: nat, outcome: Outcome)

  /** Beats in order of time, checks at most a pause apart, sends successful. */
  predicate Paced(c: Timing, beats: seq<Beat>, now: nat, looked: nat) {
    if beats == [] then true
    else
      match beats[0]
      case Other(time) => now <= time && Paced(c, beats[1..], time, looked)
      case Look(time, after, outcome) =>
        now <= time <= after && time <= looked + Pause(c) && outcome == Sent && Paced(c, beats[1..], after, time)
  }

  function Step(k: Keep, c: Timing, b: Beat): Keep {
    match b
    case Other(time) => Feed(k, c, time)
    case Look(time, after, outcome) => Check(k, c, time, after, outcome)
  }

  function Life(k: Keep, c: Timing, beats: seq<Beat>): Keep
    decreases beats
  {
    if beats == [] then k else Life(Step(k, c, beats[0]), c, beats[1..])
  }

  /** The connection just made at `start`. */
  function Fresh(c: Timing, start: nat): Keep {
    Keep(true, Started(start, Patience(c)), Timer(0, 0), start, 0)
  }

  lemma {:induction false} LifeKept(k: Keep, c: Timing, beats: seq<Beat>)
    requires Kept(k, c)
    ensures Kept(Life(k, c, beats), c)
    decreases beats
  {
    if beats != [] {
      LifeKept(Step(k, c, beats[0]), c, beats[1..]);
    }
  }

  lemma {:induction false} LifeOn(k: Keep, c: Timing, beats: seq<Beat>, b: Beat)
    ensures Life(k, c, beats + [b]) == Step(Life(k, c, beats), c, b)
    decreases beats
  {
    if beats == [] {
      assert [b][1..] == [];
    } else {
      assert (beats + [b])[1..] == beats[1..] + [b];
      LifeOn(Step(k, c, beats[0]), c, beats[1..], b);
    }
  }

  /** Whatever went before, sends that timed out or failed included: the first check of a client still connected that
      comes one and a half intervals or more after the timer was last fed ends the connection; an earlier one does only
      if a PINGREQ is due and fails. */
  lemma {:induction false} RunsOutInTime(c: Timing, start: nat, beats: seq<Beat>, time: nat, after: nat, outcome: Outcome)
    requires var k := Life(Fresh(c, start), c, beats); k.connected && k.fed <= time < k.fed + 0x1_0000_0000
    ensures var k := Life(Fresh(c, start), c, beats);
            var next := Life(Fresh(c, start), c, beats + [Look(time, after, outcome)]);
            && (time >= k.fed + 1500 * c.keepaliveS ==> !next.connected)
            && (time < k.fed + 1500 * c.keepaliveS ==> (!next.connected <==> PingDue(k, c, time) && outcome == Failed))
            && (outcome == TimedOut ==> next.fed == k.fed && next.timer == k.timer && next.throttle == k.throttle)
  {
    var k := Life(Fresh(c, start), c, beats);
    LifeKept(Fresh(c, start), c, beats);
    LifeOn(Fresh(c, start), c, beats, Look(time, after, outcome));
    CheckEnds(k, c, time, after, outcome);
    CheckFeeds(k, c, time, after, outcome);
  }

  /** What feeds the timer in a run: another send, a PINGRESP, a PINGREQ that went out; nothing else. */
  lemma {:induction false} FedBy(c: Timing, start: nat, beats: seq<Beat>, b: Beat)
    requires var k := Life(Fresh(c, start), c, beats);
             b.Look? && k.connected ==> k.fed <= b.time < k.fed + 0x1_0000_0000
    ensures var k, next := Life(Fresh(c, start), c, beats), Life(Fresh(c, start), c, beats + [b]);
            next.fed == if b.Other? then b.time
                        else if k.connected && PingDue(k, c, b.time) && b.outcome == Sent then b.after
                        else k.fed
  {
    var k := Life(Fresh(c, start), c, beats);
    LifeKept(Fresh(c, start), c, beats);
    LifeOn(Fresh(c, start), c, beats, b);
    if b.Look? && k.connected {
      CheckFeeds(k, c, b.time, b.after, b.outcome);
    }
  }

  /** The timer was started when `fed` says; the next check comes before it runs out. */
  predicate InTime(k: Keep, c: Timing, now: nat, looked: nat) {
    && k.connected && k.timer == Started(k.fed, Patience(c)) && k.fed <= now
    && looked + Pause(c) < k.fed + Patience(c)
  }

  /** What is left of the timer, without the clock's wrap. */
  lemma {:induction false} Left(k: Keep, c: Timing, now: nat, looked: nat, time: nat)
    requires InTime(k, c, now, looked) && now <= time <= looked + Pause(c)
    ensures Remain(k.timer, Clock(time)) == k.fed + Patience(c) - time > 0
  {
  }

  /** A check in time keeps the connection, and sends PINGREQ exactly when 0.9 of the interval was silent and none was
      sent lately, or when the timer would run out before the next check could come. */
  lemma {:induction false} LookInTime(k: Keep, c: Timing, now: nat, looked: nat, time: nat, after: nat)
    requires c.keepaliveS > 0 && Accepted(c) && InTime(k, c, now, looked)
    requires now <= time <= after && time <= looked + Pause(c)
    ensures InTime(Check(k, c, time, after, Sent), c, after, time)
    ensures Check(k, c, time, after, Sent).pings > k.pings <==>
              || (10 * (time - k.fed) >= 9 * Interval(c) && Remain(k.throttle, Clock(time)) == 0)
              || k.fed + Patience(c) - time <= Pause(c)
    ensures Check(k, c, time, after, Sent).pings > k.pings ==> 10 * (time - k.fed) >= 9 * Interval(c)
  {
    Left(k, c, now, looked, time);
  }

  lemma {:induction false} LifeInTime(k: Keep, c: Timing, beats: seq<Beat>, now: nat, looked: nat)
    requires c.keepaliveS > 0 && Accepted(c) && InTime(k, c, now, looked) && Paced(c, beats, now, looked)
    ensures Life(k, c, beats).connected
    decreases beats
  {
    if beats != [] {
      match beats[0]
      case Other(time) => LifeInTime(Feed(k, c, time), c, beats[1..], time, looked);
      case Look(time, after, _) =>
        LookInTime(k, c, now, looked, time, after);
        LifeInTime(Check(k, c, time, after, Sent), c, beats[1..], after, time);
    }
  }

  /** With a keep alive interval of a second or more and a configuration RyanMqttSetConfig accepts: as long as the main
      loop checks often enough and its sends succeed, the timer never runs out, however long the connection lives. */
  lemma {:induction false} NeverRunsOut(c: Timing, start: nat, beats: seq<Beat>)
    requires c.keepaliveS > 0 && Accepted(c) && Paced(c, beats, start, start)
    ensures Life(Fresh(c, start), c, beats).connected
  {
    LifeInTime(Fresh(c, start), c, beats, start, start);
  }

  /** No step of the run sends a PINGREQ before 0.9 of the interval has passed in silence. */
  predicate NeverEarly(k: Keep, c: Timing, beats: seq<Beat>)
    decreases beats
  {
    if beats == [] then true
    else
      var next := Step(k, c, beats[0]);
      && (next.pings > k.pings ==> beats[0].Look? && 10 * (beats[0].time - k.fed) >= 9 * Interval(c))
      && NeverEarly(next, c, beats[1..])
  }

  lemma {:induction false} InTimeNeverEarly(k: Keep, c: Timing, beats: seq<Beat>, now: nat, looked: nat)
    requires c.keepaliveS > 0 && Accepted(c) && InTime(k, c, now, looked) && Paced(c, beats, now, looked)
    ensures NeverEarly(k, c, beats)
    decreases beats
  {
    if beats != [] {
      match beats[0]
      case Other(time) => InTimeNeverEarly(Feed(k, c, time), c, beats[1..], time, looked);
      case Look(time, after, _) =>
        LookInTime(k, c, now, looked, time, after);
        InTimeNeverEarly(Check(k, c, time, after, Sent), c, beats[1..], after, time);
    }
  }

  /** In any such run no PINGREQ goes out before 0.9 of the interval without a send or a PINGRESP. */
  lemma {:induction false} PingsInSilence(c: Timing, start: nat, beats: seq<Beat>)
    requires c.keepaliveS > 0 && Accepted(c) && Paced(c, beats, start, start)
    ensures NeverEarly(Fresh(c, start), c, beats)
  {
    InTimeNeverEarly(Fresh(c, start), c, beats, start, start);
  }
}
