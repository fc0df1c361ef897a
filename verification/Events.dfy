/** What the application was told, counted. */
module Events {
  import opened Session

  // ---------------------------------------------------------------- deliveries

  predicate IsDelivery(e: Event, m: nat) {
    e.Data? && e.packet.Publish? && e.packet.qos == 2 && e.packet.body == m
  }

  /** How often QoS 2 message `m` was handed to the application. */
  function Deliveries(events: seq<Event>, m: nat): nat {
    if events == [] then 0
    else Deliveries(events[..|events| - 1], m) + if IsDelivery(events[|events| - 1], m) then 1 else 0
  }

  lemma {:induction false} DeliveriesQuiet(before: seq<Event>, after: seq<Event>, m: nat)
    requires before <= after && forall i | |before| <= i < |after| :: !IsDelivery(after[i], m)
    ensures Deliveries(after, m) == Deliveries(before, m)
  {
    if |after| > |before| {
      DeliveriesQuiet(before, after[..|after| - 1], m);
    } else {
      assert after == before;
    }
  }

  lemma {:induction false} DeliveriesPush(events: seq<Event>, e: Event, m: nat)
    ensures Deliveries(events + [e], m) == Deliveries(events, m) + if IsDelivery(e, m) then 1 else 0
  {
  }

  // ---------------------------------------------------------------- completions

  predicate IsCompletion(e: Event, b: nat) {
    e.Published? && e.node.msg.userData == b
  }

  /** How often the application was told that publish `b` is complete. */
  function Completions(events: seq<Event>, b: nat): nat {
    if events == [] then 0
    else Completions(events[..|events| - 1], b) + if IsCompletion(events[|events| - 1], b) then 1 else 0
  }

  lemma {:induction false} CompletionsQuiet(before: seq<Event>, after: seq<Event>, b: nat)
    requires before <= after && forall i | |before| <= i < |after| :: !after[i].Published?
    ensures Completions(after, b) == Completions(before, b)
  {
    if |after| > |before| {
      CompletionsQuiet(before, after[..|after| - 1], b);
    } else {
      assert after == before;
    }
  }

  lemma {:induction false} CompletionsPush(events: seq<Event>, e: Event, b: nat)
    ensures Completions(events + [e], b) == Completions(events, b) + if IsCompletion(e, b) then 1 else 0
  {
  }

  // ---------------------------------------------------------------- discards

  predicate IsDiscard(e: Event, b: nat) {
    e.AckHandlerDiscard? && OfPublish(e.node.kind) && e.node.msg.userData == b
  }

  /** How often a node of publish `b` was discarded. */
  function Discards(events: seq<Event>, b: nat): nat {
    if events == [] then 0
    else Discards(events[..|events| - 1], b) + if IsDiscard(events[|events| - 1], b) then 1 else 0
  }

  lemma {:induction false} DiscardsQuiet(before: seq<Event>, after: seq<Event>, b: nat)
    requires before <= after && forall i | |before| <= i < |after| :: !after[i].AckHandlerDiscard?
    ensures Discards(after, b) == Discards(before, b)
  {
    if |after| > |before| {
      DiscardsQuiet(before, after[..|after| - 1], b);
    } else {
      assert after == before;
    }
  }

  lemma {:induction false} DiscardsPush(events: seq<Event>, e: Event, b: nat)
    ensures Discards(events + [e], b) == Discards(events, b) + if IsDiscard(e, b) then 1 else 0
  {
  }
}
