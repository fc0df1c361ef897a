/** Where the code needs more than a compliant broker: what a SUBACK or UNSUBACK does when its id is shared. */
module Limits {
  import opened Bytes
  import opened Common
  import opened Session
  import opened Effects
  import opened Events

  // ---------------------------------------------------------------- SUBACK and UNSUBACK with a shared id

  /** The nodes of other ids, in order. */
  function OtherIds(acks: seq<AckNode>, id: u16): seq<AckNode> {
    if acks == [] then [] else (if acks[0].id == id then [] else [acks[0]]) + OtherIds(acks[1..], id)
  }

  lemma {:induction false} OtherIdsStep(acks: seq<AckNode>, i: nat, id: u16)
    requires i < |acks|
    ensures acks[i].id != id ==>
              acks[..i] + OtherIds(acks[i..], id) == acks[..i + 1] + OtherIds(acks[i + 1..], id)
    ensures acks[i].id == id ==>
              acks[..i] + OtherIds(acks[i..], id) == RemoveAt(acks, i)[..i] + OtherIds(RemoveAt(acks, i)[i..], id)
  {
  }

  /** SUBACK, its codes counted right, destroys every node of its id, whatever that node waits for. */
  lemma {:induction false} SubackDestroys(s: State, i: nat, id: u16, codes: seq<byte>)
    requires i <= |s.acks|
    ensures SubackFrom(s, i, id, codes).acks == s.acks[..i] + OtherIds(s.acks[i..], id)
    ensures SubackFrom(s, i, id, codes).userAcks == s.userAcks && QuietEvents(s, SubackFrom(s, i, id, codes))
    ensures SubackFrom(s, i, id, codes).config == s.config && SubackFrom(s, i, id, codes).wire == s.wire
    decreases |s.acks| - i
  {
    if i == |s.acks| {
      assert s.acks[..i] + [] == s.acks;
    } else {
      OtherIdsStep(s.acks, i, id);
      if s.acks[i].id != id {
        SubackDestroys(s, i + 1, id, codes);
      } else {
        var n := s.acks[i];
        var r := if n.kind == SUBACK then SettleNode(s, n, codes) else Settling(s, codes);
        var next := Destroy(RemoveAck(r.state, i), n);
        assert next.acks == RemoveAt(s.acks, i) && next.userAcks == s.userAcks && QuietEvents(s, next);
        assert next.config == s.config && next.wire == s.wire && SubackFrom(s, i, id, codes) == SubackFrom(next, i, id, r.codes);
        hide SubackFrom, QuietEvents, OtherIds;
        SubackDestroys(next, i, id, r.codes);
        QuietChain(s, next, SubackFrom(next, i, id, r.codes));
      }
    }
  }

  /** UNSUBACK does the same. */
  lemma {:induction false} UnsubackDestroys(s: State, i: nat, id: u16)
    requires i <= |s.acks|
    ensures UnsubackFrom(s, i, id).acks == s.acks[..i] + OtherIds(s.acks[i..], id)
    ensures UnsubackFrom(s, i, id).userAcks == s.userAcks && QuietEvents(s, UnsubackFrom(s, i, id))
    ensures UnsubackFrom(s, i, id).config == s.config && UnsubackFrom(s, i, id).wire == s.wire
    decreases |s.acks| - i
  {
    if i == |s.acks| {
      assert s.acks[..i] + [] == s.acks;
    } else {
      OtherIdsStep(s.acks, i, id);
      if s.acks[i].id != id {
        UnsubackDestroys(s, i + 1, id);
      } else {
        var next := UnsubackNode(s, i);
        assert next.acks == RemoveAt(s.acks, i) && next.userAcks == s.userAcks && QuietEvents(s, next);
        assert next.config == s.config && next.wire == s.wire && UnsubackFrom(s, i, id) == UnsubackFrom(next, i, id);
        hide UnsubackFrom, QuietEvents, OtherIds;
        UnsubackDestroys(next, i, id);
        QuietChain(s, next, UnsubackFrom(next, i, id));
      }
    }
  }

  lemma {:induction false} OtherIdsRel(acks: seq<AckNode>, id: u16, k: u16)
    ensures RelIds(OtherIds(acks, id))[k] == if k == id then 0 else RelIds(acks)[k]
  {
    if acks != [] {
      OtherIdsRel(acks[1..], id, k);
      if acks[0].id != id {
        assert OtherIds(acks, id)[1..] == OtherIds(acks[1..], id);
      } else {
        assert OtherIds(acks, id) == OtherIds(acks[1..], id);
      }
    }
  }

  /** The records of delivered messages survive a SUBACK or UNSUBACK exactly when none of them has its id. */
  lemma {:induction false} RecordsSurvive(s: State, id: u16, codes: seq<byte>)
    requires CountSubs(s.subs, id) == |codes|
    ensures RelIds(OnSuback(s, id, codes).acks) == RelIds(s.acks) <==> id !in RelIds(s.acks)
    ensures RelIds(UnsubackFrom(s, 0, id).acks) == RelIds(s.acks) <==> id !in RelIds(s.acks)
  {
    SubackDestroys(s, 0, id, codes);
    UnsubackDestroys(s, 0, id);
    assert s.acks[0..] == s.acks && s.acks[..0] == [];
    var left := OtherIds(s.acks, id);
    assert [] + left == left;
    forall k: u16 ensures RelIds(left)[k] == if k == id then 0 else RelIds(s.acks)[k] {
      OtherIdsRel(s.acks, id, k);
    }
  }

  lemma {:induction false} OtherIdsOk(acks: seq<AckNode>, id: u16)
    ensures forall n | n in OtherIds(acks, id) :: n in acks && n.id != id
  {
    if acks != [] {
      OtherIdsOk(acks[1..], id);
    }
  }

  lemma {:induction false} OtherIdsStore(s: State, r: State, id: u16)
    requires StateOk(s) && r.acks == OtherIds(s.acks, id) && r.userAcks == s.userAcks
    ensures StateOk(r)
  {
    OtherIdsOk(s.acks, id);
  }

  /** Then the message is delivered again: PUBLISH, a SUBACK with the same id, PUBLISH repeated. */
  lemma {:induction false} SharedIdRedelivers(s: State, p: Packet, codes: seq<byte>, now: u32, memory: nat,
                                             outcome: SendOutcome)
    requires StateOk(s) && !s.config.cleanSession && p.Publish? && Records(s, p, memory)
    requires var first := OnPublish(s, p, now, memory, outcome);
             && CountSubs(first.subs, p.id) == |codes|
             && FindMatch(OnSuback(first, p.id, codes).subs, p.topic) < |OnSuback(first, p.id, codes).subs|
    ensures var first := OnPublish(s, p, now, memory, outcome);
            var again := OnPublish(OnSuback(first, p.id, codes), p.(dup := true), now, memory, outcome);
            Deliveries(again.events, p.body) == Deliveries(s.events, p.body) + 2
  {
    hide StateOk, OutKeys, RelIds;
    var first := OnPublish(s, p, now, memory, outcome);
    OnPublishEffect(s, p, now, memory, outcome);
    hide OnPublish;
    var between := OnSuback(first, p.id, codes);
    SubackDestroys(first, 0, p.id, codes);
    assert between == SubackFrom(first, 0, p.id, codes);
    assert first.acks[0..] == first.acks && [] + OtherIds(first.acks, p.id) == OtherIds(first.acks, p.id);
    OtherIdsOk(first.acks, p.id);
    OtherIdsStore(first, between, p.id);
    OtherIdsRel(first.acks, p.id, p.id);
    assert p.id !in InFlight(between).rel;
    var q := p.(dup := true);
    OnPublishEffect(between, q, now, memory, outcome);
    var again := OnPublish(between, q, now, memory, outcome);
    DeliveriesPush(s.events, Data(p), p.body);
    DeliveriesQuiet(s.events + [Data(p)], first.events, p.body);
    DeliveriesQuiet(first.events, between.events, p.body);
    DeliveriesPush(between.events, Data(q), p.body);
    DeliveriesQuiet(between.events + [Data(q)], again.events, p.body);
  }
}
