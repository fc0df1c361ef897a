/** The intrusive circular list: every operation on the links is the operation on the sequence of nodes that the links
    spell out, and an iteration that saves its successor survives the removal of the node it is at. */
module CircularList {
  import opened Common

  /** RyanMqttList_t; `constructor` is RyanMqttListInit. */
  class Node {
    var next: Node
    var prev: Node

    constructor ()
      ensures next == this && prev == this
    {
      next, prev := this, this;
    }
  }

  /** The `k`-th node on the way round from the head, which is met again after the last. */
  function Nth(list: Node, s: seq<Node>, k: nat): Node
    requires k <= |s| + 1
  {
    if k == 0 || k == |s| + 1 then list else s[k - 1]
  }

  predicate Distinct(s: seq<Node>) {
    forall i, j | 0 <= i < j < |s| :: s[i] != s[j]
  }

  /** The list at head `list` holds exactly `s`: next and prev are mutually inverse all the way round. */
  ghost predicate Ring(list: Node, s: seq<Node>)
    reads list, s
  {
    && list !in s && Distinct(s)
    && forall k | 0 <= k <= |s| ::
         Nth(list, s, k).next == Nth(list, s, k + 1) && Nth(list, s, k + 1).prev == Nth(list, s, k)
  }

  function InsertAt<T>(s: seq<T>, i: nat, x: T): (r: seq<T>)
    requires i <= |s|
  {
    s[..i] + [x] + s[i..]
  }

  /** RyanMqttListInsertBetween: between the `i`-th node on the way round and the one after it. */
  method InsertBetween(node: Node, prev: Node, next: Node, ghost list: Node, ghost s: seq<Node>, ghost i: nat)
    requires Ring(list, s) && node != list && node !in s
    requires i <= |s| && prev == Nth(list, s, i) && next == Nth(list, s, i + 1)
    modifies node, list, s
    ensures Ring(list, InsertAt(s, i, node))
  {
    next.prev := node;
    node.next := next;
    node.prev := prev;
    prev.next := node;
    ghost var t := InsertAt(s, i, node);
    forall k | 0 <= k <= |t|
      ensures Nth(list, t, k).next == Nth(list, t, k + 1) && Nth(list, t, k + 1).prev == Nth(list, t, k)
    {
      if k < i {
        assert Nth(list, t, k) == Nth(list, s, k) && Nth(list, t, k + 1) == Nth(list, s, k + 1);
      } else if k > i + 1 {
        assert Nth(list, t, k) == Nth(list, s, k - 1) && Nth(list, t, k + 1) == Nth(list, s, k);
      }
    }
  }

  /** RyanMqttListRemoveBetween: the `i`-th element of the list leaves; its own links stay as they are. */
  method RemoveBetween(prev: Node, next: Node, ghost list: Node, ghost s: seq<Node>, ghost i: nat)
    requires Ring(list, s) && i < |s| && prev == Nth(list, s, i) && next == Nth(list, s, i + 2)
    modifies list, set n | n in s && n != s[i]
    ensures Ring(list, RemoveAt(s, i))
  {
    prev.next := next;
    next.prev := prev;
    ghost var t := RemoveAt(s, i);
    forall k | 0 <= k <= |t|
      ensures Nth(list, t, k).next == Nth(list, t, k + 1) && Nth(list, t, k + 1).prev == Nth(list, t, k)
    {
      if k < i {
        assert Nth(list, t, k) == Nth(list, s, k) && Nth(list, t, k + 1) == Nth(list, s, k + 1);
      } else if k > i {
        assert Nth(list, t, k) == Nth(list, s, k + 1) && Nth(list, t, k + 1) == Nth(list, s, k + 2);
      }
    }
  }

  /** RyanMqttListAdd */
  method Add(node: Node, list: Node, ghost s: seq<Node>)
    requires Ring(list, s) && node != list && node !in s
    modifies node, list, s
    ensures Ring(list, [node] + s)
  {
    assert Nth(list, s, 0).next == Nth(list, s, 0 + 1);
    InsertBetween(node, list, list.next, list, s, 0);
    assert InsertAt(s, 0, node) == [node] + s;
  }

  /** RyanMqttListAddTail */
  method AddTail(node: Node, list: Node, ghost s: seq<Node>)
    requires Ring(list, s) && node != list && node !in s
    modifies node, list, s
    ensures Ring(list, s + [node])
  {
    assert Nth(list, s, |s| + 1).prev == Nth(list, s, |s|);
    InsertBetween(node, list.prev, list, list, s, |s|);
    assert InsertAt(s, |s|, node) == s + [node];
  }

  /** RyanMqttListDel of the `i`-th element */
  method Del(entry: Node, ghost list: Node, ghost s: seq<Node>, ghost i: nat)
    requires Ring(list, s) && i < |s| && entry == s[i]
    modifies list, set n | n in s && n != s[i]
    ensures Ring(list, RemoveAt(s, i))
  {
    assert Nth(list, s, i + 1) == entry;
    assert Nth(list, s, i).next == Nth(list, s, i + 1) && Nth(list, s, i + 1).next == Nth(list, s, i + 1 + 1);
    RemoveBetween(entry.prev, entry.next, list, s, i);
  }

  /** RyanMqttListDelInit of the `i`-th element */
  method DelInit(entry: Node, ghost list: Node, ghost s: seq<Node>, ghost i: nat)
    requires Ring(list, s) && i < |s| && entry == s[i]
    modifies list, s
    ensures Ring(list, RemoveAt(s, i)) && Ring(entry, [])
  {
    Del(entry, list, s, i);
    entry.next, entry.prev := entry, entry;
    assert entry !in RemoveAt(s, i);
  }

  /** RyanMqttListMove from one list to another, or within one */
  method Move(node: Node, list: Node, ghost t: seq<Node>, ghost from: Node, ghost s: seq<Node>, ghost i: nat)
    requires Ring(from, s) && i < |s| && node == s[i] && Ring(list, t)
    requires (from == list && s == t) || Apart(from, s, list, t)
    modifies from, s, list, t
    ensures if from == list then Ring(list, [node] + RemoveAt(s, i)) else Ring(from, RemoveAt(s, i)) && Ring(list, [node] + t)
  {
    Del(node, from, s, i);
    ghost var left := RemoveAt(s, i);
    ghost var into := if from == list then left else t;
    assert forall k | 0 <= k < |left| :: left[k] in s && left[k] != node;
    label before:
    Add(node, list, into);
    assert from != list ==> forall k | 0 <= k <= |left| + 1 ::
             Nth(from, left, k).next == old@before(Nth(from, left, k).next)
             && Nth(from, left, k).prev == old@before(Nth(from, left, k).prev);
  }

  /** RyanMqttListMoveTail from one list to another, or within one */
  method MoveTail(node: Node, list: Node, ghost t: seq<Node>, ghost from: Node, ghost s: seq<Node>, ghost i: nat)
    requires Ring(from, s) && i < |s| && node == s[i] && Ring(list, t)
    requires (from == list && s == t) || Apart(from, s, list, t)
    modifies from, s, list, t
    ensures if from == list then Ring(list, RemoveAt(s, i) + [node]) else Ring(from, RemoveAt(s, i)) && Ring(list, t + [node])
  {
    Del(node, from, s, i);
    ghost var left := RemoveAt(s, i);
    ghost var into := if from == list then left else t;
    assert forall k | 0 <= k < |left| :: left[k] in s && left[k] != node;
    label before:
    AddTail(node, list, into);
    assert from != list ==> forall k | 0 <= k <= |left| + 1 ::
             Nth(from, left, k).next == old@before(Nth(from, left, k).next)
             && Nth(from, left, k).prev == old@before(Nth(from, left, k).prev);
  }

  /** Two lists without a common node */
  predicate Apart(list: Node, s: seq<Node>, other: Node, t: seq<Node>) {
    list != other && list !in t && other !in s && forall n | n in s :: n !in t
  }

  /** RyanMqttListIsEmpty */
  method IsEmpty(list: Node, ghost s: seq<Node>) returns (empty: bool)
    requires Ring(list, s)
    ensures empty <==> s == []
  {
    assert Nth(list, s, 0).next == Nth(list, s, 0 + 1);
    empty := list.next == list;
  }

  // ---------------------------------------------------------------- iteration

  function Kept(n: Node, drop: set<Node>): seq<Node> {
    if n in drop then [] else [n]
  }

  /** The nodes not in `drop`, in order. */
  function Without(s: seq<Node>, drop: set<Node>): seq<Node> {
    if s == [] then [] else Without(s[..|s| - 1], drop) + Kept(s[|s| - 1], drop)
  }

  lemma {:induction false} WithoutNext(s: seq<Node>, n: Node, drop: set<Node>)
    ensures Without(s + [n], drop) == Without(s, drop) + Kept(n, drop)
  {
    assert (s + [n])[..|s + [n]| - 1] == s;
  }

  predicate Within(a: seq<Node>, s: seq<Node>) {
    forall k | 0 <= k < |a| :: a[k] in s
  }

  /** How far an iteration got: the nodes visited, those of them kept, and those to come. */
  predicate Underway(s: seq<Node>, drop: set<Node>, visited: seq<Node>, kept: seq<Node>, rest: seq<Node>) {
    visited + rest == s && kept == Without(visited, drop) && Within(kept + rest, s)
  }

  lemma {:induction false} WithinNext(kept: seq<Node>, rest: seq<Node>, drop: set<Node>, s: seq<Node>)
    requires rest != [] && Within(kept + rest, s)
    ensures Within(kept + Kept(rest[0], drop) + rest[1..], s)
  {
    var all, next := kept + rest, kept + Kept(rest[0], drop) + rest[1..];
    forall k | 0 <= k < |next| ensures next[k] in s {
      assert next[k] == if rest[0] in drop && k >= |kept| then all[k + 1] else all[k];
    }
  }

  lemma {:induction false} VisitedNext(visited: seq<Node>, rest: seq<Node>)
    requires rest != []
    ensures visited + [rest[0]] + rest[1..] == visited + rest
  {
  }

  lemma {:induction false} UnderwayNext(s: seq<Node>, drop: set<Node>, visited: seq<Node>, kept: seq<Node>, rest: seq<Node>)
    requires rest != [] && Underway(s, drop, visited, kept, rest)
    ensures Underway(s, drop, visited + [rest[0]], kept + Kept(rest[0], drop), rest[1..])
  {
    WithoutNext(visited, rest[0], drop);
    WithinNext(kept, rest, drop, s);
    VisitedNext(visited, rest);
    hide Within, Without;
  }

  lemma {:induction false} UnderwayWithin(s: seq<Node>, drop: set<Node>, visited: seq<Node>, kept: seq<Node>, rest: seq<Node>)
    requires Underway(s, drop, visited, kept, rest)
    ensures Within(kept + rest, s)
  {
  }

  lemma {:induction false} UnderwayEnds(s: seq<Node>, drop: set<Node>, visited: seq<Node>, kept: seq<Node>)
    requires Underway(s, drop, visited, kept, [])
    ensures visited == s && kept + [] == Without(s, drop)
  {
    assert visited + [] == visited;
  }

  /** The loop's body at the node after `before`: it goes or stays. */
  method Visit(curr: Node, list: Node, drop: set<Node>, ghost before: seq<Node>, ghost rest: seq<Node>, ghost s: seq<Node>)
    requires rest != [] && curr == rest[0] && Ring(list, before + rest)
    requires Within(before + rest, s)
    modifies list, s
    ensures Ring(list, before + Kept(curr, drop) + rest[1..])
  {
    ghost var all := before + rest;
    assert all[|before|] == curr;
    if curr in drop {
      DelInit(curr, list, all, |before|);
      assert RemoveAt(all, |before|) == before + [] + rest[1..];
    } else {
      assert before + [curr] + rest[1..] == all;
    }
  }

  /** The node that follows `before` on the way round, and the one after it. */
  lemma {:induction false} AtFront(list: Node, before: seq<Node>, rest: seq<Node>)
    requires Ring(list, before + rest) && rest != []
    ensures rest[0].next == if |rest| > 1 then rest[1] else list
    ensures rest[0] != list
  {
    var s := before + rest;
    assert Nth(list, s, |before| + 1).next == Nth(list, s, |before| + 1 + 1);
  }

  /** RyanMqttListForEachSafe with a body that takes some nodes out and reinitialises them, so that their own links lead
      nowhere any more: every node the list had is visited once, in order, and the others stay, in order. */
  method ForEachSafe(list: Node, drop: set<Node>, ghost s: seq<Node>) returns (visited: seq<Node>)
    requires Ring(list, s)
    modifies list, s
    ensures visited == s
    ensures Ring(list, Without(s, drop))
  {
    visited := [];
    ghost var kept: seq<Node>, rest := [], s;
    assert kept + rest == s;
    var curr := list.next;
    assert Nth(list, s, 0).next == Nth(list, s, 0 + 1);
    var next := curr.next;
    if s != [] {
      AtFront(list, kept, rest);
    }
    assert Underway(s, drop, visited, kept, rest);
    hide Ring, Nth, Underway, Kept, Distinct;
    while curr != list
      invariant Underway(s, drop, visited, kept, rest)
      invariant Ring(list, kept + rest)
      invariant curr == list <==> rest == []
      invariant rest != [] ==> curr == rest[0] && next == if |rest| > 1 then rest[1] else list
      decreases rest
    {
      UnderwayWithin(s, drop, visited, kept, rest);
      Visit(curr, list, drop, kept, rest, s);
      UnderwayNext(s, drop, visited, kept, rest);
      visited := visited + [curr];
      kept := kept + Kept(curr, drop);
      rest := rest[1..];
      curr := next;
      next := curr.next;
      if rest != [] {
        AtFront(list, kept, rest);
      }
    }
    UnderwayEnds(s, drop, visited, kept);
  }

  /** RyanMqttSyncUserAckHandle on the links: all nodes of one list go, in order, to the tail of another. */
  method Drain(from: Node, list: Node, ghost s: seq<Node>, ghost t: seq<Node>)
    requires Ring(from, s) && Ring(list, t) && Apart(from, s, list, t)
    modifies from, s, list, t
    ensures Ring(from, []) && Ring(list, t + s)
  {
    ghost var moved: seq<Node>, rest := [], s;
    var curr := from.next;
    var next := curr.next;
    assert Nth(from, s, 0).next == Nth(from, s, 0 + 1);
    assert t + moved == t && moved + rest == s && [] + rest == rest;
    if s != [] {
      AtFront(from, [], rest);
    }
    while curr != from
      invariant moved + rest == s && Apart(from, rest, list, t + moved)
      invariant Ring(from, rest) && Ring(list, t + moved)
      invariant curr == from <==> rest == []
      invariant rest != [] ==> curr == rest[0] && next == if |rest| > 1 then rest[1] else from
      invariant Within(rest, s) && Within(t + moved, t + s)
      decreases rest
    {
      MoveFirst(curr, list, t, moved, from, s, rest);
      DrainNext(from, list, s, t, moved, rest);
      moved := moved + [curr];
      rest := rest[1..];
      curr := next;
      next := curr.next;
    }
    assert moved + [] == moved;
  }

  /** The first node of what is left goes over. */
  method MoveFirst(curr: Node, list: Node, ghost t: seq<Node>, ghost moved: seq<Node>, ghost from: Node,
                   ghost s: seq<Node>, ghost rest: seq<Node>)
    requires rest != [] && curr == rest[0] && Ring(from, rest) && Ring(list, t + moved)
    requires Apart(from, rest, list, t + moved) && Within(rest, s) && Within(t + moved, t + s)
    modifies from, s, list, t
    ensures Ring(from, rest[1..]) && Ring(list, t + (moved + [curr]))
    ensures |rest| > 1 ==> rest[1] != from && rest[1].next == if |rest| > 2 then rest[2] else from
  {
    MoveTail(curr, list, t + moved, from, rest, 0);
    assert RemoveAt(rest, 0) == rest[1..];
    if |rest| > 1 {
      assert [] + rest[1..] == rest[1..];
      AtFront(from, [], rest[1..]);
    }
    assert t + moved + [curr] == t + (moved + [curr]);
  }

  lemma {:induction false} DrainNext(from: Node, list: Node, s: seq<Node>, t: seq<Node>, moved: seq<Node>, rest: seq<Node>)
    requires rest != [] && moved + rest == s && Apart(from, rest, list, t + moved) && Distinct(rest) && from !in rest
    requires Within(rest, s) && Within(t + moved, t + s) && list !in rest
    ensures moved + [rest[0]] + rest[1..] == s && Apart(from, rest[1..], list, t + (moved + [rest[0]]))
    ensures Within(rest[1..], s) && Within(t + (moved + [rest[0]]), t + s)
  {
    var over := t + (moved + [rest[0]]);
    assert forall j | 0 <= j < |rest[1..]| :: rest[1..][j] == rest[j + 1] && rest[j + 1] in rest;
    forall k | 0 <= k < |over| ensures over[k] in t + s && over[k] != from && over[k] !in rest[1..] {
      if k < |t + moved| {
        assert over[k] == (t + moved)[k] && over[k] in t + moved;
      } else {
        assert over[k] == rest[0] && rest[0] in s;
      }
    }
  }
}
