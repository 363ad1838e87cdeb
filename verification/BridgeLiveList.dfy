/**
 The live instances of the C ABI runtime in memory: a singly linked list that is pushed
 at its head and searched through when an instance leaves it.  An instance that has
 left keeps its old link.
 */
module BridgeLiveList {

  class Instance {
    var next: Instance?
    constructor()
      ensures next == null
    {
      next := null;
    }
  }

  // The instances from `head` on: no two are the same, so that the list has an end.
  ghost predicate Chain(head: Instance?, xs: seq<Instance>)
    reads xs
  {
    && (if xs == [] then head == null else head == xs[0] && xs[|xs| - 1].next == null)
    && (forall i | 0 <= i < |xs| - 1 :: xs[i].next == xs[i + 1])
    && (forall i, j | 0 <= i < j < |xs| :: xs[i] != xs[j])
  }

  // The instance at position i, or the end of the list.
  ghost function At(xs: seq<Instance>, i: nat): Instance? {
    if i < |xs| then xs[i] else null
  }

  lemma ChainAt(head: Instance?, xs: seq<Instance>)
    requires Chain(head, xs)
    ensures head == At(xs, 0) && forall i | 0 <= i < |xs| :: xs[i].next == At(xs, i + 1)
  {
  }

  lemma PushedChain(head: Instance?, xs: seq<Instance>, s: Instance)
    requires Chain(head, xs) && s !in xs && s.next == head
    ensures Chain(s, [s] + xs)
  {
  }

  lemma TailChain(head: Instance?, xs: seq<Instance>)
    requires Chain(head, xs) && xs != []
    ensures Chain(xs[0].next, xs[1..])
  {
  }

  // The links of a list without its i-th instance, when the one before it has been
  // pointed to the one behind it.
  lemma CutChain(head: Instance?, xs: seq<Instance>, i: nat)
    requires 0 < i < |xs| && head == xs[0] && xs[i - 1].next == At(xs, i + 1)
    requires forall k | 0 <= k < |xs| && k != i - 1 :: xs[k].next == At(xs, k + 1)
    requires forall j, k | 0 <= j < k < |xs| :: xs[j] != xs[k]
    ensures Chain(head, xs[..i] + xs[i + 1..])
  {
    var ys := xs[..i] + xs[i + 1..];
    forall k | 0 <= k < |ys| ensures ys[k].next == At(ys, k + 1) && ys[k] == xs[if k < i then k else k + 1] {}
  }

  class LiveList {
    var head: Instance?
    ghost var nodes: seq<Instance>

    ghost predicate Valid()
      reads this, nodes
    {
      Chain(head, nodes)
    }

    constructor()
      ensures Valid() && nodes == []
    {
      head, nodes := null, [];
    }

    // The end of a successful create call.
    method Push(s: Instance)
      requires Valid() && s !in nodes
      modifies this, s
      ensures Valid() && nodes == [s] + old(nodes)
    {
      hide Chain;
      s.next := head;
      head := s;
      PushedChain(s.next, nodes, s);
      nodes := [s] + nodes;
    }

    // unlink_instance: `prev` is the owner of the link that the search has come to,
    // null for the list's head.
    method Unlink(s: Instance) returns (ghost i: nat)
      requires Valid()
      modifies this, nodes
      ensures Valid() && i <= |old(nodes)| && (forall j | 0 <= j < i :: old(nodes)[j] != s)
      ensures if i < |old(nodes)| then old(nodes)[i] == s && nodes == old(nodes)[..i] + old(nodes)[i + 1..]
              else nodes == old(nodes)
    {
      ChainAt(head, nodes);
      var prev, cur := null, head;
      i := 0;
      while cur != null && cur != s
        invariant i <= |nodes| && cur == At(nodes, i) && prev == (if i == 0 then null else nodes[i - 1])
        invariant forall j | 0 <= j < i :: nodes[j] != s
        decreases |nodes| - i
      {
        prev, cur, i := cur, cur.next, i + 1;
      }
      if cur != null {
        CutAt(prev, s, i);
      }
    }

    // *p = s->next
    method CutAt(prev: Instance?, s: Instance, ghost i: nat)
      requires Valid() && i < |nodes| && nodes[i] == s && prev == if i == 0 then null else nodes[i - 1]
      modifies this, nodes
      ensures Valid() && nodes == old(nodes)[..i] + old(nodes)[i + 1..]
    {
      ChainAt(head, nodes);
      if prev == null {
        TailChain(head, nodes);
        head := s.next;
        nodes := nodes[1..];
      } else {
        assert forall j, k | 0 <= j < k < |nodes| :: nodes[j] != nodes[k];
        prev.next := s.next;
        CutChain(head, nodes, i);
        nodes := nodes[..i] + nodes[i + 1..];
      }
    }

    // live_instances = s->next
    method Shift() returns (s: Instance)
      requires Valid() && head != null
      modifies this
      ensures Valid() && nodes == old(nodes)[1..] && s == old(head) && old(nodes) != [] && s == old(nodes)[0]
    {
      TailChain(head, nodes);
      s := head;
      head := s.next;
      nodes := nodes[1..];
    }

    // The end of owner_main: every instance leaves, the first one first.
    method Drain() returns (left: seq<Instance>)
      requires Valid()
      modifies this
      ensures Valid() && nodes == [] && left == old(nodes)
    {
      hide Chain;
      left := [];
      while head != null
        invariant Valid() && left + nodes == old(nodes)
        decreases |nodes|
      {
        ghost var rest := nodes;
        var s := Shift();
        assert rest == [s] + nodes;
        left := left + [s];
      }
      ChainAt(head, nodes);
    }
  }
}
