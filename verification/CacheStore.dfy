/**
 The session cache in memory: a linked chain of entries that is searched by loops, and
 whose entries are overwritten, appended and unlinked in place.  Each method is proved
 against the function of the chain's contents that it computes.
 */
module CacheStore {
  import opened Basics
  import opened Cache

  class Node<S> {
    var stamp: int
    var id: Id
    var session: Option<S>
    var next: Node?<S>

    // calloc
    constructor()
      ensures stamp == 0 && id == [] && session == None && next == null
    {
      stamp, id, session, next := 0, [], None, null;
    }

    function Value(): Entry<S>
      reads this
    {
      Entry(stamp, id, session)
    }
  }

  ghost function Values<S>(nodes: seq<Node<S>>): (es: seq<Entry<S>>)
    reads nodes
    ensures |es| == |nodes| && forall i | 0 <= i < |nodes| :: es[i] == nodes[i].Value()
  {
    if nodes == [] then [] else Values(nodes[..|nodes| - 1]) + [nodes[|nodes| - 1].Value()]
  }

  ghost predicate Linked<S>(head: Node?<S>, nodes: seq<Node<S>>)
    reads nodes
  {
    && (if nodes == [] then head == null else head == nodes[0] && nodes[|nodes| - 1].next == null)
    && (forall i | 0 <= i < |nodes| - 1 :: nodes[i].next == nodes[i + 1])
    && (forall i, j | 0 <= i < j < |nodes| :: nodes[i] != nodes[j])
  }

  // A chain whose last node points to another one, and that one behind it.
  lemma LinkedSnoc<S>(head: Node?<S>, nodes: seq<Node<S>>, node: Node<S>)
    requires node !in nodes && node.next == null && (nodes != [] ==> head == nodes[0] && nodes[|nodes| - 1].next == node)
    requires forall i | 0 <= i < |nodes| - 1 :: nodes[i].next == nodes[i + 1]
    requires forall i, j | 0 <= i < j < |nodes| :: nodes[i] != nodes[j]
    ensures Linked(if nodes == [] then node else head, nodes + [node])
  {
  }

  lemma ValuesSnoc<S>(nodes: seq<Node<S>>, node: Node<S>, es: seq<Entry<S>>)
    requires |es| == |nodes| && forall i | 0 <= i < |nodes| :: nodes[i].Value() == es[i]
    ensures Values(nodes + [node]) == es + [node.Value()]
  {
    hide Values;
    var all := nodes + [node];
    forall i | 0 <= i < |all| ensures Values(all)[i] == (es + [node.Value()])[i] {
      assert Values(all)[i] == all[i].Value();
    }
  }

  // The node at position i, or the end of the chain.
  ghost function At<S>(nodes: seq<Node<S>>, i: nat): Node?<S> {
    if i < |nodes| then nodes[i] else null
  }

  ghost function Without<T>(xs: seq<T>, i: nat): (ys: seq<T>)
    requires i < |xs|
    ensures |ys| == |xs| - 1 && forall k | 0 <= k < |ys| :: ys[k] == xs[if k < i then k else k + 1]
  {
    xs[..i] + xs[i + 1..]
  }

  lemma LinksAt<S>(head: Node?<S>, nodes: seq<Node<S>>)
    requires Linked(head, nodes)
    ensures head == At(nodes, 0) && forall k | 0 <= k < |nodes| :: nodes[k].next == At(nodes, k + 1)
  {
  }

  // The first node is taken out.
  lemma LinkedTail<S>(head: Node?<S>, nodes: seq<Node<S>>)
    requires Linked(head, nodes) && nodes != []
    ensures Linked(nodes[0].next, Without(nodes, 0))
  {
  }

  // Another one is, when the one before it has been pointed to the one behind it.
  lemma LinkedWithout<S>(head: Node?<S>, nodes: seq<Node<S>>, i: nat)
    requires 0 < i < |nodes| && head == nodes[0] && nodes[i - 1].next == At(nodes, i + 1)
    requires forall k | 0 <= k < |nodes| && k != i - 1 :: nodes[k].next == At(nodes, k + 1)
    requires forall j, k | 0 <= j < k < |nodes| :: nodes[j] != nodes[k]
    ensures Linked(head, Without(nodes, i))
  {
    hide Without;
    var left := Without(nodes, i);
    forall k | 0 <= k < |left| ensures left[k].next == At(left, k + 1) {
      assert left[k] == nodes[if k < i then k else k + 1];
    }
  }

  lemma VictimSnoc<S>(es: seq<Entry<S>>, i: nat)
    requires i < |es|
    ensures Victim(es[..i + 1]) == if i == 0 then 0
                                   else if es[Victim(es[..i])].stamp == 0 || es[i].stamp < es[Victim(es[..i])].stamp then i
                                   else Victim(es[..i])
  {
    assert es[..i + 1][..i] == es[..i];
  }

  class Store<S> {
    var chain: Node?<S>
    var timeout: nat
    var max: nat
    ghost var nodes: seq<Node<S>>

    ghost predicate Valid()
      reads this, nodes
    {
      Linked(chain, nodes)
    }

    ghost function Contents(): (es: seq<Entry<S>>)
      reads this, nodes
    {
      Values(nodes)
    }

    constructor(timeout: nat, max: nat)
      ensures Valid() && Contents() == [] && this.timeout == timeout && this.max == max
    {
      chain, this.timeout, this.max, nodes := null, timeout, max, [];
    }

    // ssl_cache_find_entry
    method FindEntry(now: int, id: Id) returns (cur: Node?<S>, ghost i: nat)
      requires Valid()
      ensures i == Lookup(Contents(), timeout, now, id) && cur == At(nodes, i)
    {
      ghost var es := Contents();
      cur, i := chain, 0;
      assert es[0..] == es;
      while cur != null
        invariant i <= |nodes| && cur == At(nodes, i) && Lookup(es, timeout, now, id) == i + Lookup(es[i..], timeout, now, id)
        decreases |nodes| - i
      {
        assert es[i..][0] == cur.Value();
        if !Expired(timeout, now, cur.stamp) && |id| == |cur.id| && id == cur.id {
          return;
        }
        assert es[i..][1..] == es[i + 1..];
        cur, i := cur.next, i + 1;
      }
    }

    method Get(now: int, id: Id) returns (r: Got<S>)
      requires Valid()
      ensures r == GetFrom(Contents(), timeout, now, id)
    {
      ghost var i;
      var cur;
      cur, i := FindEntry(now, id);
      if cur == null {
        return NotFound;
      }
      r := if cur.session.Some? then Found(cur.session.value) else LoadFailed;
    }

    // Check 1: the entry with that id; otherwise the last entry and their number.
    method FindId(id: Id) returns (cur: Node?<S>, last: Node?<S>, count: nat, ghost i: nat)
      requires Valid()
      ensures i == FirstMatch(Contents(), id) && cur == At(nodes, i)
      ensures cur == null ==> count == |nodes| && last == if nodes == [] then null else nodes[|nodes| - 1]
    {
      ghost var es := Contents();
      cur, last, count, i := chain, null, 0, 0;
      assert es[0..] == es;
      while cur != null
        invariant i <= |nodes| && cur == At(nodes, i) && count == i && last == (if i == 0 then null else nodes[i - 1])
        invariant FirstMatch(es, id) == i + FirstMatch(es[i..], id)
        decreases |nodes| - i
      {
        assert es[i..][0] == cur.Value();
        count := count + 1;
        if |id| == |cur.id| && id == cur.id {
          return;
        }
        assert es[i..][1..] == es[i + 1..];
        last := cur;
        cur, i := cur.next, i + 1;
      }
    }

    // Check 2: an expired entry; otherwise the one taken for the oldest, where
    // `oldest == 0` means that none has been seen yet.
    method FindExpired(now: int) returns (cur: Node?<S>, old_: Node?<S>, ghost i: nat)
      requires Valid()
      ensures i == FirstExpired(Contents(), timeout, now) && cur == At(nodes, i)
      ensures cur == null ==> old_ == if nodes == [] then null else nodes[Victim(Contents())]
    {
      hide Values, Victim;
      ghost var es := Contents();
      cur, old_, i := chain, null, 0;
      var oldest := 0;
      assert es[0..] == es;
      while cur != null
        invariant i <= |nodes| && cur == At(nodes, i) && FirstExpired(es, timeout, now) == i + FirstExpired(es[i..], timeout, now)
        invariant if i == 0 then oldest == 0 && old_ == null
                  else old_ == nodes[Victim(es[..i])] && oldest == es[Victim(es[..i])].stamp
        decreases |nodes| - i
      {
        assert es[i..][0] == cur.Value() && es[i] == cur.Value();
        if Expired(timeout, now, cur.stamp) {
          return;
        }
        VictimSnoc(es, i);
        if oldest == 0 || cur.stamp < oldest {
          oldest, old_ := cur.stamp, cur;
        }
        assert es[i..][1..] == es[i + 1..];
        cur, i := cur.next, i + 1;
      }
      assert es[..i] == es;
    }

    // Check 3: a new entry at the end.
    method Append(last: Node?<S>, node: Node<S>)
      requires Valid() && node !in nodes && node.next == null
      requires last == if nodes == [] then null else nodes[|nodes| - 1]
      modifies this, nodes
      ensures Valid() && nodes == old(nodes) + [node] && timeout == old(timeout) && max == old(max)
      ensures Contents() == old(Contents()) + [node.Value()]
      ensures node.next == null
    {
      hide Values;
      ghost var es := Contents();
      if last == null {
        chain := node;
      } else {
        last.next := node;
      }
      LinkedSnoc(chain, nodes, node);
      ValuesSnoc(nodes, node, es);
      nodes := nodes + [node];
    }

    // An entry is blanked and stamped, at its place in the chain.
    method Blank(cur: Node<S>, now: int, ghost i: nat)
      requires Valid() && i < |nodes| && cur == nodes[i]
      modifies cur
      ensures Valid() && cur.stamp == now && Contents() == old(Contents())[i := Entry(now, [], None)]
    {
      cur.session, cur.id := None, [];
      cur.stamp := now;
    }

    // A new entry behind the last one, blank but for its time.
    method NewEntry(last: Node?<S>, now: int) returns (cur: Node<S>)
      requires Valid() && last == if nodes == [] then null else nodes[|nodes| - 1]
      modifies this, nodes
      ensures Valid() && timeout == old(timeout) && max == old(max) && nodes == old(nodes) + [cur] && fresh(cur)
      ensures Contents() == old(Contents()) + [Entry(now, [], None)] && cur.stamp == now
    {
      cur := new Node<S>();
      cur.stamp := now;
      Append(last, cur);
    }

    // The session and its id go into an entry that was picked and blanked.
    method Fill(cur: Node<S>, id: Id, s: S, ghost i: nat)
      requires Valid() && i < |nodes| && cur == nodes[i]
      modifies cur
      ensures Valid() && Contents() == old(Contents())[i := Entry(old(cur.stamp), id, Some(s))]
    {
      cur.session := Some(s);
      cur.id := id;
    }

    // Checks 1 and 2: an entry to be overwritten whatever the size of the cache.
    method Overwritable(now: int, id: Id) returns (cur: Node?<S>, old_: Node?<S>, last: Node?<S>, count: nat, ghost i: nat)
      requires Valid()
      ensures count == |nodes| || cur != null
      ensures cur == null ==> last == if nodes == [] then null else nodes[|nodes| - 1]
      ensures cur == null ==> old_ == if nodes == [] then null else nodes[Victim(Contents())]
      ensures var es := Contents(); var same, expired := FirstMatch(es, id), FirstExpired(es, timeout, now);
              && (cur != null <==> same < |es| || expired < |es|)
              && (cur != null ==> i < |nodes| && cur == nodes[i] && i == if same < |es| then same else expired)
    {
      cur, last, count, i := FindId(id);
      old_ := null;
      if cur == null {
        cur, old_, i := FindExpired(now);
      }
    }

    /** ssl_cache_pick_writing_slot */
    method PickSlot(now: int, id: Id, memory: bool) returns (cur: Node?<S>, ghost i: nat)
      requires Valid()
      modifies this, nodes
      ensures Valid() && timeout == old(timeout) && max == old(max) && forall k | 0 <= k < |nodes| :: nodes[k] in old(nodes) || fresh(nodes[k])
      ensures var slot := Slot(old(Contents()), timeout, max, now, id, memory);
              if slot.None? then cur == null && Contents() == old(Contents())
              else i == slot.value && i < |nodes| && cur == nodes[i] && cur.stamp == now
                   && Contents() == Placed(old(Contents()), i, Entry(now, [], None))
    {
      hide Values, Victim, FirstMatch, FirstExpired;
      var old_, last, count;
      cur, old_, last, count, i := Overwritable(now, id);
      if cur != null {
        Blank(cur, now, i);
        return;
      }
      if count < max {
        if memory {
          i := |nodes|;
          cur := NewEntry(last, now);
        }
        return;
      }
      if old_ != null {
        cur, i := old_, Victim(Contents());
        Blank(cur, now, i);
      }
    }

    /** mbedtls_ssl_cache_set; `saved` says whether the session could be serialized. */
    method Set(now: int, id: Id, s: S, memory: bool, saved: bool) returns (code: Code)
      requires Valid()
      modifies this, nodes
      ensures Valid() && timeout == old(timeout) && max == old(max) && forall k | 0 <= k < |nodes| :: nodes[k] in old(nodes) || fresh(nodes[k])
      ensures (Contents(), code) == SetChain(old(Contents()), timeout, max, now, id, s, memory, saved)
    {
      hide Values, Slot;
      ghost var es := Contents();
      var cur;
      ghost var i;
      cur, i := PickSlot(now, id, memory);
      if cur == null || !saved || |id| > MAX_ID {
        return Failed;
      }
      assert cur in nodes;
      Fill(cur, id, s, i);
      assert Placed(es, i, Entry(now, [], None))[i := Entry(now, id, Some(s))] == Placed(es, i, Entry(now, id, Some(s)));
      code := Ok;
    }

    // The loop that finds the entry before another one.
    method Before(entry: Node<S>, ghost i: nat) returns (prev: Node<S>)
      requires Valid() && 0 < i < |nodes| && entry == nodes[i]
      ensures prev == nodes[i - 1]
    {
      prev := chain;
      ghost var k := 0;
      while prev.next != entry
        invariant 0 <= k < i && prev == nodes[k] && prev.next == nodes[k + 1]
        decreases i - k
      {
        prev, k := prev.next, k + 1;
      }
    }

    /** mbedtls_ssl_cache_remove */
    method Remove(now: int, id: Id)
      requires Valid()
      modifies this, nodes
      ensures Valid() && timeout == old(timeout) && max == old(max) && forall k | 0 <= k < |nodes| :: nodes[k] in old(nodes)
      ensures Contents() == RemoveChain(old(Contents()), timeout, now, id)
    {
      var entry;
      ghost var i;
      entry, i := FindEntry(now, id);
      if entry == null {
        return;
      }
      Unlink(entry, i);
    }

    // The entry is taken out of the chain.
    method Unlink(entry: Node<S>, ghost i: nat)
      requires Valid() && i < |nodes| && entry == nodes[i]
      modifies this, nodes
      ensures Valid() && timeout == old(timeout) && max == old(max) && forall k | 0 <= k < |nodes| :: nodes[k] in old(nodes)
      ensures Contents() == old(Contents())[..i] + old(Contents())[i + 1..]
    {
      hide Values, Linked;
      ghost var es := Contents();
      FirstIs(i);
      Relink(entry, i);
      assert Contents() == Without(es, i) by {
        assert forall k | 0 <= k < |nodes| :: Contents()[k] == Without(es, i)[k];
      }
    }

    lemma FirstIs(i: nat)
      requires Valid() && i < |nodes|
      ensures nodes[i] == chain <==> i == 0
    {
    }

    method Relink(entry: Node<S>, ghost i: nat)
      requires Valid() && i < |nodes| && entry == nodes[i] && (entry == chain <==> i == 0)
      modifies this, nodes
      ensures Valid() && timeout == old(timeout) && max == old(max) && nodes == Without(old(nodes), i)
      ensures forall k | 0 <= k < |old(nodes)| :: old(nodes)[k].Value() == old(nodes[k].Value())
    {
      LinksAt(chain, nodes);
      if entry == chain {
        LinkedTail(chain, nodes);
        chain := entry.next;
      } else {
        var prev := Before(entry, i);
        assert forall j, k | 0 <= j < k < |nodes| :: nodes[j] != nodes[k];
        prev.next := entry.next;
        LinkedWithout(chain, nodes, i);
      }
      nodes := Without(nodes, i);
    }
  }

  method Perform<S>(c: Store<S>, op: Op<S>)
    requires c.Valid()
    modifies c, c.nodes
    ensures c.Valid() && c.timeout == old(c.timeout) && c.max == old(c.max)
    ensures forall k | 0 <= k < |c.nodes| :: c.nodes[k] in old(c.nodes) || fresh(c.nodes[k])
    ensures forall stored :: c.Contents() == Step(State(old(c.Contents()), stored), c.timeout, c.max, op).chain
  {
    hide Values, Linked, Slot, Lookup;
    match op
    case SetOp(now, id, session, memory, saved) => var _ := c.Set(now, id, session, memory, saved);
    case RemoveOp(now, id) => c.Remove(now, id);
    case GetOp(now, id) => var _ := c.Get(now, id);
  }

  /** Any calls on a new cache: its chain is the one that CacheAgreesWithMap speaks of. */
  method Drive<S>(timeout: nat, max: nat, ops: seq<Op<S>>) returns (c: Store<S>)
    ensures fresh(c) && c.Valid() && c.timeout == timeout && c.max == max
    ensures c.Contents() == Run(State([], map[]), timeout, max, ops).chain
  {
    c := new Store<S>(timeout, max);
    ghost var st: State<S> := State([], map[]);
    var i := 0;
    assert ops[0..] == ops;
    hide Values, Linked, Slot, Lookup;
    while i < |ops|
      invariant 0 <= i <= |ops| && fresh(c) && c.Valid() && c.timeout == timeout && c.max == max
      invariant forall k | 0 <= k < |c.nodes| :: fresh(c.nodes[k])
      invariant c.Contents() == st.chain && Run(st, timeout, max, ops[i..]) == Run(State([], map[]), timeout, max, ops)
    {
      assert ops[i..][0] == ops[i] && ops[i..][1..] == ops[i + 1..];
      ghost var next := Step(st, timeout, max, ops[i]);
      Perform(c, ops[i]);
      st := next;
      i := i + 1;
    }
    assert ops[i..] == [];
  }
}
