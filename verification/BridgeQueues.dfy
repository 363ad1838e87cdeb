/**
 The command queue and the notice queue of the C ABI runtime in memory: two
 singly linked lists with tail pointers that share the one `next` field of an
 operation.  An operation that leaves the command queue may keep a stale `next`
 until it is appended to the notice queue.
 */
module BridgeQueues {

  class Operation {
    var next: Operation?
    constructor()
      ensures next == null
    {
      next := null;
    }
  }

  ghost predicate Distinct(xs: seq<Operation>) {
    forall i, j | 0 <= i < j < |xs| :: xs[i] != xs[j]
  }

  // head and tail delimit the linked list xs.
  ghost predicate Chain(head: Operation?, tail: Operation?, xs: seq<Operation>)
    reads xs
  {
    if xs == [] then head == null && tail == null
    else
      && head == xs[0] && tail == xs[|xs| - 1] && Distinct(xs)
      && (forall i | 0 <= i < |xs| - 1 :: xs[i].next == xs[i + 1])
      && xs[|xs| - 1].next == null
  }

  // A list whose last node points to o, and o behind it.
  lemma LinkedChain(head: Operation?, xs: seq<Operation>, o: Operation)
    requires Distinct(xs) && o !in xs && o.next == null && (xs != [] ==> head == xs[0] && xs[|xs| - 1].next == o)
    requires forall i | 0 <= i < |xs| - 1 :: xs[i].next == xs[i + 1]
    ensures Chain(if xs == [] then o else head, o, xs + [o])
  {
  }

  lemma TailChain(head: Operation?, tail: Operation?, xs: seq<Operation>)
    requires Chain(head, tail, xs) && xs != []
    ensures Chain(xs[0].next, if xs[0].next == null then null else tail, xs[1..])
    ensures xs[0] !in xs[1..]
  {
  }

  lemma HeadChain(head: Operation?, tail: Operation?, xs: seq<Operation>)
    requires Chain(head, tail, xs)
    ensures head == null <==> xs == []
    ensures xs != [] ==> head == xs[0]
  {
  }

  // Neither o nor the tail of one list is a node of the other.
  lemma OtherChain(xs: seq<Operation>, tail: Operation?, ys: seq<Operation>, o: Operation)
    requires (tail == null || (xs != [] && tail == xs[|xs| - 1])) && (forall x | x in xs :: x !in ys) && o !in ys
    ensures forall i | 0 <= i < |ys| :: ys[i] != o && ys[i] != tail
  {
    forall i | 0 <= i < |ys| ensures ys[i] != o && ys[i] != tail {
      assert ys[i] in ys;
    }
  }

  class Queues {
    var commands: Operation?
    var commandsTail: Operation?
    var notices: Operation?
    var noticesTail: Operation?

    // The two lists, and everything that ever entered and left each of them.
    ghost var cmds: seq<Operation>
    ghost var nots: seq<Operation>
    ghost var accepted: seq<Operation>
    ghost var popped: seq<Operation>
    ghost var completed: seq<Operation>
    ghost var taken: seq<Operation>

    // Disjoint, acyclic, tail-correct, and first in first out.
    ghost predicate Valid()
      reads this, cmds, nots
    {
      && Chain(commands, commandsTail, cmds)
      && Chain(notices, noticesTail, nots)
      && (forall o | o in cmds :: o !in nots)
      && accepted == popped + cmds
      && completed == taken + nots
    }

    constructor()
      ensures Valid() && cmds == [] && nots == [] && accepted == [] && completed == []
    {
      commands, commandsTail, notices, noticesTail := null, null, null, null;
      cmds, nots, accepted, popped, completed, taken := [], [], [], [], [], [];
    }

    method Enqueue(o: Operation)
      requires Valid() && o !in cmds && o !in nots
      modifies this, o, cmds
      ensures Valid() && cmds == old(cmds) + [o] && nots == old(nots)
      ensures accepted == old(accepted) + [o] && popped == old(popped) && completed == old(completed) && taken == old(taken)
    {
      OtherChain(cmds, commandsTail, nots, o);
      o.next := null;
      if commandsTail != null {
        commandsTail.next := o;
      } else {
        commands := o;
      }
      commandsTail := o;
      LinkedChain(commands, cmds, o);
      cmds := cmds + [o];
      accepted := accepted + [o];
    }

    // hs_bridge_pop clears `next`; the drain in owner_main does not.
    method Pop(clear: bool) returns (o: Operation?)
      requires Valid()
      modifies this, cmds
      ensures Valid() && nots == old(nots) && completed == old(completed) && taken == old(taken) && accepted == old(accepted)
      ensures o == null <==> old(cmds) == []
      ensures o == null ==> cmds == [] && popped == old(popped)
      ensures o != null ==> o == old(cmds)[0] && cmds == old(cmds)[1..] && popped == old(popped) + [o] && o !in cmds && o !in nots
    {
      hide Chain;
      HeadChain(commands, commandsTail, cmds);
      o := commands;
      if o != null {
        TailChain(commands, commandsTail, cmds);
        assert cmds == [o] + cmds[1..];
        OtherChain(cmds[1..], null, nots, o);
        commands := o.next;
        if commands == null {
          commandsTail := null;
        }
        cmds := cmds[1..];
        popped := popped + [o];
        if clear {
          o.next := null;
        }
      }
    }

    // The end of hs_bridge_complete.
    method Notify(o: Operation)
      requires Valid() && o !in cmds && o !in nots
      modifies this, o, nots
      ensures Valid() && nots == old(nots) + [o] && cmds == old(cmds)
      ensures completed == old(completed) + [o] && taken == old(taken) && accepted == old(accepted) && popped == old(popped)
    {
      OtherChain(nots, noticesTail, cmds, o);
      o.next := null;
      if noticesTail != null {
        noticesTail.next := o;
      } else {
        notices := o;
      }
      noticesTail := o;
      LinkedChain(notices, nots, o);
      nots := nots + [o];
      completed := completed + [o];
    }

    // The head of the loop in notify_main.
    method Take() returns (o: Operation?)
      requires Valid()
      modifies this
      ensures Valid() && cmds == old(cmds) && accepted == old(accepted) && popped == old(popped) && completed == old(completed)
      ensures o == null <==> old(nots) == []
      ensures o == null ==> nots == [] && taken == old(taken)
      ensures o != null ==> o == old(nots)[0] && nots == old(nots)[1..] && taken == old(taken) + [o] && o !in nots
    {
      hide Chain;
      HeadChain(notices, noticesTail, nots);
      o := notices;
      if o != null {
        TailChain(notices, noticesTail, nots);
        assert nots == [o] + nots[1..];
        notices := o.next;
        if notices == null {
          noticesTail := null;
        }
        nots := nots[1..];
        taken := taken + [o];
      }
    }
  }
}
