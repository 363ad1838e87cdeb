/**
 What every step of the C ABI runtime keeps, besides the counts and accounts of
 the heap: the queues and the callback history, the life of instances, the
 handles in events and at the host, and the two threads.
 */
module BridgeOrder {
  import opened Counting
  import opened BridgeHeap
  import opened Bridge

  predicate NoDup(xs: seq<Addr>) {
    forall i, j | 0 <= i < j < |xs| :: xs[i] != xs[j]
  }

  // -------------------------------------------------------------------------
  // Queues.  Every accepted operation is either without result, or it is exactly
  // once among the completed ones; the completed ones are, in completion order,
  // those called back, the one being called and those queued as notices.

  ghost predicate Queued(undone: set<Addr>, untold: set<Addr>, q: Queues) {
    && NoDup(q.commands) && (forall o | o in q.commands :: o in undone)
    && q.completed == q.called + q.calling + q.notices && NoDup(q.completed)
    && |q.calling| <= 1
    && (forall o | o in undone :: o in untold && o !in q.completed)
    && (forall o | o in untold && o !in undone :: o in q.calling || o in q.notices)
    && (forall o | o in q.calling || o in q.notices :: o in untold)
    && (forall o | o in q.called :: o !in untold)
    && (forall o :: o in q.accepted <==> o in undone || o in q.completed)
  }

  lemma AdmitQueued(undone: set<Addr>, untold: set<Addr>, q: Queues, o: Addr)
    requires Queued(undone, untold, q) && o !in q.accepted && o !in untold
    ensures Queued(undone + {o}, untold + {o}, q.(commands := q.commands + [o], accepted := q.accepted + {o}))
  {
    assert o !in q.completed;
  }

  lemma PopQueued(undone: set<Addr>, untold: set<Addr>, q: Queues)
    requires Queued(undone, untold, q) && q.commands != []
    ensures Queued(undone, untold, q.(commands := q.commands[1..])) && q.commands[0] in undone
    ensures q.commands[0] !in q.commands[1..]
  {
    assert q.commands[0] in q.commands;
  }

  lemma AnnounceQueued(undone: set<Addr>, untold: set<Addr>, q: Queues, o: Addr)
    requires Queued(undone, untold, q) && o in undone && o !in q.commands
    ensures Queued(undone - {o}, untold, q.(notices := q.notices + [o], completed := q.completed + [o]))
  {
  }

  lemma FirstNotice(q: Queues)
    requires q.completed == q.called + q.notices && NoDup(q.completed) && q.notices != []
    ensures q.completed == q.called + [q.notices[0]] + q.notices[1..] && q.notices[0] in q.completed
    ensures q.notices[0] !in q.notices[1..]
    ensures forall o :: o in q.notices <==> o == q.notices[0] || o in q.notices[1..]
  {
    var c := |q.called|;
    forall i | 0 <= i < |q.notices| ensures q.notices[i] == q.completed[c + i] {}
    assert q.notices == [q.notices[0]] + q.notices[1..];
  }

  lemma TakeQueued(undone: set<Addr>, untold: set<Addr>, q: Queues)
    requires Queued(undone, untold, q) && q.notices != [] && q.calling == []
    ensures Queued(undone, untold, q.(notices := q.notices[1..], calling := [q.notices[0]]))
    ensures q.notices[0] in untold && q.notices[0] !in undone && q.notices[0] !in q.notices[1..]
  {
    hide NoDup;
    FirstNotice(q);
  }

  lemma CalledNotice(q: Queues, o: Addr)
    requires q.completed == q.called + [o] + q.notices && NoDup(q.completed)
    ensures q.completed == (q.called + [o]) + [] + q.notices && q.completed[|q.called|] == o
    ensures o !in q.called && o !in q.notices
  {
    var c := |q.called|;
    forall i | 0 <= i < |q.notices| ensures q.notices[i] == q.completed[c + 1 + i] {}
    forall i | 0 <= i < c ensures q.called[i] == q.completed[i] {}
  }

  lemma ToldQueued(undone: set<Addr>, untold: set<Addr>, q: Queues, o: Addr)
    requires Queued(undone, untold, q) && q.calling == [o]
    ensures Queued(undone, untold - {o}, q.(calling := [], called := q.called + [o]))
    ensures o in untold && o !in undone
  {
    hide NoDup;
    CalledNotice(q, o);
  }

  // -------------------------------------------------------------------------
  // Roots

  ghost predicate RootsOk(roots: map<Root, Addr>, untold: set<Addr>, kinds: set<Addr>, alive: set<Addr>, live: seq<Addr>) {
    && (forall s :: Live(s) in roots <==> s in live)
    && (forall s | Live(s) in roots :: roots[Live(s)] == s)
    && (forall o :: Runtime(o) in roots <==> o in untold)
    && (forall o | Runtime(o) in roots :: roots[Runtime(o)] == o)
    && (forall o | Host(o) in roots :: roots[Host(o)] == o && o in kinds)
    && (forall r | Handle(r) in roots :: roots[Handle(r)] == r && r in alive)
  }

  // An engine handle is the one reference that its creating operation handed out.
  ghost predicate EnginesOk(roots: map<Root, Addr>, creator: map<Addr, Addr>, undone: set<Addr>, insts: set<Addr>) {
    forall e | Engine(e) in roots ::
      e !in undone && roots[Engine(e)] in insts && roots[Engine(e)] in creator && creator[roots[Engine(e)]] == e
  }

  ghost predicate Delivered(events: map<Addr, Addr>, v: Addr) {
    exists o :: o in events && events[o] == v
  }

  // Every handle is either at the host or in the event of exactly one operation
  // whose callback has not started; nothing is lost in between.
  ghost predicate EventsOk(roots: map<Root, Addr>, undone: set<Addr>, chunks: set<Addr>, x: Hosted, notices: seq<Addr>) {
    && (forall e | e in x.engines :: Engine(e) in roots)
    && (forall e | Engine(e) in roots && e !in x.engines :: e in notices)
    && (forall r | r in x.resps :: Handle(r) in roots)
    && (forall r | Handle(r) in roots && r !in x.resps :: Delivered(x.evResp, r))
    && (forall o | o in x.evResp :: Handle(x.evResp[o]) in roots && x.evResp[o] !in x.resps && (o in undone || o in notices))
    && (forall a, b | a in x.evResp && b in x.evResp && x.evResp[a] == x.evResp[b] :: a == b)
    && x.chunks <= chunks
    && (forall c | c in chunks && c !in x.chunks :: Delivered(x.evChunk, c))
    && (forall o | o in x.evChunk :: x.evChunk[o] in chunks && x.evChunk[o] !in x.chunks && (o in undone || o in notices))
    && (forall a, b | a in x.evChunk && b in x.evChunk && x.evChunk[a] == x.evChunk[b] :: a == b)
  }

  // -------------------------------------------------------------------------
  // Instances

  predicate IsCreate(kind: int) {
    kind == 1 || kind == 2
  }

  predicate IsClose(kind: int) {
    kind == 5 || kind == 6
  }

  // An instance is on the live list exactly until it is closed; one operation
  // opens it, at most one closes it, and neither is left when it is closed.
  ghost predicate Living(kinds: map<Addr, int>, inst: map<Addr, Addr>, undone: set<Addr>, insts: set<Addr>, l: Life) {
    && l.instances == |l.live| && NoDup(l.live)
    && (forall s | s in l.live :: s in insts && s !in l.closed)
    && (forall s | s in insts :: s in l.live || s in l.closed)
    && l.closed <= l.closing
    && (forall o | o in kinds && IsCreate(kinds[o]) ::
          && o in inst && inst[o] in l.creator && l.creator[inst[o]] == o
          && (o in undone ==> inst[o] in l.live && inst[o] !in l.closing))
    && (forall o | o in kinds && IsClose(kinds[o]) ::
          && o in inst && inst[o] in l.closer && l.closer[inst[o]] == o
          && (o in undone ==> inst[o] in l.live))
    && (forall s | s in l.closer :: s in l.closing && s in l.creator && l.creator[s] !in undone)
    && (forall a, b | a in l.creator && b in l.creator && l.creator[a] == l.creator[b] :: a == b)
  }

  // -------------------------------------------------------------------------
  // Threads

  ghost predicate Quiet(undone: set<Addr>, q: Queues, live: seq<Addr>) {
    undone == {} && q.commands == [] && live == []
  }

  // States 1 and 2: the owner is inside owner_entry.  State 3: it is leaving.
  // States 4, 5 and 0: both threads are done, and nothing is queued or running.
  ghost predicate Threaded(p: Threads, undone: set<Addr>, q: Queues, live: seq<Addr>) {
    && 0 <= p.state <= 5
    && (p.state == 0 ==> p.notifier == NoNotifier && p.owner == NoOwner && Quiet(undone, q, live) && q.notices == [] && q.calling == [])
    && (1 <= p.state <= 3 ==> p.notifier == Serving || p.notifier == Leaving)
    && (4 <= p.state ==> p.notifier == Exited)
    && (1 <= p.state <= 2 ==> p.owner == InEntry)
    && (p.state != 0 ==> (p.ownerDone <==> p.owner == Returned || p.owner == NoOwner))
    && (p.state != 0 && p.ownerDone ==> Quiet(undone, q, live))
    && (p.notifier == Leaving || p.notifier == Exited ==> p.ownerDone && q.notices == [] && q.calling == [])
    && (p.owner.Draining? ==>
          && p.state == 3 && |p.owner.cur| <= 1
          && (forall o | o in undone :: o in q.commands || o in p.owner.cur)
          && (forall o | o in p.owner.cur :: o in undone && o !in q.commands))
    && p.starts == p.joins + (if p.state == 0 then 0 else 1)
  }

  // Addresses are handed out once.
  ghost predicate Bounded(w: World) {
    && (forall k | k in w.h.g.refs :: k < w.nextAddr)
    && (forall k | k in w.h.g.inst :: k < w.nextAddr)
    && (forall k | k in w.h.g.resp :: k < w.nextAddr)
    && (forall s | Live(s) in w.h.g.roots :: s < w.nextAddr)
    && (forall o | Engine(o) in w.h.g.roots :: o < w.nextAddr)
    && (forall r | Handle(r) in w.h.g.roots :: r < w.nextAddr)
    && (forall o | Runtime(o) in w.h.g.roots :: o < w.nextAddr)
    && (forall o | Host(o) in w.h.g.roots :: o < w.nextAddr)
    && (forall o | o in w.q.accepted :: o < w.nextAddr)
    && (forall s | s in w.l.closing :: s < w.nextAddr)
    && (forall o | o in w.h.resps.released :: o < w.nextAddr)
    && (forall s | s in w.l.closer :: s < w.nextAddr)
    && (forall s | s in w.l.creator :: s < w.nextAddr && w.l.creator[s] < w.nextAddr)
  }

  ghost predicate Good(w: World) {
    && Sound(w.h, multiset{})
    && Queued(w.h.tally.undone, w.h.tally.untold, w.q)
    && RootsOk(w.h.g.roots, w.h.tally.untold, w.h.kinds.Keys, w.h.resps.alive, w.l.live)
    && EnginesOk(w.h.g.roots, w.l.creator, w.h.tally.undone, w.h.money.charged.Keys)
    && EventsOk(w.h.g.roots, w.h.tally.undone, w.h.resps.chunks, w.x, w.q.notices)
    && Living(w.h.kinds, w.h.g.inst, w.h.tally.undone, w.h.money.charged.Keys, w.l)
    && Threaded(w.p, w.h.tally.undone, w.q, w.l.live)
    && Bounded(w)
  }

  lemma InitSound(opSize: nat)
    ensures Sound(Init(opSize).h, multiset{})
  {
    var h := Init(opSize).h;
    assert Accounts(h.g.inst, h.money);
    assert Tallied(h.g.inst, h.tally);
    assert RespsOk(h.g.inst, h.g.resp, h.resps, h.tally.undone, h.kinds);
    assert Layout(h.kinds.Keys, h.resps.alive, h.resps.chunks, h.money.charged.Keys, h.g.inst.Keys, h.g.refs.Keys);
  }

  lemma InitOrder(opSize: nat)
    ensures var w := Init(opSize);
            && Queued(w.h.tally.undone, w.h.tally.untold, w.q)
            && RootsOk(w.h.g.roots, w.h.tally.untold, w.h.kinds.Keys, w.h.resps.alive, w.l.live)
            && EnginesOk(w.h.g.roots, w.l.creator, w.h.tally.undone, w.h.money.charged.Keys)
            && EventsOk(w.h.g.roots, w.h.tally.undone, w.h.resps.chunks, w.x, w.q.notices)
  {
  }

  lemma InitRest(opSize: nat)
    ensures var w := Init(opSize);
            && Living(w.h.kinds, w.h.g.inst, w.h.tally.undone, w.h.money.charged.Keys, w.l)
            && Threaded(w.p, w.h.tally.undone, w.q, w.l.live)
  {
  }

  lemma InitBounded(opSize: nat)
    ensures Bounded(Init(opSize))
  {
  }

  lemma InitGood(opSize: nat)
    ensures Good(Init(opSize))
  {
    InitSound(opSize);
    InitOrder(opSize);
    InitRest(opSize);
    InitBounded(opSize);
  }

  // -------------------------------------------------------------------------
  // Drops only shrink the heap, and only free what nothing holds.

  ghost predicate Shrinks(h: Heap, t: Heap) {
    && t.g.roots == h.g.roots && t.resps.chunks == h.resps.chunks
    && t.tally.undone == h.tally.undone && t.tally.untold == h.tally.untold
    && t.g.refs.Keys <= h.g.refs.Keys && t.g.resp.Keys <= h.g.resp.Keys
    && (forall k | k in t.g.inst :: k in h.g.inst && t.g.inst[k] == h.g.inst[k])
    && (forall o | o in t.kinds :: o in h.kinds && t.kinds[o] == h.kinds[o])
    && t.resps.alive <= h.resps.alive && t.money.charged.Keys <= h.money.charged.Keys
    && (forall o | o in h.kinds && o in t.g.refs :: o in t.kinds)
    && (forall r | r in h.resps.alive && r in t.g.refs :: r in t.resps.alive)
    && (forall s | s in h.money.charged && s in t.g.refs :: s in t.money.charged)
    && t.resps.released == h.resps.released
  }

  lemma ShrinksTrans(h: Heap, m: Heap, t: Heap)
    requires Shrinks(h, m) && Shrinks(m, t)
    ensures Shrinks(h, t)
  {
  }

  lemma InstDropShrinks(h: Heap, s: Addr)
    requires s in h.g.refs
    ensures Shrinks(h, InstDrop(h, s))
  {
  }

  lemma RespDropShrinks(h: Heap, r: Addr)
    requires r in h.g.refs && (At(h.g.refs, r) <= 1 ==> r in h.g.inst && h.g.inst[r] in h.g.refs && h.g.inst[r] != r)
    requires r in h.money.ledger ==> h.money.ledger[r].account in h.money.charged
    ensures Shrinks(h, RespDrop(h, r))
  {
    if At(h.g.refs, r) <= 1 {
      var m := FreeResp(h, r);
      assert Shrinks(h, m);
      InstDropShrinks(m, h.g.inst[r]);
      ShrinksTrans(h, m, InstDrop(m, h.g.inst[r]));
    }
  }

  lemma DropRespShrinks(h: Heap, pend: multiset<Addr>, r: Addr)
    requires Sound(h, pend) && r in pend && r in h.resps.alive
    ensures Shrinks(h, RespDrop(h, r))
  {
    TargetsOf(h, r);
    RespDropShrinks(h, r);
  }

  lemma FreeOpShrinks(h: Heap, o: Addr)
    requires o in h.g.refs && At(h.g.refs, o) <= 1
    requires o in h.money.ledger ==> h.money.ledger[o].account in h.money.charged
    ensures Shrinks(h, FreeOp(h, o))
  {
  }

  lemma DropBothShrinks(h: Heap, rest: multiset<Addr>, r: Addr, s: Addr)
    requires Sound(h, rest + multiset{s} + multiset{r}) && r in h.resps.alive
    ensures Shrinks(h, InstDrop(RespDrop(h, r), s))
  {
    var full, u := rest + multiset{s} + multiset{r}, RespDrop(h, r);
    DropRespShrinks(h, full, r);
    RespDropSound(h, full, r);
    PlusMinus(rest + multiset{s}, r);
    DropInstShrinks(u, rest, s);
    ShrinksTrans(h, u, InstDrop(u, s));
  }

  lemma DropInstShrinks(h: Heap, rest: multiset<Addr>, s: Addr)
    requires Sound(h, rest + multiset{s})
    ensures Shrinks(h, InstDrop(h, s))
  {
    PendingAlive(h, rest + multiset{s}, s);
    InstDropShrinks(h, s);
  }

  lemma OpDropShrinks(h: Heap, pend: multiset<Addr>, o: Addr)
    requires Sound(h, pend) && o in pend && o in h.kinds && o !in h.tally.untold
    ensures Shrinks(h, OpDrop(h, o))
  {
    if At(h.g.refs, o) <= 1 {
      var s, t, rest := h.g.inst[o], FreeOp(h, o), pend - multiset{o};
      TargetsOf(h, o);
      FreeOpShrinks(h, o);
      FreeOpSound(h, pend, o);
      EdgesOf(h.g, o, rest);
      if o in h.g.resp {
        var r := h.g.resp[o];
        DropBothShrinks(t, rest, r, s);
        ShrinksTrans(h, t, InstDrop(RespDrop(t, r), s));
      } else {
        DropInstShrinks(t, rest, s);
        ShrinksTrans(h, t, InstDrop(t, s));
      }
    }
  }

  lemma PendingAlive(h: Heap, pend: multiset<Addr>, x: Addr)
    requires Sound(h, pend) && x in pend
    ensures x in h.g.refs
  {
  }

  // What survives a shrinking of the heap.
  lemma ShrinkKeepsRoots(h: Heap, t: Heap, live: seq<Addr>)
    requires Shrinks(h, t) && Balanced(t.g, multiset{})
    requires RootsOk(h.g.roots, h.tally.untold, h.kinds.Keys, h.resps.alive, live)
    ensures RootsOk(t.g.roots, t.tally.untold, t.kinds.Keys, t.resps.alive, live)
  {
    forall o | Host(o) in t.g.roots ensures o in t.kinds {
      assert t.g.roots[Host(o)] in t.g.refs;
    }
    forall r | Handle(r) in t.g.roots ensures r in t.resps.alive {
      assert t.g.roots[Handle(r)] in t.g.refs;
    }
  }

  lemma ShrinkKeepsEngines(h: Heap, t: Heap, creator: map<Addr, Addr>)
    requires Shrinks(h, t) && Balanced(t.g, multiset{})
    requires EnginesOk(h.g.roots, creator, h.tally.undone, h.money.charged.Keys)
    ensures EnginesOk(t.g.roots, creator, t.tally.undone, t.money.charged.Keys)
  {
    forall e | Engine(e) in t.g.roots ensures t.g.roots[Engine(e)] in t.money.charged {
      var s := t.g.roots[Engine(e)];
      assert s in h.money.charged.Keys && s in t.g.refs;
      assert s in t.money.charged;
    }
  }

  lemma ShrinkKeepsLiving(h: Heap, t: Heap, l: Life)
    requires Shrinks(h, t) && Balanced(t.g, multiset{})
    requires t.kinds.Keys <= t.g.inst.Keys
    requires RootsOk(t.g.roots, t.tally.untold, t.kinds.Keys, t.resps.alive, l.live)
    requires Living(h.kinds, h.g.inst, h.tally.undone, h.money.charged.Keys, l)
    ensures Living(t.kinds, t.g.inst, t.tally.undone, t.money.charged.Keys, l)
  {
    forall s | s in l.live ensures s in t.money.charged.Keys {
      assert Live(s) in t.g.roots && t.g.roots[Live(s)] in t.g.refs;
    }
  }

  lemma ShrinkKeepsBounded(w: World, t: Heap)
    requires Shrinks(w.h, t) && Bounded(w)
    ensures Bounded(w.(h := t))
  {
  }

  /** Whatever was dropped, the rest of the world still fits the heap. */
  lemma ShrinkGood(w: World, t: Heap)
    requires Shrinks(w.h, t) && Sound(t, multiset{})
    requires Queued(w.h.tally.undone, w.h.tally.untold, w.q)
    requires RootsOk(w.h.g.roots, w.h.tally.untold, w.h.kinds.Keys, w.h.resps.alive, w.l.live)
    requires EnginesOk(w.h.g.roots, w.l.creator, w.h.tally.undone, w.h.money.charged.Keys)
    requires EventsOk(w.h.g.roots, w.h.tally.undone, w.h.resps.chunks, w.x, w.q.notices)
    requires Living(w.h.kinds, w.h.g.inst, w.h.tally.undone, w.h.money.charged.Keys, w.l)
    requires Threaded(w.p, w.h.tally.undone, w.q, w.l.live)
    requires Bounded(w)
    ensures Good(w.(h := t))
  {
    ShrinkKeepsRoots(w.h, t, w.l.live);
    ShrinkKeepsEngines(w.h, t, w.l.creator);
    ShapesOps(t);
    ShrinkKeepsLiving(w.h, t, w.l);
    ShrinkKeepsBounded(w, t);
  }

  lemma ShapesOps(h: Heap)
    requires Shapes(h)
    ensures h.kinds.Keys <= h.g.inst.Keys
  {
  }
}
