/**
 The remaining host calls keep the invariant: close, create and the releases.
 */
module BridgeHost {
  import opened Basics
  import opened Counting
  import opened BridgeHeap
  import opened BridgeObjects
  import opened Bridge
  import opened BridgeOrder
  import opened BridgeSteps

  // -------------------------------------------------------------------------
  // close_async

  function Closing(l: Life, s: Addr, o: Addr): Life {
    l.(closing := l.closing + {s}, closer := l.closer[s := o])
  }

  lemma PlusCloseLiving(kinds: map<Addr, int>, inst: map<Addr, Addr>, undone: set<Addr>, insts: set<Addr>, l: Life,
                        o: Addr, kind: int, s: Addr)
    requires Living(kinds, inst, undone, insts, l) && o !in kinds && IsClose(kind)
    requires s in l.live && s !in l.closing && s in l.creator && l.creator[s] !in undone
    requires forall x | x in l.creator :: l.creator[x] != o
    ensures Living(kinds[o := kind], inst[o := s], undone + {o}, insts, Closing(l, s, o))
  {
  }

  lemma CloseBounded(w: World, s: Addr, o: Addr)
    requires Bounded(w) && s < w.nextAddr
    ensures Bounded(w.(l := Closing(w.l, s, o)))
  {
  }

  lemma CloseAdmitted(w: World, kind: int, s: Addr)
    requires Good(w) && s in w.h.money.charged && s !in w.l.closing && IsClose(kind)
    requires s in w.l.creator && w.l.creator[s] !in w.h.tally.undone
    ensures var v := Admit(w, kind, s, 0, None, true); Good(v.(l := Closing(v.l, s, w.nextAddr)))
  {
    hide Shapes;
    NextIsFresh(w);
    InstanceBounds(w, s);
    OpenIsLive(w, s);
    RetainedFits(w);
    AdmitHeap(w, kind, s, 0, None, true);
    AdmitQueue(w, kind, s, 0, None, true);
    AdmitRoots(w, kind, s, 0, None, true);
    AdmitFields(w, kind, s, 0, None, true);
    CreatorsBelow(w);
    PlusCloseLiving(w.h.kinds, w.h.g.inst, w.h.tally.undone, w.h.money.charged.Keys, w.l, w.nextAddr, kind, s);
    FreshElsewhere(w.h, w.nextAddr);
    AdmitThreaded(w.p, w.h.tally.undone, w.q, w.l.live, w.nextAddr);
    AdmitBounded(w, kind, s, 0, None, true);
    CloseBounded(Admit(w, kind, s, 0, None, true), s, w.nextAddr);
  }

  lemma RetainedFits(w: World)
    requires Sound(w.h, multiset{})
    ensures w.h.money.retained <= RETAIN_LIMIT
  {
  }

  lemma CreatorsBelow(w: World)
    requires Bounded(w)
    ensures forall x | x in w.l.creator :: w.l.creator[x] != w.nextAddr
  {
  }

  lemma CloseGood(w: World, e: Addr, server: bool, memory: bool)
    requires Good(w) && e in w.x.engines
    ensures Good(Close(w, EngineInstance(w, e), server, memory).0)
  {
    EngineOf(w, e);
    var s, kind := EngineInstance(w, e), if server then 6 else 5;
    if s !in w.l.closing && NewOpOk(w, kind, s, memory) {
      CloseAdmitted(w, kind, s);
    }
  }

  // -------------------------------------------------------------------------
  // create_async

  lemma StartThreaded(w: World, n: bool, o: bool)
    requires Threaded(w.p, w.h.tally.undone, w.q, w.l.live) && w.p.state < 3
    ensures var (v, ok) := Start(w, n, o);
            && Threaded(v.p, w.h.tally.undone, w.q, w.l.live)
            && (ok ==> 1 <= v.p.state <= 2)
  {
  }

  lemma StartGood(w: World, n: bool, o: bool)
    requires Good(w) && w.p.state < 3
    ensures var (v, ok) := Start(w, n, o); Good(v) && (ok ==> 1 <= v.p.state <= 2)
  {
    StartThreaded(w, n, o);
    var (v, ok) := Start(w, n, o);
    assert v == w.(p := v.p, nextId := v.nextId);
    assert Bounded(v);
  }

  // The instance as if it were linked before its first operation is made.
  function Linked(w: World): World {
    Tick(w).(h := AddInst(w.h, w.nextAddr, RETAIN_LIMIT, 1024),
             l := w.l.(live := [w.nextAddr] + w.l.live, instances := w.l.instances + 1,
                       capacity := w.l.capacity[w.nextAddr := 256]))
  }

  lemma LinkedRoots(roots: map<Root, Addr>, untold: set<Addr>, kinds: set<Addr>, alive: set<Addr>, live: seq<Addr>, s: Addr)
    requires RootsOk(roots, untold, kinds, alive, live)
    ensures RootsOk(roots[Live(s) := s], untold, kinds, alive, [s] + live)
  {
  }

  lemma LinkedEngines(roots: map<Root, Addr>, creator: map<Addr, Addr>, undone: set<Addr>, insts: set<Addr>, s: Addr)
    requires EnginesOk(roots, creator, undone, insts)
    ensures EnginesOk(roots[Live(s) := s], creator, undone, insts + {s})
  {
  }

  lemma LinkedEvents(roots: map<Root, Addr>, undone: set<Addr>, chunks: set<Addr>, x: Hosted, notices: seq<Addr>, s: Addr)
    requires EventsOk(roots, undone, chunks, x, notices)
    ensures EventsOk(roots[Live(s) := s], undone, chunks, x, notices)
  {
  }

  lemma LinkedLiving(kinds: map<Addr, int>, inst: map<Addr, Addr>, undone: set<Addr>, insts: set<Addr>, l: Life, s: Addr, cap: map<Addr, int>)
    requires Living(kinds, inst, undone, insts, l) && s !in insts && s !in l.closing
    ensures Living(kinds, inst, undone, insts + {s}, l.(live := [s] + l.live, instances := l.instances + 1, capacity := cap))
  {
    assert s !in l.live;
  }

  lemma LinkedThreaded(p: Threads, undone: set<Addr>, q: Queues, live: seq<Addr>, s: Addr)
    requires Threaded(p, undone, q, live) && 1 <= p.state <= 2
    ensures Threaded(p, undone, q, [s] + live)
  {
  }

  lemma LinkedBounded(w: World)
    requires Bounded(w)
    ensures Bounded(Linked(w))
  {
  }

  lemma LinkedSound(w: World)
    requires Sound(w.h, multiset{}) && Bounded(w)
    ensures Sound(Linked(w).h, multiset{}) && w.nextAddr !in w.h.money.charged
  {
    NextIsFresh(w);
    FreshElsewhere(w.h, w.nextAddr);
    AddInstSound(w.h, w.nextAddr, RETAIN_LIMIT, 1024);
  }

  lemma LinkedFields(w: World)
    ensures var v, s := Linked(w), w.nextAddr;
            && v.h.money.charged.Keys == w.h.money.charged.Keys + {s}
            && v.h.g.roots == w.h.g.roots[Live(s) := s] && v.h.g.inst == w.h.g.inst
            && v.h.tally.undone == w.h.tally.undone && v.h.tally.untold == w.h.tally.untold
            && v.h.kinds == w.h.kinds && v.h.resps.alive == w.h.resps.alive && v.h.resps.chunks == w.h.resps.chunks
            && v.q == w.q && v.x == w.x && v.p == w.p
  {
  }

  lemma LinkedGraph(w: World)
    requires Good(w)
    ensures var v := Linked(w);
            && RootsOk(v.h.g.roots, v.h.tally.untold, v.h.kinds.Keys, v.h.resps.alive, v.l.live)
            && EnginesOk(v.h.g.roots, v.l.creator, v.h.tally.undone, v.h.money.charged.Keys)
            && EventsOk(v.h.g.roots, v.h.tally.undone, v.h.resps.chunks, v.x, v.q.notices)
  {
    var s := w.nextAddr;
    LinkedFields(w);
    LinkedRoots(w.h.g.roots, w.h.tally.untold, w.h.kinds.Keys, w.h.resps.alive, w.l.live, s);
    LinkedEngines(w.h.g.roots, w.l.creator, w.h.tally.undone, w.h.money.charged.Keys, s);
    LinkedEvents(w.h.g.roots, w.h.tally.undone, w.h.resps.chunks, w.x, w.q.notices, s);
  }

  lemma NewIsOpen(w: World)
    requires Bounded(w)
    ensures w.nextAddr !in w.l.closing
  {
  }

  lemma LinkedGood(w: World)
    requires Good(w) && 1 <= w.p.state <= 2
    ensures Good(Linked(w))
  {
    LinkedSound(w);
    LinkedFields(w);
    LinkedGraph(w);
    NewIsOpen(w);
    LinkedLiving(w.h.kinds, w.h.g.inst, w.h.tally.undone, w.h.money.charged.Keys, w.l, w.nextAddr, Linked(w).l.capacity);
    LinkedThreaded(w.p, w.h.tally.undone, w.q, w.l.live, w.nextAddr);
    LinkedBounded(w);
  }

  function Opening(l: Life, s: Addr, o: Addr): Life {
    l.(creator := l.creator[s := o])
  }

  lemma PlusOpenLiving(kinds: map<Addr, int>, inst: map<Addr, Addr>, undone: set<Addr>, insts: set<Addr>, l: Life,
                       o: Addr, kind: int, s: Addr)
    requires Living(kinds, inst, undone, insts, l) && o !in kinds && IsCreate(kind)
    requires s in l.live && s !in l.closing
    requires forall k | k in inst :: inst[k] != s
    requires forall x | x in l.creator :: l.creator[x] != o
    ensures Living(kinds[o := kind], inst[o := s], undone + {o}, insts, Opening(l, s, o))
  {
  }

  lemma OpenEngines(roots: map<Root, Addr>, creator: map<Addr, Addr>, undone: set<Addr>, insts: set<Addr>, s: Addr, o: Addr)
    requires EnginesOk(roots, creator, undone, insts)
    requires forall e | Engine(e) in roots :: roots[Engine(e)] != s
    ensures EnginesOk(roots, creator[s := o], undone, insts)
  {
  }

  lemma OpenBounded(w: World, s: Addr, o: Addr)
    requires Bounded(w) && s < w.nextAddr && o < w.nextAddr
    ensures Bounded(w.(l := Opening(w.l, s, o)))
  {
  }

  lemma AdmitOpens(w: World, kind: int, s: Addr, n: nat)
    requires Living(w.h.kinds, w.h.g.inst, w.h.tally.undone, w.h.money.charged.Keys, w.l) && Bounded(w)
    requires w.nextAddr !in w.h.kinds && s in w.h.money.charged && s in w.l.live && s !in w.l.closing && IsCreate(kind)
    requires forall k | k in w.h.g.inst :: w.h.g.inst[k] != s
    ensures var v := Admit(w, kind, s, n, None, true);
            Living(v.h.kinds, v.h.g.inst, v.h.tally.undone, v.h.money.charged.Keys, Opening(w.l, s, w.nextAddr))
  {
    AdmitFields(w, kind, s, n, None, true);
    CreatorsBelow(w);
    PlusOpenLiving(w.h.kinds, w.h.g.inst, w.h.tally.undone, w.h.money.charged.Keys, w.l, w.nextAddr, kind, s);
  }

  lemma OpenAdmitted(w: World, kind: int, s: Addr, n: nat)
    requires Good(w) && s in w.h.money.charged && s !in w.l.closing && IsCreate(kind)
    requires forall k | k in w.h.g.inst :: w.h.g.inst[k] != s
    requires forall e | Engine(e) in w.h.g.roots :: w.h.g.roots[Engine(e)] != s
    requires Affordable(w, kind, s, n)
    ensures var v := Admit(w, kind, s, n, None, true); Good(v.(l := Opening(v.l, s, w.nextAddr)))
  {
    hide Bounded;
    NextIsFresh(w);
    InstanceBounds(w, s);
    OpenIsLive(w, s);
    AdmitHeap(w, kind, s, n, None, true);
    AdmitQueue(w, kind, s, n, None, true);
    AdmitRoots(w, kind, s, n, None, true);
    AdmitFields(w, kind, s, n, None, true);
    AdmitOpens(w, kind, s, n);
    var v := Admit(w, kind, s, n, None, true);
    OpenEngines(v.h.g.roots, w.l.creator, v.h.tally.undone, v.h.money.charged.Keys, s, w.nextAddr);
    FreshElsewhere(w.h, w.nextAddr);
    AdmitThreaded(w.p, w.h.tally.undone, w.q, w.l.live, w.nextAddr);
    AdmitBounded(w, kind, s, n, None, true);
    OpenBounded(v, s, w.nextAddr);
  }

  lemma DiscardGraph(g: Graph, s: Addr)
    requires s !in g.refs && Live(s) !in g.roots
    ensures var t := CutRoot(Inc(g, s).(roots := g.roots[Live(s) := s]), Live(s));
            At(t.refs, s) == 1 && Dec(t, s) == g
  {
    var t := CutRoot(Inc(g, s).(roots := g.roots[Live(s) := s]), Live(s));
    assert t.roots == g.roots;
    assert Dec(t, s).refs == g.refs;
  }

  lemma PutForget(m: map<Addr, int>, s: Addr, v: int)
    requires s !in m
    ensures m[s := v] - {s} == m
  {
  }

  // instance_drop of a fresh instance gives the heap back.
  lemma DiscardUndoes(h: Heap, s: Addr, budget: int, limit: int)
    requires FreshAddr(h, s) && s !in h.money.charged && s !in h.money.budget && s !in h.tally.active && s !in h.tally.notes
    requires s !in h.resps.count && s !in h.resps.limit
    ensures var t := AddInst(h, s, budget, limit); InstDrop(t.(g := CutRoot(t.g, Live(s))), s) == h
  {
    DiscardGraph(h.g, s);
    PutForget(h.money.charged, s, 0);
    PutForget(h.money.budget, s, budget);
    PutForget(h.tally.active, s, 0);
    PutForget(h.tally.notes, s, 0);
    PutForget(h.resps.count, s, 0);
    PutForget(h.resps.limit, s, limit);
  }

  lemma FreshInstance(h: Heap, s: Addr)
    requires Sound(h, multiset{}) && FreshAddr(h, s)
    ensures s !in h.money.charged && s !in h.money.budget && s !in h.tally.active && s !in h.tally.notes
    ensures s !in h.resps.count && s !in h.resps.limit
  {
    FreshElsewhere(h, s);
  }

  lemma SecondFresh(w: World)
    requires Bounded(w)
    ensures FreshAddr(AddInst(w.h, w.nextAddr, RETAIN_LIMIT, 1024), w.nextAddr + 1)
  {
  }

  lemma NewInstanceSound(w: World, v: World)
    requires Sound(w.h, multiset{}) && Bounded(w)
    requires v.h == AddInst(w.h, w.nextAddr, RETAIN_LIMIT, 1024) && v.nextAddr == w.nextAddr + 1
    ensures Sound(v.h, multiset{}) && FreshAddr(v.h, v.nextAddr) && w.nextAddr in v.h.money.charged
  {
    LinkedSound(w);
    SecondFresh(w);
  }

  lemma RejectedInstance(w: World, kind: int, n: nat)
    requires Sound(w.h, multiset{}) && Bounded(w) && kind != 4
    ensures Rejected(NewInstance(w), kind, w.nextAddr, n) == Tick(NewInstance(w))
  {
    NewInstanceSound(w, NewInstance(w));
    RejectedLeavesNoTrace(NewInstance(w), kind, w.nextAddr, n);
  }

  lemma DiscardInstance(w: World)
    requires Sound(w.h, multiset{}) && Bounded(w)
    ensures Discard(Tick(NewInstance(w)), w.l, w.nextAddr) == Tick(Tick(w))
  {
    NextIsFresh(w);
    FreshInstance(w.h, w.nextAddr);
    DiscardUndoes(w.h, w.nextAddr, RETAIN_LIMIT, 1024);
  }

  /** A create call that fails after the instance was made leaves no trace but
      the serial numbers. */
  lemma CreateFailureLeavesNoTrace(w: World, kind: int, n: nat)
    requires Sound(w.h, multiset{}) && Bounded(w) && kind != 4
    ensures Uncreated(w, kind, n) == Tick(Tick(w))
  {
    RejectedInstance(w, kind, n);
    DiscardInstance(w);
  }

  lemma NewHasNoUsers(w: World)
    requires Sound(w.h, multiset{}) && Bounded(w)
    ensures var v, s := Linked(w), w.nextAddr;
            && (forall k | k in v.h.g.inst :: v.h.g.inst[k] != s)
            && (forall e | Engine(e) in v.h.g.roots :: v.h.g.roots[Engine(e)] != s)
  {
    NextIsFresh(w);
  }

  lemma CreateAffordable(w: World, kind: int, n: nat, memory: bool)
    requires IsCreate(kind) && NewOpOk(NewInstance(w), kind, w.nextAddr, memory)
    requires InputFits(NewInstance(w), kind, w.nextAddr, n)
    ensures Affordable(Linked(w), kind, w.nextAddr, n)
  {
  }

  lemma CreatedGood(w: World, kind: int, n: nat)
    requires Good(w) && 1 <= w.p.state <= 2 && IsCreate(kind) && Affordable(Linked(w), kind, w.nextAddr, n)
    ensures Good(Created(w, kind, n))
  {
    LinkedGood(w);
    NewIsOpen(w);
    NewHasNoUsers(w);
    LinkedFields(w);
    OpenAdmitted(Linked(w), kind, w.nextAddr, n);
    CreatedSame(w, kind, n);
  }

  lemma CreatedSame(w: World, kind: int, n: nat)
    ensures var v := Admit(Linked(w), kind, w.nextAddr, n, None, true);
            Created(w, kind, n) == v.(l := Opening(v.l, w.nextAddr, w.nextAddr + 1))
  {
    var u, v := Admit(NewInstance(w), kind, w.nextAddr, n, None, true), Admit(Linked(w), kind, w.nextAddr, n, None, true);
    AdmitKeepsLife(NewInstance(w), kind, w.nextAddr, n);
    AdmitKeepsLife(Linked(w), kind, w.nextAddr, n);
    AdmitSame(NewInstance(w), Linked(w), kind, w.nextAddr, n);
  }

  lemma AdmitKeepsLife(w: World, kind: int, s: Addr, n: nat)
    ensures Admit(w, kind, s, n, None, true).l == w.l
  {
  }

  // new_op does not look at the live list.
  lemma AdmitSame(w: World, v: World, kind: int, s: Addr, n: nat)
    requires w == v.(l := w.l)
    ensures Admit(w, kind, s, n, None, true) == Admit(v, kind, s, n, None, true).(l := w.l)
  {
  }

  lemma CreateBodyGood(w: World, kind: int, len: nat, opMemory: bool, inputMemory: bool)
    requires Good(w) && 1 <= w.p.state <= 2 && IsCreate(kind)
    ensures Good(CreateBody(w, kind, len, opMemory, inputMemory).0)
  {
    hide Bounded;
    if !NewOpOk(NewInstance(w), kind, w.nextAddr, opMemory) {
      TickGood(w);
    } else if InputFits(NewInstance(w), kind, w.nextAddr, len + 1) && inputMemory {
      CreateAffordable(w, kind, len + 1, opMemory);
      CreatedGood(w, kind, len + 1);
    } else {
      CreateFailureLeavesNoTrace(w, kind, if inputMemory then 0 else len + 1);
      CreateFailureLeavesNoTrace(w, kind, 0);
      TickGood(w);
      TickGood(Tick(w));
    }
  }

  lemma CreateStartedGood(w: World, server: bool, len: nat, memory: seq<bool>)
    requires Good(w) && 1 <= w.p.state <= 2 && |memory| == 3
    ensures Good(CreateStarted(w, server, len, memory).0)
  {
    var kind := if server then 2 else 1;
    if w.nextId < INT_MAX - 1 && memory[0] {
      CreateBodyGood(w, kind, len, memory[1], memory[2]);
      var r := CreateBody(w, kind, len, memory[1], memory[2]);
      assert CreateStarted(w, server, len, memory) == r;
    }
  }

  lemma CreateGood(w: World, server: bool, len: nat, memory: seq<bool>, n: bool, o: bool, waited: bool)
    requires Good(w) && w.p.state < 3 && |memory| == 3
    ensures Good(Create(w, server, len, memory, n, o, waited).0)
  {
    CreateUncheckedGood(w, server, len, memory, n, o);
  }

  lemma CreateUncheckedGood(w: World, server: bool, len: nat, memory: seq<bool>, n: bool, o: bool)
    requires Good(w) && w.p.state < 3 && |memory| == 3
    ensures Good(CreateUnchecked(w, server, len, memory, n, o).0)
  {
    StartGood(w, n, o);
    if Start(w, n, o).1 {
      CreateStartedGood(Start(w, n, o).0, server, len, memory);
    }
  }

  // -------------------------------------------------------------------------
  // hs_response_release

  lemma TellOwnerGood(w: World, r: Addr, s: Addr, memory: bool)
    requires Good(w) && r in w.h.resps.alive && r in w.h.g.inst && w.h.g.inst[r] == s && s in w.h.money.charged
    ensures Good(TellOwner(w, r, s, memory))
  {
    if r !in w.h.resps.released && s !in w.l.closing && NewOpOk(w, 7, s, memory) {
      RetainedFits(w);
      AdmitGood(w, 7, s, 0, Some(r), false);
    }
  }

  lemma TellOwnerKeeps(w: World, r: Addr, s: Addr, memory: bool)
    ensures var v := TellOwner(w, r, s, memory);
            v.x == w.x && v.h.resps.alive == w.h.resps.alive && v.nextAddr >= w.nextAddr
  {
  }

  lemma CutHandleRoots(roots: map<Root, Addr>, untold: set<Addr>, kinds: set<Addr>, alive: set<Addr>, live: seq<Addr>, r: Addr)
    requires RootsOk(roots, untold, kinds, alive, live)
    ensures RootsOk(roots - {Handle(r)}, untold, kinds, alive, live)
  {
  }

  lemma CutHandleEngines(roots: map<Root, Addr>, creator: map<Addr, Addr>, undone: set<Addr>, insts: set<Addr>, r: Addr)
    requires EnginesOk(roots, creator, undone, insts)
    ensures EnginesOk(roots - {Handle(r)}, creator, undone, insts)
  {
  }

  lemma CutHandleEvents(roots: map<Root, Addr>, undone: set<Addr>, chunks: set<Addr>, x: Hosted, notices: seq<Addr>, r: Addr)
    requires EventsOk(roots, undone, chunks, x, notices) && r in x.resps
    ensures EventsOk(roots - {Handle(r)}, undone, chunks, x.(resps := x.resps - {r}), notices)
  {
  }

  lemma UnhandledSound(w: World, r: Addr)
    requires Sound(w.h, multiset{}) && Handle(r) in w.h.g.roots && w.h.g.roots[Handle(r)] == r
    ensures Sound(Unhandled(w, r).h, multiset{r})
  {
    CutRootBalanced(w.h.g, multiset{}, Handle(r));
    assert multiset{} + multiset{r} == multiset{r};
    UnhandledRest(w, r);
  }

  lemma UnhandledRest(w: World, r: Addr)
    requires RespsOk(w.h.g.inst, w.h.g.resp, w.h.resps, w.h.tally.undone, w.h.kinds) && Shapes(w.h)
    ensures var h := Unhandled(w, r).h; RespsOk(h.g.inst, h.g.resp, h.resps, h.tally.undone, h.kinds) && Shapes(h)
  {
  }

  lemma UnhandledBounded(w: World, r: Addr)
    requires Bounded(w) && r < w.nextAddr
    ensures Bounded(Unhandled(w, r))
  {
  }

  lemma DropHandleGood(w: World, r: Addr)
    requires Good(w) && r in w.x.resps
    ensures var u := Unhandled(w, r); Good(u.(h := RespDrop(u.h, r)))
  {
    HandleOf(w, r);
    InstanceBounds(w, r);
    UnhandledSound(w, r);
    var u := Unhandled(w, r);
    CutHandleRoots(w.h.g.roots, w.h.tally.untold, w.h.kinds.Keys, w.h.resps.alive, w.l.live, r);
    CutHandleEngines(w.h.g.roots, w.l.creator, w.h.tally.undone, w.h.money.charged.Keys, r);
    CutHandleEvents(w.h.g.roots, w.h.tally.undone, w.h.resps.chunks, w.x, w.q.notices, r);
    UnhandledBounded(w, r);
    DropResponse(u, r);
  }

  // response_drop in a world that is good but for the reference to be dropped.
  lemma DropResponse(u: World, r: Addr)
    requires Sound(u.h, multiset{r}) && r in u.h.resps.alive
    requires Queued(u.h.tally.undone, u.h.tally.untold, u.q)
    requires RootsOk(u.h.g.roots, u.h.tally.untold, u.h.kinds.Keys, u.h.resps.alive, u.l.live)
    requires EnginesOk(u.h.g.roots, u.l.creator, u.h.tally.undone, u.h.money.charged.Keys)
    requires EventsOk(u.h.g.roots, u.h.tally.undone, u.h.resps.chunks, u.x, u.q.notices)
    requires Living(u.h.kinds, u.h.g.inst, u.h.tally.undone, u.h.money.charged.Keys, u.l)
    requires Threaded(u.p, u.h.tally.undone, u.q, u.l.live) && Bounded(u)
    ensures Good(u.(h := RespDrop(u.h, r)))
  {
    RespDropSound(u.h, multiset{r}, r);
    assert multiset{r} - multiset{r} == multiset{};
    DropRespShrinks(u.h, multiset{r}, r);
    ShrinkGood(u, RespDrop(u.h, r));
  }

  lemma ReleaseResponseGood(w: World, r: Addr, memory: bool)
    requires Good(w) && r in w.x.resps
    ensures Good(ReleaseResponse(w, r, memory))
  {
    HandleOf(w, r);
    TellOwnerGood(w, r, w.h.g.inst[r], memory);
    TellOwnerKeeps(w, r, w.h.g.inst[r], memory);
    DropHandleGood(TellOwner(w, r, w.h.g.inst[r], memory), r);
  }

  // -------------------------------------------------------------------------
  // hs_chunk_release

  function Unchunked(w: World, c: Addr): World {
    w.(h := FreeChunk(w.h, c), x := w.x.(chunks := w.x.chunks - {c}))
  }

  lemma UnchunkedFields(w: World, c: Addr)
    requires c !in w.h.kinds && c in w.h.g.inst && c in w.h.money.ledger && w.h.money.ledger[c].account in w.h.money.charged
    ensures var h := FreeChunk(w.h, c);
            && h.g.roots == w.h.g.roots && h.tally == w.h.tally && h.kinds == w.h.kinds
            && h.resps.alive == w.h.resps.alive && h.resps.chunks == w.h.resps.chunks - {c}
            && h.money.charged.Keys == w.h.money.charged.Keys && h.g.inst == w.h.g.inst - {c}
  {
  }

  lemma CutChunkEvents(roots: map<Root, Addr>, undone: set<Addr>, chunks: set<Addr>, x: Hosted, notices: seq<Addr>, c: Addr)
    requires EventsOk(roots, undone, chunks, x, notices) && c in x.chunks
    ensures EventsOk(roots, undone, chunks - {c}, x.(chunks := x.chunks - {c}), notices)
  {
  }

  lemma CutChunkLiving(kinds: map<Addr, int>, inst: map<Addr, Addr>, undone: set<Addr>, insts: set<Addr>, l: Life, c: Addr)
    requires Living(kinds, inst, undone, insts, l) && c !in kinds
    ensures Living(kinds, inst - {c}, undone, insts, l)
  {
  }

  lemma UnchunkedBounded(w: World, c: Addr)
    requires Bounded(w)
    ensures Bounded(Unchunked(w, c))
  {
  }

  lemma ChunkFacts(w: World, c: Addr)
    requires Good(w) && c in w.x.chunks
    ensures c in w.h.resps.chunks && c !in w.h.kinds && c in w.h.g.inst && c in w.h.g.resp
    ensures c in w.h.money.ledger && w.h.money.ledger[c].account in w.h.money.charged
  {
  }

  lemma ChunkDropShrinks(h: Heap, c: Addr)
    requires Sound(h, multiset{}) && c in h.resps.chunks
    ensures Shrinks(FreeChunk(h, c), ChunkDrop(h, c))
  {
    var s, r := h.g.inst[c], h.g.resp[c];
    var t := FreeChunk(h, c);
    FreeChunkSound(h, c);
    EdgesOf(h.g, c, multiset{});
    TargetsOf(h, c);
    var full := multiset{} + multiset{s} + multiset{r};
    RespDropSound(t, full, r);
    PlusMinus(multiset{} + multiset{s}, r);
    DropRespShrinks(t, full, r);
    var u := RespDrop(t, r);
    PendingAlive(u, multiset{} + multiset{s}, s);
    InstDropShrinks(u, s);
    ShrinksTrans(t, u, InstDrop(u, s));
  }

  lemma ReleaseChunkGood(w: World, c: Addr)
    requires Good(w) && c in w.x.chunks
    ensures Good(ReleaseChunk(w, c))
  {
    ChunkFacts(w, c);
    UnchunkedFields(w, c);
    ChunkDropSound(w.h, c);
    ChunkDropShrinks(w.h, c);
    CutChunkEvents(w.h.g.roots, w.h.tally.undone, w.h.resps.chunks, w.x, w.q.notices, c);
    CutChunkLiving(w.h.kinds, w.h.g.inst, w.h.tally.undone, w.h.money.charged.Keys, w.l, c);
    UnchunkedBounded(w, c);
    ShrinkGood(Unchunked(w, c), ChunkDrop(w.h, c));
  }

  // -------------------------------------------------------------------------
  // hs_operation_release

  function Unowned(w: World, o: Addr): World {
    w.(h := w.h.(g := CutRoot(w.h.g, Host(o))))
  }

  lemma CutHostRoots(roots: map<Root, Addr>, untold: set<Addr>, kinds: set<Addr>, alive: set<Addr>, live: seq<Addr>, o: Addr)
    requires RootsOk(roots, untold, kinds, alive, live)
    ensures RootsOk(roots - {Host(o)}, untold, kinds, alive, live)
  {
  }

  lemma CutHostRest(roots: map<Root, Addr>, creator: map<Addr, Addr>, undone: set<Addr>, insts: set<Addr>,
                    chunks: set<Addr>, x: Hosted, notices: seq<Addr>, o: Addr)
    requires EnginesOk(roots, creator, undone, insts) && EventsOk(roots, undone, chunks, x, notices)
    ensures EnginesOk(roots - {Host(o)}, creator, undone, insts) && EventsOk(roots - {Host(o)}, undone, chunks, x, notices)
  {
  }

  lemma CutRootSound(h: Heap, root: Root, x: Addr)
    requires Sound(h, multiset{}) && root in h.g.roots && h.g.roots[root] == x
    ensures Sound(h.(g := CutRoot(h.g, root)), multiset{x})
  {
    CutRootBalanced(h.g, multiset{}, root);
    assert multiset{} + multiset{x} == multiset{x};
    var t := h.(g := CutRoot(h.g, root));
    assert Shapes(t);
  }

  lemma TwoHolders(g: Graph, pend: multiset<Addr>, root: Root, x: Addr)
    requires Balanced(g, pend) && x in pend && root in g.roots && g.roots[root] == x
    ensures x in g.refs && g.refs[x] > 1
  {
    assert root in Fiber(g.roots, g.roots.Keys, x);
  }

  // An operation that the runtime still holds is not freed by its host.
  lemma HeldOpDrop(h: Heap, o: Addr)
    requires Sound(h, multiset{o}) && Runtime(o) in h.g.roots && h.g.roots[Runtime(o)] == o
    ensures Sound(OpDrop(h, o), multiset{}) && Shrinks(h, OpDrop(h, o))
  {
    TwoHolders(h.g, multiset{o}, Runtime(o), o);
    DecBalanced(h.g, multiset{o}, o);
    assert multiset{o} - multiset{o} == multiset{};
    DecShapes(h, o);
  }

  lemma LastHostDrop(h: Heap, o: Addr)
    requires Sound(h, multiset{o}) && o in h.kinds && o !in h.tally.untold
    ensures Sound(OpDrop(h, o), multiset{}) && Shrinks(h, OpDrop(h, o))
  {
    OpDropSound(h, multiset{o}, o);
    assert multiset{o} - multiset{o} == multiset{};
    OpDropShrinks(h, multiset{o}, o);
  }

  lemma UnownedBounded(w: World, o: Addr)
    requires Bounded(w)
    ensures Bounded(Unowned(w, o))
  {
  }

  lemma HostRootFacts(w: World, o: Addr)
    requires RootsOk(w.h.g.roots, w.h.tally.untold, w.h.kinds.Keys, w.h.resps.alive, w.l.live) && Host(o) in w.h.g.roots
    ensures w.h.g.roots[Host(o)] == o && o in w.h.kinds
    ensures o in w.h.tally.untold ==> Runtime(o) in w.h.g.roots && w.h.g.roots[Runtime(o)] == o
  {
  }

  lemma EitherHostDrop(h: Heap, o: Addr)
    requires Sound(h, multiset{o}) && o in h.kinds
    requires o in h.tally.untold ==> Runtime(o) in h.g.roots && h.g.roots[Runtime(o)] == o
    ensures Sound(OpDrop(h, o), multiset{}) && Shrinks(h, OpDrop(h, o))
  {
    if o in h.tally.untold {
      HeldOpDrop(h, o);
    } else {
      LastHostDrop(h, o);
    }
  }

  lemma HostDrop(h: Heap, o: Addr, t: Heap)
    requires Sound(h, multiset{}) && Host(o) in h.g.roots && h.g.roots[Host(o)] == o && o in h.kinds
    requires o in h.tally.untold ==> Runtime(o) in h.g.roots && h.g.roots[Runtime(o)] == o
    requires t == h.(g := CutRoot(h.g, Host(o)))
    ensures Sound(OpDrop(t, o), multiset{}) && Shrinks(t, OpDrop(t, o))
  {
    hide Sound;
    CutRootSound(h, Host(o), o);
    EitherHostDrop(t, o);
  }

  lemma ReleaseOpGood(w: World, o: Addr)
    requires Good(w) && Host(o) in w.h.g.roots
    ensures Good(ReleaseOp(w, o))
  {
    HostRootFacts(w, o);
    HostDrop(w.h, o, Unowned(w, o).h);
    CutHostRoots(w.h.g.roots, w.h.tally.untold, w.h.kinds.Keys, w.h.resps.alive, w.l.live, o);
    CutHostRest(w.h.g.roots, w.l.creator, w.h.tally.undone, w.h.money.charged.Keys, w.h.resps.chunks, w.x, w.q.notices, o);
    UnownedBounded(w, o);
    var u := Unowned(w, o);
    ShrinkGood(u, OpDrop(u.h, o));
  }

  // -------------------------------------------------------------------------
  // hs_engine_release, hs_server_release

  function Disengaged(w: World, e: Addr): World {
    w.(h := w.h.(g := CutRoot(w.h.g, Engine(e))), x := w.x.(engines := w.x.engines - {e}))
  }

  lemma CutEngineRoots(roots: map<Root, Addr>, untold: set<Addr>, kinds: set<Addr>, alive: set<Addr>, live: seq<Addr>, e: Addr)
    requires RootsOk(roots, untold, kinds, alive, live)
    ensures RootsOk(roots - {Engine(e)}, untold, kinds, alive, live)
  {
  }

  lemma CutEngineRest(roots: map<Root, Addr>, creator: map<Addr, Addr>, undone: set<Addr>, insts: set<Addr>,
                      chunks: set<Addr>, x: Hosted, notices: seq<Addr>, e: Addr)
    requires EnginesOk(roots, creator, undone, insts) && EventsOk(roots, undone, chunks, x, notices)
    ensures EnginesOk(roots - {Engine(e)}, creator, undone, insts)
    ensures EventsOk(roots - {Engine(e)}, undone, chunks, x.(engines := x.engines - {e}), notices)
  {
  }

  lemma DisengagedBounded(w: World, e: Addr)
    requires Bounded(w)
    ensures Bounded(Disengaged(w, e))
  {
  }

  // instance_drop in a world that is good but for the reference to be dropped.
  lemma DropInstance(u: World, s: Addr)
    requires Sound(u.h, multiset{s}) && s in u.h.money.charged
    requires Queued(u.h.tally.undone, u.h.tally.untold, u.q)
    requires RootsOk(u.h.g.roots, u.h.tally.untold, u.h.kinds.Keys, u.h.resps.alive, u.l.live)
    requires EnginesOk(u.h.g.roots, u.l.creator, u.h.tally.undone, u.h.money.charged.Keys)
    requires EventsOk(u.h.g.roots, u.h.tally.undone, u.h.resps.chunks, u.x, u.q.notices)
    requires Living(u.h.kinds, u.h.g.inst, u.h.tally.undone, u.h.money.charged.Keys, u.l)
    requires Threaded(u.p, u.h.tally.undone, u.q, u.l.live) && Bounded(u)
    ensures Good(u.(h := InstDrop(u.h, s)))
  {
    InstDropSound(u.h, multiset{s}, s);
    assert multiset{s} - multiset{s} == multiset{};
    PendingAlive(u.h, multiset{s}, s);
    InstDropShrinks(u.h, s);
    ShrinkGood(u, InstDrop(u.h, s));
  }

  lemma ReleaseEngineGood(w: World, e: Addr)
    requires Good(w) && e in w.x.engines
    ensures Good(ReleaseEngine(w, e))
  {
    EngineOf(w, e);
    CutRootSound(w.h, Engine(e), EngineInstance(w, e));
    CutEngineRoots(w.h.g.roots, w.h.tally.untold, w.h.kinds.Keys, w.h.resps.alive, w.l.live, e);
    CutEngineRest(w.h.g.roots, w.l.creator, w.h.tally.undone, w.h.money.charged.Keys, w.h.resps.chunks, w.x, w.q.notices, e);
    DisengagedBounded(w, e);
    DropInstance(Disengaged(w, e), EngineInstance(w, e));
  }
}
