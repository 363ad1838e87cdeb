/**
 The owner's and the notifier's steps keep the invariant.
 */
module BridgeOwner {
  import opened Counting
  import opened BridgeHeap
  import opened BridgeObjects
  import opened Bridge
  import opened BridgeOrder
  import opened BridgeSteps
  import opened BridgeHost

  // -------------------------------------------------------------------------
  // hs_bridge_pop and the thread transitions

  lemma PopThreaded(p: Threads, undone: set<Addr>, q: Queues, live: seq<Addr>)
    requires Threaded(p, undone, q, live) && p.owner == InEntry && q.commands != []
    ensures Threaded(p, undone, q.(commands := q.commands[1..]), live)
  {
  }

  lemma PopGood(w: World)
    requires Good(w) && w.p.owner == InEntry
    ensures Good(Pop(w))
  {
    if w.q.commands != [] {
      PopQueued(w.h.tally.undone, w.h.tally.untold, w.q);
      PopThreaded(w.p, w.h.tally.undone, w.q, w.l.live);
      assert Bounded(Pop(w));
    }
  }

  lemma ThreadsGood(w: World, p: Threads)
    requires Good(w) && Threaded(p, w.h.tally.undone, w.q, w.l.live)
    ensures Good(w.(p := p))
  {
    assert Bounded(w.(p := p));
  }

  // -------------------------------------------------------------------------
  // hs_bridge_limits, hs_bridge_response, hs_bridge_set_header, hs_bridge_chunk

  lemma OpFacts(w: World, o: Addr)
    requires Good(w) && o in w.h.tally.undone
    ensures o in w.h.g.inst && o in w.h.kinds && w.h.g.inst[o] in w.h.money.charged && o in w.h.tally.untold && o < w.nextAddr
  {
    OpShapes(w.h, o);
  }

  lemma OpShapes(h: Heap, o: Addr)
    requires Shapes(h) && Tallied(h.g.inst, h.tally) && o in h.tally.undone
    ensures o in h.g.inst && o in h.kinds && h.g.inst[o] in h.money.charged && o in h.tally.untold
  {
  }

  function NewLimits(h: Heap, budget: map<Addr, int>, limit: map<Addr, int>): Heap {
    h.(money := h.money.(budget := budget), resps := h.resps.(limit := limit))
  }

  lemma LimitsShapes(h: Heap, budget: map<Addr, int>, limit: map<Addr, int>)
    requires Shapes(h) && budget.Keys == h.money.budget.Keys && limit.Keys == h.resps.limit.Keys
    ensures Shapes(NewLimits(h, budget, limit))
  {
  }

  lemma LimitsRest(h: Heap, budget: map<Addr, int>, limit: map<Addr, int>)
    requires Accounts(h.g.inst, h.money) && RespsOk(h.g.inst, h.g.resp, h.resps, h.tally.undone, h.kinds)
    ensures var t := NewLimits(h, budget, limit);
            Accounts(t.g.inst, t.money) && RespsOk(t.g.inst, t.g.resp, t.resps, t.tally.undone, t.kinds)
  {
  }

  lemma LimitsSound(h: Heap, s: Addr, budget: nat, responses: int)
    requires Sound(h, multiset{}) && s in h.money.charged
    ensures Sound(NewLimits(h, h.money.budget[s := budget], h.resps.limit[s := responses]), multiset{})
  {
    hide Layout, Count, Balanced, Accounts;
    LimitsShapes(h, h.money.budget[s := budget], h.resps.limit[s := responses]);
    LimitsRest(h, h.money.budget[s := budget], h.resps.limit[s := responses]);
  }

  lemma LimitsLiving(w: World, capacity: map<Addr, int>)
    requires Living(w.h.kinds, w.h.g.inst, w.h.tally.undone, w.h.money.charged.Keys, w.l)
    ensures Living(w.h.kinds, w.h.g.inst, w.h.tally.undone, w.h.money.charged.Keys, w.l.(capacity := capacity))
  {
  }

  lemma LimitsGood(w: World, o: Addr, capacity: int, budget: nat, responses: int)
    requires Good(w) && o in w.h.tally.undone
    ensures Good(SetLimits(w, At(w.h.g.inst, o), capacity, budget, responses))
  {
    OpFacts(w, o);
    var s := w.h.g.inst[o];
    var v := SetLimits(w, s, capacity, budget, responses);
    LimitsSound(w.h, s, budget, responses);
    LimitsLiving(w, v.l.capacity);
    assert Bounded(v);
  }

  lemma MadeRespRoots(roots: map<Root, Addr>, untold: set<Addr>, kinds: set<Addr>, alive: set<Addr>, live: seq<Addr>, r: Addr)
    requires RootsOk(roots, untold, kinds, alive, live)
    ensures RootsOk(roots[Handle(r) := r], untold, kinds, alive + {r}, live)
  {
  }

  lemma MadeRespEngines(roots: map<Root, Addr>, creator: map<Addr, Addr>, undone: set<Addr>, insts: set<Addr>, r: Addr)
    requires EnginesOk(roots, creator, undone, insts)
    ensures EnginesOk(roots[Handle(r) := r], creator, undone, insts)
  {
  }

  lemma PlusEvent(events: map<Addr, Addr>, o: Addr, v: Addr, u: Addr)
    requires o !in events
    ensures Delivered(events[o := v], u) <==> u == v || Delivered(events, u)
  {
    var more := events[o := v];
    assert more[o] == v;
    assert forall k | k in events :: more[k] == events[k];
  }

  lemma MadeRespEvents(roots: map<Root, Addr>, undone: set<Addr>, chunks: set<Addr>, x: Hosted, notices: seq<Addr>, o: Addr, r: Addr)
    requires EventsOk(roots, undone, chunks, x, notices) && o in undone && o !in x.evResp && Handle(r) !in roots
    ensures EventsOk(roots[Handle(r) := r], undone, chunks, x.(evResp := x.evResp[o := r]), notices)
  {
    var more := x.evResp[o := r];
    forall k | Handle(k) in roots[Handle(r) := r] && k !in x.resps ensures Delivered(more, k) {
      PlusEvent(x.evResp, o, r, k);
    }
    forall k | k in more ensures Handle(more[k]) in roots[Handle(r) := r] && more[k] !in x.resps {}
  }

  lemma MadeRespLiving(kinds: map<Addr, int>, inst: map<Addr, Addr>, undone: set<Addr>, insts: set<Addr>, l: Life, r: Addr, s: Addr)
    requires Living(kinds, inst, undone, insts, l) && r !in kinds
    ensures Living(kinds, inst[r := s], undone, insts, l)
  {
  }

  function MadeResponse(w: World, o: Addr, s: Addr, n: nat): World {
    w.(h := AddResp(w.h, w.nextAddr, s, n), nextAddr := w.nextAddr + 1,
       x := w.x.(evResp := w.x.evResp[o := w.nextAddr]))
  }

  lemma MadeRespFields(w: World, o: Addr, s: Addr, n: nat)
    requires s in w.h.money.charged
    ensures var v, r := MadeResponse(w, o, s, n), w.nextAddr;
            && v.h.g.roots == w.h.g.roots[Handle(r) := r] && v.h.g.inst == w.h.g.inst[r := s] && v.h.tally == w.h.tally
            && v.h.resps.alive == w.h.resps.alive + {r} && v.h.resps.chunks == w.h.resps.chunks
            && v.h.kinds == w.h.kinds && v.h.money.charged.Keys == w.h.money.charged.Keys
            && v.h.g.resp == w.h.g.resp && v.h.resps.released == w.h.resps.released
            && v.h.g.refs.Keys == w.h.g.refs.Keys + {r, s}
  {
  }

  lemma MadeRespBounded(w: World, o: Addr, s: Addr, n: nat)
    requires Bounded(w) && s in w.h.money.charged && s < w.nextAddr
    ensures Bounded(MadeResponse(w, o, s, n))
  {
    MadeRespFields(w, o, s, n);
  }

  lemma MadeResponseGood(w: World, o: Addr, s: Addr, n: nat)
    requires Good(w) && o in w.h.tally.undone && o !in w.x.evResp && s in w.h.money.charged
    requires w.h.money.retained + n <= RETAIN_LIMIT
    ensures Good(MadeResponse(w, o, s, n))
  {
    var r := w.nextAddr;
    NextIsFresh(w);
    FreshElsewhere(w.h, r);
    InstanceBounds(w, s);
    AddRespSound(w.h, r, s, n);
    MadeRespFields(w, o, s, n);
    MadeRespRoots(w.h.g.roots, w.h.tally.untold, w.h.kinds.Keys, w.h.resps.alive, w.l.live, r);
    MadeRespEngines(w.h.g.roots, w.l.creator, w.h.tally.undone, w.h.money.charged.Keys, r);
    MadeRespEvents(w.h.g.roots, w.h.tally.undone, w.h.resps.chunks, w.x, w.q.notices, o, r);
    MadeRespLiving(w.h.kinds, w.h.g.inst, w.h.tally.undone, w.h.money.charged.Keys, w.l, r, s);
    MadeRespBounded(w, o, s, n);
  }

  lemma ChargeFits(m: Money, s: Addr, n: int)
    requires CanCharge(m, s, n)
    ensures m.retained + n <= RETAIN_LIMIT
  {
  }

  lemma MakeResponseGood(w: World, o: Addr, n: nat, memory: bool)
    requires Good(w) && o in w.h.tally.undone && o !in w.x.evResp
    ensures Good(MakeResponse(w, o, n, memory))
  {
    OpFacts(w, o);
    var s := w.h.g.inst[o];
    var fits := memory && At(w.h.resps.count, s) < At(w.h.resps.limit, s) && CanCharge(w.h.money, s, n);
    var v := MakeResponse(w, o, n, memory);
    assert v == if fits then MadeResponse(w, o, s, n) else w;
    if fits {
      ChargeFits(w.h.money, s, n);
      MadeResponseGood(w, o, s, n);
    }
  }

  lemma EventResponse(w: World, o: Addr)
    requires Good(w) && o in w.x.evResp
    ensures var r := w.x.evResp[o];
            && Handle(r) in w.h.g.roots && w.h.g.roots[Handle(r)] == r && r in w.h.resps.alive
            && r in w.h.g.inst && w.h.g.inst[r] in w.h.money.charged
  {
    RespInstance(w.h, w.x.evResp[o]);
  }

  lemma GrowFields(h: Heap, r: Addr, n: nat)
    requires At(h.g.inst, r) in h.money.charged
    ensures var t := GrowResp(h, r, n);
            && t.g == h.g && t.tally == h.tally && t.resps == h.resps && t.kinds == h.kinds
            && t.money.charged.Keys == h.money.charged.Keys
  {
  }

  lemma SetHeaderGood(w: World, o: Addr, n: nat)
    requires Good(w) && o in w.x.evResp
    ensures Good(SetHeader(w, o, n))
  {
    EventResponse(w, o);
    var r := w.x.evResp[o];
    if CanCharge(w.h.money, w.h.g.inst[r], n) {
      ChargeFits(w.h.money, w.h.g.inst[r], n);
      GrowRespSound(w.h, r, n);
      GrowFields(w.h, r, n);
      var v := w.(h := GrowResp(w.h, r, n));
      assert SetHeader(w, o, n) == v;
      assert Bounded(v);
    }
  }

  function MadeChunk(w: World, o: Addr, s: Addr, r: Addr, n: nat): World {
    w.(h := AddChunk(w.h, w.nextAddr, s, r, n), nextAddr := w.nextAddr + 1,
       x := w.x.(evChunk := w.x.evChunk[o := w.nextAddr]))
  }

  lemma MadeChunkEvents(roots: map<Root, Addr>, undone: set<Addr>, chunks: set<Addr>, x: Hosted, notices: seq<Addr>, o: Addr, c: Addr)
    requires EventsOk(roots, undone, chunks, x, notices) && o in undone && o !in x.evChunk && c !in chunks
    ensures EventsOk(roots, undone, chunks + {c}, x.(evChunk := x.evChunk[o := c]), notices)
  {
    forall k | k in chunks + {c} && k !in x.chunks ensures Delivered(x.evChunk[o := c], k) {
      PlusEvent(x.evChunk, o, c, k);
    }
  }

  lemma MadeChunkFields(w: World, o: Addr, s: Addr, r: Addr, n: nat)
    requires s in w.h.money.charged
    ensures var v, c := MadeChunk(w, o, s, r, n), w.nextAddr;
            && v.h.g.roots == w.h.g.roots && v.h.g.inst == w.h.g.inst[c := s] && v.h.tally == w.h.tally
            && v.h.resps.alive == w.h.resps.alive && v.h.resps.chunks == w.h.resps.chunks + {c}
            && v.h.kinds == w.h.kinds && v.h.money.charged.Keys == w.h.money.charged.Keys
            && v.h.g.resp == w.h.g.resp[c := r] && v.h.resps.released == w.h.resps.released
            && v.h.g.refs.Keys == w.h.g.refs.Keys + {s, r}
  {
  }

  lemma MadeChunkBounded(w: World, o: Addr, s: Addr, r: Addr, n: nat)
    requires Bounded(w) && s in w.h.money.charged && s < w.nextAddr && r < w.nextAddr
    ensures Bounded(MadeChunk(w, o, s, r, n))
  {
    MadeChunkFields(w, o, s, r, n);
  }

  lemma FreshChunk(h: Heap, c: Addr)
    requires Shapes(h) && FreshAddr(h, c)
    ensures c !in h.resps.chunks
  {
  }

  lemma MadeChunkGood(w: World, o: Addr, s: Addr, r: Addr, n: nat)
    requires Good(w) && o in w.h.tally.undone && o !in w.x.evChunk && s in w.h.money.charged
    requires r in w.h.resps.alive && r in w.h.g.inst && w.h.g.inst[r] == s && w.h.money.retained + n <= RETAIN_LIMIT
    ensures Good(MadeChunk(w, o, s, r, n))
  {
    var c := w.nextAddr;
    NextIsFresh(w);
    FreshElsewhere(w.h, c);
    FreshChunk(w.h, c);
    InstanceBounds(w, s);
    InstanceBounds(w, r);
    AddChunkSound(w.h, c, s, r, n);
    MadeChunkFields(w, o, s, r, n);
    MadeChunkEvents(w.h.g.roots, w.h.tally.undone, w.h.resps.chunks, w.x, w.q.notices, o, c);
    MadeRespLiving(w.h.kinds, w.h.g.inst, w.h.tally.undone, w.h.money.charged.Keys, w.l, c, s);
    MadeChunkBounded(w, o, s, r, n);
  }

  lemma ReadTarget(h: Heap, o: Addr)
    requires RespsOk(h.g.inst, h.g.resp, h.resps, h.tally.undone, h.kinds) && o in h.kinds && h.kinds[o] == 4 && o in h.g.inst
    ensures o in h.g.resp && h.g.resp[o] in h.resps.alive && h.g.resp[o] in h.g.inst && h.g.inst[h.g.resp[o]] == h.g.inst[o]
  {
  }

  lemma MakeChunkGood(w: World, o: Addr, n: nat, memory: bool)
    requires Good(w) && o in w.h.tally.undone && o in w.h.kinds && w.h.kinds[o] == 4 && o !in w.x.evChunk
    ensures Good(MakeChunk(w, o, n, memory))
  {
    OpFacts(w, o);
    ReadTarget(w.h, o);
    var s := w.h.g.inst[o];
    if memory && CanCharge(w.h.money, s, n) {
      ChargeFits(w.h.money, s, n);
      MadeChunkGood(w, o, s, w.h.g.resp[o], n);
      assert MakeChunk(w, o, n, memory) == MadeChunk(w, o, s, w.h.g.resp[o], n);
    }
  }

  // -------------------------------------------------------------------------
  // hs_bridge_complete: the response of a failed request

  lemma UndeliveredEvents(roots: map<Root, Addr>, undone: set<Addr>, chunks: set<Addr>, x: Hosted, notices: seq<Addr>, o: Addr)
    requires EventsOk(roots, undone, chunks, x, notices) && o in x.evResp
    ensures EventsOk(roots - {Handle(x.evResp[o])}, undone, chunks, x.(evResp := x.evResp - {o}), notices)
  {
    var less := x.evResp - {o};
    forall r | Handle(r) in roots && r != x.evResp[o] && r !in x.resps ensures Delivered(less, r) {
      MinusEvent(x.evResp, o, r);
    }
    forall k | k in less ensures less[k] != x.evResp[o] {}
  }

  lemma MinusEvent(events: map<Addr, Addr>, o: Addr, v: Addr)
    requires Delivered(events, v) && o in events && events[o] != v
    ensures Delivered(events - {o}, v)
  {
    var k :| k in events && events[k] == v;
    assert k in events - {o} && (events - {o})[k] == v;
  }

  lemma UndeliveredBounded(w: World, o: Addr, r: Addr)
    requires Bounded(w)
    ensures Bounded(Undelivered(w, o, r))
  {
  }

  lemma DropEventGood(w: World, o: Addr)
    requires Good(w)
    ensures Good(DropEventResponse(w, o))
  {
    if o in w.x.evResp {
      EventResponse(w, o);
      var r := w.x.evResp[o];
      CutRootSound(w.h, Handle(r), r);
      CutHandleRoots(w.h.g.roots, w.h.tally.untold, w.h.kinds.Keys, w.h.resps.alive, w.l.live, r);
      CutHandleEngines(w.h.g.roots, w.l.creator, w.h.tally.undone, w.h.money.charged.Keys, r);
      UndeliveredEvents(w.h.g.roots, w.h.tally.undone, w.h.resps.chunks, w.x, w.q.notices, o);
      UndeliveredBounded(w, o, r);
      DropResponse(Undelivered(w, o, r), r);
    }
  }

  lemma DropEventKeeps(w: World, o: Addr)
    ensures var v := DropEventResponse(w, o);
            && v.h.tally.undone == w.h.tally.undone && v.h.kinds == w.h.kinds
            && v.q == w.q && v.l == w.l && v.p == w.p
  {
    if o in w.x.evResp {
      RespDropFrame(Undelivered(w, o, w.x.evResp[o]).h, w.x.evResp[o]);
    }
  }

  // -------------------------------------------------------------------------
  // hs_bridge_complete: the notice

  lemma SettleFields(h: Heap, o: Addr)
    ensures var t := Settle(h, o);
            && t.g == h.g && t.money == h.money && t.kinds == h.kinds && t.tally.undone == h.tally.undone - {o}
            && t.tally.untold == h.tally.untold && t.resps.alive == h.resps.alive && t.resps.chunks == h.resps.chunks
            && t.resps.released == h.resps.released
  {
  }

  lemma AnnouncedEvents(roots: map<Root, Addr>, creator: map<Addr, Addr>, undone: set<Addr>, insts: set<Addr>,
                        chunks: set<Addr>, x: Hosted, notices: seq<Addr>, o: Addr)
    requires EnginesOk(roots, creator, undone, insts) && EventsOk(roots, undone, chunks, x, notices)
    ensures EnginesOk(roots, creator, undone - {o}, insts) && EventsOk(roots, undone - {o}, chunks, x, notices + [o])
  {
  }

  lemma AnnouncedLiving(kinds: map<Addr, int>, inst: map<Addr, Addr>, undone: set<Addr>, insts: set<Addr>, l: Life, o: Addr)
    requires Living(kinds, inst, undone, insts, l)
    ensures Living(kinds, inst, undone - {o}, insts, l)
  {
  }

  // Where the owner is after it has completed o.
  function Drained(p: Threads): Threads {
    if p.owner.Draining? then p.(owner := Draining([])) else p
  }

  lemma AnnouncedThreaded(p: Threads, undone: set<Addr>, q: Queues, live: seq<Addr>, o: Addr)
    requires Threaded(p, undone, q, live) && o in undone
    requires p.owner.Draining? ==> p.owner.cur == [o]
    ensures Threaded(Drained(p), undone - {o}, q.(notices := q.notices + [o], completed := q.completed + [o]), live)
  {
  }

  function Announced(w: World, o: Addr): World {
    Announce(w, o).(p := Drained(w.p))
  }

  lemma AnnouncedBounded(w: World, o: Addr)
    requires Bounded(w)
    ensures Bounded(Announced(w, o))
  {
    SettleFields(w.h, o);
  }

  lemma AnnouncedGood(w: World, o: Addr)
    requires Good(w) && o in w.h.tally.undone && o !in w.q.commands
    requires w.p.owner.Draining? ==> w.p.owner.cur == [o]
    ensures Good(Announced(w, o))
  {
    SettleSound(w.h, o);
    SettleFields(w.h, o);
    AnnounceQueued(w.h.tally.undone, w.h.tally.untold, w.q, o);
    AnnouncedEvents(w.h.g.roots, w.l.creator, w.h.tally.undone, w.h.money.charged.Keys, w.h.resps.chunks, w.x, w.q.notices, o);
    AnnouncedLiving(w.h.kinds, w.h.g.inst, w.h.tally.undone, w.h.money.charged.Keys, w.l, o);
    AnnouncedThreaded(w.p, w.h.tally.undone, w.q, w.l.live, o);
    AnnouncedBounded(w, o);
  }

  // -------------------------------------------------------------------------
  // hs_bridge_complete: the handle of a created instance

  lemma GrantedRoots(roots: map<Root, Addr>, untold: set<Addr>, kinds: set<Addr>, alive: set<Addr>, live: seq<Addr>, o: Addr, s: Addr)
    requires RootsOk(roots, untold, kinds, alive, live)
    ensures RootsOk(roots[Engine(o) := s], untold, kinds, alive, live)
  {
  }

  lemma GrantedEngines(roots: map<Root, Addr>, creator: map<Addr, Addr>, undone: set<Addr>, insts: set<Addr>,
                       chunks: set<Addr>, x: Hosted, notices: seq<Addr>, o: Addr, s: Addr)
    requires EnginesOk(roots, creator, undone, insts) && EventsOk(roots, undone, chunks, x, notices)
    requires o !in undone && o in notices && s in insts && s in creator && creator[s] == o
    ensures EnginesOk(roots[Engine(o) := s], creator, undone, insts)
    ensures EventsOk(roots[Engine(o) := s], undone, chunks, x, notices)
  {
  }

  lemma GrantedSound(h: Heap, o: Addr, s: Addr)
    requires Sound(h, multiset{}) && Engine(o) !in h.g.roots && s in h.g.refs
    ensures Sound(h.(g := Inc(h.g, s).(roots := h.g.roots[Engine(o) := s])), multiset{})
  {
    hide Shapes;
    RootBalanced(h.g, multiset{}, Engine(o), s);
    SameShapes(h, Inc(h.g, s).(roots := h.g.roots[Engine(o) := s]));
  }

  lemma SameShapes(h: Heap, g: Graph)
    requires Shapes(h) && g.inst == h.g.inst && g.resp == h.g.resp && g.refs.Keys == h.g.refs.Keys
    ensures Shapes(h.(g := g))
  {
  }

  function Granted(w: World, o: Addr, s: Addr): World {
    w.(h := w.h.(g := Inc(w.h.g, s).(roots := w.h.g.roots[Engine(o) := s])))
  }

  lemma GrantedBounded(w: World, o: Addr, s: Addr)
    requires Bounded(w) && s in w.h.g.refs && o < w.nextAddr
    ensures Bounded(Granted(w, o, s))
  {
  }

  lemma GrantedGood(w: World, o: Addr, s: Addr)
    requires Good(w) && o in w.q.notices && o !in w.h.tally.undone && Engine(o) !in w.h.g.roots && o < w.nextAddr
    requires s in w.h.money.charged && s in w.l.creator && w.l.creator[s] == o
    ensures Good(Granted(w, o, s))
  {
    CountedInstance(w.h, s);
    GrantedSound(w.h, o, s);
    GrantedRoots(w.h.g.roots, w.h.tally.untold, w.h.kinds.Keys, w.h.resps.alive, w.l.live, o, s);
    GrantedEngines(w.h.g.roots, w.l.creator, w.h.tally.undone, w.h.money.charged.Keys, w.h.resps.chunks, w.x, w.q.notices, o, s);
    GrantedBounded(w, o, s);
  }

  // -------------------------------------------------------------------------
  // hs_bridge_complete: an instance leaves the live list

  lemma {:induction false} WithoutIs(xs: seq<Addr>, x: Addr)
    requires NoDup(xs)
    ensures NoDup(Without(xs, x)) && forall y :: y in Without(xs, x) <==> y in xs && y != x
    ensures |Without(xs, x)| == |xs| - (if x in xs then 1 else 0)
  {
    if xs != [] {
      WithoutIs(xs[1..], x);
      if xs[0] != x {
        var rest := Without(xs[1..], x);
        assert xs[0] !in rest;
      }
    }
  }

  lemma UnlinkedRoots(roots: map<Root, Addr>, untold: set<Addr>, kinds: set<Addr>, alive: set<Addr>, live: seq<Addr>, s: Addr)
    requires RootsOk(roots, untold, kinds, alive, live) && NoDup(live)
    ensures RootsOk(roots - {Live(s)}, untold, kinds, alive, Without(live, s))
  {
    WithoutIs(live, s);
  }

  lemma UnlinkedRest(roots: map<Root, Addr>, creator: map<Addr, Addr>, undone: set<Addr>, insts: set<Addr>,
                     chunks: set<Addr>, x: Hosted, notices: seq<Addr>, s: Addr)
    requires EnginesOk(roots, creator, undone, insts) && EventsOk(roots, undone, chunks, x, notices)
    ensures EnginesOk(roots - {Live(s)}, creator, undone, insts) && EventsOk(roots - {Live(s)}, undone, chunks, x, notices)
  {
  }

  // Nothing that opens or closes the instance is still to be completed.
  ghost predicate Settled(kinds: map<Addr, int>, inst: map<Addr, Addr>, undone: set<Addr>, s: Addr) {
    forall o | o in undone && o in kinds && o in inst && (IsCreate(kinds[o]) || IsClose(kinds[o])) :: inst[o] != s
  }

  lemma UnlinkedLiving(kinds: map<Addr, int>, inst: map<Addr, Addr>, undone: set<Addr>, insts: set<Addr>, l: Life, s: Addr)
    requires Living(kinds, inst, undone, insts, l) && s in l.live && Settled(kinds, inst, undone, s)
    ensures Living(kinds, inst, undone, insts,
                   l.(live := Without(l.live, s), instances := l.instances - 1, closed := l.closed + {s}, closing := l.closing + {s}))
  {
    WithoutIs(l.live, s);
  }

  lemma UnlinkedThreaded(p: Threads, undone: set<Addr>, q: Queues, live: seq<Addr>, s: Addr)
    requires Threaded(p, undone, q, live)
    ensures Threaded(p, undone, q, Without(live, s))
  {
  }

  lemma UnlinkedBounded(w: World, s: Addr)
    requires Bounded(w) && s < w.nextAddr
    ensures Bounded(Unlinked(w, s))
  {
  }

  lemma LiveFacts(w: World, s: Addr)
    requires Good(w) && s in w.l.live
    ensures s in w.h.money.charged && Live(s) in w.h.g.roots && w.h.g.roots[Live(s)] == s && NoDup(w.l.live) && s < w.nextAddr
  {
  }

  lemma RetireGood(w: World, s: Addr)
    requires Good(w) && s in w.l.live && Settled(w.h.kinds, w.h.g.inst, w.h.tally.undone, s)
    ensures Good(Retire(w, s))
  {
    hide Shapes;
    LiveFacts(w, s);
    CutRootSound(w.h, Live(s), s);
    UnlinkedRoots(w.h.g.roots, w.h.tally.untold, w.h.kinds.Keys, w.h.resps.alive, w.l.live, s);
    UnlinkedRest(w.h.g.roots, w.l.creator, w.h.tally.undone, w.h.money.charged.Keys, w.h.resps.chunks, w.x, w.q.notices, s);
    UnlinkedLiving(w.h.kinds, w.h.g.inst, w.h.tally.undone, w.h.money.charged.Keys, w.l, s);
    UnlinkedThreaded(w.p, w.h.tally.undone, w.q, w.l.live, s);
    UnlinkedBounded(w, s);
    DropInstance(Unlinked(w, s), s);
  }

  // -------------------------------------------------------------------------
  // hs_bridge_complete as a whole.  The code retires or grants first and counts
  // the operation out afterwards; the instance survives its drop because the
  // operation still points to it, so the order does not matter.

  lemma HeldInstance(g: Graph, o: Addr, root: Root, s: Addr)
    requires Balanced(g, multiset{}) && o in g.inst && g.inst[o] == s && root in g.roots && g.roots[root] == s
    ensures s in g.refs && g.refs[s] > 1
  {
    assert o in Fiber(g.inst, g.inst.Keys, s);
    assert root in Fiber(g.roots, g.roots.Keys, s);
  }

  lemma RetireFirst(w: World, o: Addr, s: Addr)
    requires At(w.h.g.refs, s) > 1
    ensures Announce(Retire(w, s), o).(p := Drained(w.p)) == Retire(Announced(w, o), s)
  {
    var g := CutRoot(w.h.g, Live(s));
    assert InstDrop(w.h.(g := g), s) == w.h.(g := Dec(g, s));
    SettleGraph(w.h, Dec(g, s), o);
    SettleGraph(w.h, g, o);
    var t := Settle(w.h, o).(g := g);
    assert InstDrop(t, s) == t.(g := Dec(g, s));
  }

  lemma SettleGraph(h: Heap, g: Graph, o: Addr)
    requires g.inst == h.g.inst && g.resp == h.g.resp
    ensures Settle(h.(g := g), o) == Settle(h, o).(g := g)
  {
  }

  lemma GrantFirst(w: World, o: Addr)
    ensures Announce(GrantEngine(w, o), o).(p := Drained(w.p)) == Granted(Announced(w, o), o, At(w.h.g.inst, o))
  {
    var s := At(w.h.g.inst, o);
    SettleGraph(w.h, Inc(w.h.g, s).(roots := w.h.g.roots[Engine(o) := s]), o);
  }

  // What the operation that is being completed says about its instance.
  lemma OpeningFacts(w: World, o: Addr)
    requires Good(w) && o in w.h.tally.undone && o in w.h.kinds && o in w.h.g.inst && IsCreate(w.h.kinds[o])
    ensures var s := w.h.g.inst[o];
            && s in w.l.live && s in w.l.creator && w.l.creator[s] == o && Engine(o) !in w.h.g.roots
            && Settled(w.h.kinds, w.h.g.inst, w.h.tally.undone - {o}, s)
  {
  }

  lemma ClosingFacts(w: World, o: Addr)
    requires Good(w) && o in w.h.tally.undone && o in w.h.kinds && o in w.h.g.inst && IsClose(w.h.kinds[o])
    ensures var s := w.h.g.inst[o];
            s in w.l.live && Settled(w.h.kinds, w.h.g.inst, w.h.tally.undone - {o}, s)
  {
  }

  lemma RetiredGood(w: World, o: Addr, s: Addr)
    requires Good(w) && o in w.h.tally.undone && o !in w.q.commands
    requires w.p.owner.Draining? ==> w.p.owner.cur == [o]
    requires o in w.h.g.inst && w.h.g.inst[o] == s && s in w.l.live
    requires Settled(w.h.kinds, w.h.g.inst, w.h.tally.undone - {o}, s)
    ensures Good(Announce(Retire(w, s), o).(p := Drained(w.p)))
  {
    AnnouncedGood(w, o);
    SettleFields(w.h, o);
    LiveFacts(w, s);
    HeldInstance(w.h.g, o, Live(s), s);
    RetireGood(Announced(w, o), s);
    RetireFirst(w, o, s);
  }

  lemma GrantsGood(w: World, o: Addr)
    requires Good(w) && o in w.h.tally.undone && o !in w.q.commands && o in w.h.kinds && o in w.h.g.inst && IsCreate(w.h.kinds[o])
    requires w.p.owner.Draining? ==> w.p.owner.cur == [o]
    ensures Good(Announce(GrantEngine(w, o), o).(p := Drained(w.p)))
  {
    hide Sound, EventsOk, Threaded, Bounded, Living;
    OpFacts(w, o);
    OpeningFacts(w, o);
    AnnouncedGood(w, o);
    SettleFields(w.h, o);
    GrantedGood(Announced(w, o), o, w.h.g.inst[o]);
    GrantFirst(w, o);
  }

  lemma LeavesGood(w: World, o: Addr, kind: int, s: Addr)
    requires Good(w) && o in w.h.tally.undone && o !in w.q.commands
    requires w.p.owner.Draining? ==> w.p.owner.cur == [o]
    requires o in w.h.kinds && w.h.kinds[o] == kind && (IsCreate(kind) || IsClose(kind)) && o in w.h.g.inst && w.h.g.inst[o] == s
    ensures Good(Announce(Retire(w, s), o).(p := Drained(w.p)))
  {
    if IsCreate(kind) {
      OpeningFacts(w, o);
    } else {
      ClosingFacts(w, o);
    }
    RetiredGood(w, o, s);
  }

  lemma OutcomeIs(w: World, o: Addr, code: int, kind: int, s: Addr)
    requires At(w.h.kinds, o) == kind && At(w.h.g.inst, o) == s
    ensures Outcome(w, o, code) == if IsCreate(kind) && code == 0 then GrantEngine(w, o)
                                   else if IsCreate(kind) || IsClose(kind) then Retire(w, s)
                                   else w
  {
  }

  lemma OutcomeGood(w: World, o: Addr, code: int, v: World)
    requires Good(w) && o in w.h.tally.undone && o !in w.q.commands
    requires w.p.owner.Draining? ==> w.p.owner.cur == [o]
    requires v == Outcome(w, o, code)
    ensures Good(Announce(v, o).(p := Drained(w.p)))
  {
    OpFacts(w, o);
    var kind, s := w.h.kinds[o], w.h.g.inst[o];
    OutcomeIs(w, o, code, kind, s);
    if IsCreate(kind) && code == 0 {
      GrantsGood(w, o);
    } else if IsCreate(kind) || IsClose(kind) {
      LeavesGood(w, o, kind, s);
    } else {
      AnnouncedGood(w, o);
    }
  }

  lemma OutcomeThreads(w: World, o: Addr, code: int)
    ensures Announce(Outcome(w, o, code), o).p == w.p
  {
  }

  lemma CompleteGood(w: World, o: Addr, code: int)
    requires Good(w) && o in w.h.tally.undone && o !in w.q.commands
    requires w.p.owner.Draining? ==> w.p.owner.cur == [o]
    ensures Good(Complete(w, o, code).(p := Drained(w.p))) && Complete(w, o, code).p == w.p
  {
    var v := if code != 0 then DropEventResponse(w, o) else w;
    DropEventGood(w, o);
    DropEventKeeps(w, o);
    OutcomeGood(v, o, code, Outcome(v, o, code));
    OutcomeThreads(v, o, code);
    assert Complete(w, o, code) == Announce(Outcome(v, o, code), o);
  }

  lemma CompleteStepGood(w: World, o: Addr, code: int)
    requires Good(w) && (o in w.h.tally.undone ==> o !in w.q.commands && w.p.owner == InEntry)
    ensures Good(Complete(w, o, code))
  {
    if o in w.h.tally.undone {
      CompleteGood(w, o, code);
      var v := Complete(w, o, code);
      assert v.(p := Drained(w.p)) == v;
    }
  }

  // -------------------------------------------------------------------------
  // The tail of owner_main

  lemma DrainPopThreaded(p: Threads, undone: set<Addr>, q: Queues, live: seq<Addr>)
    requires Threaded(p, undone, q, live) && p.owner == Draining([]) && q.commands != []
    requires q.commands[0] in undone && q.commands[0] !in q.commands[1..]
    ensures Threaded(p.(owner := Draining([q.commands[0]])), undone, q.(commands := q.commands[1..]), live)
  {
    assert q.commands == [q.commands[0]] + q.commands[1..];
  }

  lemma DrainPopGood(w: World)
    requires Good(w) && w.p.owner == Draining([])
    ensures Good(DrainPop(w))
  {
    if w.q.commands != [] {
      PopQueued(w.h.tally.undone, w.h.tally.untold, w.q);
      DrainPopThreaded(w.p, w.h.tally.undone, w.q, w.l.live);
      assert Bounded(DrainPop(w));
    }
  }

  lemma DrainingFacts(p: Threads, undone: set<Addr>, q: Queues, live: seq<Addr>)
    requires Threaded(p, undone, q, live) && p.owner.Draining?
    ensures |p.owner.cur| <= 1 && forall o | o in p.owner.cur :: o in undone && o !in q.commands
    ensures q.commands == [] && p.owner.cur == [] ==> undone == {}
  {
    if q.commands == [] && p.owner.cur == [] {
      forall o ensures o !in undone {}
    }
  }

  lemma DrainOneGood(w: World, o: Addr)
    requires Good(w) && w.p.owner == Draining([o]) && o in w.h.tally.undone && o !in w.q.commands
    ensures Good(DrainComplete(w))
  {
    CompleteGood(w, o, 3);
    var v := DrainComplete(w);
    assert v == Complete(w, o, 3).(p := Drained(w.p));
  }

  lemma DrainedOp(p: Threads, undone: set<Addr>, q: Queues, live: seq<Addr>)
    requires Threaded(p, undone, q, live) && p.owner.Draining? && |p.owner.cur| == 1
    ensures var o := p.owner.cur[0]; p.owner == Draining([o]) && o in undone && o !in q.commands
  {
    var o := p.owner.cur[0];
    assert o in p.owner.cur && p.owner.cur == [o];
  }

  lemma DrainCompleteGood(w: World)
    requires Good(w) && w.p.owner.Draining?
    ensures Good(DrainComplete(w))
  {
    if |w.p.owner.cur| == 1 {
      DrainedOp(w.p, w.h.tally.undone, w.q, w.l.live);
      DrainOneGood(w, w.p.owner.cur[0]);
    }
  }

  lemma RetireKeeps(w: World, s: Addr)
    requires NoDup(w.l.live) && s in w.l.live
    ensures var v := Retire(w, s);
            && v.h.tally.undone == w.h.tally.undone && v.q == w.q && v.p == w.p && |v.l.live| == |w.l.live| - 1
  {
    WithoutIs(w.l.live, s);
  }

  lemma NothingToSettle(w: World, s: Addr)
    requires w.h.tally.undone == {}
    ensures Settled(w.h.kinds, w.h.g.inst, w.h.tally.undone, s)
  {
  }

  ghost predicate Quiesced(v: World, q: Queues, p: Threads) {
    Good(v) && v.h.tally.undone == {} && v.q == q && v.p == p
  }

  lemma RetireOneGood(w: World)
    requires Quiesced(w, w.q, w.p) && w.l.live != []
    ensures Quiesced(Retire(w, w.l.live[0]), w.q, w.p)
  {
    var s := w.l.live[0];
    LiveFacts(w, s);
    NothingToSettle(w, s);
    RetireGood(w, s);
    RetireKeeps(w, s);
  }

  ghost predicate Stable(good: iset<World>) {
    forall x | x in good && x.l.live != [] :: Retire(x, x.l.live[0]) in good
  }

  lemma {:induction false} RetireAllStays(good: iset<World>, w: World, n: nat)
    requires Stable(good) && w in good
    ensures RetireAll(w, n) in good
    decreases n
  {
    if n > 0 && w.l.live != [] {
      RetireAllStays(good, Retire(w, w.l.live[0]), n - 1);
    }
  }

  lemma {:induction false} RetireAllEmpties(w: World, n: nat)
    requires NoDup(w.l.live) && n == |w.l.live|
    ensures RetireAll(w, n).l.live == []
    decreases n
  {
    if n > 0 {
      RetireKeeps(w, w.l.live[0]);
      WithoutIs(w.l.live, w.l.live[0]);
      RetireAllEmpties(Retire(w, w.l.live[0]), n - 1);
    }
  }

  lemma QuiescedStable(q: Queues, p: Threads)
    ensures Stable(iset x: World | Quiesced(x, q, p))
  {
    hide Good;
    var good := iset x: World | Quiesced(x, q, p);
    forall x | x in good && x.l.live != [] ensures Retire(x, x.l.live[0]) in good {
      StaysQuiesced(x, q, p);
    }
  }

  lemma StaysQuiesced(x: World, q: Queues, p: Threads)
    requires Quiesced(x, q, p) && x.l.live != []
    ensures Quiesced(Retire(x, x.l.live[0]), q, p)
  {
    RetireOneGood(x);
  }

  /** After the live list is retired nothing is live and the invariant stands. */
  lemma RetireAllGood(w: World)
    requires Quiesced(w, w.q, w.p)
    ensures var v := RetireAll(w, |w.l.live|);
            Quiesced(v, w.q, w.p) && v.l.live == []
  {
    QuiescedStable(w.q, w.p);
    RetireAllStays((iset x: World | Quiesced(x, w.q, w.p)), w, |w.l.live|);
    LiveIsDistinct(w);
    RetireAllEmpties(w, |w.l.live|);
  }

  lemma LiveIsDistinct(w: World)
    requires Living(w.h.kinds, w.h.g.inst, w.h.tally.undone, w.h.money.charged.Keys, w.l)
    ensures NoDup(w.l.live)
  {
  }

  lemma DrainEndThreaded(p: Threads, undone: set<Addr>, q: Queues)
    requires Threaded(p, undone, q, []) && p.owner == Draining([]) && undone == {} && q.commands == []
    ensures Threaded(p.(owner := Returned, ownerDone := true), undone, q, [])
  {
  }

  lemma DrainEndGood(w: World)
    requires Good(w) && w.p.owner == Draining([]) && w.q.commands == []
    ensures Good(DrainEnd(w))
  {
    DrainingQuiesced(w);
    RetireAllGood(w);
    DrainedGood(RetireAll(w, |w.l.live|), w.q, w.p);
  }

  lemma DrainingQuiesced(w: World)
    requires Good(w) && w.p.owner == Draining([]) && w.q.commands == []
    ensures Quiesced(w, w.q, w.p)
  {
    DrainingFacts(w.p, w.h.tally.undone, w.q, w.l.live);
  }

  lemma DrainedGood(v: World, q: Queues, p: Threads)
    requires Quiesced(v, q, p) && v.l.live == [] && p.owner == Draining([]) && q.commands == []
    ensures Good(v.(p := v.p.(owner := Returned, ownerDone := true)))
  {
    DrainEndThreaded(v.p, v.h.tally.undone, v.q);
    ThreadsGood(v, v.p.(owner := Returned, ownerDone := true));
  }

  // -------------------------------------------------------------------------
  // The notifier

  // The handles that the event of o carries change hands.
  function HandedOver(x: Hosted, engine: bool, o: Addr): Hosted {
    Hosted(if engine then x.engines + {o} else x.engines,
           if o in x.evResp then x.resps + {x.evResp[o]} else x.resps,
           if o in x.evChunk then x.chunks + {x.evChunk[o]} else x.chunks,
           x.evResp - {o}, x.evChunk - {o})
  }

  lemma TakeEvents(roots: map<Root, Addr>, undone: set<Addr>, chunks: set<Addr>, x: Hosted, notices: seq<Addr>)
    requires EventsOk(roots, undone, chunks, x, notices) && notices != [] && notices[0] !in undone
    ensures EventsOk(roots, undone, chunks, HandedOver(x, Engine(notices[0]) in roots, notices[0]), notices[1..])
  {
    var o := notices[0];
    var y := HandedOver(x, Engine(o) in roots, o);
    assert notices == [o] + notices[1..];
    forall r | Handle(r) in roots && r !in y.resps ensures Delivered(y.evResp, r) {
      StillDelivered(x.evResp, o, r);
    }
    forall c | c in chunks && c !in y.chunks ensures Delivered(y.evChunk, c) {
      StillDelivered(x.evChunk, o, c);
    }
  }

  lemma StillDelivered(events: map<Addr, Addr>, o: Addr, v: Addr)
    requires Delivered(events, v) && (o in events ==> events[o] != v)
    ensures Delivered(events - {o}, v)
  {
    var k :| k in events && events[k] == v;
    assert k in events - {o} && (events - {o})[k] == v;
  }

  lemma TakeThreaded(p: Threads, undone: set<Addr>, q: Queues, live: seq<Addr>)
    requires Threaded(p, undone, q, live) && p.notifier == Serving && q.calling == [] && q.notices != []
    ensures Threaded(p, undone, q.(notices := q.notices[1..], calling := [q.notices[0]]), live)
  {
  }

  lemma TakeGood(w: World)
    requires Good(w) && w.p.notifier == Serving && w.q.calling == [] && w.q.notices != []
    ensures Good(Take(w))
  {
    TakeQueued(w.h.tally.undone, w.h.tally.untold, w.q);
    TakeEvents(w.h.g.roots, w.h.tally.undone, w.h.resps.chunks, w.x, w.q.notices);
    TakeThreaded(w.p, w.h.tally.undone, w.q, w.l.live);
    assert Bounded(Take(w));
  }

  function Untold(w: World, o: Addr): World {
    w.(h := Untell(w.h, o), q := w.q.(calling := [], called := w.q.called + [o]))
  }

  lemma UntellFields(h: Heap, o: Addr)
    ensures var t := Untell(h, o);
            && t.g.roots == h.g.roots - {Runtime(o)} && t.g.inst == h.g.inst && t.g.resp == h.g.resp && t.g.refs == h.g.refs
            && t.tally.undone == h.tally.undone && t.tally.untold == h.tally.untold - {o}
            && t.money == h.money && t.resps == h.resps && t.kinds == h.kinds
  {
  }

  lemma UntoldRoots(roots: map<Root, Addr>, untold: set<Addr>, kinds: set<Addr>, alive: set<Addr>, live: seq<Addr>, o: Addr)
    requires RootsOk(roots, untold, kinds, alive, live)
    ensures RootsOk(roots - {Runtime(o)}, untold - {o}, kinds, alive, live)
  {
  }

  lemma UntoldRest(roots: map<Root, Addr>, creator: map<Addr, Addr>, undone: set<Addr>, insts: set<Addr>,
                   chunks: set<Addr>, x: Hosted, notices: seq<Addr>, o: Addr)
    requires EnginesOk(roots, creator, undone, insts) && EventsOk(roots, undone, chunks, x, notices)
    ensures EnginesOk(roots - {Runtime(o)}, creator, undone, insts) && EventsOk(roots - {Runtime(o)}, undone, chunks, x, notices)
  {
  }

  lemma UntoldThreaded(p: Threads, undone: set<Addr>, q: Queues, live: seq<Addr>, o: Addr)
    requires Threaded(p, undone, q, live)
    ensures Threaded(p, undone, q.(calling := [], called := q.called + [o]), live)
  {
  }

  lemma UntoldBounded(w: World, o: Addr)
    requires Bounded(w)
    ensures Bounded(Untold(w, o))
  {
  }

  lemma UntellSound(h: Heap, o: Addr)
    requires Sound(h, multiset{}) && o in h.tally.untold && o !in h.tally.undone
    requires Runtime(o) in h.g.roots && h.g.roots[Runtime(o)] == o
    ensures Sound(Untell(h, o), multiset{o}) && o in h.kinds
  {
    CutRootBalanced(h.g, multiset{}, Runtime(o));
    assert multiset{} + multiset{o} == multiset{o};
    UntellTallied(h, o);
    assert Untell(h, o).tally.active.Keys == h.tally.active.Keys;
  }

  lemma RuntimeRoot(w: World, o: Addr)
    requires RootsOk(w.h.g.roots, w.h.tally.untold, w.h.kinds.Keys, w.h.resps.alive, w.l.live) && o in w.h.tally.untold
    ensures Runtime(o) in w.h.g.roots && w.h.g.roots[Runtime(o)] == o
  {
  }

  lemma ToldDrop(h: Heap, o: Addr)
    requires Sound(h, multiset{}) && o in h.tally.untold && o !in h.tally.undone
    requires Runtime(o) in h.g.roots && h.g.roots[Runtime(o)] == o
    ensures Sound(Tell(h, o), multiset{}) && Shrinks(Untell(h, o), Tell(h, o))
  {
    UntellSound(h, o);
    LastHostDrop(Untell(h, o), o);
  }

  lemma CalledDrop(w: World, o: Addr)
    requires Sound(w.h, multiset{}) && o in w.h.tally.untold && o !in w.h.tally.undone
    requires RootsOk(w.h.g.roots, w.h.tally.untold, w.h.kinds.Keys, w.h.resps.alive, w.l.live)
    ensures Sound(Tell(w.h, o), multiset{}) && Shrinks(Untell(w.h, o), Tell(w.h, o))
  {
    RuntimeRoot(w, o);
    ToldDrop(w.h, o);
  }

  lemma ToldGood(w: World)
    requires Good(w) && w.q.calling != []
    ensures Good(Told(w))
  {
    var o := w.q.calling[0];
    OneCalling(w);
    ToldQueued(w.h.tally.undone, w.h.tally.untold, w.q, o);
    CalledDrop(w, o);
    UntoldParts(w, o);
    UntoldBounded(w, o);
    ShrinkGood(Untold(w, o), Tell(w.h, o));
  }

  lemma OneCalling(w: World)
    requires Queued(w.h.tally.undone, w.h.tally.untold, w.q) && w.q.calling != []
    ensures w.q.calling == [w.q.calling[0]]
  {
  }

  // What the return of a callback keeps before the operation is dropped.
  lemma UntoldParts(w: World, o: Addr)
    requires Good(w) && Queued(w.h.tally.undone, w.h.tally.untold - {o}, w.q.(calling := [], called := w.q.called + [o]))
    ensures var v := Untold(w, o);
            && Queued(v.h.tally.undone, v.h.tally.untold, v.q)
            && RootsOk(v.h.g.roots, v.h.tally.untold, v.h.kinds.Keys, v.h.resps.alive, v.l.live)
            && EnginesOk(v.h.g.roots, v.l.creator, v.h.tally.undone, v.h.money.charged.Keys)
            && EventsOk(v.h.g.roots, v.h.tally.undone, v.h.resps.chunks, v.x, v.q.notices)
            && Living(v.h.kinds, v.h.g.inst, v.h.tally.undone, v.h.money.charged.Keys, v.l)
            && Threaded(v.p, v.h.tally.undone, v.q, v.l.live)
  {
    UntellFields(w.h, o);
    UntoldRoots(w.h.g.roots, w.h.tally.untold, w.h.kinds.Keys, w.h.resps.alive, w.l.live, o);
    UntoldRest(w.h.g.roots, w.l.creator, w.h.tally.undone, w.h.money.charged.Keys, w.h.resps.chunks, w.x, w.q.notices, o);
    UntoldThreaded(w.p, w.h.tally.undone, w.q, w.l.live, o);
  }
}
