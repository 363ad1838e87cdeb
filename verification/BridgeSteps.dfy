/**
 Every step of the C ABI runtime keeps the invariant, so it holds in every state
 that any interleaving of host, owner and notifier can reach.
 */
module BridgeSteps {
  import opened Basics
  import opened Counting
  import opened BridgeHeap
  import opened BridgeObjects
  import opened Bridge
  import opened BridgeOrder

  // -------------------------------------------------------------------------
  // Admission

  lemma NextIsFresh(w: World)
    requires Bounded(w)
    ensures FreshAddr(w.h, w.nextAddr) && w.nextAddr !in w.q.accepted
  {
  }

  lemma AdmitHeap(w: World, kind: int, s: Addr, n: nat, r: Option<Addr>, host: bool)
    requires Sound(w.h, multiset{}) && Bounded(w) && s in w.h.money.charged
    requires w.h.money.retained + OpCharge(w, kind) + n <= RETAIN_LIMIT
    requires r.Some? ==> r.value in w.h.resps.alive && w.h.g.inst[r.value] == s
    requires kind == 4 ==> r.Some? && r.value !in w.h.resps.reading
    ensures Sound(Admit(w, kind, s, n, r, host).h, multiset{})
  {
    hide AddOp, Bounded, FreshAddr, Balanced, Accounts, Tallied, Shapes;
    NextIsFresh(w);
    if r.Some? {
      RespInstance(w.h, r.value);
    }
    var o, charge := w.nextAddr, OpCharge(w, kind) + n;
    assert OpAllowed(w.h, o, kind, s, charge, r);
    AddOpSound(w.h, o, kind, s, charge, r, host);
  }

  function OpRoots(roots: map<Root, Addr>, o: Addr, host: bool): map<Root, Addr> {
    if host then roots[Runtime(o) := o][Host(o) := o] else roots[Runtime(o) := o]
  }

  lemma AdmitFields(w: World, kind: int, s: Addr, n: nat, r: Option<Addr>, host: bool)
    requires s in w.h.money.charged
    ensures var v := Admit(w, kind, s, n, r, host);
            && v.h.g.roots == OpRoots(w.h.g.roots, w.nextAddr, host)
            && v.h.tally.undone == w.h.tally.undone + {w.nextAddr} && v.h.tally.untold == w.h.tally.untold + {w.nextAddr}
            && v.h.kinds == w.h.kinds[w.nextAddr := kind] && v.h.kinds.Keys == w.h.kinds.Keys + {w.nextAddr}
            && v.h.resps.alive == w.h.resps.alive && v.h.resps.chunks == w.h.resps.chunks
            && v.h.money.charged.Keys == w.h.money.charged.Keys
            && v.h.g.inst == w.h.g.inst[w.nextAddr := s]
  {
  }

  lemma PlusOpRoots(roots: map<Root, Addr>, untold: set<Addr>, kinds: set<Addr>, alive: set<Addr>, live: seq<Addr>, o: Addr, host: bool)
    requires RootsOk(roots, untold, kinds, alive, live)
    ensures RootsOk(OpRoots(roots, o, host), untold + {o}, kinds + {o}, alive, live)
  {
  }

  lemma PlusOpEngines(roots: map<Root, Addr>, creator: map<Addr, Addr>, undone: set<Addr>, insts: set<Addr>, o: Addr, host: bool)
    requires EnginesOk(roots, creator, undone, insts) && Engine(o) !in roots
    ensures EnginesOk(OpRoots(roots, o, host), creator, undone + {o}, insts)
  {
  }

  lemma PlusOpEvents(roots: map<Root, Addr>, undone: set<Addr>, chunks: set<Addr>, x: Hosted, notices: seq<Addr>, o: Addr, host: bool)
    requires EventsOk(roots, undone, chunks, x, notices)
    ensures EventsOk(OpRoots(roots, o, host), undone + {o}, chunks, x, notices)
  {
  }

  lemma AdmitRoots(w: World, kind: int, s: Addr, n: nat, r: Option<Addr>, host: bool)
    requires RootsOk(w.h.g.roots, w.h.tally.untold, w.h.kinds.Keys, w.h.resps.alive, w.l.live)
    requires EnginesOk(w.h.g.roots, w.l.creator, w.h.tally.undone, w.h.money.charged.Keys) && Bounded(w) && s in w.h.money.charged
    requires EventsOk(w.h.g.roots, w.h.tally.undone, w.h.resps.chunks, w.x, w.q.notices)
    ensures var v := Admit(w, kind, s, n, r, host);
            && RootsOk(v.h.g.roots, v.h.tally.untold, v.h.kinds.Keys, v.h.resps.alive, w.l.live)
            && EnginesOk(v.h.g.roots, w.l.creator, v.h.tally.undone, v.h.money.charged.Keys)
            && EventsOk(v.h.g.roots, v.h.tally.undone, v.h.resps.chunks, v.x, v.q.notices)
  {
    AdmitFields(w, kind, s, n, r, host);
    PlusOpRoots(w.h.g.roots, w.h.tally.untold, w.h.kinds.Keys, w.h.resps.alive, w.l.live, w.nextAddr, host);
    PlusOpEngines(w.h.g.roots, w.l.creator, w.h.tally.undone, w.h.money.charged.Keys, w.nextAddr, host);
    PlusOpEvents(w.h.g.roots, w.h.tally.undone, w.h.resps.chunks, w.x, w.q.notices, w.nextAddr, host);
  }

  lemma OpRootsBounded(roots: map<Root, Addr>, o: Addr, host: bool)
    requires forall s | Live(s) in roots :: s < o
    requires forall e | Engine(e) in roots :: e < o
    requires forall r | Handle(r) in roots :: r < o
    requires forall x | Runtime(x) in roots :: x < o
    requires forall x | Host(x) in roots :: x < o
    ensures var t := OpRoots(roots, o, host);
            && (forall s | Live(s) in t :: s < o + 1)
            && (forall e | Engine(e) in t :: e < o + 1)
            && (forall r | Handle(r) in t :: r < o + 1)
            && (forall x | Runtime(x) in t :: x < o + 1)
            && (forall x | Host(x) in t :: x < o + 1)
  {
  }

  lemma AdmitRest(w: World, kind: int, s: Addr, n: nat, r: Option<Addr>, host: bool)
    ensures var v := Admit(w, kind, s, n, r, host);
            && v.q.accepted == w.q.accepted + {w.nextAddr} && v.l == w.l && v.nextAddr == w.nextAddr + 1
            && v.h.resps.released == w.h.resps.released
  {
  }

  lemma OpMapsBounded(h: Heap, t: Heap, o: Addr, s: Addr, r: Option<Addr>)
    requires t.g.inst == h.g.inst[o := s] && t.g.resp == (if r.Some? then h.g.resp[o := r.value] else h.g.resp)
    requires t.g.refs.Keys == h.g.refs.Keys + {o, s} + (if r.Some? then {r.value} else {})
    requires (forall k | k in h.g.refs :: k < o) && (forall k | k in h.g.inst :: k < o) && (forall k | k in h.g.resp :: k < o)
    requires s < o && (r.Some? ==> r.value < o)
    ensures (forall k | k in t.g.refs :: k < o + 1) && (forall k | k in t.g.inst :: k < o + 1) && (forall k | k in t.g.resp :: k < o + 1)
  {
    forall k | k in t.g.refs ensures k < o + 1 {
      assert k in t.g.refs.Keys;
    }
  }

  lemma AdmitBounded(w: World, kind: int, s: Addr, n: nat, r: Option<Addr>, host: bool)
    requires Bounded(w) && s in w.h.money.charged && s < w.nextAddr && (r.Some? ==> r.value < w.nextAddr)
    ensures Bounded(Admit(w, kind, s, n, r, host))
  {
    hide Admit;
    AdmitRest(w, kind, s, n, r, host);
    AdmitMapsBounded(w, kind, s, n, r, host);
    AdmitFields(w, kind, s, n, r, host);
    OpRootsBounded(w.h.g.roots, w.nextAddr, host);
  }

  lemma AdmitMapsBounded(w: World, kind: int, s: Addr, n: nat, r: Option<Addr>, host: bool)
    requires Bounded(w) && s < w.nextAddr && (r.Some? ==> r.value < w.nextAddr)
    ensures var g := Admit(w, kind, s, n, r, host).h.g;
            && (forall k | k in g.refs :: k < w.nextAddr + 1) && (forall k | k in g.inst :: k < w.nextAddr + 1)
            && (forall k | k in g.resp :: k < w.nextAddr + 1)
  {
    AddOpMaps(w.h, w.nextAddr, kind, s, OpCharge(w, kind) + n, r, host);
    OpMapsBounded(w.h, AddOp(w.h, w.nextAddr, kind, s, OpCharge(w, kind) + n, r, host), w.nextAddr, s, r);
  }

  lemma AdmitThreaded(p: Threads, undone: set<Addr>, q: Queues, live: seq<Addr>, o: Addr)
    requires Threaded(p, undone, q, live) && live != [] && o !in undone
    ensures Threaded(p, undone + {o}, q.(commands := q.commands + [o], accepted := q.accepted + {o}), live)
  {
  }

  // An operation that neither opens nor closes its instance.
  lemma PlusOpLiving(kinds: map<Addr, int>, inst: map<Addr, Addr>, undone: set<Addr>, insts: set<Addr>, l: Life, o: Addr, kind: int, s: Addr)
    requires Living(kinds, inst, undone, insts, l) && o !in kinds
    requires forall x | x in l.creator :: l.creator[x] != o
    requires !IsCreate(kind) && !IsClose(kind)
    ensures Living(kinds[o := kind], inst[o := s], undone + {o}, insts, l)
  {
  }

  lemma AdmitLiving(w: World, kind: int, s: Addr, n: nat, r: Option<Addr>, host: bool)
    requires Living(w.h.kinds, w.h.g.inst, w.h.tally.undone, w.h.money.charged.Keys, w.l) && Bounded(w)
    requires !IsCreate(kind) && !IsClose(kind) && s in w.h.money.charged && w.nextAddr !in w.h.kinds
    ensures var v := Admit(w, kind, s, n, r, host);
            Living(v.h.kinds, v.h.g.inst, v.h.tally.undone, v.h.money.charged.Keys, w.l)
  {
    AdmitFields(w, kind, s, n, r, host);
    PlusOpLiving(w.h.kinds, w.h.g.inst, w.h.tally.undone, w.h.money.charged.Keys, w.l, w.nextAddr, kind, s);
  }

  // What NewOpOk and a further CanCharge establish about the global limit.
  ghost predicate Affordable(w: World, kind: int, s: Addr, n: nat) {
    w.h.money.retained + OpCharge(w, kind) + n <= RETAIN_LIMIT
  }

  lemma AdmitQueue(w: World, kind: int, s: Addr, n: nat, r: Option<Addr>, host: bool)
    requires Queued(w.h.tally.undone, w.h.tally.untold, w.q) && Bounded(w)
    requires RootsOk(w.h.g.roots, w.h.tally.untold, w.h.kinds.Keys, w.h.resps.alive, w.l.live)
    ensures var v := Admit(w, kind, s, n, r, host);
            Queued(v.h.tally.undone, v.h.tally.untold, v.q)
  {
    assert Runtime(w.nextAddr) !in w.h.g.roots;
    AdmitQueued(w.h.tally.undone, w.h.tally.untold, w.q, w.nextAddr);
  }

  lemma OpenIsLive(w: World, s: Addr)
    requires Living(w.h.kinds, w.h.g.inst, w.h.tally.undone, w.h.money.charged.Keys, w.l)
    requires s in w.h.money.charged && s !in w.l.closing
    ensures s in w.l.live && w.l.live != []
  {
  }

  lemma InstanceBounds(w: World, s: Addr)
    requires Shapes(w.h) && Bounded(w) && (s in w.h.money.charged || s in w.h.resps.alive)
    ensures s < w.nextAddr && w.nextAddr !in w.h.kinds
  {
  }

  lemma AdmitGood(w: World, kind: int, s: Addr, n: nat, r: Option<Addr>, host: bool)
    requires Good(w) && s in w.h.money.charged && s !in w.l.closing
    requires Affordable(w, kind, s, n) && !IsCreate(kind) && !IsClose(kind)
    requires r.Some? ==> r.value in w.h.resps.alive && r.value in w.h.g.inst && w.h.g.inst[r.value] == s
    requires kind == 4 ==> r.Some? && r.value !in w.h.resps.reading
    ensures Good(Admit(w, kind, s, n, r, host))
  {
    NextIsFresh(w);
    InstanceBounds(w, s);
    if r.Some? { InstanceBounds(w, r.value); }
    OpenIsLive(w, s);
    AdmitHeap(w, kind, s, n, r, host);
    AdmitQueue(w, kind, s, n, r, host);
    AdmitRoots(w, kind, s, n, r, host);
    AdmitLiving(w, kind, s, n, r, host);
    FreshElsewhere(w.h, w.nextAddr);
    AdmitThreaded(w.p, w.h.tally.undone, w.q, w.l.live, w.nextAddr);
    AdmitBounded(w, kind, s, n, r, host);
  }

  // -------------------------------------------------------------------------
  // A rejected call leaves no trace

  lemma HostedOpGraph(g: Graph, o: Addr, s: Addr)
    requires o !in g.refs && s in g.refs && s != o
    ensures var a := OpGraph(g, o, s, None, true);
            && a.refs == g.refs[o := 2][s := g.refs[s] + 1] && a.inst == g.inst[o := s]
            && a.resp == g.resp && a.roots == g.roots[Runtime(o) := o][Host(o) := o]
  {
  }

  lemma AbandonRefs(refs: map<Addr, int>, o: Addr, s: Addr)
    requires o !in refs && s in refs && s != o
    ensures (refs[o := 2][s := refs[s] + 1][o := 1] - {o})[s := refs[s]] == refs
  {
  }

  lemma AbandonRoots(roots: map<Root, Addr>, o: Addr)
    requires Runtime(o) !in roots && Host(o) !in roots
    ensures roots[Runtime(o) := o][Host(o) := o] - {Runtime(o), Host(o)} == roots
  {
  }

  lemma AbandonGraph(g: Graph, o: Addr, s: Addr)
    requires o !in g.refs && o !in g.inst && o !in g.resp && s in g.refs && s != o && g.refs[s] > 0
    requires Runtime(o) !in g.roots && Host(o) !in g.roots
    ensures var a := OpGraph(g, o, s, None, true);
            var b := a.(roots := a.roots - {Runtime(o), Host(o)}, refs := a.refs[o := 1]);
            At(a.inst, o) == s && o !in a.resp && Dec(CutEdges(Dec(b, o), o), s) == g
  {
    HostedOpGraph(g, o, s);
    AbandonRefs(g.refs, o, s);
    AbandonRoots(g.roots, o);
    assert g.inst[o := s] - {o} == g.inst;
    assert g.resp - {o} == g.resp;
  }

  lemma AbandonMoney(m: Money, o: Addr, s: Addr, n: nat)
    requires o !in m.ledger && s in m.charged
    ensures Uncharge(Post(m, o, s, n), o) == m
  {
    var u := Uncharge(Post(m, o, s, n), o);
    assert u.ledger == m.ledger;
    assert u.charged == m.charged;
  }

  lemma AbandonTally(t: Tally, o: Addr, s: Addr)
    requires o !in t.undone && o !in t.untold && s in t.active && s in t.notes
    ensures t.(undone := t.undone + {o} - {o}, untold := t.untold + {o} - {o},
               active := t.active[s := t.active[s] + 1][s := t.active[s]],
               notes := t.notes[s := t.notes[s] + 1][s := t.notes[s]]) == t
  {
    assert t.undone + {o} - {o} == t.undone;
    assert t.untold + {o} - {o} == t.untold;
    assert t.active[s := t.active[s] + 1][s := t.active[s]] == t.active;
    assert t.notes[s := t.notes[s] + 1][s := t.notes[s]] == t.notes;
  }

  // Taking back an operation that nobody else holds, field by field.
  lemma AbandonHeap(a: Heap, o: Addr, s: Addr, b: Graph)
    requires b == a.g.(roots := a.g.roots - {Runtime(o), Host(o)}, refs := a.g.refs[o := 1])
    requires At(a.g.inst, o) == s && o !in a.g.resp && At(b.refs, s) > 1 && s != o
    ensures Abandon(a, o) ==
            Heap(Dec(CutEdges(Dec(b, o), o), s), Uncharge(a.money, o), Unborn(a, o, s).tally, a.resps, a.kinds - {o})
  {
    assert At(CutEdges(Dec(b, o), o).refs, s) == At(b.refs, s);
  }

  /** new_op followed by abandon gives back every byte, count and reference: the
      heap is exactly what it was before the call. */
  lemma AbandonUndoes(h: Heap, o: Addr, kind: int, s: Addr, n: nat)
    requires FreshAddr(h, o) && s in h.g.refs && h.g.refs[s] > 0 && s in h.money.charged
    requires o !in h.money.ledger && o !in h.kinds && o !in h.tally.untold && o !in h.tally.undone
    requires s in h.tally.active && s in h.tally.notes && kind != 4
    ensures Abandon(AddOp(h, o, kind, s, n, None, true), o) == h
  {
    hide Dec, OpGraph, Post;
    AbandonGraph(h.g, o, s);
    AbandonMoney(h.money, o, s, n);
    AbandonTally(h.tally, o, s);
    var a := AddOp(h, o, kind, s, n, None, true);
    HostedOpGraph(h.g, o, s);
    AbandonHeap(a, o, s, a.g.(roots := a.g.roots - {Runtime(o), Host(o)}, refs := a.g.refs[o := 1]));
    assert h.kinds[o := kind] - {o} == h.kinds;
  }

  lemma RejectedIsTick(w: World, kind: int, s: Addr, n: nat)
    requires FreshAddr(w.h, w.nextAddr) && s in w.h.g.refs && w.h.g.refs[s] > 0 && s in w.h.money.charged
    requires w.nextAddr !in w.h.money.ledger && w.nextAddr !in w.h.kinds
    requires w.nextAddr !in w.h.tally.untold && w.nextAddr !in w.h.tally.undone
    requires s in w.h.tally.active && s in w.h.tally.notes && kind != 4
    ensures Rejected(w, kind, s, n) == Tick(w)
  {
    hide Abandon, AddOp;
    AbandonUndoes(w.h, w.nextAddr, kind, s, OpCharge(w, kind) + n);
  }

  /** A call that is turned down after new_op changes nothing but the serial
      numbers. */
  lemma RejectedLeavesNoTrace(w: World, kind: int, s: Addr, n: nat)
    requires Sound(w.h, multiset{}) && FreshAddr(w.h, w.nextAddr) && s in w.h.money.charged && kind != 4
    ensures Rejected(w, kind, s, n) == Tick(w)
  {
    RejectedFacts(w.h, w.nextAddr, s);
    RejectedIsTick(w, kind, s, n);
  }

  lemma RejectedFacts(h: Heap, o: Addr, s: Addr)
    requires Sound(h, multiset{}) && s in h.money.charged && FreshAddr(h, o)
    ensures s in h.g.refs && h.g.refs[s] > 0 && s in h.tally.active && s in h.tally.notes
    ensures o !in h.money.ledger && o !in h.kinds && o !in h.tally.untold && o !in h.tally.undone
  {
    CountedInstance(h, s);
    FreshElsewhere(h, o);
  }

  lemma CountedInstance(h: Heap, s: Addr)
    requires Sound(h, multiset{}) && s in h.money.charged
    ensures s in h.g.refs && h.g.refs[s] > 0 && s in h.tally.active && s in h.tally.notes
  {
  }

  lemma FreshElsewhere(h: Heap, x: Addr)
    requires Sound(h, multiset{}) && FreshAddr(h, x)
    ensures x !in h.money.ledger && x !in h.kinds && x !in h.tally.untold && x !in h.tally.undone && x !in h.money.charged
  {
  }

  lemma TickGood(w: World)
    requires Good(w)
    ensures Good(Tick(w))
  {
  }

  // -------------------------------------------------------------------------
  // Host calls

  lemma EngineOf(w: World, e: Addr)
    requires Good(w) && e in w.x.engines
    ensures Engine(e) in w.h.g.roots && EngineInstance(w, e) in w.h.money.charged
    ensures EngineInstance(w, e) in w.l.creator && w.l.creator[EngineInstance(w, e)] == e && e !in w.h.tally.undone
  {
  }

  lemma SubmitAffordable(w: World, s: Addr, input: nat, memory: bool)
    requires SubmitVerdict(w, s, memory).Ok? && InputFits(w, 3, s, input)
    ensures Affordable(w, 3, s, input) && s !in w.l.closing
  {
  }

  lemma SubmitGood(w: World, s: Addr, input: nat, memory: bool, copied: bool)
    requires Good(w) && s in w.h.money.charged
    ensures Good(Submit(w, s, input, memory, copied).0)
  {
    if SubmitVerdict(w, s, memory).Ok? {
      var fits := InputFits(w, 3, s, input);
      if fits && copied {
        SubmitAffordable(w, s, input, memory);
        AdmitGood(w, 3, s, input, None, true);
      } else {
        NextIsFresh(w);
        RejectedLeavesNoTrace(w, 3, s, if fits then input else 0);
        TickGood(w);
      }
    }
  }

  lemma HandleOf(w: World, r: Addr)
    requires Good(w) && r in w.x.resps
    ensures Handle(r) in w.h.g.roots && w.h.g.roots[Handle(r)] == r && r in w.h.resps.alive
    ensures r in w.h.g.inst && w.h.g.inst[r] in w.h.money.charged
  {
    RespInstance(w.h, r);
  }

  lemma RespInstance(h: Heap, r: Addr)
    requires Shapes(h) && r in h.resps.alive
    ensures r in h.g.inst && h.g.inst[r] in h.money.charged
  {
  }

  lemma ReadAffordable(w: World, r: Addr, s: Addr, memory: bool)
    requires ReadVerdict(w, r, s, memory).Ok?
    ensures Affordable(w, 4, s, 0) && s !in w.l.closing && r !in w.h.resps.reading
  {
  }

  lemma ReadGood(w: World, r: Addr, memory: bool)
    requires Good(w) && r in w.x.resps
    ensures Good(Read(w, r, memory).0)
  {
    HandleOf(w, r);
    var s := w.h.g.inst[r];
    if ReadVerdict(w, r, s, memory).Ok? {
      ReadAffordable(w, r, s, memory);
      AdmitGood(w, 4, s, 0, Some(r), true);
    }
  }
}
