/**
 Birth and bookkeeping of the objects of the C ABI: what new_op, create_async,
 hs_bridge_response, hs_bridge_chunk, hs_chunk_release and the two steps of a
 finished operation do to counts, accounts and pointers.
 */
module BridgeObjects {
  import opened Basics
  import opened Counting
  import opened BridgeHeap

  ghost predicate FreshAddr(h: Heap, x: Addr) {
    && x !in h.g.refs && x !in h.g.inst && x !in h.g.resp
    && Live(x) !in h.g.roots && Engine(x) !in h.g.roots && Handle(x) !in h.g.roots
    && Runtime(x) !in h.g.roots && Host(x) !in h.g.roots
  }

  // -------------------------------------------------------------------------
  // charge

  // charge() refuses above the instance's budget and above the global limit.
  predicate CanCharge(m: Money, s: Addr, n: int) {
    && n <= At(m.budget, s) && At(m.charged, s) <= At(m.budget, s) - n
    && n <= RETAIN_LIMIT && m.retained <= RETAIN_LIMIT - n
  }

  function Post(m: Money, k: Addr, s: Addr, n: nat): Money {
    var before := if k in m.ledger then m.ledger[k].amount else 0;
    m.(ledger := m.ledger[k := Entry(s, before + n)], charged := m.charged[s := At(m.charged, s) + n],
       retained := m.retained + n)
  }

  lemma PostAccounts(inst: map<Addr, Addr>, m: Money, k: Addr, s: Addr, n: nat)
    requires Accounts(inst, m) && s in m.charged && (k in inst ==> inst[k] == s)
    requires m.retained + n <= RETAIN_LIMIT
    ensures Accounts(inst[k := s], Post(m, k, s, n)) && Post(m, k, s, n).charged.Keys == m.charged.Keys
  {
    hide Sum;
    var p := Post(m, k, s, n);
    SumPut(m.charged, s, m.charged[s] + n);
    forall x | x in p.charged ensures p.charged[x] == Balance(p.ledger, x) {
      BalancePut(m.ledger, k, p.ledger[k], x);
    }
  }

  lemma LayoutPlus(ops: set<Addr>, alive: set<Addr>, chunks: set<Addr>, insts: set<Addr>,
                   owners: set<Addr>, counted: set<Addr>, x: Addr)
    requires Layout(ops, alive, chunks, insts, owners, counted) && x !in owners && x !in counted
    ensures Layout(ops + {x}, alive, chunks, insts, owners + {x}, counted + {x})
    ensures Layout(ops, alive + {x}, chunks, insts, owners + {x}, counted + {x})
    ensures Layout(ops, alive, chunks + {x}, insts, owners + {x}, counted)
    ensures Layout(ops, alive, chunks, insts + {x}, owners, counted + {x})
  {
  }

  // -------------------------------------------------------------------------
  // A new operation: the runtime's reference, the host's unless it is internal,
  // and pointers to its instance and perhaps to a response.

  function OpGraph(g: Graph, o: Addr, s: Addr, r: Option<Addr>, host: bool): Graph {
    var g1 := Inc(g, o).(roots := g.roots[Runtime(o) := o]);
    var g2 := if host then Inc(g1, o).(roots := g1.roots[Host(o) := o]) else g1;
    var g3 := Inc(g2, s).(inst := g2.inst[o := s]);
    if r.Some? then Inc(g3, r.value).(resp := g3.resp[o := r.value]) else g3
  }

  lemma OpGraphBalanced(g: Graph, o: Addr, s: Addr, r: Option<Addr>, host: bool)
    requires Balanced(g, multiset{}) && o !in g.refs && o !in g.inst && o !in g.resp
    requires Runtime(o) !in g.roots && Host(o) !in g.roots
    requires s in g.refs && (r.Some? ==> r.value in g.refs)
    ensures Balanced(OpGraph(g, o, s, r, host), multiset{})
  {
    var g1 := Inc(g, o).(roots := g.roots[Runtime(o) := o]);
    RootBalanced(g, multiset{}, Runtime(o), o);
    var g2 := if host then Inc(g1, o).(roots := g1.roots[Host(o) := o]) else g1;
    if host {
      RootBalanced(g1, multiset{}, Host(o), o);
    }
    InstEdgeBalanced(g2, multiset{}, o, s);
    var g3 := Inc(g2, s).(inst := g2.inst[o := s]);
    if r.Some? {
      RespEdgeBalanced(g3, multiset{}, o, r.value);
    }
  }

  function AddOp(h: Heap, o: Addr, kind: int, s: Addr, n: nat, r: Option<Addr>, host: bool): Heap {
    Heap(OpGraph(h.g, o, s, r, host),
         Post(h.money, o, s, n),
         h.tally.(undone := h.tally.undone + {o}, untold := h.tally.untold + {o},
                  active := h.tally.active[s := At(h.tally.active, s) + 1],
                  notes := h.tally.notes[s := At(h.tally.notes, s) + 1],
                  activeOps := h.tally.activeOps + 1),
         if kind == 4 && r.Some? then h.resps.(reading := h.resps.reading + {r.value}) else h.resps,
         h.kinds[o := kind])
  }

  // What the callers of new_op have established.
  ghost predicate OpAllowed(h: Heap, o: Addr, kind: int, s: Addr, n: nat, r: Option<Addr>) {
    && FreshAddr(h, o)
    && s in h.money.charged
    && h.money.retained + n <= RETAIN_LIMIT
    && (r.Some? ==> r.value in h.resps.alive && r.value in h.g.inst && h.g.inst[r.value] == s)
    && (kind == 4 ==> r.Some? && r.value !in h.resps.reading)
  }

  lemma AddOpTallied(h: Heap, o: Addr, kind: int, s: Addr, n: nat, r: Option<Addr>, host: bool)
    requires Tallied(h.g.inst, h.tally) && o !in h.g.inst && s in h.tally.active
    ensures var t := AddOp(h, o, kind, s, n, r, host);
            t.g.inst == h.g.inst[o := s] && Tallied(t.g.inst, t.tally)
  {
    var t := AddOp(h, o, kind, s, n, r, host);
    forall x | x in t.tally.active
      ensures t.tally.active[x] == Count(t.g.inst, t.tally.undone, x)
      ensures t.tally.notes[x] == Count(t.g.inst, t.tally.untold, x)
    {
      CountPut(h.g.inst, h.tally.undone, o, s, x);
      CountPut(h.g.inst, h.tally.untold, o, s, x);
    }
  }

  lemma AddOpReaders(h: Heap, o: Addr, kind: int, s: Addr, n: nat, r: Option<Addr>, host: bool)
    requires RespsOk(h.g.inst, h.g.resp, h.resps, h.tally.undone, h.kinds)
    requires OpAllowed(h, o, kind, s, n, r) && o !in h.tally.undone && o !in h.kinds
    ensures var t := AddOp(h, o, kind, s, n, r, host);
            forall x | x in h.resps.alive ::
              Count(t.g.resp, Readers(t.tally.undone, t.kinds), x) == if x in t.resps.reading then 1 else 0
  {
    hide Count, FreshAddr, At, Post;
    var t := AddOp(h, o, kind, s, n, r, host);
    var before := Readers(h.tally.undone, h.kinds);
    assert Readers(t.tally.undone, t.kinds) == if kind == 4 then before + {o} else before;
    forall x | x in h.resps.alive
      ensures Count(t.g.resp, Readers(t.tally.undone, t.kinds), x) == if x in t.resps.reading then 1 else 0
    {
      if kind == 4 {
        CountPut(h.g.resp, before, o, r.value, x);
      } else {
        CountFrame(h.g.resp, t.g.resp, before, x);
      }
    }
  }

  lemma AddOpCounts(h: Heap, o: Addr, kind: int, s: Addr, n: nat, r: Option<Addr>, host: bool)
    requires RespsOk(h.g.inst, h.g.resp, h.resps, h.tally.undone, h.kinds)
    requires o !in h.resps.alive && o !in h.resps.chunks
    ensures var t := AddOp(h, o, kind, s, n, r, host);
            && (forall x | x in h.resps.count :: h.resps.count[x] == Count(t.g.inst, h.resps.alive, x))
            && (forall x | x in h.resps.alive :: h.resps.chunkCount[x] == Count(t.g.resp, h.resps.chunks, x))
  {
    var t := AddOp(h, o, kind, s, n, r, host);
    forall x | x in h.resps.count ensures h.resps.count[x] == Count(t.g.inst, h.resps.alive, x) {
      CountFrame(h.g.inst, t.g.inst, h.resps.alive, x);
    }
    forall x | x in h.resps.alive ensures h.resps.chunkCount[x] == Count(t.g.resp, h.resps.chunks, x) {
      CountFrame(h.g.resp, t.g.resp, h.resps.chunks, x);
    }
  }

  lemma AddOpMaps(h: Heap, o: Addr, kind: int, s: Addr, n: nat, r: Option<Addr>, host: bool)
    ensures var t := AddOp(h, o, kind, s, n, r, host);
            && t.g.inst == h.g.inst[o := s]
            && t.g.resp == (if r.Some? then h.g.resp[o := r.value] else h.g.resp)
            && t.g.refs.Keys == h.g.refs.Keys + {o, s} + (if r.Some? then {r.value} else {})
            && t.money.charged.Keys == h.money.charged.Keys + {s}
            && t.money.budget == h.money.budget
  {
  }

  lemma PlusLinks(inst: map<Addr, Addr>, resp: map<Addr, Addr>, alive: set<Addr>, kinds: map<Addr, int>,
                  o: Addr, kind: int, s: Addr, r: Option<Addr>)
    requires resp.Keys <= inst.Keys && alive <= inst.Keys && o !in inst
    requires forall k | k in resp :: resp[k] in alive && inst[k] == inst[resp[k]]
    requires forall x | x in kinds && kinds[x] == 4 :: x in resp
    requires (r.Some? ==> r.value in alive && inst[r.value] == s) && (kind == 4 ==> r.Some?)
    ensures var inst', resp', kinds' := inst[o := s], (if r.Some? then resp[o := r.value] else resp), kinds[o := kind];
            && resp'.Keys <= inst'.Keys && resp.Keys <= resp'.Keys
            && (forall k | k in resp' :: resp'[k] in alive && inst'[k] == inst'[resp'[k]])
            && (forall x | x in kinds' && kinds'[x] == 4 :: x in resp')
  {
  }

  lemma AddOpRest(h: Heap, o: Addr, kind: int, s: Addr, n: nat, r: Option<Addr>, host: bool)
    ensures var t := AddOp(h, o, kind, s, n, r, host);
            && t.kinds == h.kinds[o := kind] && t.resps.alive == h.resps.alive && t.resps.chunks == h.resps.chunks
            && t.resps.chunkCount == h.resps.chunkCount && t.resps.count == h.resps.count
            && t.resps.reading == (if kind == 4 && r.Some? then h.resps.reading + {r.value} else h.resps.reading)
  {
  }

  lemma AddOpResps(h: Heap, o: Addr, kind: int, s: Addr, n: nat, r: Option<Addr>, host: bool)
    requires RespsOk(h.g.inst, h.g.resp, h.resps, h.tally.undone, h.kinds)
    requires OpAllowed(h, o, kind, s, n, r) && o !in h.tally.undone && o !in h.kinds
    ensures var t := AddOp(h, o, kind, s, n, r, host); RespsOk(t.g.inst, t.g.resp, t.resps, t.tally.undone, t.kinds)
  {
    AddOpMaps(h, o, kind, s, n, r, host);
    AddOpRest(h, o, kind, s, n, r, host);
    PlusLinks(h.g.inst, h.g.resp, h.resps.alive, h.kinds, o, kind, s, r);
    AddOpReaders(h, o, kind, s, n, r, host);
    AddOpCounts(h, o, kind, s, n, r, host);
  }

  lemma AddOpShapes(h: Heap, o: Addr, kind: int, s: Addr, n: nat, r: Option<Addr>, host: bool)
    requires Shapes(h) && OpAllowed(h, o, kind, s, n, r)
    ensures Shapes(AddOp(h, o, kind, s, n, r, host))
  {
    LayoutPlus(h.kinds.Keys, h.resps.alive, h.resps.chunks, h.money.charged.Keys, h.g.inst.Keys, h.g.refs.Keys, o);
    AddOpMaps(h, o, kind, s, n, r, host);
    AddOpLayout(h, o, kind, s, n, r, host);
    AddOpKeys(h, o, kind, s, n, r, host);
  }

  lemma AddOpKeys(h: Heap, o: Addr, kind: int, s: Addr, n: nat, r: Option<Addr>, host: bool)
    requires s in h.tally.active
    ensures var t := AddOp(h, o, kind, s, n, r, host);
            && t.tally.active.Keys == h.tally.active.Keys && t.tally.untold == h.tally.untold + {o}
            && t.resps.count == h.resps.count && t.resps.limit == h.resps.limit && t.resps.alive == h.resps.alive
            && t.kinds.Keys == h.kinds.Keys + {o}
  {
  }

  lemma AddOpLayout(h: Heap, o: Addr, kind: int, s: Addr, n: nat, r: Option<Addr>, host: bool)
    requires Layout(h.kinds.Keys + {o}, h.resps.alive, h.resps.chunks, h.money.charged.Keys, h.g.inst.Keys + {o}, h.g.refs.Keys + {o})
    requires s in h.money.charged && (r.Some? ==> r.value in h.resps.alive)
    ensures var t := AddOp(h, o, kind, s, n, r, host);
            && t.money.charged.Keys == h.money.charged.Keys
            && Layout(t.kinds.Keys, t.resps.alive, t.resps.chunks, t.money.charged.Keys, t.g.inst.Keys, t.g.refs.Keys)
  {
    hide OpGraph;
    AddOpMaps(h, o, kind, s, n, r, host);
    var t := AddOp(h, o, kind, s, n, r, host);
    assert t.g.refs.Keys == h.g.refs.Keys + {o};
    assert t.g.inst.Keys == h.g.inst.Keys + {o};
    assert t.kinds.Keys == h.kinds.Keys + {o};
  }

  lemma AddOpSound(h: Heap, o: Addr, kind: int, s: Addr, n: nat, r: Option<Addr>, host: bool)
    requires Sound(h, multiset{}) && OpAllowed(h, o, kind, s, n, r)
    ensures Sound(AddOp(h, o, kind, s, n, r, host), multiset{})
  {
    OpGraphBalanced(h.g, o, s, r, host);
    PostAccounts(h.g.inst, h.money, o, s, n);
    AddOpTallied(h, o, kind, s, n, r, host);
    AddOpResps(h, o, kind, s, n, r, host);
    AddOpShapes(h, o, kind, s, n, r, host);
  }

  // -------------------------------------------------------------------------
  // A new instance, known to the live list only

  function AddInst(h: Heap, s: Addr, budget: int, limit: int): Heap {
    Heap(Inc(h.g, s).(roots := h.g.roots[Live(s) := s]),
         h.money.(charged := h.money.charged[s := 0], budget := h.money.budget[s := budget]),
         h.tally.(active := h.tally.active[s := 0], notes := h.tally.notes[s := 0]),
         h.resps.(count := h.resps.count[s := 0], limit := h.resps.limit[s := limit]),
         h.kinds)
  }

  lemma AddInstAccounts(h: Heap, s: Addr, budget: int, limit: int)
    requires Accounts(h.g.inst, h.money) && s !in h.money.charged
    requires forall k | k in h.g.inst :: h.g.inst[k] != s
    ensures Accounts(h.g.inst, AddInst(h, s, budget, limit).money)
  {
    BalanceZero(h.money.ledger, s);
    SumPut(h.money.charged, s, 0);
  }

  lemma AddInstCounters(h: Heap, s: Addr, budget: int, limit: int)
    requires Tallied(h.g.inst, h.tally)
    requires RespsOk(h.g.inst, h.g.resp, h.resps, h.tally.undone, h.kinds)
    requires forall k | k in h.g.inst :: h.g.inst[k] != s
    ensures var t := AddInst(h, s, budget, limit);
            && Tallied(t.g.inst, t.tally)
            && RespsOk(t.g.inst, t.g.resp, t.resps, t.tally.undone, t.kinds)
  {
    var inst := h.g.inst;
    forall k | k in h.tally.untold && k in inst ensures inst[k] != s {}
    CountNone(inst, h.tally.untold, s);
    CountSub(inst, h.tally.undone, h.tally.untold, s);
    forall k | k in h.resps.alive && k in inst ensures inst[k] != s {}
    CountNone(inst, h.resps.alive, s);
  }

  lemma AddInstShapes(h: Heap, s: Addr, budget: int, limit: int)
    requires Shapes(h) && FreshAddr(h, s)
    ensures Shapes(AddInst(h, s, budget, limit))
  {
    LayoutPlus(h.kinds.Keys, h.resps.alive, h.resps.chunks, h.money.charged.Keys, h.g.inst.Keys, h.g.refs.Keys, s);
    AddInstKeys(h, s, budget, limit);
  }

  lemma AddInstKeys(h: Heap, s: Addr, budget: int, limit: int)
    ensures var t := AddInst(h, s, budget, limit);
            && t.money.charged.Keys == h.money.charged.Keys + {s} && t.money.budget.Keys == h.money.budget.Keys + {s}
            && t.tally.active.Keys == h.tally.active.Keys + {s} && t.resps.count.Keys == h.resps.count.Keys + {s}
            && t.resps.limit.Keys == h.resps.limit.Keys + {s} && t.g.refs.Keys == h.g.refs.Keys + {s}
            && t.g.inst == h.g.inst && t.g.resp == h.g.resp
  {
  }

  lemma AddInstSound(h: Heap, s: Addr, budget: int, limit: int)
    requires Sound(h, multiset{}) && FreshAddr(h, s)
    ensures Sound(AddInst(h, s, budget, limit), multiset{})
  {
    RootBalanced(h.g, multiset{}, Live(s), s);
    forall k | k in h.g.inst ensures h.g.inst[k] != s {}
    AddInstAccounts(h, s, budget, limit);
    AddInstCounters(h, s, budget, limit);
    AddInstShapes(h, s, budget, limit);
  }

  // -------------------------------------------------------------------------
  // A new response

  function AddResp(h: Heap, r: Addr, s: Addr, n: nat): Heap {
    var g1 := Inc(h.g, r).(roots := h.g.roots[Handle(r) := r]);
    h.(g := Inc(g1, s).(inst := g1.inst[r := s]),
       money := Post(h.money, r, s, n),
       resps := h.resps.(alive := h.resps.alive + {r}, chunkCount := h.resps.chunkCount[r := 0],
                         count := h.resps.count[s := At(h.resps.count, s) + 1]))
  }

  lemma FrameTallied(inst: map<Addr, Addr>, t: Tally, k: Addr, s: Addr)
    requires Tallied(inst, t) && k !in inst
    ensures Tallied(inst[k := s], t)
  {
    forall x | x in t.active
      ensures Count(inst[k := s], t.undone, x) == Count(inst, t.undone, x)
      ensures Count(inst[k := s], t.untold, x) == Count(inst, t.untold, x)
    {
      CountFrame(inst, inst[k := s], t.undone, x);
      CountFrame(inst, inst[k := s], t.untold, x);
    }
  }

  lemma AddRespCounts(h: Heap, r: Addr, s: Addr, n: nat)
    requires RespsOk(h.g.inst, h.g.resp, h.resps, h.tally.undone, h.kinds)
    requires r !in h.resps.alive && s in h.resps.count
    ensures var t := AddResp(h, r, s, n);
            && (forall x | x in t.resps.count :: t.resps.count[x] == Count(t.g.inst, t.resps.alive, x))
            && Count(h.g.resp, h.resps.chunks, r) == 0
            && Count(h.g.resp, Readers(h.tally.undone, h.kinds), r) == 0
  {
    var t := AddResp(h, r, s, n);
    forall k | k in h.g.resp ensures h.g.resp[k] != r {}
    CountNone(h.g.resp, h.resps.chunks, r);
    CountNone(h.g.resp, Readers(h.tally.undone, h.kinds), r);
    forall x | x in t.resps.count ensures t.resps.count[x] == Count(t.g.inst, t.resps.alive, x) {
      CountPut(h.g.inst, h.resps.alive, r, s, x);
    }
  }

  lemma AddRespResps(h: Heap, r: Addr, s: Addr, n: nat)
    requires RespsOk(h.g.inst, h.g.resp, h.resps, h.tally.undone, h.kinds)
    requires r !in h.g.inst && s in h.resps.count
    ensures var t := AddResp(h, r, s, n); RespsOk(t.g.inst, t.g.resp, t.resps, t.tally.undone, t.kinds)
  {
    AddRespCounts(h, r, s, n);
  }

  lemma AddRespShapes(h: Heap, r: Addr, s: Addr, n: nat)
    requires Shapes(h) && FreshAddr(h, r) && s in h.money.charged
    ensures Shapes(AddResp(h, r, s, n))
  {
    LayoutPlus(h.kinds.Keys, h.resps.alive, h.resps.chunks, h.money.charged.Keys, h.g.inst.Keys, h.g.refs.Keys, r);
    AddRespKeys(h, r, s, n);
  }

  lemma AddRespKeys(h: Heap, r: Addr, s: Addr, n: nat)
    requires s in h.money.charged && s in h.resps.count && s in h.g.refs
    ensures var t := AddResp(h, r, s, n);
            && t.g.refs.Keys == h.g.refs.Keys + {r} && t.g.inst.Keys == h.g.inst.Keys + {r}
            && t.g.inst == h.g.inst[r := s] && t.g.resp == h.g.resp
            && t.money.charged.Keys == h.money.charged.Keys && t.money.budget == h.money.budget
            && t.resps.count.Keys == h.resps.count.Keys
  {
  }

  lemma AddRespSound(h: Heap, r: Addr, s: Addr, n: nat)
    requires Sound(h, multiset{}) && FreshAddr(h, r) && s in h.money.charged
    requires h.money.retained + n <= RETAIN_LIMIT
    ensures Sound(AddResp(h, r, s, n), multiset{})
  {
    RootBalanced(h.g, multiset{}, Handle(r), r);
    InstEdgeBalanced(Inc(h.g, r).(roots := h.g.roots[Handle(r) := r]), multiset{}, r, s);
    PostAccounts(h.g.inst, h.money, r, s, n);
    FrameTallied(h.g.inst, h.tally, r, s);
    AddRespResps(h, r, s, n);
    AddRespShapes(h, r, s, n);
  }

  // hs_bridge_set_header: a response grows.
  function GrowResp(h: Heap, r: Addr, n: nat): Heap {
    h.(money := Post(h.money, r, At(h.g.inst, r), n))
  }

  lemma GrowRespSound(h: Heap, r: Addr, n: nat)
    requires Sound(h, multiset{}) && r in h.resps.alive && h.money.retained + n <= RETAIN_LIMIT
    ensures Sound(GrowResp(h, r, n), multiset{})
  {
    GrowAccounts(h, r, n);
    GrowShapes(h, r, n);
  }

  lemma GrowAccounts(h: Heap, r: Addr, n: nat)
    requires Accounts(h.g.inst, h.money) && Shapes(h) && r in h.g.inst && h.money.retained + n <= RETAIN_LIMIT
    ensures Accounts(h.g.inst, GrowResp(h, r, n).money)
    ensures GrowResp(h, r, n).money.charged.Keys == h.money.charged.Keys
  {
    PostAccounts(h.g.inst, h.money, r, h.g.inst[r], n);
    assert h.g.inst[r := h.g.inst[r]] == h.g.inst;
  }

  lemma GrowShapes(h: Heap, r: Addr, n: nat)
    requires Shapes(h) && Post(h.money, r, At(h.g.inst, r), n).charged.Keys == h.money.charged.Keys
    ensures Shapes(GrowResp(h, r, n))
  {
  }

  // -------------------------------------------------------------------------
  // A new chunk, and its release

  function AddChunk(h: Heap, c: Addr, s: Addr, r: Addr, n: nat): Heap {
    var g1 := Inc(h.g, s).(inst := h.g.inst[c := s]);
    h.(g := Inc(g1, r).(resp := g1.resp[c := r]),
       money := Post(h.money, c, s, n),
       resps := h.resps.(chunks := h.resps.chunks + {c},
                         chunkCount := h.resps.chunkCount[r := At(h.resps.chunkCount, r) + 1]))
  }

  lemma AddChunkResps(h: Heap, c: Addr, s: Addr, r: Addr, n: nat)
    requires RespsOk(h.g.inst, h.g.resp, h.resps, h.tally.undone, h.kinds) && Shapes(h)
    requires FreshAddr(h, c) && r in h.resps.alive && h.g.inst[r] == s && c !in h.tally.undone
    ensures var t := AddChunk(h, c, s, r, n); RespsOk(t.g.inst, t.g.resp, t.resps, t.tally.undone, t.kinds)
  {
    hide Shapes, Layout, Fiber;
    var t := AddChunk(h, c, s, r, n);
    forall x | x in h.resps.count ensures Count(t.g.inst, h.resps.alive, x) == Count(h.g.inst, h.resps.alive, x) {
      CountFrame(h.g.inst, t.g.inst, h.resps.alive, x);
    }
    forall x | x in h.resps.alive
      ensures t.resps.chunkCount[x] == Count(t.g.resp, t.resps.chunks, x)
      ensures Count(t.g.resp, Readers(h.tally.undone, h.kinds), x) == Count(h.g.resp, Readers(h.tally.undone, h.kinds), x)
    {
      CountPut(h.g.resp, h.resps.chunks, c, r, x);
      CountFrame(h.g.resp, t.g.resp, Readers(h.tally.undone, h.kinds), x);
    }
  }

  lemma AddChunkShapes(h: Heap, c: Addr, s: Addr, r: Addr, n: nat)
    requires Shapes(h) && FreshAddr(h, c) && s in h.money.charged && r in h.resps.alive
    ensures Shapes(AddChunk(h, c, s, r, n))
  {
    LayoutPlus(h.kinds.Keys, h.resps.alive, h.resps.chunks, h.money.charged.Keys, h.g.inst.Keys, h.g.refs.Keys, c);
    AddChunkKeys(h, c, s, r, n);
  }

  lemma AddChunkKeys(h: Heap, c: Addr, s: Addr, r: Addr, n: nat)
    requires s in h.money.charged && s in h.g.refs && r in h.g.refs
    ensures var t := AddChunk(h, c, s, r, n);
            && t.g.refs.Keys == h.g.refs.Keys && t.g.inst.Keys == h.g.inst.Keys + {c}
            && t.g.resp.Keys == h.g.resp.Keys + {c} && t.g.inst == h.g.inst[c := s]
            && t.money.charged.Keys == h.money.charged.Keys && t.money.budget == h.money.budget
  {
  }

  lemma AddChunkSound(h: Heap, c: Addr, s: Addr, r: Addr, n: nat)
    requires Sound(h, multiset{}) && FreshAddr(h, c) && r in h.resps.alive && h.g.inst[r] == s
    requires h.money.retained + n <= RETAIN_LIMIT
    ensures Sound(AddChunk(h, c, s, r, n), multiset{})
  {
    InstEdgeBalanced(h.g, multiset{}, c, s);
    RespEdgeBalanced(Inc(h.g, s).(inst := h.g.inst[c := s]), multiset{}, c, r);
    PostAccounts(h.g.inst, h.money, c, s, n);
    FrameTallied(h.g.inst, h.tally, c, s);
    AddChunkResps(h, c, s, r, n);
    AddChunkShapes(h, c, s, r, n);
  }

  function FreeChunk(h: Heap, c: Addr): Heap {
    var r := At(h.g.resp, c);
    h.(g := CutEdges(h.g, c), money := Uncharge(h.money, c),
       resps := h.resps.(chunks := h.resps.chunks - {c},
                         chunkCount := h.resps.chunkCount[r := At(h.resps.chunkCount, r) - 1]))
  }

  function ChunkDrop(h: Heap, c: Addr): Heap {
    InstDrop(RespDrop(FreeChunk(h, c), At(h.g.resp, c)), At(h.g.inst, c))
  }

  lemma FreeChunkResps(h: Heap, c: Addr)
    requires RespsOk(h.g.inst, h.g.resp, h.resps, h.tally.undone, h.kinds) && Shapes(h)
    requires c in h.resps.chunks
    ensures var t := FreeChunk(h, c); RespsOk(t.g.inst, t.g.resp, t.resps, t.tally.undone, t.kinds)
  {
    var t := FreeChunk(h, c);
    forall x | x in h.resps.count ensures Count(t.g.inst, h.resps.alive, x) == Count(h.g.inst, h.resps.alive, x) {
      CountFrame(h.g.inst, t.g.inst, h.resps.alive, x);
    }
    forall x | x in h.resps.alive
      ensures t.resps.chunkCount[x] == Count(t.g.resp, t.resps.chunks, x)
      ensures Count(t.g.resp, Readers(h.tally.undone, h.kinds), x) == Count(h.g.resp, Readers(h.tally.undone, h.kinds), x)
    {
      CountDel(h.g.resp, h.resps.chunks, c, x);
      CountFrame(h.g.resp, t.g.resp, Readers(h.tally.undone, h.kinds), x);
    }
  }

  lemma FreeChunkShapes(h: Heap, c: Addr)
    requires Shapes(h) && c in h.resps.chunks && At(h.g.resp, c) in h.resps.chunkCount
    requires Uncharge(h.money, c).charged.Keys == h.money.charged.Keys
    ensures Shapes(FreeChunk(h, c))
  {
    var t := FreeChunk(h, c);
    assert t.g.inst.Keys == h.g.inst.Keys - {c};
    assert t.g.resp.Keys <= h.g.resp.Keys;
  }

  lemma FreeChunkSound(h: Heap, c: Addr)
    requires Sound(h, multiset{}) && c in h.resps.chunks
    ensures Sound(FreeChunk(h, c), multiset{} + Edges(h.g, c))
  {
    CutEdgesBalanced(h.g, multiset{}, c);
    UnchargeAccounts(h.g.inst, h.money, c);
    CutTallied(h.g.inst, h.tally, c);
    FreeChunkResps(h, c);
    FreeChunkShapes(h, c);
  }

  lemma ChunkDropSound(h: Heap, c: Addr)
    requires Sound(h, multiset{}) && c in h.resps.chunks
    ensures Sound(ChunkDrop(h, c), multiset{})
  {
    var s, r := h.g.inst[c], h.g.resp[c];
    var t := FreeChunk(h, c);
    FreeChunkSound(h, c);
    EdgesOf(h.g, c, multiset{});
    TargetsOf(h, c);
    RespDropSound(t, multiset{} + multiset{s} + multiset{r}, r);
    PlusMinus(multiset{} + multiset{s}, r);
    var u := RespDrop(t, r);
    RespDropFrame(t, r);
    PendingInstance(u, multiset{} + multiset{s}, s);
    InstDropSound(u, multiset{} + multiset{s}, s);
    PlusMinus(multiset{}, s);
  }

  // -------------------------------------------------------------------------
  // The two steps that end an operation: a result (hs_bridge_complete) and the
  // return of its callback (notify_main).

  function Settle(h: Heap, o: Addr): Heap {
    var s := At(h.g.inst, o);
    h.(tally := h.tally.(undone := h.tally.undone - {o}, active := h.tally.active[s := At(h.tally.active, s) - 1]),
       resps := if At(h.kinds, o) == 4 && o in h.g.resp
                then h.resps.(reading := h.resps.reading - {h.g.resp[o]}) else h.resps)
  }

  lemma SettleReaders(h: Heap, o: Addr)
    requires RespsOk(h.g.inst, h.g.resp, h.resps, h.tally.undone, h.kinds)
    requires o in h.tally.undone && o in h.kinds
    ensures var t := Settle(h, o); RespsOk(t.g.inst, t.g.resp, t.resps, t.tally.undone, t.kinds)
  {
    var t := Settle(h, o);
    var before := Readers(h.tally.undone, h.kinds);
    assert Readers(t.tally.undone, h.kinds) == if h.kinds[o] == 4 then before - {o} else before;
    if h.kinds[o] == 4 {
      forall r | r in h.resps.alive
        ensures Count(h.g.resp, before - {o}, r) == if r in t.resps.reading then 1 else 0
      {
        CountDel(h.g.resp, before, o, r);
      }
    }
  }

  lemma SettleTallied(h: Heap, o: Addr)
    requires Tallied(h.g.inst, h.tally) && o in h.tally.undone && h.g.inst[o] in h.tally.active
    ensures Tallied(h.g.inst, Settle(h, o).tally)
  {
    var t := Settle(h, o);
    forall x | x in t.tally.active ensures t.tally.active[x] == Count(h.g.inst, t.tally.undone, x) {
      CountDel(h.g.inst, h.tally.undone, o, x);
    }
  }

  lemma SettleSound(h: Heap, o: Addr)
    requires Sound(h, multiset{}) && o in h.tally.undone
    ensures Sound(Settle(h, o), multiset{})
  {
    SettleReaders(h, o);
    SettleTallied(h, o);
    assert Settle(h, o).tally.active.Keys == h.tally.active.Keys;
  }

  // notifications--, active_ops--, and the runtime's reference is dropped.
  function Tell(h: Heap, o: Addr): Heap {
    OpDrop(Untell(h, o), o)
  }

  function Untell(h: Heap, o: Addr): Heap {
    var s := At(h.g.inst, o);
    h.(g := CutRoot(h.g, Runtime(o)),
       tally := h.tally.(untold := h.tally.untold - {o}, notes := h.tally.notes[s := At(h.tally.notes, s) - 1],
                         activeOps := h.tally.activeOps - 1))
  }

  lemma UntellTallied(h: Heap, o: Addr)
    requires Tallied(h.g.inst, h.tally) && o in h.tally.untold && o !in h.tally.undone && h.g.inst[o] in h.tally.notes
    ensures Tallied(h.g.inst, Untell(h, o).tally)
  {
    var t := Untell(h, o);
    forall x | x in t.tally.notes ensures t.tally.notes[x] == Count(h.g.inst, t.tally.untold, x) {
      CountDel(h.g.inst, h.tally.untold, o, x);
    }
  }
}
