/**
 The objects behind the C ABI: instances, operations, responses and chunks, their
 reference counts, byte accounts and activity counters.  Memory is modelled one
 map per struct field; an object is allocated while it is a key, and freeing it
 removes the key.
 */
module BridgeHeap {
  import opened Counting

  const RETAIN_LIMIT: int := 67108864

  // What keeps an object alive besides the `instance` and `response` pointers of
  // other objects: the live list, a result handle (named by the operation that
  // produced it, or by the response), and the two references of an operation.
  datatype Root = Live(s: Addr) | Engine(o: Addr) | Handle(r: Addr) | Runtime(o: Addr) | Host(o: Addr)

  datatype Graph = Graph(refs: map<Addr, int>, inst: map<Addr, Addr>, resp: map<Addr, Addr>, roots: map<Root, Addr>)

  datatype Money = Money(ledger: map<Addr, Entry>, charged: map<Addr, int>, budget: map<Addr, int>, retained: int)

  // `undone`: operations without a result yet; `untold`: operations whose
  // callback has not returned yet.
  datatype Tally = Tally(undone: set<Addr>, untold: set<Addr>, active: map<Addr, int>, notes: map<Addr, int>, activeOps: int)

  datatype Resps = Resps(alive: set<Addr>, count: map<Addr, int>, limit: map<Addr, int>,
                         chunks: set<Addr>, chunkCount: map<Addr, int>, reading: set<Addr>, released: set<Addr>)

  datatype Heap = Heap(g: Graph, money: Money, tally: Tally, resps: Resps, kinds: map<Addr, int>)

  // -------------------------------------------------------------------------
  // Reference counts

  ghost function Holders(g: Graph, x: Addr): int {
    Count(g.inst, g.inst.Keys, x) + Count(g.resp, g.resp.Keys, x) + Count(g.roots, g.roots.Keys, x)
  }

  // Every count equals the number of holders, plus the drops still to come in
  // the running critical section; nothing points to a freed object.
  ghost predicate Balanced(g: Graph, pend: multiset<Addr>) {
    && (forall x | x in g.refs :: g.refs[x] == Holders(g, x) + pend[x] && g.refs[x] > 0)
    && (forall k | k in g.inst :: g.inst[k] in g.refs)
    && (forall k | k in g.resp :: g.resp[k] in g.refs)
    && (forall k | k in g.roots :: g.roots[k] in g.refs)
    && (forall x | x in pend :: x in g.refs)
  }

  // One reference less; the count of a freed object goes away.
  function Dec(g: Graph, x: Addr): Graph {
    if At(g.refs, x) > 1 then g.(refs := g.refs[x := g.refs[x] - 1]) else g.(refs := g.refs - {x})
  }

  function Inc(g: Graph, x: Addr): Graph {
    g.(refs := g.refs[x := At(g.refs, x) + 1])
  }

  function CutEdges(g: Graph, k: Addr): Graph {
    g.(inst := g.inst - {k}, resp := g.resp - {k})
  }

  function CutRoot(g: Graph, root: Root): Graph {
    g.(roots := g.roots - {root})
  }

  ghost function Edges(g: Graph, k: Addr): multiset<Addr> {
    (if k in g.inst then multiset{g.inst[k]} else multiset{})
    + (if k in g.resp then multiset{g.resp[k]} else multiset{})
  }

  lemma DecBalanced(g: Graph, pend: multiset<Addr>, x: Addr)
    requires Balanced(g, pend) && x in pend
    ensures Balanced(Dec(g, x), pend - multiset{x})
    ensures g.refs[x] == 1 ==> Holders(g, x) == 0
  {
    hide Count;
    var h := Dec(g, x);
    if g.refs[x] == 1 {
      forall k | k in g.inst ensures g.inst[k] != x { CountZero(g.inst, g.inst.Keys, x, k); }
      forall k | k in g.resp ensures g.resp[k] != x { CountZero(g.resp, g.resp.Keys, x, k); }
      forall k | k in g.roots ensures g.roots[k] != x { CountZero(g.roots, g.roots.Keys, x, k); }
    }
    forall y | y in h.refs
      ensures h.refs[y] == Holders(h, y) + (pend - multiset{x})[y] && h.refs[y] > 0
    {
      assert Holders(h, y) == Holders(g, y);
    }
  }

  lemma CutCount<K(!new)>(m: map<K, Addr>, k: K, x: Addr)
    ensures Count(m - {k}, (m - {k}).Keys, x) == Count(m, m.Keys, x) - (if k in m && m[k] == x then 1 else 0)
  {
    assert (m - {k}).Keys == m.Keys - {k};
    if k in m {
      CountDel(m, m.Keys, k, x);
    } else {
      assert m - {k} == m;
    }
  }

  lemma PutCount<K(!new)>(m: map<K, Addr>, k: K, v: Addr, x: Addr)
    requires k !in m
    ensures Count(m[k := v], m[k := v].Keys, x) == Count(m, m.Keys, x) + (if x == v then 1 else 0)
  {
    assert m[k := v].Keys == m.Keys + {k};
    CountPut(m, m.Keys, k, v, x);
  }

  lemma CutEdgesBalanced(g: Graph, pend: multiset<Addr>, k: Addr)
    requires Balanced(g, pend)
    ensures Balanced(CutEdges(g, k), pend + Edges(g, k))
  {
    var h := CutEdges(g, k);
    forall y | y in h.refs
      ensures h.refs[y] == Holders(h, y) + (pend + Edges(g, k))[y] && h.refs[y] > 0
    {
      CutCount(g.inst, k, y);
      CutCount(g.resp, k, y);
    }
  }

  lemma CutRootBalanced(g: Graph, pend: multiset<Addr>, root: Root)
    requires Balanced(g, pend) && root in g.roots
    ensures Balanced(CutRoot(g, root), pend + multiset{g.roots[root]})
  {
    var h := CutRoot(g, root);
    forall y | y in h.refs
      ensures h.refs[y] == Holders(h, y) + (pend + multiset{g.roots[root]})[y] && h.refs[y] > 0
    {
      CutCount(g.roots, root, y);
    }
  }

  // A new root, on an existing object or on one that is born with it.
  lemma RootBalanced(g: Graph, pend: multiset<Addr>, root: Root, x: Addr)
    requires Balanced(g, pend) && root !in g.roots
    requires x !in g.refs ==> Fresh(g, pend, x)
    ensures Balanced(Inc(g, x).(roots := g.roots[root := x]), pend)
  {
    var h := Inc(g, x).(roots := g.roots[root := x]);
    forall y | y in h.refs
      ensures h.refs[y] == Holders(h, y) + pend[y] && h.refs[y] > 0
    {
      PutCount(g.roots, root, x, y);
      if y == x && x !in g.refs {
        NoHolders(g, x);
      }
    }
  }

  ghost predicate Fresh(g: Graph, pend: multiset<Addr>, x: Addr) {
    && x !in g.refs && x !in g.inst && x !in g.resp && x !in pend
  }

  lemma NoHolders(g: Graph, x: Addr)
    requires x !in g.refs
    requires (forall k | k in g.inst :: g.inst[k] in g.refs)
    requires (forall k | k in g.resp :: g.resp[k] in g.refs)
    requires (forall k | k in g.roots :: g.roots[k] in g.refs)
    ensures Holders(g, x) == 0
  {
    forall k | k in g.inst ensures g.inst[k] != x {}
    forall k | k in g.resp ensures g.resp[k] != x {}
    CountNone(g.inst, g.inst.Keys, x);
    CountNone(g.resp, g.resp.Keys, x);
    CountNone(g.roots, g.roots.Keys, x);
  }

  lemma InstEdgeBalanced(g: Graph, pend: multiset<Addr>, k: Addr, s: Addr)
    requires Balanced(g, pend) && k !in g.inst && s in g.refs
    ensures Balanced(Inc(g, s).(inst := g.inst[k := s]), pend)
  {
    var h := Inc(g, s).(inst := g.inst[k := s]);
    forall y | y in h.refs
      ensures h.refs[y] == Holders(h, y) + pend[y] && h.refs[y] > 0
    {
      PutCount(g.inst, k, s, y);
    }
  }

  lemma RespEdgeBalanced(g: Graph, pend: multiset<Addr>, k: Addr, r: Addr)
    requires Balanced(g, pend) && k !in g.resp && r in g.refs
    ensures Balanced(Inc(g, r).(resp := g.resp[k := r]), pend)
  {
    var h := Inc(g, r).(resp := g.resp[k := r]);
    forall y | y in h.refs
      ensures h.refs[y] == Holders(h, y) + pend[y] && h.refs[y] > 0
    {
      PutCount(g.resp, k, r, y);
    }
  }

  // -------------------------------------------------------------------------
  // Byte accounts, activity counters, responses

  // What an instance is charged is what its operations, responses and chunks
  // hold; the process-wide total is the sum over instances, within the limit.
  ghost predicate Accounts(inst: map<Addr, Addr>, m: Money) {
    && m.ledger.Keys == inst.Keys
    && (forall k | k in inst :: m.ledger[k].account == inst[k])
    && (forall s | s in m.charged :: m.charged[s] == Balance(m.ledger, s))
    && m.retained == Sum(m.charged) <= RETAIN_LIMIT
  }

  ghost predicate Tallied(inst: map<Addr, Addr>, t: Tally) {
    && t.undone <= t.untold <= inst.Keys
    && t.active.Keys == t.notes.Keys
    && (forall s | s in t.active :: t.active[s] == Count(inst, t.undone, s))
    && (forall s | s in t.notes :: t.notes[s] == Count(inst, t.untold, s))
    && t.activeOps == |t.untold|
  }

  ghost function Readers(undone: set<Addr>, kinds: map<Addr, int>): set<Addr> {
    set o | o in undone && o in kinds && kinds[o] == 4
  }

  ghost predicate RespsOk(inst: map<Addr, Addr>, resp: map<Addr, Addr>, rs: Resps, undone: set<Addr>, kinds: map<Addr, int>) {
    && rs.alive <= inst.Keys && rs.chunks <= resp.Keys <= inst.Keys
    && rs.chunkCount.Keys == rs.alive && rs.reading <= rs.alive
    && (forall s | s in rs.count :: rs.count[s] == Count(inst, rs.alive, s))
    && (forall r | r in rs.alive :: rs.chunkCount[r] == Count(resp, rs.chunks, r))
    && (forall r | r in rs.alive :: Count(resp, Readers(undone, kinds), r) == if r in rs.reading then 1 else 0)
    && (forall k | k in resp :: resp[k] in rs.alive && inst[k] == inst[resp[k]])
    && (forall o | o in kinds && kinds[o] == 4 :: o in resp)
  }

  // Which addresses are what: the owners of an `instance` pointer are the
  // operations, responses and chunks; instances, operations and responses are
  // counted.
  ghost predicate Layout(ops: set<Addr>, alive: set<Addr>, chunks: set<Addr>, insts: set<Addr>,
                         owners: set<Addr>, counted: set<Addr>)
  {
    && owners == ops + alive + chunks
    && ops !! alive && ops !! chunks && alive !! chunks && insts !! owners
    && counted == ops + alive + insts
  }

  ghost predicate Shapes(h: Heap) {
    && Layout(h.kinds.Keys, h.resps.alive, h.resps.chunks, h.money.charged.Keys, h.g.inst.Keys, h.g.refs.Keys)
    && h.money.charged.Keys == h.money.budget.Keys == h.tally.active.Keys
    && h.money.charged.Keys == h.resps.count.Keys == h.resps.limit.Keys
    && h.tally.untold <= h.kinds.Keys && h.g.resp.Keys !! h.resps.alive
    && (forall k | k in h.g.inst :: h.g.inst[k] in h.money.charged)
  }

  ghost predicate Sound(h: Heap, pend: multiset<Addr>) {
    && Balanced(h.g, pend)
    && Accounts(h.g.inst, h.money)
    && Tallied(h.g.inst, h.tally)
    && RespsOk(h.g.inst, h.g.resp, h.resps, h.tally.undone, h.kinds)
    && Shapes(h)
  }

  // -------------------------------------------------------------------------
  // instance_drop

  function InstDrop(h: Heap, s: Addr): Heap {
    var h' := h.(g := Dec(h.g, s));
    if At(h.g.refs, s) > 1 then h' else ForgetInst(h', s)
  }

  function ForgetInst(h: Heap, s: Addr): Heap {
    h.(money := h.money.(charged := h.money.charged - {s}, budget := h.money.budget - {s}),
       tally := h.tally.(active := h.tally.active - {s}, notes := h.tally.notes - {s}),
       resps := h.resps.(count := h.resps.count - {s}, limit := h.resps.limit - {s}))
  }

  /** An instance is freed exactly when its last holder goes, and then it owes
      nothing: no bytes, no responses, no running or unannounced operations. */
  lemma FreedInstanceIsClean(h: Heap, s: Addr)
    requires Accounts(h.g.inst, h.money) && Tallied(h.g.inst, h.tally)
    requires RespsOk(h.g.inst, h.g.resp, h.resps, h.tally.undone, h.kinds) && Shapes(h)
    requires s in h.money.charged && Holders(h.g, s) == 0
    ensures h.money.charged[s] == h.resps.count[s] == h.tally.active[s] == h.tally.notes[s] == 0
  {
    forall k | k in h.g.inst ensures h.g.inst[k] != s { CountZero(h.g.inst, h.g.inst.Keys, s, k); }
    BalanceZero(h.money.ledger, s);
    CountNone(h.g.inst, h.resps.alive, s);
    CountNone(h.g.inst, h.tally.undone, s);
    CountNone(h.g.inst, h.tally.untold, s);
  }

  lemma ForgetAccounts(h: Heap, s: Addr)
    requires Accounts(h.g.inst, h.money) && s in h.money.charged && h.money.charged[s] == 0
    ensures Accounts(h.g.inst, ForgetInst(h, s).money)
  {
    SumDel(h.money.charged, s);
  }

  lemma ForgetShapes(h: Heap, g: Graph, s: Addr)
    requires Shapes(h) && s in h.money.charged
    requires g == h.g.(refs := h.g.refs - {s})
    requires forall k | k in h.g.inst :: h.g.inst[k] != s
    ensures Shapes(ForgetInst(h.(g := g), s))
  {
  }

  lemma ForgetRest(h: Heap, s: Addr)
    requires Tallied(h.g.inst, h.tally) && RespsOk(h.g.inst, h.g.resp, h.resps, h.tally.undone, h.kinds)
    ensures Tallied(h.g.inst, ForgetInst(h, s).tally)
    ensures RespsOk(h.g.inst, h.g.resp, ForgetInst(h, s).resps, h.tally.undone, h.kinds)
  {
  }

  lemma NobodyPointsTo(g: Graph, s: Addr)
    requires Holders(g, s) == 0
    ensures forall k | k in g.inst :: g.inst[k] != s
  {
    forall k | k in g.inst ensures g.inst[k] != s { CountZero(g.inst, g.inst.Keys, s, k); }
  }

  lemma DecShapes(h: Heap, s: Addr)
    requires Shapes(h) && At(h.g.refs, s) > 1
    ensures Shapes(h.(g := Dec(h.g, s)))
  {
    assert Dec(h.g, s).refs.Keys == h.g.refs.Keys;
  }

  lemma InstDropSound(h: Heap, pend: multiset<Addr>, s: Addr)
    requires Sound(h, pend) && s in pend && s in h.money.charged
    ensures Sound(InstDrop(h, s), pend - multiset{s})
  {
    DecBalanced(h.g, pend, s);
    if At(h.g.refs, s) > 1 {
      DecShapes(h, s);
    } else {
      FreedInstanceIsClean(h, s);
      NobodyPointsTo(h.g, s);
      ForgetAccounts(h, s);
      ForgetRest(h, s);
      ForgetShapes(h, Dec(h.g, s), s);
    }
  }

  // -------------------------------------------------------------------------
  // Freeing an operation, a response or a chunk

  function Uncharge(m: Money, k: Addr): Money {
    if k in m.ledger then
      var e := m.ledger[k];
      m.(ledger := m.ledger - {k}, charged := m.charged[e.account := At(m.charged, e.account) - e.amount],
         retained := m.retained - e.amount)
    else m
  }

  lemma UnchargeAccounts(inst: map<Addr, Addr>, m: Money, k: Addr)
    requires Accounts(inst, m) && k in inst && inst[k] in m.charged
    ensures Accounts(inst - {k}, Uncharge(m, k))
    ensures Uncharge(m, k).charged.Keys == m.charged.Keys
  {
    hide Sum;
    var e := m.ledger[k];
    var n := Uncharge(m, k);
    SumPut(m.charged, e.account, m.charged[e.account] - e.amount);
    forall s | s in n.charged ensures n.charged[s] == Balance(n.ledger, s) {
      BalanceDel(m.ledger, k, s);
    }
  }

  lemma CutTallied(inst: map<Addr, Addr>, t: Tally, k: Addr)
    requires Tallied(inst, t) && k !in t.untold
    ensures Tallied(inst - {k}, t)
  {
    forall s | s in t.active
      ensures Count(inst - {k}, t.undone, s) == Count(inst, t.undone, s)
      ensures Count(inst - {k}, t.untold, s) == Count(inst, t.untold, s)
    {
      CountFrame(inst, inst - {k}, t.undone, s);
      CountFrame(inst, inst - {k}, t.untold, s);
    }
  }

  // -------------------------------------------------------------------------
  // response_drop

  function RespDrop(h: Heap, r: Addr): Heap {
    if At(h.g.refs, r) > 1 then h.(g := Dec(h.g, r)) else InstDrop(FreeResp(h, r), At(h.g.inst, r))
  }

  function FreeResp(h: Heap, r: Addr): Heap {
    var s := At(h.g.inst, r);
    h.(g := CutEdges(Dec(h.g, r), r),
       money := Uncharge(h.money, r),
       resps := h.resps.(alive := h.resps.alive - {r}, chunkCount := h.resps.chunkCount - {r},
                         count := h.resps.count[s := At(h.resps.count, s) - 1]))
  }

  lemma FreeRespResps(h: Heap, r: Addr)
    requires RespsOk(h.g.inst, h.g.resp, h.resps, h.tally.undone, h.kinds) && Shapes(h)
    requires r in h.resps.alive && Holders(h.g, r) == 0
    ensures var t := FreeResp(h, r);
            t.g.resp == h.g.resp && RespsOk(t.g.inst, t.g.resp, t.resps, t.tally.undone, t.kinds)
  {
    hide Layout, Count;
    var t := FreeResp(h, r);
    assert t.g.resp == h.g.resp;
    forall k | k in h.g.resp ensures h.g.resp[k] != r { CountZero(h.g.resp, h.g.resp.Keys, r, k); }
    CountNone(h.g.resp, Readers(h.tally.undone, h.kinds), r);
    FreeRespCount(h, r);
  }

  lemma FreeRespCount(h: Heap, r: Addr)
    requires r in h.resps.alive && r in h.g.inst && h.g.inst[r] in h.resps.count
    requires forall s | s in h.resps.count :: h.resps.count[s] == Count(h.g.inst, h.resps.alive, s)
    ensures var t := FreeResp(h, r);
            forall s | s in t.resps.count :: t.resps.count[s] == Count(t.g.inst, t.resps.alive, s)
  {
    var t := FreeResp(h, r);
    forall s | s in t.resps.count ensures t.resps.count[s] == Count(t.g.inst, t.resps.alive, s) {
      CountDel(h.g.inst, h.resps.alive, r, s);
    }
  }

  lemma FreeRespShapes(h: Heap, r: Addr)
    requires Shapes(h) && r in h.resps.alive && At(h.g.refs, r) <= 1
    requires Uncharge(h.money, r).charged.Keys == h.money.charged.Keys
    ensures Shapes(FreeResp(h, r))
  {
    var t := FreeResp(h, r);
    assert t.g.inst.Keys == h.g.inst.Keys - {r};
    assert t.g.resp.Keys <= h.g.resp.Keys;
  }

  lemma FreeRespSound(h: Heap, pend: multiset<Addr>, r: Addr)
    requires Sound(h, pend) && r in pend && r in h.resps.alive && h.g.refs[r] == 1
    ensures Sound(FreeResp(h, r), pend - multiset{r} + multiset{h.g.inst[r]})
  {
    DecBalanced(h.g, pend, r);
    CutEdgesBalanced(Dec(h.g, r), pend - multiset{r}, r);
    assert Edges(h.g, r) == multiset{h.g.inst[r]};
    UnchargeAccounts(h.g.inst, h.money, r);
    CutTallied(h.g.inst, h.tally, r);
    FreeRespResps(h, r);
    FreeRespShapes(h, r);
  }

  lemma PlusMinus(pend: multiset<Addr>, x: Addr)
    ensures pend + multiset{x} - multiset{x} == pend
  {
  }

  lemma LastRespDropSound(h: Heap, pend: multiset<Addr>, r: Addr)
    requires Sound(h, pend) && r in pend && r in h.resps.alive && h.g.refs[r] == 1
    ensures Sound(RespDrop(h, r), pend - multiset{r})
  {
    hide Balanced;
    var s, rest := h.g.inst[r], pend - multiset{r};
    FreeRespSound(h, pend, r);
    var t := FreeResp(h, r);
    assert s in t.money.charged;
    InstDropSound(t, rest + multiset{s}, s);
    PlusMinus(rest, s);
  }

  lemma RespDropSound(h: Heap, pend: multiset<Addr>, r: Addr)
    requires Sound(h, pend) && r in pend && r in h.resps.alive
    ensures Sound(RespDrop(h, r), pend - multiset{r})
  {
    if At(h.g.refs, r) > 1 {
      DecBalanced(h.g, pend, r);
      DecShapes(h, r);
    } else {
      LastRespDropSound(h, pend, r);
    }
  }

  // -------------------------------------------------------------------------
  // op_drop

  function OpDrop(h: Heap, o: Addr): Heap {
    if At(h.g.refs, o) > 1 then h.(g := Dec(h.g, o))
    else
      var t := FreeOp(h, o);
      InstDrop(if o in h.g.resp then RespDrop(t, h.g.resp[o]) else t, At(h.g.inst, o))
  }

  function FreeOp(h: Heap, o: Addr): Heap {
    h.(g := CutEdges(Dec(h.g, o), o), money := Uncharge(h.money, o), kinds := h.kinds - {o})
  }

  lemma FreeOpResps(h: Heap, o: Addr)
    requires RespsOk(h.g.inst, h.g.resp, h.resps, h.tally.undone, h.kinds) && Shapes(h)
    requires o in h.kinds && o !in h.tally.undone
    ensures var t := FreeOp(h, o); RespsOk(t.g.inst, t.g.resp, t.resps, t.tally.undone, t.kinds)
  {
    var t := FreeOp(h, o);
    assert Readers(h.tally.undone, t.kinds) == Readers(h.tally.undone, h.kinds);
    forall s | s in h.resps.count ensures Count(t.g.inst, h.resps.alive, s) == Count(h.g.inst, h.resps.alive, s) {
      CountFrame(h.g.inst, t.g.inst, h.resps.alive, s);
    }
    forall r | r in h.resps.alive
      ensures Count(t.g.resp, h.resps.chunks, r) == Count(h.g.resp, h.resps.chunks, r)
      ensures Count(t.g.resp, Readers(h.tally.undone, h.kinds), r) == Count(h.g.resp, Readers(h.tally.undone, h.kinds), r)
    {
      CountFrame(h.g.resp, t.g.resp, h.resps.chunks, r);
      CountFrame(h.g.resp, t.g.resp, Readers(h.tally.undone, h.kinds), r);
    }
  }

  lemma FreeOpShapes(h: Heap, o: Addr)
    requires Shapes(h) && o in h.kinds && o !in h.tally.untold && At(h.g.refs, o) <= 1
    requires Uncharge(h.money, o).charged.Keys == h.money.charged.Keys
    ensures Shapes(FreeOp(h, o))
  {
    var t := FreeOp(h, o);
    assert t.g.inst.Keys == h.g.inst.Keys - {o};
    assert t.g.resp.Keys <= h.g.resp.Keys;
  }

  lemma FreeOpSound(h: Heap, pend: multiset<Addr>, o: Addr)
    requires Sound(h, pend) && o in pend && o in h.kinds && o !in h.tally.untold && h.g.refs[o] == 1
    ensures Sound(FreeOp(h, o), pend - multiset{o} + Edges(h.g, o))
  {
    DecBalanced(h.g, pend, o);
    CutEdgesBalanced(Dec(h.g, o), pend - multiset{o}, o);
    assert Edges(Dec(h.g, o), o) == Edges(h.g, o);
    UnchargeAccounts(h.g.inst, h.money, o);
    CutTallied(h.g.inst, h.tally, o);
    FreeOpResps(h, o);
    FreeOpShapes(h, o);
  }

  lemma RespDropFrame(h: Heap, r: Addr)
    ensures var t := RespDrop(h, r);
            && t.kinds == h.kinds && t.resps.alive <= h.resps.alive && t.resps.chunks == h.resps.chunks
            && t.tally.undone == h.tally.undone && t.tally.untold == h.tally.untold
            && t.tally.activeOps == h.tally.activeOps && t.g.roots == h.g.roots
            && t.resps.reading == h.resps.reading && t.resps.released == h.resps.released
  {
  }

  lemma PendingInstance(h: Heap, pend: multiset<Addr>, s: Addr)
    requires Sound(h, pend) && s in pend && s !in h.kinds && s !in h.resps.alive
    ensures s in h.money.charged
  {
  }

  lemma EdgesOf(g: Graph, k: Addr, rest: multiset<Addr>)
    requires k in g.inst
    ensures k !in g.resp ==> rest + Edges(g, k) == rest + multiset{g.inst[k]}
    ensures k in g.resp ==> rest + Edges(g, k) == rest + multiset{g.inst[k]} + multiset{g.resp[k]}
  {
  }

  // What Shapes says about the targets of an operation or a chunk.
  lemma TargetsOf(h: Heap, k: Addr)
    requires Shapes(h) && k in h.g.inst
    ensures var s := h.g.inst[k]; s in h.money.charged && s !in h.kinds && s !in h.resps.alive && s !in h.resps.chunks
    ensures RespsOk(h.g.inst, h.g.resp, h.resps, h.tally.undone, h.kinds) && k in h.g.resp ==>
              h.g.resp[k] in h.resps.alive && h.g.resp[k] != k
  {
  }

  lemma LastOpDropSound(h: Heap, pend: multiset<Addr>, o: Addr)
    requires Sound(h, pend) && o in pend && o in h.kinds && o !in h.tally.untold && h.g.refs[o] == 1
    requires o !in h.g.resp
    ensures Sound(OpDrop(h, o), pend - multiset{o})
  {
    var s, rest := h.g.inst[o], pend - multiset{o};
    FreeOpSound(h, pend, o);
    EdgesOf(h.g, o, rest);
    var t := FreeOp(h, o);
    TargetsOf(h, o);
    PendingInstance(t, rest + multiset{s}, s);
    InstDropSound(t, rest + multiset{s}, s);
    PlusMinus(rest, s);
  }

  lemma FreeOpOfResponse(h: Heap, pend: multiset<Addr>, o: Addr)
    requires Sound(h, pend) && o in pend && o in h.kinds && o !in h.tally.untold && h.g.refs[o] == 1
    requires o in h.g.resp
    ensures var s, r := h.g.inst[o], h.g.resp[o];
            var t := FreeOp(h, o);
            && Sound(t, pend - multiset{o} + multiset{s} + multiset{r})
            && r in t.resps.alive && s !in t.kinds && s !in t.resps.alive
  {
    FreeOpSound(h, pend, o);
    EdgesOf(h.g, o, pend - multiset{o});
    TargetsOf(h, o);
  }

  lemma LastOpDropOfResponse(h: Heap, pend: multiset<Addr>, o: Addr)
    requires Sound(h, pend) && o in pend && o in h.kinds && o !in h.tally.untold && h.g.refs[o] == 1
    requires o in h.g.resp
    ensures Sound(OpDrop(h, o), pend - multiset{o})
  {
    hide Balanced;
    var s, r, rest := h.g.inst[o], h.g.resp[o], pend - multiset{o};
    FreeOpOfResponse(h, pend, o);
    var t := FreeOp(h, o);
    RespDropSound(t, rest + multiset{s} + multiset{r}, r);
    PlusMinus(rest + multiset{s}, r);
    var u := RespDrop(t, r);
    RespDropFrame(t, r);
    PendingInstance(u, rest + multiset{s}, s);
    InstDropSound(u, rest + multiset{s}, s);
    PlusMinus(rest, s);
  }

  lemma OpDropSound(h: Heap, pend: multiset<Addr>, o: Addr)
    requires Sound(h, pend) && o in pend && o in h.kinds && o !in h.tally.untold
    ensures Sound(OpDrop(h, o), pend - multiset{o})
  {
    if At(h.g.refs, o) > 1 {
      DecBalanced(h.g, pend, o);
      DecShapes(h, o);
    } else if o in h.g.resp {
      LastOpDropOfResponse(h, pend, o);
    } else {
      LastOpDropSound(h, pend, o);
    }
  }
}
