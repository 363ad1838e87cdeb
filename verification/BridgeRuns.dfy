/**
 Whole runs of the C ABI runtime: the invariant in every reachable state, and
 what it means for counts, bytes, callbacks, generations and leaks.
 */
module BridgeRuns {
  import opened Basics
  import opened Counting
  import opened BridgeHeap
  import opened BridgeObjects
  import opened Bridge
  import opened BridgeOrder
  import opened BridgeSteps
  import opened BridgeHost
  import opened BridgeOwner

  // -------------------------------------------------------------------------
  // Every step keeps the invariant

  predicate OnlyThreads(e: Step) {
    e.ReapBegin? || e.ReapEnd? || e.Attach? || e.OwnerReturn? || e.Leave? || e.Exit? || e.IdleStep?
  }

  lemma ThreadStep(w: World, e: Step)
    requires Enabled(w, e) && OnlyThreads(e)
    ensures Next(w, e) == w.(p := Next(w, e).p)
  {
  }

  lemma ThreadStepThreaded(w: World, e: Step)
    requires Enabled(w, e) && OnlyThreads(e) && Threaded(w.p, w.h.tally.undone, w.q, w.l.live)
    ensures Threaded(Next(w, e).p, w.h.tally.undone, w.q, w.l.live)
  {
  }

  lemma ThreadStepGood(w: World, e: Step)
    requires Good(w) && Enabled(w, e) && OnlyThreads(e)
    ensures Good(Next(w, e))
  {
    ThreadStep(w, e);
    ThreadStepThreaded(w, e);
    ThreadsGood(w, Next(w, e).p);
  }

  lemma HostStepGood(w: World, e: Step)
    requires Good(w) && Enabled(w, e)
    requires e.CreateStep? || e.CloseStep? || e.SubmitStep? || e.ReadStep?
    ensures Good(Next(w, e))
  {
    hide Sound, EventsOk, Threaded, Bounded, Living;
    match e
    case CreateStep(server, len, memory, n, o, waited) => CreateGood(w, server, len, memory, n, o, waited);
    case CloseStep(engine, server, memory) => CloseGood(w, engine, server, memory);
    case SubmitStep(engine, input, memory, copied) =>
      EngineOf(w, engine);
      SubmitGood(w, EngineInstance(w, engine), input, memory, copied);
    case ReadStep(r, memory) => ReadGood(w, r, memory);
  }

  lemma ReleaseStepGood(w: World, e: Step)
    requires Good(w) && Enabled(w, e)
    requires e.ReleaseResponseStep? || e.ReleaseChunkStep? || e.ReleaseOpStep? || e.ReleaseEngineStep?
    ensures Good(Next(w, e))
  {
    hide Sound, Living, EventsOk, Bounded, Queued, Threaded;
    match e
    case ReleaseResponseStep(r, memory) => ReleaseResponseGood(w, r, memory);
    case ReleaseChunkStep(c) => ReleaseChunkGood(w, c);
    case ReleaseOpStep(o) => ReleaseOpGood(w, o);
    case ReleaseEngineStep(engine) => ReleaseEngineGood(w, engine);
  }

  lemma OwnerStepGood(w: World, e: Step)
    requires Good(w) && Enabled(w, e) && (e.PopStep? || e.DrainPopStep? || e.DrainCompleteStep? || e.DrainEndStep? || e.CompleteStep?)
    ensures Good(Next(w, e))
  {
    hide Sound, EventsOk, Threaded, Bounded, Living;
    match e
    case PopStep => PopGood(w);
    case DrainPopStep => DrainPopGood(w);
    case DrainCompleteStep => DrainCompleteGood(w);
    case DrainEndStep => DrainEndGood(w);
    case CompleteStep(o, code) => CompleteStepGood(w, o, code);
  }

  lemma OwnerCallGood(w: World, e: Step)
    requires Good(w) && Enabled(w, e) && (e.LimitsStep? || e.SetHeaderStep?)
    ensures Good(Next(w, e))
  {
    hide Sound, EventsOk, Threaded, Bounded, Living;
    match e
    case LimitsStep(o, capacity, budget, responses) => LimitsGood(w, o, capacity, budget, responses);
    case SetHeaderStep(o, n) => SetHeaderGood(w, o, n);
  }

  lemma OwnerMakeGood(w: World, e: Step)
    requires Good(w) && Enabled(w, e) && (e.MakeResponseStep? || e.MakeChunkStep?)
    ensures Good(Next(w, e))
  {
    hide Sound, EventsOk, Threaded, Bounded, Living;
    match e
    case MakeResponseStep(o, n, memory) => MakeResponseGood(w, o, n, memory);
    case MakeChunkStep(o, n, memory) => MakeChunkGood(w, o, n, memory);
  }

  lemma NotifierStepGood(w: World, e: Step)
    requires Good(w) && Enabled(w, e) && (e.TakeStep? || e.ToldStep?)
    ensures Good(Next(w, e))
  {
    match e
    case TakeStep => TakeGood(w);
    case ToldStep => ToldGood(w);
  }

  lemma NextGood(w: World, e: Step)
    requires Good(w) && Enabled(w, e)
    ensures Good(Next(w, e))
  {
    hide Next;
    if OnlyThreads(e) {
      ThreadStepGood(w, e);
    } else if e.TakeStep? || e.ToldStep? {
      NotifierStepGood(w, e);
    } else if e.LimitsStep? || e.SetHeaderStep? {
      OwnerCallGood(w, e);
    } else if e.MakeResponseStep? || e.MakeChunkStep? {
      OwnerMakeGood(w, e);
    } else if e.PopStep? || e.DrainPopStep? || e.DrainCompleteStep? || e.DrainEndStep? || e.CompleteStep? {
      OwnerStepGood(w, e);
    } else if e.ReleaseResponseStep? || e.ReleaseChunkStep? || e.ReleaseOpStep? || e.ReleaseEngineStep? {
      ReleaseStepGood(w, e);
    } else {
      HostStepGood(w, e);
    }
  }

  // -------------------------------------------------------------------------
  // Runs: any interleaving of enabled steps from the initial state

  ghost predicate Runs(w: World, steps: seq<Step>)
    decreases |steps|
  {
    steps == [] || (Enabled(w, steps[0]) && Runs(Next(w, steps[0]), steps[1..]))
  }

  ghost function After(w: World, steps: seq<Step>): World
    requires Runs(w, steps)
    decreases |steps|
  {
    if steps == [] then w else After(Next(w, steps[0]), steps[1..])
  }

  lemma {:induction false} RunGood(w: World, steps: seq<Step>)
    requires Good(w) && Runs(w, steps)
    ensures Good(After(w, steps))
    decreases |steps|
  {
    if steps != [] {
      NextGood(w, steps[0]);
      RunGood(Next(w, steps[0]), steps[1..]);
    }
  }

  // A run from its i-th step on.
  lemma RunsOn(w: World, steps: seq<Step>, i: nat)
    requires i < |steps| && Runs(w, steps[i..])
    ensures Enabled(w, steps[i]) && Runs(Next(w, steps[i]), steps[i + 1..])
    ensures After(w, steps[i..]) == After(Next(w, steps[i]), steps[i + 1..])
  {
    hide Enabled, Next;
    assert steps[i..][0] == steps[i] && steps[i..][1..] == steps[i + 1..];
  }

  // What the invariant says of the heap, the addresses and the queues.
  lemma GoodParts(w: World)
    requires Good(w)
    ensures Sound(w.h, multiset{}) && Bounded(w) && FreshAddr(w.h, w.nextAddr) && Queued(w.h.tally.undone, w.h.tally.untold, w.q)
  {
    NextIsFresh(w);
  }

  // A state that some run from the start can be in.
  ghost predicate Reachable(w: World) {
    exists opSize: nat, steps: seq<Step> :: Runs(Init(opSize), steps) && After(Init(opSize), steps) == w
  }

  lemma ReachableIsGood(w: World)
    requires Reachable(w)
    ensures Good(w)
  {
    var opSize: nat, steps: seq<Step> :| Runs(Init(opSize), steps) && After(Init(opSize), steps) == w;
    InitGood(opSize);
    RunGood(Init(opSize), steps);
  }

  // -------------------------------------------------------------------------
  // Reference counts, object by object

  lemma CountSplit(m: map<Addr, Addr>, a: set<Addr>, b: set<Addr>, x: Addr)
    requires a !! b
    ensures Count(m, a + b, x) == Count(m, a, x) + Count(m, b, x)
  {
    assert Fiber(m, a + b, x) == Fiber(m, a, x) + Fiber(m, b, x);
  }

  lemma CountOwners(m: map<Addr, Addr>, ops: set<Addr>, alive: set<Addr>, chunks: set<Addr>, x: Addr)
    requires m.Keys == ops + alive + chunks && ops !! alive && ops !! chunks && alive !! chunks
    ensures Count(m, m.Keys, x) == Count(m, ops, x) + Count(m, alive, x) + Count(m, chunks, x)
  {
    CountSplit(m, ops + alive, chunks, x);
    CountSplit(m, ops, alive, x);
  }

  // The roots that hold an instance: the live list and its handle.
  lemma InstanceFiber(w: World, s: Addr)
    requires RootsOk(w.h.g.roots, w.h.tally.untold, w.h.kinds.Keys, w.h.resps.alive, w.l.live)
    requires EnginesOk(w.h.g.roots, w.l.creator, w.h.tally.undone, w.h.money.charged.Keys)
    requires s !in w.h.kinds && s !in w.h.resps.alive && w.h.tally.untold <= w.h.kinds.Keys
    ensures Fiber(w.h.g.roots, w.h.g.roots.Keys, s)
         == (if s in w.l.live then {Live(s)} else {}) + (if HasHandle(w, s) then {Engine(w.l.creator[s])} else {})
  {
    var fiber := Fiber(w.h.g.roots, w.h.g.roots.Keys, s);
    var live := if s in w.l.live then {Live(s)} else {};
    var handle := if HasHandle(w, s) then {Engine(w.l.creator[s])} else {};
    forall k | k in fiber ensures k in live + handle {
      if k.Live? {
        assert w.h.g.roots[Live(k.s)] == k.s;
      }
    }
    assert fiber == live + handle;
  }

  lemma InstanceRoots(w: World, s: Addr)
    requires RootsOk(w.h.g.roots, w.h.tally.untold, w.h.kinds.Keys, w.h.resps.alive, w.l.live)
    requires EnginesOk(w.h.g.roots, w.l.creator, w.h.tally.undone, w.h.money.charged.Keys)
    requires s !in w.h.kinds && s !in w.h.resps.alive && w.h.tally.untold <= w.h.kinds.Keys
    ensures Count(w.h.g.roots, w.h.g.roots.Keys, s) == Bit(s in w.l.live) + Bit(HasHandle(w, s))
  {
    hide RootsOk, EnginesOk, HasHandle;
    InstanceFiber(w, s);
  }

  // The instance has a handle, in an event or at the host.
  ghost predicate HasHandle(w: World, s: Addr) {
    && s in w.l.creator && Engine(w.l.creator[s]) in w.h.g.roots && w.h.g.roots[Engine(w.l.creator[s])] == s
  }

  lemma InstanceCounted(h: Heap, s: Addr)
    requires Balanced(h.g, multiset{}) && Shapes(h) && s in h.money.charged
    requires forall k | k in h.g.resp :: h.g.resp[k] in h.resps.alive
    ensures s in h.g.refs && s !in h.kinds && s !in h.resps.alive
    ensures h.g.refs[s] == Count(h.g.inst, h.g.inst.Keys, s) + Count(h.g.roots, h.g.roots.Keys, s)
  {
    forall k | k in h.g.resp ensures h.g.resp[k] != s {}
    CountNone(h.g.resp, h.g.resp.Keys, s);
  }

  lemma OwnersOf(h: Heap, s: Addr)
    requires Shapes(h)
    ensures Count(h.g.inst, h.g.inst.Keys, s)
         == Count(h.g.inst, h.kinds.Keys, s) + Count(h.g.inst, h.resps.alive, s) + Count(h.g.inst, h.resps.chunks, s)
    ensures h.tally.untold <= h.kinds.Keys
  {
    CountOwners(h.g.inst, h.kinds.Keys, h.resps.alive, h.resps.chunks, s);
  }

  lemma ResponseTargets(h: Heap)
    requires RespsOk(h.g.inst, h.g.resp, h.resps, h.tally.undone, h.kinds)
    ensures forall k | k in h.g.resp :: h.g.resp[k] in h.resps.alive
    ensures forall r | r in h.resps.alive :: h.resps.chunkCount[r] == Count(h.g.resp, h.resps.chunks, r)
  {
  }

  /** In every reachable state an instance's count is its place on the live list,
      plus its operations, responses and chunks, plus its handle. */
  lemma InstanceRefs(w: World, s: Addr)
    requires Reachable(w) && s in w.h.money.charged
    ensures s in w.h.g.refs
    ensures w.h.g.refs[s] == Bit(s in w.l.live) + Count(w.h.g.inst, w.h.kinds.Keys, s) + Count(w.h.g.inst, w.h.resps.alive, s)
                           + Count(w.h.g.inst, w.h.resps.chunks, s) + Bit(HasHandle(w, s))
  {
    ReachableIsGood(w);
    ResponseTargets(w.h);
    InstanceCounted(w.h, s);
    OwnersOf(w.h, s);
    InstanceRoots(w, s);
  }

  lemma ResponseRoots(w: World, r: Addr)
    requires RootsOk(w.h.g.roots, w.h.tally.untold, w.h.kinds.Keys, w.h.resps.alive, w.l.live)
    requires EnginesOk(w.h.g.roots, w.l.creator, w.h.tally.undone, w.h.money.charged.Keys)
    requires r !in w.h.kinds && r !in w.h.money.charged && w.h.tally.untold <= w.h.kinds.Keys
    requires forall s | s in w.l.live :: s in w.h.money.charged
    ensures Count(w.h.g.roots, w.h.g.roots.Keys, r) == Bit(Handle(r) in w.h.g.roots)
  {
    var fiber := Fiber(w.h.g.roots, w.h.g.roots.Keys, r);
    var handle := if Handle(r) in w.h.g.roots then {Handle(r)} else {};
    forall k | k in fiber ensures k in handle {
      if k.Handle? {
        assert w.h.g.roots[Handle(k.r)] == k.r;
      }
    }
    assert fiber == handle;
  }

  lemma ResponseCounted(h: Heap, r: Addr)
    requires Balanced(h.g, multiset{}) && Shapes(h) && r in h.resps.alive
    ensures r in h.g.refs && r !in h.kinds && r !in h.money.charged && h.tally.untold <= h.kinds.Keys
    ensures h.g.refs[r] == Count(h.g.resp, h.g.resp.Keys, r) + Count(h.g.roots, h.g.roots.Keys, r)
  {
    forall k | k in h.g.inst ensures h.g.inst[k] != r {}
    CountNone(h.g.inst, h.g.inst.Keys, r);
  }

  lemma ReadersAndChunks(h: Heap, r: Addr)
    requires Shapes(h) && RespsOk(h.g.inst, h.g.resp, h.resps, h.tally.undone, h.kinds)
    ensures Count(h.g.resp, h.g.resp.Keys, r) == Count(h.g.resp, h.kinds.Keys, r) + Count(h.g.resp, h.resps.chunks, r)
  {
    assert Fiber(h.g.resp, h.g.resp.Keys, r) == Fiber(h.g.resp, h.kinds.Keys + h.resps.chunks, r);
    CountSplit(h.g.resp, h.kinds.Keys, h.resps.chunks, r);
  }

  lemma LiveAreInstances(w: World)
    requires Living(w.h.kinds, w.h.g.inst, w.h.tally.undone, w.h.money.charged.Keys, w.l)
    ensures forall s | s in w.l.live :: s in w.h.money.charged
  {
  }

  /** A response's count is the operations on it, its unreleased chunks (which is
      what its `chunks` field says) and its handle. */
  lemma ResponseRefs(w: World, r: Addr)
    requires Reachable(w) && r in w.h.resps.alive
    ensures r in w.h.g.refs && r in w.h.resps.chunkCount && w.h.resps.chunkCount[r] == Count(w.h.g.resp, w.h.resps.chunks, r)
    ensures w.h.g.refs[r] == Count(w.h.g.resp, w.h.kinds.Keys, r) + w.h.resps.chunkCount[r] + Bit(Handle(r) in w.h.g.roots)
  {
    ReachableIsGood(w);
    ResponseTargets(w.h);
    LiveAreInstances(w);
    ResponseCounted(w.h, r);
    ReadersAndChunks(w.h, r);
    ResponseRoots(w, r);
  }

  lemma OperationRoots(w: World, o: Addr)
    requires RootsOk(w.h.g.roots, w.h.tally.untold, w.h.kinds.Keys, w.h.resps.alive, w.l.live)
    requires EnginesOk(w.h.g.roots, w.l.creator, w.h.tally.undone, w.h.money.charged.Keys)
    requires o !in w.h.resps.alive && o !in w.h.money.charged
    requires forall s | s in w.l.live :: s in w.h.money.charged
    ensures Count(w.h.g.roots, w.h.g.roots.Keys, o) == Bit(o in w.h.tally.untold) + Bit(Host(o) in w.h.g.roots)
  {
    var fiber := Fiber(w.h.g.roots, w.h.g.roots.Keys, o);
    var runtime := if o in w.h.tally.untold then {Runtime(o)} else {};
    var host := if Host(o) in w.h.g.roots then {Host(o)} else {};
    forall k | k in fiber ensures k in runtime + host {
      if k.Runtime? {
        assert w.h.g.roots[Runtime(k.o)] == k.o;
      } else if k.Host? {
        assert w.h.g.roots[Host(k.o)] == k.o;
      }
    }
    assert fiber == runtime + host;
  }

  lemma OperationCounted(h: Heap, o: Addr)
    requires Balanced(h.g, multiset{}) && Shapes(h) && o in h.kinds
    requires forall k | k in h.g.resp :: h.g.resp[k] in h.resps.alive
    ensures o in h.g.refs && o !in h.resps.alive && o !in h.money.charged
    ensures h.g.refs[o] == Count(h.g.roots, h.g.roots.Keys, o)
  {
    forall k | k in h.g.inst ensures h.g.inst[k] != o {}
    forall k | k in h.g.resp ensures h.g.resp[k] != o {}
    CountNone(h.g.inst, h.g.inst.Keys, o);
    CountNone(h.g.resp, h.g.resp.Keys, o);
  }

  /** An operation's count is the runtime's reference until its callback has
      returned, and the host's until it is released. */
  lemma OperationRefs(w: World, o: Addr)
    requires Reachable(w) && o in w.h.kinds
    ensures o in w.h.g.refs && w.h.g.refs[o] == Bit(o in w.h.tally.untold) + Bit(Host(o) in w.h.g.roots)
  {
    ReachableIsGood(w);
    ResponseTargets(w.h);
    LiveAreInstances(w);
    OperationCounted(w.h, o);
    OperationRoots(w, o);
  }

  /** An object is allocated exactly as long as something holds it; in particular
      no pointer, handle or list entry leads to a freed object. */
  lemma AllocatedIffHeld(w: World, x: Addr)
    requires Reachable(w)
    ensures x in w.h.g.refs <==> Held(w.h.g, x)
  {
    ReachableIsGood(w);
    HeldIffCounted(w.h.g, x);
  }

  ghost predicate Held(g: Graph, x: Addr) {
    || (exists k :: k in g.inst && g.inst[k] == x)
    || (exists k :: k in g.resp && g.resp[k] == x)
    || (exists k :: k in g.roots && g.roots[k] == x)
  }

  lemma HeldIffCounted(g: Graph, x: Addr)
    requires Balanced(g, multiset{})
    ensures x in g.refs <==> Held(g, x)
  {
    if x in g.refs && !Held(g, x) {
      forall k | k in g.inst ensures g.inst[k] != x {}
      forall k | k in g.resp ensures g.resp[k] != x {}
      forall k | k in g.roots ensures g.roots[k] != x {}
      CountNone(g.inst, g.inst.Keys, x);
      CountNone(g.resp, g.resp.Keys, x);
      CountNone(g.roots, g.roots.Keys, x);
      assert false;
    }
  }

  // -------------------------------------------------------------------------
  // Bytes

  /** retained_bytes is the sum of what the instances are charged, each of which
      is what its operations, responses and chunks hold; the total stays within
      64 MiB. */
  lemma BytesConserved(w: World)
    requires Reachable(w)
    ensures w.h.money.retained == Sum(w.h.money.charged) <= 67108864
    ensures forall s | s in w.h.money.charged :: w.h.money.charged[s] == Balance(w.h.money.ledger, s)
    ensures w.h.money.ledger.Keys == w.h.kinds.Keys + w.h.resps.alive + w.h.resps.chunks
    ensures forall k | k in w.h.money.ledger && k in w.h.g.inst :: w.h.money.ledger[k].account == w.h.g.inst[k]
  {
    ReachableIsGood(w);
    LedgerKeys(w.h);
  }

  lemma LedgerKeys(h: Heap)
    requires Shapes(h) && Accounts(h.g.inst, h.money)
    ensures h.money.ledger.Keys == h.kinds.Keys + h.resps.alive + h.resps.chunks
  {
  }

  // -------------------------------------------------------------------------
  // Readers

  /** `reading` is set exactly when one uncompleted read refers to the response,
      and there are never two. */
  lemma OneReader(w: World, r: Addr)
    requires Reachable(w) && r in w.h.resps.alive
    ensures Count(w.h.g.resp, Readers(w.h.tally.undone, w.h.kinds), r) == Bit(r in w.h.resps.reading)
    ensures forall a, b | a in w.h.tally.undone && b in w.h.tally.undone && IsRead(w, a, r) && IsRead(w, b, r) :: a == b
  {
    hide Init, Next, Runs;
    ReachableIsGood(w);
    var readers := Readers(w.h.tally.undone, w.h.kinds);
    var fiber := Fiber(w.h.g.resp, readers, r);
    forall a, b | a in w.h.tally.undone && b in w.h.tally.undone && IsRead(w, a, r) && IsRead(w, b, r) ensures a == b {
      AtMostOne(fiber, a, b);
    }
  }

  ghost predicate IsRead(w: World, o: Addr, r: Addr) {
    o in w.h.kinds && w.h.kinds[o] == 4 && o in w.h.g.resp && w.h.g.resp[o] == r
  }

  lemma AtMostOne(xs: set<Addr>, a: Addr, b: Addr)
    requires |xs| <= 1 && a in xs && b in xs
    ensures a == b
  {
    assert |xs - {a}| == 0;
    assert b !in xs - {a};
  }
}
