/**
 What a host thread holds on to: an engine handle, an operation handle, or nothing.
 No step of another thread takes it away or lets it stand for another instance.
 */
module BridgeHolds {
  import opened Basics
  import opened Counting
  import opened BridgeHeap
  import opened BridgeObjects
  import opened Bridge
  import opened BridgeOrder
  import opened BridgeSteps
  import opened BridgeHost
  import opened BridgeRuns
  import opened BridgeLater

  datatype Hold = ByEngine(engine: Addr) | ByOperation(op: Addr) | Nothing

  predicate Has(w: World, hold: Hold) {
    match hold
    case ByEngine(e) => e in w.x.engines
    case ByOperation(o) => Host(o) in w.h.g.roots
    case Nothing => true
  }

  // The instance behind the handle.
  function Target(w: World, hold: Hold): Addr {
    match hold
    case ByEngine(e) => EngineInstance(w, e)
    case ByOperation(o) => At(w.h.g.inst, o)
    case Nothing => 0
  }

  // The step that gives the handle back.
  predicate GivesBack(e: Step, hold: Hold) {
    match hold
    case ByEngine(engine) => e == ReleaseEngineStep(engine)
    case ByOperation(o) => e == ReleaseOpStep(o)
    case Nothing => false
  }

  // -------------------------------------------------------------------------
  // Engine handles

  lemma CreateKeepsEngines(w: World, server: bool, len: nat, memory: seq<bool>, n: bool, o: bool, waited: bool)
    requires |memory| == 3
    ensures Create(w, server, len, memory, n, o, waited).0.x == w.x
  {
    var v := Start(w, n, o);
    if v.1 {
      StartedKeepsEngines(v.0, server, len, memory);
    }
  }

  lemma StartedKeepsEngines(w: World, server: bool, len: nat, memory: seq<bool>)
    requires |memory| == 3
    ensures CreateStarted(w, server, len, memory).0.x == w.x
  {
  }

  lemma CallsKeepEngines(w: World, s: Addr, r: Addr, server: bool, n: nat, m: bool, c: bool)
    ensures Close(w, s, server, m).0.x == w.x && Submit(w, s, n, m, c).0.x == w.x && Read(w, r, m).0.x == w.x
    ensures ReleaseResponse(w, r, m).x.engines == w.x.engines
  {
  }

  lemma CompleteKeepsEngines(w: World, o: Addr, code: int)
    ensures Complete(w, o, code).x.engines == w.x.engines
  {
    var v := if code != 0 then DropEventResponse(w, o) else w;
    assert v.x.engines == w.x.engines;
    assert Outcome(v, o, code).x == v.x;
  }

  lemma {:induction false} RetireAllKeepsEngines(w: World, n: nat)
    ensures RetireAll(w, n).x == w.x
    decreases n
  {
    if n != 0 && w.l.live != [] {
      RetireAllKeepsEngines(Retire(w, w.l.live[0]), n - 1);
    }
  }

  lemma HostKeepsEngines(w: World, e: Step)
    requires Enabled(w, e) && (e.CreateStep? || e.CloseStep? || e.SubmitStep? || e.ReadStep? || e.ReleaseResponseStep?)
    ensures Next(w, e).x.engines == w.x.engines
  {
    match e
    case CreateStep(server, len, memory, n, o, waited) => CreateKeepsEngines(w, server, len, memory, n, o, waited);
    case CloseStep(engine, server, m) => CallsKeepEngines(w, EngineInstance(w, engine), 0, server, 0, m, true);
    case SubmitStep(engine, n, m, c) => CallsKeepEngines(w, EngineInstance(w, engine), 0, true, n, m, c);
    case ReadStep(r, m) => CallsKeepEngines(w, 0, r, true, 0, m, true);
    case ReleaseResponseStep(r, m) => CallsKeepEngines(w, 0, r, true, 0, m, true);
  }

  lemma OwnerKeepsEngines(w: World, e: Step)
    requires Enabled(w, e) && (e.CompleteStep? || e.DrainCompleteStep? || e.DrainEndStep?)
    ensures Next(w, e).x.engines == w.x.engines
  {
    match e
    case CompleteStep(o, code) => CompleteKeepsEngines(w, o, code);
    case DrainCompleteStep =>
      if |w.p.owner.cur| == 1 {
        CompleteKeepsEngines(w, w.p.owner.cur[0], 3);
      }
    case DrainEndStep => RetireAllKeepsEngines(w, |w.l.live|);
  }

  lemma MakersKeepEngines(w: World, e: Step)
    requires Enabled(w, e) && (e.LimitsStep? || e.MakeResponseStep? || e.SetHeaderStep? || e.MakeChunkStep? || e.ToldStep?)
    ensures Next(w, e).x.engines == w.x.engines
  {
  }

  lemma SmallKeepEngines(w: World, e: Step, engine: Addr)
    requires Enabled(w, e) && engine in w.x.engines && e != ReleaseEngineStep(engine)
    requires e.ReleaseChunkStep? || e.ReleaseOpStep? || e.ReleaseEngineStep? || e.PopStep? || e.DrainPopStep? || e.TakeStep?
    ensures engine in Next(w, e).x.engines
  {
  }

  lemma EngineKept(w: World, e: Step, engine: Addr)
    requires Enabled(w, e) && engine in w.x.engines && e != ReleaseEngineStep(engine)
    ensures engine in Next(w, e).x.engines
  {
    if OnlyThreads(e) {
      ThreadStep(w, e);
    } else if e.CreateStep? || e.CloseStep? || e.SubmitStep? || e.ReadStep? || e.ReleaseResponseStep? {
      HostKeepsEngines(w, e);
    } else if e.CompleteStep? || e.DrainCompleteStep? || e.DrainEndStep? {
      OwnerKeepsEngines(w, e);
    } else if e.LimitsStep? || e.MakeResponseStep? || e.SetHeaderStep? || e.MakeChunkStep? || e.ToldStep? {
      MakersKeepEngines(w, e);
    } else {
      SmallKeepEngines(w, e, engine);
    }
  }

  // A handle always stands for the instance that its operation opened.
  lemma SameInstance(w: World, v: World, engine: Addr, s: Addr)
    requires Good(w) && Good(v) && Remembers(w.l, v.l)
    requires engine in w.x.engines && engine in v.x.engines && EngineInstance(w, engine) == s
    ensures EngineInstance(v, engine) == s
  {
    EngineOf(w, engine);
    EngineOf(v, engine);
    OneOpening(v.h.kinds, v.h.g.inst, v.h.tally.undone, v.h.money.charged.Keys, v.l, EngineInstance(v, engine), s);
  }

  lemma OneOpening(kinds: map<Addr, int>, inst: map<Addr, Addr>, undone: set<Addr>, insts: set<Addr>, l: Life, a: Addr, b: Addr)
    requires Living(kinds, inst, undone, insts, l) && a in l.creator && b in l.creator && l.creator[a] == l.creator[b]
    ensures a == b
  {
  }

  // -------------------------------------------------------------------------
  // Operation handles

  ghost predicate Stays(h: Heap, t: Heap, o: Addr) {
    Host(o) in h.g.roots ==> Host(o) in t.g.roots
  }

  lemma InstDropRoots(h: Heap, s: Addr)
    ensures InstDrop(h, s).g.roots == h.g.roots
  {
  }

  lemma RespDropRoots(h: Heap, r: Addr)
    ensures RespDrop(h, r).g.roots == h.g.roots
  {
    InstDropRoots(FreeResp(h, r), At(h.g.inst, r));
  }

  lemma OpDropRoots(h: Heap, o: Addr)
    ensures OpDrop(h, o).g.roots == h.g.roots
  {
    if At(h.g.refs, o) <= 1 {
      var t := FreeOp(h, o);
      var u := if o in h.g.resp then RespDrop(t, h.g.resp[o]) else t;
      RespDropRoots(t, if o in h.g.resp then h.g.resp[o] else 0);
      InstDropRoots(u, At(h.g.inst, o));
    }
  }

  lemma RetireStays(w: World, s: Addr, o: Addr)
    ensures Stays(w.h, Retire(w, s).h, o)
  {
    InstDropRoots(Unlinked(w, s).h, s);
  }

  lemma {:induction false} RetireAllStays(w: World, n: nat, o: Addr)
    ensures Stays(w.h, RetireAll(w, n).h, o)
    decreases n
  {
    if n != 0 && w.l.live != [] {
      RetireStays(w, w.l.live[0], o);
      RetireAllStays(Retire(w, w.l.live[0]), n - 1, o);
    }
  }

  lemma AdmitStays(w: World, kind: int, s: Addr, n: nat, r: Option<Addr>, host: bool, o: Addr)
    ensures Stays(w.h, Admit(w, kind, s, n, r, host).h, o)
  {
  }

  lemma CreateStays(w: World, server: bool, len: nat, memory: seq<bool>, n: bool, b: bool, waited: bool, o: Addr)
    requires Good(w) && w.p.state < 3 && |memory| == 3
    ensures Stays(w.h, Create(w, server, len, memory, n, b, waited).0.h, o)
  {
    hide CreateBody, Good, Sound;
    StartGood(w, n, b);
    StartKeeps(w, n, b);
    var v := Start(w, n, b).0;
    if (waited || !Crowded(w)) && Start(w, n, b).1 && v.nextId < INT_MAX - 1 && memory[0] {
      CreateBodyStays(v, if server then 2 else 1, len, memory[1], memory[2], o);
    }
  }

  lemma CreateBodyStays(w: World, kind: int, len: nat, opMemory: bool, inputMemory: bool, o: Addr)
    requires Sound(w.h, multiset{}) && Bounded(w) && IsCreate(kind)
    ensures Stays(w.h, CreateBody(w, kind, len, opMemory, inputMemory).0.h, o)
  {
    hide Uncreated, Balanced, Bounded;
    CreateFailureLeavesNoTrace(w, kind, 0);
    CreateFailureLeavesNoTrace(w, kind, len + 1);
    AdmitStays(NewInstance(w), kind, w.nextAddr, len + 1, None, true, o);
  }

  lemma SubmitStays(w: World, s: Addr, input: nat, memory: bool, copied: bool, o: Addr)
    requires Sound(w.h, multiset{}) && FreshAddr(w.h, w.nextAddr) && s in w.h.money.charged
    ensures Stays(w.h, Submit(w, s, input, memory, copied).0.h, o)
  {
    hide Rejected, Sound, FreshAddr, Admit;
    RejectedLeavesNoTrace(w, 3, s, if InputFits(w, 3, s, input) then input else 0);
    AdmitStays(w, 3, s, input, None, true, o);
  }

  lemma ReleaseResponseStays(w: World, r: Addr, memory: bool, o: Addr)
    ensures Stays(w.h, ReleaseResponse(w, r, memory).h, o)
  {
    var v := TellOwner(w, r, At(w.h.g.inst, r), memory);
    AdmitStays(w, 7, At(w.h.g.inst, r), 0, Some(r), false, o);
    RespDropRoots(Unhandled(v, r).h, r);
  }

  lemma CallStays(w: World, e: Step, o: Addr)
    requires Good(w) && Enabled(w, e) && (e.CreateStep? || e.CloseStep? || e.SubmitStep? || e.ReadStep? || e.ReleaseResponseStep?)
    ensures Stays(w.h, Next(w, e).h, o)
  {
    hide Good, Create, Submit, ReleaseResponse, Admit;
    match e
    case CreateStep(server, len, memory, n, b, waited) => CreateStays(w, server, len, memory, n, b, waited, o);
    case CloseStep(engine, server, m) => AdmitStays(w, if server then 6 else 5, EngineInstance(w, engine), 0, None, true, o);
    case SubmitStep(engine, input, m, c) =>
      EngineOf(w, engine);
      GoodParts(w);
      SubmitStays(w, EngineInstance(w, engine), input, m, c, o);
    case ReadStep(r, m) => AdmitStays(w, 4, At(w.h.g.inst, r), 0, Some(r), true, o);
    case ReleaseResponseStep(r, m) => ReleaseResponseStays(w, r, m, o);
  }

  lemma CompleteStays(w: World, c: Addr, code: int, o: Addr)
    ensures Stays(w.h, Complete(w, c, code).h, o)
  {
    if c in w.x.evResp {
      RespDropRoots(Undelivered(w, c, w.x.evResp[c]).h, w.x.evResp[c]);
    }
    var v := if code != 0 then DropEventResponse(w, c) else w;
    assert Stays(w.h, v.h, o);
    RetireStays(v, At(v.h.g.inst, c), o);
    assert Stays(v.h, Outcome(v, c, code).h, o);
  }

  lemma ResultStays(w: World, e: Step, o: Addr)
    requires Enabled(w, e) && (e.CompleteStep? || e.DrainCompleteStep? || e.DrainEndStep? || e.ToldStep?)
    ensures Stays(w.h, Next(w, e).h, o)
  {
    match e
    case CompleteStep(c, code) => CompleteStays(w, c, code, o);
    case DrainCompleteStep =>
      if |w.p.owner.cur| == 1 {
        CompleteStays(w, w.p.owner.cur[0], 3, o);
      }
    case DrainEndStep => RetireAllStays(w, |w.l.live|, o);
    case ToldStep => OpDropRoots(Untell(w.h, w.q.calling[0]), w.q.calling[0]);
  }

  lemma ReleaseStays(w: World, e: Step, o: Addr)
    requires Enabled(w, e) && (e.ReleaseChunkStep? || e.ReleaseOpStep? || e.ReleaseEngineStep?) && e != ReleaseOpStep(o)
    ensures Stays(w.h, Next(w, e).h, o)
  {
    match e
    case ReleaseChunkStep(c) =>
      RespDropRoots(FreeChunk(w.h, c), At(w.h.g.resp, c));
      InstDropRoots(RespDrop(FreeChunk(w.h, c), At(w.h.g.resp, c)), At(w.h.g.inst, c));
    case ReleaseOpStep(c) => OpDropRoots(w.h.(g := CutRoot(w.h.g, Host(c))), c);
    case ReleaseEngineStep(engine) => InstDropRoots(w.h.(g := CutRoot(w.h.g, Engine(engine))), EngineInstance(w, engine));
  }

  lemma OtherStays(w: World, e: Step, o: Addr)
    requires Enabled(w, e)
    requires e.LimitsStep? || e.MakeResponseStep? || e.SetHeaderStep? || e.MakeChunkStep? || e.PopStep? || e.DrainPopStep? || e.TakeStep?
    ensures Stays(w.h, Next(w, e).h, o)
  {
  }

  lemma OperationKept(w: World, e: Step, o: Addr)
    requires Good(w) && Enabled(w, e) && Host(o) in w.h.g.roots && e != ReleaseOpStep(o)
    ensures Host(o) in Next(w, e).h.g.roots
  {
    if OnlyThreads(e) {
      ThreadStep(w, e);
    } else if e.CreateStep? || e.CloseStep? || e.SubmitStep? || e.ReadStep? || e.ReleaseResponseStep? {
      CallStays(w, e, o);
    } else if e.CompleteStep? || e.DrainCompleteStep? || e.DrainEndStep? || e.ToldStep? {
      ResultStays(w, e, o);
    } else if e.ReleaseChunkStep? || e.ReleaseOpStep? || e.ReleaseEngineStep? {
      ReleaseStays(w, e, o);
    } else {
      OtherStays(w, e, o);
    }
  }

  lemma OperationInst(w: World, o: Addr)
    requires Good(w) && Host(o) in w.h.g.roots
    ensures o in w.h.g.inst
  {
    OperationOwns(w.h, o);
  }

  lemma OperationOwns(h: Heap, o: Addr)
    requires Shapes(h) && o in h.kinds
    ensures o in h.g.inst
  {
  }

  // -------------------------------------------------------------------------
  // Any handle

  /** No step of others takes a handle away, and it stands for the same instance ever after. */
  lemma HoldKept(w: World, e: Step, hold: Hold, v: World)
    requires Good(w) && Has(w, hold) && Enabled(w, e) && !GivesBack(e, hold) && v == Next(w, e)
    ensures Has(v, hold) && Target(v, hold) == Target(w, hold)
  {
    hide Next;
    NextGood(w, e);
    NextLater(w, e);
    match hold
    case ByEngine(engine) =>
      EngineKept(w, e, engine);
      SameInstance(w, v, engine, EngineInstance(w, engine));
    case ByOperation(o) =>
      OperationKept(w, e, o);
      OperationInst(w, o);
      OperationInst(v, o);
    case Nothing =>
  }
}
