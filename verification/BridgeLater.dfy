/**
 What only ever grows and what only ever falls: histories, closing instances and
 the operations left on them.
 */
module BridgeLater {
  import opened Basics
  import opened Counting
  import opened BridgeHeap
  import opened BridgeObjects
  import opened Bridge
  import opened BridgeOrder
  import opened BridgeSteps
  import opened BridgeHost
  import opened BridgeOwner
  import opened BridgeRuns

  // Operations only go, or are new and not on a closing instance.
  ghost predicate HeapLater(h: Heap, t: Heap, next: Addr, closing: set<Addr>) {
    && (forall o | o in t.tally.undone :: o in h.tally.undone || o >= next)
    && (forall o | o in t.tally.untold :: o in h.tally.untold || o >= next)
    && (forall o | o in t.g.inst && o in h.g.inst :: t.g.inst[o] == h.g.inst[o])
    && (forall o | o in t.tally.untold && o in t.g.inst && o >= next :: t.g.inst[o] !in closing)
  }

  // A heap with fewer operations and pointers.
  ghost predicate Fewer(h: Heap, t: Heap) {
    && t.tally.undone <= h.tally.undone && t.tally.untold <= h.tally.untold
    && (forall k | k in t.g.inst :: k in h.g.inst && t.g.inst[k] == h.g.inst[k])
  }

  lemma FewerTrans(h: Heap, m: Heap, t: Heap)
    requires Fewer(h, m) && Fewer(m, t)
    ensures Fewer(h, t)
  {
  }

  lemma FewerLater(h: Heap, m: Heap, t: Heap, next: Addr, closing: set<Addr>)
    requires HeapLater(h, m, next, closing) && Fewer(m, t)
    ensures HeapLater(h, t, next, closing)
  {
  }

  lemma SelfLater(h: Heap, next: Addr, closing: set<Addr>)
    requires forall o | o in h.tally.untold :: o < next
    ensures HeapLater(h, h, next, closing)
  {
  }

  lemma UntoldBelow(w: World)
    requires Good(w)
    ensures forall o | o in w.h.tally.untold :: o < w.nextAddr
    ensures forall k | k in w.h.g.inst :: k < w.nextAddr
  {
    OpsAreOwners(w.h);
  }

  lemma OpsAreOwners(h: Heap)
    requires Tallied(h.g.inst, h.tally)
    ensures forall o | o in h.tally.untold :: o in h.g.inst
  {
  }

  lemma DropsFewer(h: Heap, x: Addr)
    ensures Fewer(h, InstDrop(h, x)) && Fewer(h, RespDrop(h, x))
  {
  }

  lemma OpDropFewer(h: Heap, o: Addr)
    ensures Fewer(h, OpDrop(h, o))
  {
    if At(h.g.refs, o) <= 1 {
      var t := FreeOp(h, o);
      var r := if o in h.g.resp then h.g.resp[o] else 0;
      DropsFewer(t, r);
      var u := if o in h.g.resp then RespDrop(t, r) else t;
      DropsFewer(u, At(h.g.inst, o));
      FewerTrans(h, t, u);
      FewerTrans(h, u, InstDrop(u, At(h.g.inst, o)));
    }
  }

  lemma ChunkDropFewer(h: Heap, c: Addr)
    ensures Fewer(h, ChunkDrop(h, c))
  {
    var t := FreeChunk(h, c);
    DropsFewer(t, At(h.g.resp, c));
    var u := RespDrop(t, At(h.g.resp, c));
    DropsFewer(u, At(h.g.inst, c));
    FewerTrans(h, t, u);
    FewerTrans(h, u, InstDrop(u, At(h.g.inst, c)));
  }

  lemma AddOpLater(h: Heap, next: Addr, closing: set<Addr>, o: Addr, kind: int, s: Addr, n: nat, r: Option<Addr>, host: bool)
    requires o >= next && s !in closing && (forall k | k in h.tally.untold :: k < next)
    requires forall k | k in h.g.inst :: k < next
    ensures HeapLater(h, AddOp(h, o, kind, s, n, r, host), next, closing)
  {
    AddOpMaps(h, o, kind, s, n, r, host);
  }

  // -------------------------------------------------------------------------

  // Which operation opened an instance is never forgotten.
  ghost predicate Remembers(l: Life, m: Life) {
    forall s | s in l.creator :: s in m.creator && m.creator[s] == l.creator[s]
  }

  ghost predicate Later(w: World, v: World) {
    && w.q.called <= v.q.called && w.q.completed <= v.q.completed && w.q.accepted <= v.q.accepted
    && w.l.closing <= v.l.closing && w.l.closed <= v.l.closed && Remembers(w.l, v.l)
    && HeapLater(w.h, v.h, w.nextAddr, w.l.closing)
  }

  lemma FewerIsLater(w: World, v: World)
    requires Good(w) && Fewer(w.h, v.h) && v.q == w.q
    requires w.l.closing <= v.l.closing && w.l.closed <= v.l.closed && Remembers(w.l, v.l)
    ensures Later(w, v)
  {
    UntoldBelow(w);
    SelfLater(w.h, w.nextAddr, w.l.closing);
    FewerLater(w.h, w.h, v.h, w.nextAddr, w.l.closing);
  }

  lemma AdmitLater(w: World, kind: int, s: Addr, n: nat, r: Option<Addr>, host: bool)
    requires Good(w) && s !in w.l.closing
    ensures Later(w, Admit(w, kind, s, n, r, host))
  {
    UntoldBelow(w);
    AddOpLater(w.h, w.nextAddr, w.l.closing, w.nextAddr, kind, s, OpCharge(w, kind) + n, r, host);
  }

  lemma CloseLater(w: World, s: Addr, server: bool, memory: bool)
    requires Good(w)
    ensures Later(w, Close(w, s, server, memory).0)
  {
    var kind := if server then 6 else 5;
    if s !in w.l.closing && NewOpOk(w, kind, s, memory) {
      AdmitLater(w, kind, s, 0, None, true);
    } else {
      FewerIsLater(w, w);
    }
  }

  lemma SubmitLater(w: World, s: Addr, input: nat, memory: bool, copied: bool)
    requires Good(w) && s in w.h.money.charged
    ensures Later(w, Submit(w, s, input, memory, copied).0)
  {
    if SubmitVerdict(w, s, memory).Ok? {
      if InputFits(w, 3, s, input) && copied {
        AdmitLater(w, 3, s, input, None, true);
      } else {
        NextIsFresh(w);
        RejectedLeavesNoTrace(w, 3, s, if InputFits(w, 3, s, input) then input else 0);
        FewerIsLater(w, Tick(w));
      }
    } else {
      FewerIsLater(w, w);
    }
  }

  lemma ReadLater(w: World, r: Addr, memory: bool)
    requires Good(w)
    ensures Later(w, Read(w, r, memory).0)
  {
    var s := At(w.h.g.inst, r);
    if ReadVerdict(w, r, s, memory).Ok? {
      AdmitLater(w, 4, s, 0, Some(r), true);
    } else {
      FewerIsLater(w, w);
    }
  }

  lemma TellOwnerLater(w: World, r: Addr, s: Addr, memory: bool)
    requires Good(w)
    ensures Later(w, TellOwner(w, r, s, memory))
  {
    if r !in w.h.resps.released && s !in w.l.closing && NewOpOk(w, 7, s, memory) {
      AdmitLater(w, 7, s, 0, Some(r), false);
    } else {
      FewerIsLater(w, w);
    }
  }

  lemma ReleaseResponseLater(w: World, r: Addr, memory: bool)
    requires Good(w)
    ensures Later(w, ReleaseResponse(w, r, memory))
  {
    var v := TellOwner(w, r, At(w.h.g.inst, r), memory);
    TellOwnerLater(w, r, At(w.h.g.inst, r), memory);
    DropsFewer(Unhandled(v, r).h, r);
    FewerLater(w.h, v.h, RespDrop(Unhandled(v, r).h, r), w.nextAddr, w.l.closing);
  }

  lemma StartKeeps(w: World, n: bool, o: bool)
    ensures var v := Start(w, n, o).0; v.h == w.h && v.q == w.q && v.l == w.l && v.nextAddr == w.nextAddr
  {
  }

  lemma CreatedKeeps(w: World, kind: int, n: nat)
    requires Bounded(w)
    ensures var v := Created(w, kind, n);
            && v.q.called == w.q.called && v.q.completed == w.q.completed && w.q.accepted <= v.q.accepted
            && v.l.closing == w.l.closing && v.l.closed == w.l.closed && Remembers(w.l, v.l)
  {
  }

  lemma CreatedHeapIs(w: World, kind: int, n: nat)
    ensures Created(w, kind, n).h == AddOp(AddInst(w.h, w.nextAddr, RETAIN_LIMIT, 1024), w.nextAddr + 1, kind, w.nextAddr,
                                           OpCharge(NewInstance(w), kind) + n, None, true)
  {
  }

  lemma CreatedOps(w: World, kind: int, n: nat)
    requires w.nextAddr !in w.l.closing
    requires forall k | k in w.h.tally.untold :: k < w.nextAddr
    requires forall k | k in w.h.g.inst :: k < w.nextAddr
    ensures HeapLater(w.h, Created(w, kind, n).h, w.nextAddr, w.l.closing)
  {
    CreatedHeapIs(w, kind, n);
    CreatedHeapLater(w.h, w.nextAddr, w.l.closing, kind, OpCharge(NewInstance(w), kind) + n);
  }

  lemma CreatedLater(w: World, kind: int, n: nat)
    requires Good(w)
    ensures Later(w, Created(w, kind, n))
  {
    UntoldBelow(w);
    NewIsOpen(w);
    CreatedKeeps(w, kind, n);
    CreatedOps(w, kind, n);
  }

  lemma CreatedHeapLater(h: Heap, s: Addr, closing: set<Addr>, kind: int, n: nat)
    requires s !in closing && (forall k | k in h.tally.untold :: k < s) && forall k | k in h.g.inst :: k < s
    ensures HeapLater(h, AddOp(AddInst(h, s, RETAIN_LIMIT, 1024), s + 1, kind, s, n, None, true), s, closing)
  {
    var m := AddInst(h, s, RETAIN_LIMIT, 1024);
    AddOpLater(m, s, closing, s + 1, kind, s, n, None, true);
    SameLater(h, m, AddOp(m, s + 1, kind, s, n, None, true), s, closing);
  }

  lemma SameLater(h: Heap, m: Heap, t: Heap, next: Addr, closing: set<Addr>)
    requires m.tally.undone == h.tally.undone && m.tally.untold == h.tally.untold && m.g.inst == h.g.inst
    requires HeapLater(m, t, next, closing)
    ensures HeapLater(h, t, next, closing)
  {
  }

  lemma CreateBodyLater(w: World, kind: int, len: nat, opMemory: bool, inputMemory: bool)
    requires Good(w) && IsCreate(kind)
    ensures Later(w, CreateBody(w, kind, len, opMemory, inputMemory).0)
  {
    FewerIsLater(w, Tick(w));
    if NewOpOk(NewInstance(w), kind, w.nextAddr, opMemory) {
      if InputFits(NewInstance(w), kind, w.nextAddr, len + 1) && inputMemory {
        CreatedLater(w, kind, len + 1);
      } else {
        CreateFailureLeavesNoTrace(w, kind, if InputFits(NewInstance(w), kind, w.nextAddr, len + 1) then len + 1 else 0);
        FewerIsLater(w, Tick(Tick(w)));
      }
    }
  }

  lemma CreateStartedLater(w: World, server: bool, len: nat, memory: seq<bool>)
    requires Good(w) && |memory| == 3
    ensures Later(w, CreateStarted(w, server, len, memory).0)
  {
    var kind := if server then 2 else 1;
    if w.nextId < INT_MAX - 1 && memory[0] {
      CreateBodyLater(w, kind, len, memory[1], memory[2]);
      var r := CreateBody(w, kind, len, memory[1], memory[2]);
      assert CreateStarted(w, server, len, memory) == r;
    } else {
      FewerIsLater(w, w);
    }
  }

  lemma CreateLater(w: World, server: bool, len: nat, memory: seq<bool>, n: bool, o: bool, waited: bool)
    requires Good(w) && w.p.state < 3 && |memory| == 3
    ensures Later(w, Create(w, server, len, memory, n, o, waited).0)
  {
    StartGood(w, n, o);
    StartKeeps(w, n, o);
    var v := Start(w, n, o).0;
    if !waited && Crowded(w) {
      FewerIsLater(w, w);
    } else if Start(w, n, o).1 {
      CreateStartedLater(v, server, len, memory);
    } else {
      FewerIsLater(w, v);
    }
  }

  // -------------------------------------------------------------------------

  // A world in which nothing was admitted and only objects have gone.
  ghost predicate Falls(w: World, v: World) {
    && Fewer(w.h, v.h) && v.q == w.q && w.l.closing <= v.l.closing && w.l.closed <= v.l.closed && v.l.creator == w.l.creator
  }

  lemma RetireFalls(w: World, s: Addr)
    ensures Falls(w, Retire(w, s))
  {
    DropsFewer(Unlinked(w, s).h, s);
  }

  lemma FallsTrans(w: World, u: World, v: World)
    requires Falls(w, u) && Falls(u, v)
    ensures Falls(w, v)
  {
  }

  lemma {:induction false} RetireAllFalls(w: World, n: nat)
    ensures Falls(w, RetireAll(w, n))
    decreases n
  {
    if n != 0 && w.l.live != [] {
      var u := RetireOneFalls(w, n);
      RetireAllFalls(u, n - 1);
      FallsTrans(w, u, RetireAll(u, n - 1));
    }
  }

  lemma RetireOneFalls(w: World, n: nat) returns (u: World)
    requires n != 0 && w.l.live != []
    ensures Falls(w, u) && RetireAll(w, n) == RetireAll(u, n - 1)
  {
    u := Retire(w, w.l.live[0]);
    RetireFalls(w, w.l.live[0]);
  }

  lemma OutcomeFalls(w: World, o: Addr, code: int)
    ensures Falls(w, Outcome(w, o, code))
  {
    RetireFalls(w, At(w.h.g.inst, o));
  }

  lemma DropEventFalls(w: World, o: Addr)
    ensures Falls(w, DropEventResponse(w, o))
  {
    if o in w.x.evResp {
      DropsFewer(Undelivered(w, o, w.x.evResp[o]).h, w.x.evResp[o]);
    }
  }

  lemma CompleteLater(w: World, o: Addr, code: int)
    requires Good(w)
    ensures Later(w, Complete(w, o, code))
  {
    if o in w.h.tally.undone {
      var v := if code != 0 then DropEventResponse(w, o) else w;
      DropEventFalls(w, o);
      OutcomeFalls(v, o, code);
      var u := Outcome(v, o, code);
      FallsTrans(w, v, u);
      FewerIsLater(w, u);
      SettleFields(u.h, o);
      FewerLater(w.h, u.h, Settle(u.h, o), w.nextAddr, w.l.closing);
      assert Complete(w, o, code) == Announce(u, o);
    } else {
      FewerIsLater(w, w);
    }
  }

  lemma ToldLater(w: World)
    requires Good(w)
    ensures Later(w, Told(w))
  {
    if w.q.calling != [] {
      var o := w.q.calling[0];
      UntellFields(w.h, o);
      OpDropFewer(Untell(w.h, o), o);
      FewerTrans(w.h, Untell(w.h, o), Tell(w.h, o));
      FewerIsLater(w, w.(h := Tell(w.h, o)));
    } else {
      FewerIsLater(w, w);
    }
  }

  lemma DrainCompleteLater(w: World)
    requires Good(w)
    ensures Later(w, DrainComplete(w))
  {
    if w.p.owner.Draining? && |w.p.owner.cur| == 1 {
      CompleteLater(w, w.p.owner.cur[0], 3);
    } else {
      FewerIsLater(w, w);
    }
  }

  // -------------------------------------------------------------------------

  // Nothing that this file is about changes.
  ghost predicate Same(w: World, v: World) {
    && v.h.tally == w.h.tally && v.h.g == w.h.g && v.l.closing == w.l.closing && v.l.closed == w.l.closed && v.l.creator == w.l.creator
    && v.q.called == w.q.called && v.q.completed == w.q.completed && v.q.accepted == w.q.accepted
  }

  lemma SameIsLater(w: World, v: World)
    requires Good(w) && Same(w, v)
    ensures Later(w, v)
  {
    UntoldBelow(w);
    SelfLater(w.h, w.nextAddr, w.l.closing);
  }

  lemma QuietSteps(w: World, e: Step)
    requires Enabled(w, e) && (e.PopStep? || e.DrainPopStep? || e.LimitsStep? || e.TakeStep?)
    ensures Same(w, Next(w, e))
  {
  }

  lemma MadeLater(h: Heap, t: Heap, next: Addr, closing: set<Addr>)
    requires forall o | o in h.tally.untold :: o < next
    requires t.tally == h.tally && forall k | k in h.g.inst && k in t.g.inst :: t.g.inst[k] == h.g.inst[k]
    ensures HeapLater(h, t, next, closing)
  {
  }

  lemma MakeSteps(w: World, o: Addr, n: nat, memory: bool, v: World)
    requires v == MakeResponse(w, o, n, memory) || v == SetHeader(w, o, n) || v == MakeChunk(w, o, n, memory)
    requires forall k | k in w.h.g.inst :: k < w.nextAddr
    ensures v.h.tally == w.h.tally && v.q == w.q && v.l == w.l
    ensures forall k | k in w.h.g.inst && k in v.h.g.inst :: v.h.g.inst[k] == w.h.g.inst[k]
  {
  }

  lemma MakeLater(w: World, o: Addr, n: nat, memory: bool, v: World)
    requires Good(w)
    requires v == MakeResponse(w, o, n, memory) || v == SetHeader(w, o, n) || v == MakeChunk(w, o, n, memory)
    ensures Later(w, v)
  {
    UntoldBelow(w);
    MakeSteps(w, o, n, memory, v);
    MadeLater(w.h, v.h, w.nextAddr, w.l.closing);
  }

  lemma DropStepLater(w: World, e: Step)
    requires Good(w) && Enabled(w, e)
    requires e.ReleaseChunkStep? || e.ReleaseOpStep? || e.ReleaseEngineStep? || e.DrainEndStep?
    ensures Later(w, Next(w, e))
  {
    hide Sound, Living, Bounded, Threaded, Queued, EventsOk, RootsOk, EnginesOk;
    match e
    case ReleaseChunkStep(c) =>
      ChunkDropFewer(w.h, c);
      FewerIsLater(w, ReleaseChunk(w, c));
    case ReleaseOpStep(o) =>
      OpDropFewer(Unowned(w, o).h, o);
      FewerIsLater(w, ReleaseOp(w, o));
    case ReleaseEngineStep(engine) =>
      DropsFewer(Disengaged(w, engine).h, EngineInstance(w, engine));
      FewerIsLater(w, ReleaseEngine(w, engine));
    case DrainEndStep =>
      RetireAllFalls(w, |w.l.live|);
      FewerIsLater(w, DrainEnd(w));
  }

  lemma CallLater(w: World, e: Step)
    requires Good(w) && Enabled(w, e)
    ensures e.CreateStep? || e.CloseStep? || e.SubmitStep? || e.ReadStep? || e.ReleaseResponseStep? ==> Later(w, Next(w, e))
  {
    hide EventsOk, RootsOk, Later, Threaded, HeapLater, Queued, Create, Bounded;
    match e
    case CreateStep(server, len, memory, n, o, waited) => CreateLater(w, server, len, memory, n, o, waited);
    case CloseStep(engine, server, memory) => CloseLater(w, EngineInstance(w, engine), server, memory);
    case SubmitStep(engine, input, memory, copied) =>
      EngineOf(w, engine);
      SubmitLater(w, EngineInstance(w, engine), input, memory, copied);
    case ReadStep(r, memory) => ReadLater(w, r, memory);
    case ReleaseResponseStep(r, memory) => ReleaseResponseLater(w, r, memory);
    case _ =>
  }

  lemma ResultLater(w: World, e: Step)
    requires Good(w) && Enabled(w, e) && (e.CompleteStep? || e.DrainCompleteStep? || e.ToldStep?)
    ensures Later(w, Next(w, e))
  {
    hide Later, Good, Complete, DrainComplete, Told;
    match e
    case CompleteStep(o, code) => CompleteLater(w, o, code);
    case DrainCompleteStep => DrainCompleteLater(w);
    case ToldStep => ToldLater(w);
  }

  lemma MakeStepLater(w: World, e: Step)
    requires Good(w) && Enabled(w, e) && (e.MakeResponseStep? || e.SetHeaderStep? || e.MakeChunkStep?)
    ensures Later(w, Next(w, e))
  {
    hide Later, Good, MakeResponse, SetHeader, MakeChunk, HeapLater;
    match e
    case MakeResponseStep(o, n, memory) => MakeLater(w, o, n, memory, MakeResponse(w, o, n, memory));
    case SetHeaderStep(o, n) => MakeLater(w, o, n, true, SetHeader(w, o, n));
    case MakeChunkStep(o, n, memory) => MakeLater(w, o, n, memory, MakeChunk(w, o, n, memory));
  }

  lemma NextLater(w: World, e: Step)
    requires Good(w) && Enabled(w, e)
    ensures Later(w, Next(w, e))
  {
    hide Next;
    CallLater(w, e);
    if OnlyThreads(e) {
      ThreadStep(w, e);
      SameIsLater(w, Next(w, e));
    } else if e.PopStep? || e.DrainPopStep? || e.LimitsStep? || e.TakeStep? {
      QuietSteps(w, e);
      SameIsLater(w, Next(w, e));
    } else if e.MakeResponseStep? || e.SetHeaderStep? || e.MakeChunkStep? {
      MakeStepLater(w, e);
    } else if e.ReleaseChunkStep? || e.ReleaseOpStep? || e.ReleaseEngineStep? || e.DrainEndStep? {
      DropStepLater(w, e);
    } else if e.CompleteStep? || e.DrainCompleteStep? || e.ToldStep? {
      ResultLater(w, e);
    }
  }
}
