/**
 The promises of the C ABI runtime over whole runs: callbacks, generations, the
 close barrier, and nothing left behind.
 */
module BridgeTheorems {
  import opened Basics
  import opened Counting
  import opened BridgeHeap
  import opened Bridge
  import opened BridgeOrder
  import opened BridgeOwner
  import opened BridgeRuns
  import opened BridgeLater

  // -------------------------------------------------------------------------
  // Callbacks

  /** Callbacks run in completion order and never twice; an accepted operation is
      either without result or has been called, is being called or is next in line. */
  lemma CallbacksInOrder(w: World)
    requires Reachable(w)
    ensures w.q.completed == w.q.called + w.q.calling + w.q.notices && NoDup(w.q.completed) && |w.q.calling| <= 1
    ensures forall o | o in w.q.accepted :: o in w.h.tally.undone || o in w.q.completed
    ensures forall o | o in w.h.tally.undone :: o in w.q.accepted && o !in w.q.completed
    ensures forall o | o in w.q.completed :: o in w.q.accepted
    ensures NoDup(w.q.commands) && forall o | o in w.q.commands :: o !in w.q.notices && o !in w.q.calling
  {
    ReachableIsGood(w);
    ForQueues(w);
  }

  lemma ForQueues(w: World)
    requires Queued(w.h.tally.undone, w.h.tally.untold, w.q)
    ensures forall o | o in w.h.tally.undone :: o in w.q.accepted && o !in w.q.completed
    ensures forall o | o in w.q.commands :: o !in w.q.notices && o !in w.q.calling
  {
  }

  /** Once both threads are done, every accepted operation has been called back
      exactly once and nothing else has; nothing is queued, live or running. */
  lemma AllCalledAtRest(w: World)
    requires Reachable(w) && (w.p.state == 0 || w.p.state >= 4)
    ensures w.q.commands == [] && w.q.notices == [] && w.q.calling == [] && w.l.live == [] && w.l.instances == 0
    ensures w.q.called == w.q.completed && NoDup(w.q.called) && (forall o :: o in w.q.accepted <==> o in w.q.called)
    ensures w.h.tally.untold == {} && w.h.tally.activeOps == 0
  {
    ReachableIsGood(w);
    RestThreads(w.p, w.h.tally.undone, w.q, w.l.live);
    RestQueues(w.h.tally.undone, w.h.tally.untold, w.q);
    assert w.h.tally.activeOps == |w.h.tally.untold|;
  }

  lemma RestThreads(p: Threads, undone: set<Addr>, q: Queues, live: seq<Addr>)
    requires Threaded(p, undone, q, live) && (p.state == 0 || p.state >= 4)
    ensures undone == {} && q.commands == [] && live == [] && q.notices == [] && q.calling == []
  {
  }

  lemma RestQueues(undone: set<Addr>, untold: set<Addr>, q: Queues)
    requires Queued(undone, untold, q) && undone == {} && q.notices == [] && q.calling == []
    ensures untold == {} && q.called == q.completed && forall o :: o in q.accepted <==> o in q.called
  {
    assert q.called + [] + [] == q.called;
    forall o ensures o !in untold {}
  }

  // -------------------------------------------------------------------------
  // Generations

  // 0 -> 3 is 0 -> 1 -> 3 within one locked section.
  predicate StateEdge(a: int, b: int) {
    || a == b
    || (a == 0 && (b == 1 || b == 3)) || (a == 1 && (b == 2 || b == 3)) || (a == 2 && b == 3)
    || (a == 3 && b == 4) || (a == 4 && b == 5) || (a == 5 && b == 0)
  }

  lemma CallsKeepThreads(w: World, s: Addr, r: Addr, server: bool, n: nat, m: bool, c: bool)
    ensures Close(w, s, server, m).0.p == w.p && Submit(w, s, n, m, c).0.p == w.p && Read(w, r, m).0.p == w.p
    ensures ReleaseResponse(w, r, m).p == w.p
  {
  }

  lemma HostStepThreads(w: World, e: Step)
    requires Enabled(w, e) && (e.CloseStep? || e.SubmitStep? || e.ReadStep? || e.ReleaseResponseStep?)
    ensures Moves(w.p, Next(w, e).p, e.ReapEnd?)
  {
    match e
    case CloseStep(engine, server, m) => CallsKeepThreads(w, EngineInstance(w, engine), 0, server, 0, m, true);
    case SubmitStep(engine, n, m, c) => CallsKeepThreads(w, EngineInstance(w, engine), 0, true, n, m, c);
    case ReadStep(r, m) => CallsKeepThreads(w, 0, r, true, 0, m, true);
    case ReleaseResponseStep(r, m) => CallsKeepThreads(w, 0, r, true, 0, m, true);
  }

  lemma ReleaseStepThreads(w: World, e: Step)
    requires Enabled(w, e) && (e.ReleaseChunkStep? || e.ReleaseOpStep? || e.ReleaseEngineStep?)
    ensures Moves(w.p, Next(w, e).p, e.ReapEnd?)
  {
  }

  lemma {:induction false} RetireAllThreads(w: World, n: nat)
    ensures RetireAll(w, n).p == w.p
    decreases n
  {
    if n != 0 && w.l.live != [] {
      RetireAllThreads(Retire(w, w.l.live[0]), n - 1);
    }
  }

  lemma DropEventThreads(w: World, o: Addr)
    ensures DropEventResponse(w, o).p == w.p
  {
  }

  lemma CompleteThreads(w: World, o: Addr, code: int)
    ensures Complete(w, o, code).p == w.p
  {
    var v := if code != 0 then DropEventResponse(w, o) else w;
    DropEventThreads(w, o);
    OutcomeThreads(v, o, code);
  }

  lemma OwnerCallsKeepState(w: World, e: Step)
    requires Enabled(w, e) && !OnlyThreads(e)
    requires e.PopStep? || e.DrainPopStep? || e.DrainCompleteStep? || e.DrainEndStep? || e.CompleteStep?
    ensures Moves(w.p, Next(w, e).p, e.ReapEnd?)
  {
    if e.CompleteStep? {
      CompleteThreads(w, e.op6, e.code);
    } else if e.DrainCompleteStep? {
      if |w.p.owner.cur| == 1 {
        CompleteThreads(w, w.p.owner.cur[0], 3);
      }
    } else if e.DrainEndStep? {
      RetireAllThreads(w, |w.l.live|);
    }
  }

  lemma OtherCallsKeepThreads(w: World, e: Step)
    requires Enabled(w, e)
    requires e.LimitsStep? || e.MakeResponseStep? || e.SetHeaderStep? || e.MakeChunkStep? || e.TakeStep? || e.ToldStep?
    ensures Moves(w.p, Next(w, e).p, e.ReapEnd?)
  {
  }

  lemma CreateThreads(w: World, server: bool, len: nat, memory: seq<bool>, n: bool, o: bool)
    requires Good(w) && w.p.state < 3 && |memory| == 3
    ensures CreateUnchecked(w, server, len, memory, n, o).0.p == Start(w, n, o).0.p
  {
    var v := Start(w, n, o);
    if v.1 {
      StartedThreads(v.0, server, len, memory);
    }
  }

  lemma StartedThreads(w: World, server: bool, len: nat, memory: seq<bool>)
    requires |memory| == 3
    ensures CreateStarted(w, server, len, memory).0.p == w.p
  {
  }

  // The state takes one edge, and a notifier is started exactly on leaving 0.
  predicate Moves(p: Threads, q: Threads, joins: bool) {
    StateEdge(p.state, q.state) && q.starts == p.starts + Bit(p.state == 0 && q.state != 0) && q.joins == p.joins + Bit(joins)
  }

  lemma ThreadStepMoves(w: World, e: Step)
    requires Enabled(w, e) && OnlyThreads(e) && Threaded(w.p, w.h.tally.undone, w.q, w.l.live)
    ensures Moves(w.p, Next(w, e).p, e.ReapEnd?)
  {
  }

  lemma StartMoves(w: World, n: bool, o: bool)
    ensures Moves(w.p, Start(w, n, o).0.p, false)
  {
  }

  lemma CreateMoves(w: World, e: Step)
    requires Good(w) && Enabled(w, e) && e.CreateStep?
    ensures Moves(w.p, Next(w, e).p, e.ReapEnd?)
  {
    CreateThreads(w, e.server, e.len, e.memory, e.notifierStarts, e.ownerStarts);
    StartMoves(w, e.notifierStarts, e.ownerStarts);
  }

  lemma StepMoves(w: World, e: Step)
    requires Good(w) && Enabled(w, e)
    ensures Moves(w.p, Next(w, e).p, e.ReapEnd?)
  {
    if OnlyThreads(e) {
      ThreadStepMoves(w, e);
    } else if e.CreateStep? {
      CreateMoves(w, e);
    } else if e.CloseStep? || e.SubmitStep? || e.ReadStep? || e.ReleaseResponseStep? {
      HostStepThreads(w, e);
    } else if e.ReleaseChunkStep? || e.ReleaseOpStep? || e.ReleaseEngineStep? {
      ReleaseStepThreads(w, e);
    } else if e.PopStep? || e.DrainPopStep? || e.DrainCompleteStep? || e.DrainEndStep? || e.CompleteStep? {
      OwnerCallsKeepState(w, e);
    } else {
      OtherCallsKeepThreads(w, e);
    }
  }

  /** Every step moves the runtime state along 0, 1, 2, 3, 4, 5, 0 (1 may skip to
      3); leaving 0 starts one notifier and only 5 to 0 joins one, so every
      notifier started is joined exactly once before the next one starts. */
  lemma StateFollowsGenerations(w: World, e: Step, v: World)
    requires Good(w) && Enabled(w, e) && v == Next(w, e)
    ensures StateEdge(w.p.state, v.p.state)
    ensures v.p.starts == w.p.starts + Bit(w.p.state == 0 && v.p.state != 0)
    ensures v.p.joins == w.p.joins + Bit(w.p.state != 0 && v.p.state == 0)
    ensures v.p.starts == v.p.joins + Bit(v.p.state != 0)
  {
    NextGood(w, e);
    StepMoves(w, e);
    CountThreads(w.p, w.h.tally.undone, w.q, w.l.live);
    CountThreads(v.p, v.h.tally.undone, v.q, v.l.live);
  }

  lemma CountThreads(p: Threads, undone: set<Addr>, q: Queues, live: seq<Addr>)
    requires Threaded(p, undone, q, live)
    ensures p.starts == p.joins + Bit(p.state != 0)
  {
  }

  // -------------------------------------------------------------------------
  // Closing instances

  lemma CountsOn(w: World, s: Addr)
    requires Tallied(w.h.g.inst, w.h.tally) && Shapes(w.h)
    ensures At(w.h.tally.active, s) == Count(w.h.g.inst, w.h.tally.undone, s)
    ensures At(w.h.tally.notes, s) == Count(w.h.g.inst, w.h.tally.untold, s)
  {
    if s !in w.h.tally.active {
      forall k | k in w.h.g.inst ensures w.h.g.inst[k] != s {}
      CountNone(w.h.g.inst, w.h.tally.undone, s);
      CountNone(w.h.g.inst, w.h.tally.untold, s);
    }
  }

  lemma {:induction false} CountOfFewer(m: map<Addr, Addr>, a: set<Addr>, n: map<Addr, Addr>, b: set<Addr>, s: Addr)
    requires Fiber(n, b, s) <= Fiber(m, a, s)
    ensures Count(n, b, s) <= Count(m, a, s)
  {
    SmallerSet(Fiber(n, b, s), Fiber(m, a, s));
  }

  lemma SmallerSet(a: set<Addr>, b: set<Addr>)
    requires a <= b
    ensures |a| <= |b|
  {
    assert |b| == |b - a| + |a| by {
      assert b == (b - a) + a;
    }
  }

  lemma FewerOnClosing(h: Heap, t: Heap, next: Addr, closing: set<Addr>, s: Addr)
    requires HeapLater(h, t, next, closing) && s in closing
    requires forall o | o in t.tally.undone :: o in t.tally.untold
    requires forall o | o in h.tally.untold :: o in h.g.inst
    requires forall o | o in h.tally.undone :: o in h.tally.untold
    ensures Fiber(t.g.inst, t.tally.undone, s) <= Fiber(h.g.inst, h.tally.undone, s)
    ensures Fiber(t.g.inst, t.tally.untold, s) <= Fiber(h.g.inst, h.tally.untold, s)
  {
    forall o | o in Fiber(t.g.inst, t.tally.untold, s) ensures o in Fiber(h.g.inst, h.tally.untold, s) {}
    forall o | o in Fiber(t.g.inst, t.tally.undone, s) ensures o in Fiber(h.g.inst, h.tally.undone, s) {}
  }

  // What a closing instance still has to finish in v is no more than in w.
  ghost predicate Subsides(w: World, v: World, s: Addr) {
    && s in v.l.closing && (s in w.l.closed ==> s in v.l.closed)
    && At(v.h.tally.active, s) <= At(w.h.tally.active, s)
    && At(v.h.tally.notes, s) <= At(w.h.tally.notes, s)
  }

  lemma UndoneAreUntold(h: Heap)
    requires Tallied(h.g.inst, h.tally)
    ensures forall o | o in h.tally.undone :: o in h.tally.untold
  {
  }

  lemma SubsidesStep(w: World, v: World, s: Addr)
    requires Good(w) && Good(v) && s in w.l.closing && Later(w, v)
    ensures Subsides(w, v, s)
  {
    CountsOn(w, s);
    CountsOn(v, s);
    OpsAreOwners(w.h);
    UndoneAreUntold(w.h);
    UndoneAreUntold(v.h);
    FewerOnClosing(w.h, v.h, w.nextAddr, w.l.closing, s);
    CountOfFewer(w.h.g.inst, w.h.tally.undone, v.h.g.inst, v.h.tally.undone, s);
    CountOfFewer(w.h.g.inst, w.h.tally.untold, v.h.g.inst, v.h.tally.untold, s);
  }

  /** Once closing is set nothing is admitted on the instance any more: over every
      run its active operations and outstanding notifications only fall, and
      closing and closed stay set. */
  lemma {:induction false} ClosingOnlySubsides(w: World, steps: seq<Step>, s: Addr)
    requires Good(w) && Runs(w, steps) && s in w.l.closing
    ensures Subsides(w, After(w, steps), s)
    decreases |steps|
  {
    if steps != [] {
      var v := Next(w, steps[0]);
      NextGood(w, steps[0]);
      NextLater(w, steps[0]);
      SubsidesStep(w, v, s);
      ClosingOnlySubsides(v, steps[1..], s);
    }
  }

  /** The history of callbacks is only ever extended. */
  lemma {:induction false} HistoryGrows(w: World, steps: seq<Step>)
    requires Good(w) && Runs(w, steps)
    ensures var v := After(w, steps);
            w.q.called <= v.q.called && w.q.completed <= v.q.completed && w.q.accepted <= v.q.accepted
    decreases |steps|
  {
    if steps != [] {
      NextGood(w, steps[0]);
      NextLater(w, steps[0]);
      HistoryGrows(Next(w, steps[0]), steps[1..]);
    }
  }

  // -------------------------------------------------------------------------
  // Nothing is left behind

  ghost predicate HostHoldsNothing(w: World) {
    && w.x.engines == {} && w.x.resps == {} && w.x.chunks == {}
    && forall o :: Host(o) !in w.h.g.roots
  }

  lemma NoRoots(w: World)
    requires RootsOk(w.h.g.roots, w.h.tally.untold, w.h.kinds.Keys, w.h.resps.alive, w.l.live)
    requires EventsOk(w.h.g.roots, w.h.tally.undone, w.h.resps.chunks, w.x, w.q.notices)
    requires HostHoldsNothing(w) && w.h.tally.untold == {} && w.h.tally.undone == {} && w.q.notices == [] && w.l.live == []
    ensures w.h.g.roots == map[] && w.h.resps.chunks == {}
  {
    assert forall o :: o !in w.x.evResp && o !in w.x.evChunk;
    forall k ensures k !in w.h.g.roots {
      if k.Live? {
        assert Live(k.s) !in w.h.g.roots;
      } else if k.Runtime? {
        assert Runtime(k.o) !in w.h.g.roots;
      }
    }
    forall c ensures c !in w.h.resps.chunks {
      assert !Delivered(w.x.evChunk, c);
    }
  }

  // With no roots and no chunks there is nothing that could hold anything.
  lemma NothingHeld(h: Heap)
    requires Sound(h, multiset{}) && h.g.roots == map[] && h.resps.chunks == {}
    ensures h.g.refs == map[] && h.g.inst == map[] && h.g.resp == map[]
  {
    hide Shapes;
    forall o ensures o !in h.kinds {
      if o in h.kinds {
        ResponseTargets(h);
        OperationCounted(h, o);
        CountNone(h.g.roots, h.g.roots.Keys, o);
        assert false;
      }
    }
    NoResponses(h);
    forall k ensures k !in h.g.inst {}
    forall x ensures x !in h.g.refs {
      HeldIffCounted(h.g, x);
    }
  }

  lemma NoResponses(h: Heap)
    requires Sound(h, multiset{}) && h.g.roots == map[] && h.resps.chunks == {} && (forall o :: o !in h.kinds)
    ensures (forall k :: k !in h.g.inst) && (forall k :: k !in h.g.resp)
  {
    forall k ensures k !in h.g.resp {
      OwnersAre(h, k);
    }
    forall r ensures r !in h.resps.alive {
      if r in h.resps.alive {
        ResponseCounted(h, r);
        CountNone(h.g.resp, h.g.resp.Keys, r);
        CountNone(h.g.roots, h.g.roots.Keys, r);
        assert false;
      }
    }
    forall k ensures k !in h.g.inst {
      OwnersAre(h, k);
    }
  }

  lemma OwnersAre(h: Heap, k: Addr)
    requires Shapes(h) && RespsOk(h.g.inst, h.g.resp, h.resps, h.tally.undone, h.kinds)
    ensures k in h.g.inst ==> k in h.kinds || k in h.resps.alive || k in h.resps.chunks
    ensures k in h.g.resp ==> k in h.kinds || k in h.resps.chunks
  {
  }

  lemma NoMoney(h: Heap)
    requires Sound(h, multiset{}) && h.g.refs == map[] && h.g.inst == map[]
    ensures h.money.charged == map[] && h.money.ledger == map[] && h.money.retained == 0
  {
    assert forall s :: s !in h.money.charged;
    assert h.money.ledger.Keys == {};
    assert forall k :: k !in h.money.ledger;
  }

  /** When the threads are done and the host has released every handle, every
      instance, operation, response and chunk has been freed, and no byte is
      charged any more. */
  lemma NothingLeaks(w: World)
    requires Reachable(w) && (w.p.state == 0 || w.p.state >= 4) && HostHoldsNothing(w)
    ensures w.h.g.refs == map[] && w.h.g.inst == map[] && w.h.g.resp == map[] && w.h.g.roots == map[]
    ensures w.h.money.ledger == map[] && w.h.money.charged == map[] && w.h.money.retained == 0
  {
    AllCalledAtRest(w);
    ReachableIsGood(w);
    RestThreads(w.p, w.h.tally.undone, w.q, w.l.live);
    NoRoots(w);
    NothingHeld(w.h);
    NoMoney(w.h);
  }
}
