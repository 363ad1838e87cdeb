/**
 release_barrier and reap_runtime: the waits of a host thread that releases a
 handle on a closing instance, or that needs the old runtime gone.  While it waits,
 any number of steps of the other threads may happen.
 */
module BridgeBarrier {
  import opened Counting
  import opened Bridge
  import opened BridgeOrder
  import opened BridgeHost
  import opened BridgeRuns
  import opened BridgeLater
  import opened BridgeTheorems
  import opened BridgeHolds

  // The others do not release our handle, and while we join the notifier they do
  // not finish our join.
  predicate Others(step: Step, hold: Hold, joining: bool) {
    !GivesBack(step, hold) && !(joining && step == ReapEnd)
  }

  // WAIT, or an unlocked join: the others take those of the given steps that they can.
  function Wait(w: World, steps: seq<Step>, hold: Hold, joining: bool): World
    decreases |steps|
  {
    if steps == [] then w
    else Wait(if Enabled(w, steps[0]) && Others(steps[0], hold, joining) then Next(w, steps[0]) else w,
              steps[1..], hold, joining)
  }

  // What others cannot undo about instance s.
  ghost predicate Onward(w: World, v: World, s: Addr) {
    && (s in w.l.closing ==> s in v.l.closing) && (s in w.l.closed ==> s in v.l.closed)
    && (s in w.l.closing ==> At(v.h.tally.notes, s) <= At(w.h.tally.notes, s))
  }

  // What a host thread relies on: the invariant, and its handle if it holds one.
  ghost predicate Holding(w: World, hold: Hold) {
    Good(w) && Has(w, hold)
  }

  // What we know before and after others ran.
  ghost predicate Kept(w: World, v: World, hold: Hold, s: Addr) {
    Holding(v, hold) && Target(v, hold) == Target(w, hold) && Onward(w, v, s)
  }

  lemma KeptTrans(w: World, u: World, v: World, hold: Hold, s: Addr)
    requires Kept(w, u, hold, s) && Kept(u, v, hold, s)
    ensures Kept(w, v, hold, s)
  {
    hide Holding;
  }

  lemma KeptSelf(w: World, hold: Hold, s: Addr)
    requires Holding(w, hold)
    ensures Kept(w, w, hold, s)
  {
    hide Holding;
  }

  lemma StepOnward(w: World, e: Step, s: Addr, v: World)
    requires Good(w) && Enabled(w, e) && v == Next(w, e)
    ensures Good(v) && Onward(w, v, s)
  {
    hide Next;
    NextGood(w, e);
    NextLater(w, e);
    if s in w.l.closing {
      SubsidesStep(w, v, s);
    }
  }

  lemma StepKept(w: World, e: Step, hold: Hold, s: Addr, v: World)
    requires Holding(w, hold) && Enabled(w, e) && !GivesBack(e, hold) && v == Next(w, e)
    ensures Kept(w, v, hold, s)
  {
    hide Good, Next, Enabled, GivesBack;
    StepOnward(w, e, s, v);
    HoldKept(w, e, hold, v);
  }

  lemma {:induction false} WaitKept(w: World, steps: seq<Step>, hold: Hold, joining: bool, s: Addr)
    requires Holding(w, hold)
    ensures Kept(w, Wait(w, steps, hold, joining), hold, s)
    decreases |steps|
  {
    hide Good, Next, Enabled, GivesBack, Onward, Has, Target;
    if steps == [] {
      KeptSelf(w, hold, s);
    } else if Enabled(w, steps[0]) && Others(steps[0], hold, joining) {
      var v := Next(w, steps[0]);
      StepKept(w, steps[0], hold, s, v);
      WaitKept(v, steps[1..], hold, joining, s);
      KeptTrans(w, v, Wait(v, steps[1..], hold, joining), hold, s);
    } else {
      WaitKept(w, steps[1..], hold, joining, s);
    }
  }

  // Nobody but the joining thread leaves state 5.
  lemma StaysJoining(w: World, e: Step, v: World)
    requires Good(w) && Enabled(w, e) && w.p.state == 5 && e != ReapEnd && v == Next(w, e)
    ensures Good(v) && v.p.state == 5
  {
    NextGood(w, e);
    StepMoves(w, e);
    CountThreads(w.p, w.h.tally.undone, w.q, w.l.live);
    CountThreads(v.p, v.h.tally.undone, v.q, v.l.live);
  }

  lemma {:induction false} JoinKeepsState(w: World, steps: seq<Step>, hold: Hold)
    requires Good(w) && w.p.state == 5
    ensures Wait(w, steps, hold, true).p.state == 5
    decreases |steps|
  {
    hide Good, Next, Enabled, GivesBack;
    if steps != [] {
      if Enabled(w, steps[0]) && Others(steps[0], hold, true) {
        StaysJoining(w, steps[0], Next(w, steps[0]));
        JoinKeepsState(Next(w, steps[0]), steps[1..], hold);
      } else {
        JoinKeepsState(w, steps[1..], hold);
      }
    }
  }

  // -------------------------------------------------------------------------

  // Our own thread's steps and waits, each as one call.
  method OthersRun(w: World, steps: seq<Step>, hold: Hold, joining: bool, ghost s: Addr) returns (v: World)
    requires Holding(w, hold)
    ensures Kept(w, v, hold, s) && (joining && w.p.state == 5 ==> v.p.state == 5)
  {
    hide Holding, Kept;
    v := Wait(w, steps, hold, joining);
    WaitKept(w, steps, hold, joining, s);
    if joining && w.p.state == 5 {
      HoldingGood(w, hold);
      JoinKeepsState(w, steps, hold);
    }
  }

  lemma HoldingGood(w: World, hold: Hold)
    requires Holding(w, hold)
    ensures Good(w)
  {
    hide Good;
  }

  method BeginJoin(w: World, hold: Hold, ghost s: Addr) returns (v: World)
    requires Holding(w, hold) && w.p.state == 4
    ensures Kept(w, v, hold, s) && v.p.state == 5
  {
    hide Holding, Kept;
    v := Next(w, ReapBegin);
    StepKept(w, ReapBegin, hold, s, v);
  }

  method EndJoin(w: World, hold: Hold, ghost s: Addr) returns (v: World)
    requires Holding(w, hold) && w.p.state == 5
    ensures Kept(w, v, hold, s) && v.p.state == 0
  {
    hide Holding, Kept;
    v := Next(w, ReapEnd);
    StepKept(w, ReapEnd, hold, s, v);
  }

  lemma KeptHolding(w: World, v: World, hold: Hold, s: Addr)
    requires Kept(w, v, hold, s)
    ensures Holding(v, hold) && Target(v, hold) == Target(w, hold) && Onward(w, v, s)
  {
    hide Holding, Onward, Target;
  }

  // One round of the loop in reap_runtime: join the notifier, or wait.
  method ReapOnce(w: World, steps: seq<Step>, hold: Hold, ghost s: Addr) returns (v: World)
    requires Holding(w, hold) && w.p.state >= 3
    ensures Kept(w, v, hold, s) && (w.p.state == 4 ==> v.p.state == 0)
  {
    hide Holding, Kept, Target, Onward;
    if w.p.state == 4 {
      var u := BeginJoin(w, hold, s);
      KeptHolding(w, u, hold, s);
      var t := OthersRun(u, steps, hold, true, s);
      KeptHolding(u, t, hold, s);
      v := EndJoin(t, hold, s);
      KeptTrans(w, u, t, hold, s);
      KeptTrans(w, t, v, hold, s);
    } else {
      v := OthersRun(w, steps, hold, false, s);
    }
  }

  // reap_runtime; `i` counts the waits used up.  The caller may hold a handle or
  // none: start_runtime has none.
  method Reap(w: World, waits: seq<seq<Step>>, start: nat, hold: Hold, ghost s: Addr) returns (v: World, i: nat)
    requires Holding(w, hold) && start <= |waits|
    ensures Kept(w, v, hold, s) && start <= i <= |waits|
    ensures i < |waits| ==> v.p.state < 3
    ensures w.p.state >= 3 && start < |waits| ==> start < i
    ensures w.p.state < 3 ==> v == w && i == start
  {
    hide Holding, Kept, Target, Onward;
    v, i := w, start;
    KeptSelf(w, hold, s);
    while v.p.state >= 3 && i < |waits|
      invariant start <= i <= |waits| && Kept(w, v, hold, s)
      invariant start < i || v == w
      invariant w.p.state < 3 ==> v == w && i == start
      decreases |waits| - i
    {
      KeptHolding(w, v, hold, s);
      var u := ReapOnce(v, waits[i], hold, s);
      KeptTrans(w, v, u, hold, s);
      v, i := u, i + 1;
    }
  }

  lemma ClosedOnward(w: World, v: World, hold: Hold, s: Addr)
    requires Kept(w, v, hold, s) && s in w.l.closed
    ensures s in v.l.closed
  {
    hide Holding;
  }

  // while (!s->closed) WAIT, and while (s->notifications) WAIT.
  method WaitClosed(w: World, waits: seq<seq<Step>>, hold: Hold, s: Addr) returns (v: World, i: nat)
    requires Holding(w, hold)
    ensures Kept(w, v, hold, s) && i <= |waits|
    ensures i < |waits| ==> s in v.l.closed && At(v.h.tally.notes, s) <= 0
  {
    hide Holding, Kept, Target, Onward;
    v, i := w, 0;
    KeptSelf(w, hold, s);
    while s !in v.l.closed && i < |waits|
      invariant i <= |waits| && Kept(w, v, hold, s)
      decreases |waits| - i
    {
      KeptHolding(w, v, hold, s);
      var u := OthersRun(v, waits[i], hold, false, s);
      KeptTrans(w, v, u, hold, s);
      v, i := u, i + 1;
    }
    while At(v.h.tally.notes, s) > 0 && i < |waits|
      invariant i <= |waits| && Kept(w, v, hold, s) && (i < |waits| ==> s in v.l.closed)
      decreases |waits| - i
    {
      KeptHolding(w, v, hold, s);
      var u := OthersRun(v, waits[i], hold, false, s);
      KeptTrans(w, v, u, hold, s);
      ClosedOnward(v, u, hold, s);
      v, i := u, i + 1;
    }
  }

  // while (instances == 0 && state != 0) reap or WAIT.
  method WaitJoined(w: World, waits: seq<seq<Step>>, start: nat, hold: Hold, ghost s: Addr) returns (v: World, i: nat)
    requires Holding(w, hold) && start <= |waits|
    ensures Kept(w, v, hold, s) && start <= i <= |waits|
    ensures i < |waits| ==> v.l.instances != 0 || v.p.state == 0
  {
    hide Holding, Kept, Target, Onward;
    v, i := w, start;
    KeptSelf(w, hold, s);
    while v.l.instances == 0 && v.p.state != 0 && i < |waits|
      invariant start <= i <= |waits| && Kept(w, v, hold, s)
      decreases |waits| - i
    {
      var u;
      KeptHolding(w, v, hold, s);
      if v.p.state >= 3 {
        u, i := Reap(v, waits, i, hold, s);
      } else {
        u := OthersRun(v, waits[i], hold, false, s);
        i := i + 1;
      }
      KeptTrans(w, v, u, hold, s);
      v := u;
    }
  }

  // What the barrier waits for.
  predicate Quieted(w: World, s: Addr) {
    s in w.l.closed && At(w.h.tally.notes, s) == 0 && (w.l.instances != 0 || w.p.state == 0)
  }

  /** release_barrier for the instance behind a handle that the caller holds until
      after the barrier; `waits` is what the other threads do in its waits, and
      `i < |waits|` means that it has returned.  On a host thread a closing instance
      is then closed with no outstanding notification, and either another instance is
      live or the runtime's threads have been joined.  The handle still stands for
      the same instance. */
  method ReleaseBarrier(w: World, hold: Hold, libraryThread: bool, waits: seq<seq<Step>>) returns (v: World, i: nat)
    requires Holding(w, hold)
    ensures i <= |waits| && Holding(v, hold) && Target(v, hold) == Target(w, hold)
    ensures var s := Target(w, hold);
            if libraryThread || s !in w.l.closing then v == w && i == 0
            else i < |waits| ==> Quieted(v, s)
  {
    hide Holding, Kept, Target, Onward;
    var s := Target(w, hold);
    v, i := w, 0;
    if libraryThread || s !in w.l.closing {
      return;
    }
    var u, j := WaitClosed(w, waits, hold, s);
    KeptHolding(w, u, hold, s);
    v, i := WaitJoined(u, waits, j, hold, s);
    KeptHolding(u, v, hold, s);
    if i < |waits| {
      ClosedOnward(u, v, hold, s);
      HoldingGood(u, hold);
      NotesStayZero(u, v, hold, s);
    }
  }

  lemma NotesStayZero(w: World, v: World, hold: Hold, s: Addr)
    requires Good(w) && Kept(w, v, hold, s) && s in w.l.closed && At(w.h.tally.notes, s) <= 0
    ensures At(v.h.tally.notes, s) == 0
  {
    ClosedIsClosing(w, s);
    NotesCount(v, s);
  }

  function Returned(w: World, hold: Hold): World {
    match hold
    case ByEngine(e) => ReleaseEngine(w, e)
    case ByOperation(o) => ReleaseOp(w, o)
    case Nothing => w
  }

  // The drop after the barrier: nothing that was waited for is undone by it.
  method GiveBack(w: World, hold: Hold) returns (v: World)
    requires Holding(w, hold) && !hold.Nothing?
    ensures Good(v) && v == Returned(w, hold) && v.l == w.l && v.p == w.p
    ensures Quieted(w, Target(w, hold)) ==> Quieted(v, Target(w, hold))
  {
    hide Good, Target, ReleaseEngine, ReleaseOp;
    v := Returned(w, hold);
    GiveBackOnward(w, if hold.ByOperation? then ReleaseOpStep(hold.op) else ReleaseEngineStep(hold.engine), Target(w, hold), v);
  }

  lemma GiveBackOnward(w: World, e: Step, s: Addr, v: World)
    requires Good(w) && Enabled(w, e) && (e.ReleaseOpStep? || e.ReleaseEngineStep?) && v == Next(w, e)
    ensures Good(v) && v.l == w.l && v.p == w.p
    ensures Quieted(w, s) ==> At(v.h.tally.notes, s) == 0
  {
    hide Good;
    StepOnward(w, e, s, v);
    if Quieted(w, s) {
      ClosedIsClosing(w, s);
      NotesCount(v, s);
    }
  }

  /** hs_engine_release: on a host thread it returns only when a closing instance is
      closed and quiet for good. */
  method EngineRelease(w: World, engine: Addr, libraryThread: bool, waits: seq<seq<Step>>) returns (v: World, i: nat)
    requires Holding(w, ByEngine(engine))
    ensures i <= |waits| && Good(v)
    ensures var s := EngineInstance(w, engine);
            if libraryThread || s !in w.l.closing then v == ReleaseEngine(w, engine)
            else i < |waits| ==> Quieted(v, s)
  {
    hide Good, Quieted;
    var hold := ByEngine(engine);
    var u;
    u, i := ReleaseBarrier(w, hold, libraryThread, waits);
    v := u;
    if libraryThread || EngineInstance(w, engine) !in w.l.closing || i < |waits| {
      v := GiveBack(u, hold);
    }
  }

  /** hs_operation_release: an early release does not wait; one of a closed instance
      does, with nothing but the operation's handle. */
  method OperationRelease(w: World, op: Addr, libraryThread: bool, waits: seq<seq<Step>>) returns (v: World, i: nat)
    requires Holding(w, ByOperation(op))
    ensures i <= |waits| && Good(v)
    ensures var s := At(w.h.g.inst, op);
            if libraryThread || s !in w.l.closed then v == ReleaseOp(w, op)
            else i < |waits| ==> Quieted(v, s)
  {
    hide Good, Quieted;
    var hold := ByOperation(op);
    var s := At(w.h.g.inst, op);
    var u := w;
    i := 0;
    if s in w.l.closed {
      ClosedIsClosing(w, s);
      u, i := ReleaseBarrier(w, hold, libraryThread, waits);
    }
    v := u;
    if libraryThread || s !in w.l.closed || i < |waits| {
      v := GiveBack(u, hold);
    }
  }

  /** start_runtime on a host thread in a state of 3 or more: the old runtime is
      reaped first, by a thread that holds nothing, and only then is a new one
      started and the instance created. */
  method CreateAfterReap(w: World, server: bool, len: nat, memory: seq<bool>, notifierStarts: bool, ownerStarts: bool,
                         waits: seq<seq<Step>>) returns (v: World, code: Code, i: nat)
    requires Good(w) && w.p.state >= 3 && |memory| == 3 && len <= MAX_INPUT
    ensures i <= |waits| && Good(v)
    ensures i < |waits| && code.Ok? ==> 1 <= v.p.state <= 2
  {
    hide Good, Kept;
    var u;
    u, i := Reap(w, waits, 0, Nothing, 0);
    KeptHolding(w, u, Nothing, 0);
    v, code := u, Busy;
    if i < |waits| {
      var e := CreateStep(server, len, memory, notifierStarts, ownerStarts, true);
      StepOnward(u, e, 0, Next(u, e));
      CreateStartsRuntime(u, server, len, memory, notifierStarts, ownerStarts);
      v, code := Next(u, e), Create(u, server, len, memory, notifierStarts, ownerStarts, true).1;
    }
  }

  lemma CreateStartsRuntime(w: World, server: bool, len: nat, memory: seq<bool>, n: bool, o: bool)
    requires Good(w) && w.p.state < 3 && |memory| == 3
    ensures var (v, code) := Create(w, server, len, memory, n, o, true); code.Ok? ==> 1 <= v.p.state <= 2
  {
    hide CreateStarted;
    StartGood(w, n, o);
    CreateThreads(w, server, len, memory, n, o);
  }

  lemma NotesCount(w: World, s: Addr)
    requires Good(w)
    ensures At(w.h.tally.notes, s) >= 0
  {
    CountsOn(w, s);
  }

  /** What the barrier has established holds for good. */
  lemma BarrierHoldsForGood(w: World, s: Addr, steps: seq<Step>)
    requires Good(w) && Runs(w, steps) && s in w.l.closed && At(w.h.tally.notes, s) == 0
    ensures var v := After(w, steps); s in v.l.closed && At(v.h.tally.notes, s) == 0 && At(v.h.tally.active, s) == 0
  {
    ClosedIsClosing(w, s);
    ClosingOnlySubsides(w, steps, s);
    RunGood(w, steps);
    CountsOn(w, s);
    CountsOn(After(w, steps), s);
    UndoneAreUntold(w.h);
    CountSub(w.h.g.inst, w.h.tally.undone, w.h.tally.untold, s);
  }

  lemma ClosedIsClosing(w: World, s: Addr)
    requires Good(w) && s in w.l.closed
    ensures s in w.l.closing
  {
  }
}
