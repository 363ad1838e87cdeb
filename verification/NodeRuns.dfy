/**
 The Node adapter in memory through whole runs: each step is one method of class
 Adapter, the invariant holds after each, and what becomes of every operation and
 result holds of its fields.
 */
module NodeRuns {
  import opened Node
  import opened NodeProofs
  import opened NodeFates
  import opened NodeAdapter

  method WorkStep(a: Adapter, s: Step)
    requires Enabled(a.Now(), s)
    requires s.NewWork? || s.Accept? || s.Refuse? || s.Finish? || s.Complete? || s.Deliver?
    modifies a
    ensures a.Now() == Next(old(a.Now()), s)
  {
    hide BeginWork, AcceptOp, FinishSubmit, Completed, Delivered;
    match s
    case NewWork(k, ok) => a.StartWork(k, ok);
    case Accept(k, op) => a.CallAccepted(k, op);
    case Refuse(k) => a.CallRefused(k);
    case Finish(k, token) => a.FinishCall(k, token);
    case Complete(k, v) => a.WorkCompleted(k, v);
    case Deliver(k, alive, h) => a.DeliverWork(k, alive, h);
  }

  method OtherStep(a: Adapter, s: Step)
    requires Enabled(a.Now(), s)
    requires s.FinalizeBegin? || s.FinalizeEnd? || s.Cancel? || s.Release? || s.FinalizeHandle? || s.CleanupBegin? || s.CleanupEnd?
    modifies a
    ensures a.Now() == Next(old(a.Now()), s)
  {
    hide StartFinalize, EndFinalize, ReleaseHandle;
    match s
    case FinalizeBegin(k) => a.FinalizerStarts(k);
    case FinalizeEnd(k) => a.WorkFinalizer(k);
    case Cancel(h) => a.CancelToken(h);
    case Release(h) => a.ReleaseNodeHandle(h);
    case FinalizeHandle(h) => a.HandleFinalizer(h);
    case CleanupBegin => a.CleanupStarts();
    case CleanupEnd => a.CleanupEnds();
  }

  /** Any step of either thread, performed in memory, keeps the invariant. */
  method Perform(a: Adapter, s: Step)
    requires Good(a.Now()) && Enabled(a.Now(), s)
    modifies a
    ensures a.Now() == Next(old(a.Now()), s) && Good(a.Now())
  {
    hide Good, Next, Enabled;
    NextGood(a.Now(), s);
    if s.NewWork? || s.Accept? || s.Refuse? || s.Finish? || s.Complete? || s.Deliver? {
      WorkStep(a, s);
    } else {
      OtherStep(a, s);
    }
  }

  lemma RunsOn(w: World, steps: seq<Step>, i: nat)
    requires i < |steps| && Runs(w, steps[i..])
    ensures Enabled(w, steps[i]) && Runs(Next(w, steps[i]), steps[i + 1..])
    ensures After(w, steps[i..]) == After(Next(w, steps[i]), steps[i + 1..])
  {
    hide Enabled, Next;
    assert steps[i..][0] == steps[i] && steps[i..][1..] == steps[i + 1..];
  }

  // Every operation and every result has had its one fate.
  ghost predicate Settled(w: World) {
    && (forall o :: Times(w.log, ReleaseOp(o)) == if o in w.accepted && !Held(w.works, o) then 1 else 0)
    && (forall r :: Times(w.log, Wrap(r)) + Times(w.log, Dispose(r)) == if r in w.issued && !Carried(w.works, r) then 1 else 0)
    && (forall r :: Times(w.log, FreeHandle(r)) == if Wrap(r) in w.log && !Kept(w.handles, r) then 1 else 0)
  }

  lemma ReachableIsSettled(w: World)
    requires Reachable(w)
    ensures Settled(w)
  {
    hide Reachable;
    forall o ensures Times(w.log, ReleaseOp(o)) == if o in w.accepted && !Held(w.works, o) then 1 else 0 {
      OperationsReleasedExactly(w, o);
    }
    forall r ensures Times(w.log, Wrap(r)) + Times(w.log, Dispose(r)) == if r in w.issued && !Carried(w.works, r) then 1 else 0 {
      ResultsSpentExactly(w, r);
    }
    forall r ensures Times(w.log, FreeHandle(r)) == if Wrap(r) in w.log && !Kept(w.handles, r) then 1 else 0 {
      WrappedFreedExactly(w, r);
    }
  }

  /** A whole run in memory, any interleaving: it ends in the state of the state
      machine, the environment's counts are its holders, and every operation and
      result has been released, spent and freed exactly as often as it should. */
  method Drive(steps: seq<Step>) returns (a: Adapter)
    requires Runs(Init(), steps)
    ensures fresh(a) && a.Now() == After(Init(), steps) && Reachable(a.Now()) && Settled(a.Now())
    ensures a.env.freed <==> a.works == map[] && a.handles == map[] && a.env.cleaning == Cleaned
  {
    hide Good, Next, Init, Enabled, Runs, Settled;
    a := new Adapter();
    var i := 0;
    assert steps[0..] == steps;
    while i < |steps|
      invariant 0 <= i <= |steps| && fresh(a)
      invariant Good(a.Now()) && Runs(a.Now(), steps[i..]) && After(a.Now(), steps[i..]) == After(Init(), steps)
    {
      RunsOn(a.Now(), steps, i);
      Perform(a, steps[i]);
      i := i + 1;
    }
    assert steps[i..] == [];
    ReachableIsSettled(a.Now());
    EnvironmentLifetime(a.Now());
  }
}
