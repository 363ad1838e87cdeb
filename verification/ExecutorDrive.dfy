/**
 The executor in memory through whole runs: each step is one method of class Budget,
 the invariant holds after each, and the accounting holds of its fields.
 */
module ExecutorDrive {
  import opened Counting
  import opened Executor
  import opened ExecutorRuns
  import opened ExecutorBudget

  method OwnerStep(b: Budget, s: Step)
    requires Enabled(b.Now(), s)
    requires s.NewPool? || s.StopPool? || s.RemovePool? || s.Submit? || s.TakeOverStep? || s.FreeJob?
    modifies b
    ensures b.Now() == Next(old(b.Now()), s)
  {
    hide AddPool, Stopped, DropPool, Submitted, TakeOver, Forget, GiveBack;
    match s
    case NewPool(p) => b.AddNewPool(p);
    case StopPool(id) => b.MarkStopping(id);
    case RemovePool(id) => b.FreePool(id);
    case Submit(id) => var _ := b.SubmitJob(id);
    case TakeOverStep(j) => var _ := b.TakeCharge(j);
    case FreeJob(j) => b.FreeJobOf(j);
  }

  method CreditStep(b: Budget, s: Step)
    requires Enabled(b.Now(), s)
    requires s.Reserve? || s.Release? || s.AcquireBody? || s.ReleaseLoose? || s.ChargeStep?
    modifies b
    ensures b.Now() == Next(old(b.Now()), s)
  {
    hide Reserved, Released, Acquired, Loosened, Charged;
    match s
    case Reserve(id, dir, n) => var _ := b.ReserveCredit(id, dir, n);
    case Release(id, dir, n) => b.ReleaseCredit(id, dir, n);
    case AcquireBody(n) => var _ := b.AcquireLoose(n);
    case ReleaseLoose(n) => b.ReleaseLooseCredit(n);
    case ChargeStep(j, n) => var _ := b.ChargeJob(j, n);
  }

  method WorkerStep(b: Budget, s: Step)
    requires Enabled(b.Now(), s) && (s.Start? || s.PublishStep? || s.LeaveStep?)
    modifies b
    ensures b.Now() == Next(old(b.Now()), s)
  {
    hide Take, Publish, Leave, Least;
    match s
    case Start => var _ := b.WorkerSection();
    case PublishStep(j) => b.PublishResult(j);
    case LeaveStep(j) => b.WorkerDone(j);
  }

  /** Any step of owner or worker, performed in memory, keeps the invariant. */
  method Perform(b: Budget, s: Step)
    requires Good(b.Now()) && Enabled(b.Now(), s)
    modifies b
    ensures b.Now() == Next(old(b.Now()), s) && Good(b.Now())
  {
    hide Good, Next, Enabled;
    NextGood(b.Now(), s);
    if s.NewPool? || s.StopPool? || s.RemovePool? || s.Submit? || s.TakeOverStep? || s.FreeJob? {
      OwnerStep(b, s);
    } else if s.Start? || s.PublishStep? || s.LeaveStep? {
      WorkerStep(b, s);
    } else {
      CreditStep(b, s);
    }
  }

  lemma RunsOn(e: Exec, steps: seq<Step>, i: nat)
    requires i < |steps| && Runs(e, steps[i..])
    ensures Enabled(e, steps[i]) && Runs(Next(e, steps[i]), steps[i + 1..])
    ensures After(e, steps[i..]) == After(Next(e, steps[i]), steps[i + 1..])
  {
    hide Enabled, Next;
    assert steps[i..][0] == steps[i] && steps[i..][1..] == steps[i + 1..];
  }

  // The accounting, read off the fields.
  ghost predicate Exact(e: Exec) {
    && e.work.queued == |e.work.queue| == Sum(e.work.counts) && e.work.active == |e.work.held| == Sum(e.work.actives)
    && (forall i | 0 <= i < |e.work.started| :: e.work.started[i] == i + 1)
    && e.credit.directory == Sum(e.credit.dirOwned) && e.credit.body == Sum(e.credit.bodyOwned) + e.credit.loose
  }

  lemma ReachableIsExact(e: Exec)
    requires Reachable(e)
    ensures Exact(e)
  {
    hide Reachable;
    AccountingIsExact(e);
    CreditIsConserved(e);
  }

  method Begin() returns (b: Budget)
    ensures fresh(b) && b.Now() == Init() && Good(b.Now())
  {
    hide Good;
    b := new Budget();
    var e := InitGood();
  }

  /** A whole run in memory, any interleaving of owner and workers: it ends in the
      state of the state machine, with exact counters and conserved credit. */
  method Drive(steps: seq<Step>) returns (b: Budget)
    requires Runs(Init(), steps)
    ensures fresh(b) && b.Now() == After(Init(), steps) && Reachable(b.Now()) && Exact(b.Now())
  {
    hide Good, Next, Init, Enabled, Runs, Exact;
    b := Begin();
    var i := 0;
    assert steps[0..] == steps;
    while i < |steps|
      invariant 0 <= i <= |steps| && fresh(b)
      invariant Good(b.Now()) && Runs(b.Now(), steps[i..]) && After(b.Now(), steps[i..]) == After(Init(), steps)
    {
      RunsOn(b.Now(), steps, i);
      Perform(b, steps[i]);
      i := i + 1;
    }
    assert steps[i..] == [];
    ReachableIsExact(b.Now());
  }
}
