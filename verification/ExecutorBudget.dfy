/**
 The executor's budget as fields that the locked sections update in place, each
 method proved equal to the step it implements.
 */
module ExecutorBudget {
  import opened Basics
  import opened Counting
  import opened Executor
  import opened ExecutorRuns

  // The loop for the smallest live limit, over any of the limits: hs_worker_limit and
  // the loops in hs_io_reserve, hs_io_body_acquire and hs_io_submit.
  method Smallest(limits: seq<int>, cap: int) returns (limit: int)
    ensures limit == Least(limits, cap)
  {
    limit := cap;
    var i := |limits|;
    while i > 0
      invariant 0 <= i <= |limits| && limit == Least(limits[i..], cap)
    {
      i := i - 1;
      assert limits[i..][1..] == limits[i + 1..];
      if limits[i] < limit {
        limit := limits[i];
      }
    }
    assert limits[0..] == limits;
  }

  class Budget {
    var pools: seq<Pool>
    var work: Work
    var credit: Credit
    var stopping: bool

    ghost function Now(): Exec
      reads this
    {
      Exec(pools, work, credit, stopping)
    }

    constructor()
      ensures Now() == Init()
    {
      pools, stopping := [], false;
      work := Work([], map[], {}, map[], map[], map[], 0, 0, 0, []);
      credit := Credit(map[], map[], map[], 0, map[], 0, 0);
    }

    method PoolStopping(id: Addr) returns (stopping: bool)
      ensures stopping == IsStopping(pools, id)
    {
      var i := 0;
      while i < |pools|
        invariant 0 <= i <= |pools| && forall j | 0 <= j < i :: !(pools[j].id == id && pools[j].stopping)
      {
        if pools[i].id == id && pools[i].stopping {
          return true;
        }
        i := i + 1;
      }
      stopping := false;
    }

    // hs_io_pool_new
    method AddNewPool(p: Pool)
      modifies this
      ensures Now() == AddPool(old(Now()), p)
    {
      pools := [p] + pools;
      work := work.(counts := work.counts[p.id := 0], actives := work.actives[p.id := 0]);
      credit := credit.(dirOwned := credit.dirOwned[p.id := 0], taken := credit.taken[p.id := 0]);
      credit := credit.(bodyOwned := credit.bodyOwned[p.id := 0]);
    }

    // The mark that hs_io_pool_free sets before it waits.
    method MarkStopping(id: Addr)
      modifies this`pools
      ensures pools == Stopped(old(pools), id)
    {
      var i := 0;
      while i < |pools|
        invariant 0 <= i <= |pools| == |old(pools)|
        invariant forall j | 0 <= j < |pools| :: pools[j] == if j < i then Stopped(old(pools), id)[j] else old(pools)[j]
      {
        if pools[i].id == id {
          pools := pools[i := pools[i].(stopping := true)];
        }
        i := i + 1;
      }
    }

    // hs_io_take_directory_charge
    method TakeCharge(j: Addr) returns (n: int)
      modifies this`credit
      ensures credit == TakeOver(old(credit), j)
      ensures n == if j in old(credit.ledger) then old(credit.ledger)[j].amount else 0
    {
      n := 0;
      if j in credit.ledger {
        var e := credit.ledger[j];
        n := e.amount;
        credit := credit.(ledger := credit.ledger[j := Entry(e.account, 0)]);
        credit := credit.(taken := credit.taken[e.account := At(credit.taken, e.account) + n]);
      }
    }

    // hs_io_job_free
    method FreeJobOf(j: Addr)
      modifies this`credit, this`work
      ensures work == Forget(old(work), j) && credit == GiveBack(old(credit), j)
    {
      if j in credit.ledger {
        var e := credit.ledger[j];
        credit := credit.(directory := credit.directory - e.amount);
        credit := credit.(dirOwned := credit.dirOwned[e.account := At(credit.dirOwned, e.account) - e.amount]);
        credit := credit.(ledger := credit.ledger - {j});
      }
      work := work.(jobs := work.jobs - {j});
    }

    // hs_io_release
    method ReleaseCredit(id: Addr, dir: bool, n: nat)
      modifies this`credit
      ensures Now() == Released(old(Now()), id, dir, n)
    {
      if dir {
        if At(credit.dirOwned, id) >= n {
          credit := credit.(directory := credit.directory - n);
          credit := credit.(dirOwned := credit.dirOwned[id := At(credit.dirOwned, id) - n], taken := credit.taken[id := At(credit.taken, id) - n]);
        }
      } else if At(credit.bodyOwned, id) >= n {
        credit := credit.(body := credit.body - n);
        credit := credit.(bodyOwned := credit.bodyOwned[id := At(credit.bodyOwned, id) - n]);
      }
    }

    // hs_io_body_acquire
    method AcquireLoose(n: nat) returns (ok: bool)
      modifies this`credit
      ensures ok == Admits(old(Now()), false, n) && Now() == Acquired(old(Now()), n)
    {
      var limit := Smallest(BodyLimits(pools), INT64_MAX);
      ok := credit.body <= limit - n;
      if ok {
        credit := credit.(body := credit.body + n, loose := credit.loose + n);
      }
    }

    // hs_io_body_release
    method ReleaseLooseCredit(n: nat)
      modifies this`credit
      ensures Now() == Loosened(old(Now()), n)
    {
      if credit.body >= n {
        credit := credit.(body := credit.body - n, loose := credit.loose - n);
      }
    }

    // A worker has stored a job's result: from now on the owner may free the job.
    method PublishResult(j: Addr)
      modifies this`work
      ensures work == Publish(old(work), j)
    {
      work := work.(working := work.working - {j});
    }

    // hs_io_reserve by a worker, for the job it runs.
    method ChargeJob(j: Addr, n: nat) returns (ok: bool)
      requires j in work.jobs
      modifies this`credit
      ensures ok == Admits(old(Now()), true, n) && Now() == Charged(old(Now()), j, n)
    {
      hide At, DirLimits;
      var limit := Smallest(DirLimits(pools), INT64_MAX);
      ok := credit.directory <= limit - n;
      if ok {
        var p, before := work.jobs[j], if j in credit.ledger then credit.ledger[j].amount else 0;
        credit := credit.(directory := credit.directory + n);
        credit := credit.(dirOwned := credit.dirOwned[p := At(credit.dirOwned, p) + n]);
        credit := credit.(ledger := credit.ledger[j := Entry(p, before + n)]);
      }
    }

    method SubmitJob(id: Addr) returns (job: Option<Addr>)
      modifies this
      ensures Now() == Submitted(old(Now()), id)
      ensures job.Some? <==> !IsStopping(old(pools), id) && old(work.queued) < Least(Capacities(old(pools)), INT_MAX)
      ensures job.Some? ==> job.value == old(work.nextId) + 1
    {
      hide At, Capacities, Least, Charge;
      var limit := Smallest(Capacities(pools), INT_MAX);
      var stop := PoolStopping(id);
      if stop || work.queued >= limit {
        return None;
      }
      var j := work.nextId + 1;
      work := work.(nextId := j);
      work := work.(queue := work.queue + [j], jobs := work.jobs[j := id]);
      work := work.(queued := work.queued + 1);
      work := work.(counts := work.counts[id := At(work.counts, id) + 1]);
      credit := Charge(credit, j, id, 0);
      job := Some(j);
    }

    // The locked section of hs_worker that leaves its wait: a job, or the end.
    method WorkerSection() returns (job: Option<Addr>)
      modifies this`work
      ensures job.Some? <==> Enabled(old(Now()), Start)
      ensures job.Some? ==> Now() == Next(old(Now()), Start) && job.value == old(work.queue)[0]
      ensures job.None? ==> Now() == old(Now())
    {
      hide Workers, Take;
      var limit := Smallest(Workers(pools), MAX_WORKERS);
      if (work.queue == [] || work.active >= limit) && !stopping {
        return None;  // hs_wait
      }
      if work.queue == [] {
        return None;  // the worker leaves
      }
      job := StartJob();
    }

    method StartJob() returns (job: Option<Addr>)
      requires work.queue != []
      modifies this`work
      ensures work == Take(old(work)) && job == Some(old(work.queue)[0])
    {
      var j := work.queue[0];
      var p := At(work.jobs, j);
      work := work.(queue := work.queue[1..], started := work.started + [j], working := work.working + {j}, held := work.held[j := p]);
      work := work.(queued := work.queued - 1);
      work := work.(counts := work.counts[p := At(work.counts, p) - 1]);
      work := work.(active := work.active + 1);
      work := work.(actives := work.actives[p := At(work.actives, p) + 1]);
      job := Some(j);
    }

    // The last locked section of a job.
    method WorkerDone(j: Addr)
      modifies this`work
      ensures work == Leave(old(work), j)
    {
      var p := At(work.held, j);
      work := work.(actives := work.actives[p := At(work.actives, p) - 1]);
      work := work.(active := work.active - 1);
      work := work.(held := work.held - {j});
    }

    method ReserveCredit(id: Addr, dir: bool, n: int) returns (ok: bool)
      modifies this`credit
      ensures n < 0 ==> !ok
      ensures n >= 0 ==> ok == Admits(old(Now()), dir, n) && Now() == Reserved(old(Now()), id, dir, n)
      ensures !ok ==> Now() == old(Now())
    {
      var limit := Smallest(if dir then DirLimits(pools) else BodyLimits(pools), INT64_MAX);
      if n < 0 || (if dir then credit.directory else credit.body) > limit - n {
        return false;
      }
      if dir {
        credit := credit.(directory := credit.directory + n);
        credit := credit.(dirOwned := credit.dirOwned[id := At(credit.dirOwned, id) + n], taken := credit.taken[id := At(credit.taken, id) + n]);
      } else {
        credit := credit.(body := credit.body + n);
        credit := credit.(bodyOwned := credit.bodyOwned[id := At(credit.bodyOwned, id) + n]);
      }
      ok := true;
    }

    // hs_io_pool_free once the pool is drained.
    method FreePool(id: Addr)
      requires Drained(Now(), id)
      modifies this
      ensures Now() == DropPool(old(Now()), id)
    {
      credit := credit.(body := credit.body - At(credit.bodyOwned, id), directory := credit.directory - At(credit.dirOwned, id));
      credit := credit.(ledger := map j | j in credit.ledger && credit.ledger[j].account != id :: credit.ledger[j],
                        dirOwned := credit.dirOwned - {id}, taken := credit.taken - {id}, bodyOwned := credit.bodyOwned - {id});
      pools := Unlisted(pools, id);
      work := DropWork(work, id);
      stopping := pools == [];
    }
  }
}
