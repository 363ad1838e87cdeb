/**
 What each call on the executor answers and does, told from the pools' limits and from
 what is queued, working and owned, in every reachable state.
 */
module ExecutorAnswers {
  import opened Counting
  import opened Executor
  import opened ExecutorRuns

  // All credit of one kind that anyone owns, and what one pool owns of it.
  ghost function Used(e: Exec, dir: bool): int {
    if dir then Sum(e.credit.dirOwned) else Sum(e.credit.bodyOwned) + e.credit.loose
  }

  function Owned(e: Exec, dir: bool): map<Addr, int> {
    if dir then e.credit.dirOwned else e.credit.bodyOwned
  }

  // So much more would stay within the limit of every pool.
  ghost predicate Affordable(e: Exec, dir: bool, n: int) {
    Used(e, dir) + n <= INT64_MAX
    && forall i | 0 <= i < |e.pools| :: Used(e, dir) + n <= (if dir then e.pools[i].dirLimit else e.pools[i].bodyLimit)
  }

  function Minus(n: int): int {
    -n
  }

  // Only the credit of one kind changes, and of that only what pool `id` owns.
  ghost predicate Moved(e: Exec, f: Exec, id: Addr, dir: bool, n: int) {
    && f.pools == e.pools && f.stopping == e.stopping
    && Owned(f, !dir) == Owned(e, !dir) && f.credit.loose == e.credit.loose
    && Owned(f, dir).Keys == Owned(e, dir).Keys
    && (forall p | p in Owned(e, dir) :: Owned(f, dir)[p] == Owned(e, dir)[p] + (if p == id then n else 0))
    && Used(f, dir) == Used(e, dir) + n && Used(f, !dir) == Used(e, !dir)
  }

  // -------------------------------------------------------------------------

  /** hs_io_submit: a job is accepted exactly if no pool of that name is stopping and the
      queue is shorter than every pool's capacity.  It then waits behind all others
      under the next id, without credit; else nothing happens. */
  lemma SubmitExactly(e: Exec, id: Addr)
    requires Reachable(e) && Enabled(e, Submit(id))
    ensures var f, j := Next(e, Submit(id)), e.work.nextId + 1;
            var accepted := && (forall i | 0 <= i < |e.pools| :: |e.work.queue| < e.pools[i].capacity && !(e.pools[i].id == id && e.pools[i].stopping))
                            && |e.work.queue| < INT_MAX;
            if accepted then
              && f.work.queue == e.work.queue + [j] && f.work.jobs == e.work.jobs[j := id] && j !in e.work.jobs
              && f.credit.ledger == e.credit.ledger[j := Entry(id, 0)] && j !in e.credit.ledger
              && f.pools == e.pools && f.work.held == e.work.held && f.work.started == e.work.started
              && Used(f, true) == Used(e, true) && Used(f, false) == Used(e, false)
            else f == e
  {
    hide Next, Reachable, Queue, Charge, Used, Good, Least;
    UsedIs(e, Submit(id));
    Sizes(e);
    CapacityLeft(e);
    SubmitNext(e, id);
    if !IsStopping(e.pools, id) && e.work.queued < Least(Capacities(e.pools), INT_MAX) {
      SubmitFields(e, id);
    }
  }

  lemma SubmitNext(e: Exec, id: Addr)
    requires Enabled(e, Submit(id))
    ensures Next(e, Submit(id)) == if IsStopping(e.pools, id) || e.work.queued >= Least(Capacities(e.pools), INT_MAX) then e else Accepted(e, id)
  {
  }

  lemma SubmitFields(e: Exec, id: Addr)
    requires Good(e) && e.work.nextId + 1 !in e.credit.ledger
    ensures var f, j := Accepted(e, id), e.work.nextId + 1;
            && f.work.queue == e.work.queue + [j] && f.work.jobs == e.work.jobs[j := id] && j !in e.work.jobs
            && f.credit.ledger == e.credit.ledger[j := Entry(id, 0)]
            && f.pools == e.pools && f.work.held == e.work.held && f.work.started == e.work.started
            && f.credit.directory == e.credit.directory && f.credit.body == e.credit.body
  {
  }

  // A number is within the smallest limit exactly if it is within every one.
  lemma LeastBounds(xs: seq<int>, cap: int, x: int)
    ensures x <= Least(xs, cap) <==> x <= cap && forall i | 0 <= i < |xs| :: x <= xs[i]
  {
    if x <= Least(xs, cap) {
      forall i | 0 <= i < |xs| ensures x <= xs[i] {
        assert xs[i] in xs;
      }
    }
  }

  lemma CapacityLeft(e: Exec)
    ensures e.work.queued < Least(Capacities(e.pools), INT_MAX) <==>
              e.work.queued < INT_MAX && forall i | 0 <= i < |e.pools| :: e.work.queued < e.pools[i].capacity
  {
    LeastBounds(Capacities(e.pools), INT_MAX, e.work.queued + 1);
    assert forall i | 0 <= i < |e.pools| :: Capacities(e.pools)[i] == e.pools[i].capacity;
  }

  lemma WorkersLeft(e: Exec)
    ensures e.work.active < Least(Workers(e.pools), MAX_WORKERS) <==>
              e.work.active < MAX_WORKERS && forall i | 0 <= i < |e.pools| :: e.work.active < e.pools[i].workers
  {
    LeastBounds(Workers(e.pools), MAX_WORKERS, e.work.active + 1);
    assert forall i | 0 <= i < |e.pools| :: Workers(e.pools)[i] == e.pools[i].workers;
  }

  lemma AdmitsExactly(e: Exec, dir: bool, n: nat)
    requires Good(e)
    ensures Admits(e, dir, n) <==> Affordable(e, dir, n)
  {
    TotalsAre(e);
    LeastBounds(if dir then DirLimits(e.pools) else BodyLimits(e.pools), INT64_MAX, Used(e, dir) + n);
    assert forall i | 0 <= i < |e.pools| :: DirLimits(e.pools)[i] == e.pools[i].dirLimit && BodyLimits(e.pools)[i] == e.pools[i].bodyLimit;
  }

  // The two totals before and after a step.
  lemma UsedIs(e: Exec, s: Step)
    requires Reachable(e) && Enabled(e, s)
    ensures Good(e)
    ensures Used(e, true) == e.credit.directory && Used(e, false) == e.credit.body
    ensures Used(Next(e, s), true) == Next(e, s).credit.directory && Used(Next(e, s), false) == Next(e, s).credit.body
  {
    hide Next, Enabled;
    ReachableIsGood(e);
    NextGood(e, s);
    TotalsAre(e);
    TotalsAre(Next(e, s));
  }

  lemma Sizes(e: Exec)
    requires Good(e)
    ensures e.work.queued == |e.work.queue| && e.work.active == |e.work.held| && e.work.nextId + 1 !in e.credit.ledger
  {
    NewJob(e);
  }

  /** A worker takes the job that has waited longest, exactly if one waits and fewer
      threads hold a pool than every pool's worker limit; it holds that job's pool from
      then on. */
  lemma StartExactly(e: Exec)
    requires Reachable(e)
    ensures Enabled(e, Start) <==> e.work.queue != [] && |e.work.held| < MAX_WORKERS && forall i | 0 <= i < |e.pools| :: |e.work.held| < e.pools[i].workers
    ensures Enabled(e, Start) ==>
              var f, j := Next(e, Start), e.work.queue[0];
              && e.work.queue == [j] + f.work.queue && f.work.started == e.work.started + [j] && j in e.work.jobs
              && f.work.working == e.work.working + {j} && f.work.held == e.work.held[j := e.work.jobs[j]] && j !in e.work.held
              && f.pools == e.pools && f.credit == e.credit && f.work.jobs == e.work.jobs
  {
    hide Next, Reachable, Least, Good, Take;
    ReachableIsGood(e);
    WorkersLeft(e);
    Sizes(e);
    StartFields(e);
  }

  lemma StartFields(e: Exec)
    requires Good(e)
    ensures e.work.queue != [] ==> !e.stopping
    ensures e.work.queue != [] && Enabled(e, Start) ==>
              var f, j := Next(e, Start), e.work.queue[0];
              && e.work.queue == [j] + f.work.queue && f.work.started == e.work.started + [j] && j in e.work.jobs
              && f.work.working == e.work.working + {j} && f.work.held == e.work.held[j := e.work.jobs[j]] && j !in e.work.held
              && f.pools == e.pools && f.credit == e.credit && f.work.jobs == e.work.jobs
  {
    hide InOrder, QueueOk, ActiveOk, CreditOk, Least;
    if e.work.queue != [] {
      HeadFacts(e);
      assert Listed(e.pools, e.work.jobs[e.work.queue[0]]);
    }
  }

  /** hs_io_reserve: granted exactly if the total stays within the limit of every pool;
      then the pool owns so much more, and nothing else changes. */
  lemma ReserveExactly(e: Exec, id: Addr, dir: bool, n: nat)
    requires Reachable(e) && Enabled(e, Reserve(id, dir, n))
    ensures var f := Next(e, Reserve(id, dir, n));
            if Affordable(e, dir, n) then Moved(e, f, id, dir, n) && f.credit.ledger == e.credit.ledger && f.work == e.work else f == e
  {
    hide Reachable, Least, Used, Good, Admits, Affordable;
    UsedIs(e, Reserve(id, dir, n));
    PoolKeysOf(e, id);
    AdmitsExactly(e, dir, n);
  }

  /** hs_io_release: the pool owns so much less, if it owns that much; directory credit
      that was taken over always is owned. */
  lemma ReleaseExactly(e: Exec, id: Addr, dir: bool, n: nat)
    requires Reachable(e) && Enabled(e, Release(id, dir, n))
    ensures id in Owned(e, dir) && (dir ==> n <= Owned(e, dir)[id])
    ensures var f := Next(e, Release(id, dir, n));
            if n <= Owned(e, dir)[id] then Moved(e, f, id, dir, Minus(n)) && f.credit.ledger == e.credit.ledger && f.work == e.work else f == e
  {
    hide Reachable, Used, Good;
    UsedIs(e, Release(id, dir, n));
    PoolKeysOf(e, id);
    OwnsTaken(e, id);
    OwnedIsPositive(e, id);
  }

  lemma PoolKeysOf(e: Exec, id: Addr)
    requires Good(e) && id in e.work.counts
    ensures id in e.credit.dirOwned && id in e.credit.bodyOwned && id in e.credit.taken
  {
  }

  lemma OwnsTaken(e: Exec, id: Addr)
    requires Good(e) && id in e.credit.dirOwned
    ensures id in e.credit.taken && e.credit.taken[id] <= e.credit.dirOwned[id]
  {
    CreditParts(e.credit);
    BalancePositive(e.credit.ledger, id);
  }

  /** hs_io_body_acquire and hs_io_body_release: credit that no pool owns, within the same
      limits. */
  lemma LooseExactly(e: Exec, n: nat)
    requires Reachable(e)
    ensures var f := Next(e, AcquireBody(n));
            if Affordable(e, false, n) then f == e.(credit := e.credit.(body := e.credit.body + n, loose := e.credit.loose + n)) && Used(f, false) == Used(e, false) + n
            else f == e
    ensures Enabled(e, ReleaseLoose(n)) ==>
              var f := Next(e, ReleaseLoose(n));
              f == e.(credit := e.credit.(body := e.credit.body - n, loose := e.credit.loose - n)) && Used(f, false) == Used(e, false) - n
  {
    hide Reachable, Least, Used, Good, Admits, Affordable;
    UsedIs(e, AcquireBody(n));
    AdmitsExactly(e, false, n);
    BodyIsPositive(e);
    if Enabled(e, ReleaseLoose(n)) {
      UsedIs(e, ReleaseLoose(n));
    }
  }

  lemma BodyIsPositive(e: Exec)
    requires Good(e)
    ensures e.credit.body >= e.credit.loose
  {
    SumPositive(e.credit.bodyOwned);
  }

  /** hs_io_reserve by a worker: the job it runs holds so much more, and its pool owns it,
      exactly if the total stays within every pool's limit. */
  lemma ChargeExactly(e: Exec, j: Addr, n: nat)
    requires Reachable(e) && Enabled(e, ChargeStep(j, n))
    ensures j in e.credit.ledger && e.credit.ledger[j].account == e.work.jobs[j]
    ensures var f, p := Next(e, ChargeStep(j, n)), e.work.jobs[j];
            if Affordable(e, true, n) then Moved(e, f, p, true, n) && f.credit.ledger == e.credit.ledger[j := Entry(p, e.credit.ledger[j].amount + n)] && f.work == e.work
            else f == e
  {
    hide Reachable, Least, Used, Good, Admits, Affordable;
    UsedIs(e, ChargeStep(j, n));
    JobCredit(e, j);
    AdmitsExactly(e, true, n);
  }

  lemma JobCredit(e: Exec, j: Addr)
    requires Good(e) && j in e.work.jobs
    ensures j in e.credit.ledger && e.credit.ledger[j].account == e.work.jobs[j]
    ensures e.work.jobs[j] in e.credit.dirOwned && e.work.jobs[j] in e.credit.bodyOwned && e.work.jobs[j] in e.credit.taken
  {
  }

  /** hs_io_take_directory_charge: what the job holds passes to the owner; no total
      changes. */
  lemma TakeOverExactly(e: Exec, j: Addr)
    requires Reachable(e) && Enabled(e, TakeOverStep(j))
    ensures var f, p := Next(e, TakeOverStep(j)), e.work.jobs[j];
            && j in e.credit.ledger && e.credit.ledger[j].account == p && p in e.credit.taken
            && f.credit.ledger == e.credit.ledger[j := Entry(p, 0)]
            && f.credit.taken == e.credit.taken[p := e.credit.taken[p] + e.credit.ledger[j].amount]
            && Moved(e, f, p, true, 0) && f.work == e.work
  {
    hide Reachable, Used, Good;
    UsedIs(e, TakeOverStep(j));
    JobCredit(e, j);
  }

  /** hs_io_job_free: the job is gone and what it still held is nobody's any more. */
  lemma FreeExactly(e: Exec, j: Addr)
    requires Reachable(e) && Enabled(e, FreeJob(j))
    ensures var f, p := Next(e, FreeJob(j)), e.work.jobs[j];
            && j in e.credit.ledger && f.credit.ledger == e.credit.ledger - {j} && f.work == e.work.(jobs := e.work.jobs - {j})
            && Moved(e, f, p, true, Minus(e.credit.ledger[j].amount))
  {
    hide Reachable, Used, Good;
    UsedIs(e, FreeJob(j));
    JobCredit(e, j);
  }

  /** hs_io_pool_new puts the pool in front of the others, with nothing owned, queued or
      working; a worker's last two sections end its job and then its hold on the pool. */
  lemma ComeAndGoExactly(e: Exec, p: Pool, j: Addr)
    requires Reachable(e)
    ensures Enabled(e, NewPool(p)) ==>
              var f := Next(e, NewPool(p));
              && f.pools == [p] + e.pools && f.stopping == e.stopping && f.work == e.work.(counts := f.work.counts, actives := f.work.actives)
              && (forall dir: bool :: p.id !in Owned(e, dir) && Owned(f, dir) == Owned(e, dir)[p.id := 0] && Used(f, dir) == Used(e, dir))
              && f.credit.ledger == e.credit.ledger && f.credit.loose == e.credit.loose
    ensures Enabled(e, PublishStep(j)) ==> Next(e, PublishStep(j)) == e.(work := e.work.(working := e.work.working - {j}))
    ensures Enabled(e, LeaveStep(j)) ==>
              var f := Next(e, LeaveStep(j));
              && f.work.held == e.work.held - {j} && f.work.working == e.work.working && f.work.queue == e.work.queue && f.work.jobs == e.work.jobs
              && f.pools == e.pools && f.credit == e.credit && f.stopping == e.stopping
  {
    hide Reachable, Used, Good;
    ReachableIsGood(e);
    if Enabled(e, NewPool(p)) {
      UsedIs(e, NewPool(p));
      NewIsUnowned(e, p.id);
    }
  }

  lemma NewIsUnowned(e: Exec, id: Addr)
    requires Good(e) && id !in e.work.counts
    ensures id !in e.credit.dirOwned && id !in e.credit.bodyOwned
  {
  }

  /** hs_io_pool_free: first the pool is marked, and no other; in the end it is off the
      list with all that it owned, the others keep their order and their credit, and the
      workers stop exactly if it was the last. */
  lemma PoolLeavesExactly(e: Exec, id: Addr)
    requires Reachable(e)
    ensures Enabled(e, StopPool(id)) ==>
              var f := Next(e, StopPool(id));
              && f == e.(pools := f.pools) && |f.pools| == |e.pools|
              && forall i | 0 <= i < |e.pools| :: f.pools[i] == if e.pools[i].id == id then e.pools[i].(stopping := true) else e.pools[i]
    ensures Enabled(e, RemovePool(id)) ==>
              var f := Next(e, RemovePool(id));
              && (exists i :: 0 <= i < |e.pools| && e.pools[i].id == id && f.pools == e.pools[..i] + e.pools[i + 1..])
              && (f.stopping <==> |e.pools| == 1)
              && id in Owned(e, true) && id in Owned(e, false)
              && (forall dir: bool :: Owned(f, dir) == Owned(e, dir) - {id} && Used(f, dir) == Used(e, dir) - Owned(e, dir)[id])
              && f.work.queue == e.work.queue && f.work.held == e.work.held
  {
    hide Reachable, Used, Good;
    ReachableIsGood(e);
    if Enabled(e, RemovePool(id)) {
      UsedIs(e, RemovePool(id));
      PoolKeysOf(e, id);
      UnlistedIs(e.pools, id);
    }
  }

  lemma {:induction false} UnlistedIs(ps: seq<Pool>, id: Addr)
    requires exists i | 0 <= i < |ps| :: ps[i].id == id
    ensures exists i :: 0 <= i < |ps| && ps[i].id == id && Unlisted(ps, id) == ps[..i] + ps[i + 1..]
  {
    if ps[0].id == id {
      assert Unlisted(ps, id) == ps[..0] + ps[1..];
    } else {
      UnlistedIs(ps[1..], id);
      var i :| 0 <= i < |ps[1..]| && ps[1..][i].id == id && Unlisted(ps[1..], id) == ps[1..][..i] + ps[1..][i + 1..];
      assert Unlisted(ps, id) == ps[..i + 1] + ps[i + 2..];
    }
  }
}
