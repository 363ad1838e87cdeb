/**
 Whole runs of the native executor: any interleaving of the owner's calls with the
 workers' sections keeps the accounting, and what that means.
 */
module ExecutorRuns {
  import opened Counting
  import opened Executor

  datatype Step =
      // the owner
    | NewPool(pool: Pool) | StopPool(id: Addr) | RemovePool(id2: Addr)
    | Submit(id3: Addr) | TakeOverStep(job: Addr) | FreeJob(job2: Addr)
    | Reserve(id4: Addr, dir: bool, bytes: nat) | Release(id5: Addr, dir2: bool, bytes2: nat)
    | AcquireBody(bytes3: nat) | ReleaseLoose(bytes4: nat)
      // the workers
    | Start | PublishStep(job3: Addr) | LeaveStep(job4: Addr) | ChargeStep(job5: Addr, bytes5: nat)

  predicate Finished(e: Exec, j: Addr) {
    j in e.work.jobs && j !in e.work.queue && j !in e.work.working
  }

  predicate Drained(e: Exec, id: Addr) {
    id in e.work.counts && id in e.work.actives && e.work.counts[id] == 0 && e.work.actives[id] == 0
  }

  // When a step can be taken.  The owner uses a job only between its completion and
  // its release, and a pool only until it is freed; it releases what it has taken.
  predicate Enabled(e: Exec, s: Step) {
    match s
    case NewPool(p) => !e.stopping && p.id !in e.work.counts && !p.stopping && 1 <= p.workers <= MAX_WORKERS && p.capacity >= 1
    case StopPool(id) => id in e.work.counts
    case RemovePool(id) => (exists i | 0 <= i < |e.pools| :: e.pools[i].id == id && e.pools[i].stopping) && Drained(e, id)
    case Submit(id) => id in e.work.counts
    case TakeOverStep(j) => Finished(e, j)
    case FreeJob(j) => Finished(e, j)
    case Reserve(id, _, _) => id in e.work.counts
    case Release(id, dir, n) => id in e.work.counts && (dir ==> n <= At(e.credit.taken, id))
    case AcquireBody(n) => true
    case ReleaseLoose(n) => n <= e.credit.loose
    case Start => e.work.queue != [] && (e.work.active < Least(Workers(e.pools), MAX_WORKERS) || e.stopping)
    case PublishStep(j) => j in e.work.working
    case LeaveStep(j) => j in e.work.held && j !in e.work.working
    case ChargeStep(j, _) => j in e.work.working && j in e.work.jobs
  }

  function Stopped(ps: seq<Pool>, id: Addr): seq<Pool> {
    seq(|ps|, i requires 0 <= i < |ps| => if ps[i].id == id then ps[i].(stopping := true) else ps[i])
  }

  function Unlisted(ps: seq<Pool>, id: Addr): seq<Pool> {
    if ps == [] then [] else if ps[0].id == id then ps[1..] else [ps[0]] + Unlisted(ps[1..], id)
  }

  function IsStopping(ps: seq<Pool>, id: Addr): bool {
    exists i | 0 <= i < |ps| :: ps[i].id == id && ps[i].stopping
  }

  function AddPool(e: Exec, p: Pool): Exec {
    Exec([p] + e.pools,
         e.work.(counts := e.work.counts[p.id := 0], actives := e.work.actives[p.id := 0]),
         e.credit.(dirOwned := e.credit.dirOwned[p.id := 0], taken := e.credit.taken[p.id := 0], bodyOwned := e.credit.bodyOwned[p.id := 0]),
         e.stopping)
  }

  // hs_io_pool_free after its wait; jobs of the pool can no longer be used.
  function DropPool(e: Exec, id: Addr): Exec {
    var ps := Unlisted(e.pools, id);
    Exec(ps, DropWork(e.work, id), DropCredit(e.credit, id), ps == [])
  }

  function DropWork(w: Work, id: Addr): Work {
    w.(jobs := map j | j in w.jobs && w.jobs[j] != id :: w.jobs[j], counts := w.counts - {id}, actives := w.actives - {id})
  }

  function DropCredit(c: Credit, id: Addr): Credit {
    c.(ledger := map j | j in c.ledger && c.ledger[j].account != id :: c.ledger[j],
       dirOwned := c.dirOwned - {id}, taken := c.taken - {id}, bodyOwned := c.bodyOwned - {id},
       directory := c.directory - At(c.dirOwned, id), body := c.body - At(c.bodyOwned, id))
  }

  predicate Admits(e: Exec, dir: bool, n: nat) {
    if dir then e.credit.directory <= Least(DirLimits(e.pools), INT64_MAX) - n
    else e.credit.body <= Least(BodyLimits(e.pools), INT64_MAX) - n
  }

  // hs_io_submit
  function Submitted(e: Exec, id: Addr): Exec {
    if IsStopping(e.pools, id) || e.work.queued >= Least(Capacities(e.pools), INT_MAX) then e else Accepted(e, id)
  }

  function Accepted(e: Exec, id: Addr): Exec {
    e.(work := Queue(e.work, id), credit := Charge(e.credit, e.work.nextId + 1, id, 0))
  }

  // hs_io_reserve and hs_io_release, called by the owner
  function Reserved(e: Exec, id: Addr, dir: bool, n: nat): Exec {
    if Admits(e, dir, n) then e.(credit := if dir then ReserveDir(e.credit, id, n) else ReserveBody(e.credit, id, n)) else e
  }

  function Released(e: Exec, id: Addr, dir: bool, n: nat): Exec {
    e.(credit := if dir then ReleaseDir(e.credit, id, n) else ReleaseBody(e.credit, id, n))
  }

  // hs_io_body_acquire and hs_io_body_release
  function Acquired(e: Exec, n: nat): Exec {
    if Admits(e, false, n) then e.(credit := e.credit.(body := e.credit.body + n, loose := e.credit.loose + n)) else e
  }

  function Loosened(e: Exec, n: nat): Exec {
    if e.credit.body >= n then e.(credit := e.credit.(body := e.credit.body - n, loose := e.credit.loose - n)) else e
  }

  // hs_io_reserve, called by the worker that lists a directory
  function Charged(e: Exec, j: Addr, n: nat): Exec {
    if Admits(e, true, n) && j in e.work.jobs then e.(credit := Charge(e.credit, j, e.work.jobs[j], n)) else e
  }

  function Next(e: Exec, s: Step): Exec
    requires Enabled(e, s)
  {
    match s
    case NewPool(p) => AddPool(e, p)
    case StopPool(id) => e.(pools := Stopped(e.pools, id))
    case RemovePool(id) => DropPool(e, id)
    case Submit(id) => Submitted(e, id)
    case TakeOverStep(j) => e.(credit := TakeOver(e.credit, j))
    case FreeJob(j) => e.(work := Forget(e.work, j), credit := GiveBack(e.credit, j))
    case Reserve(id, dir, n) => Reserved(e, id, dir, n)
    case Release(id, dir, n) => Released(e, id, dir, n)
    case AcquireBody(n) => Acquired(e, n)
    case ReleaseLoose(n) => Loosened(e, n)
    case Start => e.(work := Take(e.work))
    case PublishStep(j) => e.(work := Publish(e.work, j))
    case LeaveStep(j) => e.(work := Leave(e.work, j))
    case ChargeStep(j, n) => Charged(e, j, n)
  }

  // -------------------------------------------------------------------------
  // Pools come and go

  lemma CountNobody(w: Work, id: Addr)
    requires (forall j | j in w.jobs :: w.jobs[j] != id) && forall j | j in w.held :: w.held[j] != id
    ensures Count(w.jobs, Elems(w.queue), id) == 0 && Count(w.held, w.held.Keys, id) == 0
  {
    forall j | j in Elems(w.queue) && j in w.jobs ensures w.jobs[j] != id {}
    forall j | j in w.held ensures w.held[j] != id {}
    CountNone(w.jobs, Elems(w.queue), id);
    CountNone(w.held, w.held.Keys, id);
  }

  lemma AddPoolWork(w: Work, id: Addr)
    requires QueueOk(w) && ActiveOk(w) && id !in w.counts && id !in w.actives
    requires (forall j | j in w.jobs :: w.jobs[j] != id) && forall j | j in w.held :: w.held[j] != id
    ensures var v := w.(counts := w.counts[id := 0], actives := w.actives[id := 0]); QueueOk(v) && ActiveOk(v)
  {
    CountNobody(w, id);
    SumPut(w.counts, id, 0);
    SumPut(w.actives, id, 0);
  }

  lemma AddPoolCredit(c: Credit, id: Addr)
    requires CreditOk(c) && id !in c.dirOwned && id !in c.bodyOwned
    ensures CreditOk(c.(dirOwned := c.dirOwned[id := 0], taken := c.taken[id := 0], bodyOwned := c.bodyOwned[id := 0]))
  {
    BalanceZero(c.ledger, id);
    SumPut(c.dirOwned, id, 0);
    SumPut(c.bodyOwned, id, 0);
  }

  lemma AddPoolPools(e: Exec, p: Pool)
    requires PoolsOk(e) && p.id !in e.work.counts && !e.stopping
    ensures PoolsOk(AddPool(e, p))
  {
    var f := AddPool(e, p);
    assert f.pools[1..] == e.pools;
    forall q ensures q in f.work.counts <==> Listed(f.pools, q) {
      ListedHead(f.pools, q);
    }
    forall i, j | 0 <= i < j < |f.pools| ensures f.pools[i].id != f.pools[j].id {
      assert f.pools[j] == e.pools[j - 1];
      assert Listed(e.pools, f.pools[j].id);
    }
  }

  lemma NoneOf(w: Work, id: Addr)
    requires QueueOk(w) && ActiveOk(w) && id in w.counts && id in w.actives && w.counts[id] == 0 && w.actives[id] == 0
    ensures (forall j | j in w.queue :: w.jobs[j] != id) && forall j | j in w.held :: w.held[j] != id
  {
    forall j | j in w.queue ensures w.jobs[j] != id {
      CountZero(w.jobs, Elems(w.queue), id, j);
    }
    forall j | j in w.held ensures w.held[j] != id {
      CountZero(w.held, w.held.Keys, id, j);
    }
  }

  lemma DropPoolQueue(w: Work, id: Addr)
    requires QueueOk(w) && id in w.counts && w.counts[id] == 0 && forall j | j in w.queue :: w.jobs[j] != id
    ensures QueueOk(DropWork(w, id))
  {
    var v := DropWork(w, id);
    SumDel(w.counts, id);
    forall q | q in v.counts ensures v.counts[q] == Count(v.jobs, Elems(v.queue), q) {
      forall j | j in Elems(w.queue) ensures j in w.jobs && j in v.jobs && v.jobs[j] == w.jobs[j] {
        assert j in w.queue;
      }
      CountFrame(w.jobs, v.jobs, Elems(w.queue), q);
    }
  }

  lemma DropPoolActive(w: Work, id: Addr)
    requires ActiveOk(w) && id in w.actives && w.actives[id] == 0 && forall j | j in w.held :: w.held[j] != id
    ensures ActiveOk(DropWork(w, id))
  {
    SumDel(w.actives, id);
  }

  lemma DropPoolCredit(c: Credit, id: Addr)
    requires CreditOk(c) && id in c.dirOwned && id in c.bodyOwned
    ensures CreditOk(DropCredit(c, id))
  {
    var d := DropCredit(c, id);
    SumDel(c.dirOwned, id);
    SumDel(c.bodyOwned, id);
    forall q | q in d.dirOwned ensures d.dirOwned[q] == Balance(d.ledger, q) + d.taken[q] {
      assert Of(d.ledger, q) == Of(c.ledger, q);
    }
  }

  lemma {:induction false} UnlistedIs(ps: seq<Pool>, id: Addr)
    requires Unique(ps)
    ensures var qs := Unlisted(ps, id);
            && Unique(qs)
            && (forall q :: Listed(qs, q) <==> Listed(ps, q) && q != id)
  {
    if ps != [] {
      var rest := ps[1..];
      forall i, j | 0 <= i < j < |rest| ensures rest[i].id != rest[j].id {
        assert rest[i] == ps[i + 1] && rest[j] == ps[j + 1];
      }
      forall q ensures Listed(ps, q) <==> q == ps[0].id || Listed(rest, q) {
        ListedHead(ps, q);
      }
      if ps[0].id == id {
        forall i | 0 <= i < |rest| ensures rest[i].id != id {
          assert rest[i] == ps[i + 1];
        }
      } else {
        UnlistedIs(rest, id);
        var qs := [ps[0]] + Unlisted(rest, id);
        forall q ensures Listed(qs, q) <==> q == ps[0].id || Listed(Unlisted(rest, id), q) {
          ListedHead(qs, q);
        }
        assert !Listed(rest, ps[0].id) by {
          forall i | 0 <= i < |rest| ensures rest[i].id != ps[0].id {
            assert rest[i] == ps[i + 1];
          }
        }
        assert !Listed(Unlisted(rest, id), ps[0].id);
        forall i | 0 < i < |qs| ensures qs[i].id != ps[0].id {
          assert qs[i] == Unlisted(rest, id)[i - 1];
        }
      }
    }
  }

  lemma ListedHead(ps: seq<Pool>, q: Addr)
    requires ps != []
    ensures Listed(ps, q) <==> q == ps[0].id || Listed(ps[1..], q)
  {
    if Listed(ps, q) && q != ps[0].id {
      var i :| 0 <= i < |ps| && ps[i].id == q;
      assert ps[1..][i - 1].id == q;
    }
    if Listed(ps[1..], q) {
      var i :| 0 <= i < |ps[1..]| && ps[1..][i].id == q;
      assert ps[i + 1].id == q;
    }
  }

  lemma DropPoolPools(e: Exec, id: Addr)
    requires PoolsOk(e) && id in e.work.counts && forall j | j in e.work.held :: e.work.held[j] != id
    ensures PoolsOk(DropPool(e, id))
  {
    var f := DropPool(e, id);
    UnlistedIs(e.pools, id);
    forall q ensures q in f.work.counts <==> Listed(f.pools, q) {
      assert q in e.work.counts <==> Listed(e.pools, q);
    }
  }

  lemma StoppedPools(e: Exec, id: Addr)
    requires PoolsOk(e)
    ensures PoolsOk(e.(pools := Stopped(e.pools, id)))
  {
    var qs := Stopped(e.pools, id);
    assert |qs| == |e.pools| && forall i | 0 <= i < |qs| :: qs[i].id == e.pools[i].id;
    forall q ensures Listed(qs, q) <==> Listed(e.pools, q) {
      if Listed(e.pools, q) {
        var i :| 0 <= i < |e.pools| && e.pools[i].id == q;
        assert qs[i].id == q;
      }
    }
  }

  // -------------------------------------------------------------------------
  // Every step keeps the accounting

  lemma AddPoolGood(e: Exec, p: Pool)
    requires Good(e) && !e.stopping && p.id !in e.work.counts
    ensures Good(AddPool(e, p))
  {
    NobodyYet(e, p.id);
    AddPoolWork(e.work, p.id);
    AddPoolCredit(e.credit, p.id);
    AddPoolPools(e, p);
  }

  lemma NobodyYet(e: Exec, id: Addr)
    requires PoolsOk(e) && id !in e.work.counts
    ensures (forall j | j in e.work.jobs :: e.work.jobs[j] != id) && forall j | j in e.work.held :: e.work.held[j] != id
  {
  }

  lemma DropPoolGood(e: Exec, id: Addr)
    requires Good(e) && Drained(e, id)
    ensures Good(DropPool(e, id))
  {
    NoneOf(e.work, id);
    DropPoolQueue(e.work, id);
    DropPoolActive(e.work, id);
    DropPoolCredit(e.credit, id);
    DropPoolPools(e, id);
  }

  lemma AdmittedPools(e: Exec, id: Addr)
    requires PoolsOk(e) && QueueOk(e.work) && id in e.work.counts
    ensures PoolsOk(Accepted(e, id))
  {
    var f := Accepted(e, id);
    assert f.work.counts.Keys == e.work.counts.Keys && f.credit.dirOwned.Keys == e.credit.dirOwned.Keys;
  }

  lemma AcceptedWork(w: Work, id: Addr)
    requires InOrder(w) && QueueOk(w) && ActiveOk(w) && id in w.counts
    ensures InOrder(Queue(w, id)) && QueueOk(Queue(w, id)) && ActiveOk(Queue(w, id))
  {
    QueueKeeps(w, id);
    QueueInOrder(w, id);
    QueueActive(w, id);
  }

  lemma AcceptedCredit(e: Exec, id: Addr)
    requires PoolsOk(e) && QueueOk(e.work) && CreditOk(e.credit) && id in e.work.counts
    ensures CreditOk(Charge(e.credit, e.work.nextId + 1, id, 0))
  {
    NewJob(e);
    PoolKeys(e, id);
    ChargeKeeps(e.credit, e.work.nextId + 1, id, 0);
  }

  lemma SubmitGood(e: Exec, id: Addr)
    requires Good(e) && id in e.work.counts
    ensures Good(Accepted(e, id))
  {
    hide InOrder, QueueOk, ActiveOk, CreditOk, PoolsOk, Queue, Charge;
    AcceptedWork(e.work, id);
    AcceptedCredit(e, id);
    AdmittedPools(e, id);
  }

  lemma NewJob(e: Exec)
    requires PoolsOk(e) && QueueOk(e.work)
    ensures e.work.nextId + 1 !in e.credit.ledger
  {
  }

  lemma StartPools(e: Exec)
    requires PoolsOk(e) && QueueOk(e.work) && e.work.queue != []
    ensures PoolsOk(e.(work := Take(e.work)))
  {
    var j := e.work.queue[0];
    assert j in e.work.queue;
    var f := e.(work := Take(e.work));
    assert f.work.counts.Keys == e.work.counts.Keys && f.work.actives.Keys == e.work.actives.Keys;
  }

  lemma HeadFacts(e: Exec)
    requires PoolsOk(e) && QueueOk(e.work) && e.work.queue != []
    ensures var j := e.work.queue[0];
            j in e.work.jobs && j !in e.work.held && e.work.jobs[j] in e.work.counts && e.work.jobs[j] in e.work.actives
  {
    assert e.work.queue[0] in e.work.queue;
  }

  lemma StartGood(e: Exec)
    requires Good(e) && e.work.queue != []
    ensures Good(e.(work := Take(e.work)))
  {
    HeadApart(e.work);
    HeadFacts(e);
    TakeInOrder(e.work);
    TakeQueue(e.work);
    TakeActive(e.work);
    StartPools(e);
  }

  lemma LeavePools(e: Exec, j: Addr)
    requires PoolsOk(e) && j in e.work.held
    ensures PoolsOk(e.(work := Leave(e.work, j))) && e.work.held[j] in e.work.actives
  {
    assert Leave(e.work, j).actives.Keys == e.work.actives.Keys;
  }

  lemma LeaveQueue(w: Work, j: Addr)
    requires QueueOk(w)
    ensures QueueOk(Leave(w, j)) && QueueOk(Publish(w, j))
  {
  }

  lemma LeaveGood(e: Exec, j: Addr)
    requires Good(e) && j in e.work.held && j !in e.work.working
    ensures Good(e.(work := Leave(e.work, j)))
  {
    LeavePools(e, j);
    LeaveActive(e.work, j);
    LeaveQueue(e.work, j);
  }

  lemma PublishGood(e: Exec, j: Addr)
    requires Good(e)
    ensures Good(e.(work := Publish(e.work, j)))
  {
    LeaveQueue(e.work, j);
    PublishRest(e, j);
  }

  lemma PublishRest(e: Exec, j: Addr)
    requires ActiveOk(e.work) && PoolsOk(e)
    ensures ActiveOk(Publish(e.work, j)) && PoolsOk(e.(work := Publish(e.work, j)))
  {
  }

  lemma FreePools(e: Exec, j: Addr)
    requires PoolsOk(e) && CreditOk(e.credit)
    ensures PoolsOk(e.(work := Forget(e.work, j), credit := GiveBack(e.credit, j)))
  {
    hide CreditOk, Sum, Listed;
    assert GiveBack(e.credit, j).dirOwned.Keys == e.credit.dirOwned.Keys;
  }

  lemma FreeGood(e: Exec, j: Addr)
    requires Good(e) && Finished(e, j)
    ensures Good(e.(work := Forget(e.work, j), credit := GiveBack(e.credit, j)))
  {
    ForgetKeeps(e.work, j);
    GiveBackKeeps(e.credit, j);
    FreePools(e, j);
  }

  // Steps that touch only the credit, and neither its pools nor who owes it.
  lemma CreditPools(e: Exec, c: Credit)
    requires PoolsOk(e) && c.dirOwned.Keys == e.credit.dirOwned.Keys && c.bodyOwned.Keys == e.credit.bodyOwned.Keys
    requires c.ledger.Keys == e.credit.ledger.Keys && forall j | j in c.ledger :: c.ledger[j].account == e.credit.ledger[j].account
    ensures PoolsOk(e.(credit := c))
  {
  }

  lemma CreditGood(e: Exec, c: Credit)
    requires Good(e) && CreditOk(c) && c.dirOwned.Keys == e.credit.dirOwned.Keys && c.bodyOwned.Keys == e.credit.bodyOwned.Keys
    requires c.ledger.Keys == e.credit.ledger.Keys && forall j | j in c.ledger :: c.ledger[j].account == e.credit.ledger[j].account
    ensures Good(e.(credit := c))
  {
    CreditPools(e, c);
  }

  lemma SameDebtorsGood(e: Exec, c: Credit)
    requires Good(e) && CreditOk(c) && c.dirOwned.Keys == e.credit.dirOwned.Keys && c.bodyOwned.Keys == e.credit.bodyOwned.Keys
    requires c.ledger == e.credit.ledger
    ensures Good(e.(credit := c))
  {
    CreditPools(e, c);
  }

  lemma TakeOverGood(e: Exec, j: Addr)
    requires Good(e)
    ensures Good(e.(credit := TakeOver(e.credit, j)))
  {
    hide PoolsOk, Sum, CreditOk;
    TakeOverKeeps(e.credit, j);
    CreditGood(e, TakeOver(e.credit, j));
  }

  lemma PoolKeys(e: Exec, id: Addr)
    requires PoolsOk(e) && id in e.work.counts
    ensures id in e.credit.dirOwned && id in e.credit.bodyOwned
  {
  }

  lemma ReserveKeys(c: Credit, id: Addr, n: nat)
    requires id in c.dirOwned && id in c.bodyOwned
    ensures ReserveDir(c, id, n).dirOwned.Keys == ReleaseDir(c, id, n).dirOwned.Keys == c.dirOwned.Keys
    ensures ReserveBody(c, id, n).bodyOwned.Keys == ReleaseBody(c, id, n).bodyOwned.Keys == c.bodyOwned.Keys
  {
  }

  lemma ReserveDirGood(e: Exec, id: Addr, n: nat)
    requires Good(e) && id in e.work.counts
    ensures Good(e.(credit := ReserveDir(e.credit, id, n)))
  {
    PoolKeys(e, id);
    ReserveKeys(e.credit, id, n);
    ReserveDirKeeps(e.credit, id, n);
    SameDebtorsGood(e, ReserveDir(e.credit, id, n));
  }

  lemma ReleaseSame(c: Credit, id: Addr, n: nat)
    ensures ReleaseDir(c, id, n).ledger == c.ledger && ReleaseDir(c, id, n).bodyOwned == c.bodyOwned
  {
  }

  lemma ReleaseDirGood(e: Exec, id: Addr, n: nat)
    requires Good(e) && id in e.work.counts && n <= At(e.credit.taken, id)
    ensures Good(e.(credit := ReleaseDir(e.credit, id, n)))
  {
    PoolKeys(e, id);
    ReserveKeys(e.credit, id, n);
    ReleaseDirKeeps(e.credit, id, n);
    ReleaseSame(e.credit, id, n);
    SameDebtorsGood(e, ReleaseDir(e.credit, id, n));
  }

  lemma ReserveBodyGood(e: Exec, id: Addr, n: nat)
    requires Good(e) && id in e.work.counts
    ensures Good(e.(credit := ReserveBody(e.credit, id, n))) && Good(e.(credit := ReleaseBody(e.credit, id, n)))
  {
    PoolKeys(e, id);
    ReserveKeys(e.credit, id, n);
    BodyKeeps(e.credit, id, n);
    SameDebtorsGood(e, ReserveBody(e.credit, id, n));
    SameDebtorsGood(e, ReleaseBody(e.credit, id, n));
  }

  lemma ReservedGood(e: Exec, id: Addr, dir: bool, n: nat)
    requires Good(e) && id in e.work.counts
    ensures Good(Reserved(e, id, dir, n))
  {
    hide Good;
    if dir {
      ReserveDirGood(e, id, n);
    } else {
      ReserveBodyGood(e, id, n);
    }
  }

  lemma ReleasedGood(e: Exec, id: Addr, dir: bool, n: nat)
    requires Good(e) && id in e.work.counts && (dir ==> n <= At(e.credit.taken, id))
    ensures Good(Released(e, id, dir, n))
  {
    if dir {
      ReleaseDirGood(e, id, n);
    } else {
      ReserveBodyGood(e, id, n);
    }
  }

  lemma JobCredit(e: Exec, j: Addr)
    requires PoolsOk(e) && j in e.work.jobs
    ensures j in e.credit.ledger && e.credit.ledger[j].account == e.work.jobs[j] && e.work.jobs[j] in e.credit.dirOwned
  {
  }

  lemma ChargeKeys(c: Credit, j: Addr, p: Addr, n: nat)
    requires j in c.ledger && p in c.dirOwned && c.ledger[j].account == p
    ensures var d := Charge(c, j, p, n);
            && d.dirOwned.Keys == c.dirOwned.Keys && d.bodyOwned == c.bodyOwned && d.ledger.Keys == c.ledger.Keys
            && forall k | k in d.ledger :: d.ledger[k].account == c.ledger[k].account
  {
  }

  lemma ChargeGood(e: Exec, j: Addr, n: nat)
    requires Good(e) && j in e.work.jobs
    ensures Good(Charged(e, j, n))
  {
    JobCredit(e, j);
    ChargeKeeps(e.credit, j, e.work.jobs[j], n);
    ChargeKeys(e.credit, j, e.work.jobs[j], n);
    CreditGood(e, Charge(e.credit, j, e.work.jobs[j], n));
  }

  lemma LooseKeeps(c: Credit, n: int)
    requires CreditOk(c)
    ensures CreditOk(c.(body := c.body + n, loose := c.loose + n))
  {
  }

  lemma ShiftLoose(e: Exec, n: int)
    requires Good(e)
    ensures Good(e.(credit := e.credit.(body := e.credit.body + n, loose := e.credit.loose + n)))
  {
    LooseKeeps(e.credit, n);
    SameDebtorsGood(e, e.credit.(body := e.credit.body + n, loose := e.credit.loose + n));
  }

  lemma AcquiredGood(e: Exec, n: nat)
    requires Good(e)
    ensures Good(Acquired(e, n))
  {
    if Admits(e, false, n) {
      ShiftLoose(e, n);
      var f := Acquired(e, n);
      assert f == e.(credit := e.credit.(body := e.credit.body + n, loose := e.credit.loose + n));
    }
  }

  lemma LoosenedIs(e: Exec, n: nat)
    requires e.credit.body >= n
    ensures Loosened(e, n) == e.(credit := e.credit.(body := e.credit.body + (0 - n), loose := e.credit.loose + (0 - n)))
  {
  }

  lemma LoosenedGood(e: Exec, n: nat)
    requires Good(e)
    ensures Good(Loosened(e, n))
  {
    if e.credit.body >= n {
      ShiftLoose(e, 0 - n);
      LoosenedIs(e, n);
    }
  }

  lemma SubmittedGood(e: Exec, id: Addr)
    requires Good(e) && id in e.work.counts
    ensures Good(Submitted(e, id))
  {
    SubmitGood(e, id);
  }

  lemma StopGood(e: Exec, id: Addr)
    requires Good(e)
    ensures Good(e.(pools := Stopped(e.pools, id)))
  {
    StoppedPools(e, id);
  }

  lemma OwnerGood(e: Exec, s: Step)
    requires Good(e) && Enabled(e, s)
    ensures s.NewPool? || s.StopPool? || s.RemovePool? || s.Submit? || s.TakeOverStep? || s.FreeJob? ==> Good(Next(e, s))
  {
    match s
    case NewPool(p) => AddPoolGood(e, p);
    case StopPool(id) => StopGood(e, id);
    case RemovePool(id) => DropPoolGood(e, id);
    case Submit(id) => SubmittedGood(e, id);
    case TakeOverStep(j) => TakeOverGood(e, j);
    case FreeJob(j) => FreeGood(e, j);
    case _ =>
  }

  lemma CreditStepGood(e: Exec, s: Step)
    requires Good(e) && Enabled(e, s)
    ensures s.Reserve? || s.Release? || s.AcquireBody? || s.ReleaseLoose? || s.ChargeStep? ==> Good(Next(e, s))
  {
    match s
    case Reserve(id, dir, n) => ReservedGood(e, id, dir, n);
    case Release(id, dir, n) => ReleasedGood(e, id, dir, n);
    case AcquireBody(n) => AcquiredGood(e, n);
    case ReleaseLoose(n) => LoosenedGood(e, n);
    case ChargeStep(j, n) => ChargeGood(e, j, n);
    case _ =>
  }

  lemma WorkerGood(e: Exec, s: Step)
    requires Good(e) && Enabled(e, s)
    ensures s.Start? || s.PublishStep? || s.LeaveStep? ==> Good(Next(e, s))
  {
    match s
    case Start => StartGood(e);
    case PublishStep(j) => PublishGood(e, j);
    case LeaveStep(j) => LeaveGood(e, j);
    case _ =>
  }

  lemma NextGood(e: Exec, s: Step)
    requires Good(e) && Enabled(e, s)
    ensures Good(Next(e, s))
  {
    OwnerGood(e, s);
    CreditStepGood(e, s);
    WorkerGood(e, s);
  }

  // -------------------------------------------------------------------------
  // Runs

  ghost predicate Runs(e: Exec, steps: seq<Step>)
    decreases |steps|
  {
    steps == [] || (Enabled(e, steps[0]) && Runs(Next(e, steps[0]), steps[1..]))
  }

  ghost function After(e: Exec, steps: seq<Step>): Exec
    requires Runs(e, steps)
    decreases |steps|
  {
    if steps == [] then e else After(Next(e, steps[0]), steps[1..])
  }

  lemma InitWork(w: Work)
    requires w.queue == w.started == [] && w.jobs == w.held == map[] && w.counts == w.actives == map[] && w.working == {}
    requires w.queued == w.active == w.nextId == 0
    ensures InOrder(w) && QueueOk(w) && ActiveOk(w)
  {
    assert Elems(w.queue) == {};
  }

  lemma InitCredit(c: Credit)
    requires c.ledger == map[] && c.dirOwned == map[] && c.taken == map[] && c.bodyOwned == map[] && c.directory == c.body == c.loose == 0
    ensures CreditOk(c)
  {
  }

  lemma InitPools(e: Exec)
    requires e.pools == [] && e.work.jobs == map[] && e.work.held == map[] && e.work.counts == map[] && e.work.actives == map[]
    requires e.credit.ledger == map[] && e.credit.dirOwned == map[] && e.credit.bodyOwned == map[]
    ensures PoolsOk(e)
  {
  }

  lemma EmptyGood(e: Exec)
    requires e.pools == [] && e.work.queue == e.work.started == [] && e.work.jobs == e.work.held == map[]
    requires e.work.counts == e.work.actives == map[] && e.work.working == {} && e.work.queued == e.work.active == e.work.nextId == 0
    requires e.credit.ledger == map[] && e.credit.dirOwned == e.credit.taken == e.credit.bodyOwned == map[]
    requires e.credit.directory == e.credit.body == e.credit.loose == 0
    ensures Good(e)
  {
    InitWork(e.work);
    InitCredit(e.credit);
    InitPools(e);
  }

  lemma InitGood() returns (e: Exec)
    ensures e == Init() && Good(e)
  {
    e := Init();
    EmptyGood(e);
  }

  lemma {:induction false} RunGood(e: Exec, steps: seq<Step>)
    requires Good(e) && Runs(e, steps)
    ensures Good(After(e, steps))
    decreases |steps|
  {
    if steps != [] {
      NextGood(e, steps[0]);
      RunGood(Next(e, steps[0]), steps[1..]);
    }
  }

  lemma {:induction false} ConsecutiveIs(xs: seq<Addr>, n: int, i: nat)
    requires Increasing(xs) && |xs| == n && (forall x | x in xs :: 1 <= x <= n) && i < n
    ensures xs[i] == i + 1
  {
    AtLeast(xs, i);
    AtMost(xs, n, i);
  }

  lemma {:induction false} AtLeast(xs: seq<Addr>, i: nat)
    requires Increasing(xs) && (forall x | x in xs :: 1 <= x) && i < |xs|
    ensures xs[i] >= i + 1
  {
    assert xs[i] in xs;
    if i > 0 {
      AtLeast(xs, i - 1);
    }
  }

  lemma {:induction false} AtMost(xs: seq<Addr>, n: int, i: nat)
    requires Increasing(xs) && |xs| == n && (forall x | x in xs :: x <= n) && i < n
    ensures xs[i] <= i + 1
    decreases n - i
  {
    assert xs[i] in xs;
    if i + 1 < n {
      AtMost(xs, n, i + 1);
    }
  }

  lemma WorkIsExact(w: Work)
    requires InOrder(w)
    ensures forall i | 0 <= i < |w.started| :: w.started[i] == i + 1
    ensures forall i | 0 <= i < |w.queue| :: w.queue[i] == |w.started| + i + 1
  {
    var xs := w.started + w.queue;
    forall i | 0 <= i < |w.started| ensures w.started[i] == i + 1 {
      ConsecutiveIs(xs, w.nextId, i);
    }
    forall i | 0 <= i < |w.queue| ensures w.queue[i] == |w.started| + i + 1 {
      ConsecutiveIs(xs, w.nextId, |w.started| + i);
    }
  }

  // A state that some run from the start can be in.
  ghost predicate Reachable(e: Exec) {
    exists steps: seq<Step> :: Runs(Init(), steps) && After(Init(), steps) == e
  }

  lemma ReachableIsGood(e: Exec)
    requires Reachable(e)
    ensures Good(e)
  {
    var steps: seq<Step> :| Runs(Init(), steps) && After(Init(), steps) == e;
    var start := InitGood();
    RunGood(start, steps);
  }

  /** In every reachable state the counters are exact: queued is the length of the
      queue and the sum of the pools' counts, each of which is the number of its
      queued jobs; the same for active workers; jobs were started in the order of
      their ids across all pools, without skipping one. */
  lemma AccountingIsExact(e: Exec)
    requires Reachable(e)
    ensures var w := e.work;
            && w.queued == |w.queue| == Sum(w.counts) && w.active == |w.held| == Sum(w.actives)
            && (forall p | p in w.counts :: w.counts[p] == Count(w.jobs, Elems(w.queue), p))
            && (forall p | p in w.actives :: w.actives[p] == Count(w.held, w.held.Keys, p))
            && (forall i | 0 <= i < |w.started| :: w.started[i] == i + 1)
            && (forall i | 0 <= i < |w.queue| :: w.queue[i] == |w.started| + i + 1)
  {
    ReachableIsGood(e);
    WorkIsExact(e.work);
  }

  /** No worker starts a job at or above the smallest live worker limit, not even
      while stopping, because then nothing is queued. */
  lemma StartsBelowLimit(e: Exec)
    requires Good(e) && Enabled(e, Start)
    ensures e.work.active < Least(Workers(e.pools), MAX_WORKERS) && !e.stopping
  {
    HeadFacts(e);
    assert Listed(e.pools, e.work.jobs[e.work.queue[0]]);
  }

  /** A pool is freed only when no queued job and no worker can still touch it. */
  lemma FreedPoolIsUnused(e: Exec, id: Addr)
    requires Good(e) && Enabled(e, RemovePool(id))
    ensures (forall j | j in e.work.queue :: e.work.jobs[j] != id) && (forall j | j in e.work.held :: e.work.held[j] != id)
    ensures var f := Next(e, RemovePool(id));
            f.work.queue == e.work.queue && f.work.held == e.work.held && !Listed(f.pools, id)
  {
    NoneOf(e.work, id);
    UnlistedIs(e.pools, id);
  }

  /** Credit is conserved: the directory total is what the pools own, which is what
      their jobs hold plus what the owner has taken; the body total is what pools
      own plus what was acquired without a pool. */
  lemma CreditIsConserved(e: Exec)
    requires Reachable(e)
    ensures var c := e.credit;
            && c.directory == Sum(c.dirOwned) && c.body == Sum(c.bodyOwned) + c.loose
            && (forall p | p in c.dirOwned :: p in c.taken && c.dirOwned[p] == Balance(c.ledger, p) + c.taken[p])
  {
    ReachableIsGood(e);
    CreditParts(e.credit);
  }

  lemma CreditParts(c: Credit)
    requires CreditOk(c)
    ensures c.directory == Sum(c.dirOwned) && c.body == Sum(c.bodyOwned) + c.loose
    ensures forall p | p in c.dirOwned :: p in c.taken && c.dirOwned[p] == Balance(c.ledger, p) + c.taken[p]
  {
  }

  /** From any reachable state, whatever step comes next: if the credit that pools and
      others own grows, it stays within the smallest live limit, and so do the queue
      and the number of workers that hold a pool. */
  lemma AdmissionWithinLimit(e: Exec, s: Step)
    requires Reachable(e) && Enabled(e, s)
    ensures var c, d := e.credit, Next(e, s).credit;
            && (Sum(d.dirOwned) > Sum(c.dirOwned) ==> Sum(d.dirOwned) <= Least(DirLimits(e.pools), INT64_MAX))
            && (Sum(d.bodyOwned) + d.loose > Sum(c.bodyOwned) + c.loose ==>
                  Sum(d.bodyOwned) + d.loose <= Least(BodyLimits(e.pools), INT64_MAX))
    ensures var w, v := e.work, Next(e, s).work;
            && (|v.queue| > |w.queue| ==> |v.queue| <= Least(Capacities(e.pools), INT_MAX))
            && (|v.held| > |w.held| ==> |v.held| <= Least(Workers(e.pools), MAX_WORKERS))
  {
    hide Next, Enabled, Reachable;
    ReachableIsGood(e);
    NextGood(e, s);
    TotalsAre(e);
    TotalsAre(Next(e, s));
    GrowsWithin(e, s);
  }

  lemma TotalsAre(e: Exec)
    requires Good(e)
    ensures e.credit.directory == Sum(e.credit.dirOwned) && e.credit.body == Sum(e.credit.bodyOwned) + e.credit.loose
    ensures e.work.queued == |e.work.queue| && e.work.active == |e.work.held|
  {
  }

  lemma GrowsWithin(e: Exec, s: Step)
    requires Good(e) && Enabled(e, s)
    ensures var c, d := e.credit, Next(e, s).credit;
            && (d.directory > c.directory ==> d.directory <= Least(DirLimits(e.pools), INT64_MAX))
            && (d.body > c.body ==> d.body <= Least(BodyLimits(e.pools), INT64_MAX))
    ensures var w, v := e.work, Next(e, s).work;
            && (v.queued > w.queued ==> v.queued <= Least(Capacities(e.pools), INT_MAX))
            && (v.active > w.active ==> v.active <= Least(Workers(e.pools), MAX_WORKERS))
  {
    hide Least, Good;
    if s.Start? {
      StartsBelowLimit(e);
    } else if s.RemovePool? {
      OwnedIsPositive(e, s.id2);
    }
  }

  lemma OwnedIsPositive(e: Exec, id: Addr)
    requires Good(e) && id in e.work.counts
    ensures At(e.credit.dirOwned, id) >= 0 && At(e.credit.bodyOwned, id) >= 0
  {
    BalancePositive(e.credit.ledger, id);
  }
}
