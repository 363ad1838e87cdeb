/**
 The shared executor of the native layer: one queue over several pools, admission
 by the smallest live limit, worker threads, and the credit that pools and jobs
 hold.  Every locked section is one step.
 */
module Executor {
  import opened Counting

  const MAX_WORKERS: int := 64
  const INT_MAX: int := 0x7fff_ffff
  const INT64_MAX: int := 0x7fff_ffff_ffff_ffff

  datatype Pool = Pool(id: Addr, stopping: bool, capacity: int, workers: int, bodyLimit: int, dirLimit: int)

  // Jobs by id, with the pool each belongs to.  `queue` waits, `working` is being
  // run, and `held` are the workers that still use a pool: a worker gives its pool
  // back only after it has published the result, and then the job may be gone.
  datatype Work = Work(queue: seq<Addr>, jobs: map<Addr, Addr>, working: set<Addr>, held: map<Addr, Addr>,
                       counts: map<Addr, int>, actives: map<Addr, int>, queued: int, active: int,
                       nextId: int, started: seq<Addr>)

  // Directory credit: what a job holds (`ledger`) and what the owner has taken over
  // or reserved itself (`taken`).  Body credit: owned by pools, or by no pool.
  datatype Credit = Credit(ledger: map<Addr, Entry>, dirOwned: map<Addr, int>, taken: map<Addr, int>, directory: int,
                           bodyOwned: map<Addr, int>, loose: int, body: int)

  datatype Exec = Exec(pools: seq<Pool>, work: Work, credit: Credit, stopping: bool)

  function Init(): Exec {
    Exec([], Work([], map[], {}, map[], map[], map[], 0, 0, 0, []), Credit(map[], map[], map[], 0, map[], 0, 0), false)
  }

  // -------------------------------------------------------------------------
  // The smallest live limit

  function Least(xs: seq<int>, cap: int): (r: int)
    ensures r <= cap && (forall x | x in xs :: r <= x) && (r == cap || r in xs)
  {
    if xs == [] then cap
    else
      var rest := Least(xs[1..], cap);
      assert xs == [xs[0]] + xs[1..];
      if xs[0] < rest then xs[0] else rest
  }

  function Workers(ps: seq<Pool>): seq<int> { seq(|ps|, i requires 0 <= i < |ps| => ps[i].workers) }
  function Capacities(ps: seq<Pool>): seq<int> { seq(|ps|, i requires 0 <= i < |ps| => ps[i].capacity) }
  function BodyLimits(ps: seq<Pool>): seq<int> { seq(|ps|, i requires 0 <= i < |ps| => ps[i].bodyLimit) }
  function DirLimits(ps: seq<Pool>): seq<int> { seq(|ps|, i requires 0 <= i < |ps| => ps[i].dirLimit) }

  // -------------------------------------------------------------------------
  // Steps on the queue

  function Queue(w: Work, p: Addr): Work {
    var j := w.nextId + 1;
    w.(queue := w.queue + [j], jobs := w.jobs[j := p], nextId := j, queued := w.queued + 1,
       counts := w.counts[p := At(w.counts, p) + 1])
  }

  function Take(w: Work): Work {
    if w.queue == [] then w
    else
      var j := w.queue[0];
      var p := At(w.jobs, j);
      w.(queue := w.queue[1..], queued := w.queued - 1, counts := w.counts[p := At(w.counts, p) - 1],
         active := w.active + 1, actives := w.actives[p := At(w.actives, p) + 1],
         working := w.working + {j}, held := w.held[j := p], started := w.started + [j])
  }

  // The result is published; the owner may free the job from now on.
  function Publish(w: Work, j: Addr): Work {
    w.(working := w.working - {j})
  }

  function Leave(w: Work, j: Addr): Work {
    var p := At(w.held, j);
    w.(held := w.held - {j}, active := w.active - 1, actives := w.actives[p := At(w.actives, p) - 1])
  }

  function Forget(w: Work, j: Addr): Work {
    w.(jobs := w.jobs - {j})
  }

  // -------------------------------------------------------------------------
  // Steps on the credit

  function Charge(c: Credit, j: Addr, p: Addr, n: nat): Credit {
    var before := if j in c.ledger then c.ledger[j].amount else 0;
    c.(ledger := c.ledger[j := Entry(p, before + n)], dirOwned := c.dirOwned[p := At(c.dirOwned, p) + n], directory := c.directory + n)
  }

  // hs_io_take_directory_charge
  function TakeOver(c: Credit, j: Addr): Credit {
    if j in c.ledger then
      var e := c.ledger[j];
      c.(ledger := c.ledger[j := Entry(e.account, 0)], taken := c.taken[e.account := At(c.taken, e.account) + e.amount])
    else c
  }

  // hs_io_job_free: the credit that the job still holds goes back.
  function GiveBack(c: Credit, j: Addr): Credit {
    if j in c.ledger then
      var e := c.ledger[j];
      c.(ledger := c.ledger - {j}, dirOwned := c.dirOwned[e.account := At(c.dirOwned, e.account) - e.amount],
         directory := c.directory - e.amount)
    else c
  }

  function ReserveDir(c: Credit, p: Addr, n: nat): Credit {
    c.(dirOwned := c.dirOwned[p := At(c.dirOwned, p) + n], directory := c.directory + n, taken := c.taken[p := At(c.taken, p) + n])
  }

  function ReleaseDir(c: Credit, p: Addr, n: nat): Credit {
    if At(c.dirOwned, p) < n then c
    else c.(dirOwned := c.dirOwned[p := At(c.dirOwned, p) - n], directory := c.directory - n, taken := c.taken[p := At(c.taken, p) - n])
  }

  function ReserveBody(c: Credit, p: Addr, n: nat): Credit {
    c.(bodyOwned := c.bodyOwned[p := At(c.bodyOwned, p) + n], body := c.body + n)
  }

  function ReleaseBody(c: Credit, p: Addr, n: nat): Credit {
    if At(c.bodyOwned, p) < n then c
    else c.(bodyOwned := c.bodyOwned[p := At(c.bodyOwned, p) - n], body := c.body - n)
  }

  // -------------------------------------------------------------------------
  // What every step keeps

  function Elems(xs: seq<Addr>): set<Addr> { set x | x in xs }

  ghost predicate Increasing(xs: seq<Addr>) {
    forall i, j | 0 <= i < j < |xs| :: xs[i] < xs[j]
  }

  // Jobs leave the queue in the order of their ids: those started, then those
  // waiting, are 1, 2, 3 and so on without a gap.
  ghost predicate InOrder(w: Work) {
    && Increasing(w.started + w.queue) && |w.started + w.queue| == w.nextId
    && (forall j | j in w.started + w.queue :: 1 <= j <= w.nextId)
  }

  ghost predicate QueueOk(w: Work) {
    && (forall j | j in w.queue :: j in w.jobs && j !in w.working && j !in w.held)
    && w.queued == |w.queue| == Sum(w.counts)
    && (forall p | p in w.counts :: w.counts[p] == Count(w.jobs, Elems(w.queue), p))
    && (forall j | j in w.jobs || j in w.held || j in w.working :: j <= w.nextId)
  }

  ghost predicate ActiveOk(w: Work) {
    && w.active == |w.held| == Sum(w.actives)
    && (forall p | p in w.actives :: w.actives[p] == Count(w.held, w.held.Keys, p))
    && (forall j | j in w.working :: j in w.jobs && j in w.held && w.held[j] == w.jobs[j])
  }

  ghost predicate CreditOk(c: Credit) {
    && c.dirOwned.Keys == c.taken.Keys
    && (forall j | j in c.ledger :: c.ledger[j].account in c.dirOwned)
    && (forall p | p in c.dirOwned :: c.dirOwned[p] == Balance(c.ledger, p) + c.taken[p] && c.taken[p] >= 0)
    && c.directory == Sum(c.dirOwned)
    && c.body == Sum(c.bodyOwned) + c.loose && (forall p | p in c.bodyOwned :: c.bodyOwned[p] >= 0)
  }

  ghost predicate Unique(ps: seq<Pool>) {
    forall i, j | 0 <= i < j < |ps| :: ps[i].id != ps[j].id
  }

  ghost predicate Listed(ps: seq<Pool>, q: Addr) {
    exists i :: 0 <= i < |ps| && ps[i].id == q
  }

  // Pools on the list are exactly those with counters, and every queued job and
  // every worker belongs to one of them.
  ghost predicate PoolsOk(e: Exec) {
    && Unique(e.pools)
    && e.work.counts.Keys == e.work.actives.Keys == e.credit.dirOwned.Keys == e.credit.bodyOwned.Keys
    && (forall p :: p in e.work.counts <==> Listed(e.pools, p))
    && (forall j | j in e.work.jobs :: e.work.jobs[j] in e.work.counts)
    && (forall j | j in e.work.held :: e.work.held[j] in e.work.counts)
    && (forall j :: j in e.credit.ledger <==> j in e.work.jobs)
    && (forall j | j in e.work.jobs && j in e.credit.ledger :: e.credit.ledger[j].account == e.work.jobs[j])
    && (e.stopping ==> e.pools == [])
  }

  ghost predicate Good(e: Exec) {
    && InOrder(e.work) && QueueOk(e.work) && ActiveOk(e.work)
    && CreditOk(e.credit) && PoolsOk(e)
  }

  // -------------------------------------------------------------------------

  lemma QueueKeeps(w: Work, p: Addr)
    requires QueueOk(w) && p in w.counts
    ensures QueueOk(Queue(w, p))
  {
    var j, v := w.nextId + 1, Queue(w, p);
    assert Elems(v.queue) == Elems(w.queue) + {j};
    assert j !in w.jobs && j !in Elems(w.queue);
    SumPut(w.counts, p, w.counts[p] + 1);
    forall q | q in v.counts ensures v.counts[q] == Count(v.jobs, Elems(v.queue), q) {
      CountPut(w.jobs, Elems(w.queue), j, p, q);
    }
  }

  lemma QueueInOrder(w: Work, p: Addr)
    requires InOrder(w)
    ensures InOrder(Queue(w, p))
  {
    var xs := w.started + w.queue;
    assert w.started + (w.queue + [w.nextId + 1]) == xs + [w.nextId + 1];
    forall i | 0 <= i < |xs| ensures xs[i] <= w.nextId {
      assert xs[i] in xs;
    }
  }

  lemma QueueActive(w: Work, p: Addr)
    requires ActiveOk(w) && QueueOk(w)
    ensures ActiveOk(Queue(w, p))
  {
  }

  lemma TakeInOrder(w: Work)
    requires InOrder(w) && w.queue != []
    ensures InOrder(Take(w))
  {
    assert w.started + [w.queue[0]] + w.queue[1..] == w.started + w.queue;
  }

  lemma HeadApart(w: Work)
    requires InOrder(w) && w.queue != []
    ensures w.queue[0] !in w.queue[1..]
  {
    forall i | 0 <= i < |w.queue| ensures (w.started + w.queue)[|w.started| + i] == w.queue[i] {}
  }

  lemma TakeQueue(w: Work)
    requires QueueOk(w) && w.queue != [] && w.queue[0] !in w.queue[1..] && w.queue[0] in w.jobs && w.jobs[w.queue[0]] in w.counts
    ensures QueueOk(Take(w))
  {
    var j, v := w.queue[0], Take(w);
    var p := w.jobs[j];
    assert w.queue == [j] + w.queue[1..];
    assert Elems(v.queue) == Elems(w.queue) - {j};
    SumPut(w.counts, p, w.counts[p] - 1);
    forall q | q in v.counts ensures v.counts[q] == Count(v.jobs, Elems(v.queue), q) {
      CountDel(w.jobs, Elems(w.queue), j, q);
    }
  }

  lemma TakeFields(w: Work)
    requires w.queue != [] && w.queue[0] in w.jobs && w.jobs[w.queue[0]] in w.actives
    ensures var j, v := w.queue[0], Take(w); var p := w.jobs[j];
            && v.working == w.working + {j} && v.jobs == w.jobs && v.active == w.active + 1
            && v.held == w.held[j := p] && v.actives == w.actives[p := w.actives[p] + 1]
  {
  }

  lemma ActiveEntry(held: map<Addr, Addr>, actives: map<Addr, int>, j: Addr, p: Addr, h: map<Addr, Addr>, a: map<Addr, int>)
    requires j !in held && p in actives && |held| == Sum(actives)
    requires forall q | q in actives :: actives[q] == Count(held, held.Keys, q)
    requires h == held[j := p] && a == actives[p := actives[p] + 1]
    ensures |h| == Sum(a) == |held| + 1 && forall q | q in a :: a[q] == Count(h, h.Keys, q)
  {
    hide Sum, Count;
    assert h.Keys == held.Keys + {j};
    SumPut(actives, p, actives[p] + 1);
    forall q | q in actives ensures a[q] == Count(h, h.Keys, q) {
      CountPut(held, held.Keys, j, p, q);
    }
  }

  lemma TakeActive(w: Work)
    requires ActiveOk(w) && w.queue != [] && w.queue[0] in w.jobs && w.queue[0] !in w.held && w.jobs[w.queue[0]] in w.actives
    ensures ActiveOk(Take(w))
  {
    hide Take, Sum, Count;
    var j, v := w.queue[0], Take(w);
    TakeFields(w);
    ActiveEntry(w.held, w.actives, j, w.jobs[j], v.held, v.actives);
    assert forall k | k in v.working :: k == j || k in w.working;
  }

  lemma LeaveActive(w: Work, j: Addr)
    requires ActiveOk(w) && j in w.held && j !in w.working && w.held[j] in w.actives
    ensures ActiveOk(Leave(w, j))
  {
    hide Sum, Count;
    var p, v := w.held[j], Leave(w, j);
    assert v.held.Keys == w.held.Keys - {j};
    SumPut(w.actives, p, w.actives[p] - 1);
    forall q | q in v.actives ensures v.actives[q] == Count(v.held, v.held.Keys, q) {
      CountDel(w.held, w.held.Keys, j, q);
    }
  }

  lemma ForgetKeeps(w: Work, j: Addr)
    requires QueueOk(w) && ActiveOk(w) && j !in w.queue && j !in w.working
    ensures QueueOk(Forget(w, j)) && ActiveOk(Forget(w, j))
  {
    var v := Forget(w, j);
    forall q | q in v.counts ensures v.counts[q] == Count(v.jobs, Elems(v.queue), q) {
      CountFrame(w.jobs, v.jobs, Elems(w.queue), q);
    }
  }

  // -------------------------------------------------------------------------

  lemma ChargeKeeps(c: Credit, j: Addr, p: Addr, n: nat)
    requires CreditOk(c) && p in c.dirOwned && (j in c.ledger ==> c.ledger[j].account == p)
    ensures CreditOk(Charge(c, j, p, n))
  {
    hide Sum;
    var d := Charge(c, j, p, n);
    SumPut(c.dirOwned, p, c.dirOwned[p] + n);
    forall q | q in d.dirOwned ensures d.dirOwned[q] == Balance(d.ledger, q) + d.taken[q] {
      BalancePut(c.ledger, j, d.ledger[j], q);
    }
  }

  lemma TakeOverKeeps(c: Credit, j: Addr)
    requires CreditOk(c)
    ensures CreditOk(TakeOver(c, j))
  {
    if j in c.ledger {
      var d := TakeOver(c, j);
      forall q | q in d.dirOwned ensures d.dirOwned[q] == Balance(d.ledger, q) + d.taken[q] {
        BalancePut(c.ledger, j, d.ledger[j], q);
      }
    }
  }

  lemma GiveBackKeeps(c: Credit, j: Addr)
    requires CreditOk(c)
    ensures CreditOk(GiveBack(c, j))
  {
    hide Sum;
    if j in c.ledger {
      var e, d := c.ledger[j], GiveBack(c, j);
      SumPut(c.dirOwned, e.account, c.dirOwned[e.account] - e.amount);
      forall q | q in d.dirOwned ensures d.dirOwned[q] == Balance(d.ledger, q) + d.taken[q] {
        BalanceDel(c.ledger, j, q);
      }
    }
  }

  lemma ReserveDirKeeps(c: Credit, p: Addr, n: nat)
    requires CreditOk(c) && p in c.dirOwned
    ensures CreditOk(ReserveDir(c, p, n))
  {
    SumPut(c.dirOwned, p, c.dirOwned[p] + n);
  }

  lemma ReleaseDirKeeps(c: Credit, p: Addr, n: nat)
    requires CreditOk(c) && p in c.dirOwned && n <= At(c.taken, p)
    ensures CreditOk(ReleaseDir(c, p, n))
  {
    SumPut(c.dirOwned, p, c.dirOwned[p] - n);
  }

  lemma BodyKeeps(c: Credit, p: Addr, n: nat)
    requires CreditOk(c) && p in c.bodyOwned
    ensures CreditOk(ReserveBody(c, p, n)) && CreditOk(ReleaseBody(c, p, n))
  {
    SumPut(c.bodyOwned, p, c.bodyOwned[p] + n);
    SumPut(c.bodyOwned, p, c.bodyOwned[p] - n);
  }
}
