/**
 What each call on the C ABI runtime answers in every reachable state, told from the
 state alone: from what is closing, what is uncompleted, what bytes are held, and what
 serial numbers and memory are left.
 */
module BridgeAnswers {
  import opened Basics
  import opened Counting
  import opened BridgeHeap
  import opened BridgeObjects
  import opened Bridge
  import opened BridgeOrder
  import opened BridgeSteps
  import opened BridgeHost
  import opened BridgeRuns

  // The uncompleted operations of an instance.
  ghost function Uncompleted(w: World, s: Addr): set<Addr> {
    set o | o in w.h.tally.undone && o in w.h.g.inst && w.h.g.inst[o] == s
  }

  // The responses of an instance that are not freed.
  ghost function Responses(w: World, s: Addr): set<Addr> {
    set r | r in w.h.resps.alive && r in w.h.g.inst && w.h.g.inst[r] == s
  }

  // So many more bytes stay within the instance's budget and the global limit.
  ghost predicate Room(w: World, s: Addr, n: int) {
    && Balance(w.h.money.ledger, s) + n <= At(w.h.money.budget, s)
    && Sum(w.h.money.charged) + n <= 67108864
  }

  // A new operation is last in the queue, and its bytes are on its instance's account.
  ghost predicate Entered(w: World, v: World, o: Addr, kind: int, s: Addr, n: int, r: Option<Addr>, host: bool) {
    && v.q == w.q.(commands := w.q.commands + [o], accepted := w.q.accepted + {o}) && o !in w.q.accepted && o !in w.h.kinds
    && v.h.kinds == w.h.kinds[o := kind] && v.h.g.inst == w.h.g.inst[o := s]
    && v.h.g.resp == (if r.Some? then w.h.g.resp[o := r.value] else w.h.g.resp)
    && n >= 0 && v.h.money.ledger == w.h.money.ledger[o := Entry(s, n)]
    && v.h.tally.undone == w.h.tally.undone + {o} && v.h.tally.untold == w.h.tally.untold + {o}
    && Runtime(o) in v.h.g.roots && (Host(o) in v.h.g.roots <==> host)
    && v.p == w.p && v.nextId == w.nextId + 1 && v.nextAddr == w.nextAddr + 1
  }

  // Nothing happens but that serial numbers may be used up.
  ghost predicate Unchanged(w: World, v: World) {
    v == w.(nextAddr := v.nextAddr, nextId := v.nextId)
  }

  // -------------------------------------------------------------------------
  // The books in these terms

  lemma Books(w: World, s: Addr)
    requires Sound(w.h, multiset{}) && s in w.h.money.charged
    ensures At(w.h.tally.active, s) == |Uncompleted(w, s)| && At(w.h.resps.count, s) == |Responses(w, s)|
    ensures At(w.h.money.charged, s) == Balance(w.h.money.ledger, s) >= 0 && w.h.money.retained == Sum(w.h.money.charged) >= 0
    ensures w.h.tally.activeOps == |w.h.tally.untold|
  {
    BooksOf(w.h, s);
    assert Uncompleted(w, s) == Fiber(w.h.g.inst, w.h.tally.undone, s);
    assert Responses(w, s) == Fiber(w.h.g.inst, w.h.resps.alive, s);
  }

  lemma BooksOf(h: Heap, s: Addr)
    requires Sound(h, multiset{}) && s in h.money.charged
    ensures At(h.tally.active, s) == Count(h.g.inst, h.tally.undone, s) && At(h.resps.count, s) == Count(h.g.inst, h.resps.alive, s)
    ensures At(h.money.charged, s) == Balance(h.money.ledger, s) >= 0 && h.money.retained == Sum(h.money.charged) >= 0
    ensures h.tally.activeOps == |h.tally.untold|
  {
    hide Balanced, RespsOk, Balance, Sum, Count;
    CountsAre(h);
    BalancePositive(h.money.ledger, s);
    forall x | x in h.money.charged ensures h.money.charged[x] >= 0 {
      BalancePositive(h.money.ledger, x);
    }
    SumPositive(h.money.charged);
  }

  lemma CountsAre(h: Heap)
    requires Sound(h, multiset{})
    ensures forall s | s in h.resps.count :: h.resps.count[s] == Count(h.g.inst, h.resps.alive, s)
  {
  }

  lemma ChargeExactly(w: World, s: Addr, n: nat)
    requires Sound(w.h, multiset{}) && s in w.h.money.charged
    ensures CanCharge(w.h.money, s, n) <==> Room(w, s, n)
  {
    Books(w, s);
    hide Sound;
  }

  // The second charge of a call counts on top of the first.
  lemma SecondCharge(w: World, kind: int, s: Addr, n: nat)
    requires Sound(w.h, multiset{}) && s in w.h.money.charged && kind <= 4
    ensures NewOpOk(w, kind, s, true) && InputFits(w, kind, s, n) <==> w.nextId != INT_MAX && Room(w, s, w.opSize + n)
  {
    Books(w, s);
    hide Sound;
    ChargeExactly(w, s, w.opSize);
  }

  lemma AdmitEnters(w: World, kind: int, s: Addr, n: nat, r: Option<Addr>, host: bool)
    requires Bounded(w) && FreshAddr(w.h, w.nextAddr) && w.nextAddr !in w.h.kinds && w.nextAddr !in w.h.money.ledger
    ensures Entered(w, Admit(w, kind, s, n, r, host), w.nextAddr, kind, s, OpCharge(w, kind) + n, r, host)
  {
  }

  lemma FreshInBooks(w: World)
    requires Good(w)
    ensures w.nextAddr !in w.h.kinds && w.nextAddr !in w.h.money.ledger && Sound(w.h, multiset{}) && Bounded(w) && FreshAddr(w.h, w.nextAddr)
  {
    GoodParts(w);
    FreshElsewhere(w.h, w.nextAddr);
  }

  // -------------------------------------------------------------------------
  // Host calls

  /** hs_submit_async, in every reachable state and for every handle in use.  Closed: the
      instance is closing.  Limit: it has as many uncompleted operations as its capacity
      allows, or serial numbers, memory or bytes are short.  Invalid: only the copy
      fails.  Ok otherwise: one new request waits behind all others; else nothing
      happens. */
  lemma SubmitExactly(w: World, engine: Addr, input: nat, memory: bool, copied: bool)
    requires Reachable(w) && engine in w.x.engines
    ensures Engine(engine) in w.h.g.roots
    ensures var s := w.h.g.roots[Engine(engine)]; var (v, code) := Submit(w, s, input, memory, copied);
            var admitted := |Uncompleted(w, s)| < At(w.l.capacity, s) && w.nextId != INT_MAX && memory && Room(w, s, w.opSize + input);
            && v == Next(w, SubmitStep(engine, input, memory, copied))
            && (code == Closed <==> s in w.l.closing)
            && (code == Limit <==> s !in w.l.closing && !admitted)
            && (code == InvalidArg <==> s !in w.l.closing && admitted && !copied)
            && (code == Ok <==> s !in w.l.closing && admitted && copied)
            && (code == Ok ==> Entered(w, v, w.nextAddr, 3, s, w.opSize + input, None, true) && v.l == w.l && v.x == w.x)
            && (code != Ok ==> Unchanged(w, v))
  {
    hide Reachable, Good, Sound, Bounded, FreshAddr, Entered, Room, Uncompleted, Next, Submit;
    ReachableIsGood(w);
    EngineOf(w, engine);
    FreshInBooks(w);
    NextSubmit(w, engine, input, memory, copied);
    SubmitIs(w, w.h.g.roots[Engine(engine)], input, memory, copied);
  }

  lemma NextSubmit(w: World, engine: Addr, input: nat, memory: bool, copied: bool)
    requires engine in w.x.engines && Engine(engine) in w.h.g.roots
    ensures Next(w, SubmitStep(engine, input, memory, copied)) == Submit(w, w.h.g.roots[Engine(engine)], input, memory, copied).0
  {
  }

  lemma SubmitIs(w: World, s: Addr, input: nat, memory: bool, copied: bool)
    requires Sound(w.h, multiset{}) && Bounded(w) && FreshAddr(w.h, w.nextAddr) && s in w.h.money.charged
    requires w.nextAddr !in w.h.kinds && w.nextAddr !in w.h.money.ledger
    ensures var (v, code) := Submit(w, s, input, memory, copied);
            var admitted := |Uncompleted(w, s)| < At(w.l.capacity, s) && w.nextId != INT_MAX && memory && Room(w, s, w.opSize + input);
            && code == (if s in w.l.closing then Closed else if !admitted then Limit else if !copied then InvalidArg else Ok)
            && (code == Ok ==> Entered(w, v, w.nextAddr, 3, s, w.opSize + input, None, true) && v.l == w.l && v.x == w.x)
            && (code != Ok ==> Unchanged(w, v))
  {
    hide Sound, Bounded, FreshAddr, Rejected, Entered, Room, InputFits, AddOp;
    Books(w, s);
    SecondCharge(w, 3, s, input);
    AdmitEnters(w, 3, s, input, None, true);
    RejectedLeavesNoTrace(w, 3, s, 0);
    RejectedLeavesNoTrace(w, 3, s, input);
  }

  /** hs_response_read_async.  Closed: the response is released or its instance closing.
      Busy: a read of it is uncompleted.  Limit: as for a request, without input.  Ok
      otherwise: one new read waits behind all others; else nothing happens. */
  lemma ReadExactly(w: World, r: Addr, memory: bool)
    requires Reachable(w) && r in w.x.resps
    ensures r in w.h.g.inst
    ensures var s := w.h.g.inst[r]; var (v, code) := Read(w, r, memory);
            var closed, busy := r in w.h.resps.released || s in w.l.closing, exists o :: o in w.h.tally.undone && IsRead(w, o, r);
            var admitted := |Uncompleted(w, s)| < At(w.l.capacity, s) && w.nextId != INT_MAX && memory && Room(w, s, w.opSize);
            && v == Next(w, ReadStep(r, memory))
            && (code == Closed <==> closed) && (code == Busy <==> !closed && busy)
            && (code == Limit <==> !closed && !busy && !admitted) && (code == Ok <==> !closed && !busy && admitted)
            && (code == Ok ==> Entered(w, v, w.nextAddr, 4, s, w.opSize, Some(r), true) && v.l == w.l && v.x == w.x)
            && (code != Ok ==> v == w)
  {
    hide Reachable, Good, Sound, Bounded, FreshAddr, Entered, Room, Uncompleted, Next, Read, IsRead;
    ReachableIsGood(w);
    HandleOf(w, r);
    FreshInBooks(w);
    ReadingIs(w, r);
    NextRead(w, r, memory);
    ReadIs(w, r, w.h.g.inst[r], memory);
  }

  lemma NextRead(w: World, r: Addr, memory: bool)
    requires r in w.x.resps
    ensures Next(w, ReadStep(r, memory)) == Read(w, r, memory).0
  {
  }

  lemma ReadIs(w: World, r: Addr, s: Addr, memory: bool)
    requires Sound(w.h, multiset{}) && Bounded(w) && FreshAddr(w.h, w.nextAddr) && s in w.h.money.charged && r in w.h.g.inst && w.h.g.inst[r] == s
    requires w.nextAddr !in w.h.kinds && w.nextAddr !in w.h.money.ledger
    ensures var (v, code) := Read(w, r, memory);
            var admitted := |Uncompleted(w, s)| < At(w.l.capacity, s) && w.nextId != INT_MAX && memory && Room(w, s, w.opSize);
            && code == (if r in w.h.resps.released || s in w.l.closing then Closed else if r in w.h.resps.reading then Busy
                        else if !admitted then Limit else Ok)
            && (code == Ok ==> Entered(w, v, w.nextAddr, 4, s, w.opSize, Some(r), true) && v.l == w.l && v.x == w.x)
            && (code != Ok ==> v == w)
  {
    hide Sound, Bounded, FreshAddr, Entered, Room, AddOp, CanCharge;
    Books(w, s);
    ChargeExactly(w, s, w.opSize);
    AdmitEnters(w, 4, s, 0, Some(r), true);
  }

  lemma SomeMember(xs: set<Addr>)
    ensures xs == {} || exists x :: x in xs
  {
    if forall x :: x !in xs {
      assert xs == {};
    }
  }

  lemma ReadingIs(w: World, r: Addr)
    requires Reachable(w) && r in w.h.resps.alive
    ensures r in w.h.resps.reading <==> exists o :: o in w.h.tally.undone && IsRead(w, o, r)
  {
    OneReader(w, r);
    hide Reachable;
    var fiber := Fiber(w.h.g.resp, Readers(w.h.tally.undone, w.h.kinds), r);
    assert forall o :: o in fiber <==> o in w.h.tally.undone && IsRead(w, o, r);
    if r in w.h.resps.reading {
      SomeMember(fiber);
    } else {
      assert fiber == {};
    }
  }

  /** close_async.  Closed: the instance is closing already.  Limit: serial numbers or
      memory are short; a close is never charged.  Ok otherwise: the instance is closing
      from then on. */
  lemma CloseExactly(w: World, engine: Addr, server: bool, memory: bool)
    requires Reachable(w) && engine in w.x.engines
    ensures Engine(engine) in w.h.g.roots
    ensures var s := w.h.g.roots[Engine(engine)]; var (v, code) := Close(w, s, server, memory);
            && v == Next(w, CloseStep(engine, server, memory))
            && (code == Closed <==> s in w.l.closing)
            && (code == Limit <==> s !in w.l.closing && (w.nextId == INT_MAX || !memory))
            && (code == Ok <==> s !in w.l.closing && w.nextId != INT_MAX && memory)
            && (code == Ok ==> Entered(w, v, w.nextAddr, if server then 6 else 5, s, 0, None, true) && v.x == w.x
                               && v.l == w.l.(closing := w.l.closing + {s}, closer := w.l.closer[s := w.nextAddr]))
            && (code != Ok ==> v == w)
  {
    hide Reachable, Good, Sound, Bounded, FreshAddr, Entered, Room, Uncompleted, Next, Close;
    ReachableIsGood(w);
    EngineOf(w, engine);
    FreshInBooks(w);
    NextClose(w, engine, server, memory);
    CloseIs(w, w.h.g.roots[Engine(engine)], server, memory);
  }

  lemma NextClose(w: World, engine: Addr, server: bool, memory: bool)
    requires engine in w.x.engines && Engine(engine) in w.h.g.roots
    ensures Next(w, CloseStep(engine, server, memory)) == Close(w, w.h.g.roots[Engine(engine)], server, memory).0
  {
  }

  lemma CloseIs(w: World, s: Addr, server: bool, memory: bool)
    requires Bounded(w) && FreshAddr(w.h, w.nextAddr) && w.nextAddr !in w.h.kinds && w.nextAddr !in w.h.money.ledger
    ensures var (v, code) := Close(w, s, server, memory);
            && code == (if s in w.l.closing then Closed else if w.nextId == INT_MAX || !memory then Limit else Ok)
            && (code == Ok ==> Entered(w, v, w.nextAddr, if server then 6 else 5, s, 0, None, true) && v.x == w.x
                               && v.l == w.l.(closing := w.l.closing + {s}, closer := w.l.closer[s := w.nextAddr]))
            && (code != Ok ==> v == w)
  {
    hide Bounded, FreshAddr, AddOp;
    AdmitEnters(w, if server then 6 else 5, s, 0, None, true);
  }

  /** create_async, once no old runtime is left.  Limit: too many operations or instances,
      unless the call has waited, or serial numbers, memory or bytes are short.  Io: a
      thread cannot be started.  Ok otherwise: a new instance is live, its creation is
      last in the queue, and a runtime is up; else at most a runtime was started. */
  lemma CreateExactly(w: World, server: bool, len: nat, memory: seq<bool>, n: bool, b: bool, waited: bool)
    requires Reachable(w) && Enabled(w, CreateStep(server, len, memory, n, b, waited))
    ensures var (v, code) := Create(w, server, len, memory, n, b, waited);
            var crowded := !waited && (|w.h.tally.untold| >= 256 || |w.l.live| >= 1024);
            var up, serial := w.p.state != 0 || (n && b), if w.p.state == 0 then 1 else w.nextId;
            var admitted := serial < INT_MAX - 1 && memory == [true, true, true] && Sum(w.h.money.charged) + w.opSize + len + 1 <= 67108864;
            && v == Next(w, CreateStep(server, len, memory, n, b, waited))
            && (code == Io <==> !crowded && !up)
            && (code == Limit <==> crowded || (up && !admitted))
            && (code == Ok <==> !crowded && up && admitted)
            && (code == Ok ==> Opened(w, v, w.nextAddr, w.nextAddr + 1, if server then 2 else 1, w.opSize + len + 1) && 1 <= v.p.state <= 2)
            && (code != Ok ==> v.h == w.h && v.q == w.q && v.l == w.l && v.x == w.x)
            && (crowded ==> v == w)
  {
    hide Reachable, Good, Sound, Bounded, FreshAddr, Entered, Room, Uncompleted, Next, Create, Opened, Sum;
    ReachableIsGood(w);
    NextCreate(w, server, len, memory, n, b, waited);
    CreateIs(w, server, len, memory, n, b, waited);
  }

  lemma NextCreate(w: World, server: bool, len: nat, memory: seq<bool>, n: bool, b: bool, waited: bool)
    requires Enabled(w, CreateStep(server, len, memory, n, b, waited))
    ensures w.p.state < 3 && |memory| == 3
    ensures Next(w, CreateStep(server, len, memory, n, b, waited)) == Create(w, server, len, memory, n, b, waited).0
  {
  }

  lemma CreateIs(w: World, server: bool, len: nat, memory: seq<bool>, n: bool, b: bool, waited: bool)
    requires Good(w) && w.p.state < 3 && |memory| == 3
    ensures var (v, code) := Create(w, server, len, memory, n, b, waited);
            var crowded := !waited && (|w.h.tally.untold| >= 256 || |w.l.live| >= 1024);
            var up, serial := w.p.state != 0 || (n && b), if w.p.state == 0 then 1 else w.nextId;
            var admitted := serial < INT_MAX - 1 && memory == [true, true, true] && Sum(w.h.money.charged) + w.opSize + len + 1 <= 67108864;
            && code == (if crowded then Limit else if !up then Io else if !admitted then Limit else Ok)
            && (code == Ok ==> Opened(w, v, w.nextAddr, w.nextAddr + 1, if server then 2 else 1, w.opSize + len + 1) && 1 <= v.p.state <= 2)
            && (code != Ok ==> v.h == w.h && v.q == w.q && v.l == w.l && v.x == w.x)
            && (crowded ==> v == w)
  {
    hide Good, CreateBody, Opened, Sum, Start;
    LiveCount(w);
    StartIs(w, n, b);
    var u, kind := Start(w, n, b).0, if server then 2 else 1;
    if w.p.state != 0 || (n && b) {
      StartGood(w, n, b);
      BodyIs(u, kind, len, memory);
      OpensFrom(w, u, kind, len, memory);
    }
    assert memory == [memory[0], memory[1], memory[2]];
  }

  // The start of a runtime makes no difference to what a creation does.
  lemma OpensFrom(w: World, u: World, kind: int, len: nat, memory: seq<bool>)
    requires u == w.(p := u.p, nextId := u.nextId) && |memory| == 3
    ensures var v := CreateBody(u, kind, len, memory[1], memory[2]).0;
            Opened(u, v, w.nextAddr, w.nextAddr + 1, kind, w.opSize + len + 1) <==> Opened(w, v, w.nextAddr, w.nextAddr + 1, kind, w.opSize + len + 1)
  {
    hide CreateBody;
  }

  // A new live instance with its creating operation last in the queue.
  ghost predicate Opened(w: World, v: World, s: Addr, o: Addr, kind: int, n: int) {
    && v.q == w.q.(commands := w.q.commands + [o], accepted := w.q.accepted + {o}) && o !in w.q.accepted
    && v.h.kinds == w.h.kinds[o := kind] && v.h.g.inst == w.h.g.inst[o := s] && n >= 0 && v.h.money.ledger == w.h.money.ledger[o := Entry(s, n)]
    && v.h.tally.undone == w.h.tally.undone + {o} && v.h.tally.untold == w.h.tally.untold + {o}
    && Runtime(o) in v.h.g.roots && Host(o) in v.h.g.roots && Live(s) in v.h.g.roots
    && v.l.live == [s] + w.l.live && v.l.instances == w.l.instances + 1 && v.l.creator == w.l.creator[s := o]
    && v.l.closing == w.l.closing && v.l.closed == w.l.closed && v.l.capacity == w.l.capacity[s := 256]
    && v.h.money.budget == w.h.money.budget[s := 67108864] && v.h.resps.limit == w.h.resps.limit[s := 1024]
    && v.x == w.x
  }

  lemma LiveCount(w: World)
    requires Good(w)
    ensures w.l.instances == |w.l.live| && w.h.tally.activeOps == |w.h.tally.untold|
  {
  }

  lemma StartIs(w: World, n: bool, b: bool)
    requires Good(w) && w.p.state < 3
    ensures var (v, ok) := Start(w, n, b);
            && v == w.(p := v.p, nextId := v.nextId) && (ok <==> w.p.state != 0 || (n && b))
            && v.nextId == (if w.p.state == 0 then 1 else w.nextId) && (ok ==> 1 <= v.p.state <= 2)
  {
    StartGood(w, n, b);
  }

  lemma BodyIs(w: World, kind: int, len: nat, memory: seq<bool>)
    requires Good(w) && |memory| == 3 && IsCreate(kind)
    ensures var (v, code) := CreateBody(w, kind, len, memory[1], memory[2]);
            w.nextId < INT_MAX - 1 ==>
              && code == (if memory[1] && memory[2] && Sum(w.h.money.charged) + w.opSize + len + 1 <= 67108864 then Ok else Limit)
              && (code == Ok ==> Opened(w, v, w.nextAddr, w.nextAddr + 1, kind, w.opSize + len + 1) && v.p == w.p)
              && (code != Ok ==> v.h == w.h && v.q == w.q && v.l == w.l && v.x == w.x && v.p == w.p)
  {
    hide Good, Sound, Bounded, FreshAddr, Created, Uncreated, Sum, Opened, InputFits, NewOpOk, NewInstance;
    FreshInBooks(w);
    NextUnbooked(w);
    CreateFailureLeavesNoTrace(w, kind, 0);
    CreateFailureLeavesNoTrace(w, kind, len + 1);
    NewBooks(w, kind, len + 1);
    CreatedOpens(w, kind, len + 1);
  }

  lemma NextUnbooked(w: World)
    requires Sound(w.h, multiset{}) && Bounded(w)
    ensures w.nextAddr + 1 !in w.h.money.ledger
  {
  }

  lemma NewBooks(w: World, kind: int, n: nat)
    requires Sound(w.h, multiset{}) && IsCreate(kind)
    ensures var u := NewInstance(w);
            w.nextId < INT_MAX - 1 ==> (NewOpOk(u, kind, w.nextAddr, true) && InputFits(u, kind, w.nextAddr, n)
                                        <==> Sum(w.h.money.charged) + w.opSize + n <= 67108864)
    ensures forall m: bool :: NewOpOk(NewInstance(w), kind, w.nextAddr, m) <==> m && NewOpOk(NewInstance(w), kind, w.nextAddr, true)
  {
    Totals(w);
    hide Sound, Sum, AddInst;
    NewAccount(w.h, w.nextAddr);
  }

  lemma NewAccount(h: Heap, s: Addr)
    ensures var m := AddInst(h, s, RETAIN_LIMIT, 1024).money;
            m.retained == h.money.retained && At(m.budget, s) == RETAIN_LIMIT && At(m.charged, s) == 0 && m.ledger == h.money.ledger
  {
  }

  lemma Totals(w: World)
    requires Sound(w.h, multiset{})
    ensures w.h.money.retained == Sum(w.h.money.charged) >= 0
  {
    forall x | x in w.h.money.charged ensures w.h.money.charged[x] >= 0 {
      BalancePositive(w.h.money.ledger, x);
    }
    SumPositive(w.h.money.charged);
  }

  lemma HostedEnters(h: Heap, o: Addr, kind: int, s: Addr, n: nat)
    requires o !in h.money.ledger
    ensures var t := AddOp(h, o, kind, s, n, None, true);
            && t.kinds == h.kinds[o := kind] && t.g.inst == h.g.inst[o := s] && t.money.ledger == h.money.ledger[o := Entry(s, n)]
            && t.money.budget == h.money.budget && t.resps.limit == h.resps.limit
            && t.tally.undone == h.tally.undone + {o} && t.tally.untold == h.tally.untold + {o}
            && t.g.roots == h.g.roots[Runtime(o) := o][Host(o) := o]
  {
  }

  lemma NewFields(w: World)
    requires Bounded(w)
    ensures var u, s := NewInstance(w), w.nextAddr;
            && u.q == w.q && u.x == w.x && u.p == w.p && u.opSize == w.opSize && u.nextAddr == s + 1 && s + 1 !in w.q.accepted
            && u.l.live == w.l.live && u.l.instances == w.l.instances && u.l.creator == w.l.creator[s := s + 1]
            && u.l.closing == w.l.closing && u.l.closed == w.l.closed && u.l.capacity == w.l.capacity[s := 256]
            && u.h.kinds == w.h.kinds && u.h.g.inst == w.h.g.inst && u.h.money.ledger == w.h.money.ledger
            && u.h.tally.undone == w.h.tally.undone && u.h.tally.untold == w.h.tally.untold
            && u.h.money.budget == w.h.money.budget[s := 67108864] && u.h.resps.limit == w.h.resps.limit[s := 1024]
            && Live(s) in u.h.g.roots
  {
  }

  lemma CreatedOpens(w: World, kind: int, n: nat)
    requires Bounded(w) && w.nextAddr + 1 !in w.h.money.ledger && IsCreate(kind)
    ensures Opened(w, Created(w, kind, n), w.nextAddr, w.nextAddr + 1, kind, w.opSize + n) && Created(w, kind, n).p == w.p
  {
    hide NewInstance, AddOp, Bounded;
    NewFields(w);
    HostedEnters(NewInstance(w).h, w.nextAddr + 1, kind, w.nextAddr, w.opSize + n);
  }
}
