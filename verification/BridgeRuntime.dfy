/**
 The global state of bridge.c as fields that its functions update in place, one
 method per locked section in the order of the code's statements.  Every method
 is proved equal to the corresponding step of the state machine, whose invariant
 and theorems therefore hold of it.
 */
module BridgeRuntime {
  import opened Basics
  import opened Counting
  import opened BridgeHeap
  import opened BridgeObjects
  import opened Bridge
  import opened BridgeOrder
  import opened BridgeSteps
  import opened BridgeHost

  lemma UnlinkFirst(xs: seq<Addr>)
    requires xs != []
    ensures Without(xs, xs[0]) == xs[1..]
  {
  }

  // A second charge to the same operation adds to the first.
  lemma PostTwice(m: Money, o: Addr, s: Addr, a: nat, b: nat)
    ensures Post(Post(m, o, s, a), o, s, b) == Post(m, o, s, a + b)
  {
    var twice, once := Post(Post(m, o, s, a), o, s, b), Post(m, o, s, a + b);
    assert twice.ledger == once.ledger;
    assert twice.charged == once.charged;
  }

  lemma ChargeAgain(h: Heap, o: Addr, kind: int, s: Addr, a: nat, b: nat)
    ensures var t := AddOp(h, o, kind, s, a, None, true);
            t.(money := Post(t.money, o, s, b)) == AddOp(h, o, kind, s, a + b, None, true)
  {
    PostTwice(h.money, o, s, a, b);
  }

  lemma PaysFirst(w: World, kind: int, s: Addr)
    ensures AddOp(w.h, w.nextAddr, kind, s, OpCharge(w, kind), None, true).money == Post(w.h.money, w.nextAddr, s, OpCharge(w, kind))
  {
  }

  // Nothing in the heap knows of `o`, and `s` is an instance in it.
  ghost predicate Unmade(h: Heap, o: Addr, s: Addr) {
    && FreshAddr(h, o) && s in h.g.refs && h.g.refs[s] > 0 && s in h.money.charged
    && o !in h.money.ledger && o !in h.kinds && o !in h.tally.untold && o !in h.tally.undone
    && s in h.tally.active && s in h.tally.notes
  }

  lemma UnmadeNext(w: World, s: Addr)
    requires Sound(w.h, multiset{}) && FreshAddr(w.h, w.nextAddr) && s in w.h.money.charged
    ensures Unmade(w.h, w.nextAddr, s)
  {
    RejectedFacts(w.h, w.nextAddr, s);
  }

  // What a request comes to, without the detour through an operation that is
  // made and taken back.
  function Submitted(w: World, s: Addr, input: nat, memory: bool, copied: bool): (World, Code) {
    var code := SubmitVerdict(w, s, memory);
    if !code.Ok? then (w, code)
    else if !InputFits(w, 3, s, input) then (Tick(w), Limit)
    else if !copied then (Tick(w), InvalidArg)
    else (Admit(w, 3, s, input, None, true), Ok)
  }

  /** A request that is turned down leaves nothing but a used serial number. */
  lemma SubmittedIsSubmit(w: World, s: Addr, input: nat, memory: bool, copied: bool)
    requires Sound(w.h, multiset{}) && FreshAddr(w.h, w.nextAddr) && s in w.h.money.charged
    ensures Submitted(w, s, input, memory, copied) == Submit(w, s, input, memory, copied)
  {
    hide Sound, Shapes, Balanced, Rejected;
    RejectedLeavesNoTrace(w, 3, s, if InputFits(w, 3, s, input) then input else 0);
  }

  function CreatedBody(w: World, kind: int, len: nat, opMemory: bool, inputMemory: bool): (World, Code) {
    var v := NewInstance(w);
    if !NewOpOk(v, kind, w.nextAddr, opMemory) then (Tick(w), Limit)
    else if InputFits(v, kind, w.nextAddr, len + 1) && inputMemory then (Created(w, kind, len + 1), Ok)
    else (Tick(Tick(w)), Limit)
  }

  /** A create call that is turned down leaves nothing but used serial numbers. */
  lemma CreatedBodyIsCreateBody(w: World, kind: int, len: nat, opMemory: bool, inputMemory: bool)
    requires Sound(w.h, multiset{}) && Bounded(w) && kind != 4
    ensures CreatedBody(w, kind, len, opMemory, inputMemory) == CreateBody(w, kind, len, opMemory, inputMemory)
  {
    hide Uncreated, Bounded, Rejected, Sound;
    CreateFailureLeavesNoTrace(w, kind, 0);
    CreateFailureLeavesNoTrace(w, kind, len + 1);
  }

  // An address that the heap knows nothing of.
  ghost predicate Unused(h: Heap, s: Addr) {
    && FreshAddr(h, s) && s !in h.money.charged && s !in h.money.budget && s !in h.tally.active && s !in h.tally.notes
    && s !in h.resps.count && s !in h.resps.limit
  }

  // An instance just made can take an operation, and can be taken back.
  lemma NewInstanceTakenBack(w: World)
    requires Sound(w.h, multiset{}) && Bounded(w)
    ensures var v := NewInstance(w);
            Unmade(v.h, v.nextAddr, w.nextAddr) && Unused(w.h, w.nextAddr)
  {
    NewInstanceSound(w, NewInstance(w));
    UnmadeNext(NewInstance(w), w.nextAddr);
    NextIsFresh(w);
    FreshInstance(w.h, w.nextAddr);
  }

  class Runtime {
    var heap: Heap
    var queues: Queues
    var life: Life
    var hosted: Hosted
    var threads: Threads
    var nextAddr: Addr
    var nextId: int
    const opSize: nat

    ghost function Now(): (w: World)
      reads this
    {
      World(heap, queues, life, hosted, threads, nextAddr, nextId, opSize)
    }

    constructor(opSize: nat)
      ensures Now() == Init(opSize)
    {
      heap := Init(opSize).h;
      queues, life, hosted := Init(opSize).q, Init(opSize).l, Init(opSize).x;
      threads, nextAddr, nextId := Init(opSize).p, 1, 1;
      this.opSize := opSize;
      new;
      InitGood(opSize);
    }

    // new_op: the operation with its two references and its first charge.
    method NewOp(kind: int, s: Addr, r: Option<Addr>, host: bool, memory: bool) returns (o: Option<Addr>)
      requires kind == 4 ==> r.Some?
      modifies this
      ensures queues == old(queues) && life == old(life) && hosted == old(hosted) && threads == old(threads)
      ensures o.Some? <==> NewOpOk(old(Now()), kind, s, memory)
      ensures o.None? ==> Now() == old(Now())
      ensures o.Some? ==> o.value == old(nextAddr) && nextAddr == old(nextAddr) + 1 && nextId == old(nextId) + 1
      ensures o.Some? ==> heap == AddOp(old(heap), o.value, kind, s, OpCharge(old(Now()), kind), r, host)
    {
      if nextId == INT_MAX || !memory {
        return None;
      }
      if kind <= 4 && !CanCharge(heap.money, s, opSize) {
        return None;
      }
      o := Some(nextAddr);
      heap := AddOp(heap, nextAddr, kind, s, if kind <= 4 then opSize else 0, r, host);
      nextAddr, nextId := nextAddr + 1, nextId + 1;
    }

    method Enqueue(o: Addr)
      modifies this`queues
      ensures queues == old(queues).(commands := old(queues.commands) + [o], accepted := old(queues.accepted) + {o})
    {
      queues := queues.(commands := queues.commands + [o], accepted := queues.accepted + {o});
    }

    // charge of the input of an operation that exists already.
    method ChargeInput(o: Addr, s: Addr, n: nat) returns (ok: bool)
      modifies this`heap
      ensures ok <==> CanCharge(old(heap).money, s, n)
      ensures heap == if ok then old(heap).(money := Post(old(heap).money, o, s, n)) else old(heap)
    {
      ok := CanCharge(heap.money, s, n);
      if ok {
        heap := heap.(money := Post(heap.money, o, s, n));
      }
    }

    // abandon
    method AbandonOp(o: Addr)
      modifies this`heap
      ensures heap == Abandon(old(heap), o)
    {
      ghost var h := heap;
      var s := At(heap.g.inst, o);
      heap := heap.(tally := heap.tally.(active := heap.tally.active[s := At(heap.tally.active, s) - 1],
                                         notes := heap.tally.notes[s := At(heap.tally.notes, s) - 1]));
      heap := heap.(tally := heap.tally.(undone := heap.tally.undone - {o}, untold := heap.tally.untold - {o},
                                         activeOps := heap.tally.activeOps - 1));
      heap := heap.(g := heap.g.(roots := heap.g.roots - {Runtime(o), Host(o)}, refs := heap.g.refs[o := 1]));
      assert heap == Unborn(h, o, s);
      heap := OpDrop(heap, o);
    }

    // new_op and the charge of its input.
    method ChargedOp(kind: int, s: Addr, n: nat, memory: bool) returns (made: bool, fits: bool)
      requires kind != 4
      modifies this
      ensures queues == old(queues) && life == old(life) && hosted == old(hosted) && threads == old(threads)
      ensures made <==> NewOpOk(old(Now()), kind, s, memory)
      ensures fits <==> made && InputFits(old(Now()), kind, s, n)
      ensures !made ==> Now() == old(Now())
      ensures made ==> nextAddr == old(nextAddr) + 1 && nextId == old(nextId) + 1
      ensures made ==>
                heap == AddOp(old(heap), old(nextAddr), kind, s, OpCharge(old(Now()), kind) + (if fits then n else 0), None, true)
    {
      ghost var w := Now();
      var o := NewOp(kind, s, None, true, memory);
      if o.None? {
        return false, false;
      }
      ChargeAgain(w.h, w.nextAddr, kind, s, OpCharge(w, kind), n);
      PaysFirst(w, kind, s);
      fits := ChargeInput(o.value, s, n);
      made := true;
    }

    // The operation just made is taken back, and with it every trace of it.
    method GiveUp(o: Addr, ghost h: Heap, ghost kind: int, ghost s: Addr, ghost n: nat)
      requires heap == AddOp(h, o, kind, s, n, None, true) && Unmade(h, o, s) && kind != 4
      modifies this`heap
      ensures heap == h
    {
      AbandonUndoes(h, o, kind, s, n);
      AbandonOp(o);
    }

    // What hs_submit_async and create_async share: every failure after new_op
    // takes the operation back.
    method Offer(kind: int, s: Addr, n: nat, memory: bool, copied: bool) returns (made: bool, fits: bool)
      requires Unmade(heap, nextAddr, s) && kind != 4
      modifies this
      ensures made <==> NewOpOk(old(Now()), kind, s, memory)
      ensures fits <==> made && InputFits(old(Now()), kind, s, n)
      ensures Now() == if !made then old(Now())
                       else if fits && copied then Admit(old(Now()), kind, s, n, None, true)
                       else Tick(old(Now()))
    {
      ghost var w := Now();
      var o := nextAddr;
      made, fits := ChargedOp(kind, s, n, memory);
      if made && (!fits || !copied) {
        GiveUp(o, w.h, kind, s, OpCharge(w, kind) + (if fits then n else 0));
      } else if made {
        Enqueue(o);
      }
    }

    method SubmitAsync(s: Addr, input: nat, memory: bool, copied: bool) returns (code: Code)
      requires Sound(heap, multiset{}) && FreshAddr(heap, nextAddr) && s in heap.money.charged
      modifies this
      ensures (Now(), code) == Submitted(old(Now()), s, input, memory, copied)
    {
      hide Sound;
      UnmadeNext(Now(), s);
      if s in life.closing {
        return Closed;
      }
      if At(heap.tally.active, s) >= At(life.capacity, s) {
        return Limit;
      }
      var made, fits := Offer(3, s, input, memory, copied);
      code := if !made || !fits then Limit else if !copied then InvalidArg else Ok;
    }

    method StartRuntime(notifierStarts: bool, ownerStarts: bool) returns (ok: bool)
      modifies this`threads, this`nextId
      ensures (Now(), ok) == Start(old(Now()), notifierStarts, ownerStarts)
    {
      if threads.state != 0 {
        return true;
      }
      threads := threads.(state := 1, ownerDone := false);
      nextId := 1;
      if !notifierStarts {
        threads := threads.(state := 0);
        return false;
      }
      threads := threads.(notifier := Serving, starts := threads.starts + 1);
      if !ownerStarts {
        threads := threads.(state := 3, ownerDone := true, owner := NoOwner);
        return false;
      }
      threads := threads.(owner := InEntry);
      ok := true;
    }

    // calloc of an instance; it holds one reference for the live list.
    method NewInstanceFor() returns (s: Addr)
      modifies this`heap, this`life, this`nextAddr, this`nextId
      ensures s == old(nextAddr) && Now() == NewInstance(old(Now()))
    {
      s := nextAddr;
      heap := AddInst(heap, s, RETAIN_LIMIT, 1024);
      life := life.(creator := life.creator[s := s + 1], capacity := life.capacity[s := 256]);
      nextAddr, nextId := nextAddr + 1, nextId + 1;
    }

    // free(s) or instance_drop(s) of an instance that never went live.
    method DropInstance(s: Addr, l: Life, ghost h: Heap)
      requires heap == AddInst(h, s, RETAIN_LIMIT, 1024) && Unused(h, s)
      modifies this`heap, this`life
      ensures heap == h && life == l
    {
      DiscardUndoes(h, s, RETAIN_LIMIT, 1024);
      life := l;
      heap := InstDrop(heap.(g := CutRoot(heap.g, Live(s))), s);
    }

    // create_async once the runtime is up.
    method CreateInstance(kind: int, len: nat, opMemory: bool, inputMemory: bool) returns (code: Code)
      requires Unused(heap, nextAddr) && kind != 4
      requires Unmade(AddInst(heap, nextAddr, RETAIN_LIMIT, 1024), nextAddr + 1, nextAddr)
      modifies this
      ensures (Now(), code) == CreatedBody(old(Now()), kind, len, opMemory, inputMemory)
    {
      hide Post, Unmade, Unused, At;
      ghost var w, h := Now(), heap;
      var before := life;
      var s := NewInstanceFor();
      var made, fits := Offer(kind, s, len + 1, opMemory, inputMemory);
      if !made || !fits || !inputMemory {
        DropInstance(s, before, h);
        return Limit;
      }
      assert Now() == Admit(NewInstance(w), kind, s, len + 1, None, true);
      life := life.(live := [s] + life.live, instances := life.instances + 1);
      code := Ok;
    }

    method CreateChecked(kind: int, len: nat, opMemory: bool, inputMemory: bool) returns (code: Code)
      requires Sound(heap, multiset{}) && Bounded(Now()) && kind != 4
      modifies this
      ensures (Now(), code) == CreateBody(old(Now()), kind, len, opMemory, inputMemory)
    {
      hide AddInst, Layout, RespsOk, Readers, Holders;
      CreatedBodyIsCreateBody(Now(), kind, len, opMemory, inputMemory);
      NewInstanceTakenBack(Now());
      code := CreateInstance(kind, len, opMemory, inputMemory);
    }

    method CreateAsync(server: bool, len: nat, memory: seq<bool>, notifierStarts: bool, ownerStarts: bool, waited: bool) returns (code: Code)
      requires Sound(heap, multiset{}) && Bounded(Now()) && |memory| == 3
      modifies this
      ensures (Now(), code) == Create(old(Now()), server, len, memory, notifierStarts, ownerStarts, waited)
    {
      hide Sound;
      if !waited && (heap.tally.activeOps >= 256 || life.instances >= 1024) {
        return Limit;
      }
      var ok := StartRuntime(notifierStarts, ownerStarts);
      if !ok {
        return Io;
      }
      if nextId >= INT_MAX - 1 || !memory[0] {
        return Limit;
      }
      code := CreateChecked(if server then 2 else 1, len, memory[1], memory[2]);
    }

    method CloseAsync(s: Addr, server: bool, memory: bool) returns (code: Code)
      modifies this
      ensures (Now(), code) == Close(old(Now()), s, server, memory)
    {
      hide AddOp;
      ghost var w := Now();
      if s in life.closing {
        return Closed;
      }
      var o := NewOp(if server then 6 else 5, s, None, true, memory);
      if o.None? {
        return Limit;
      }
      life := life.(closing := life.closing + {s}, closer := life.closer[s := o.value]);
      Enqueue(o.value);
      code := Ok;
    }

    method ReadAsync(r: Addr, memory: bool) returns (code: Code)
      modifies this
      ensures (Now(), code) == Read(old(Now()), r, memory)
    {
      hide AddOp;
      ghost var w := Now();
      var s := At(heap.g.inst, r);
      if r in heap.resps.released || s in life.closing {
        return Closed;
      }
      if r in heap.resps.reading {
        return Busy;
      }
      if At(heap.tally.active, s) >= At(life.capacity, s) {
        return Limit;
      }
      var o := NewOp(4, s, Some(r), true, memory);
      if o.None? {
        return Limit;
      }
      Enqueue(o.value);
      code := Ok;
    }

    method ResponseRelease(r: Addr, memory: bool)
      modifies this
      ensures Now() == ReleaseResponse(old(Now()), r, memory)
    {
      ghost var w := Now();
      var s := At(heap.g.inst, r);
      if r !in heap.resps.released && s !in life.closing {
        var o := NewOp(7, s, Some(r), false, memory);
        if o.Some? {
          Enqueue(o.value);
        }
      }
      assert Now() == TellOwner(w, r, s, memory);
      heap := heap.(resps := heap.resps.(released := heap.resps.released + {r}), g := CutRoot(heap.g, Handle(r)));
      hosted := hosted.(resps := hosted.resps - {r});
      heap := RespDrop(heap, r);
    }

    // closed = 1, unlink_instance, instances--, instance_drop
    method RetireInstance(s: Addr)
      modifies this`heap, this`life
      ensures Now() == Retire(old(Now()), s)
    {
      life := life.(closed := life.closed + {s}, closing := life.closing + {s});
      life := life.(live := Without(life.live, s));
      life := life.(instances := life.instances - 1);
      heap := heap.(g := CutRoot(heap.g, Live(s)));
      heap := InstDrop(heap, s);
    }

    method Finish(o: Addr, code: int)
      requires o in heap.tally.undone
      modifies this
      ensures Now() == Announce(Outcome(old(Now()), o, code), o)
    {
      var kind, s := At(heap.kinds, o), At(heap.g.inst, o);
      if kind == 1 || kind == 2 {
        if code == 0 {
          heap := heap.(g := Inc(heap.g, s).(roots := heap.g.roots[Engine(o) := s]));
        } else {
          RetireInstance(s);
        }
      } else if kind == 5 || kind == 6 {
        RetireInstance(s);
      }
      assert Now() == Outcome(old(Now()), o, code);
      heap := Settle(heap, o);
      queues := queues.(notices := queues.notices + [o], completed := queues.completed + [o]);
    }

    method CompleteOp(o: Addr, code: int)
      modifies this
      ensures Now() == Complete(old(Now()), o, code)
    {
      ghost var w := Now();
      if o !in heap.tally.undone {
        return;
      }
      if code != 0 && o in hosted.evResp {
        var r := hosted.evResp[o];
        heap := heap.(g := CutRoot(heap.g, Handle(r)));
        heap := RespDrop(heap, r);
        hosted := hosted.(evResp := hosted.evResp - {o});
      }
      assert Now() == if code != 0 then DropEventResponse(w, o) else w;
      Finish(o, code);
    }

    method ChunkRelease(c: Addr)
      modifies this
      ensures Now() == ReleaseChunk(old(Now()), c)
    {
      var s, r := At(heap.g.inst, c), At(heap.g.resp, c);
      ghost var h := heap;
      heap := heap.(money := Uncharge(heap.money, c), g := CutEdges(heap.g, c));
      heap := heap.(resps := heap.resps.(chunks := heap.resps.chunks - {c},
                                         chunkCount := heap.resps.chunkCount[r := At(heap.resps.chunkCount, r) - 1]));
      assert heap == FreeChunk(h, c);
      heap := RespDrop(heap, r);
      heap := InstDrop(heap, s);
      hosted := hosted.(chunks := hosted.chunks - {c});
    }

    method MakeChunkFor(o: Addr, n: nat, memory: bool) returns (ok: bool)
      modifies this
      ensures Now() == MakeChunk(old(Now()), o, n, memory)
    {
      var s := At(heap.g.inst, o);
      if !memory || !CanCharge(heap.money, s, n) {
        return false;
      }
      heap := AddChunk(heap, nextAddr, s, At(heap.g.resp, o), n);
      hosted := hosted.(evChunk := hosted.evChunk[o := nextAddr]);
      nextAddr := nextAddr + 1;
      ok := true;
    }

    // hs_bridge_response
    method MakeResponseFor(o: Addr, n: nat, memory: bool) returns (ok: bool)
      modifies this
      ensures Now() == MakeResponse(old(Now()), o, n, memory)
      ensures ok ==> hosted.evResp == old(hosted.evResp)[o := old(nextAddr)]
    {
      var s := At(heap.g.inst, o);
      if !memory || At(heap.resps.count, s) >= At(heap.resps.limit, s) || !CanCharge(heap.money, s, n) {
        return false;
      }
      heap := AddResp(heap, nextAddr, s, n);
      hosted := hosted.(evResp := hosted.evResp[o := nextAddr]);
      nextAddr := nextAddr + 1;
      ok := true;
    }

    // hs_bridge_set_header: a further charge to the response.
    method SetHeaderFor(o: Addr, n: nat) returns (ok: bool)
      modifies this`heap
      ensures Now() == SetHeader(old(Now()), o, n)
    {
      var r := At(hosted.evResp, o);
      ok := CanCharge(heap.money, At(heap.g.inst, r), n);
      if ok {
        heap := GrowResp(heap, r, n);
      }
    }

    // The drop at the end of hs_operation_release.
    method OperationRelease(o: Addr)
      modifies this`heap
      ensures Now() == ReleaseOp(old(Now()), o)
    {
      heap := OpDrop(heap.(g := CutRoot(heap.g, Host(o))), o);
    }

    // The drop at the end of hs_engine_release.
    method EngineRelease(e: Addr)
      modifies this`heap, this`hosted
      ensures Now() == ReleaseEngine(old(Now()), e)
    {
      var s := EngineTarget(heap.g, e);
      hosted := hosted.(engines := hosted.engines - {e});
      heap := InstDrop(heap.(g := CutRoot(heap.g, Engine(e))), s);
    }

    method PopCommand() returns (o: Option<Addr>)
      modifies this
      ensures Now() == Pop(old(Now()))
      ensures o == if old(queues.commands) == [] then None else Some(old(queues.commands)[0])
    {
      if queues.commands == [] {
        return None;
      }
      o := Some(queues.commands[0]);
      queues := queues.(commands := queues.commands[1..]);
    }

    // hs_bridge_limits
    method LimitsFor(o: Addr, capacity: int, budget: nat, responses: int)
      modifies this`heap, this`life
      ensures Now() == SetLimits(old(Now()), At(old(heap.g.inst), o), capacity, budget, responses)
    {
      var s := At(heap.g.inst, o);
      life := life.(capacity := life.capacity[s := capacity]);
      heap := heap.(money := heap.money.(budget := heap.money.budget[s := budget]));
      heap := heap.(resps := heap.resps.(limit := heap.resps.limit[s := responses]));
    }

    // One turn of the loop in owner_main that fails the commands still queued.
    method DrainNext()
      modifies this`queues, this`threads
      ensures Now() == DrainPop(old(Now()))
    {
      if queues.commands != [] {
        threads := threads.(owner := Draining([queues.commands[0]]));
        queues := queues.(commands := queues.commands[1..]);
      }
    }

    method DrainOne()
      modifies this
      ensures Now() == DrainComplete(old(Now()))
    {
      if threads.owner.Draining? && |threads.owner.cur| == 1 {
        CompleteOp(threads.owner.cur[0], 3);
        threads := threads.(owner := Draining([]));
      }
    }

    // Where the two library threads and the joining host thread have got to.
    method Attached()
      modifies this`threads
      ensures Now() == old(Now()).(p := old(threads).(state := 2))
    {
      threads := threads.(state := 2);
    }

    method OwnerReturned()
      modifies this`threads
      ensures Now() == old(Now()).(p := old(threads).(state := 3, owner := Draining([])))
    {
      threads := threads.(owner := Draining([]));
      threads := threads.(state := 3);
    }

    method NotifierLeaves()
      modifies this`threads
      ensures Now() == old(Now()).(p := old(threads).(notifier := Leaving))
    {
      threads := threads.(notifier := Leaving);
    }

    method NotifierExits()
      modifies this`threads
      ensures Now() == old(Now()).(p := old(threads).(state := 4, notifier := Exited))
    {
      threads := threads.(notifier := Exited);
      threads := threads.(state := 4);
    }

    method JoinBegins()
      modifies this`threads
      ensures Now() == old(Now()).(p := old(threads).(state := 5))
    {
      threads := threads.(state := 5);
    }

    method JoinEnds()
      modifies this`threads
      ensures Now() == old(Now()).(p := old(threads).(state := 0, notifier := NoNotifier, owner := NoOwner, joins := old(threads).joins + 1))
    {
      threads := threads.(notifier := NoNotifier, owner := NoOwner, joins := threads.joins + 1);
      threads := threads.(state := 0);
    }

    method OwnerIdle() returns (stop: bool)
      modifies this
      ensures Now() == Idle(old(Now()))
      ensures stop <==> old(life.instances == 0 && heap.tally.activeOps == 0 && queues.commands == [])
    {
      stop := life.instances == 0 && heap.tally.activeOps == 0 && queues.commands == [];
      if stop {
        threads := threads.(state := 3);
      }
    }

    // The last part of owner_main: every instance still live is retired.
    method RetireLive()
      modifies this
      ensures Now() == DrainEnd(old(Now()))
    {
      ghost var w, n := Now(), |life.live|;
      while life.live != []
        invariant RetireAll(Now(), |life.live|) == RetireAll(w, n)
        decreases |life.live|
      {
        var s := life.live[0];
        UnlinkFirst(life.live);
        RetireInstance(s);
      }
      threads := threads.(owner := Returned, ownerDone := true);
    }

    // notify_main around one callback.
    method TakeNotice()
      requires queues.notices != []
      modifies this
      ensures Now() == Take(old(Now()))
    {
      ghost var w := Now();
      var o := queues.notices[0];
      queues := queues.(notices := queues.notices[1..], calling := [o]);
      hosted := Hosted(if Engine(o) in heap.g.roots then hosted.engines + {o} else hosted.engines,
                       if o in hosted.evResp then hosted.resps + {hosted.evResp[o]} else hosted.resps,
                       if o in hosted.evChunk then hosted.chunks + {hosted.evChunk[o]} else hosted.chunks,
                       hosted.evResp - {o}, hosted.evChunk - {o});
    }

    method CallbackReturned()
      requires queues.calling != []
      modifies this
      ensures Now() == Told(old(Now()))
    {
      ghost var w := Now();
      var o := queues.calling[0];
      var s := At(heap.g.inst, o);
      heap := heap.(tally := heap.tally.(notes := heap.tally.notes[s := At(heap.tally.notes, s) - 1]));
      heap := heap.(tally := heap.tally.(untold := heap.tally.untold - {o}, activeOps := heap.tally.activeOps - 1));
      heap := heap.(g := CutRoot(heap.g, Runtime(o)));
      assert heap == Untell(w.h, o);
      heap := OpDrop(heap, o);
      queues := queues.(calling := [], called := queues.called + [o]);
    }
  }
}
