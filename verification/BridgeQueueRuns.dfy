/**
 The two intrusive queues through a whole run of the runtime: whatever the threads
 do, the linked lists hold exactly the commands and the notices of the state machine,
 so that they stay disjoint, acyclic and tail-correct in every reachable state.
 */
module BridgeQueueRuns {
  import opened Basics
  import opened Counting
  import opened BridgeHeap
  import opened BridgeObjects
  import opened Bridge
  import opened BridgeOrder
  import opened BridgeSteps
  import opened BridgeHost
  import opened BridgeOwner
  import opened BridgeRuns
  import opened BridgeLater
  import opened NodeMap
  import Lists = BridgeQueues

  // What a step does to the queues.
  datatype Move = Still | Push(o: Addr) | PopFirst | Notify(o: Addr) | TakeFirst | Return

  function Moved(q: Queues, m: Move): Queues {
    match m
    case Still => q
    case Push(o) => q.(commands := q.commands + [o], accepted := q.accepted + {o})
    case PopFirst => if q.commands == [] then q else q.(commands := q.commands[1..])
    case Notify(o) => q.(notices := q.notices + [o], completed := q.completed + [o])
    case TakeFirst => if q.notices == [] then q else q.(notices := q.notices[1..], calling := [q.notices[0]])
    case Return => if q.calling == [] then q else q.(calling := [], called := q.called + [q.calling[0]])
  }

  // Which moves a state allows: only new operations are pushed, and only popped ones
  // without a result are announced.
  ghost predicate Allowed(w: World, m: Move) {
    match m
    case Push(o) => o !in w.q.accepted
    case Notify(o) => o in w.h.tally.undone && o !in w.q.commands
    case _ => true
  }

  // -------------------------------------------------------------------------
  // Every step is one move

  lemma AdmitMove(w: World, kind: int, s: Addr, n: nat, r: Option<Addr>, host: bool)
    requires Bounded(w)
    ensures Admit(w, kind, s, n, r, host).q == Moved(w.q, Push(w.nextAddr)) && Allowed(w, Push(w.nextAddr))
  {
  }

  lemma CreateMove(w: World, server: bool, len: nat, memory: seq<bool>, n: bool, b: bool, waited: bool) returns (m: Move)
    requires Good(w) && w.p.state < 3 && |memory| == 3
    ensures Create(w, server, len, memory, n, b, waited).0.q == Moved(w.q, m) && Allowed(w, m)
  {
    hide CreateBody, Good, Queued, Sound;
    StartGood(w, n, b);
    StartKeeps(w, n, b);
    var v := Start(w, n, b).0;
    m := Still;
    if (waited || !Crowded(w)) && Start(w, n, b).1 && v.nextId < INT_MAX - 1 && memory[0] {
      GoodParts(v);
      m := CreateBodyMove(v, if server then 2 else 1, len, memory[1], memory[2]);
    }
  }

  lemma CreateBodyMove(w: World, kind: int, len: nat, opMemory: bool, inputMemory: bool) returns (m: Move)
    requires Sound(w.h, multiset{}) && Bounded(w) && IsCreate(kind)
    ensures CreateBody(w, kind, len, opMemory, inputMemory).0.q == Moved(w.q, m) && Allowed(w, m)
  {
    hide Uncreated, Sound;
    CreateFailureLeavesNoTrace(w, kind, 0);
    CreateFailureLeavesNoTrace(w, kind, len + 1);
    m := Still;
    if CreateBody(w, kind, len, opMemory, inputMemory).1.Ok? {
      CreatedQueue(w, kind, len + 1);
      m := Push(w.nextAddr + 1);
    }
  }

  lemma CreatedQueue(w: World, kind: int, n: nat)
    requires Bounded(w)
    ensures Created(w, kind, n).q == Moved(w.q, Push(w.nextAddr + 1)) && Allowed(w, Push(w.nextAddr + 1))
  {
    hide AddOp;
  }

  lemma SubmitMove(w: World, s: Addr, input: nat, memory: bool, copied: bool) returns (m: Move)
    requires Sound(w.h, multiset{}) && Bounded(w) && FreshAddr(w.h, w.nextAddr) && s in w.h.money.charged
    ensures Submit(w, s, input, memory, copied).0.q == Moved(w.q, m) && Allowed(w, m)
  {
    hide Rejected, Sound, Admit, FreshAddr, Bounded;
    RejectedLeavesNoTrace(w, 3, s, if InputFits(w, 3, s, input) then input else 0);
    AdmitMove(w, 3, s, input, None, true);
    m := if Submit(w, s, input, memory, copied).1.Ok? then Push(w.nextAddr) else Still;
  }

  lemma CallMove(w: World, e: Step) returns (m: Move)
    requires Good(w) && Enabled(w, e) && (e.CreateStep? || e.CloseStep? || e.SubmitStep? || e.ReadStep? || e.ReleaseResponseStep?)
    ensures Next(w, e).q == Moved(w.q, m) && Allowed(w, m)
  {
    hide Good, Create, Submit, Admit, RespDrop, Moved, Allowed;
    GoodParts(w);
    match e
    case CreateStep(server, len, memory, n, b, waited) => m := CreateMove(w, server, len, memory, n, b, waited);
    case CloseStep(engine, server, memory) => m := CloseMove(w, EngineInstance(w, engine), server, memory);
    case SubmitStep(engine, input, memory, copied) =>
      EngineOf(w, engine);
      m := SubmitMove(w, EngineInstance(w, engine), input, memory, copied);
    case ReadStep(r, memory) => m := ReadMove(w, r, memory);
    case ReleaseResponseStep(r, memory) => m := ReleaseResponseMove(w, r, memory);
  }

  lemma CloseMove(w: World, s: Addr, server: bool, memory: bool) returns (m: Move)
    requires Bounded(w)
    ensures Close(w, s, server, memory).0.q == Moved(w.q, m) && Allowed(w, m)
  {
    hide Admit, Bounded;
    AdmitMove(w, if server then 6 else 5, s, 0, None, true);
    m := if Close(w, s, server, memory).1.Ok? then Push(w.nextAddr) else Still;
  }

  lemma ReadMove(w: World, r: Addr, memory: bool) returns (m: Move)
    requires Bounded(w)
    ensures Read(w, r, memory).0.q == Moved(w.q, m) && Allowed(w, m)
  {
    hide Admit, Bounded;
    AdmitMove(w, 4, At(w.h.g.inst, r), 0, Some(r), true);
    m := if Read(w, r, memory).1.Ok? then Push(w.nextAddr) else Still;
  }

  lemma ReleaseResponseMove(w: World, r: Addr, memory: bool) returns (m: Move)
    requires Bounded(w)
    ensures ReleaseResponse(w, r, memory).q == Moved(w.q, m) && Allowed(w, m)
  {
    hide Admit, Bounded, RespDrop;
    var s := At(w.h.g.inst, r);
    AdmitMove(w, 7, s, 0, Some(r), false);
    m := if r !in w.h.resps.released && s !in w.l.closing && NewOpOk(w, 7, s, memory) then Push(w.nextAddr) else Still;
  }

  lemma CompleteMove(w: World, o: Addr, code: int) returns (m: Move)
    requires o in w.h.tally.undone ==> o !in w.q.commands
    ensures Complete(w, o, code).q == Moved(w.q, m) && Allowed(w, m)
  {
    hide RespDrop, InstDrop;
    m := if o in w.h.tally.undone then Notify(o) else Still;
  }

  lemma {:induction false} RetireAllQueues(w: World, n: nat)
    ensures RetireAll(w, n).q == w.q
    decreases n
  {
    hide InstDrop;
    if n != 0 && w.l.live != [] {
      RetireAllQueues(Retire(w, w.l.live[0]), n - 1);
    }
  }

  lemma OwnerMove(w: World, e: Step) returns (m: Move)
    requires Good(w) && Enabled(w, e)
    requires e.PopStep? || e.DrainPopStep? || e.CompleteStep? || e.DrainCompleteStep? || e.DrainEndStep? || e.TakeStep? || e.ToldStep?
    ensures Next(w, e).q == Moved(w.q, m) && Allowed(w, m)
  {
    hide Good, Complete, RetireAll, Tell;
    match e
    case PopStep => m := PopFirst;
    case DrainPopStep => m := PopFirst;
    case CompleteStep(o, code) => m := CompleteMove(w, o, code);
    case DrainCompleteStep => m := DrainMove(w);
    case DrainEndStep =>
      RetireAllQueues(w, |w.l.live|);
      m := Still;
    case TakeStep => m := TakeFirst;
    case ToldStep => m := Return;
  }

  lemma DrainMove(w: World) returns (m: Move)
    requires Good(w)
    ensures DrainComplete(w).q == Moved(w.q, m) && Allowed(w, m)
  {
    hide Complete;
    m := Still;
    if w.p.owner.Draining? && |w.p.owner.cur| == 1 {
      DrainedOp(w.p, w.h.tally.undone, w.q, w.l.live);
      m := CompleteMove(w, w.p.owner.cur[0], 3);
    }
  }

  lemma OtherMove(w: World, e: Step)
    requires Enabled(w, e)
    requires e.LimitsStep? || e.MakeResponseStep? || e.SetHeaderStep? || e.MakeChunkStep?
          || e.ReleaseChunkStep? || e.ReleaseOpStep? || e.ReleaseEngineStep?
    ensures Next(w, e).q == w.q
  {
    hide OpDrop, InstDrop, ChunkDrop;
  }

  lemma StepMove(w: World, e: Step) returns (m: Move)
    requires Good(w) && Enabled(w, e)
    ensures Next(w, e).q == Moved(w.q, m) && Allowed(w, m)
  {
    hide Good, Next;
    if OnlyThreads(e) {
      ThreadStep(w, e);
      m := Still;
    } else if e.CreateStep? || e.CloseStep? || e.SubmitStep? || e.ReadStep? || e.ReleaseResponseStep? {
      m := CallMove(w, e);
    } else if e.LimitsStep? || e.MakeResponseStep? || e.SetHeaderStep? || e.MakeChunkStep?
           || e.ReleaseChunkStep? || e.ReleaseOpStep? || e.ReleaseEngineStep? {
      OtherMove(w, e);
      m := Still;
    } else {
      m := OwnerMove(w, e);
    }
  }

  // -------------------------------------------------------------------------
  // The move of a step, from what the threads see before and after it

  function Seen(q: Queues, t: Queues): Move {
    if t.accepted != q.accepted && t.commands != [] then Push(t.commands[|t.commands| - 1])
    else if |t.completed| > |q.completed| then Notify(t.completed[|t.completed| - 1])
    else if |t.commands| < |q.commands| then PopFirst
    else if |t.notices| < |q.notices| then TakeFirst
    else if |t.called| > |q.called| then Return
    else Still
  }

  lemma SeenIs(w: World, m: Move, t: Queues)
    requires Allowed(w, m) && t == Moved(w.q, m)
    ensures t == Moved(w.q, Seen(w.q, t)) && Allowed(w, Seen(w.q, t))
  {
  }

  // -------------------------------------------------------------------------
  // The lists in memory

  // The linked lists are the queues, node for node.
  ghost predicate Matches(d: Lists.Queues, ops: map<Addr, Lists.Operation>, q: Queues)
    reads d, d.cmds, d.nots
  {
    d.Valid() && Injective(ops) && ops.Keys == q.accepted && Listed(ops, q.commands, d.cmds) && Listed(ops, q.notices, d.nots)
  }

  /** One step of the runtime acted out on the linked lists.  That no operation is
      ever linked twice follows from the state machine's invariant. */
  method Act(d: Lists.Queues, ops: map<Addr, Lists.Operation>, ghost w: World, q: Queues, t: Queues, clear: bool)
    returns (more: map<Addr, Lists.Operation>)
    requires Matches(d, ops, q) && q == w.q && Queued(w.h.tally.undone, w.h.tally.untold, w.q)
    requires t == Moved(q, Seen(q, t)) && Allowed(w, Seen(q, t))
    modifies d, ops.Values
    ensures Matches(d, more, t) && forall x | x in more.Values :: x in ops.Values || fresh(x)
  {
    hide Queued;
    NodesIn(ops, q.commands, d.cmds);
    NodesIn(ops, q.notices, d.nots);
    more := ops;
    match Seen(q, t)
    case Push(o) => more := Link(d, ops, w, q, o);
    case PopFirst => var _ := d.Pop(clear);
    case Notify(o) => Announce(d, ops, w, q, o);
    case TakeFirst => var _ := d.Take();
    case Return =>
    case Still =>
  }

  method Link(d: Lists.Queues, ops: map<Addr, Lists.Operation>, ghost w: World, ghost q: Queues, o: Addr)
    returns (more: map<Addr, Lists.Operation>)
    requires Matches(d, ops, q) && o !in q.accepted
    modifies d, ops.Values
    ensures Matches(d, more, Moved(q, Push(o))) && forall x | x in more.Values :: x in ops.Values || fresh(x)
  {
    NodesIn(ops, q.commands, d.cmds);
    NodesIn(ops, q.notices, d.nots);
    var node := new Lists.Operation();
    d.Enqueue(node);
    more := ops[o := node];
  }

  lemma UndoneIsListed(undone: set<Addr>, untold: set<Addr>, q: Queues, o: Addr)
    requires Queued(undone, untold, q) && o in undone
    ensures o in q.accepted && o !in q.notices
  {
    assert forall x | x in q.notices :: x in q.completed;
  }

  method Announce(d: Lists.Queues, ops: map<Addr, Lists.Operation>, ghost w: World, ghost q: Queues, o: Addr)
    requires Matches(d, ops, q) && q == w.q && Queued(w.h.tally.undone, w.h.tally.untold, w.q)
    requires o in w.h.tally.undone && o !in q.commands
    modifies d, ops.Values
    ensures Matches(d, ops, Moved(q, Notify(o)))
  {
    UndoneIsListed(w.h.tally.undone, w.h.tally.untold, w.q, o);
    hide Queued;
    NodesIn(ops, q.commands, d.cmds);
    NodesIn(ops, q.notices, d.nots);
    ListedAt(ops, q.commands, d.cmds, o);
    ListedAt(ops, q.notices, d.nots, o);
    assert o in ops.Keys && ops[o] in ops.Values;
    d.Notify(ops[o]);
  }

  method Round(d: Lists.Queues, ops: map<Addr, Lists.Operation>, w: World, e: Step)
    returns (more: map<Addr, Lists.Operation>, v: World)
    requires Good(w) && Enabled(w, e) && Matches(d, ops, w.q)
    modifies d, ops.Values
    ensures v == Next(w, e) && Good(v) && Matches(d, more, v.q)
    ensures forall x | x in more.Values :: x in ops.Values || fresh(x)
  {
    hide Good, Next, Enabled, Matches;
    v := Next(w, e);
    ghost var m := StepMove(w, e);
    SeenIs(w, m, v.q);
    GoodParts(w);
    NextGood(w, e);
    more := Act(d, ops, w, w.q, v.q, e.PopStep?);
  }

  method Begin(ghost opSize: nat) returns (d: Lists.Queues, ops: map<Addr, Lists.Operation>)
    ensures fresh(d) && ops == map[] && Matches(d, ops, Init(opSize).q)
  {
    d := new Lists.Queues();
    ops := map[];
  }

  /** Any run of the runtime on the linked lists: at its end, and so after each of its
      steps, they are the queues of the state machine. */
  method Drive(opSize: nat, steps: seq<Step>) returns (d: Lists.Queues, ops: map<Addr, Lists.Operation>, w: World)
    requires Runs(Init(opSize), steps)
    ensures fresh(d) && w == After(Init(opSize), steps) && Matches(d, ops, w.q)
  {
    hide Good, Next, Init, Enabled, Matches, Runs;
    w := Init(opSize);
    InitGood(opSize);
    d, ops := Begin(opSize);
    var i := 0;
    assert steps[0..] == steps;
    while i < |steps|
      invariant 0 <= i <= |steps| && fresh(d) && (forall x | x in ops.Values :: fresh(x))
      invariant Good(w) && Runs(w, steps[i..]) && After(w, steps[i..]) == After(Init(opSize), steps)
      invariant Matches(d, ops, w.q)
    {
      RunsOn(w, steps, i);
      ops, w := Round(d, ops, w, steps[i]);
      i := i + 1;
    }
    assert steps[i..] == [];
  }
}
