/**
 The C ABI runtime as a state machine: every locked section of bridge.c is one
 atomic step of one world.  Host threads, the owner thread and the notifier
 thread interleave freely between sections.
 */
module Bridge {
  import opened Basics
  import opened Counting
  import opened BridgeHeap
  import opened BridgeObjects

  const INT_MAX: int := 0x7fff_ffff
  const MAX_INPUT: int := 1048576

  // `accepted`, `completed` and `called` record the history of all operations:
  // those put on the command queue, those given a result (in that order), and
  // those whose callback has returned.  `calling` is the callback now running.
  datatype Queues = Queues(commands: seq<Addr>, notices: seq<Addr>, calling: seq<Addr>,
                           accepted: set<Addr>, completed: seq<Addr>, called: seq<Addr>)

  // `creator` and `closer` name the operations that opened and that close an instance.
  datatype Life = Life(live: seq<Addr>, instances: int, closing: set<Addr>, closed: set<Addr>,
                       creator: map<Addr, Addr>, closer: map<Addr, Addr>, capacity: map<Addr, int>)

  // What the host may use and release, and what still waits in an event.
  datatype Hosted = Hosted(engines: set<Addr>, resps: set<Addr>, chunks: set<Addr>,
                           evResp: map<Addr, Addr>, evChunk: map<Addr, Addr>)

  // Where the two library threads are.  `Draining(cur)` is the tail of owner_main
  // with the command it is completing; `Leaving` is notify_main after its loop.
  datatype OwnerPc = NoOwner | InEntry | Draining(cur: seq<Addr>) | Returned
  datatype NotifierPc = NoNotifier | Serving | Leaving | Exited

  datatype Threads = Threads(state: int, ownerDone: bool, owner: OwnerPc, notifier: NotifierPc,
                             starts: nat, joins: nat)

  datatype World = World(h: Heap, q: Queues, l: Life, x: Hosted, p: Threads,
                         nextAddr: Addr, nextId: int, opSize: nat)

  datatype Code = Ok | Io | Closed | Limit | Busy | InvalidArg

  function Init(opSize: nat): World {
    World(Heap(Graph(map[], map[], map[], map[]), Money(map[], map[], map[], 0), Tally({}, {}, map[], map[], 0),
               Resps({}, map[], map[], {}, map[], {}, {}), map[]),
          Queues([], [], [], {}, [], []), Life([], 0, {}, {}, map[], map[], map[]),
          Hosted({}, {}, {}, map[], map[]), Threads(0, false, NoOwner, NoNotifier, 0, 0), 1, 1, opSize)
  }

  // -------------------------------------------------------------------------
  // new_op, abandon, enqueue

  predicate NewOpOk(w: World, kind: int, s: Addr, memory: bool) {
    w.nextId != INT_MAX && memory && (kind <= 4 ==> CanCharge(w.h.money, s, w.opSize))
  }

  function OpCharge(w: World, kind: int): nat {
    if kind <= 4 then w.opSize else 0
  }

  function Tick(w: World): World {
    w.(nextAddr := w.nextAddr + 1, nextId := w.nextId + 1)
  }

  // new_op followed by enqueue, with `n` further bytes charged to the operation.
  function Admit(w: World, kind: int, s: Addr, n: nat, r: Option<Addr>, host: bool): World {
    var o := w.nextAddr;
    Tick(w).(h := AddOp(w.h, o, kind, s, OpCharge(w, kind) + n, r, host),
             q := w.q.(commands := w.q.commands + [o], accepted := w.q.accepted + {o}))
  }

  // new_op followed by abandon: the operation is born, perhaps charged for its
  // input, and taken back before anyone has seen it.
  function Abandon(h: Heap, o: Addr): Heap {
    OpDrop(Unborn(h, o, At(h.g.inst, o)), o)
  }

  function Unborn(h: Heap, o: Addr, s: Addr): Heap {
    h.(tally := h.tally.(undone := h.tally.undone - {o}, untold := h.tally.untold - {o},
                         active := h.tally.active[s := At(h.tally.active, s) - 1],
                         notes := h.tally.notes[s := At(h.tally.notes, s) - 1],
                         activeOps := h.tally.activeOps - 1),
       g := h.g.(roots := h.g.roots - {Runtime(o), Host(o)}, refs := h.g.refs[o := 1]))
  }

  function Rejected(w: World, kind: int, s: Addr, n: nat): World {
    TakenBack(w, AddOp(w.h, w.nextAddr, kind, s, OpCharge(w, kind) + n, None, true))
  }

  function TakenBack(w: World, h: Heap): World {
    Tick(w).(h := Abandon(h, w.nextAddr))
  }

  // -------------------------------------------------------------------------
  // Host calls

  // start_runtime with state 0..2; whether the two threads can be started is
  // the platform's business.
  function Start(w: World, notifierStarts: bool, ownerStarts: bool): (World, bool) {
    if w.p.state != 0 then (w, true)
    else if !notifierStarts then (w.(p := w.p.(ownerDone := false), nextId := 1), false)
    else
      var p := w.p.(state := 1, ownerDone := false, owner := InEntry, notifier := Serving, starts := w.p.starts + 1);
      if ownerStarts then (w.(p := p, nextId := 1), true)
      else (w.(p := p.(state := 3, ownerDone := true, owner := NoOwner), nextId := 1), false)
  }

  predicate Crowded(w: World) {
    w.h.tally.activeOps >= 256 || w.l.instances >= 1024
  }

  // A call that had to wait for an old runtime to end passed the first check
  // before the wait and does not repeat it.
  function Create(w: World, server: bool, len: nat, memory: seq<bool>, notifierStarts: bool, ownerStarts: bool, waited: bool): (World, Code)
    requires |memory| == 3
  {
    if !waited && Crowded(w) then (w, Limit) else CreateUnchecked(w, server, len, memory, notifierStarts, ownerStarts)
  }

  function CreateUnchecked(w: World, server: bool, len: nat, memory: seq<bool>, notifierStarts: bool, ownerStarts: bool): (World, Code)
    requires |memory| == 3
  {
    var v := Start(w, notifierStarts, ownerStarts);
    if v.1 then CreateStarted(v.0, server, len, memory) else (v.0, Io)
  }

  function CreateStarted(w: World, server: bool, len: nat, memory: seq<bool>): (World, Code)
    requires |memory| == 3
  {
    if w.nextId >= INT_MAX - 1 || !memory[0] then (w, Limit)
    else CreateBody(w, if server then 2 else 1, len, memory[1], memory[2])
  }

  function NewInstance(w: World): World {
    Tick(w).(h := AddInst(w.h, w.nextAddr, RETAIN_LIMIT, 1024),
             l := w.l.(creator := w.l.creator[w.nextAddr := w.nextAddr + 1],
                       capacity := w.l.capacity[w.nextAddr := 256]))
  }

  function CreateBody(w: World, kind: int, len: nat, opMemory: bool, inputMemory: bool): (World, Code) {
    if !NewOpOk(NewInstance(w), kind, w.nextAddr, opMemory) then (Tick(w), Limit)  // free(s)
    else if !InputFits(NewInstance(w), kind, w.nextAddr, len + 1) then (Uncreated(w, kind, 0), Limit)
    else if !inputMemory then (Uncreated(w, kind, len + 1), Limit)
    else (Created(w, kind, len + 1), Ok)
  }

  // The second charge of a call: its input, after the operation itself.
  predicate InputFits(w: World, kind: int, s: Addr, n: nat) {
    CanCharge(Post(w.h.money, w.nextAddr, s, OpCharge(w, kind)), s, n)
  }

  function Created(w: World, kind: int, n: nat): World {
    var u := Admit(NewInstance(w), kind, w.nextAddr, n, None, true);
    u.(l := u.l.(live := [w.nextAddr] + u.l.live, instances := u.l.instances + 1))
  }

  function Uncreated(w: World, kind: int, n: nat): World {
    Discard(Rejected(NewInstance(w), kind, w.nextAddr, n), w.l, w.nextAddr)
  }

  // instance_drop of an instance that never went live.
  function Discard(w: World, l: Life, s: Addr): World {
    w.(h := InstDrop(w.h.(g := CutRoot(w.h.g, Live(s))), s), l := l)
  }

  function Close(w: World, s: Addr, server: bool, memory: bool): (World, Code) {
    var kind := if server then 6 else 5;
    if s in w.l.closing then (w, Closed)
    else if !NewOpOk(w, kind, s, memory) then (w, Limit)
    else
      var v := Admit(w, kind, s, 0, None, true);
      (v.(l := v.l.(closing := v.l.closing + {s}, closer := v.l.closer[s := w.nextAddr])), Ok)
  }

  function Submit(w: World, s: Addr, input: nat, memory: bool, copied: bool): (World, Code) {
    var code := SubmitVerdict(w, s, memory);
    if !code.Ok? then (w, code)
    else if !InputFits(w, 3, s, input) then (Rejected(w, 3, s, 0), Limit)
    else if !copied then (Rejected(w, 3, s, input), InvalidArg)
    else (Admit(w, 3, s, input, None, true), Ok)
  }

  // Whether the request gets as far as a new operation.
  function SubmitVerdict(w: World, s: Addr, memory: bool): Code {
    if s in w.l.closing then Closed
    else if At(w.h.tally.active, s) >= At(w.l.capacity, s) || !NewOpOk(w, 3, s, memory) then Limit
    else Ok
  }

  function Read(w: World, r: Addr, memory: bool): (World, Code) {
    var code := ReadVerdict(w, r, At(w.h.g.inst, r), memory);
    (if code.Ok? then Admit(w, 4, At(w.h.g.inst, r), 0, Some(r), true) else w, code)
  }

  function ReadVerdict(w: World, r: Addr, s: Addr, memory: bool): Code {
    if r in w.h.resps.released || s in w.l.closing then Closed
    else if r in w.h.resps.reading then Busy
    else if At(w.h.tally.active, s) >= At(w.l.capacity, s) || !NewOpOk(w, 4, s, memory) then Limit
    else Ok
  }

  // The internal release command is queued first, then the handle's reference goes.
  function ReleaseResponse(w: World, r: Addr, memory: bool): World {
    var u := Unhandled(TellOwner(w, r, At(w.h.g.inst, r), memory), r);
    u.(h := RespDrop(u.h, r))
  }

  function TellOwner(w: World, r: Addr, s: Addr, memory: bool): World {
    if r !in w.h.resps.released && s !in w.l.closing && NewOpOk(w, 7, s, memory) then Admit(w, 7, s, 0, Some(r), false) else w
  }

  function Unhandled(w: World, r: Addr): World {
    w.(h := w.h.(resps := w.h.resps.(released := w.h.resps.released + {r}), g := CutRoot(w.h.g, Handle(r))),
       x := w.x.(resps := w.x.resps - {r}))
  }

  function ReleaseChunk(w: World, c: Addr): World {
    w.(h := ChunkDrop(w.h, c), x := w.x.(chunks := w.x.chunks - {c}))
  }

  function ReleaseOp(w: World, o: Addr): World {
    w.(h := OpDrop(w.h.(g := CutRoot(w.h.g, Host(o))), o))
  }

  function ReleaseEngine(w: World, e: Addr): World {
    w.(h := InstDrop(w.h.(g := CutRoot(w.h.g, Engine(e))), EngineTarget(w.h.g, e)), x := w.x.(engines := w.x.engines - {e}))
  }

  // -------------------------------------------------------------------------
  // Owner calls

  function Pop(w: World): World {
    if w.q.commands == [] then w else w.(q := w.q.(commands := w.q.commands[1..]))
  }

  function MakeResponse(w: World, o: Addr, n: nat, memory: bool): World {
    var s := At(w.h.g.inst, o);
    if !memory || At(w.h.resps.count, s) >= At(w.h.resps.limit, s) || !CanCharge(w.h.money, s, n) then w
    else w.(h := AddResp(w.h, w.nextAddr, s, n), nextAddr := w.nextAddr + 1,
            x := w.x.(evResp := w.x.evResp[o := w.nextAddr]))
  }

  function SetHeader(w: World, o: Addr, n: nat): World {
    var r := At(w.x.evResp, o);
    if CanCharge(w.h.money, At(w.h.g.inst, r), n) then w.(h := GrowResp(w.h, r, n)) else w
  }

  function MakeChunk(w: World, o: Addr, n: nat, memory: bool): World {
    var s := At(w.h.g.inst, o);
    if !memory || !CanCharge(w.h.money, s, n) then w
    else w.(h := AddChunk(w.h, w.nextAddr, s, At(w.h.g.resp, o), n), nextAddr := w.nextAddr + 1,
            x := w.x.(evChunk := w.x.evChunk[o := w.nextAddr]))
  }

  function SetLimits(w: World, s: Addr, capacity: int, budget: nat, responses: int): World {
    w.(h := w.h.(money := w.h.money.(budget := w.h.money.budget[s := budget]),
                 resps := w.h.resps.(limit := w.h.resps.limit[s := responses])),
       l := w.l.(capacity := w.l.capacity[s := capacity]))
  }

  function Without(xs: seq<Addr>, x: Addr): seq<Addr> {
    if xs == [] then [] else if xs[0] == x then xs[1..] else [xs[0]] + Without(xs[1..], x)
  }

  // closed = 1, unlink, instances--, instance_drop.
  function Retire(w: World, s: Addr): World {
    var u := Unlinked(w, s);
    u.(h := InstDrop(u.h, s))
  }

  function Unlinked(w: World, s: Addr): World {
    w.(h := w.h.(g := CutRoot(w.h.g, Live(s))),
       l := w.l.(live := Without(w.l.live, s), instances := w.l.instances - 1,
                 closed := w.l.closed + {s}, closing := w.l.closing + {s}))
  }

  // An error result takes back the response that was to be delivered.
  function DropEventResponse(w: World, o: Addr): World {
    if o in w.x.evResp then
      var u := Undelivered(w, o, w.x.evResp[o]);
      u.(h := RespDrop(u.h, w.x.evResp[o]))
    else w
  }

  function Undelivered(w: World, o: Addr, r: Addr): World {
    w.(h := w.h.(g := CutRoot(w.h.g, Handle(r))), x := w.x.(evResp := w.x.evResp - {o}))
  }

  function GrantEngine(w: World, o: Addr): World {
    var s := At(w.h.g.inst, o);
    w.(h := w.h.(g := Inc(w.h.g, s).(roots := w.h.g.roots[Engine(o) := s])))
  }

  function Announce(w: World, o: Addr): World {
    w.(h := Settle(w.h, o),
       q := w.q.(notices := w.q.notices + [o], completed := w.q.completed + [o]))
  }

  function Complete(w: World, o: Addr, code: int): World {
    if o in w.h.tally.undone
    then Announce(Outcome(if code != 0 then DropEventResponse(w, o) else w, o, code), o)
    else w
  }

  // What a result does to the instance: a created one gets its handle, one that
  // failed to open or was closed leaves the live list.
  function Outcome(w: World, o: Addr, code: int): World {
    var kind := At(w.h.kinds, o);
    if (kind == 1 || kind == 2) && code == 0 then GrantEngine(w, o)
    else if kind == 1 || kind == 2 || kind == 5 || kind == 6 then Retire(w, At(w.h.g.inst, o))
    else w
  }

  function Idle(w: World): World {
    if w.l.instances == 0 && w.h.tally.activeOps == 0 && w.q.commands == []
    then w.(p := w.p.(state := 3)) else w
  }

  // owner_main after owner_entry: one command at a time, then the live list.
  function DrainPop(w: World): World {
    if w.q.commands == [] then w
    else w.(q := w.q.(commands := w.q.commands[1..]), p := w.p.(owner := Draining([w.q.commands[0]])))
  }

  function DrainComplete(w: World): World {
    if w.p.owner.Draining? && |w.p.owner.cur| == 1 then
      var v := Complete(w, w.p.owner.cur[0], 3);
      v.(p := v.p.(owner := Draining([])))
    else w
  }

  function RetireAll(w: World, n: nat): World
    decreases n
  {
    if n == 0 || w.l.live == [] then w else RetireAll(Retire(w, w.l.live[0]), n - 1)
  }

  function DrainEnd(w: World): World {
    var v := RetireAll(w, |w.l.live|);
    v.(p := v.p.(owner := Returned, ownerDone := true))
  }

  // -------------------------------------------------------------------------
  // Notifier steps

  // The callback starts: the handles of the event now belong to the host.
  function Take(w: World): World {
    if w.q.notices == [] then w
    else
      var o := w.q.notices[0];
      w.(q := w.q.(notices := w.q.notices[1..], calling := [o]),
         x := Hosted(if Engine(o) in w.h.g.roots then w.x.engines + {o} else w.x.engines,
                     if o in w.x.evResp then w.x.resps + {w.x.evResp[o]} else w.x.resps,
                     if o in w.x.evChunk then w.x.chunks + {w.x.evChunk[o]} else w.x.chunks,
                     w.x.evResp - {o}, w.x.evChunk - {o}))
  }

  // The callback has returned.
  function Told(w: World): World {
    if w.q.calling == [] then w
    else
      var o := w.q.calling[0];
      w.(h := Tell(w.h, o), q := w.q.(calling := [], called := w.q.called + [o]))
  }

  // -------------------------------------------------------------------------
  // Steps

  datatype Step =
      // host threads
    | CreateStep(server: bool, len: nat, memory: seq<bool>, notifierStarts: bool, ownerStarts: bool, waited: bool)
    | CloseStep(engine: Addr, server: bool, memory1: bool)
    | SubmitStep(engine2: Addr, input: nat, memory2: bool, copied: bool)
    | ReadStep(response: Addr, memory3: bool)
    | ReleaseResponseStep(response2: Addr, memory4: bool)
    | ReleaseChunkStep(chunk: Addr)
    | ReleaseOpStep(op: Addr)
    | ReleaseEngineStep(engine3: Addr)
    | ReapBegin | ReapEnd
      // owner thread
    | Attach | PopStep | IdleStep | OwnerReturn | DrainPopStep | DrainCompleteStep | DrainEndStep
    | LimitsStep(op2: Addr, capacity: int, budget: nat, responses: int)
    | MakeResponseStep(op3: Addr, bytes: nat, memory5: bool)
    | SetHeaderStep(op4: Addr, bytes2: nat)
    | MakeChunkStep(op5: Addr, bytes3: nat, memory6: bool)
    | CompleteStep(op6: Addr, code: int)
      // notifier thread
    | TakeStep | ToldStep | Leave | Exit

  // An operation that the owner has popped and not completed.
  predicate Popped(w: World, o: Addr) {
    o in w.h.tally.undone && o !in w.q.commands && o in w.h.kinds && w.p.owner == InEntry
  }

  // When a step can be taken.  For the host: only with handles it holds, each
  // released at most once.  For the owner: results only for popped operations, at
  // most one response or chunk each, and none left behind when it returns.
  predicate Enabled(w: World, e: Step) {
    match e
    case CreateStep(_, len, memory, _, _, _) => w.p.state < 3 && |memory| == 3 && len <= MAX_INPUT
    case CloseStep(engine, _, _) => engine in w.x.engines
    case SubmitStep(engine, _, _, _) => engine in w.x.engines
    case ReadStep(r, _) => r in w.x.resps
    case ReleaseResponseStep(r, _) => r in w.x.resps
    case ReleaseChunkStep(c) => c in w.x.chunks
    case ReleaseOpStep(o) => Host(o) in w.h.g.roots
    case ReleaseEngineStep(engine) => engine in w.x.engines
    case ReapBegin => w.p.state == 4
    case ReapEnd => w.p.state == 5
    case Attach => w.p.owner == InEntry && w.p.state == 1
    case PopStep => w.p.owner == InEntry
    case IdleStep => w.p.owner == InEntry
    case OwnerReturn => w.p.owner == InEntry && forall o | o in w.h.tally.undone :: o in w.q.commands
    case DrainPopStep => w.p.owner == Draining([])
    case DrainCompleteStep => w.p.owner.Draining?
    case DrainEndStep => w.p.owner == Draining([]) && w.q.commands == []
    case LimitsStep(o, _, _, _) => Popped(w, o)
    case MakeResponseStep(o, _, _) => Popped(w, o) && w.h.kinds[o] == 3 && o !in w.x.evResp
    case SetHeaderStep(o, _) => Popped(w, o) && o in w.x.evResp
    case MakeChunkStep(o, _, _) => Popped(w, o) && w.h.kinds[o] == 4 && o !in w.x.evChunk
    case CompleteStep(o, _) => o in w.h.tally.undone ==> Popped(w, o)
    case TakeStep => w.p.notifier == Serving && w.q.calling == [] && w.q.notices != []
    case ToldStep => w.p.notifier == Serving && w.q.calling != []
    case Leave => w.p.notifier == Serving && w.q.calling == [] && w.q.notices == [] && w.p.ownerDone
    case Exit => w.p.notifier == Leaving && (w.p.owner == Returned || w.p.owner == NoOwner)
  }

  // The instance that an engine handle stands for.
  function EngineTarget(g: Graph, e: Addr): Addr {
    if Engine(e) in g.roots then g.roots[Engine(e)] else 0
  }

  function EngineInstance(w: World, e: Addr): Addr {
    EngineTarget(w.h.g, e)
  }

  function Next(w: World, e: Step): World
    requires Enabled(w, e)
  {
    match e
    case CreateStep(server, len, memory, n, o, waited) => Create(w, server, len, memory, n, o, waited).0
    case CloseStep(engine, server, memory) => Close(w, EngineInstance(w, engine), server, memory).0
    case SubmitStep(engine, input, memory, copied) => Submit(w, EngineInstance(w, engine), input, memory, copied).0
    case ReadStep(r, memory) => Read(w, r, memory).0
    case ReleaseResponseStep(r, memory) => ReleaseResponse(w, r, memory)
    case ReleaseChunkStep(c) => ReleaseChunk(w, c)
    case ReleaseOpStep(o) => ReleaseOp(w, o)
    case ReleaseEngineStep(engine) => ReleaseEngine(w, engine)
    case ReapBegin => w.(p := w.p.(state := 5))
    case ReapEnd => w.(p := w.p.(state := 0, notifier := NoNotifier, owner := NoOwner, joins := w.p.joins + 1))
    case Attach => w.(p := w.p.(state := 2))
    case PopStep => Pop(w)
    case IdleStep => Idle(w)
    case OwnerReturn => w.(p := w.p.(state := 3, owner := Draining([])))
    case DrainPopStep => DrainPop(w)
    case DrainCompleteStep => DrainComplete(w)
    case DrainEndStep => DrainEnd(w)
    case LimitsStep(o, capacity, budget, responses) => SetLimits(w, At(w.h.g.inst, o), capacity, budget, responses)
    case MakeResponseStep(o, n, memory) => MakeResponse(w, o, n, memory)
    case SetHeaderStep(o, n) => SetHeader(w, o, n)
    case MakeChunkStep(o, n, memory) => MakeChunk(w, o, n, memory)
    case CompleteStep(o, code) => Complete(w, o, code)
    case TakeStep => Take(w)
    case ToldStep => Told(w)
    case Leave => w.(p := w.p.(notifier := Leaving))
    case Exit => w.(p := w.p.(state := 4, notifier := Exited))
  }
}
