/**
 The Node adapter over the C ABI: the environment with its references, pending
 count and cleanup hook, the works with their events, the wrapped handles, and the
 operation wrapper that a work shares with its token.  The JavaScript thread and the
 notifier thread interleave; every locked section or uninterrupted piece is a step.
 */
module Node {
  import opened Basics

  type Id = int

  // Results that an event may carry.
  datatype Event = Event(code: int, engine: Option<Id>, response: Option<Id>, chunk: Option<Id>)

  // Made: new_work has returned.  Accepted: the call into the ABI has returned the
  // operation.  Finished: finish_submit has returned.
  datatype Stage = Made | Accepted | Finished | Refused

  datatype Work = Work(stage: Stage, op: Option<Id>, nativeDone: bool, finalized: bool, queued: bool, event: Event)

  // kind 1: engine, kind 2: response, kind 3: token, whose pointer is a wrapper.
  datatype Handle = Handle(kind: int, ptr: Option<Id>)

  // The wrapper of a work's operation, named by the work; `work` and `token` say who
  // holds it.
  datatype Wrapper = Wrapper(op: Option<Id>, refs: int, work: bool, token: bool)

  datatype Cleaning = NotYet | Cleaning | Cleaned

  datatype Env = Env(refs: int, pending: int, closing: bool, cleanup: bool, cleaning: Cleaning, freed: bool, removed: nat)

  // What has been done to operations and results, in order.
  datatype Act = CancelOp(op: Id) | ReleaseOp(op2: Id) | Wrap(result: Id) | Dispose(result2: Id) | FreeHandle(result3: Id)

  // `accepted` and `issued` record every operation that a call has returned and every
  // result that a callback has handed over.
  datatype World = World(env: Env, works: map<Id, Work>, handles: map<Id, Handle>, wrappers: map<Id, Wrapper>,
                         log: seq<Act>, seen: set<Id>, accepted: set<Id>, issued: set<Id>)

  const NO_EVENT := Event(0, None, None, None)

  function Init(): World {
    World(Env(1, 0, false, false, NotYet, false, 0), map[], map[], map[], [], {}, {}, {})
  }

  // -------------------------------------------------------------------------
  // node_env_drop and node_pending_done

  function EnvDrop(e: Env): Env {
    e.(refs := e.refs - 1, freed := e.freed || e.refs - 1 == 0)
  }

  function PendingDone(e: Env): Env {
    if e.closing && e.pending - 1 == 0 && e.cleanup
    then e.(pending := e.pending - 1, cleanup := false, removed := e.removed + 1)
    else e.(pending := e.pending - 1)
  }

  // -------------------------------------------------------------------------
  // Events

  function Results(v: Event): seq<Id> {
    (if v.engine.Some? then [v.engine.value] else [])
    + (if v.response.Some? then [v.response.value] else [])
    + (if v.chunk.Some? then [v.chunk.value] else [])
  }

  function Disposals(rs: seq<Id>): seq<Act> {
    seq(|rs|, i requires 0 <= i < |rs| => Dispose(rs[i]))
  }

  // dispose_event
  function DisposeEvent(w: World, k: Id): World
    requires k in w.works
  {
    w.(works := w.works[k := w.works[k].(event := w.works[k].event.(engine := None, response := None, chunk := None))],
       log := w.log + Disposals(Results(w.works[k].event)))
  }

  // wrap_handle
  function WrapHandle(w: World, h: Id, kind: int, ptr: Id): World {
    w.(handles := w.handles[h := Handle(kind, Some(ptr))], env := w.env.(refs := w.env.refs + 1))
  }

  // -------------------------------------------------------------------------
  // release_node_handle

  function ReleaseHandle(w: World, h: Id): World
    requires h in w.handles
  {
    var x := w.handles[h];
    if x.ptr.None? then w
    else
      var v := w.(handles := w.handles[h := x.(ptr := None)]);
      if x.kind == 3 then DropToken(v, x.ptr.value)
      else v.(log := v.log + [FreeHandle(x.ptr.value)])
  }

  function DropToken(w: World, k: Id): World {
    if k in w.wrappers then
      var x := w.wrappers[k];
      w.(log := if x.op.Some? then w.log + [CancelOp(x.op.value)] else w.log,
         wrappers := if x.refs - 1 == 0 then w.wrappers - {k} else w.wrappers[k := x.(refs := x.refs - 1, token := false)])
    else w
  }

  // -------------------------------------------------------------------------
  // Steps

  datatype Step =
      // JavaScript thread
    | NewWork(work: Id, ok: bool)
    | Accept(work2: Id, op: Id) | Refuse(work3: Id) | Finish(work4: Id, token: Id)
    | Deliver(work5: Id, envAlive: bool, handle: Id)
    | FinalizeBegin(work6: Id) | FinalizeEnd(work7: Id)
    | Cancel(handle2: Id) | Release(handle3: Id) | FinalizeHandle(handle4: Id)
    | CleanupBegin | CleanupEnd
      // notifier thread
    | Complete(work8: Id, event: Event)

  function BeginWork(w: World, k: Id, ok: bool): World {
    var e := w.env.(refs := w.env.refs + 1, pending := w.env.pending + 1);
    if ok then w.(env := e, works := w.works[k := Work(Made, None, false, false, false, NO_EVENT)], seen := w.seen + {k})
    else w.(env := EnvDrop(PendingDone(e)), seen := w.seen + {k})
  }

  // The call into the ABI has returned an operation.
  function AcceptOp(w: World, k: Id, op: Id): World
    requires k in w.works
  {
    w.(works := w.works[k := w.works[k].(stage := Accepted, op := Some(op))], seen := w.seen + {op}, accepted := w.accepted + {op})
  }

  // work_completed
  function Completed(w: World, k: Id, v: Event): World
    requires k in w.works
  {
    var rs := set r | r in Results(v);
    w.(works := w.works[k := w.works[k].(event := v, nativeDone := true, queued := !w.works[k].finalized)],
       seen := w.seen + rs, issued := w.issued + rs)
  }

  function FinishSubmit(w: World, k: Id, token: Id): World
    requires k in w.works
  {
    var v := WrapHandle(w, token, 3, k);
    v.(works := w.works[k := w.works[k].(stage := Finished)],
       wrappers := w.wrappers[k := Wrapper(w.works[k].op, 2, true, true)], seen := w.seen + {token})
  }

  // deliver_work: a result is wrapped (an engine or a response) or consumed (a chunk).
  function Delivered(w: World, k: Id, envAlive: bool, h: Id): World
    requires k in w.works
  {
    var x := w.works[k];
    var v := w.(works := w.works[k := x.(queued := false)]);
    if !envAlive || w.env.closing || x.event.code != 0 then DisposeEvent(v, k)
    else if x.event.engine.Some? then TakeResult(v, k, x.event.(engine := None), h, 1, x.event.engine.value)
    else if x.event.response.Some? then TakeResult(v, k, x.event.(response := None), h, 2, x.event.response.value)
    else DisposeEvent(v, k)
  }

  function TakeResult(w: World, k: Id, event: Event, h: Id, kind: int, r: Id): World
    requires k in w.works
  {
    WrapHandle(w.(works := w.works[k := w.works[k].(event := event)], log := w.log + [Wrap(r)], seen := w.seen + {h}), h, kind, r)
  }

  function StartFinalize(w: World, k: Id): World
    requires k in w.works
  {
    var x := w.works[k];
    w.(works := w.works[k := x.(finalized := true, queued := false)],
       log := if !x.nativeDone && x.stage == Finished && k in w.wrappers && w.wrappers[k].op.Some?
              then w.log + [CancelOp(w.wrappers[k].op.value)] else w.log)
  }

  function EndFinalize(w: World, k: Id): World
    requires k in w.works
  {
    var v := DropWrapper(DisposeEvent(w, k), k);
    v.(works := v.works - {k}, env := EnvDrop(PendingDone(v.env)))
  }

  // operation->ptr = NULL, refs--, hs_operation_release
  function DropWrapper(w: World, k: Id): World {
    if k in w.wrappers then
      var x := w.wrappers[k];
      w.(log := if x.op.Some? then w.log + [ReleaseOp(x.op.value)] else w.log,
         wrappers := if x.refs - 1 == 0 then w.wrappers - {k} else w.wrappers[k := x.(op := None, refs := x.refs - 1, work := false)])
    else w
  }

  // When a step can be taken: JavaScript runs until the cleanup, each work's
  // finalizer runs once and after its delivery or at teardown, each callback of an
  // accepted operation runs once, ids are not reused.
  predicate Enabled(w: World, s: Step) {
    match s
    case NewWork(k, _) => w.env.cleaning == NotYet && k !in w.seen
    case Accept(k, op) => k in w.works && w.works[k].stage == Made && op !in w.seen
    case Refuse(k) => k in w.works && w.works[k].stage == Made
    case Finish(k, token) => k in w.works && w.works[k].stage == Accepted && token !in w.seen
    case Complete(k, v) =>
      && k in w.works && (w.works[k].stage == Accepted || w.works[k].stage == Finished) && !w.works[k].nativeDone
      && (forall r | r in Results(v) :: r !in w.seen) && Apart(Results(v))
    case Deliver(k, _, h) => k in w.works && w.works[k].stage == Finished && w.works[k].queued && !w.works[k].finalized && h !in w.seen
    case FinalizeBegin(k) => k in w.works && (w.works[k].stage == Finished || w.works[k].stage == Refused) && !w.works[k].finalized
    case FinalizeEnd(k) => k in w.works && w.works[k].finalized && w.works[k].nativeDone && (w.works[k].stage == Finished || w.works[k].stage == Refused)
    case Cancel(h) => h in w.handles
    case Release(h) => h in w.handles
    case FinalizeHandle(h) => h in w.handles
    case CleanupBegin => w.env.cleaning == NotYet
    case CleanupEnd => w.env.cleaning == Cleaning
  }

  predicate Apart(rs: seq<Id>) {
    forall i, j | 0 <= i < j < |rs| :: rs[i] != rs[j]
  }

  function Next(w: World, s: Step): World
    requires Enabled(w, s)
  {
    match s
    case NewWork(k, ok) => BeginWork(w, k, ok)
    case Accept(k, op) => AcceptOp(w, k, op)
    case Refuse(k) => w.(works := w.works[k := w.works[k].(stage := Refused, nativeDone := true)])
    case Finish(k, token) => FinishSubmit(w, k, token)
    case Complete(k, v) => Completed(w, k, v)
    case Deliver(k, alive, h) => Delivered(w, k, alive, h)
    case FinalizeBegin(k) => StartFinalize(w, k)
    case FinalizeEnd(k) => EndFinalize(w, k)
    case Cancel(h) =>
      var x := w.handles[h];
      if x.kind == 3 && x.ptr.Some? && x.ptr.value in w.wrappers && w.wrappers[x.ptr.value].op.Some?
      then w.(log := w.log + [CancelOp(w.wrappers[x.ptr.value].op.value)]) else w
    case Release(h) => ReleaseHandle(w, h)
    case FinalizeHandle(h) =>
      var v := ReleaseHandle(w, h);
      v.(handles := v.handles - {h}, env := EnvDrop(v.env))
    case CleanupBegin => w.(env := w.env.(closing := true, cleanup := true, pending := w.env.pending + 1, cleaning := Cleaning))
    case CleanupEnd => w.(env := EnvDrop(PendingDone(w.env)).(cleaning := Cleaned))
  }
}
