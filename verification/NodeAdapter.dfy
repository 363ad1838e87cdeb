/**
 The Node adapter's state as fields that its callbacks and finalizers update in
 place, statement by statement, each method proved equal to the step it implements.
 */
module NodeAdapter {
  import opened Basics
  import opened Node
  import opened NodeProofs

  // The loop over the handle list in env_cleanup.
  function ReleaseAll(w: World, order: seq<Id>): (v: World)
    requires forall h | h in order :: h in w.handles
    ensures v.env == w.env
    decreases |order|
  {
    if order == [] then w
    else
      var v := ReleaseHandle(w, order[0]);
      if forall h | h in order[1..] :: h in v.handles then ReleaseAll(v, order[1..]) else v
  }

  lemma ReleaseKeepsHandles(w: World, h: Id)
    requires h in w.handles
    ensures ReleaseHandle(w, h).handles.Keys == w.handles.Keys && ReleaseHandle(w, h).handles[h].ptr == None
    ensures forall g | g in w.handles && g != h :: ReleaseHandle(w, h).handles[g] == w.handles[g]
    ensures ReleaseHandle(w, h).env == w.env
  {
  }

  /** The cleanup leaves no handle behind that still points to anything, whatever the
      handles were, and keeps every count. */
  lemma {:induction false} ReleaseAllClears(w: World, order: seq<Id>)
    requires Good(w) && forall h | h in order :: h in w.handles
    ensures var v := ReleaseAll(w, order);
            && Good(v) && v.handles.Keys == w.handles.Keys && v.env == w.env
            && (forall h | h in order :: v.handles[h].ptr == None)
            && (forall h | h in w.handles && w.handles[h].ptr == None :: v.handles[h].ptr == None)
    decreases |order|
  {
    hide Good, HandlesOk, EventsOk, WrapOk;
    if order != [] {
      var h, v := order[0], ReleaseHandle(w, order[0]);
      assert order == [h] + order[1..];
      ReleaseGood(w, h);
      ReleaseKeepsHandles(w, h);
      ReleaseAllClears(v, order[1..]);
    }
  }

  class Adapter {
    var env: Env
    var works: map<Id, Work>
    var handles: map<Id, Handle>
    var wrappers: map<Id, Wrapper>
    ghost var log: seq<Act>
    ghost var seen: set<Id>
    ghost var accepted: set<Id>
    ghost var issued: set<Id>

    ghost function Now(): World
      reads this
    {
      World(env, works, handles, wrappers, log, seen, accepted, issued)
    }

    constructor()
      ensures Now() == Init() && Good(Now())
    {
      env := Env(1, 0, false, false, NotYet, false, 0);
      works, handles, wrappers, log := map[], map[], map[], [];
      seen, accepted, issued := {}, {}, {};
      new;
      InitGood();
    }

    method DropEnv()
      modifies this`env
      ensures env == EnvDrop(old(env))
    {
      env := env.(refs := env.refs - 1);
      if env.refs == 0 {
        env := env.(freed := true);
      }
    }

    method FinishPending()
      modifies this`env
      ensures env == PendingDone(old(env))
    {
      env := env.(pending := env.pending - 1);
      if env.closing && env.pending == 0 && env.cleanup {
        env := env.(cleanup := false);
        env := env.(removed := env.removed + 1);
      }
    }

    // new_work, with or without the promise and the channel.
    method StartWork(k: Id, ok: bool)
      modifies this
      ensures Now() == BeginWork(old(Now()), k, ok)
    {
      seen := seen + {k};
      env := env.(refs := env.refs + 1);
      env := env.(pending := env.pending + 1);
      if ok {
        works := works[k := Work(Made, None, false, false, false, NO_EVENT)];
      } else {
        FinishPending();
        DropEnv();
      }
    }

    // The call into the ABI has succeeded.
    method CallAccepted(k: Id, op: Id)
      requires k in works
      modifies this
      ensures Now() == AcceptOp(old(Now()), k, op)
    {
      works := works[k := works[k].(stage := Accepted, op := Some(op))];
      seen, accepted := seen + {op}, accepted + {op};
    }

    // finish_submit after a refused call.
    method CallRefused(k: Id)
      requires k in works && works[k].stage == Made
      modifies this`works
      ensures Now() == Next(old(Now()), Refuse(k))
    {
      works := works[k := works[k].(stage := Refused)];
      works := works[k := works[k].(nativeDone := true)];
    }

    // finish_submit after an accepted call: the wrapper with its two holders.
    method FinishCall(k: Id, token: Id)
      requires k in works
      modifies this
      ensures Now() == FinishSubmit(old(Now()), k, token)
    {
      wrappers := wrappers[k := Wrapper(works[k].op, 2, true, true)];
      works := works[k := works[k].(stage := Finished)];
      seen := seen + {token};
      WrapResult(token, 3, k);
    }

    // work_completed
    method WorkCompleted(k: Id, v: Event)
      requires k in works
      modifies this
      ensures Now() == Completed(old(Now()), k, v)
    {
      hide Results;
      works := works[k := works[k].(event := v)];
      if !works[k].finalized {
        works := works[k := works[k].(queued := true)];
      } else {
        works := works[k := works[k].(queued := false)];
      }
      works := works[k := works[k].(nativeDone := true)];
      ghost var rs := set r | r in Results(v);
      seen, issued := seen + rs, issued + rs;
    }

    // work_finalizer up to its wait.
    method FinalizerStarts(k: Id)
      requires k in works
      modifies this`works, this`log
      ensures Now() == StartFinalize(old(Now()), k)
    {
      var x := works[k];
      works := works[k := x.(finalized := true, queued := false)];
      if !x.nativeDone && x.stage == Finished && k in wrappers && wrappers[k].op.Some? {
        log := log + [CancelOp(wrappers[k].op.value)];
      }
    }

    // OperationCancel
    method CancelToken(h: Id)
      requires h in handles
      modifies this`log
      ensures Now() == Next(old(Now()), Cancel(h))
    {
      var x := handles[h];
      if x.kind == 3 && x.ptr.Some? && x.ptr.value in wrappers && wrappers[x.ptr.value].op.Some? {
        log := log + [CancelOp(wrappers[x.ptr.value].op.value)];
      }
    }

    // env_cleanup before and after its loop.
    method CleanupStarts()
      requires env.cleaning == NotYet
      modifies this`env
      ensures Now() == Next(old(Now()), CleanupBegin)
    {
      env := env.(closing := true, cleaning := Cleaning);
      env := env.(cleanup := true);
      env := env.(pending := env.pending + 1);
    }

    method CleanupEnds()
      requires env.cleaning == Cleaning
      modifies this`env
      ensures Now() == Next(old(Now()), CleanupEnd)
    {
      FinishPending();
      DropEnv();
      env := env.(cleaning := Cleaned);
    }

    method DisposeEventOf(k: Id)
      requires k in works
      modifies this`works, this`log
      ensures Now() == DisposeEvent(old(Now()), k)
    {
      var x := works[k];
      log := log + Disposals(Results(x.event));
      works := works[k := x.(event := x.event.(engine := None, response := None, chunk := None))];
    }

    method ReleaseNodeHandle(h: Id)
      requires h in handles
      modifies this`handles, this`wrappers, this`log
      ensures Now() == ReleaseHandle(old(Now()), h)
    {
      var x := handles[h];
      if x.ptr.None? {
        return;
      }
      if x.kind == 3 {
        var k := x.ptr.value;
        if k in wrappers {
          var y := wrappers[k];
          if y.op.Some? {
            log := log + [CancelOp(y.op.value)];
          }
          wrappers := if y.refs - 1 == 0 then wrappers - {k} else wrappers[k := y.(refs := y.refs - 1, token := false)];
        }
      } else {
        log := log + [FreeHandle(x.ptr.value)];
      }
      handles := handles[h := x.(ptr := None)];
    }

    method HandleFinalizer(h: Id)
      requires h in handles
      modifies this
      ensures Now() == Next(old(Now()), FinalizeHandle(h))
    {
      ReleaseNodeHandle(h);
      handles := handles - {h};
      DropEnv();
    }

    method WorkFinalizer(k: Id)
      requires k in works
      modifies this
      ensures Now() == EndFinalize(old(Now()), k)
    {
      DisposeEventOf(k);
      if k in wrappers {
        var y := wrappers[k];
        if y.op.Some? {
          log := log + [ReleaseOp(y.op.value)];
        }
        wrappers := if y.refs - 1 == 0 then wrappers - {k} else wrappers[k := y.(op := None, refs := y.refs - 1, work := false)];
      }
      works := works - {k};
      FinishPending();
      DropEnv();
    }

    method WrapResult(h: Id, kind: int, r: Id)
      modifies this
      ensures Now() == WrapHandle(old(Now()), h, kind, r)
    {
      env := env.(refs := env.refs + 1);
      handles := handles[h := Handle(kind, Some(r))];
    }

    method DeliverWork(k: Id, envAlive: bool, h: Id)
      requires k in works
      modifies this
      ensures Now() == Delivered(old(Now()), k, envAlive, h)
    {
      var x := works[k];
      works := works[k := x.(queued := false)];
      if !envAlive || env.closing || x.event.code != 0 {
        DisposeEventOf(k);
      } else if x.event.engine.Some? {
        log, seen := log + [Wrap(x.event.engine.value)], seen + {h};
        WrapResult(h, 1, x.event.engine.value);
        works := works[k := works[k].(event := x.event.(engine := None))];
      } else if x.event.response.Some? {
        log, seen := log + [Wrap(x.event.response.value)], seen + {h};
        WrapResult(h, 2, x.event.response.value);
        works := works[k := works[k].(event := x.event.(response := None))];
      } else {
        DisposeEventOf(k);
      }
    }

    method ReleaseHandles(order: seq<Id>)
      requires forall h | h in order :: h in handles
      modifies this`handles, this`wrappers, this`log
      ensures Now() == ReleaseAll(old(Now()), order)
    {
      var i := 0;
      while i < |order|
        invariant 0 <= i <= |order| && handles.Keys == old(handles.Keys)
        invariant (forall h | h in order[i..] :: h in handles) && ReleaseAll(Now(), order[i..]) == ReleaseAll(old(Now()), order)
      {
        ReleaseKeepsHandles(Now(), order[i]);
        assert order[i..][0] == order[i] && order[i..][1..] == order[i + 1..];
        ReleaseNodeHandle(order[i]);
        i := i + 1;
      }
      assert order[i..] == [];
    }

    // env_cleanup, with the handle list in its order.
    method EnvCleanup(order: seq<Id>)
      requires env.cleaning == NotYet && forall h | h in order :: h in handles
      modifies this
      ensures Now() == Cleanup(old(Now()), order)
    {
      CleanupStarts();
      ReleaseHandles(order);
      CleanupEnds();
    }
  }

  function Cleanup(w: World, order: seq<Id>): World
    requires w.env.cleaning == NotYet && forall h | h in order :: h in w.handles
  {
    Next(ReleaseAll(Next(w, CleanupBegin), order), CleanupEnd)
  }

  /** The whole cleanup keeps every count and leaves none of the listed handles
      pointing to anything. */
  lemma CleanupClears(w: World, order: seq<Id>)
    requires Good(w) && w.env.cleaning == NotYet && forall h | h in order :: h in w.handles
    ensures var v := Cleanup(w, order); Good(v) && forall h | h in order :: h in v.handles && v.handles[h].ptr == None
  {
    NextGood(w, CleanupBegin);
    ReleaseAllClears(Next(w, CleanupBegin), order);
    EndClears(ReleaseAll(Next(w, CleanupBegin), order), order);
  }

  lemma EndClears(w: World, order: seq<Id>)
    requires Good(w) && w.env.cleaning == Cleaning && forall h | h in order :: h in w.handles && w.handles[h].ptr == None
    ensures var v := Next(w, CleanupEnd); Good(v) && forall h | h in order :: h in v.handles && v.handles[h].ptr == None
  {
    NextGood(w, CleanupEnd);
  }
}
