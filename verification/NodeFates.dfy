/**
 What becomes of every operation and every result of the Node adapter: an accepted
 operation belongs to its work until it is released, exactly once; a result that a
 callback handed over stays in its event until it is wrapped or disposed of, exactly
 once; and a wrapped one stays in its handle until it is freed, exactly once.
 */
module NodeFates {
  import opened Basics
  import opened Node
  import opened NodeProofs

  ghost predicate Held(works: map<Id, Work>, o: Id) {
    exists k | k in works :: works[k].op == Some(o)
  }

  ghost predicate Carried(works: map<Id, Work>, r: Id) {
    exists k | k in works :: r in Results(works[k].event)
  }

  ghost predicate Kept(handles: map<Id, Handle>, r: Id) {
    exists h | h in handles :: handles[h].kind != 3 && handles[h].ptr == Some(r)
  }

  // -------------------------------------------------------------------------
  // The invariant: nothing is dropped on the way

  ghost predicate OpsFate(works: map<Id, Work>, log: seq<Act>, accepted: set<Id>) {
    && (forall o | o in accepted :: Held(works, o) || ReleaseOp(o) in log)
    && (forall o | Held(works, o) :: o in accepted)
    && (forall o | ReleaseOp(o) in log :: o in accepted)
  }

  ghost predicate ResultsFate(works: map<Id, Work>, log: seq<Act>, issued: set<Id>) {
    && (forall r | r in issued :: Carried(works, r) || Spent(log, r))
    && (forall r | Carried(works, r) :: r in issued)
    && (forall r | Spent(log, r) :: r in issued)
  }

  ghost predicate HandlesFate(handles: map<Id, Handle>, log: seq<Act>) {
    forall r | Wrap(r) in log :: Kept(handles, r) || FreeHandle(r) in log
  }

  // A work has no operation before it is accepted and no results before it is completed.
  predicate StageOk(x: Work) {
    if x.stage == Made || x.stage == Refused then x.op == None && Results(x.event) == []
    else x.nativeDone || Results(x.event) == []
  }

  ghost predicate StagesOk(works: map<Id, Work>) {
    forall k | k in works :: StageOk(works[k])
  }

  ghost predicate Accounted(w: World) {
    && OpsFate(w.works, w.log, w.accepted)
    && ResultsFate(w.works, w.log, w.issued)
    && HandlesFate(w.handles, w.log)
    && StagesOk(w.works)
  }

  // -------------------------------------------------------------------------
  // Changes of one work

  lemma HeldAfter(works: map<Id, Work>, k: Id, x: Work, o: Id)
    ensures Held(works[k := x], o) <==> x.op == Some(o) || Held(works - {k}, o)
  {
    if x.op == Some(o) {
      assert works[k := x][k].op == Some(o);
    }
    if Held(works - {k}, o) {
      var j :| j in works - {k} && (works - {k})[j].op == Some(o);
      assert works[k := x][j].op == Some(o);
    }
    if Held(works[k := x], o) && x.op != Some(o) {
      var j :| j in works[k := x] && works[k := x][j].op == Some(o);
      assert (works - {k})[j].op == Some(o);
    }
  }

  lemma CarriedAfter(works: map<Id, Work>, k: Id, x: Work, r: Id)
    ensures Carried(works[k := x], r) <==> r in Results(x.event) || Carried(works - {k}, r)
  {
    if r in Results(x.event) {
      assert r in Results(works[k := x][k].event);
    }
    if Carried(works - {k}, r) {
      var j :| j in works - {k} && r in Results((works - {k})[j].event);
      assert r in Results(works[k := x][j].event);
    }
    if Carried(works[k := x], r) && r !in Results(x.event) {
      var j :| j in works[k := x] && r in Results(works[k := x][j].event);
      assert r in Results((works - {k})[j].event);
    }
  }

  lemma HeldBefore(works: map<Id, Work>, k: Id, o: Id)
    requires k in works
    ensures Held(works, o) <==> works[k].op == Some(o) || Held(works - {k}, o)
  {
    assert works[k := works[k]] == works;
    HeldAfter(works, k, works[k], o);
  }

  lemma CarriedBefore(works: map<Id, Work>, k: Id, r: Id)
    requires k in works
    ensures Carried(works, r) <==> r in Results(works[k].event) || Carried(works - {k}, r)
  {
    assert works[k := works[k]] == works;
    CarriedAfter(works, k, works[k], r);
  }

  // -------------------------------------------------------------------------
  // Operations

  // A work keeps its operation, or gets one that is newly accepted.
  lemma OpsFateChange(works: map<Id, Work>, log: seq<Act>, more: seq<Act>, accepted: set<Id>, k: Id, x: Work)
    requires OpsFate(works, log, accepted) && forall a | a in more :: !a.ReleaseOp?
    requires k in works && (x.op == works[k].op || works[k].op == None)
    ensures OpsFate(works[k := x], log + more, if x.op.Some? then accepted + {x.op.value} else accepted)
  {
    forall o ensures Held(works[k := x], o) <==> x.op == Some(o) || Held(works, o) {
      HeldAfter(works, k, x, o);
      HeldBefore(works, k, o);
    }
  }

  lemma OpsFateNew(works: map<Id, Work>, log: seq<Act>, accepted: set<Id>, k: Id, x: Work)
    requires OpsFate(works, log, accepted) && k !in works && x.op == None
    ensures OpsFate(works[k := x], log, accepted)
  {
    assert works - {k} == works;
    forall o ensures Held(works[k := x], o) <==> Held(works, o) {
      HeldAfter(works, k, x, o);
    }
  }

  // The work goes, and its operation is released if it has one.
  lemma OpsFateDrop(works: map<Id, Work>, log: seq<Act>, accepted: set<Id>, k: Id)
    requires OpsFate(works, log, accepted) && k in works
    ensures var o := works[k].op;
            OpsFate(works - {k}, if o.Some? then log + [ReleaseOp(o.value)] else log, accepted)
  {
    var after := if works[k].op.Some? then log + [ReleaseOp(works[k].op.value)] else log;
    if works[k].op.Some? {
      assert after[|log|] == ReleaseOp(works[k].op.value);
    }
    forall o ensures Held(works, o) <==> works[k].op == Some(o) || Held(works - {k}, o) {
      HeldBefore(works, k, o);
    }
  }

  lemma OpsFateLog(works: map<Id, Work>, log: seq<Act>, more: seq<Act>, accepted: set<Id>)
    requires OpsFate(works, log, accepted) && forall a | a in more :: !a.ReleaseOp?
    ensures OpsFate(works, log + more, accepted)
  {
  }

  // -------------------------------------------------------------------------
  // Results

  // `more` spends exactly the results that the event of k loses.
  lemma ResultsFateSpend(works: map<Id, Work>, log: seq<Act>, more: seq<Act>, issued: set<Id>, k: Id, x: Work)
    requires ResultsFate(works, log, issued) && k in works
    requires forall r :: r in Results(works[k].event) <==> r in Results(x.event) || Spent(more, r)
    ensures ResultsFate(works[k := x], log + more, issued)
  {
    forall r ensures Spent(log + more, r) <==> Spent(log, r) || Spent(more, r) {
      SpentAppend(log, more, r);
    }
    forall r ensures Carried(works[k := x], r) <==> r in Results(x.event) || Carried(works - {k}, r) {
      CarriedAfter(works, k, x, r);
    }
    forall r ensures Carried(works, r) <==> r in Results(works[k].event) || Carried(works - {k}, r) {
      CarriedBefore(works, k, r);
    }
  }

  // The event of k gets its results, which are newly issued.
  lemma ResultsFateIssue(works: map<Id, Work>, log: seq<Act>, issued: set<Id>, k: Id, x: Work)
    requires ResultsFate(works, log, issued) && (k in works ==> Results(works[k].event) == [])
    ensures ResultsFate(works[k := x], log, issued + set r | r in Results(x.event))
  {
    forall r ensures Carried(works[k := x], r) <==> r in Results(x.event) || Carried(works, r) {
      CarriedAfter(works, k, x, r);
      if k in works {
        CarriedBefore(works, k, r);
      } else {
        assert works - {k} == works;
      }
    }
  }

  lemma ResultsFateDrop(works: map<Id, Work>, log: seq<Act>, issued: set<Id>, k: Id)
    requires ResultsFate(works, log, issued) && k in works && Results(works[k].event) == []
    ensures ResultsFate(works - {k}, log, issued)
  {
    forall r ensures Carried(works, r) <==> Carried(works - {k}, r) {
      CarriedBefore(works, k, r);
    }
  }

  ghost predicate Unspending(more: seq<Act>) {
    forall a | a in more :: !a.Wrap? && !a.Dispose?
  }

  lemma ResultsFateLog(works: map<Id, Work>, log: seq<Act>, more: seq<Act>, issued: set<Id>)
    requires ResultsFate(works, log, issued) && Unspending(more)
    ensures ResultsFate(works, log + more, issued)
  {
    forall r ensures Spent(log + more, r) <==> Spent(log, r) {
      SpentAppend(log, more, r);
    }
  }

  // -------------------------------------------------------------------------
  // Handles

  // Handle h becomes x; what it pointed to is freed, what it points to is wrapped.
  lemma HandlesFateChange(handles: map<Id, Handle>, log: seq<Act>, more: seq<Act>, h: Id, x: Handle)
    requires HandlesFate(handles, log)
    requires h in handles && handles[h].kind != 3 && handles[h].ptr.Some? ==> FreeHandle(handles[h].ptr.value) in more
    requires forall r | Wrap(r) in more :: x.kind != 3 && x.ptr == Some(r)
    ensures HandlesFate(handles[h := x], log + more)
  {
    var after, all := handles[h := x], log + more;
    forall r | Wrap(r) in all ensures Kept(after, r) || FreeHandle(r) in all {
      if Wrap(r) in more {
        assert after[h].kind != 3 && after[h].ptr == Some(r);
      } else if Kept(handles, r) {
        var j :| j in handles && handles[j].kind != 3 && handles[j].ptr == Some(r);
        if j != h {
          assert after[j].kind != 3 && after[j].ptr == Some(r);
        }
      }
    }
  }

  lemma HandlesFateDrop(handles: map<Id, Handle>, log: seq<Act>, h: Id)
    requires HandlesFate(handles, log) && h in handles && handles[h].ptr == None
    ensures HandlesFate(handles - {h}, log)
  {
    forall r | Wrap(r) in log ensures Kept(handles - {h}, r) || FreeHandle(r) in log {
      if Kept(handles, r) {
        var j :| j in handles && handles[j].kind != 3 && handles[j].ptr == Some(r);
        assert (handles - {h})[j].kind != 3;
      }
    }
  }

  lemma HandlesFateLog(handles: map<Id, Handle>, log: seq<Act>, more: seq<Act>)
    requires HandlesFate(handles, log) && forall a | a in more :: !a.Wrap?
    ensures HandlesFate(handles, log + more)
  {
  }

  // -------------------------------------------------------------------------
  // Steps

  lemma FlagsAccounted(w: World, k: Id, x: Work)
    requires Accounted(w) && k in w.works && x.op == w.works[k].op && x.event == w.works[k].event
    requires StageOk(w.works[k]) ==> StageOk(x)
    ensures Accounted(w.(works := w.works[k := x]))
  {
    assert w.log + [] == w.log;
    OpsFateChange(w.works, w.log, [], w.accepted, k, x);
    if x.op.Some? {
      assert Held(w.works, x.op.value);
      assert w.accepted + {x.op.value} == w.accepted;
    }
    ResultsFateSpend(w.works, w.log, [], w.issued, k, x);
  }

  // Cancelling and freeing touch nothing but the log.
  lemma LogAccounted(w: World, more: seq<Act>)
    requires Accounted(w) && Unspending(more) && forall a | a in more :: !a.ReleaseOp?
    ensures Accounted(w.(log := w.log + more))
  {
    OpsFateLog(w.works, w.log, more, w.accepted);
    ResultsFateLog(w.works, w.log, more, w.issued);
    HandlesFateLog(w.handles, w.log, more);
  }

  lemma BeginWorkAccounted(w: World, k: Id, ok: bool)
    requires Accounted(w) && k !in w.works
    ensures Accounted(BeginWork(w, k, ok))
  {
    if ok {
      var x := Work(Made, None, false, false, false, NO_EVENT);
      assert Results(x.event) == [];
      OpsFateNew(w.works, w.log, w.accepted, k, x);
      ResultsFateIssue(w.works, w.log, w.issued, k, x);
      assert w.issued + (set r | r in Results(x.event)) == w.issued;
    }
  }

  lemma AcceptAccounted(w: World, k: Id, op: Id)
    requires Accounted(w) && k in w.works && w.works[k].stage == Made
    ensures Accounted(AcceptOp(w, k, op))
  {
    var x := w.works[k].(stage := Accepted, op := Some(op));
    assert w.log + [] == w.log;
    OpsFateChange(w.works, w.log, [], w.accepted, k, x);
    ResultsFateSpend(w.works, w.log, [], w.issued, k, x);
  }

  lemma FinishAccounted(w: World, k: Id, token: Id)
    requires Accounted(w) && k in w.works && w.works[k].stage == Accepted && token !in w.handles
    ensures Accounted(FinishSubmit(w, k, token))
  {
    FlagsAccounted(w, k, w.works[k].(stage := Finished));
    assert w.log + [] == w.log;
    HandlesFateChange(w.handles, w.log, [], token, Handle(3, Some(k)));
  }

  lemma CompleteAccounted(w: World, k: Id, v: Event)
    requires Accounted(w) && k in w.works && !w.works[k].nativeDone && (w.works[k].stage == Accepted || w.works[k].stage == Finished)
    ensures Accounted(Completed(w, k, v))
  {
    var x := w.works[k].(event := v, nativeDone := true, queued := !w.works[k].finalized);
    assert w.log + [] == w.log;
    OpsFateChange(w.works, w.log, [], w.accepted, k, x);
    if x.op.Some? {
      assert Held(w.works, x.op.value);
      assert w.accepted + {x.op.value} == w.accepted;
    }
    ResultsFateIssue(w.works, w.log, w.issued, k, x);
  }

  lemma DisposalsOf(v: Event, r: Id)
    ensures Spent(Disposals(Results(v)), r) <==> r in Results(v)
    ensures Wrap(r) !in Disposals(Results(v))
  {
    var rs := Results(v);
    var acts := Disposals(rs);
    if r in rs {
      var i :| 0 <= i < |rs| && rs[i] == r;
      assert acts[i] == Dispose(r);
    }
  }

  lemma DisposeAccounted(w: World, k: Id)
    requires Accounted(w) && k in w.works
    ensures Accounted(DisposeEvent(w, k))
    ensures Results(DisposeEvent(w, k).works[k].event) == []
  {
    var x := w.works[k];
    var y, acts := x.(event := x.event.(engine := None, response := None, chunk := None)), Disposals(Results(x.event));
    forall r ensures Spent(acts, r) <==> r in Results(x.event) {
      DisposalsOf(x.event, r);
    }
    OpsFateChange(w.works, w.log, acts, w.accepted, k, y);
    if y.op.Some? {
      assert Held(w.works, y.op.value);
      assert w.accepted + {y.op.value} == w.accepted;
    }
    ResultsFateSpend(w.works, w.log, acts, w.issued, k, y);
    HandlesFateLog(w.handles, w.log, acts);
  }

  lemma TakeResultAccounted(w: World, k: Id, event: Event, h: Id, kind: int, r: Id)
    requires Accounted(w) && k in w.works && h !in w.handles && kind != 3
    requires forall q :: q in Results(w.works[k].event) <==> q in Results(event) || q == r
    ensures Accounted(TakeResult(w, k, event, h, kind, r))
  {
    hide Results;
    var y := w.works[k].(event := event);
    forall q ensures Spent([Wrap(r)], q) <==> q == r {
      assert [Wrap(r)][0] == Wrap(r);
    }
    OpsFateChange(w.works, w.log, [Wrap(r)], w.accepted, k, y);
    if y.op.Some? {
      assert Held(w.works, y.op.value);
      assert w.accepted + {y.op.value} == w.accepted;
    }
    ResultsFateSpend(w.works, w.log, [Wrap(r)], w.issued, k, y);
    HandlesFateChange(w.handles, w.log, [Wrap(r)], h, Handle(kind, Some(r)));
    assert r in Results(w.works[k].event);
  }

  lemma DeliverAccounted(w: World, k: Id, envAlive: bool, h: Id)
    requires Accounted(w) && k in w.works && h !in w.handles
    ensures Accounted(Delivered(w, k, envAlive, h))
  {
    var x := w.works[k];
    var v := w.(works := w.works[k := x.(queued := false)]);
    FlagsAccounted(w, k, x.(queued := false));
    if !envAlive || w.env.closing || x.event.code != 0 {
      DisposeAccounted(v, k);
    } else if x.event.engine.Some? {
      TakeResultAccounted(v, k, x.event.(engine := None), h, 1, x.event.engine.value);
    } else if x.event.response.Some? {
      TakeResultAccounted(v, k, x.event.(response := None), h, 2, x.event.response.value);
    } else {
      DisposeAccounted(v, k);
    }
  }

  lemma StartFinalizeAccounted(w: World, k: Id)
    requires Accounted(w) && k in w.works
    ensures Accounted(StartFinalize(w, k))
  {
    var x := w.works[k].(finalized := true, queued := false);
    FlagsAccounted(w, k, x);
    if !w.works[k].nativeDone && w.works[k].stage == Finished && k in w.wrappers && w.wrappers[k].op.Some? {
      LogAccounted(w.(works := w.works[k := x]), [CancelOp(w.wrappers[k].op.value)]);
    }
  }

  // What the finalizer of k finds: its operation in the wrapper, if it has one.
  lemma WrapperHolds(w: World, k: Id)
    requires Good(w) && StagesOk(w.works) && k in w.works && (w.works[k].stage == Finished || w.works[k].stage == Refused)
    ensures if w.works[k].op.Some? then k in w.wrappers && w.wrappers[k].op == w.works[k].op
            else k !in w.wrappers || w.wrappers[k].op == None
  {
  }

  lemma EndFinalizeAccounted(w: World, k: Id)
    requires Accounted(w) && Good(w) && Enabled(w, FinalizeEnd(k))
    ensures Accounted(EndFinalize(w, k))
  {
    DisposeAccounted(w, k);
    WrapperHolds(w, k);
    DropAccounted(DisposeEvent(w, k), k);
  }

  lemma DropAccounted(w: World, k: Id)
    requires Accounted(w) && k in w.works && Results(w.works[k].event) == []
    requires if w.works[k].op.Some? then k in w.wrappers && w.wrappers[k].op == w.works[k].op
             else k !in w.wrappers || w.wrappers[k].op == None
    ensures Accounted(WithoutWork(w, k))
  {
    var more := if w.works[k].op.Some? then [ReleaseOp(w.works[k].op.value)] else [];
    assert w.log + [] == w.log;
    OpsFateDrop(w.works, w.log, w.accepted, k);
    ResultsFateDrop(w.works, w.log, w.issued, k);
    ResultsFateLog(w.works - {k}, w.log, more, w.issued);
    HandlesFateLog(w.handles, w.log, more);
  }

  lemma ReleaseAccounted(w: World, h: Id)
    requires Accounted(w) && h in w.handles
    ensures Accounted(ReleaseHandle(w, h))
  {
    var x := w.handles[h];
    if x.ptr.Some? {
      var more := if x.kind != 3 then [FreeHandle(x.ptr.value)] else [];
      assert w.log + [] == w.log;
      HandlesFateChange(w.handles, w.log, more, h, x.(ptr := None));
      OpsFateLog(w.works, w.log, more, w.accepted);
      ResultsFateLog(w.works, w.log, more, w.issued);
      var v := w.(handles := w.handles[h := x.(ptr := None)], log := w.log + more);
      if x.kind == 3 && x.ptr.value in w.wrappers && w.wrappers[x.ptr.value].op.Some? {
        LogAccounted(v, [CancelOp(w.wrappers[x.ptr.value].op.value)]);
      }
    }
  }

  lemma FinalizeHandleAccounted(w: World, h: Id)
    requires Accounted(w) && h in w.handles
    ensures Accounted(Next(w, FinalizeHandle(h)))
  {
    ReleaseAccounted(w, h);
    HandlesFateDrop(ReleaseHandle(w, h).handles, ReleaseHandle(w, h).log, h);
  }

  lemma CancelAccounted(w: World, h: Id)
    requires Accounted(w) && Enabled(w, Cancel(h))
    ensures Accounted(Next(w, Cancel(h)))
  {
    var x := w.handles[h];
    if x.kind == 3 && x.ptr.Some? && x.ptr.value in w.wrappers && w.wrappers[x.ptr.value].op.Some? {
      LogAccounted(w, [CancelOp(w.wrappers[x.ptr.value].op.value)]);
    }
  }

  lemma WorkStepAccounted(w: World, s: Step)
    requires Accounted(w) && Enabled(w, s) && w.works.Keys <= w.seen && w.handles.Keys <= w.seen
    requires s.NewWork? || s.Accept? || s.Refuse? || s.Finish? || s.Complete? || s.Deliver?
    ensures Accounted(Next(w, s))
  {
    match s
    case NewWork(k, ok) => BeginWorkAccounted(w, k, ok);
    case Accept(k, op) => AcceptAccounted(w, k, op);
    case Refuse(k) => FlagsAccounted(w, k, w.works[k].(stage := Refused, nativeDone := true));
    case Finish(k, token) => FinishAccounted(w, k, token);
    case Complete(k, v) => CompleteAccounted(w, k, v);
    case Deliver(k, alive, h) => DeliverAccounted(w, k, alive, h);
  }

  lemma OtherStepAccounted(w: World, s: Step)
    requires Good(w) && Accounted(w) && Enabled(w, s)
    requires s.FinalizeBegin? || s.FinalizeEnd? || s.Cancel? || s.Release? || s.FinalizeHandle? || s.CleanupBegin? || s.CleanupEnd?
    ensures Accounted(Next(w, s))
  {
    match s
    case FinalizeBegin(k) => StartFinalizeAccounted(w, k);
    case FinalizeEnd(k) => EndFinalizeAccounted(w, k);
    case Cancel(h) => CancelAccounted(w, h);
    case Release(h) => ReleaseAccounted(w, h);
    case FinalizeHandle(h) => FinalizeHandleAccounted(w, h);
    case CleanupBegin =>
    case CleanupEnd =>
  }

  lemma NextAccounted(w: World, s: Step)
    requires Good(w) && Accounted(w) && Enabled(w, s)
    ensures Accounted(Next(w, s))
  {
    SeenKeys(w);
    if s.NewWork? || s.Accept? || s.Refuse? || s.Finish? || s.Complete? || s.Deliver? {
      WorkStepAccounted(w, s);
    } else {
      OtherStepAccounted(w, s);
    }
  }

  lemma SeenKeys(w: World)
    requires Good(w)
    ensures w.works.Keys <= w.seen && w.handles.Keys <= w.seen
  {
  }

  lemma {:induction false} RunAccounted(w: World, steps: seq<Step>)
    requires Good(w) && Accounted(w) && Runs(w, steps)
    ensures Accounted(After(w, steps))
    decreases |steps|
  {
    if steps != [] {
      NextGood(w, steps[0]);
      NextAccounted(w, steps[0]);
      RunAccounted(Next(w, steps[0]), steps[1..]);
    }
  }

  lemma ReachableIsAccounted(w: World)
    requires Reachable(w)
    ensures Accounted(w)
  {
    var steps: seq<Step> :| Runs(Init(), steps) && After(Init(), steps) == w;
    InitGood();
    InitAccounted();
    RunAccounted(Init(), steps);
  }

  lemma InitAccounted()
    ensures Accounted(Init())
  {
  }

  // -------------------------------------------------------------------------
  // Exactly once

  // How often an act is in the log.
  function Times(log: seq<Act>, a: Act): nat {
    if log == [] then 0 else Times(log[..|log| - 1], a) + if log[|log| - 1] == a then 1 else 0
  }

  lemma {:induction false} TimesNone(log: seq<Act>, a: Act)
    requires a !in log
    ensures Times(log, a) == 0
  {
    if log != [] {
      TimesNone(log[..|log| - 1], a);
    }
  }

  lemma {:induction false} TimesOnce(log: seq<Act>, a: Act)
    requires a in log && forall i, j | 0 <= i < j < |log| && log[i] == a :: log[j] != a
    ensures Times(log, a) == 1
  {
    var most := log[..|log| - 1];
    if log[|log| - 1] == a {
      TimesNone(most, a);
    } else {
      TimesOnce(most, a);
    }
  }

  lemma TimesIs(log: seq<Act>, a: Act)
    requires forall i, j | 0 <= i < j < |log| && log[i] == a :: log[j] != a
    ensures Times(log, a) == if a in log then 1 else 0
  {
    if a in log {
      TimesOnce(log, a);
    } else {
      TimesNone(log, a);
    }
  }

  /** In every reachable state an operation has been released exactly once if it was
      accepted and its work is gone, and otherwise not at all; a released one is never
      cancelled afterwards. */
  lemma OperationsReleasedExactly(w: World, o: Id)
    requires Reachable(w)
    ensures Times(w.log, ReleaseOp(o)) == if o in w.accepted && !Held(w.works, o) then 1 else 0
    ensures forall i, j | 0 <= i < j < |w.log| && w.log[i] == ReleaseOp(o) :: w.log[j] != CancelOp(o)
    ensures w.works == map[] ==> Times(w.log, ReleaseOp(o)) == if o in w.accepted then 1 else 0
  {
    ReachableIsAccounted(w);
    OperationsReleasedOnce(w);
    TimesIs(w.log, ReleaseOp(o));
  }

  /** In every reachable state a result has been wrapped or disposed of exactly once if
      a callback handed it over and no event carries it any more, and otherwise not at
      all. */
  lemma ResultsSpentExactly(w: World, r: Id)
    requires Reachable(w)
    ensures Times(w.log, Wrap(r)) + Times(w.log, Dispose(r)) == if r in w.issued && !Carried(w.works, r) then 1 else 0
    ensures w.works == map[] ==> Times(w.log, Wrap(r)) + Times(w.log, Dispose(r)) == if r in w.issued then 1 else 0
  {
    ReachableIsAccounted(w);
    ResultsSpentOnce(w);
    assert forall i, j | 0 <= i < j < |w.log| && Spends(w.log[i], r) :: !Spends(w.log[j], r);
    TimesIs(w.log, Wrap(r));
    TimesIs(w.log, Dispose(r));
    NotBoth(w.log, r);
    UnspentCarried(w, r);
  }

  lemma NotBoth(log: seq<Act>, r: Id)
    requires forall i, j | 0 <= i < j < |log| && Spends(log[i], r) :: !Spends(log[j], r)
    ensures Wrap(r) !in log || Dispose(r) !in log
  {
    if Wrap(r) in log && Dispose(r) in log {
      var i :| 0 <= i < |log| && log[i] == Wrap(r);
      var j :| 0 <= j < |log| && log[j] == Dispose(r);
      assert Spends(log[i], r) && Spends(log[j], r);
      assert false;
    }
  }

  lemma UnspentCarried(w: World, r: Id)
    requires forall k, q | k in w.works && q in Results(w.works[k].event) :: !Spent(w.log, q)
    ensures Carried(w.works, r) ==> !Spent(w.log, r)
  {
  }

  /** In every reachable state a wrapped result has been freed exactly once if no handle
      points to it any more, and otherwise not at all; once the environment is freed
      every wrapped result has been. */
  lemma WrappedFreedExactly(w: World, r: Id)
    requires Reachable(w)
    ensures Times(w.log, FreeHandle(r)) == if Wrap(r) in w.log && !Kept(w.handles, r) then 1 else 0
    ensures w.env.freed ==> Times(w.log, FreeHandle(r)) == Times(w.log, Wrap(r))
  {
    ReachableIsAccounted(w);
    ResultsSpentOnce(w);
    TimesIs(w.log, FreeHandle(r));
    KeptUnfreed(w, r);
    EnvironmentLifetime(w);
    assert forall i, j | 0 <= i < j < |w.log| && Spends(w.log[i], r) :: !Spends(w.log[j], r);
    TimesIs(w.log, Wrap(r));
  }

  lemma KeptUnfreed(w: World, r: Id)
    requires Reachable(w)
    ensures Kept(w.handles, r) ==> Wrap(r) in w.log && FreeHandle(r) !in w.log
  {
    ReachableIsGood(w);
    KeptBooked(w.handles, w.log, w.seen, r);
  }

  lemma KeptBooked(handles: map<Id, Handle>, log: seq<Act>, seen: set<Id>, r: Id)
    requires HandlesOk(handles, log, seen)
    ensures Kept(handles, r) ==> Wrap(r) in log && FreeHandle(r) !in log
  {
  }
}
