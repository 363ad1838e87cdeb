/**
 What every step of the Node adapter keeps, and what that promises: exact counts, one
 removal of the cleanup hook, one release of each operation, one fate for each result.
 */
module NodeProofs {
  import opened Basics
  import opened Node

  // -------------------------------------------------------------------------
  // The environment

  // References: the module until its cleanup, every work and every handle.  Pending:
  // every work, and the cleanup itself.  The hook is removed once, when closing with
  // nothing pending.
  ghost predicate EnvOk(e: Env, works: int, handles: int) {
    && e.refs == works + handles + Bit(e.cleaning != Cleaned)
    && e.pending == works + Bit(e.cleaning == Cleaning)
    && (e.freed <==> e.refs == 0)
    && (e.closing <==> e.cleaning != NotYet) && (e.cleanup ==> e.closing)
    && e.removed == Bit(e.closing && !e.cleanup)
    && (e.closing ==> (e.removed == 1 <==> e.pending == 0))
    && (e.cleaning == Cleaning ==> e.cleanup)
  }

  // -------------------------------------------------------------------------
  // The wrapper of an operation

  ghost predicate WrapOk(works: map<Id, Work>, handles: map<Id, Handle>, wrappers: map<Id, Wrapper>) {
    && (forall k | k in wrappers :: wrappers[k].refs == Bit(wrappers[k].work) + Bit(wrappers[k].token) > 0)
    && (forall k | k in wrappers :: wrappers[k].work <==> k in works)
    && (forall k | k in wrappers && k in works :: works[k].stage == Finished && wrappers[k].op == works[k].op)
    && (forall k | k in wrappers && k !in works :: wrappers[k].op == None)
    && (forall k | k in works && works[k].stage == Finished :: k in wrappers)
    && (forall k | k in works && (works[k].stage == Accepted || works[k].stage == Finished) :: works[k].op.Some?)
  }

  ghost predicate TokenOk(handles: map<Id, Handle>, wrappers: map<Id, Wrapper>) {
    && (forall h | h in handles && handles[h].kind == 3 && handles[h].ptr.Some? ::
          handles[h].ptr.value in wrappers && wrappers[handles[h].ptr.value].token)
    && (forall g, h | g in handles && h in handles && handles[g].kind == handles[h].kind == 3 && handles[g].ptr.Some? && handles[g].ptr == handles[h].ptr ::
          g == h)
  }

  // -------------------------------------------------------------------------
  // Operations

  // A released operation is neither released again nor cancelled.
  ghost predicate OpLog(log: seq<Act>) {
    forall i, j, o | 0 <= i < j < |log| && log[i] == ReleaseOp(o) :: log[j] != ReleaseOp(o) && log[j] != CancelOp(o)
  }

  ghost predicate OpsOk(works: map<Id, Work>, log: seq<Act>, seen: set<Id>) {
    && (forall k | k in works && works[k].op.Some? :: ReleaseOp(works[k].op.value) !in log && works[k].op.value in seen)
    && (forall a, b | a in works && b in works && works[a].op.Some? && works[a].op == works[b].op :: a == b)
    && (forall o | ReleaseOp(o) in log :: o in seen)
    && OpLog(log)
  }

  // -------------------------------------------------------------------------
  // Results

  predicate Spends(a: Act, r: Id) {
    a == Wrap(r) || a == Dispose(r)
  }

  ghost predicate Spent(log: seq<Act>, r: Id) {
    Wrap(r) in log || Dispose(r) in log
  }

  ghost predicate ResultLog(log: seq<Act>) {
    forall i, j, r | 0 <= i < j < |log| && Spends(log[i], r) :: !Spends(log[j], r)
  }

  ghost predicate EventsOk(works: map<Id, Work>, log: seq<Act>, seen: set<Id>) {
    && (forall k, r | k in works && r in Results(works[k].event) :: !Spent(log, r) && r in seen)
    && (forall a, b, r | a in works && b in works && r in Results(works[a].event) && r in Results(works[b].event) :: a == b)
    && (forall k | k in works :: Apart(Results(works[k].event)))
    && (forall r | Spent(log, r) :: r in seen)
    && ResultLog(log)
  }

  ghost predicate HandlesOk(handles: map<Id, Handle>, log: seq<Act>, seen: set<Id>) {
    && (forall h | h in handles && handles[h].kind != 3 && handles[h].ptr.Some? ::
          Wrap(handles[h].ptr.value) in log && FreeHandle(handles[h].ptr.value) !in log)
    && (forall g, h | g in handles && h in handles && handles[g].kind != 3 && handles[h].kind != 3 && handles[g].ptr.Some? && handles[g].ptr == handles[h].ptr ::
          g == h)
    && (forall r | FreeHandle(r) in log :: Wrap(r) in log)
    && (forall i, j, r | 0 <= i < j < |log| && log[i] == FreeHandle(r) :: log[j] != FreeHandle(r))
  }

  // Ids are handed out once.
  ghost predicate SeenOk(w: World) {
    && w.works.Keys <= w.seen && w.handles.Keys <= w.seen && w.wrappers.Keys <= w.seen
  }

  ghost predicate Good(w: World) {
    && EnvOk(w.env, |w.works|, |w.handles|)
    && WrapOk(w.works, w.handles, w.wrappers)
    && TokenOk(w.handles, w.wrappers)
    && OpsOk(w.works, w.log, w.seen)
    && EventsOk(w.works, w.log, w.seen)
    && HandlesOk(w.handles, w.log, w.seen)
    && SeenOk(w)
  }

  lemma InitGood()
    ensures Good(Init())
  {
  }

  // -------------------------------------------------------------------------
  // Changes that touch one part only

  lemma SizeDel<V>(m: map<Id, V>, k: Id)
    requires k in m
    ensures |m - {k}| == |m| - 1
  {
    assert (m - {k}).Keys == m.Keys - {k};
  }

  // A work changes in its flags only.
  lemma FlagsKeep(w: World, k: Id, x: Work)
    requires Good(w) && k in w.works && x.stage == w.works[k].stage && x.op == w.works[k].op && x.event == w.works[k].event
    ensures Good(w.(works := w.works[k := x]))
  {
    var works := w.works[k := x];
    assert |works| == |w.works|;
    FlagsWrap(w.works, w.handles, w.wrappers, k, x);
    FlagsOps(w.works, w.log, w.seen, k, x);
    FlagsEvents(w.works, w.log, w.seen, k, x);
    assert SeenOk(w.(works := works));
  }

  lemma FlagsWrap(works: map<Id, Work>, handles: map<Id, Handle>, wrappers: map<Id, Wrapper>, k: Id, x: Work)
    requires WrapOk(works, handles, wrappers) && k in works && x.stage == works[k].stage && x.op == works[k].op
    ensures WrapOk(works[k := x], handles, wrappers)
  {
  }

  lemma FlagsOps(works: map<Id, Work>, log: seq<Act>, seen: set<Id>, k: Id, x: Work)
    requires OpsOk(works, log, seen) && k in works && x.op == works[k].op
    ensures OpsOk(works[k := x], log, seen)
  {
  }

  lemma FlagsEvents(works: map<Id, Work>, log: seq<Act>, seen: set<Id>, k: Id, x: Work)
    requires EventsOk(works, log, seen) && k in works && x.event == works[k].event
    ensures EventsOk(works[k := x], log, seen)
  {
  }

  // Cancelling an operation that has not been released.
  lemma CancelKeeps(w: World, o: Id)
    requires Good(w) && ReleaseOp(o) !in w.log
    ensures Good(w.(log := w.log + [CancelOp(o)]))
  {
    CancelOps(w.works, w.log, w.seen, o);
    CancelEvents(w.works, w.log, w.seen, o);
    CancelHandles(w.handles, w.log, w.seen, o);
  }

  lemma CancelOps(works: map<Id, Work>, log: seq<Act>, seen: set<Id>, o: Id)
    requires OpsOk(works, log, seen) && ReleaseOp(o) !in log
    ensures OpsOk(works, log + [CancelOp(o)], seen)
  {
  }

  lemma CancelEvents(works: map<Id, Work>, log: seq<Act>, seen: set<Id>, o: Id)
    requires EventsOk(works, log, seen)
    ensures EventsOk(works, log + [CancelOp(o)], seen)
  {
    forall r ensures Spent(log + [CancelOp(o)], r) <==> Spent(log, r) {}
  }

  lemma CancelHandles(handles: map<Id, Handle>, log: seq<Act>, seen: set<Id>, o: Id)
    requires HandlesOk(handles, log, seen)
    ensures HandlesOk(handles, log + [CancelOp(o)], seen)
  {
  }

  lemma WrappedOpIsLive(w: World, k: Id)
    requires Good(w) && k in w.wrappers && w.wrappers[k].op.Some?
    ensures ReleaseOp(w.wrappers[k].op.value) !in w.log && k in w.works && w.works[k].op == w.wrappers[k].op
  {
  }

  // -------------------------------------------------------------------------
  // new_work, the call, finish_submit

  lemma BeginWorkGood(w: World, k: Id, ok: bool)
    requires Good(w) && w.env.cleaning == NotYet && k !in w.seen
    ensures Good(BeginWork(w, k, ok))
  {
    var v := BeginWork(w, k, ok);
    if ok {
      var x := Work(Made, None, false, false, false, NO_EVENT);
      assert |v.works| == |w.works| + 1;
      assert Results(x.event) == [];
      NewWrap(w.works, w.handles, w.wrappers, k, x);
      NewOps(w.works, w.log, w.seen, k, x);
      NewEvents(w.works, w.log, w.seen, k, x);
    } else {
      assert v.env == w.env;
      MoreSeen(w, {k});
    }
  }

  lemma NewWrap(works: map<Id, Work>, handles: map<Id, Handle>, wrappers: map<Id, Wrapper>, k: Id, x: Work)
    requires WrapOk(works, handles, wrappers) && k !in wrappers && x.stage == Made
    ensures WrapOk(works[k := x], handles, wrappers)
  {
  }

  lemma NewOps(works: map<Id, Work>, log: seq<Act>, seen: set<Id>, k: Id, x: Work)
    requires OpsOk(works, log, seen) && x.op == None
    ensures OpsOk(works[k := x], log, seen + {k})
  {
  }

  lemma NewEvents(works: map<Id, Work>, log: seq<Act>, seen: set<Id>, k: Id, x: Work)
    requires EventsOk(works, log, seen) && Results(x.event) == []
    ensures EventsOk(works[k := x], log, seen + {k})
  {
  }

  lemma MoreSeen(w: World, ids: set<Id>)
    requires Good(w)
    ensures Good(w.(seen := w.seen + ids))
  {
    assert OpsOk(w.works, w.log, w.seen + ids);
    assert EventsOk(w.works, w.log, w.seen + ids);
    assert HandlesOk(w.handles, w.log, w.seen + ids);
  }

  lemma AcceptGood(w: World, k: Id, op: Id)
    requires Good(w) && k in w.works && w.works[k].stage == Made && op !in w.seen
    ensures Good(AcceptOp(w, k, op))
  {
    var x := w.works[k].(stage := Accepted, op := Some(op));
    assert |w.works[k := x]| == |w.works|;
    AcceptWrap(w.works, w.handles, w.wrappers, k, x);
    AcceptOps(w.works, w.log, w.seen, k, x, op);
    MoreSeen(w, {op});
    FlagsEvents(w.works, w.log, w.seen + {op}, k, x);
  }

  lemma AcceptWrap(works: map<Id, Work>, handles: map<Id, Handle>, wrappers: map<Id, Wrapper>, k: Id, x: Work)
    requires WrapOk(works, handles, wrappers) && k in works && works[k].stage == Made && x.op.Some? && x.stage == Accepted
    ensures WrapOk(works[k := x], handles, wrappers)
  {
  }

  lemma AcceptOps(works: map<Id, Work>, log: seq<Act>, seen: set<Id>, k: Id, x: Work, op: Id)
    requires OpsOk(works, log, seen) && op !in seen && x.op == Some(op)
    ensures OpsOk(works[k := x], log, seen + {op})
  {
  }

  lemma RefuseGood(w: World, k: Id)
    requires Good(w) && k in w.works && w.works[k].stage == Made
    ensures Good(w.(works := w.works[k := w.works[k].(stage := Refused, nativeDone := true)]))
  {
    var x := w.works[k].(stage := Refused, nativeDone := true);
    assert |w.works[k := x]| == |w.works|;
    assert WrapOk(w.works[k := x], w.handles, w.wrappers);
    FlagsOps(w.works, w.log, w.seen, k, x);
    FlagsEvents(w.works, w.log, w.seen, k, x);
  }

  lemma FinishWrap(works: map<Id, Work>, handles: map<Id, Handle>, wrappers: map<Id, Wrapper>, k: Id, token: Id)
    requires WrapOk(works, handles, wrappers) && k in works && works[k].stage == Accepted
    ensures WrapOk(works[k := works[k].(stage := Finished)], handles[token := Handle(3, Some(k))],
                   wrappers[k := Wrapper(works[k].op, 2, true, true)])
  {
  }

  lemma FinishToken(handles: map<Id, Handle>, wrappers: map<Id, Wrapper>, k: Id, token: Id, x: Wrapper)
    requires TokenOk(handles, wrappers) && k !in wrappers && x.token
    ensures TokenOk(handles[token := Handle(3, Some(k))], wrappers[k := x])
  {
  }

  lemma TokenHandles(handles: map<Id, Handle>, log: seq<Act>, seen: set<Id>, k: Id, token: Id)
    requires HandlesOk(handles, log, seen)
    ensures HandlesOk(handles[token := Handle(3, Some(k))], log, seen + {token})
  {
  }

  lemma FinishGood(w: World, k: Id, token: Id)
    requires Good(w) && k in w.works && w.works[k].stage == Accepted && token !in w.seen
    ensures Good(FinishSubmit(w, k, token))
  {
    var v, x := FinishSubmit(w, k, token), w.works[k].(stage := Finished);
    assert |v.works| == |w.works| && |v.handles| == |w.handles| + 1;
    assert k !in w.wrappers;
    FinishWrap(w.works, w.handles, w.wrappers, k, token);
    FinishToken(w.handles, w.wrappers, k, token, v.wrappers[k]);
    TokenHandles(w.handles, w.log, w.seen, k, token);
    MoreSeen(w, {token});
    FlagsOps(w.works, w.log, w.seen + {token}, k, x);
    FlagsEvents(w.works, w.log, w.seen + {token}, k, x);
  }

  // -------------------------------------------------------------------------
  // work_completed

  lemma CompleteEvents(works: map<Id, Work>, log: seq<Act>, seen: set<Id>, k: Id, x: Work)
    requires EventsOk(works, log, seen) && k in works
    requires (forall r | r in Results(x.event) :: r !in seen) && Apart(Results(x.event))
    ensures EventsOk(works[k := x], log, seen + set r | r in Results(x.event))
  {
    var more := seen + set r | r in Results(x.event);
    var after := works[k := x];
    forall j, r | j in after && r in Results(after[j].event) ensures !Spent(log, r) && r in more {}
  }

  lemma CompleteGood(w: World, k: Id, v: Event)
    requires Good(w) && k in w.works
    requires (forall r | r in Results(v) :: r !in w.seen) && Apart(Results(v))
    ensures Good(Completed(w, k, v))
  {
    var x := w.works[k].(event := v, nativeDone := true, queued := !w.works[k].finalized);
    var fresh_ := set r | r in Results(v);
    assert |w.works[k := x]| == |w.works|;
    FlagsWrap(w.works, w.handles, w.wrappers, k, x);
    MoreSeen(w, fresh_);
    FlagsOps(w.works, w.log, w.seen + fresh_, k, x);
    CompleteEvents(w.works, w.log, w.seen, k, x);
  }

  // -------------------------------------------------------------------------
  // Spending results

  // `acts` spends results of the event, each once, and x keeps only others.
  ghost predicate Spending(v: Event, rest: Event, acts: seq<Act>) {
    && (forall a | a in acts :: exists r :: Spends(a, r) && r in Results(v) && r !in Results(rest))
    && (forall i, j, r | 0 <= i < j < |acts| && Spends(acts[i], r) :: !Spends(acts[j], r))
    && (forall r | r in Results(rest) :: r in Results(v)) && Apart(Results(rest))
  }

  lemma SpentBy(v: Event, rest: Event, acts: seq<Act>, r: Id)
    requires Spending(v, rest, acts) && Spent(acts, r)
    ensures r in Results(v) && r !in Results(rest)
  {
    if Wrap(r) in acts {
      var q :| Spends(Wrap(r), q) && q in Results(v) && q !in Results(rest);
    } else {
      var q :| Spends(Dispose(r), q) && q in Results(v) && q !in Results(rest);
    }
  }

  lemma SpentAppend(log: seq<Act>, acts: seq<Act>, r: Id)
    ensures Spent(log + acts, r) <==> Spent(log, r) || Spent(acts, r)
  {
  }

  lemma SpendLog(log: seq<Act>, acts: seq<Act>, v: Event, rest: Event)
    requires ResultLog(log) && Spending(v, rest, acts) && forall r | r in Results(v) :: !Spent(log, r)
    ensures ResultLog(log + acts)
  {
    var all := log + acts;
    forall i, j, r | 0 <= i < j < |all| && Spends(all[i], r) ensures !Spends(all[j], r) {
      if i < |log| && j >= |log| {
        assert all[i] in log && Spent(log, r);
        if Spends(all[j], r) {
          assert all[j] in acts && Spent(acts, r);
          SpentBy(v, rest, acts, r);
          assert false;
        }
      }
    }
  }

  lemma SpendEvents(works: map<Id, Work>, log: seq<Act>, seen: set<Id>, k: Id, x: Work, acts: seq<Act>)
    requires EventsOk(works, log, seen) && k in works && Spending(works[k].event, x.event, acts)
    ensures EventsOk(works[k := x], log + acts, seen)
  {
    var v := works[k].event;
    SpendLog(log, acts, v, x.event);
    var after := works[k := x];
    forall j, r | j in after && r in Results(after[j].event) ensures !Spent(log + acts, r) && r in seen {
      SpentAppend(log, acts, r);
      if Spent(acts, r) {
        SpentBy(v, x.event, acts, r);
        assert false;
      }
    }
    forall r | Spent(log + acts, r) ensures r in seen {
      SpentAppend(log, acts, r);
      if Spent(acts, r) {
        SpentBy(v, x.event, acts, r);
      }
    }
  }

  ghost predicate OnlySpends(acts: seq<Act>) {
    forall a | a in acts :: a.Wrap? || a.Dispose?
  }

  lemma SpendRest(works: map<Id, Work>, handles: map<Id, Handle>, log: seq<Act>, seen: set<Id>, acts: seq<Act>)
    requires OpsOk(works, log, seen) && HandlesOk(handles, log, seen) && OnlySpends(acts)
    ensures OpsOk(works, log + acts, seen) && HandlesOk(handles, log + acts, seen)
  {
    forall i | |log| <= i < |log + acts| ensures (log + acts)[i].Wrap? || (log + acts)[i].Dispose? {
      assert (log + acts)[i] in acts;
    }
  }

  lemma DisposalsSpend(v: Event)
    requires Apart(Results(v))
    ensures var rest := v.(engine := None, response := None, chunk := None);
            Spending(v, rest, Disposals(Results(v))) && OnlySpends(Disposals(Results(v)))
  {
    var rest := v.(engine := None, response := None, chunk := None);
    var rs := Results(v);
    var acts := Disposals(rs);
    assert Results(rest) == [];
    forall a | a in acts ensures exists r :: Spends(a, r) && r in rs && r !in Results(rest) {
      var i :| 0 <= i < |acts| && acts[i] == a;
      assert Spends(a, rs[i]) && rs[i] in rs;
    }
  }

  lemma DisposeGood(w: World, k: Id)
    requires Good(w) && k in w.works
    ensures Good(DisposeEvent(w, k))
  {
    var x := w.works[k];
    var y := x.(event := x.event.(engine := None, response := None, chunk := None));
    var acts := Disposals(Results(x.event));
    DisposalsSpend(x.event);
    assert |w.works[k := y]| == |w.works|;
    FlagsWrap(w.works, w.handles, w.wrappers, k, y);
    SpendRest(w.works, w.handles, w.log, w.seen, acts);
    FlagsOps(w.works, w.log + acts, w.seen, k, y);
    SpendEvents(w.works, w.log, w.seen, k, y, acts);
  }

  // -------------------------------------------------------------------------
  // deliver_work

  lemma WrapSpends(v: Event, rest: Event, r: Id)
    requires Apart(Results(v)) && ((v.engine == Some(r) && rest == v.(engine := None)) || (v.engine == None && v.response == Some(r) && rest == v.(response := None)))
    ensures Spending(v, rest, [Wrap(r)])
  {
    assert Results(v)[0] == r;
    assert Results(rest) == Results(v)[1..];
    forall a | a in [Wrap(r)] ensures exists q :: Spends(a, q) && q in Results(v) && q !in Results(rest) {
      assert Spends(a, r) && r in Results(v);
      forall i | 0 <= i < |Results(rest)| ensures Results(rest)[i] != r {
        assert Results(rest)[i] == Results(v)[i + 1];
      }
    }
    forall q | q in Results(rest) ensures q in Results(v) {}
    forall i, j | 0 <= i < j < |Results(rest)| ensures Results(rest)[i] != Results(rest)[j] {
      assert Results(rest)[i] == Results(v)[i + 1] && Results(rest)[j] == Results(v)[j + 1];
    }
  }

  lemma WrapHandlesOk(handles: map<Id, Handle>, log: seq<Act>, seen: set<Id>, h: Id, kind: int, r: Id)
    requires HandlesOk(handles, log, seen) && kind != 3 && !Spent(log, r) && h !in handles
    ensures HandlesOk(handles[h := Handle(kind, Some(r))], log + [Wrap(r)], seen + {h})
  {
    var more := log + [Wrap(r)];
    assert FreeHandle(r) !in log;
    assert more[|log|] == Wrap(r);
  }

  lemma PlainToken(handles: map<Id, Handle>, wrappers: map<Id, Wrapper>, h: Id, kind: int, r: Id)
    requires TokenOk(handles, wrappers) && kind != 3
    ensures TokenOk(handles[h := Handle(kind, Some(r))], wrappers)
  {
  }

  lemma TakeLog(w: World, k: Id, y: Work, h: Id, r: Id)
    requires Good(w) && k in w.works && Spending(w.works[k].event, y.event, [Wrap(r)]) && y.op == w.works[k].op
    ensures OpsOk(w.works[k := y], w.log + [Wrap(r)], w.seen + {h}) && EventsOk(w.works[k := y], w.log + [Wrap(r)], w.seen + {h})
  {
    SpendRest(w.works, w.handles, w.log, w.seen, [Wrap(r)]);
    FlagsOps(w.works, w.log + [Wrap(r)], w.seen, k, y);
    SpendEvents(w.works, w.log, w.seen, k, y, [Wrap(r)]);
    SeenMore(w.works[k := y], w.log + [Wrap(r)], w.seen, h);
  }

  lemma TakeResultGood(w: World, k: Id, event: Event, h: Id, kind: int, r: Id)
    requires Good(w) && k in w.works && Spending(w.works[k].event, event, [Wrap(r)]) && kind != 3 && h !in w.seen && r in Results(w.works[k].event)
    ensures Good(TakeResult(w, k, event, h, kind, r))
  {
    var v, y := TakeResult(w, k, event, h, kind, r), w.works[k].(event := event);
    assert |v.works| == |w.works| && |v.handles| == |w.handles| + 1;
    FlagsWrap(w.works, w.handles, w.wrappers, k, y);
    PlainToken(w.handles, w.wrappers, h, kind, r);
    WrapHandlesOk(w.handles, w.log, w.seen, h, kind, r);
    TakeLog(w, k, y, h, r);
    SameWrap(v.works, w.handles, v.handles, v.wrappers);
  }

  lemma SeenMore(works: map<Id, Work>, log: seq<Act>, seen: set<Id>, h: Id)
    requires OpsOk(works, log, seen) && EventsOk(works, log, seen)
    ensures OpsOk(works, log, seen + {h}) && EventsOk(works, log, seen + {h})
  {
  }

  // The wrappers' books do not depend on the handles.
  lemma SameWrap(works: map<Id, Work>, handles: map<Id, Handle>, more: map<Id, Handle>, wrappers: map<Id, Wrapper>)
    requires WrapOk(works, handles, wrappers)
    ensures WrapOk(works, more, wrappers)
  {
  }

  lemma EventApart(w: World, k: Id)
    requires Good(w) && k in w.works
    ensures Apart(Results(w.works[k].event))
  {
  }

  lemma DeliverGood(w: World, k: Id, envAlive: bool, h: Id)
    requires Good(w) && k in w.works && h !in w.seen
    ensures Good(Delivered(w, k, envAlive, h))
  {
    var x := w.works[k];
    var v := w.(works := w.works[k := x.(queued := false)]);
    FlagsKeep(w, k, x.(queued := false));
    EventApart(w, k);
    if !envAlive || w.env.closing || x.event.code != 0 {
      DisposeGood(v, k);
    } else if x.event.engine.Some? {
      var r := x.event.engine.value;
      WrapSpends(x.event, x.event.(engine := None), r);
      TakeResultGood(v, k, x.event.(engine := None), h, 1, r);
    } else if x.event.response.Some? {
      var r := x.event.response.value;
      WrapSpends(x.event, x.event.(response := None), r);
      TakeResultGood(v, k, x.event.(response := None), h, 2, r);
    } else {
      DisposeGood(v, k);
    }
  }

  // -------------------------------------------------------------------------
  // work_finalizer

  lemma StartFinalizeGood(w: World, k: Id)
    requires Good(w) && k in w.works
    ensures Good(StartFinalize(w, k))
  {
    var x := w.works[k].(finalized := true, queued := false);
    FlagsKeep(w, k, x);
    var v := w.(works := w.works[k := x]);
    if !w.works[k].nativeDone && w.works[k].stage == Finished && k in w.wrappers && w.wrappers[k].op.Some? {
      WrappedOpIsLive(v, k);
      CancelKeeps(v, w.wrappers[k].op.value);
    }
  }

  lemma ReleaseOps(works: map<Id, Work>, log: seq<Act>, seen: set<Id>, k: Id, o: Id)
    requires OpsOk(works, log, seen) && k in works && works[k].op == Some(o)
    ensures OpsOk(works - {k}, log + [ReleaseOp(o)], seen)
  {
  }

  lemma ReleaseRest(works: map<Id, Work>, handles: map<Id, Handle>, log: seq<Act>, seen: set<Id>, k: Id, o: Id)
    requires EventsOk(works, log, seen) && HandlesOk(handles, log, seen)
    ensures EventsOk(works - {k}, log + [ReleaseOp(o)], seen) && HandlesOk(handles, log + [ReleaseOp(o)], seen)
  {
    forall r ensures Spent(log + [ReleaseOp(o)], r) <==> Spent(log, r) {}
  }

  lemma DropWrap(works: map<Id, Work>, handles: map<Id, Handle>, wrappers: map<Id, Wrapper>, k: Id)
    requires WrapOk(works, handles, wrappers) && k in works
    ensures k !in wrappers ==> WrapOk(works - {k}, handles, wrappers)
    ensures k in wrappers && wrappers[k].refs - 1 == 0 ==> WrapOk(works - {k}, handles, wrappers - {k})
    ensures k in wrappers && wrappers[k].refs - 1 != 0 ==>
              WrapOk(works - {k}, handles, wrappers[k := wrappers[k].(op := None, refs := wrappers[k].refs - 1, work := false)])
  {
  }

  lemma DropTokens(works: map<Id, Work>, handles: map<Id, Handle>, wrappers: map<Id, Wrapper>, k: Id)
    requires WrapOk(works, handles, wrappers) && TokenOk(handles, wrappers) && k in works && k in wrappers
    ensures wrappers[k].refs - 1 == 0 ==> TokenOk(handles, wrappers - {k})
    ensures wrappers[k].refs - 1 != 0 ==>
              TokenOk(handles, wrappers[k := wrappers[k].(op := None, refs := wrappers[k].refs - 1, work := false)])
  {
  }

  lemma ForgetWork(works: map<Id, Work>, log: seq<Act>, seen: set<Id>, k: Id)
    requires OpsOk(works, log, seen) && EventsOk(works, log, seen)
    ensures OpsOk(works - {k}, log, seen) && EventsOk(works - {k}, log, seen)
  {
  }

  function WithoutWork(w: World, k: Id): World {
    var v := DropWrapper(w, k);
    v.(works := v.works - {k}, env := EnvDrop(PendingDone(v.env)))
  }

  lemma EnvLess(e: Env, works: int, handles: int)
    requires EnvOk(e, works, handles) && works > 0 && handles >= 0
    ensures EnvOk(EnvDrop(PendingDone(e)), works - 1, handles)
  {
  }

  lemma WithoutWrapped(w: World, k: Id)
    requires Good(w) && k in w.works && k in w.wrappers
    ensures Good(WithoutWork(w, k))
  {
    SizeDel(w.works, k);
    EnvLess(w.env, |w.works|, |w.handles|);
    var o := w.works[k].op.value;
    DropWrap(w.works, w.handles, w.wrappers, k);
    DropTokens(w.works, w.handles, w.wrappers, k);
    ReleaseOps(w.works, w.log, w.seen, k, o);
    ReleaseRest(w.works, w.handles, w.log, w.seen, k, o);
    assert w.wrappers[k].op == Some(o);
  }

  lemma WithoutPlain(w: World, k: Id)
    requires Good(w) && k in w.works && k !in w.wrappers
    ensures Good(WithoutWork(w, k))
  {
    SizeDel(w.works, k);
    EnvLess(w.env, |w.works|, |w.handles|);
    DropWrap(w.works, w.handles, w.wrappers, k);
    ForgetWork(w.works, w.log, w.seen, k);
  }

  lemma EndFinalizeGood(w: World, k: Id)
    requires Good(w) && k in w.works
    ensures Good(EndFinalize(w, k))
  {
    DisposeGood(w, k);
    var v := DisposeEvent(w, k);
    if k in v.wrappers {
      WithoutWrapped(v, k);
    } else {
      WithoutPlain(v, k);
    }
  }

  // -------------------------------------------------------------------------
  // Handles

  lemma ClearedHandles(handles: map<Id, Handle>, log: seq<Act>, seen: set<Id>, h: Id, x: Handle)
    requires HandlesOk(handles, log, seen) && h in handles && x.ptr == None
    ensures HandlesOk(handles[h := x], log, seen)
  {
  }

  lemma FreedHandles(handles: map<Id, Handle>, log: seq<Act>, seen: set<Id>, h: Id, r: Id)
    requires HandlesOk(handles, log, seen) && h in handles && handles[h].kind != 3 && handles[h].ptr == Some(r)
    ensures HandlesOk(handles[h := handles[h].(ptr := None)], log + [FreeHandle(r)], seen)
  {
  }

  lemma FreedRest(works: map<Id, Work>, log: seq<Act>, seen: set<Id>, r: Id)
    requires OpsOk(works, log, seen) && EventsOk(works, log, seen)
    ensures OpsOk(works, log + [FreeHandle(r)], seen) && EventsOk(works, log + [FreeHandle(r)], seen)
  {
    forall q ensures Spent(log + [FreeHandle(r)], q) <==> Spent(log, q) {}
  }

  lemma ClearedToken(handles: map<Id, Handle>, wrappers: map<Id, Wrapper>, h: Id, x: Handle)
    requires TokenOk(handles, wrappers) && h in handles && x.ptr == None
    ensures TokenOk(handles[h := x], wrappers)
  {
  }

  lemma ReleasePlainGood(w: World, h: Id)
    requires Good(w) && h in w.handles && w.handles[h].kind != 3 && w.handles[h].ptr.Some?
    ensures Good(ReleaseHandle(w, h))
  {
    var x := w.handles[h].(ptr := None);
    assert |w.handles[h := x]| == |w.handles|;
    FreedHandles(w.handles, w.log, w.seen, h, w.handles[h].ptr.value);
    FreedRest(w.works, w.log, w.seen, w.handles[h].ptr.value);
    ClearedToken(w.handles, w.wrappers, h, x);
    assert WrapOk(w.works, w.handles[h := x], w.wrappers);
  }

  lemma TokenWrap(works: map<Id, Work>, handles: map<Id, Handle>, wrappers: map<Id, Wrapper>, h: Id, k: Id)
    requires WrapOk(works, handles, wrappers) && TokenOk(handles, wrappers) && h in handles && handles[h].kind == 3 && handles[h].ptr == Some(k)
    ensures k in wrappers
    ensures wrappers[k].refs - 1 == 0 ==> WrapOk(works, handles[h := Handle(3, None)], wrappers - {k}) && TokenOk(handles[h := Handle(3, None)], wrappers - {k})
    ensures var less := wrappers[k := wrappers[k].(refs := wrappers[k].refs - 1, token := false)];
            wrappers[k].refs - 1 != 0 ==> WrapOk(works, handles[h := Handle(3, None)], less) && TokenOk(handles[h := Handle(3, None)], less)
  {
  }

  // The token is dropped, and cancels an operation that is still there.
  lemma ReleaseTokenGood(w: World, h: Id, k: Id)
    requires Good(w) && h in w.handles && w.handles[h].kind == 3 && w.handles[h].ptr == Some(k)
    ensures Good(ReleaseHandle(w, h))
  {
    hide EventsOk, WrapOk, OpsOk, TokenOk, HandlesOk, Bit;
    var x := Handle(3, None);
    TokenWrap(w.works, w.handles, w.wrappers, h, k);
    ClearedHandles(w.handles, w.log, w.seen, h, x);
    assert |w.handles[h := x]| == |w.handles|;
    var y := w.wrappers[k];
    var wrappers := if y.refs - 1 == 0 then w.wrappers - {k} else w.wrappers[k := y.(refs := y.refs - 1, token := false)];
    var v := w.(handles := w.handles[h := x], wrappers := wrappers);
    assert Good(v);
    if y.op.Some? {
      WrappedOpIsLive(w, k);
      CancelKeeps(v, y.op.value);
    }
  }

  lemma ReleaseGood(w: World, h: Id)
    requires Good(w) && h in w.handles
    ensures Good(ReleaseHandle(w, h)) && h in ReleaseHandle(w, h).handles && ReleaseHandle(w, h).handles[h].ptr == None
  {
    if w.handles[h].ptr.Some? {
      if w.handles[h].kind == 3 {
        ReleaseTokenGood(w, h, w.handles[h].ptr.value);
      } else {
        ReleasePlainGood(w, h);
      }
    }
  }

  lemma ForgetHandle(w: World, h: Id)
    requires Good(w) && h in w.handles
    ensures WrapOk(w.works, w.handles - {h}, w.wrappers) && TokenOk(w.handles - {h}, w.wrappers) && HandlesOk(w.handles - {h}, w.log, w.seen)
  {
  }

  lemma FinalizeHandleGood(w: World, h: Id)
    requires Good(w) && h in w.handles
    ensures var v := ReleaseHandle(w, h); Good(v.(handles := v.handles - {h}, env := EnvDrop(v.env)))
  {
    ReleaseGood(w, h);
    var v := ReleaseHandle(w, h);
    SizeDel(v.handles, h);
    ForgetHandle(v, h);
    assert EnvOk(EnvDrop(v.env), |v.works|, |v.handles| - 1);
  }

  // -------------------------------------------------------------------------
  // All steps, all runs

  lemma CleanupGood(w: World)
    requires Good(w)
    ensures w.env.cleaning == NotYet ==> Good(w.(env := w.env.(closing := true, cleanup := true, pending := w.env.pending + 1, cleaning := Cleaning)))
    ensures w.env.cleaning == Cleaning ==> Good(w.(env := EnvDrop(PendingDone(w.env)).(cleaning := Cleaned)))
  {
  }

  lemma CancelGood(w: World, h: Id)
    requires Good(w) && Enabled(w, Cancel(h))
    ensures Good(Next(w, Cancel(h)))
  {
    var x := w.handles[h];
    if x.kind == 3 && x.ptr.Some? && x.ptr.value in w.wrappers && w.wrappers[x.ptr.value].op.Some? {
      WrappedOpIsLive(w, x.ptr.value);
      CancelKeeps(w, w.wrappers[x.ptr.value].op.value);
    }
  }

  lemma WorkStepGood(w: World, s: Step)
    requires Good(w) && Enabled(w, s)
    ensures s.NewWork? || s.Accept? || s.Refuse? || s.Finish? || s.Complete? || s.Deliver? ==> Good(Next(w, s))
  {
    match s
    case NewWork(k, ok) => BeginWorkGood(w, k, ok);
    case Accept(k, op) => AcceptGood(w, k, op);
    case Refuse(k) => RefuseGood(w, k);
    case Finish(k, token) => FinishGood(w, k, token);
    case Complete(k, v) => CompleteGood(w, k, v);
    case Deliver(k, alive, h) => DeliverGood(w, k, alive, h);
    case _ =>
  }

  lemma OtherStepGood(w: World, s: Step)
    requires Good(w) && Enabled(w, s)
    ensures s.FinalizeBegin? || s.FinalizeEnd? || s.Cancel? || s.Release? || s.FinalizeHandle? || s.CleanupBegin? || s.CleanupEnd? ==> Good(Next(w, s))
  {
    hide DisposeEvent, Good, WrapOk;
    match s
    case FinalizeBegin(k) => StartFinalizeGood(w, k);
    case FinalizeEnd(k) => EndFinalizeGood(w, k);
    case Cancel(h) => CancelGood(w, h);
    case Release(h) => ReleaseGood(w, h);
    case FinalizeHandle(h) => FinalizeHandleGood(w, h);
    case CleanupBegin => CleanupGood(w);
    case CleanupEnd => CleanupGood(w);
    case _ =>
  }

  lemma NextGood(w: World, s: Step)
    requires Good(w) && Enabled(w, s)
    ensures Good(Next(w, s))
  {
    WorkStepGood(w, s);
    OtherStepGood(w, s);
  }

  ghost predicate Runs(w: World, steps: seq<Step>)
    decreases |steps|
  {
    steps == [] || (Enabled(w, steps[0]) && Runs(Next(w, steps[0]), steps[1..]))
  }

  ghost function After(w: World, steps: seq<Step>): World
    requires Runs(w, steps)
    decreases |steps|
  {
    if steps == [] then w else After(Next(w, steps[0]), steps[1..])
  }

  lemma {:induction false} RunGood(w: World, steps: seq<Step>)
    requires Good(w) && Runs(w, steps)
    ensures Good(After(w, steps))
    decreases |steps|
  {
    if steps != [] {
      NextGood(w, steps[0]);
      RunGood(Next(w, steps[0]), steps[1..]);
    }
  }

  ghost predicate Reachable(w: World) {
    exists steps: seq<Step> :: Runs(Init(), steps) && After(Init(), steps) == w
  }

  lemma ReachableIsGood(w: World)
    requires Reachable(w)
    ensures Good(w)
  {
    var steps: seq<Step> :| Runs(Init(), steps) && After(Init(), steps) == w;
    InitGood();
    RunGood(Init(), steps);
  }

  /** In every interleaving the environment's references and its pending count equal
      their holders; it is freed exactly when none is left, and then nothing that
      could still use it is left either. */
  lemma EnvironmentLifetime(w: World)
    requires Reachable(w)
    ensures w.env.refs == |w.works| + |w.handles| + Bit(w.env.cleaning != Cleaned)
    ensures w.env.pending == |w.works| + Bit(w.env.cleaning == Cleaning)
    ensures w.env.freed <==> w.works == map[] && w.handles == map[] && w.env.cleaning == Cleaned
    ensures w.env.freed ==> forall s :: !Enabled(w, s)
  {
    hide Next, Reachable, After, Runs;
    ReachableIsGood(w);
    assert w.works == map[] <==> |w.works| == 0;
    assert w.handles == map[] <==> |w.handles| == 0;
  }

  /** The cleanup hook is removed exactly once: as soon as the environment is closing
      and nothing is pending, and not before; from then on nothing is pending. */
  lemma HookRemovedOnce(w: World)
    requires Reachable(w)
    ensures w.env.removed == if w.env.closing && w.env.pending == 0 then 1 else 0
    ensures w.env.removed == 1 ==> w.works == map[] && w.env.cleaning == Cleaned
  {
    ReachableIsGood(w);
    assert w.works == map[] <==> |w.works| == 0;
  }

  /** Every native operation is released at most once and never cancelled afterwards;
      the operation of a work that is still there has not been released. */
  lemma OperationsReleasedOnce(w: World)
    requires Reachable(w)
    ensures OpLog(w.log)
    ensures forall k | k in w.works && w.works[k].op.Some? :: ReleaseOp(w.works[k].op.value) !in w.log
  {
    ReachableIsGood(w);
    OpsParts(w.works, w.log, w.seen);
  }

  lemma OpsParts(works: map<Id, Work>, log: seq<Act>, seen: set<Id>)
    requires OpsOk(works, log, seen)
    ensures OpLog(log)
    ensures forall k | k in works && works[k].op.Some? :: ReleaseOp(works[k].op.value) !in log
  {
  }

  /** The finalizer of a work does release its operation. */
  lemma FinalizerReleases(w: World, k: Id)
    requires Good(w) && Enabled(w, FinalizeEnd(k)) && w.works[k].stage == Finished
    ensures w.works[k].op.Some? && ReleaseOp(w.works[k].op.value) in Next(w, FinalizeEnd(k)).log
    ensures forall r | r in Results(w.works[k].event) :: Spent(Next(w, FinalizeEnd(k)).log, r)
  {
    WrapperOf(w.works, w.handles, w.wrappers, k);
    FinalLog(w, k, w.works[k].op.value);
    DisposedAll(w.log, Results(w.works[k].event), [ReleaseOp(w.works[k].op.value)]);
  }

  lemma WrapperOf(works: map<Id, Work>, handles: map<Id, Handle>, wrappers: map<Id, Wrapper>, k: Id)
    requires WrapOk(works, handles, wrappers) && k in works && works[k].stage == Finished
    ensures k in wrappers && works[k].op.Some? && wrappers[k].op == works[k].op
  {
  }

  lemma FinalLog(w: World, k: Id, o: Id)
    requires k in w.works && k in w.wrappers && w.wrappers[k].op == Some(o)
    ensures EndFinalize(w, k).log == w.log + Disposals(Results(w.works[k].event)) + [ReleaseOp(o)]
  {
  }

  lemma DisposedAll(log: seq<Act>, rs: seq<Id>, more: seq<Act>)
    ensures var all := log + Disposals(rs) + more;
            (forall r | r in rs :: Spent(all, r)) && forall a | a in more :: a in all
  {
    var acts := Disposals(rs);
    var all := log + acts + more;
    forall r | r in rs ensures Spent(all, r) {
      var i :| 0 <= i < |rs| && rs[i] == r;
      assert acts[i] == Dispose(r) && all[|log| + i] == Dispose(r);
    }
  }

  /** Every result that an event carried is wrapped or disposed of at most once,
      across delivery and finalization; one still in an event has not been; and a
      wrapped one is freed at most once, through its handle. */
  lemma ResultsSpentOnce(w: World)
    requires Reachable(w)
    ensures forall i, j, r | 0 <= i < j < |w.log| && Spends(w.log[i], r) :: !Spends(w.log[j], r)
    ensures forall k, r | k in w.works && r in Results(w.works[k].event) :: !Spent(w.log, r)
    ensures forall i, j, r | 0 <= i < j < |w.log| && w.log[i] == FreeHandle(r) :: w.log[j] != FreeHandle(r)
    ensures forall r | FreeHandle(r) in w.log :: Wrap(r) in w.log
  {
    ReachableIsGood(w);
  }
}
