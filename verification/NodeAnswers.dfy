/**
 Which of its fates each operation and result of the Node adapter meets: what a
 delivery does, which acts each step adds, and, over whole runs, that exactly the
 results handed to JavaScript have been wrapped.
 */
module NodeAnswers {
  import opened Basics
  import opened Node
  import opened NodeProofs
  import opened NodeFates

  // -------------------------------------------------------------------------
  // One delivery

  // A delivery in time of an event that reports success.
  predicate Succeeds(w: World, k: Id, envAlive: bool)
    requires k in w.works
  {
    envAlive && !w.env.closing && w.works[k].event.code == 0
  }

  /** deliver_work.  In time and with code 0, an engine or else a response gets a new
      handle of its kind, and nothing is disposed of; a chunk, once copied, is released.
      An event with an error code, or one that comes while or after the environment
      closes, makes no handle, and everything it carries is disposed of. */
  lemma DeliverExactly(w: World, k: Id, envAlive: bool, h: Id)
    requires Enabled(w, Deliver(k, envAlive, h)) && h !in w.handles
    ensures var v, x := Next(w, Deliver(k, envAlive, h)), w.works[k].event;
            if Succeeds(w, k, envAlive) && x.engine.Some? then
              && v.handles == w.handles[h := Handle(1, x.engine)] && v.log == w.log + [Wrap(x.engine.value)]
              && v.env == w.env.(refs := w.env.refs + 1) && Results(v.works[k].event) == Results(x.(engine := None))
            else if Succeeds(w, k, envAlive) && x.response.Some? then
              && v.handles == w.handles[h := Handle(2, x.response)] && v.log == w.log + [Wrap(x.response.value)]
              && v.env == w.env.(refs := w.env.refs + 1) && Results(v.works[k].event) == Results(x.(response := None))
            else
              && v.handles == w.handles && v.env == w.env && Results(v.works[k].event) == []
              && |v.log| == |w.log| + |Results(x)| && w.log <= v.log
              && forall i | 0 <= i < |Results(x)| :: v.log[|w.log| + i] == Dispose(Results(x)[i])
    ensures var v := Next(w, Deliver(k, envAlive, h));
            && v.works.Keys == w.works.Keys && !v.works[k].queued && (forall j | j in w.works && j != k :: v.works[j] == w.works[j])
            && v.wrappers == w.wrappers
  {
    hide Results;
    EmptyEvent(w.works[k].event.code);
  }

  lemma EmptyEvent(code: int)
    ensures Results(Event(code, None, None, None)) == []
  {
  }

  // -------------------------------------------------------------------------
  // The acts of each step

  // What a step hands to JavaScript.
  function HandedBy(w: World, s: Step): set<Id>
    requires Enabled(w, s)
  {
    match s
    case Deliver(k, envAlive, _) =>
      var x := w.works[k].event;
      if !Succeeds(w, k, envAlive) then {} else if x.engine.Some? then {x.engine.value} else if x.response.Some? then {x.response.value} else {}
    case _ => {}
  }

  // The handle is a token whose operation is not released yet.
  ghost predicate TokenOf(w: World, h: Id, op: Id) {
    && h in w.handles && w.handles[h].kind == 3 && w.handles[h].ptr.Some?
    && w.handles[h].ptr.value in w.works && w.works[w.handles[h].ptr.value].op == Some(op)
  }

  /** Exactly which acts a step performs: an operation is cancelled by its token, however
      the token goes, and by the end of a work that has no result yet; it is released
      by the end of its work; a result is wrapped if it is handed over and disposed of
      if a delivery does not, or at the end of its work; a wrapped one is freed with its
      handle. */
  ghost predicate Due(w: World, s: Step, a: Act)
    requires Enabled(w, s)
  {
    match a
    case CancelOp(op) =>
      (match s
       case FinalizeBegin(k) => w.works[k].stage == Finished && !w.works[k].nativeDone && w.works[k].op == Some(op)
       case Cancel(h) => TokenOf(w, h, op)
       case Release(h) => TokenOf(w, h, op)
       case FinalizeHandle(h) => TokenOf(w, h, op)
       case _ => false)
    case ReleaseOp(op) => s.FinalizeEnd? && w.works[s.work7].stage == Finished && w.works[s.work7].op == Some(op)
    case Wrap(r) => r in HandedBy(w, s)
    case Dispose(r) =>
      (match s
       case Deliver(k, _, _) => HandedBy(w, s) == {} && r in Results(w.works[k].event)
       case FinalizeEnd(k) => r in Results(w.works[k].event)
       case _ => false)
    case FreeHandle(r) =>
      (match s
       case Release(h) => w.handles[h].kind != 3 && w.handles[h].ptr == Some(r)
       case FinalizeHandle(h) => w.handles[h].kind != 3 && w.handles[h].ptr == Some(r)
       case _ => false)
  }

  ghost predicate Performs(w: World, s: Step)
    requires Enabled(w, s)
  {
    var log := Next(w, s).log;
    w.log <= log && forall a :: a in log[|w.log|..] <==> Due(w, s, a)
  }

  // It is enough to know what is appended.
  lemma Appends(w: World, s: Step, more: seq<Act>)
    requires Enabled(w, s) && Next(w, s).log == w.log + more
    requires forall a :: a in more <==> Due(w, s, a)
    ensures Performs(w, s)
  {
    hide Due, Next, Enabled;
    assert (w.log + more)[|w.log|..] == more;
  }

  lemma TokenWork(w: World, h: Id)
    requires Good(w) && h in w.handles && w.handles[h].kind == 3 && w.handles[h].ptr.Some?
    ensures var k := w.handles[h].ptr.value;
            k in w.wrappers && w.wrappers[k].op == if k in w.works then w.works[k].op else None
  {
  }

  // The cancel that a token may cause, if its operation is not released yet.
  function CancelOf(w: World, h: Id): seq<Act>
    requires h in w.handles
  {
    var x := w.handles[h];
    if x.kind == 3 && x.ptr.Some? && x.ptr.value in w.works && w.works[x.ptr.value].op.Some?
    then [CancelOp(w.works[x.ptr.value].op.value)] else []
  }

  function FreeOf(w: World, h: Id): seq<Act>
    requires h in w.handles
  {
    if w.handles[h].kind != 3 && w.handles[h].ptr.Some? then [FreeHandle(w.handles[h].ptr.value)] else []
  }

  lemma HandleLogs(w: World, h: Id)
    requires Good(w) && h in w.handles
    ensures Next(w, Cancel(h)).log == w.log + CancelOf(w, h)
    ensures ReleaseHandle(w, h).log == w.log + CancelOf(w, h) + FreeOf(w, h)
  {
    var x := w.handles[h];
    if x.kind == 3 && x.ptr.Some? {
      TokenWork(w, h);
    }
    hide Good;
  }

  lemma CancelPerforms(w: World, h: Id)
    requires Good(w) && Enabled(w, Cancel(h))
    ensures Performs(w, Cancel(h))
  {
    HandleLogs(w, h);
    hide Good, Performs, Next;
    Appends(w, Cancel(h), CancelOf(w, h));
  }

  lemma ReleasePerforms(w: World, h: Id)
    requires Good(w) && Enabled(w, Release(h))
    ensures Performs(w, Release(h)) && Performs(w, FinalizeHandle(h))
  {
    HandleLogs(w, h);
    hide Good, Performs, ReleaseHandle;
    var more := CancelOf(w, h) + FreeOf(w, h);
    assert w.log + CancelOf(w, h) + FreeOf(w, h) == w.log + more;
    HandleDue(w, h);
    Appends(w, Release(h), more);
    Appends(w, FinalizeHandle(h), more);
  }

  lemma HandleDue(w: World, h: Id)
    requires Enabled(w, Release(h))
    ensures forall a :: a in CancelOf(w, h) + FreeOf(w, h) <==> Due(w, Release(h), a)
    ensures forall a :: Due(w, FinalizeHandle(h), a) <==> Due(w, Release(h), a)
  {
  }

  lemma DisposalsAre(v: Event)
    ensures forall a: Act :: a in Disposals(Results(v)) <==> a.Dispose? && a.result2 in Results(v)
  {
    var rs := Results(v);
    forall a: Act | a.Dispose? && a.result2 in rs ensures a in Disposals(rs) {
      var i :| 0 <= i < |rs| && rs[i] == a.result2;
      assert Disposals(rs)[i] == a;
    }
  }

  lemma DeliverPerforms(w: World, k: Id, envAlive: bool, h: Id)
    requires Enabled(w, Deliver(k, envAlive, h))
    ensures Performs(w, Deliver(k, envAlive, h))
  {
    var x := w.works[k].event;
    DisposalsAre(x);
    hide Results, Disposals, Performs;
    var more := if !Succeeds(w, k, envAlive) then Disposals(Results(x))
                else if x.engine.Some? then [Wrap(x.engine.value)]
                else if x.response.Some? then [Wrap(x.response.value)]
                else Disposals(Results(x));
    Appends(w, Deliver(k, envAlive, h), more);
  }

  lemma WrapperOf(w: World, k: Id)
    requires Good(w) && k in w.works
    ensures k in w.wrappers <==> w.works[k].stage == Finished
    ensures k in w.wrappers ==> w.wrappers[k].op == w.works[k].op
  {
  }

  lemma BeginPerforms(w: World, k: Id)
    requires Good(w) && Enabled(w, FinalizeBegin(k))
    ensures Performs(w, FinalizeBegin(k))
  {
    WrapperOf(w, k);
    hide Good, Performs;
    var x := w.works[k];
    Appends(w, FinalizeBegin(k), if x.stage == Finished && !x.nativeDone && x.op.Some? then [CancelOp(x.op.value)] else []);
  }

  lemma EndPerforms(w: World, k: Id)
    requires Good(w) && Enabled(w, FinalizeEnd(k))
    ensures Performs(w, FinalizeEnd(k))
  {
    WrapperOf(w, k);
    var x := w.works[k];
    DisposalsAre(x.event);
    hide Good, Performs, Results, Disposals;
    var acts, release := Disposals(Results(x.event)), if x.stage == Finished && x.op.Some? then [ReleaseOp(x.op.value)] else [];
    assert w.log + acts + release == w.log + (acts + release);
    Appends(w, FinalizeEnd(k), acts + release);
  }

  lemma OtherPerforms(w: World, s: Step)
    requires Enabled(w, s)
    requires s.NewWork? || s.Accept? || s.Refuse? || s.Finish? || s.Complete? || s.CleanupBegin? || s.CleanupEnd?
    ensures Performs(w, s)
  {
  }

  lemma StepPerforms(w: World, s: Step)
    requires Good(w) && Enabled(w, s)
    ensures Performs(w, s)
  {
    hide Good, Performs;
    match s
    case Cancel(h) => CancelPerforms(w, h);
    case Release(h) => ReleasePerforms(w, h);
    case FinalizeHandle(h) => ReleasePerforms(w, h);
    case Deliver(k, envAlive, h) => DeliverPerforms(w, k, envAlive, h);
    case FinalizeBegin(k) => BeginPerforms(w, k);
    case FinalizeEnd(k) => EndPerforms(w, k);
    case _ => OtherPerforms(w, s);
  }

  // -------------------------------------------------------------------------
  // Whole runs

  // All results that deliveries in time with code 0 have handed over.
  ghost function Handed(w: World, steps: seq<Step>): set<Id>
    requires Runs(w, steps)
    decreases |steps|
  {
    if steps == [] then {} else HandedBy(w, steps[0]) + Handed(Next(w, steps[0]), steps[1..])
  }

  lemma {:induction false} RunWraps(w: World, steps: seq<Step>)
    requires Good(w) && Runs(w, steps)
    ensures forall r :: Wrap(r) in After(w, steps).log <==> Wrap(r) in w.log || r in Handed(w, steps)
    decreases |steps|
  {
    if steps != [] {
      var v := Next(w, steps[0]);
      StepPerforms(w, steps[0]);
      NextGood(w, steps[0]);
      RunWraps(v, steps[1..]);
      WrapsAre(w, steps[0]);
    }
  }

  lemma WrapsAre(w: World, s: Step)
    requires Enabled(w, s) && Performs(w, s)
    ensures forall r :: Wrap(r) in Next(w, s).log <==> Wrap(r) in w.log || r in HandedBy(w, s)
  {
    var log := Next(w, s).log;
    assert log == w.log + log[|w.log|..];
    forall r ensures Wrap(r) in log <==> Wrap(r) in w.log || r in HandedBy(w, s) {
      assert Wrap(r) in log[|w.log|..] <==> Due(w, s, Wrap(r));
    }
  }

  /** In every run: a result is wrapped exactly once if it was delivered with code 0
      before closing, and then never disposed of; every other issued result that no
      event carries any more has been disposed of exactly once. */
  lemma WrappedExactly(steps: seq<Step>, r: Id)
    requires Runs(Init(), steps)
    ensures var w, handed := After(Init(), steps), Handed(Init(), steps);
            && Times(w.log, Wrap(r)) == (if r in handed then 1 else 0)
            && Times(w.log, Dispose(r)) == if r in w.issued && r !in handed && !Carried(w.works, r) then 1 else 0
  {
    hide Init, Runs, After, Handed, Accounted, Good, Carried, Times;
    var w := After(Init(), steps);
    InitGood();
    RunWraps(Init(), steps);
    assert Init().log == [] by { StartLog(); }
    assert Reachable(w);
    ResultsSpentExactly(w, r);
    SpendsOnce(w, r);
    ReachableIsAccounted(w);
    SpentIsIssued(w, r);
  }

  lemma StartLog()
    ensures Init().log == []
  {
  }

  lemma SpendsOnce(w: World, r: Id)
    requires Reachable(w)
    ensures Times(w.log, Wrap(r)) == Bit(Wrap(r) in w.log) && Times(w.log, Dispose(r)) == Bit(Dispose(r) in w.log)
  {
    hide Reachable, Times;
    ResultsSpentOnce(w);
    assert forall i, j | 0 <= i < j < |w.log| && Spends(w.log[i], r) :: !Spends(w.log[j], r);
    TimesIs(w.log, Wrap(r));
    TimesIs(w.log, Dispose(r));
  }

  lemma SpentIsIssued(w: World, r: Id)
    requires Accounted(w)
    ensures Wrap(r) in w.log ==> r in w.issued
  {
  }

  // -------------------------------------------------------------------------
  // Works

  /** The life of a work: made by new_work, gone with the end of its finalizer; its call
      is accepted or refused; the callback hands over its event, which is queued for
      delivery unless the work is being finalized. */
  lemma WorksExactly(w: World, s: Step)
    requires Good(w) && Enabled(w, s)
    ensures Lives(w, s, Next(w, s))
  {
    SeenKeys(w);
    hide Good, Lives, Next, SeenOk, Continues;
    match s
    case Deliver(k, envAlive, h) => DeliverLives(w, k, envAlive, h);
    case FinalizeBegin(k) => FinalizeLives(w, k);
    case FinalizeEnd(k) => FinalizeLives(w, k);
    case Cancel(h) => HandleLives(w, h);
    case Release(h) => HandleLives(w, h);
    case FinalizeHandle(h) => HandleLives(w, h);
    case CleanupBegin => OtherLives(w, s);
    case CleanupEnd => OtherLives(w, s);
    case NewWork(k, ok) => NewLives(w, k, ok);
    case _ => CallLives(w, s);
  }

  ghost predicate Lives(w: World, s: Step, v: World) {
    && (forall k :: k in v.works <==> (k in w.works && s != FinalizeEnd(k)) || s == NewWork(k, true))
    && (forall k | s == NewWork(k, true) :: k in v.works && v.works[k] == Work(Made, None, false, false, false, NO_EVENT))
    && (forall k | k in w.works && k in v.works :: Continues(w.works[k], v.works[k], s, k))
    && (v.env.closing <==> w.env.closing || s.CleanupBegin?)
  }

  lemma DeliverLives(w: World, k: Id, envAlive: bool, h: Id)
    requires Enabled(w, Deliver(k, envAlive, h))
    ensures Lives(w, Deliver(k, envAlive, h), Next(w, Deliver(k, envAlive, h)))
  {
    hide Results, Disposals;
  }

  lemma FinalizeLives(w: World, k: Id)
    ensures Enabled(w, FinalizeBegin(k)) ==> Lives(w, FinalizeBegin(k), Next(w, FinalizeBegin(k)))
    ensures Enabled(w, FinalizeEnd(k)) ==> Lives(w, FinalizeEnd(k), Next(w, FinalizeEnd(k)))
  {
    hide Results, Disposals;
  }

  lemma HandleLives(w: World, h: Id)
    requires Enabled(w, Release(h))
    ensures Lives(w, Cancel(h), Next(w, Cancel(h))) && Lives(w, Release(h), Next(w, Release(h)))
    ensures Lives(w, FinalizeHandle(h), Next(w, FinalizeHandle(h)))
  {
    assert ReleaseHandle(w, h).works == w.works && ReleaseHandle(w, h).env == w.env;
    hide ReleaseHandle;
  }

  lemma OtherLives(w: World, s: Step)
    requires Enabled(w, s) && (s.CleanupBegin? || s.CleanupEnd?)
    ensures Lives(w, s, Next(w, s))
  {
  }

  lemma NewLives(w: World, k: Id, ok: bool)
    requires Enabled(w, NewWork(k, ok)) && w.works.Keys <= w.seen
    ensures Lives(w, NewWork(k, ok), Next(w, NewWork(k, ok)))
  {
  }

  lemma CallLives(w: World, s: Step)
    requires Enabled(w, s) && (s.Accept? || s.Refuse? || s.Finish? || s.Complete?)
    ensures Lives(w, s, Next(w, s))
  {
    hide Results;
  }

  predicate Continues(x: Work, y: Work, s: Step, k: Id) {
    match s
    case Accept(j, op) => y == if j == k then x.(stage := Accepted, op := Some(op)) else x
    case Refuse(j) => y == if j == k then x.(stage := Refused, nativeDone := true) else x
    case Finish(j, _) => y == if j == k then x.(stage := Finished) else x
    case Complete(j, v) => y == if j == k then x.(event := v, nativeDone := true, queued := !x.finalized) else x
    case Deliver(j, _, _) => if j == k then y == x.(queued := false, event := y.event) && y.event.code == x.event.code else y == x
    case FinalizeBegin(j) => y == if j == k then x.(finalized := true, queued := false) else x
    case _ => y == x
  }
}
