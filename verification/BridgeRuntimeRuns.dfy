/**
 The runtime in memory through whole runs: each step of the state machine is one
 method of class Runtime, the invariant holds after each, and the main theorems hold
 of its fields.
 */
module BridgeRuntimeRuns {
  import opened Counting
  import opened BridgeHeap
  import opened BridgeObjects
  import opened Bridge
  import opened BridgeOrder
  import opened BridgeSteps
  import opened BridgeRuns
  import opened BridgeTheorems
  import opened BridgeRuntime

  method SubmitCall(r: Runtime, engine: Addr, input: nat, memory: bool, copied: bool)
    requires Good(r.Now()) && engine in r.hosted.engines
    modifies r
    ensures r.Now() == Submit(old(r.Now()), EngineInstance(old(r.Now()), engine), input, memory, copied).0
  {
    hide Good, Submit, Submitted, Sound, FreshAddr;
    ghost var w := r.Now();
    EngineOf(w, engine);
    GoodParts(w);
    var s := EngineTarget(r.heap.g, engine);
    SubmittedIsSubmit(w, s, input, memory, copied);
    var _ := r.SubmitAsync(s, input, memory, copied);
  }

  method Call(r: Runtime, e: Step)
    requires Good(r.Now()) && Enabled(r.Now(), e)
    requires e.CreateStep? || e.CloseStep? || e.SubmitStep? || e.ReadStep?
    modifies r
    ensures r.Now() == Next(old(r.Now()), e)
  {
    hide Good, Create, Close, Submit, Read, Sound, Bounded, FreshAddr;
    GoodParts(r.Now());
    match e
    case CreateStep(server, len, memory, n, o, waited) => var _ := r.CreateAsync(server, len, memory, n, o, waited);
    case CloseStep(engine, server, memory) => var _ := r.CloseAsync(EngineTarget(r.heap.g, engine), server, memory);
    case SubmitStep(engine, input, memory, copied) => SubmitCall(r, engine, input, memory, copied);
    case ReadStep(response, memory) => var _ := r.ReadAsync(response, memory);
  }

  method Release(r: Runtime, e: Step)
    requires Enabled(r.Now(), e)
    requires e.ReleaseResponseStep? || e.ReleaseChunkStep? || e.ReleaseOpStep? || e.ReleaseEngineStep?
    modifies r
    ensures r.Now() == Next(old(r.Now()), e)
  {
    hide ReleaseResponse, ReleaseChunk, ReleaseOp, ReleaseEngine;
    match e
    case ReleaseResponseStep(response, memory) => r.ResponseRelease(response, memory);
    case ReleaseChunkStep(c) => r.ChunkRelease(c);
    case ReleaseOpStep(o) => r.OperationRelease(o);
    case ReleaseEngineStep(engine) => r.EngineRelease(engine);
  }

  method OwnerCall(r: Runtime, e: Step)
    requires Enabled(r.Now(), e)
    requires e.LimitsStep? || e.MakeResponseStep? || e.SetHeaderStep? || e.MakeChunkStep? || e.CompleteStep?
    modifies r
    ensures r.Now() == Next(old(r.Now()), e)
  {
    hide SetLimits, MakeResponse, SetHeader, MakeChunk, Complete;
    match e
    case LimitsStep(o, capacity, budget, responses) => r.LimitsFor(o, capacity, budget, responses);
    case MakeResponseStep(o, n, memory) => var _ := r.MakeResponseFor(o, n, memory);
    case SetHeaderStep(o, n) => var _ := r.SetHeaderFor(o, n);
    case MakeChunkStep(o, n, memory) => var _ := r.MakeChunkFor(o, n, memory);
    case CompleteStep(o, code) => r.CompleteOp(o, code);
  }

  method Turn(r: Runtime, e: Step)
    requires Enabled(r.Now(), e)
    requires e.PopStep? || e.DrainPopStep? || e.DrainCompleteStep? || e.DrainEndStep? || e.TakeStep? || e.ToldStep? || e.IdleStep?
    modifies r
    ensures r.Now() == Next(old(r.Now()), e)
  {
    hide Pop, DrainPop, DrainComplete, DrainEnd, Take, Told, Idle;
    match e
    case PopStep => var _ := r.PopCommand();
    case DrainPopStep => r.DrainNext();
    case DrainCompleteStep => r.DrainOne();
    case DrainEndStep => r.RetireLive();
    case TakeStep => r.TakeNotice();
    case ToldStep => r.CallbackReturned();
    case IdleStep => var _ := r.OwnerIdle();
  }

  method Progress(r: Runtime, e: Step)
    requires Enabled(r.Now(), e)
    requires e.ReapBegin? || e.ReapEnd? || e.Attach? || e.OwnerReturn? || e.Leave? || e.Exit?
    modifies r
    ensures r.Now() == Next(old(r.Now()), e)
  {
    match e
    case ReapBegin => r.JoinBegins();
    case ReapEnd => r.JoinEnds();
    case Attach => r.Attached();
    case OwnerReturn => r.OwnerReturned();
    case Leave => r.NotifierLeaves();
    case Exit => r.NotifierExits();
  }

  /** Any step of any thread, performed in memory, is the step of the state machine
      and keeps its invariant. */
  method Perform(r: Runtime, e: Step)
    requires Good(r.Now()) && Enabled(r.Now(), e)
    modifies r
    ensures r.Now() == Next(old(r.Now()), e) && Good(r.Now())
  {
    hide Good, Next, Enabled;
    NextGood(r.Now(), e);
    if e.CreateStep? || e.CloseStep? || e.SubmitStep? || e.ReadStep? {
      Call(r, e);
    } else if e.ReleaseResponseStep? || e.ReleaseChunkStep? || e.ReleaseOpStep? || e.ReleaseEngineStep? {
      Release(r, e);
    } else if e.LimitsStep? || e.MakeResponseStep? || e.SetHeaderStep? || e.MakeChunkStep? || e.CompleteStep? {
      OwnerCall(r, e);
    } else if e.ReapBegin? || e.ReapEnd? || e.Attach? || e.OwnerReturn? || e.Leave? || e.Exit? {
      Progress(r, e);
    } else {
      Turn(r, e);
    }
  }

  // The theorems about the queues and the money, read off the fields.
  ghost predicate Orderly(w: World) {
    && w.q.completed == w.q.called + w.q.calling + w.q.notices && NoDup(w.q.completed)
    && w.h.money.retained == Sum(w.h.money.charged) <= 67108864
    && (w.p.state == 0 || w.p.state >= 4 ==> w.q.commands == [] && w.l.live == [] && forall o :: o in w.q.accepted <==> o in w.q.called)
  }

  lemma ReachableIsOrderly(w: World)
    requires Reachable(w)
    ensures Orderly(w)
  {
    hide Reachable;
    CallbacksInOrder(w);
    BytesConserved(w);
    if w.p.state == 0 || w.p.state >= 4 {
      AllCalledAtRest(w);
    }
  }

  /** A whole run in memory, any interleaving of any threads: the fields end in the
      state of the state machine, every callback has run at most once and in
      completion order, all bytes are accounted for, and if the runtime has come to
      rest every accepted operation has been called back. */
  method Drive(opSize: nat, steps: seq<Step>) returns (r: Runtime)
    requires Runs(Init(opSize), steps)
    ensures fresh(r) && r.Now() == After(Init(opSize), steps)
    ensures Reachable(r.Now()) && Orderly(r.Now())
  {
    hide Good, Next, Init, Enabled, Runs, Orderly;
    r := new Runtime(opSize);
    InitGood(opSize);
    var i := 0;
    assert steps[0..] == steps;
    while i < |steps|
      invariant 0 <= i <= |steps| && fresh(r)
      invariant Good(r.Now()) && Runs(r.Now(), steps[i..]) && After(r.Now(), steps[i..]) == After(Init(opSize), steps)
    {
      RunsOn(r.Now(), steps, i);
      Perform(r, steps[i]);
      i := i + 1;
    }
    assert steps[i..] == [];
    ReachableIsOrderly(r.Now());
  }
}
