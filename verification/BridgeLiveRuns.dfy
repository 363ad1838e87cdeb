/**
 The live list through a whole run of the runtime: whatever the threads do, the linked
 list is the list of live instances of the state machine, so that it stays acyclic and
 without duplicates, never holds a freed instance, and every instance that is to be
 unlinked is found on it.
 */
module BridgeLiveRuns {
  import opened Counting
  import opened BridgeHeap
  import opened BridgeObjects
  import opened Bridge
  import opened BridgeOrder
  import opened BridgeOwner
  import opened BridgeRuns
  import opened NodeMap
  import Lists = BridgeLiveList

  // What a step does to the live list.
  datatype Change = Stays | Pushed(s: Addr) | Cut(s: Addr) | Emptied

  function Changed(live: seq<Addr>, c: Change): seq<Addr> {
    match c
    case Stays => live
    case Pushed(s) => [s] + live
    case Cut(s) => Without(live, s)
    case Emptied => []
  }

  // Only new instances are pushed, and one that leaves is on the list.
  ghost predicate Allowed(live: seq<Addr>, c: Change) {
    match c
    case Pushed(s) => s !in live
    case Cut(s) => s in live
    case _ => true
  }

  // hs_bridge_complete: one that failed to open, or was closed, leaves.
  function Outgoing(w: World, o: Addr, code: int): Change {
    if IsClose(At(w.h.kinds, o)) || (IsCreate(At(w.h.kinds, o)) && code != 0) then Cut(At(w.h.g.inst, o)) else Stays
  }

  function Result(w: World, o: Addr, code: int): Change {
    if o in w.h.tally.undone then Outgoing(if code != 0 then DropEventResponse(w, o) else w, o, code) else Stays
  }

  function ChangeOf(w: World, e: Step): Change
    requires Enabled(w, e)
  {
    match e
    case CreateStep(server, len, memory, n, o, waited) =>
      if Create(w, server, len, memory, n, o, waited).1.Ok? then Pushed(w.nextAddr) else Stays
    case CompleteStep(o, code) => Result(w, o, code)
    case DrainCompleteStep => if |w.p.owner.cur| == 1 then Result(w, w.p.owner.cur[0], 3) else Stays
    case DrainEndStep => Emptied
    case _ => Stays
  }

  // -------------------------------------------------------------------------
  // Every step is that change

  lemma CreateChange(w: World, server: bool, len: nat, memory: seq<bool>, n: bool, o: bool, waited: bool)
    requires |memory| == 3
    ensures var (v, code) := Create(w, server, len, memory, n, o, waited);
            v.l.live == if code.Ok? then [w.nextAddr] + w.l.live else w.l.live
  {
    hide AddInst, AddOp, InstDrop, Abandon, InputFits;
    var u := Start(w, n, o).0;
    assert u.l == w.l && u.nextAddr == w.nextAddr;
  }

  lemma NewIsNotLive(w: World)
    requires Good(w)
    ensures w.nextAddr !in w.l.live
  {
    if w.nextAddr in w.l.live {
      LiveFacts(w, w.nextAddr);
      assert false;
    }
  }

  lemma LeavingIsLive(w: World, o: Addr)
    requires Good(w) && o in w.h.tally.undone
    ensures IsCreate(At(w.h.kinds, o)) || IsClose(At(w.h.kinds, o)) ==> At(w.h.g.inst, o) in w.l.live
  {
    OpFacts(w, o);
    if IsCreate(w.h.kinds[o]) {
      OpeningFacts(w, o);
    } else if IsClose(w.h.kinds[o]) {
      ClosingFacts(w, o);
    }
  }

  lemma OutcomeChange(w: World, o: Addr, code: int)
    ensures Announce(Outcome(w, o, code), o).l.live == Changed(w.l.live, Outgoing(w, o, code))
  {
    hide InstDrop, Settle;
  }

  lemma CompleteChange(w: World, o: Addr, code: int)
    requires Good(w)
    ensures Complete(w, o, code).l.live == Changed(w.l.live, Result(w, o, code)) && Allowed(w.l.live, Result(w, o, code))
  {
    hide Good, DropEventResponse, Outcome, Announce;
    if o in w.h.tally.undone {
      var v := if code != 0 then DropEventResponse(w, o) else w;
      DropEventGood(w, o);
      DropEventKeeps(w, o);
      LeavingIsLive(v, o);
      OutcomeChange(v, o, code);
    }
  }

  lemma DrainEndChange(w: World)
    requires Good(w) && w.p.owner == Draining([]) && w.q.commands == []
    ensures DrainEnd(w).l.live == []
  {
    hide Good, RetireAll;
    DrainingQuiesced(w);
    RetireAllGood(w);
  }

  lemma OtherChange(w: World, e: Step)
    requires Enabled(w, e) && !e.CreateStep? && !e.CompleteStep? && !e.DrainCompleteStep? && !e.DrainEndStep?
    ensures Next(w, e).l.live == w.l.live
  {
    hide OpDrop, InstDrop, RespDrop, ChunkDrop, AddOp, AddResp, AddChunk, GrowResp, Tell, Abandon;
  }

  /** Every step of every thread is that change of the live list, pushing only what is
      not on it and unlinking only what is. */
  lemma StepChange(w: World, e: Step)
    requires Good(w) && Enabled(w, e)
    ensures Next(w, e).l.live == Changed(w.l.live, ChangeOf(w, e)) && Allowed(w.l.live, ChangeOf(w, e))
  {
    hide Sound, EventsOk, Threaded, Bounded, Living, Queued, Create, Complete, DrainEnd, Result, Without;
    match e
    case CreateStep(server, len, memory, n, o, waited) =>
      NewIsNotLive(w);
      CreateChange(w, server, len, memory, n, o, waited);
    case CompleteStep(o, code) =>
      CompleteChange(w, o, code);
    case DrainCompleteStep =>
      if |w.p.owner.cur| == 1 {
        CompleteChange(w, w.p.owner.cur[0], 3);
      }
    case DrainEndStep =>
      DrainEndChange(w);
    case _ =>
      OtherChange(w, e);
  }

  // -------------------------------------------------------------------------
  // The list in memory

  // The linked list is the list of live instances, node for node.
  ghost predicate Matches(d: Lists.LiveList, ops: map<Addr, Lists.Instance>, live: seq<Addr>)
    reads d, d.nodes
  {
    d.Valid() && Injective(ops) && Listed(ops, live, d.nodes)
  }

  lemma {:induction false} WithoutAt(xs: seq<Addr>, x: Addr, i: nat)
    requires i < |xs| && xs[i] == x && forall j | 0 <= j < i :: xs[j] != x
    ensures Without(xs, x) == xs[..i] + xs[i + 1..]
  {
    if i > 0 {
      WithoutAt(xs[1..], x, i - 1);
      assert xs[..i] == [xs[0]] + xs[1..][..i - 1];
      assert xs[i + 1..] == xs[1..][i..];
    }
  }

  lemma CutListed(ops: map<Addr, Lists.Instance>, live: seq<Addr>, nodes: seq<Lists.Instance>, i: nat)
    requires Listed(ops, live, nodes) && i < |live|
    ensures Listed(ops, live[..i] + live[i + 1..], nodes[..i] + nodes[i + 1..])
  {
  }

  method Link(d: Lists.LiveList, ops: map<Addr, Lists.Instance>, ghost live: seq<Addr>, s: Addr)
    returns (more: map<Addr, Lists.Instance>)
    requires Matches(d, ops, live) && s !in live
    modifies d
    ensures Matches(d, more, [s] + live) && forall x | x in more.Values :: x in ops.Values || fresh(x)
  {
    var node := new Lists.Instance();
    d.Push(node);
    more := ops[s := node];
  }

  method Leave(d: Lists.LiveList, ops: map<Addr, Lists.Instance>, ghost live: seq<Addr>, s: Addr)
    requires Matches(d, ops, live) && s in live
    modifies d, ops.Values
    ensures Matches(d, ops, Without(live, s))
  {
    ghost var k :| 0 <= k < |live| && live[k] == s;
    ghost var was := d.nodes;
    NodesIn(ops, live, was);
    ListedAt(ops, live, was, s);
    ghost var i := d.Unlink(ops[s]);
    WithoutAt(live, s, i);
    CutListed(ops, live, was, i);
  }

  /** One step of the runtime acted out on the linked list.  That a new instance is not
      on it, and a leaving one is, follows from the state machine's invariant. */
  method Round(d: Lists.LiveList, ops: map<Addr, Lists.Instance>, w: World, e: Step)
    returns (more: map<Addr, Lists.Instance>, v: World)
    requires Good(w) && Enabled(w, e) && Matches(d, ops, w.l.live)
    modifies d, ops.Values
    ensures v == Next(w, e) && Good(v) && Matches(d, more, v.l.live)
    ensures forall x | x in more.Values :: x in ops.Values || fresh(x)
  {
    hide Good, Next, Enabled, ChangeOf, Matches, Without;
    v := Next(w, e);
    StepChange(w, e);
    NextGood(w, e);
    more := Act(d, ops, w.l.live, ChangeOf(w, e));
  }

  method Act(d: Lists.LiveList, ops: map<Addr, Lists.Instance>, ghost live: seq<Addr>, c: Change)
    returns (more: map<Addr, Lists.Instance>)
    requires Matches(d, ops, live) && Allowed(live, c)
    modifies d, ops.Values
    ensures Matches(d, more, Changed(live, c)) && forall x | x in more.Values :: x in ops.Values || fresh(x)
  {
    hide Without;
    more := ops;
    match c
    case Stays =>
    case Pushed(s) => more := Link(d, ops, live, s);
    case Cut(s) => Leave(d, ops, live, s);
    case Emptied => var _ := d.Drain();
  }

  lemma LiveIsAllocated(w: World)
    requires Good(w)
    ensures w.l.instances == |w.l.live| && forall s | s in w.l.live :: s in w.h.money.charged
  {
  }

  /** Any run of the runtime on the linked list: at its end, and so after each of its
      steps, it holds exactly the live instances, as many as are counted, each of them
      allocated. */
  method Drive(opSize: nat, steps: seq<Step>) returns (d: Lists.LiveList, ops: map<Addr, Lists.Instance>, w: World)
    requires Runs(Init(opSize), steps)
    ensures fresh(d) && w == After(Init(opSize), steps) && Matches(d, ops, w.l.live)
    ensures w.l.instances == |d.nodes| && forall s | s in w.l.live :: s in w.h.money.charged
  {
    hide Good, Next, Enabled, Runs;
    w := Init(opSize);
    InitGood(opSize);
    d := new Lists.LiveList();
    ops := map[];
    var i := 0;
    assert steps[0..] == steps;
    while i < |steps|
      invariant 0 <= i <= |steps| && fresh(d) && (forall x | x in ops.Values :: fresh(x))
      invariant Good(w) && Runs(w, steps[i..]) && After(w, steps[i..]) == After(Init(opSize), steps)
      invariant Matches(d, ops, w.l.live)
    {
      RunsOn(w, steps, i);
      ops, w := Round(d, ops, w, steps[i]);
      i := i + 1;
    }
    assert steps[i..] == [];
    LiveIsAllocated(w);
  }
}
