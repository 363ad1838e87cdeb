/**
 What the owner's calls on the C ABI runtime and the release of a response do in every
 reachable state, told from the state alone.
 */
module BridgeOwnerAnswers {
  import opened Basics
  import opened Counting
  import opened BridgeHeap
  import opened BridgeObjects
  import opened Bridge
  import opened BridgeOrder
  import opened BridgeSteps
  import opened BridgeOwner
  import opened BridgeRuns
  import opened BridgeAnswers

  // -------------------------------------------------------------------------
  // hs_bridge_response, hs_bridge_set_header, hs_bridge_chunk, hs_bridge_limits

  // A popped operation and its instance.
  lemma PoppedFacts(w: World, o: Addr)
    requires Good(w) && o in w.h.tally.undone
    ensures o in w.h.kinds && o in w.h.g.inst && w.h.g.inst[o] in w.h.money.charged
    ensures Sound(w.h, multiset{}) && w.nextAddr !in w.h.money.ledger
  {
    OpFacts(w, o);
    FreshInBooks(w);
  }

  /** A response is made exactly if memory is left, its instance has fewer responses than
      its limit and its bytes fit; then it is in the operation's event, held by a handle
      and on the account; else nothing happens. */
  lemma MakeResponseExactly(w: World, o: Addr, n: nat, memory: bool)
    requires Reachable(w) && Enabled(w, MakeResponseStep(o, n, memory))
    ensures o in w.h.g.inst
    ensures var v, s, r := Next(w, MakeResponseStep(o, n, memory)), w.h.g.inst[o], w.nextAddr;
            if memory && |Responses(w, s)| < At(w.h.resps.limit, s) && Room(w, s, n) then
              && v.x == w.x.(evResp := w.x.evResp[o := r]) && v.h.resps.alive == w.h.resps.alive + {r}
              && v.h.g.roots == w.h.g.roots[Handle(r) := r] && v.h.g.inst == w.h.g.inst[r := s]
              && v.h.money.ledger == w.h.money.ledger[r := Entry(s, n)] && v.q == w.q && v.l == w.l && v.p == w.p
            else v == w
  {
    hide Reachable, Good, Sound, Room, Responses, Next;
    ReachableIsGood(w);
    NextMakeResponse(w, o, n, memory);
    PoppedFacts(w, o);
    MakeResponseIs(w, o, w.h.g.inst[o], n, memory);
  }

  lemma NextMakeResponse(w: World, o: Addr, n: nat, memory: bool)
    requires Enabled(w, MakeResponseStep(o, n, memory))
    ensures o in w.h.tally.undone && Next(w, MakeResponseStep(o, n, memory)) == MakeResponse(w, o, n, memory)
  {
  }

  lemma MakeResponseIs(w: World, o: Addr, s: Addr, n: nat, memory: bool)
    requires Sound(w.h, multiset{}) && w.nextAddr !in w.h.money.ledger && o in w.h.g.inst && w.h.g.inst[o] == s && s in w.h.money.charged
    ensures var v, r := MakeResponse(w, o, n, memory), w.nextAddr;
            if memory && |Responses(w, s)| < At(w.h.resps.limit, s) && Room(w, s, n) then
              && v.x == w.x.(evResp := w.x.evResp[o := r]) && v.h.resps.alive == w.h.resps.alive + {r}
              && v.h.g.roots == w.h.g.roots[Handle(r) := r] && v.h.g.inst == w.h.g.inst[r := s]
              && v.h.money.ledger == w.h.money.ledger[r := Entry(s, n)] && v.q == w.q && v.l == w.l && v.p == w.p
            else v == w
  {
    hide Sound, CanCharge, Room, Responses;
    Books(w, s);
    ChargeExactly(w, s, n);
  }

  /** A header is charged to the response exactly if its bytes fit. */
  lemma SetHeaderExactly(w: World, o: Addr, n: nat)
    requires Reachable(w) && Enabled(w, SetHeaderStep(o, n))
    ensures o in w.x.evResp && w.x.evResp[o] in w.h.g.inst && w.x.evResp[o] in w.h.money.ledger
    ensures var v, r := Next(w, SetHeaderStep(o, n)), w.x.evResp[o]; var s := w.h.g.inst[r];
            if Room(w, s, n) then
              && v == w.(h := w.h.(money := v.h.money)) && v.h.money.budget == w.h.money.budget
              && v.h.money.ledger == w.h.money.ledger[r := Entry(s, w.h.money.ledger[r].amount + n)]
            else v == w
  {
    hide Reachable, Good, Sound, Room, Next, SetHeader;
    ReachableIsGood(w);
    NextSetHeader(w, o, n);
    EventResponse(w, o);
    LedgerOf(w, w.x.evResp[o]);
    FreshInBooks(w);
    SetHeaderIs(w, o, w.x.evResp[o], n);
  }

  lemma NextSetHeader(w: World, o: Addr, n: nat)
    requires Enabled(w, SetHeaderStep(o, n))
    ensures o in w.x.evResp && Next(w, SetHeaderStep(o, n)) == SetHeader(w, o, n)
  {
  }

  lemma SetHeaderIs(w: World, o: Addr, r: Addr, n: nat)
    requires Sound(w.h, multiset{}) && o in w.x.evResp && w.x.evResp[o] == r && r in w.h.g.inst && w.h.g.inst[r] in w.h.money.charged && r in w.h.money.ledger
    ensures var v, s := SetHeader(w, o, n), w.h.g.inst[r];
            if Room(w, s, n) then
              && v == w.(h := w.h.(money := v.h.money)) && v.h.money.budget == w.h.money.budget
              && v.h.money.ledger == w.h.money.ledger[r := Entry(s, w.h.money.ledger[r].amount + n)]
            else v == w
  {
    hide Sound, CanCharge, Room;
    ChargeExactly(w, w.h.g.inst[r], n);
  }

  lemma LedgerOf(w: World, k: Addr)
    requires Good(w) && k in w.h.g.inst
    ensures k in w.h.money.ledger
  {
  }

  /** A chunk is made exactly if memory is left and its bytes fit. */
  lemma MakeChunkExactly(w: World, o: Addr, n: nat, memory: bool)
    requires Reachable(w) && Enabled(w, MakeChunkStep(o, n, memory))
    ensures o in w.h.g.inst && o in w.h.g.resp
    ensures var v, s, c := Next(w, MakeChunkStep(o, n, memory)), w.h.g.inst[o], w.nextAddr;
            if memory && Room(w, s, n) then
              && v.x == w.x.(evChunk := w.x.evChunk[o := c]) && v.h.resps.chunks == w.h.resps.chunks + {c}
              && v.h.g.resp == w.h.g.resp[c := w.h.g.resp[o]] && v.h.g.inst == w.h.g.inst[c := s]
              && v.h.money.ledger == w.h.money.ledger[c := Entry(s, n)] && v.q == w.q && v.l == w.l && v.p == w.p
            else v == w
  {
    hide Reachable, Good, Sound, Room, Next;
    ReachableIsGood(w);
    NextMakeChunk(w, o, n, memory);
    PoppedFacts(w, o);
    ReadTargetOf(w, o);
    MakeChunkIs(w, o, w.h.g.inst[o], n, memory);
  }

  lemma NextMakeChunk(w: World, o: Addr, n: nat, memory: bool)
    requires Enabled(w, MakeChunkStep(o, n, memory))
    ensures o in w.h.tally.undone && o in w.h.kinds && w.h.kinds[o] == 4 && Next(w, MakeChunkStep(o, n, memory)) == MakeChunk(w, o, n, memory)
  {
  }

  lemma ReadTargetOf(w: World, o: Addr)
    requires Good(w) && o in w.h.kinds && w.h.kinds[o] == 4
    ensures o in w.h.g.resp
  {
  }

  lemma MakeChunkIs(w: World, o: Addr, s: Addr, n: nat, memory: bool)
    requires Sound(w.h, multiset{}) && w.nextAddr !in w.h.money.ledger && o in w.h.g.inst && w.h.g.inst[o] == s && s in w.h.money.charged && o in w.h.g.resp
    ensures var v, c := MakeChunk(w, o, n, memory), w.nextAddr;
            if memory && Room(w, s, n) then
              && v.x == w.x.(evChunk := w.x.evChunk[o := c]) && v.h.resps.chunks == w.h.resps.chunks + {c}
              && v.h.g.resp == w.h.g.resp[c := w.h.g.resp[o]] && v.h.g.inst == w.h.g.inst[c := s]
              && v.h.money.ledger == w.h.money.ledger[c := Entry(s, n)] && v.q == w.q && v.l == w.l && v.p == w.p
            else v == w
  {
    hide Sound, CanCharge, Room;
    ChargeExactly(w, s, n);
  }

  /** hs_bridge_limits sets the three limits of the operation's instance and nothing else. */
  lemma LimitsExactly(w: World, o: Addr, capacity: int, budget: nat, responses: int)
    requires Reachable(w) && Enabled(w, LimitsStep(o, capacity, budget, responses))
    ensures o in w.h.g.inst
    ensures var v, s := Next(w, LimitsStep(o, capacity, budget, responses)), w.h.g.inst[o];
            && v == w.(h := v.h, l := v.l) && v.l == w.l.(capacity := w.l.capacity[s := capacity])
            && v.h == w.h.(money := v.h.money, resps := v.h.resps)
            && v.h.money == w.h.money.(budget := w.h.money.budget[s := budget]) && v.h.resps == w.h.resps.(limit := w.h.resps.limit[s := responses])
  {
    hide Reachable, Good, Next;
    ReachableIsGood(w);
    NextLimits(w, o, capacity, budget, responses);
    OpFacts(w, o);
  }

  lemma NextLimits(w: World, o: Addr, capacity: int, budget: nat, responses: int)
    requires Enabled(w, LimitsStep(o, capacity, budget, responses))
    ensures o in w.h.tally.undone
    ensures Next(w, LimitsStep(o, capacity, budget, responses)) == SetLimits(w, At(w.h.g.inst, o), capacity, budget, responses)
  {
  }

  /** hs_bridge_idle: the runtime begins to end exactly if nothing is live, no callback is
      outstanding and no command waits. */
  lemma IdleExactly(w: World)
    requires Reachable(w) && Enabled(w, IdleStep)
    ensures var v := Next(w, IdleStep);
            if w.l.live == [] && w.h.tally.untold == {} && w.q.commands == [] then v == w.(p := w.p.(state := 3)) else v == w
  {
    hide Reachable, Good, Next;
    ReachableIsGood(w);
    NextIdle(w);
    LiveCount(w);
    assert |w.h.tally.untold| == 0 <==> w.h.tally.untold == {};
  }

  lemma NextIdle(w: World)
    requires Enabled(w, IdleStep)
    ensures Next(w, IdleStep) == Idle(w)
  {
  }

  // -------------------------------------------------------------------------
  // hs_response_release

  /** The response is released and its handle gone; the owner is told by an internal
      command exactly if this is the first release, the instance is not closing, and a
      serial number and memory are left. */
  lemma ReleaseResponseExactly(w: World, r: Addr, memory: bool)
    requires Reachable(w) && r in w.x.resps
    ensures r in w.h.g.inst
    ensures var v, s, o := Next(w, ReleaseResponseStep(r, memory)), w.h.g.inst[r], w.nextAddr;
            && r in v.h.resps.released && Handle(r) !in v.h.g.roots && v.x == w.x.(resps := w.x.resps - {r}) && v.l == w.l && v.p == w.p
            && if r !in w.h.resps.released && s !in w.l.closing && w.nextId != INT_MAX && memory then
                 && v.q == w.q.(commands := w.q.commands + [o], accepted := w.q.accepted + {o})
                 && v.h.kinds == w.h.kinds[o := 7] && v.h.tally.undone == w.h.tally.undone + {o} && Host(o) !in v.h.g.roots
               else v.q == w.q && v.h.kinds == w.h.kinds && v.h.tally.undone == w.h.tally.undone
  {
    hide Reachable, Good, Sound, Bounded, FreshAddr, Next, RespDrop, ReleaseResponse;
    ReachableIsGood(w);
    HandleOf(w, r);
    FreshInBooks(w);
    NextRelease(w, r, memory);
    ReleaseIs(w, r, w.h.g.inst[r], memory);
  }

  lemma NextRelease(w: World, r: Addr, memory: bool)
    requires r in w.x.resps
    ensures Next(w, ReleaseResponseStep(r, memory)) == ReleaseResponse(w, r, memory)
  {
  }

  lemma ReleaseIs(w: World, r: Addr, s: Addr, memory: bool)
    requires Bounded(w) && FreshAddr(w.h, w.nextAddr) && r in w.h.g.inst && w.h.g.inst[r] == s
    requires w.nextAddr !in w.h.kinds && w.nextAddr !in w.h.money.ledger
    ensures var v, o := ReleaseResponse(w, r, memory), w.nextAddr;
            && r in v.h.resps.released && Handle(r) !in v.h.g.roots && v.x == w.x.(resps := w.x.resps - {r}) && v.l == w.l && v.p == w.p
            && if r !in w.h.resps.released && s !in w.l.closing && w.nextId != INT_MAX && memory then
                 && v.q == w.q.(commands := w.q.commands + [o], accepted := w.q.accepted + {o})
                 && v.h.kinds == w.h.kinds[o := 7] && v.h.tally.undone == w.h.tally.undone + {o} && Host(o) !in v.h.g.roots
               else v.q == w.q && v.h.kinds == w.h.kinds && v.h.tally.undone == w.h.tally.undone
  {
    hide Bounded, FreshAddr, RespDrop, AddOp;
    AdmitEnters(w, 7, s, 0, Some(r), false);
    var u := Unhandled(TellOwner(w, r, s, memory), r);
    RespDropFrame(u.h, r);
  }

  // -------------------------------------------------------------------------
  // The other releases

  /** A released chunk is gone with its bytes, a released operation loses the host's
      reference and goes with it if its callback has returned, a released engine loses
      its handle; the queues and the live list stay as they are. */
  lemma ReleasesExactly(w: World, k: Addr)
    requires Reachable(w)
    ensures k in w.x.chunks ==>
              var v := Next(w, ReleaseChunkStep(k));
              && v.x == w.x.(chunks := w.x.chunks - {k}) && v.h.resps.chunks == w.h.resps.chunks - {k} && k !in v.h.money.ledger
              && v.h.kinds == w.h.kinds && v.h.tally.undone == w.h.tally.undone && v.h.g.roots == w.h.g.roots && Aside(w, v)
    ensures Host(k) in w.h.g.roots ==>
              var v := Next(w, ReleaseOpStep(k));
              && v.h.g.roots == w.h.g.roots - {Host(k)} && v.h.kinds == (if k in w.h.tally.untold then w.h.kinds else w.h.kinds - {k})
              && v.x == w.x && v.h.tally.undone == w.h.tally.undone && Aside(w, v)
    ensures k in w.x.engines ==>
              var v := Next(w, ReleaseEngineStep(k));
              && v.h.g.roots == w.h.g.roots - {Engine(k)} && v.x == w.x.(engines := w.x.engines - {k})
              && v.h.kinds == w.h.kinds && v.h.tally.undone == w.h.tally.undone && Aside(w, v)
  {
    hide Reachable, Good, OpDrop, ChunkDrop, InstDrop, Next;
    ReachableIsGood(w);
    NextReleases(w, k);
    if k in w.x.chunks {
      ChunkDropFrame(w.h, k);
    }
    if Host(k) in w.h.g.roots {
      HostedRefs(w, k);
      OpDropFrame(w.h.(g := CutRoot(w.h.g, Host(k))), k);
    }
    if k in w.x.engines {
      InstDropFrame(w.h.(g := CutRoot(w.h.g, Engine(k))), EngineTarget(w.h.g, k));
    }
  }

  // What these calls have nothing to do with.
  ghost predicate Aside(w: World, v: World) {
    v.q == w.q && v.l == w.l && v.p == w.p && v.nextAddr == w.nextAddr && v.nextId == w.nextId
  }

  lemma NextReleases(w: World, k: Addr)
    ensures k in w.x.chunks ==> Next(w, ReleaseChunkStep(k)) == ReleaseChunk(w, k)
    ensures Host(k) in w.h.g.roots ==> Next(w, ReleaseOpStep(k)) == ReleaseOp(w, k)
    ensures k in w.x.engines ==> Next(w, ReleaseEngineStep(k)) == ReleaseEngine(w, k)
  {
  }

  lemma HostedRefs(w: World, o: Addr)
    requires Reachable(w) && Host(o) in w.h.g.roots
    ensures At(w.h.g.refs, o) == (if o in w.h.tally.untold then 2 else 1)
  {
    hide Reachable;
    ReachableIsGood(w);
    HostKind(w, o);
    OperationRefs(w, o);
  }

  lemma HostKind(w: World, o: Addr)
    requires Good(w) && (Host(o) in w.h.g.roots || o in w.h.tally.untold)
    ensures o in w.h.kinds
  {
  }

  lemma InstDropFrame(h: Heap, s: Addr)
    ensures var t := InstDrop(h, s);
            && t.g.roots == h.g.roots && t.kinds == h.kinds && t.resps.chunks == h.resps.chunks && t.money.ledger == h.money.ledger
            && t.tally.undone == h.tally.undone && t.tally.untold == h.tally.untold
  {
  }

  lemma OpDropFrame(h: Heap, o: Addr)
    ensures var t := OpDrop(h, o);
            && t.g.roots == h.g.roots && t.kinds == (if At(h.g.refs, o) > 1 then h.kinds else h.kinds - {o})
            && t.tally.undone == h.tally.undone && t.tally.untold == h.tally.untold
  {
    hide RespDrop, InstDrop;
    var t := FreeOp(h, o);
    RespDropFrame(t, At(h.g.resp, o));
    InstDropFrame(t, At(h.g.inst, o));
    InstDropFrame(RespDrop(t, At(h.g.resp, o)), At(h.g.inst, o));
  }

  lemma ChunkDropFrame(h: Heap, c: Addr)
    ensures var t := ChunkDrop(h, c);
            && t.g.roots == h.g.roots && t.kinds == h.kinds && t.resps.chunks == h.resps.chunks - {c} && c !in t.money.ledger
            && t.tally.undone == h.tally.undone && t.tally.untold == h.tally.untold
  {
    hide RespDrop, InstDrop;
    var t := FreeChunk(h, c);
    RespDropFrame(t, At(h.g.resp, c));
    RespDropLedger(t, At(h.g.resp, c));
    InstDropFrame(RespDrop(t, At(h.g.resp, c)), At(h.g.inst, c));
  }

  lemma RespDropLedger(h: Heap, r: Addr)
    ensures RespDrop(h, r).money.ledger.Keys <= h.money.ledger.Keys
  {
  }

  // -------------------------------------------------------------------------
  // The queues

  /** The owner pops the oldest command, also while it drains. */
  lemma PopsExactly(w: World)
    ensures Enabled(w, PopStep) ==> Next(w, PopStep) == if w.q.commands == [] then w else w.(q := w.q.(commands := w.q.commands[1..]))
    ensures Enabled(w, DrainPopStep) && w.q.commands != [] ==>
              Next(w, DrainPopStep) == w.(q := w.q.(commands := w.q.commands[1..]), p := w.p.(owner := Draining([w.q.commands[0]])))
  {
  }

  /** The notifier takes the oldest notice, and from then on the host holds exactly what
      its event carries besides what it held. */
  lemma TakeExactly(w: World)
    requires Enabled(w, TakeStep)
    ensures w.q.notices != []
    ensures var v, o := Next(w, TakeStep), w.q.notices[0];
            && v == w.(q := w.q.(notices := w.q.notices[1..], calling := [o]), x := v.x)
            && (forall e :: e in v.x.engines <==> e in w.x.engines || (e == o && Engine(o) in w.h.g.roots))
            && (forall r :: r in v.x.resps <==> r in w.x.resps || (o in w.x.evResp && w.x.evResp[o] == r))
            && (forall c :: c in v.x.chunks <==> c in w.x.chunks || (o in w.x.evChunk && w.x.evChunk[o] == c))
  {
  }

  /** When a callback has returned, its operation is told, and goes unless the host holds
      it. */
  lemma ToldExactly(w: World)
    requires Reachable(w) && Enabled(w, ToldStep)
    ensures w.q.calling != []
    ensures var v, o := Next(w, ToldStep), w.q.calling[0];
            && v.q == w.q.(calling := [], called := w.q.called + [o]) && v.h.tally.untold == w.h.tally.untold - {o}
            && v.h.g.roots == w.h.g.roots - {Runtime(o)} && v.h.kinds == (if Host(o) in w.h.g.roots then w.h.kinds else w.h.kinds - {o})
            && v.x == w.x && v.l == w.l && v.p == w.p
  {
    hide Reachable, Good, Next, OpDrop;
    NextTold(w);
    var o := w.q.calling[0];
    CalledRefs(w, o);
    OpDropFrame(Untell(w.h, o), o);
  }

  lemma NextTold(w: World)
    requires Enabled(w, ToldStep)
    ensures w.q.calling != [] && Next(w, ToldStep) == Told(w)
  {
  }

  lemma CalledRefs(w: World, o: Addr)
    requires Reachable(w) && w.q.calling != [] && o == w.q.calling[0]
    ensures At(w.h.g.refs, o) == (if Host(o) in w.h.g.roots then 2 else 1)
  {
    hide Reachable;
    ReachableIsGood(w);
    CalledIsUntold(w, o);
    HostKind(w, o);
    OperationRefs(w, o);
  }

  lemma CalledIsUntold(w: World, o: Addr)
    requires Good(w) && w.q.calling != [] && o == w.q.calling[0]
    ensures o in w.h.tally.untold
  {
    OneCalling(w);
  }

  // -------------------------------------------------------------------------
  // hs_bridge_complete

  /** Completing an operation a second time does nothing.  The first time it is announced
      behind all other notices and is no longer uncompleted.  A creation that succeeds
      gets its instance's handle; one that fails, and a close, takes the instance off
      the live list for good.  An error takes the response of the event away. */
  lemma CompleteExactly(w: World, o: Addr, code: int)
    requires Reachable(w) && Enabled(w, CompleteStep(o, code))
    ensures var v := Next(w, CompleteStep(o, code)); o !in w.h.tally.undone ==> v == w
    ensures o in w.h.tally.undone ==> o in w.h.kinds && o in w.h.g.inst
    ensures o in w.h.tally.undone ==>
              var v, kind, s := Next(w, CompleteStep(o, code)), w.h.kinds[o], w.h.g.inst[o];
              && v.q == w.q.(notices := w.q.notices + [o], completed := w.q.completed + [o]) && v.h.tally.undone == w.h.tally.undone - {o}
              && (Engine(o) in v.h.g.roots <==> IsCreate(kind) && code == 0) && (IsCreate(kind) && code == 0 ==> v.h.g.roots[Engine(o)] == s)
              && (if IsClose(kind) || (IsCreate(kind) && code != 0)
                  then v.l.closed == w.l.closed + {s} && v.l.closing == w.l.closing + {s} && s !in v.l.live && v.l.instances == w.l.instances - 1
                  else v.l == w.l)
              && v.x == (if code != 0 then w.x.(evResp := w.x.evResp - {o}) else w.x)
              && (o in w.x.evResp ==> (Handle(w.x.evResp[o]) in v.h.g.roots <==> code == 0))
  {
    hide Reachable, Good, Next, Complete;
    ReachableIsGood(w);
    NextComplete(w, o, code);
    if o in w.h.tally.undone {
      CompleteIs(w, o, code);
    } else {
      DoneStays(w, o, code);
    }
  }

  lemma NextComplete(w: World, o: Addr, code: int)
    requires Enabled(w, CompleteStep(o, code))
    ensures Next(w, CompleteStep(o, code)) == Complete(w, o, code)
  {
  }

  lemma DoneStays(w: World, o: Addr, code: int)
    requires o !in w.h.tally.undone
    ensures Complete(w, o, code) == w
  {
  }

  lemma CompleteIs(w: World, o: Addr, code: int)
    requires Good(w) && o in w.h.tally.undone
    ensures o in w.h.kinds && o in w.h.g.inst
    ensures var v, kind, s := Complete(w, o, code), w.h.kinds[o], w.h.g.inst[o];
            && v.q == w.q.(notices := w.q.notices + [o], completed := w.q.completed + [o]) && v.h.tally.undone == w.h.tally.undone - {o}
            && (Engine(o) in v.h.g.roots <==> IsCreate(kind) && code == 0) && (IsCreate(kind) && code == 0 ==> v.h.g.roots[Engine(o)] == s)
            && (if IsClose(kind) || (IsCreate(kind) && code != 0)
                then v.l.closed == w.l.closed + {s} && v.l.closing == w.l.closing + {s} && s !in v.l.live && v.l.instances == w.l.instances - 1
                else v.l == w.l)
            && v.x == (if code != 0 then w.x.(evResp := w.x.evResp - {o}) else w.x)
            && (o in w.x.evResp ==> (Handle(w.x.evResp[o]) in v.h.g.roots <==> code == 0))
  {
    hide Good, DropEventResponse, Outcome, Announce;
    OpFacts(w, o);
    NoEngineYet(w, o);
    var u := if code != 0 then DropEventResponse(w, o) else w;
    DropEventGood(w, o);
    DropEventKeeps(w, o);
    DroppedFields(w, o);
    OpFacts(u, o);
    LiveIsDistinctIn(u);
    OutcomeFields(u, o, code);
  }

  lemma NoEngineYet(w: World, o: Addr)
    requires Good(w) && o in w.h.tally.undone
    ensures Engine(o) !in w.h.g.roots && (o in w.x.evResp ==> Handle(w.x.evResp[o]) in w.h.g.roots)
  {
  }

  lemma LiveIsDistinctIn(w: World)
    requires Good(w)
    ensures NoDup(w.l.live)
  {
  }

  // What stays when the response of an event is dropped: the operation with its instance.
  lemma DroppedFields(w: World, o: Addr)
    requires o in w.h.g.inst
    ensures var v := DropEventResponse(w, o);
            && v.x == w.x.(evResp := w.x.evResp - {o}) && v.h.tally.undone == w.h.tally.undone
            && v.h.g.roots == (if o in w.x.evResp then w.h.g.roots - {Handle(w.x.evResp[o])} else w.h.g.roots)
            && (o in v.h.g.inst ==> v.h.g.inst[o] == w.h.g.inst[o])
  {
    hide RespDrop;
    if o in w.x.evResp {
      var u := Undelivered(w, o, w.x.evResp[o]);
      RespDropFrame(u.h, w.x.evResp[o]);
      RespDropInst(u.h, w.x.evResp[o], o);
    } else {
      assert w.x.evResp - {o} == w.x.evResp;
    }
  }

  lemma RespDropInst(h: Heap, r: Addr, k: Addr)
    ensures var t := RespDrop(h, r); k in t.g.inst ==> k in h.g.inst && t.g.inst[k] == h.g.inst[k]
  {
  }

  lemma OutcomeFields(w: World, o: Addr, code: int)
    requires o in w.h.kinds && o in w.h.g.inst && Engine(o) !in w.h.g.roots && NoDup(w.l.live)
    ensures var v, kind, s := Announce(Outcome(w, o, code), o), w.h.kinds[o], w.h.g.inst[o];
            && v.q == w.q.(notices := w.q.notices + [o], completed := w.q.completed + [o]) && v.h.tally.undone == w.h.tally.undone - {o} && v.x == w.x
            && (Engine(o) in v.h.g.roots <==> IsCreate(kind) && code == 0) && (IsCreate(kind) && code == 0 ==> v.h.g.roots[Engine(o)] == s)
            && (if IsClose(kind) || (IsCreate(kind) && code != 0)
                then v.l.closed == w.l.closed + {s} && v.l.closing == w.l.closing + {s} && s !in v.l.live && v.l.instances == w.l.instances - 1
                else v.l == w.l)
            && (forall r :: Handle(r) in v.h.g.roots <==> Handle(r) in w.h.g.roots)
  {
    WithoutIs(w.l.live, w.h.g.inst[o]);
    hide Without, NoDup;
  }
}
