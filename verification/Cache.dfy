/**
 The session cache: a chain of entries with overwrite, expiry and oldest-first
 eviction, and the plain map that it stands for.
 */
module Cache {
  import opened Basics

  type Id = seq<int>

  const MAX_ID: nat := 32

  // A blank entry, left behind by a set that failed after it had taken its slot,
  // has no session and an empty id.
  datatype Entry<S> = Entry(stamp: int, id: Id, session: Option<S>)

  // -------------------------------------------------------------------------
  // Expiry, with the cast of the age to a 32-bit int

  function ToInt32(n: int): int {
    var m := n % 0x1_0000_0000;
    if m < 0x8000_0000 then m else m - 0x1_0000_0000
  }

  predicate Expired(timeout: nat, now: int, stamp: int) {
    timeout != 0 && ToInt32(now - stamp) > timeout
  }

  /** Exactly which entries count as expired: those whose age, modulo 2^32 seconds, is
      above the timeout and below 2^31. */
  lemma ExpiryExactly(timeout: nat, now: int, stamp: int)
    ensures Expired(timeout, now, stamp) <==>
              timeout != 0 && timeout < (now - stamp) % 0x1_0000_0000 < 0x8000_0000
  {
  }

  // Below 2^32 seconds the age is its own remainder.
  lemma ExpiryBelow(timeout: nat, now: int, stamp: int)
    requires 0 <= now - stamp < 0x1_0000_0000
    ensures Expired(timeout, now, stamp) <==> timeout != 0 && timeout < now - stamp < 0x8000_0000
  {
    ExpiryExactly(timeout, now, stamp);
  }

  /** Exactly when the verdict on an entry that is not from the future is right: it is
      for every young enough one, and for an old one only while its age modulo 2^32
      shows it.  Below 2^31 seconds it always is. */
  lemma ExpiryRightExactly(timeout: nat, now: int, stamp: int)
    requires stamp <= now && timeout < 0x8000_0000
    ensures (Expired(timeout, now, stamp) <==> timeout != 0 && now - stamp > timeout) <==>
              timeout == 0 || now - stamp <= timeout || timeout < (now - stamp) % 0x1_0000_0000 < 0x8000_0000
    ensures now - stamp < 0x8000_0000 ==> (Expired(timeout, now, stamp) <==> timeout != 0 && now - stamp > timeout)
  {
    ExpiryExactly(timeout, now, stamp);
  }

  /** Beyond that it can be wrong: an entry 2^31 seconds old is taken for a young one. */
  lemma ExpiryWraps()
    ensures !Expired(10, 0x8000_0001, 1)
  {
  }

  // -------------------------------------------------------------------------
  // Where to look and where to write

  function FirstMatch<S>(chain: seq<Entry<S>>, id: Id): (i: nat)
    ensures i <= |chain| && (forall j | 0 <= j < i :: chain[j].id != id) && (i < |chain| ==> chain[i].id == id)
  {
    if chain == [] || chain[0].id == id then 0 else 1 + FirstMatch(chain[1..], id)
  }

  function FirstExpired<S>(chain: seq<Entry<S>>, timeout: nat, now: int): (i: nat)
    ensures i <= |chain|
  {
    if chain == [] || Expired(timeout, now, chain[0].stamp) then 0 else 1 + FirstExpired(chain[1..], timeout, now)
  }

  lemma {:induction false} FirstExpiredIs<S>(chain: seq<Entry<S>>, timeout: nat, now: int)
    ensures var i := FirstExpired(chain, timeout, now);
            && (forall j | 0 <= j < i :: !Expired(timeout, now, chain[j].stamp))
            && (i < |chain| ==> Expired(timeout, now, chain[i].stamp))
  {
    if chain != [] && !Expired(timeout, now, chain[0].stamp) {
      FirstExpiredIs(chain[1..], timeout, now);
      forall j | 0 < j < |chain| ensures chain[j] == chain[1..][j - 1] {}
    }
  }

  // The first entry with the smallest time stamp.
  function Oldest<S>(chain: seq<Entry<S>>): (i: nat)
    requires chain != []
    ensures i < |chain|
  {
    if |chain| == 1 then 0
    else
      var i := 1 + Oldest(chain[1..]);
      if chain[0].stamp <= chain[i].stamp then 0 else i
  }

  lemma {:induction false} OldestIs<S>(chain: seq<Entry<S>>)
    requires chain != []
    ensures var i := Oldest(chain);
            && (forall j | 0 <= j < |chain| :: chain[i].stamp <= chain[j].stamp)
            && (forall j | 0 <= j < i :: chain[i].stamp < chain[j].stamp)
  {
    if |chain| > 1 {
      OldestIs(chain[1..]);
      forall j | 0 < j < |chain| ensures chain[j] == chain[1..][j - 1] {}
    }
  }

  // The entry that the search for the oldest ends with: a time stamp of 0 stands for
  // "none seen yet" there, so that the next entry replaces it.
  function Victim<S>(chain: seq<Entry<S>>): (i: nat)
    requires chain != []
    ensures i < |chain|
  {
    var n := |chain| - 1;
    if n == 0 then 0
    else
      var v := Victim(chain[..n]);
      if chain[v].stamp == 0 || chain[n].stamp < chain[v].stamp then n else v
  }

  lemma OldestUnique<S>(chain: seq<Entry<S>>, i: nat)
    requires chain != [] && i < |chain| && forall j | 0 <= j < |chain| :: chain[i].stamp <= chain[j].stamp
    requires forall j | 0 <= j < i :: chain[i].stamp < chain[j].stamp
    ensures Oldest(chain) == i
  {
    OldestIs(chain);
  }

  lemma OldestSnoc<S>(chain: seq<Entry<S>>)
    requires |chain| > 1
    ensures var n := |chain| - 1;
            Oldest(chain) == if chain[Oldest(chain[..n])].stamp <= chain[n].stamp then Oldest(chain[..n]) else n
  {
    hide Oldest;
    var n := |chain| - 1;
    var front := chain[..n];
    var o := Oldest(front);
    var k := if chain[o].stamp <= chain[n].stamp then o else n;
    OldestIs(front);
    forall j | 0 <= j < |chain| ensures chain[k].stamp <= chain[j].stamp && (j < k ==> chain[k].stamp < chain[j].stamp) {
      assert j < n ==> front[j] == chain[j];
    }
    OldestUnique(chain, k);
  }

  lemma {:induction false} VictimPast<S>(chain: seq<Entry<S>>, z: nat)
    requires z < |chain| - 1 && chain[z].stamp == 0 && forall j | 0 <= j < |chain| :: chain[j].stamp >= 0
    ensures Victim(chain) > z
  {
    var n := |chain| - 1;
    if z == n - 1 {
      if n > 1 {
        assert chain[..n][..n - 1] == chain[..n - 1];
      }
    } else {
      VictimPast(chain[..n], z);
    }
  }

  lemma {:induction false} VictimOldest<S>(chain: seq<Entry<S>>)
    requires chain != [] && forall j | 0 <= j < |chain| - 1 :: chain[j].stamp != 0
    ensures Victim(chain) == Oldest(chain)
  {
    var n := |chain| - 1;
    if n > 0 {
      VictimOldest(chain[..n]);
      OldestSnoc(chain);
    }
  }

  /** With times that are not negative, the search finds the oldest entry exactly when
      no entry but the last has a time stamp of 0. */
  lemma VictimIsOldestExactly<S>(chain: seq<Entry<S>>)
    requires chain != [] && forall j | 0 <= j < |chain| :: chain[j].stamp >= 0
    ensures Victim(chain) == Oldest(chain) <==> forall j | 0 <= j < |chain| - 1 :: chain[j].stamp != 0
  {
    if z: int :| 0 <= z < |chain| - 1 && chain[z].stamp == 0 {
      VictimPast(chain, z);
      OldestIs(chain);
    } else {
      VictimOldest(chain);
    }
  }

  /** A concrete chain where it does not: the entry of time 0 is taken for none at all. */
  lemma ZeroStampIsPassedOver<S>(s: S)
    ensures var chain := [Entry(0, [1], Some(s)), Entry(5, [2], Some(s))]; Oldest(chain) == 0 && Victim(chain) == 1
  {
    var chain := [Entry(0, [1], Some(s)), Entry(5, [2], Some(s))];
    assert Victim(chain[..1]) == 0;
  }

  // ssl_cache_find_entry
  function Lookup<S>(chain: seq<Entry<S>>, timeout: nat, now: int, id: Id): (i: nat)
    ensures i <= |chain|
    ensures i < |chain| ==> chain[i].id == id && !Expired(timeout, now, chain[i].stamp)
    ensures forall j | 0 <= j < i :: chain[j].id != id || Expired(timeout, now, chain[j].stamp)
  {
    if chain == [] || (chain[0].id == id && !Expired(timeout, now, chain[0].stamp)) then 0
    else 1 + Lookup(chain[1..], timeout, now, id)
  }

  // ssl_cache_pick_writing_slot: the entry with that id, else an expired one, else
  // a new one at the end, else the one taken for the oldest.
  function Slot<S>(chain: seq<Entry<S>>, timeout: nat, max: nat, now: int, id: Id, memory: bool): Option<nat> {
    var same, expired := FirstMatch(chain, id), FirstExpired(chain, timeout, now);
    if same < |chain| then Some(same)
    else if expired < |chain| then Some(expired)
    else if |chain| < max then if memory then Some(|chain|) else None
    else if chain == [] then None
    else Some(Victim(chain))
  }

  function Placed<S>(chain: seq<Entry<S>>, i: nat, e: Entry<S>): seq<Entry<S>>
    requires i <= |chain|
  {
    if i < |chain| then chain[i := e] else chain + [e]
  }

  datatype Code = Ok | Failed

  // mbedtls_ssl_cache_set; `saved` says whether the session could be serialized.
  function SetChain<S>(chain: seq<Entry<S>>, timeout: nat, max: nat, now: int, id: Id, s: S, memory: bool, saved: bool): (seq<Entry<S>>, Code) {
    var slot := Slot(chain, timeout, max, now, id, memory);
    if slot.None? then (chain, Failed)
    else if saved && |id| <= MAX_ID then (Placed(chain, slot.value, Entry(now, id, Some(s))), Ok)
    else (Placed(chain, slot.value, Entry(now, [], None)), Failed)
  }

  function RemoveChain<S>(chain: seq<Entry<S>>, timeout: nat, now: int, id: Id): seq<Entry<S>> {
    var i := Lookup(chain, timeout, now, id);
    if i < |chain| then chain[..i] + chain[i + 1..] else chain
  }

  datatype Got<S> = Found(session: S) | NotFound | LoadFailed

  function GetFrom<S>(chain: seq<Entry<S>>, timeout: nat, now: int, id: Id): Got<S> {
    var i := Lookup(chain, timeout, now, id);
    if i == |chain| then NotFound
    else if chain[i].session.Some? then Found(chain[i].session.value)
    else LoadFailed
  }

  // -------------------------------------------------------------------------
  // The map that the cache stands for

  datatype Stored<S> = Stored(session: S, at: int)

  datatype Op<S> = SetOp(now: int, id: Id, session: S, memory: bool, saved: bool)
                 | RemoveOp(now: int, id: Id)
                 | GetOp(now: int, id: Id)

  datatype State<S> = State(chain: seq<Entry<S>>, stored: map<Id, Stored<S>>)

  // One call on the chain, and what it means for the map: the last session
  // successfully set under each id and not removed since.
  function Step<S>(st: State<S>, timeout: nat, max: nat, op: Op<S>): State<S> {
    match op
    case SetOp(now, id, s, memory, saved) =>
      var r := SetChain(st.chain, timeout, max, now, id, s, memory, saved);
      State(r.0, if r.1.Ok? then st.stored[id := Stored(s, now)] else st.stored)
    case RemoveOp(now, id) => State(RemoveChain(st.chain, timeout, now, id), st.stored - {id})
    case GetOp(_, _) => st
  }

  ghost predicate Distinct<S>(chain: seq<Entry<S>>) {
    forall i, j | 0 <= i < j < |chain| && chain[i].id != [] :: chain[i].id != chain[j].id
  }

  // Blank entries and no others have an empty id; times lie in the past.
  ghost predicate Shaped<S>(chain: seq<Entry<S>>, born: int, now: int) {
    forall i | 0 <= i < |chain| :: (chain[i].session.None? <==> chain[i].id == []) && born <= chain[i].stamp <= now
  }

  // What the chain still offers is what the map has.
  ghost predicate Agree<S>(chain: seq<Entry<S>>, stored: map<Id, Stored<S>>, timeout: nat, now: int) {
    forall i | 0 <= i < |chain| && chain[i].session.Some? && !Expired(timeout, now, chain[i].stamp) ::
      chain[i].id in stored && stored[chain[i].id] == Stored(chain[i].session.value, chain[i].stamp)
  }

  // No entry is old enough for the cast of its age to go wrong.
  ghost predicate InTime(timeout: nat, born: int, now: int) {
    timeout == 0 || now - born < 0x8000_0000
  }

  ghost predicate Good<S>(st: State<S>, timeout: nat, max: nat, born: int, now: int) {
    && 0 < born <= now && InTime(timeout, born, now) && timeout < 0x8000_0000 && |st.chain| <= max
    && Distinct(st.chain) && Shaped(st.chain, born, now) && Agree(st.chain, st.stored, timeout, now)
  }

  // Expired entries stay expired.
  lemma AgreeLater<S>(chain: seq<Entry<S>>, stored: map<Id, Stored<S>>, timeout: nat, born: int, now: int, later: int)
    requires Agree(chain, stored, timeout, now) && Shaped(chain, born, now) && now <= later && InTime(timeout, born, later)
    requires timeout < 0x8000_0000
    ensures Agree(chain, stored, timeout, later) && Shaped(chain, born, later)
  {
    forall i | 0 <= i < |chain| && !Expired(timeout, later, chain[i].stamp) ensures !Expired(timeout, now, chain[i].stamp) {
      if timeout != 0 {
        ExpiryBelow(timeout, now, chain[i].stamp);
        ExpiryBelow(timeout, later, chain[i].stamp);
      }
    }
  }

  lemma SlotBounds<S>(chain: seq<Entry<S>>, timeout: nat, max: nat, now: int, id: Id, memory: bool)
    requires |chain| <= max
    ensures var slot := Slot(chain, timeout, max, now, id, memory);
            slot.Some? ==> slot.value <= |chain| && (slot.value == |chain| ==> |chain| < max)
                           && (forall j | 0 <= j < |chain| && j != slot.value && id != [] && Distinct(chain) :: chain[j].id != id)
  {
  }

  lemma PlacedGood<S>(st: State<S>, timeout: nat, max: nat, born: int, now: int, i: nat, e: Entry<S>, stored: map<Id, Stored<S>>)
    requires Good(st, timeout, max, born, now) && i <= |st.chain| && (i == |st.chain| ==> |st.chain| < max)
    requires e.stamp == now && (e.session.None? <==> e.id == [])
    requires forall j | 0 <= j < |st.chain| && j != i && e.id != [] :: st.chain[j].id != e.id
    requires e.session.Some? ==> e.id in stored && stored[e.id] == Stored(e.session.value, now)
    requires forall x | x in st.stored && x != e.id :: x in stored && stored[x] == st.stored[x]
    ensures Good(State(Placed(st.chain, i, e), stored), timeout, max, born, now)
  {
    var c := Placed(st.chain, i, e);
    forall j | 0 <= j < |c| && c[j].session.Some? && !Expired(timeout, now, c[j].stamp)
      ensures c[j].id in stored && stored[c[j].id] == Stored(c[j].session.value, c[j].stamp)
    {
      assert j != i ==> c[j] == st.chain[j];
    }
  }

  lemma SetGood<S>(st: State<S>, timeout: nat, max: nat, born: int, now: int, op: Op<S>)
    requires Good(st, timeout, max, born, now) && op.SetOp? && op.now == now && op.id != []
    ensures Good(Step(st, timeout, max, op), timeout, max, born, now)
  {
    var slot := Slot(st.chain, timeout, max, now, op.id, op.memory);
    SlotBounds(st.chain, timeout, max, now, op.id, op.memory);
    if slot.Some? {
      if op.saved && |op.id| <= MAX_ID {
        PlacedGood(st, timeout, max, born, now, slot.value, Entry(now, op.id, Some(op.session)), st.stored[op.id := Stored(op.session, now)]);
      } else {
        PlacedGood(st, timeout, max, born, now, slot.value, Entry(now, [], None), st.stored);
      }
    }
  }

  lemma RemovedIs<S>(chain: seq<Entry<S>>, timeout: nat, now: int, id: Id, k: nat)
    requires Lookup(chain, timeout, now, id) < |chain| && k < |RemoveChain(chain, timeout, now, id)|
    ensures var i := Lookup(chain, timeout, now, id);
            RemoveChain(chain, timeout, now, id)[k] == chain[if k < i then k else k + 1]
  {
  }

  lemma RemoveGood<S>(st: State<S>, timeout: nat, max: nat, born: int, now: int, op: Op<S>)
    requires Good(st, timeout, max, born, now) && op.RemoveOp? && op.now == now && op.id != []
    ensures Good(Step(st, timeout, max, op), timeout, max, born, now)
  {
    hide Expired;
    var i := Lookup(st.chain, timeout, now, op.id);
    var c := RemoveChain(st.chain, timeout, now, op.id);
    if i < |st.chain| {
      forall j | 0 <= j < |c| ensures c[j] == st.chain[if j < i then j else j + 1] {
        RemovedIs(st.chain, timeout, now, op.id, j);
      }
    }
  }

  lemma StepGood<S>(st: State<S>, timeout: nat, max: nat, born: int, now: int, op: Op<S>)
    requires Good(st, timeout, max, born, now) && now <= op.now && InTime(timeout, born, op.now) && op.id != []
    ensures Good(Step(st, timeout, max, op), timeout, max, born, op.now)
  {
    AgreeLater(st.chain, st.stored, timeout, born, now, op.now);
    match op
    case SetOp(_, _, _, _, _) => SetGood(st, timeout, max, born, op.now, op);
    case RemoveOp(_, _) => RemoveGood(st, timeout, max, born, op.now, op);
    case GetOp(_, _) =>
  }

  // Calls with a clock that does not go back and nonempty ids.
  ghost predicate Orderly<S>(ops: seq<Op<S>>, since: int)
    decreases |ops|
  {
    ops == [] || (since <= ops[0].now && ops[0].id != [] && Orderly(ops[1..], ops[0].now))
  }

  function Run<S>(st: State<S>, timeout: nat, max: nat, ops: seq<Op<S>>): State<S>
    decreases |ops|
  {
    if ops == [] then st else Run(Step(st, timeout, max, ops[0]), timeout, max, ops[1..])
  }

  ghost function Clock<S>(ops: seq<Op<S>>, since: int): int {
    if ops == [] then since else ops[|ops| - 1].now
  }

  lemma {:induction false} ClockAdvances<S>(ops: seq<Op<S>>, since: int)
    requires Orderly(ops, since)
    ensures since <= Clock(ops, since)
    decreases |ops|
  {
    if |ops| > 1 {
      ClockAdvances(ops[1..], ops[0].now);
    }
  }

  lemma {:induction false} RunGood<S>(st: State<S>, timeout: nat, max: nat, born: int, now: int, ops: seq<Op<S>>)
    requires Good(st, timeout, max, born, now) && Orderly(ops, now) && InTime(timeout, born, Clock(ops, now))
    ensures Good(Run(st, timeout, max, ops), timeout, max, born, Clock(ops, now))
    decreases |ops|
  {
    if ops != [] {
      assert Clock(ops[1..], ops[0].now) == Clock(ops, now);
      ClockAdvances(ops[1..], ops[0].now);
      StepGood(st, timeout, max, born, now, ops[0]);
      RunGood(Step(st, timeout, max, ops[0]), timeout, max, born, ops[0].now, ops[1..]);
    }
  }

  // After these calls on an empty cache, get finds either nothing, or the last
  // session successfully set under that id and not removed or expired since; ids
  // are distinct and the chain is not longer than the limit.
  ghost predicate Truthful<S>(timeout: nat, max: nat, ops: seq<Op<S>>, now: int, id: Id) {
    var st := Run(State([], map[]), timeout, max, ops);
    var got := GetFrom(st.chain, timeout, now, id);
    && Distinct(st.chain) && |st.chain| <= max
    && got != LoadFailed
    && (got.Found? ==> id in st.stored && st.stored[id].session == got.session
                       && (timeout == 0 || now - st.stored[id].at <= timeout))
  }

  /** The cache agrees with the map after all calls, if entries never expire or no
      entry can be 2^31 seconds old. */
  lemma CacheAgreesWithMap<S>(timeout: nat, max: nat, born: int, ops: seq<Op<S>>, now: int, id: Id)
    requires 0 < born && timeout < 0x8000_0000 && Orderly(ops, born) && id != []
    requires Clock(ops, born) <= now && InTime(timeout, born, now)
    ensures Truthful(timeout, max, ops, now, id)
  {
    ClockAdvances(ops, born);
    RunGood(State([], map[]), timeout, max, born, born, ops);
    var st := Run(State([], map[]), timeout, max, ops);
    AgreeLater(st.chain, st.stored, timeout, born, Clock(ops, born), now);
    var i := Lookup(st.chain, timeout, now, id);
    if i < |st.chain| && timeout != 0 {
      ExpiryBelow(timeout, now, st.chain[i].stamp);
    }
  }

  /** That is exactly when it does after every run: in a longer life one session, set
      2^31 seconds ago, is enough to be handed out expired. */
  lemma AgreesExactly<S>(timeout: nat, max: nat, born: int, now: int, id: Id, s: S)
    requires 0 < born <= now && timeout < 0x8000_0000 && 0 < max && 0 < |id| <= MAX_ID
    ensures InTime(timeout, born, now) <==>
              forall ops: seq<Op<S>> | Orderly(ops, born) && Clock(ops, born) <= now :: Truthful(timeout, max, ops, now, id)
  {
    if InTime(timeout, born, now) {
      forall ops: seq<Op<S>> | Orderly(ops, born) && Clock(ops, born) <= now ensures Truthful(timeout, max, ops, now, id) {
        CacheAgreesWithMap(timeout, max, born, ops, now, id);
      }
    } else {
      StaleIsFound(timeout, max, now, id, s);
    }
  }

  lemma StaleIsFound<S>(timeout: nat, max: nat, now: int, id: Id, s: S)
    requires 0 < timeout < 0x8000_0000 && 0 < max && 0 < |id| <= MAX_ID
    ensures var at := now - 0x8000_0000; var ops := [SetOp(at, id, s, true, true)];
            Orderly(ops, at) && Clock(ops, at) == at && !Truthful(timeout, max, ops, now, id)
  {
    var at := now - 0x8000_0000;
    var op := SetOp(at, id, s, true, true);
    var st := State([Entry(at, id, Some(s))], map[id := Stored(s, at)]);
    assert Step(State([], map[]), timeout, max, op) == st;
    assert [op][1..] == [];
    assert Run(State([], map[]), timeout, max, [op]) == st;
    ExpiryExactly(timeout, now, at);
    assert Lookup(st.chain, timeout, now, id) == 0;
  }

  // There is a place for the id: its own entry, an expired one, a new one, or, in a
  // full cache, the one taken for the oldest.
  ghost predicate HasPlace<S>(chain: seq<Entry<S>>, timeout: nat, max: nat, now: int, id: Id, memory: bool) {
    || (exists j :: 0 <= j < |chain| && (chain[j].id == id || Expired(timeout, now, chain[j].stamp)))
    || (if |chain| < max then memory else chain != [])
  }

  /** A set succeeds exactly if the id has a place and is no longer than 32 bytes and the
      session can be saved; then one entry of that id, time and session is at that
      place, and every other entry is where it was.  Without a place nothing changes;
      with one that cannot be filled, what was there is lost. */
  lemma SetExactly<S>(chain: seq<Entry<S>>, timeout: nat, max: nat, now: int, id: Id, s: S, memory: bool, saved: bool)
    ensures var (after, code) := SetChain(chain, timeout, max, now, id, s, memory, saved);
            var place := HasPlace(chain, timeout, max, now, id, memory);
            && (code == Ok <==> place && saved && |id| <= 32)
            && (!place ==> after == chain)
            && (place ==> exists i :: 0 <= i < |after| && Rewritten(chain, after, i)
                            && after[i] == if code == Ok then Entry(now, id, Some(s)) else Entry(now, [], None))
  {
    FirstExpiredIs(chain, timeout, now);
    var slot := Slot(chain, timeout, max, now, id, memory);
    if slot.Some? {
      var e := if saved && |id| <= MAX_ID then Entry(now, id, Some(s)) else Entry(now, [], None);
      assert Rewritten(chain, Placed(chain, slot.value, e), slot.value);
    }
  }

  ghost predicate Rewritten<S>(chain: seq<Entry<S>>, after: seq<Entry<S>>, i: int) {
    && 0 <= i <= |chain| && |after| == (if i == |chain| then |chain| + 1 else |chain|)
    && forall j | 0 <= j < |chain| && j != i :: after[j] == chain[j]
  }

  /** A get finds the first unexpired entry of that id, if there is one; an entry without
      a session does not load. */
  lemma GetExactly<S>(chain: seq<Entry<S>>, timeout: nat, now: int, id: Id)
    ensures var got := GetFrom(chain, timeout, now, id);
            && (got == NotFound <==> forall j | 0 <= j < |chain| :: chain[j].id != id || Expired(timeout, now, chain[j].stamp))
            && (got != NotFound ==> exists i :: 0 <= i < |chain| && chain[i].id == id && !Expired(timeout, now, chain[i].stamp)
                                      && (forall j | 0 <= j < i :: chain[j].id != id || Expired(timeout, now, chain[j].stamp))
                                      && got == if chain[i].session.Some? then Found(chain[i].session.value) else LoadFailed)
  {
  }

  // An entry that get would find.
  ghost predicate Live<S>(chain: seq<Entry<S>>, timeout: nat, now: int, e: Entry<S>) {
    e in chain && e.session.Some? && !Expired(timeout, now, e.stamp)
  }

  /** A live entry under another id survives every set, except that the oldest one
      goes when the cache is full, the id is new and nothing has expired. */
  lemma OnlyTheOldestIsEvicted<S>(st: State<S>, timeout: nat, max: nat, born: int, now: int, op: Op<S>, e: Entry<S>)
    requires Good(st, timeout, max, born, now) && op.SetOp? && op.now == now && op.id != []
    requires Live(st.chain, timeout, now, e) && e.id != op.id
    ensures var after := Step(st, timeout, max, op).chain;
            Live(after, timeout, now, e) || (|st.chain| == max && FirstMatch(st.chain, op.id) == |st.chain|
              && (forall x | x in st.chain :: !Expired(timeout, now, x.stamp) && e.stamp <= x.stamp))
  {
    hide Expired, Victim, ToInt32;
    var slot := Slot(st.chain, timeout, max, now, op.id, op.memory);
    var j :| 0 <= j < |st.chain| && st.chain[j] == e;
    var after := Step(st, timeout, max, op).chain;
    FirstExpiredIs(st.chain, timeout, now);
    OldestIs(st.chain);
    VictimOldest(st.chain);
    if slot.Some? && slot.value != j {
      assert after[j] == e;
    }
  }

  /** Remove forgets that id and leaves every other entry where it was. */
  lemma RemoveKeepsOthers<S>(st: State<S>, timeout: nat, max: nat, now: int, id: Id, e: Entry<S>)
    requires e in st.chain && e.id != id
    ensures e in Step(st, timeout, max, RemoveOp(now, id)).chain
  {
    var i := Lookup(st.chain, timeout, now, id);
    var after := RemoveChain(st.chain, timeout, now, id);
    if i < |st.chain| {
      var j :| 0 <= j < |st.chain| && st.chain[j] == e;
      var k := if j < i then j else j - 1;
      RemovedIs(st.chain, timeout, now, id, k);
      assert after[k] == e;
    }
  }

  lemma RemoveForgets<S>(st: State<S>, timeout: nat, max: nat, born: int, now: int, id: Id)
    requires Good(st, timeout, max, born, now) && id != []
    ensures GetFrom(Step(st, timeout, max, RemoveOp(now, id)).chain, timeout, now, id) == NotFound
  {
    var i := Lookup(st.chain, timeout, now, id);
    var after := RemoveChain(st.chain, timeout, now, id);
    if i < |st.chain| {
      forall k | 0 <= k < |after| ensures after[k].id != id {
        RemovedIs(st.chain, timeout, now, id, k);
      }
    }
  }

  /** A successful set is found at once. */
  lemma SetThenGet<S>(st: State<S>, timeout: nat, max: nat, born: int, now: int, op: Op<S>)
    requires Good(st, timeout, max, born, now) && op.SetOp? && op.now == now && op.id != []
    requires SetChain(st.chain, timeout, max, now, op.id, op.session, op.memory, op.saved).1.Ok?
    ensures GetFrom(Step(st, timeout, max, op).chain, timeout, now, op.id) == Found(op.session)
  {
    SlotBounds(st.chain, timeout, max, now, op.id, op.memory);
    var i := Slot(st.chain, timeout, max, now, op.id, op.memory).value;
    var c := Placed(st.chain, i, Entry(now, op.id, Some(op.session)));
    ExpiryBelow(timeout, now, now);
    assert c[i].id == op.id;
    assert forall j | 0 <= j < |c| && j != i :: c[j] == st.chain[j];
    var k := Lookup(c, timeout, now, op.id);
  }
}
