/**
 The abstract machine behind the MPS reader: a byte stream, a cursor and a
 commit mark, all in absolute stream positions.  It knows nothing about the
 two overlapping buffers that the reader really uses.
 */
module ReaderSpec {
  import opened Basics

  datatype Status = Ok | InvalidArg | Unexpected | NeedMore | OutOfData
                  | Inconsistent | DataLeft | NeedAccumulator | TooSmall

  // `Waiting(0)` is the producer's "Unset", `Waiting(m)` its "Accumulating"
  // state with m bytes still missing.  In `Attached`, `fragStart` is the stream
  // position of the current fragment and `joined` the position up to which the
  // bytes before it and its own first bytes lie in one contiguous block.
  datatype Phase = Waiting(missing: nat)
                 | Attached(fragStart: nat, joined: nat, pending: nat)

  datatype Stream = Stream(fed: seq<byte>, mark: nat, cursor: nat, phase: Phase, cap: Option<nat>) {
    predicate Valid() {
      && mark <= cursor <= |fed|
      && match phase
         case Waiting(m) =>
           && cursor == mark
           && (if m == 0 then mark == |fed|
               else mark < |fed| && cap.Some? && |fed| - mark + m <= cap.value)
         case Attached(start, joined, pending) =>
           && start <= joined <= |fed|
           && (mark < start ==> cap.Some? && joined - mark <= cap.value)
           && (pending > 0 ==> start <= cursor < |fed|)
    }
  }

  datatype Call = Feed(frag: Option<seq<byte>>) | Get(desired: nat, whole: bool) | Commit | Reclaim

  // What a call hands back to its caller.
  datatype Reply = Reply(status: Status, bytes: seq<byte>, paused: bool)

  function Init(cap: Option<nat>): (s: Stream)
    ensures s.Valid()
  {
    Stream([], 0, 0, Waiting(0), cap)
  }

  function DoFeed(s: Stream, frag: Option<seq<byte>>): (Stream, Reply) {
    if frag.None? then (s, Reply(InvalidArg, [], false))
    else if s.phase.Attached? then (s, Reply(Unexpected, [], false))
    else
      var m, n := s.phase.missing, |frag.value|;
      var t := s.(fed := s.fed + frag.value);
      if n < m then (t.(phase := Waiting(m - n)), Reply(NeedMore, [], false))
      else (t.(phase := Attached(|s.fed|, |s.fed| + m, 0)), Reply(Ok, [], false))
  }

  function DoGet(s: Stream, desired: nat, whole: bool): (Stream, Reply)
    requires s.Valid()
  {
    if s.phase.Waiting? then (s, Reply(Unexpected, [], false))
    else if s.cursor < s.phase.fragStart then
      if s.phase.fragStart - s.cursor < desired && s.phase.joined - s.cursor != desired then
        (s, Reply(Inconsistent, [], false))
      else Grant(s, desired)
    else
      var left := |s.fed| - s.cursor;
      if desired <= left then Grant(s, desired)
      else if !whole then Grant(s, left)
      else (if left > 0 then s.(phase := s.phase.(pending := desired - left)) else s,
            Reply(OutOfData, [], false))
  }

  function Grant(s: Stream, n: nat): (Stream, Reply)
    requires s.phase.Attached? && s.cursor + n <= |s.fed|
  {
    (s.(cursor := s.cursor + n, phase := s.phase.(pending := 0)),
     Reply(Ok, s.fed[s.cursor..s.cursor + n], false))
  }

  function DoCommit(s: Stream): (Stream, Reply) {
    if s.phase.Waiting? then (s, Reply(Unexpected, [], false))
    else (s.(mark := s.cursor), Reply(Ok, [], false))
  }

  function DoReclaim(s: Stream): (Stream, Reply)
    requires s.Valid()
  {
    if s.phase.Waiting? then (s, Reply(Unexpected, [], false))
    else if s.phase.pending == 0 then
      if s.mark < |s.fed| then (s.(cursor := s.mark), Reply(DataLeft, [], false))
      else (s.(cursor := s.mark, phase := Waiting(0)), Reply(Ok, [], false))
    else if s.cap.None? then (s, Reply(NeedAccumulator, [], false))
    else if s.cap.value < |s.fed| - s.mark + s.phase.pending then
      (s.(cursor := s.mark, phase := s.phase.(pending := 0)), Reply(TooSmall, [], false))
    else (s.(cursor := s.mark, phase := Waiting(s.phase.pending)), Reply(Ok, [], true))
  }

  function Do(s: Stream, c: Call): (r: (Stream, Reply))
    requires s.Valid()
    ensures r.0.Valid() && r.0.cap == s.cap
  {
    match c
    case Feed(frag) => DoFeed(s, frag)
    case Get(desired, whole) => DoGet(s, desired, whole)
    case Commit => DoCommit(s)
    case Reclaim => DoReclaim(s)
  }

  // -------------------------------------------------------------------------
  // What an observer of the calls and replies can write down, without looking
  // into the reader.  `sizes` are the lengths granted since the last commit or
  // rewind and `wanted` the last size that was refused for lack of data.

  datatype Log = Log(sent: seq<byte>, committed: seq<byte>, tentative: seq<byte>,
                     sizes: seq<nat>, wanted: nat)

  function Note(l: Log, c: Call, r: Reply): Log {
    match c
    case Feed(frag) =>
      if frag.Some? && (r.status.Ok? || r.status.NeedMore?) then l.(sent := l.sent + frag.value) else l
    case Get(desired, _) =>
      if r.status.Ok? then l.(tentative := l.tentative + r.bytes, sizes := l.sizes + [|r.bytes|])
      else if r.status.OutOfData? then l.(wanted := desired)
      else l
    case Commit =>
      if r.status.Ok? then l.(committed := l.committed + l.tentative, tentative := [], sizes := []) else l
    case Reclaim =>
      if r.status.Ok? || r.status.DataLeft? || r.status.TooSmall? then l.(tentative := [], sizes := []) else l
  }

  function Run(s: Stream, l: Log, calls: seq<Call>): (r: (Stream, Log))
    requires s.Valid()
    ensures r.0.Valid() && r.0.cap == s.cap
    decreases |calls|
  {
    if calls == [] then (s, l)
    else
      var (t, reply) := Do(s, calls[0]);
      Run(t, Note(l, calls[0], reply), calls[1..])
  }

  function Start(cap: Option<nat>, calls: seq<Call>): (r: (Stream, Log))
    ensures r.0.Valid() && r.0.cap == cap
  {
    Run(Init(cap), Log([], [], [], [], 0), calls)
  }

  function Sum(ns: seq<nat>): nat {
    if ns == [] then 0 else Sum(ns[..|ns| - 1]) + ns[|ns| - 1]
  }

  // The stream's bytes are exactly the accepted ones, the consumer holds exactly
  // its prefix up to the cursor, and a recorded shortfall is exact.
  predicate Agrees(s: Stream, l: Log)
    requires s.Valid()
  {
    && l.sent == s.fed
    && l.committed == s.fed[..s.mark]
    && l.tentative == s.fed[s.mark..s.cursor]
    && s.mark + Sum(l.sizes) == s.cursor
    && (s.phase.Attached? && s.phase.pending > 0 ==>
          s.cursor + l.wanted == |s.fed| + s.phase.pending)
  }

  lemma GrantAgrees(s: Stream, l: Log, n: nat)
    requires s.Valid() && Agrees(s, l) && s.phase.Attached? && s.cursor + n <= |s.fed|
    ensures var (t, r) := Grant(s, n); t.Valid() && Agrees(t, Note(l, Get(n, true), r))
  {
    var (t, r) := Grant(s, n);
    var sizes := l.sizes + [n];
    assert sizes[..|sizes| - 1] == l.sizes;
    assert s.fed[s.mark..s.cursor] + s.fed[s.cursor..t.cursor] == s.fed[s.mark..t.cursor];
  }

  lemma GetAgrees(s: Stream, l: Log, desired: nat, whole: bool)
    requires s.Valid() && Agrees(s, l)
    ensures var (t, r) := Do(s, Get(desired, whole)); Agrees(t, Note(l, Get(desired, whole), r))
  {
    if s.phase.Attached? {
      if s.cursor + desired <= |s.fed| {
        GrantAgrees(s, l, desired);
      }
      GrantAgrees(s, l, |s.fed| - s.cursor);
    }
  }

  lemma StepAgrees(s: Stream, l: Log, c: Call)
    requires s.Valid() && Agrees(s, l)
    ensures var (t, r) := Do(s, c); Agrees(t, Note(l, c, r))
  {
    match c
    case Feed(frag) =>
      assert frag.Some? ==> (s.fed + frag.value)[..s.mark] == s.fed[..s.mark];
      assert frag.Some? ==> (s.fed + frag.value)[s.mark..s.cursor] == s.fed[s.mark..s.cursor];
    case Get(desired, whole) =>
      GetAgrees(s, l, desired, whole);
    case Commit =>
      assert s.fed[..s.mark] + s.fed[s.mark..s.cursor] == s.fed[..s.cursor];
    case Reclaim =>
  }

  lemma {:induction false} RunAgrees(s: Stream, l: Log, calls: seq<Call>)
    requires s.Valid() && Agrees(s, l)
    ensures var (t, m) := Run(s, l, calls); Agrees(t, m)
    decreases |calls|
  {
    if calls != [] {
      StepAgrees(s, l, calls[0]);
      var (t, r) := Do(s, calls[0]);
      RunAgrees(t, Note(l, calls[0], r), calls[1..]);
    }
  }

  lemma NextBytes(s: Stream, desired: nat, whole: bool)
    requires s.Valid()
    ensures var r := Do(s, Get(desired, whole)).1;
            r.status.Ok? ==>
              && s.fed[..s.cursor] + r.bytes <= s.fed
              && |r.bytes| <= desired
              && (whole ==> |r.bytes| == desired)
  {
    var (t, r) := Do(s, Get(desired, whole));
    if r.status.Ok? {
      assert s.fed[..s.cursor] + s.fed[s.cursor..t.cursor] == s.fed[..t.cursor];
    }
  }

  /** Over every run, failing calls included: the consumer's committed bytes
      followed by the ones fetched since are a prefix of the accepted stream, in
      order, none lost and none repeated; and the next successful get returns
      exactly the bytes that follow. */
  lemma DeliversInOrder(cap: Option<nat>, calls: seq<Call>, desired: nat, whole: bool)
    ensures var (s, l) := Start(cap, calls);
            && l.committed + l.tentative <= l.sent
            && var r := Do(s, Get(desired, whole)).1;
               r.status.Ok? ==>
                 && l.committed + l.tentative + r.bytes <= l.sent
                 && |r.bytes| <= desired
                 && (whole ==> |r.bytes| == desired)
  {
    var (s, l) := Start(cap, calls);
    RunAgrees(Init(cap), Log([], [], [], [], 0), calls);
    assert l.committed + l.tentative == s.fed[..s.cursor];
    NextBytes(s, desired, whole);
  }

  /** A reclaim that ends without pausing means that everything accepted so far
      was fetched and committed; every reclaim but the no-accumulator refusal
      rewinds the consumer to its last commit. */
  lemma ReclaimRewinds(cap: Option<nat>, calls: seq<Call>)
    ensures var (s, l) := Start(cap, calls);
            var (t, r) := Do(s, Reclaim);
            && (r.status.Ok? && !r.paused ==> l.committed == l.sent)
            && t.mark == s.mark
            && t.cursor == (if r.status.NeedAccumulator? || r.status.Unexpected? then s.cursor else s.mark)
  {
    RunAgrees(Init(cap), Log([], [], [], [], 0), calls);
  }

  // -------------------------------------------------------------------------
  // Replay after a pause

  function FeedAll(s: Stream, frags: seq<seq<byte>>): (t: Stream)
    requires s.Valid()
    ensures t.Valid() && t.cap == s.cap
    decreases |frags|
  {
    if frags == [] then s else FeedAll(Do(s, Feed(Some(frags[0]))).0, frags[1..])
  }

  function Total(frags: seq<seq<byte>>): nat {
    if frags == [] then 0 else |frags[0]| + Total(frags[1..])
  }

  /** Feeding a paused reader enough bytes attaches a fragment such that the
      bytes from the mark up to the end of the refused request are contiguous. */
  lemma {:induction false} FeedAllAttaches(s: Stream, frags: seq<seq<byte>>)
    requires s.Valid()
    requires s.phase.Waiting? && 0 < s.phase.missing <= Total(frags)
    ensures var t := FeedAll(s, frags);
            && s.fed <= t.fed && t.mark == t.cursor == s.mark
            && t.phase.Attached? && t.phase.pending == 0
            && |s.fed| <= t.phase.fragStart
            && t.phase.joined == |s.fed| + s.phase.missing
    decreases |frags|
  {
    var t := Do(s, Feed(Some(frags[0]))).0;
    if t.phase.Waiting? {
      FeedAllAttaches(t, frags[1..]);
    } else {
      FeedAttachedRefused(t, frags[1..]);
    }
  }

  lemma {:induction false} FeedAttachedRefused(s: Stream, frags: seq<seq<byte>>)
    requires s.Valid() && s.phase.Attached?
    ensures FeedAll(s, frags) == s
    decreases |frags|
  {
    if frags != [] {
      FeedAttachedRefused(s, frags[1..]);
    }
  }

  // The consumer repeats gets of the given sizes, with any choice of whether a
  // short answer is tolerated; None if one of them is refused.
  function Replay(s: Stream, sizes: seq<nat>, whole: seq<bool>): (r: Option<(Stream, seq<byte>)>)
    requires s.Valid() && |sizes| == |whole|
    ensures r.Some? ==> r.value.0.Valid()
  {
    if sizes == [] then Some((s, []))
    else
      var k := |sizes| - 1;
      var before := Replay(s, sizes[..k], whole[..k]);
      if before.None? then None
      else
        var (t, r) := Do(before.value.0, Get(sizes[k], whole[k]));
        if r.status.Ok? && |r.bytes| == sizes[k] then Some((t, before.value.1 + r.bytes)) else None
  }

  lemma ServedInside(s: Stream, n: nat, whole: bool)
    requires s.Valid() && s.phase.Attached? && s.cursor + n < s.phase.fragStart
    ensures s.cursor + n <= |s.fed| && Do(s, Get(n, whole)) == Grant(s, n)
  {
  }

  lemma Glued(fed: seq<byte>, a: nat, b: nat, c: nat)
    requires a <= b <= c <= |fed|
    ensures fed[a..b] + fed[b..c] == fed[a..c]
  {
  }

  lemma {:induction false} ReplayInsideBlock(s: Stream, sizes: seq<nat>, whole: seq<bool>)
    requires s.Valid() && |sizes| == |whole|
    requires s.phase.Attached? && s.cursor + Sum(sizes) < s.phase.fragStart
    ensures Replay(s, sizes, whole).Some?
    ensures var (t, bytes) := Replay(s, sizes, whole).value;
            && t == s.(cursor := s.cursor + Sum(sizes), phase := t.phase)
            && t.phase == s.phase.(pending := t.phase.pending)
            && bytes == s.fed[s.cursor..t.cursor]
    decreases |sizes|
  {
    hide Do;
    if sizes != [] {
      var k := |sizes| - 1;
      ReplayInsideBlock(s, sizes[..k], whole[..k]);
      var (u, _) := Replay(s, sizes[..k], whole[..k]).value;
      ServedInside(u, sizes[k], whole[k]);
      Glued(s.fed, s.cursor, u.cursor, u.cursor + sizes[k]);
    }
  }

  lemma ReplayFrom(s: Stream, l: Log, frags: seq<seq<byte>>, whole: seq<bool>)
    requires s.Valid() && Agrees(s, l) && Do(s, Reclaim).1.paused
    requires Do(s, Reclaim).0.phase.missing <= Total(frags)
    requires |whole| == |l.sizes|
    ensures var t := FeedAll(Do(s, Reclaim).0, frags);
            && s.fed <= t.fed
            && Replay(t, l.sizes, whole).Some?
            && var (u, again) := Replay(t, l.sizes, whole).value;
               && again == l.tentative && u.fed == t.fed && u.cursor == s.cursor
               && u.phase.Attached? && s.cursor < u.phase.fragStart
               && u.phase.joined == s.cursor + l.wanted
  {
    var p := Do(s, Reclaim).0;
    FeedAllAttaches(p, frags);
    var t := FeedAll(p, frags);
    ReplayInsideBlock(t, l.sizes, whole);
    assert t.fed[s.mark..s.cursor] == s.fed[s.mark..s.cursor];
  }

  // The reclaim pauses, and the fragments fed afterwards hold what is missing.
  predicate PausesAndRefills(s: Stream, frags: seq<seq<byte>>)
    requires s.Valid()
  {
    var (p, r) := Do(s, Reclaim);
    r.paused && p.phase.missing <= Total(frags)
  }

  // After that, the granted sizes and then the refused one are all served: with
  // the bytes seen before, and with the requested ones in one piece.
  predicate Resumes(s: Stream, l: Log, frags: seq<seq<byte>>, whole: seq<bool>, last: bool)
    requires s.Valid() && |whole| == |l.sizes|
  {
    var t := FeedAll(Do(s, Reclaim).0, frags);
    && l.sent <= t.fed
    && Replay(t, l.sizes, whole).Some?
    && var (u, again) := Replay(t, l.sizes, whole).value;
       var r := Do(u, Get(l.wanted, last)).1;
       && again == l.tentative
       && r.status.Ok? && |r.bytes| == l.wanted
       && l.committed + again + r.bytes <= t.fed
  }

  lemma ResumesFrom(s: Stream, l: Log, frags: seq<seq<byte>>, whole: seq<bool>, last: bool)
    requires s.Valid() && Agrees(s, l) && PausesAndRefills(s, frags) && |whole| == |l.sizes|
    ensures Resumes(s, l, frags, whole, last)
  {
    hide Replay, FeedAll, DoCommit, Sum;
    ReplayFrom(s, l, frags, whole);
    var t := FeedAll(Do(s, Reclaim).0, frags);
    assert l.committed + l.tentative == s.fed[..s.cursor] == t.fed[..s.cursor];
    assert t.fed[..s.cursor] + t.fed[s.cursor..s.cursor + l.wanted] == t.fed[..s.cursor + l.wanted];
  }

  /** The replay guarantee.  Take any run that ends with a refused request on
      record, let the reclaim pause, then feed at least the missing bytes, in
      fragments of any sizes.  Repeating the granted sizes and then the refused
      one is never answered with "inconsistent" or "out of data". */
  lemma ReplayGuarantee(cap: Option<nat>, calls: seq<Call>, frags: seq<seq<byte>>, whole: seq<bool>, last: bool)
    requires var (s, l) := Start(cap, calls); PausesAndRefills(s, frags) && |whole| == |l.sizes|
    ensures var (s, l) := Start(cap, calls); Resumes(s, l, frags, whole, last)
  {
    var (s, l) := Start(cap, calls);
    RunAgrees(Init(cap), Log([], [], [], [], 0), calls);
    ResumesFrom(s, l, frags, whole, last);
  }
}
