/**
 Every answer of the reader, told from the calls and replies so far alone: what an
 observer has written down decides what the next call answers.
 */
module ReaderAnswers {
  import opened Basics
  import opened ReaderSpec

  // `attached`: a feed has been accepted in full since the last reclaim that answered
  // Ok.  `from` is where its fragment began in the stream and `block` where the bytes
  // end that lie in one piece before and into it.  `short` is how much the last
  // refused get found missing, `missing` what feeds have still to bring after a pause.
  datatype Seen = Seen(log: Log, attached: bool, from: int, block: int, short: int, missing: int) {
    function Read(): nat {
      |log.committed| + |log.tentative|
    }

    function Left(): int {
      |log.sent| - Read()
    }
  }

  const Nothing := Seen(Log([], [], [], [], 0), false, 0, 0, 0, 0)

  function See(x: Seen, c: Call, r: Reply): Seen {
    var y := x.(log := Note(x.log, c, r));
    match r.status
    case NeedMore => if c.Feed? && c.frag.Some? then y.(missing := x.missing - |c.frag.value|) else y
    case OutOfData => if c.Get? && x.Left() > 0 then y.(short := c.desired - x.Left()) else y
    case TooSmall => y.(short := 0)
    case Ok =>
      (match c
       case Feed(_) => y.(attached := true, from := |x.log.sent|, block := |x.log.sent| + x.missing, short := 0, missing := 0)
       case Get(_, _) => y.(short := 0)
       case Commit => y
       case Reclaim => y.(attached := false, short := 0, missing := if r.paused then x.short else 0))
    case _ => y
  }

  function Watch(s: Stream, x: Seen, calls: seq<Call>): (r: (Stream, Seen))
    requires s.Valid()
    ensures r.0.Valid() && r.0.cap == s.cap
    decreases |calls|
  {
    if calls == [] then (s, x)
    else
      var (t, reply) := Do(s, calls[0]);
      Watch(t, See(x, calls[0], reply), calls[1..])
  }

  // What the observer wrote down is where the reader is.
  ghost predicate Sees(s: Stream, x: Seen)
    requires s.Valid()
  {
    && Agrees(s, x.log) && x.attached == s.phase.Attached?
    && (if s.phase.Attached? then x.from == s.phase.fragStart && x.block == s.phase.joined && x.short == s.phase.pending
        else x.missing == s.phase.missing && x.short == 0)
  }

  // -------------------------------------------------------------------------
  // The answers

  /** A feed: a missing fragment is an error, a second one before a reclaim is refused,
      and otherwise it is all accepted; it completes the feeding exactly when it brings
      all that is missing. */
  ghost predicate FeedAnswer(x: Seen, frag: Option<seq<byte>>, r: Reply) {
    && (r.status == InvalidArg <==> frag.None?)
    && (r.status == Unexpected <==> frag.Some? && x.attached)
    && (r.status == NeedMore <==> frag.Some? && !x.attached && |frag.value| < x.missing)
    && (r.status == Ok <==> frag.Some? && !x.attached && |frag.value| >= x.missing)
  }

  /** A get.  While bytes before the fragment are read again, it may end before the
      fragment or at the end of the block that was saved, nowhere else; from the
      fragment on it is granted up to what is left, the rest being refused unless a
      short answer will do. */
  ghost predicate GetAnswer(x: Seen, desired: nat, whole: bool, r: Reply) {
    var to := x.Read() + desired;
    var again := x.attached && x.Read() < x.from;
    && (r.status == Unexpected <==> !x.attached)
    && (r.status == Inconsistent <==> again && to > x.from && to != x.block)
    && (r.status == OutOfData <==> x.attached && !again && desired > x.Left() && whole)
    && (r.status == Ok <==> x.attached && (if again then to <= x.from || to == x.block else desired <= x.Left() || !whole))
    && (r.status == Ok ==>
          && |r.bytes| == (if again || desired <= x.Left() then desired else x.Left())
          && x.log.committed + x.log.tentative + r.bytes <= x.log.sent)
  }

  /** A commit succeeds exactly while a fragment is attached, and then everything that
      was fetched is committed. */
  ghost predicate CommitAnswer(x: Seen, r: Reply) {
    && (r.status == Ok <==> x.attached)
    && (r.status == Unexpected <==> !x.attached)
    && See(x, Commit, r).log.committed == x.log.committed + (if x.attached then x.log.tentative else [])
  }

  /** A reclaim.  Without a shortfall on record it ends the fragment exactly if all that
      was sent is committed; with one it pauses exactly if there is an accumulator that
      holds what is not committed and what is missing. */
  ghost predicate ReclaimAnswer(x: Seen, cap: Option<nat>, r: Reply) {
    var rest := |x.log.sent| - |x.log.committed|;
    && (r.status == Unexpected <==> !x.attached)
    && (r.status == DataLeft <==> x.attached && x.short == 0 && rest > 0)
    && (r.status == NeedAccumulator <==> x.attached && x.short > 0 && cap.None?)
    && (r.status == TooSmall <==> x.attached && x.short > 0 && cap.Some? && rest + x.short > cap.value)
    && (r.status == Ok && !r.paused <==> x.attached && x.short == 0 && rest == 0)
    && (r.status == Ok && r.paused <==> x.attached && x.short > 0 && cap.Some? && rest + x.short <= cap.value)
  }

  ghost predicate Expected(x: Seen, cap: Option<nat>, c: Call, r: Reply) {
    match c
    case Feed(frag) => FeedAnswer(x, frag, r)
    case Get(desired, whole) => GetAnswer(x, desired, whole, r)
    case Commit => CommitAnswer(x, r)
    case Reclaim => ReclaimAnswer(x, cap, r)
  }

  // -------------------------------------------------------------------------

  lemma GetExpected(s: Stream, x: Seen, desired: nat, whole: bool)
    requires s.Valid() && Sees(s, x)
    ensures GetAnswer(x, desired, whole, Do(s, Get(desired, whole)).1)
  {
    var (t, r) := Do(s, Get(desired, whole));
    NextBytes(s, desired, whole);
    assert x.log.committed + x.log.tentative == s.fed[..s.cursor];
  }

  lemma StepExpected(s: Stream, x: Seen, c: Call)
    requires s.Valid() && Sees(s, x)
    ensures Expected(x, s.cap, c, Do(s, c).1)
  {
    match c
    case Get(desired, whole) => GetExpected(s, x, desired, whole);
    case _ =>
  }

  lemma StepSees(s: Stream, x: Seen, c: Call)
    requires s.Valid() && Sees(s, x)
    ensures var (t, r) := Do(s, c); Sees(t, See(x, c, r))
  {
    StepAgrees(s, x.log, c);
    Sizes(s, x.log);
    hide Agrees, Note;
    match c
    case Get(desired, whole) => GetSees(s, x, desired, whole);
    case _ =>
  }

  lemma GetSees(s: Stream, x: Seen, desired: nat, whole: bool)
    requires s.Valid() && Sees(s, x) && Agrees(Do(s, Get(desired, whole)).0, Note(x.log, Get(desired, whole), Do(s, Get(desired, whole)).1))
    ensures var (t, r) := Do(s, Get(desired, whole)); Sees(t, See(x, Get(desired, whole), r))
  {
    Sizes(s, x.log);
    hide Agrees, Note;
  }

  lemma Sizes(s: Stream, l: Log)
    requires s.Valid() && Agrees(s, l)
    ensures |l.sent| == |s.fed| && |l.committed| == s.mark && |l.committed| + |l.tentative| == s.cursor
  {
  }

  lemma SeesLog(x: Seen, c: Call, r: Reply)
    ensures See(x, c, r).log == Note(x.log, c, r)
  {
  }

  lemma {:induction false} WatchSees(s: Stream, x: Seen, calls: seq<Call>)
    requires s.Valid() && Sees(s, x)
    ensures var (t, y) := Watch(s, x, calls); Sees(t, y)
    ensures var (t, y) := Watch(s, x, calls); (t, y.log) == Run(s, x.log, calls)
    decreases |calls|
  {
    hide Sees, See, Do;
    if calls != [] {
      StepSees(s, x, calls[0]);
      SeesLog(x, calls[0], Do(s, calls[0]).1);
      var (t, r) := Do(s, calls[0]);
      WatchSees(t, See(x, calls[0], r), calls[1..]);
    }
  }

  lemma NothingSeen(cap: Option<nat>)
    ensures Sees(Init(cap), Nothing) && Nothing.log == Log([], [], [], [], 0)
  {
  }

  /** After any run, each call answers exactly as the calls and replies so far demand. */
  lemma AnswersExactly(cap: Option<nat>, calls: seq<Call>, c: Call)
    ensures var (s, x) := Watch(Init(cap), Nothing, calls);
            s == Start(cap, calls).0 && x.log == Start(cap, calls).1 && Expected(x, cap, c, Do(s, c).1)
  {
    hide Watch, Run, Do, Expected, Sees, Init;
    NothingSeen(cap);
    WatchSees(Init(cap), Nothing, calls);
    var (s, x) := Watch(Init(cap), Nothing, calls);
    assert s.cap == Init(cap).cap == cap by { FreshCap(cap); }
    StepExpected(s, x, c);
  }

  lemma FreshCap(cap: Option<nat>)
    ensures Init(cap).cap == cap
  {
  }

  /** The reader moves on: when all that was sent has been fetched and no get has fallen
      short, a commit and a reclaim end the fragment, and the next feed is accepted. */
  lemma CommittedFragmentEnds(cap: Option<nat>, calls: seq<Call>, frag: seq<byte>)
    ensures var (s, x) := Watch(Init(cap), Nothing, calls);
            x.attached && x.short == 0 && x.Left() == 0 ==> Ends(s, frag)
  {
    hide Watch, Sees, Init, Ends;
    NothingSeen(cap);
    WatchSees(Init(cap), Nothing, calls);
    var (s, x) := Watch(Init(cap), Nothing, calls);
    if x.attached && x.short == 0 && x.Left() == 0 {
      AllReadEnds(s, x, frag);
    }
  }

  ghost predicate Ends(s: Stream, frag: seq<byte>)
    requires s.Valid()
  {
    var (t, committed) := Do(s, Commit);
    var (u, reclaimed) := Do(t, Reclaim);
    var (v, fed) := Do(u, Feed(Some(frag)));
    && committed.status == Ok && reclaimed == Reply(Ok, [], false) && fed.status == Ok
    && v.fed == s.fed + frag && v.mark == v.cursor == |s.fed|
  }

  lemma AllReadEnds(s: Stream, x: Seen, frag: seq<byte>)
    requires s.Valid() && Sees(s, x) && x.attached && x.short == 0 && x.Left() == 0
    ensures Ends(s, frag)
  {
    Sizes(s, x.log);
    hide Agrees;
  }
}
