/**
 The MPS reader itself: a borrowed fragment, an accumulator that may hold a
 prefix of the stream in front of it, and one shared field whose meaning depends
 on the mode.  Every method is proved against the abstract stream machine.
 */
module Reader {
  import opened Basics
  import opened ReaderSpec

  // Sizes are of type size_t; sums of sizes wrap around.
  const SIZE_MOD: nat := 0x1_0000_0000_0000_0000

  function WrapAdd(a: nat, b: nat): nat {
    (a + b) % SIZE_MOD
  }

  // -------------------------------------------------------------------------
  // How the buffers represent a stream.  `Buffers` is a snapshot of the reader's
  // fields; `share` is the missing amount while producing and the offset of the
  // fragment while consuming.

  datatype Buffers = Buffers(frag: Option<seq<byte>>, commit: nat, end: nat, pending: nat,
                             acc: Option<seq<byte>>, available: nat, share: nat)
  {
    function Offset(): nat {
      if acc.None? then 0 else share
    }

    function Capacity(): nat {
      if acc.None? then 0 else |acc.value|
    }
  }

  // `base` is the stream position of offset 0.
  predicate Represents(b: Buffers, m: Stream, base: nat) {
    && m.Valid()
    && m.cap == (if b.acc.None? then None else Some(|b.acc.value|))
    && b.Capacity() < SIZE_MOD
    && AccHolds(b, m.fed, base)
    && (if b.frag.None? then Producing(b, m, base) else Consuming(b, m, base))
  }

  predicate AccHolds(b: Buffers, fed: seq<byte>, base: nat) {
    && base + b.available <= |fed|
    && (if b.acc.None? then b.available == 0
        else b.available <= |b.acc.value| && b.acc.value[..b.available] == fed[base..base + b.available])
  }

  predicate Producing(b: Buffers, m: Stream, base: nat) {
    && b.commit == b.end == b.pending == 0
    && base == m.mark
    && base + b.available == |m.fed|
    && m.phase == Waiting(b.Offset())
  }

  predicate Consuming(b: Buffers, m: Stream, base: nat)
    requires b.frag.Some?
  {
    && |b.frag.value| + b.Capacity() < SIZE_MOD
    && b.pending < SIZE_MOD
    && base + b.commit == m.mark
    && base + b.end == m.cursor
    && base + b.Offset() + |b.frag.value| == |m.fed|
    && b.frag.value == m.fed[base + b.Offset()..]
    && m.phase == Attached(base + b.Offset(), base + b.available, b.pending)
  }

  lemma Slice(a: seq<byte>, k: nat, from: nat, to: nat)
    requires from <= to <= k <= |a|
    ensures a[..k][from..to] == a[from..to]
  {
  }

  lemma Inner(a: seq<byte>, fed: seq<byte>, at: nat, from: nat, n: nat)
    requires at + |a| <= |fed| && a == fed[at..at + |a|] && from + n <= |a|
    ensures a[from..from + n] == fed[at + from..at + from + n]
  {
    var b := a[from..from + n];
    forall i | 0 <= i < |b|
      ensures b[i] == fed[at + from..at + from + n][i]
    {
      assert a[from + i] == fed[at..at + |a|][from + i];
    }
  }

  lemma Joined(a: seq<byte>, k: nat, fed: seq<byte>, from: nat)
    requires k <= |a| && from + |a| <= |fed|
    requires a[..k] == fed[from..from + k] && a[k..] == fed[from + k..from + |a|]
    ensures a == fed[from..from + |a|]
  {
    assert a == a[..k] + a[k..];
    assert fed[from..from + |a|] == fed[from..from + k] + fed[from + k..from + |a|];
  }

  // Bytes copied behind those of the stream's end are those of the longer stream.
  lemma Copied(acc: seq<byte>, k: nat, fed: seq<byte>, base: nat, frag: seq<byte>, n: nat)
    requires k + n <= |acc| && n <= |frag| && base + k == |fed|
    requires acc[..k] == fed[base..base + k] && acc[k..k + n] == frag[..n]
    ensures acc[..k + n] == (fed + frag)[base..base + k + n]
  {
    assert acc[..k + n] == acc[..k] + acc[k..k + n];
    assert (fed + frag)[base..base + k + n] == fed[base..] + frag[..n];
    assert fed[base..base + k] == fed[base..];
  }

  // What the accumulating half of Feed leaves behind.
  lemma AccumulateRepresents(b: Buffers, m: Stream, base: nat, frag: seq<byte>, acc: seq<byte>, n: nat)
    requires Represents(b, m, base) && b.frag.None? && b.acc.Some? && b.share > 0
    requires |frag| + b.Capacity() < SIZE_MOD && |acc| == b.Capacity()
    requires n == if b.share <= |frag| then b.share else |frag|
    requires b.available + n <= |acc|
    requires acc[..b.available] == b.acc.value[..b.available] && acc[b.available..b.available + n] == frag[..n]
    ensures var t := DoFeed(m, Some(frag)).0;
            if |frag| < b.share
            then Represents(b.(acc := Some(acc), available := b.available + n, share := b.share - n), t, base)
            else Represents(Buffers(Some(frag), 0, 0, 0, Some(acc), b.available + n, b.available), t, base)
  {
    hide DoCommit, DoGet, Grant, DoReclaim;
    Copied(acc, b.available, m.fed, base, frag, n);
    var t := DoFeed(m, Some(frag)).0;
    assert t.fed == m.fed + frag;
    if |frag| < b.share {
      var c := b.(acc := Some(acc), available := b.available + n, share := b.share - n);
      assert AccHolds(c, t.fed, base);
      assert Producing(c, t, base);
    } else {
      var c := Buffers(Some(frag), 0, 0, 0, Some(acc), b.available + n, b.available);
      assert AccHolds(c, t.fed, base);
      assert frag == t.fed[base + b.available..];
      assert Consuming(c, t, base);
    }
  }

  lemma FeedRepresents(b: Buffers, m: Stream, base: nat, frag: seq<byte>)
    requires Represents(b, m, base) && b.frag.None? && (b.acc.None? || b.share == 0)
    requires |frag| + b.Capacity() < SIZE_MOD
    ensures Represents(Buffers(Some(frag), 0, 0, 0, b.acc, b.available, 0), DoFeed(m, Some(frag)).0, base)
  {
    var t := Do(m, Feed(Some(frag))).0;
    assert t.fed[base..base + b.available] == m.fed[base..base + b.available];
  }

  // What the buffers say about the phase of the stream, and their bounds.
  lemma Readable(b: Buffers, m: Stream, base: nat)
    requires Represents(b, m, base)
    ensures m.Valid() && b.available <= b.Capacity() < SIZE_MOD
    ensures b.frag.Some? ==> m.phase.Attached? && b.pending < SIZE_MOD && |b.frag.value| + b.Capacity() < SIZE_MOD
    ensures b.frag.None? ==> m.phase == Waiting(b.Offset()) && b.pending == 0
    ensures b.frag.None? && b.acc.Some? && b.share > 0 ==> b.available + b.share <= b.Capacity()
  {
  }

  // A reclaim that does not pause: what it answers, and the reader it leaves.
  lemma ReclaimRepresents(b: Buffers, m: Stream, base: nat)
    requires Represents(b, m, base)
    ensures var (t, r) := DoReclaim(m);
            if b.frag.None? then (t, r) == (m, Reply(Unexpected, [], false))
            else if b.pending > 0 then
              && (b.acc.None? ==> (t, r) == (m, Reply(NeedAccumulator, [], false)))
              && (b.acc.Some? && |m.fed| - m.mark + b.pending <= b.Capacity() ==> r == Reply(Ok, [], true))
            else if b.commit < b.Offset() || b.commit - b.Offset() < |b.frag.value| then
              r == Reply(DataLeft, [], false) && Represents(b.(end := b.commit), t, base)
            else r == Reply(Ok, [], false) && Represents(Buffers(None, 0, 0, 0, b.acc, 0, 0), t, m.mark)
  {
  }

  // A granted request leaves the reader with its end moved on.
  lemma GrantRepresents(b: Buffers, m: Stream, base: nat, n: nat)
    requires Represents(b, m, base) && b.frag.Some? && b.end + n <= b.Offset() + |b.frag.value|
    ensures m.cursor + n <= |m.fed|
    ensures Represents(b.(end := b.end + n, pending := 0), Grant(m, n).0, base)
  {
  }

  predicate AccServes(b: Buffers, desired: nat) {
    b.Offset() - b.end >= desired || b.available - b.end == desired
  }

  lemma GetFromAccRepresents(b: Buffers, m: Stream, base: nat, desired: nat, whole: bool)
    requires Represents(b, m, base) && b.frag.Some? && b.end < b.Offset()
    ensures if !AccServes(b, desired) then DoGet(m, desired, whole) == (m, Reply(Inconsistent, [], false))
            else
              && b.end + desired <= b.available <= b.Capacity()
              && var (t, r) := DoGet(m, desired, whole);
                 && Represents(b.(end := b.end + desired, pending := 0), t, base)
                 && r == Reply(Ok, b.acc.value[b.end..b.end + desired], false)
  {
    hide Producing;
    if AccServes(b, desired) {
      GrantRepresents(b, m, base, desired);
      Inner(b.acc.value[..b.available], m.fed, base, b.end, desired);
      Slice(b.acc.value, b.available, b.end, b.end + desired);
    }
  }

  lemma GrantFromFragment(b: Buffers, m: Stream, base: nat, n: nat)
    requires Represents(b, m, base) && b.frag.Some? && b.Offset() <= b.end
    requires b.end - b.Offset() + n <= |b.frag.value|
    ensures m.cursor + n <= |m.fed|
    ensures var fetched := b.end - b.Offset();
            && Represents(b.(end := b.end + n, pending := 0), Grant(m, n).0, base)
            && Grant(m, n).1 == Reply(Ok, b.frag.value[fetched..fetched + n], false)
  {
    GrantRepresents(b, m, base, n);
    Inner(b.frag.value, m.fed, base + b.Offset(), b.end - b.Offset(), n);
  }

  lemma FragmentRequest(b: Buffers, m: Stream, base: nat, desired: nat, whole: bool)
    requires Represents(b, m, base) && b.frag.Some? && b.Offset() <= b.end && desired < SIZE_MOD
    ensures b.end - b.Offset() <= |b.frag.value|
    ensures var left := |b.frag.value| - (b.end - b.Offset());
            && left == |m.fed| - m.cursor
            && if desired <= left then DoGet(m, desired, whole) == Grant(m, desired)
               else if !whole then DoGet(m, desired, whole) == Grant(m, left)
               else
                 && Represents(b.(pending := if left > 0 then desired - left else b.pending),
                               DoGet(m, desired, whole).0, base)
                 && DoGet(m, desired, whole).1 == Reply(OutOfData, [], false)
  {
  }

  // A pausing reclaim: the two saved pieces are the stream from the mark on.
  lemma SavedBytes(b: Buffers, m: Stream, base: nat, accFrom: nat, accLen: nat, fragFrom: nat, fragLen: nat)
    requires Represents(b, m, base) && b.frag.Some? && b.acc.Some?
    requires BackupOf(b, accFrom, accLen, fragFrom, fragLen)
    ensures m.mark + accLen + fragLen == |m.fed|
    ensures accLen > 0 ==> b.acc.value[accFrom..accFrom + accLen] == m.fed[m.mark..m.mark + accLen]
    ensures b.frag.value[fragFrom..fragFrom + fragLen] == m.fed[m.mark + accLen..]
  {
    var start := base + b.Offset();
    assert start + fragFrom == m.mark + accLen && start + |b.frag.value| == |m.fed|;
    if accLen > 0 {
      assert base + accFrom == m.mark;
      Inner(b.acc.value[..b.available], m.fed, base, accFrom, accLen);
      Slice(b.acc.value, b.available, accFrom, accFrom + accLen);
    }
    assert m.fed[start..] == m.fed[start..start + |b.frag.value|];
    Inner(b.frag.value, m.fed, start, fragFrom, fragLen);
  }

  lemma PauseRepresents(b: Buffers, m: Stream, base: nat, acc: seq<byte>, accFrom: nat, accLen: nat, fragFrom: nat, fragLen: nat)
    requires Represents(b, m, base) && b.frag.Some? && b.acc.Some? && b.pending > 0
    requires BackupOf(b, accFrom, accLen, fragFrom, fragLen)
    requires |acc| == b.Capacity() && accLen + fragLen + b.pending <= |acc|
    requires acc[..accLen] == b.acc.value[accFrom..accFrom + accLen]
    requires acc[accLen..accLen + fragLen] == b.frag.value[fragFrom..fragFrom + fragLen]
    ensures Represents(Buffers(None, 0, 0, 0, Some(acc), accLen + fragLen, b.pending), DoReclaim(m).0, m.mark)
  {
    hide BackupOf;
    SavedBytes(b, m, base, accFrom, accLen, fragFrom, fragLen);
    var a := acc[..accLen + fragLen];
    Slice(acc, accLen + fragLen, 0, accLen);
    Slice(acc, accLen + fragLen, accLen, accLen + fragLen);
    Joined(a, accLen, m.fed, m.mark);
    var t := Do(m, ReaderSpec.Reclaim).0;
  }

  lemma RefusedRepresents(b: Buffers, m: Stream, base: nat)
    requires Represents(b, m, base) && b.frag.Some? && b.acc.Some? && b.pending > 0
    requires b.Capacity() < |m.fed| - m.mark + b.pending
    ensures Represents(b.(end := b.commit, pending := 0), DoReclaim(m).0, base)
    ensures DoReclaim(m).1 == Reply(TooSmall, [], false)
  {
  }

  // Which parts of accumulator and fragment follow the commit mark.
  predicate BackupOf(b: Buffers, accFrom: nat, accLen: nat, fragFrom: nat, fragLen: nat)
    requires b.frag.Some? && b.acc.Some?
  {
    && accFrom + accLen <= b.available <= |b.acc.value|
    && fragFrom + fragLen == |b.frag.value|
    && (if b.commit < b.Offset() then accFrom == b.commit && accFrom + accLen == b.Offset() && fragFrom == 0
        else accLen == 0 && fragFrom == b.commit - b.Offset())
  }

  /** The wrapped sums together with the two wrap-around checks decide exactly the
      comparison of the true sizes, whatever `pending` is. */
  lemma WrapChecksExact(accBackup: nat, fragBackup: nat, pending: nat, accLen: nat)
    requires accBackup + fragBackup < SIZE_MOD && pending < SIZE_MOD && accLen < SIZE_MOD
    ensures var backup := WrapAdd(accBackup, fragBackup);
            var needed := WrapAdd(backup, pending);
            && backup == accBackup + fragBackup
            && ((backup < accBackup || needed < backup || accLen < needed)
                <==> accLen < accBackup + fragBackup + pending)
  {
    var backup := accBackup + fragBackup;
    if backup + pending >= SIZE_MOD {
      assert WrapAdd(backup, pending) == backup + pending - SIZE_MOD;
    }
  }

  // -------------------------------------------------------------------------
  // The reader

  method Memcpy(dst: array<byte>, at: nat, src: array<byte>, from: nat, n: nat)
    requires dst != src && at + n <= dst.Length && from + n <= src.Length
    modifies dst
    ensures dst[at..at + n] == src[from..from + n]
    ensures dst[..at] == old(dst[..at])
  {
    forall i | 0 <= i < n {
      dst[at + i] := src[from + i];
    }
  }

  method MoveToFront(buf: array<byte>, from: nat, n: nat)
    requires from + n <= buf.Length
    modifies buf
    ensures buf[..n] == old(buf[from..from + n])
  {
    forall i | 0 <= i < n {
      buf[i] := buf[from + i];
    }
  }

  class Reader {
    var frag: array?<byte>
    var fragLen: nat
    var commit: nat
    var end: nat
    var pending: nat
    var acc: array?<byte>
    var accLen: nat
    var accAvailable: nat
    var accShare: nat  // accRemaining while producing, fragOffset while consuming

    ghost var model: Stream
    ghost var base: nat

    ghost predicate Shape()
      reads this
    {
      && (acc != null ==> accLen <= acc.Length)
      && (if frag == null then fragLen == 0 else fragLen <= frag.Length && frag != acc)
    }

    ghost function View(): Buffers
      requires Shape()
      reads this, frag, acc
    {
      Buffers(if frag == null then None else Some(frag[..fragLen]), commit, end, pending,
              if acc == null then None else Some(acc[..accLen]), accAvailable, accShare)
    }

    ghost predicate Valid()
      reads this, frag, acc
    {
      Shape() && Represents(View(), model, base)
    }

    predicate IsAccumulating()
      reads this
    {
      acc != null && accShare > 0
    }

    function FragOffset(): nat
      reads this
    {
      if acc == null then 0 else accShare
    }

    predicate ServingFromAccumulator()
      reads this
    {
      end < FragOffset()
    }

    constructor (acc: array?<byte>, accLen: nat)
      requires acc != null ==> accLen <= acc.Length && accLen < SIZE_MOD
      ensures Valid() && this.acc == acc && this.accLen == accLen && frag == null
      ensures model == Init(if acc == null then None else Some(accLen))
    {
      frag, fragLen, commit, end, pending := null, 0, 0, 0, 0;
      accAvailable, accShare := 0, 0;
      this.acc, this.accLen := acc, accLen;
      model := Init(if acc == null then None else Some(accLen));
      base := 0;
    }

    method Feed(newFrag: array?<byte>, newFragLen: nat) returns (rc: Status)
      requires Valid()
      requires newFrag != null ==>
                 && newFragLen <= newFrag.Length && newFrag != acc
                 && newFragLen + (if acc == null then 0 else accLen) < SIZE_MOD
      modifies this, acc
      ensures Valid() && acc == old(acc) && accLen == old(accLen)
      ensures frag == old(frag) || frag == newFrag
      ensures (model, Reply(rc, [], false))
           == DoFeed(old(model), if newFrag == null then None else Some(newFrag[..newFragLen]))
    {
      if newFrag == null {
        return InvalidArg;
      }
      if frag != null {
        return Unexpected;
      }
      if IsAccumulating() {
        rc := Accumulate(newFrag, newFragLen);
        return;
      }
      FeedRepresents(View(), model, base, newFrag[..newFragLen]);
      Attach(newFrag, newFragLen, accAvailable, 0, DoFeed(model, Some(newFrag[..newFragLen])).0);
      return Ok;
    }

    // The accumulating case of Feed: the missing bytes go into the accumulator.
    method Accumulate(newFrag: array<byte>, newFragLen: nat) returns (rc: Status)
      requires Valid() && frag == null && IsAccumulating()
      requires newFragLen <= newFrag.Length && newFrag != acc && accLen + newFragLen < SIZE_MOD
      modifies this, acc
      ensures Valid() && acc == old(acc) && accLen == old(accLen)
      ensures frag == null || frag == newFrag
      ensures (model, Reply(rc, [], false)) == DoFeed(old(model), Some(newFrag[..newFragLen]))
    {
      hide Represents;
      Readable(View(), model, base);
      ghost var view := View();
      var accRemaining := accShare;
      var copyToAcc := accRemaining;
      if copyToAcc > newFragLen {
        copyToAcc := newFragLen;
      }
      CopyIn(newFrag, newFragLen, copyToAcc);
      AccumulateRepresents(view, model, base, newFrag[..newFragLen], acc[..accLen], copyToAcc);
      ghost var next := DoFeed(model, Some(newFrag[..newFragLen])).0;
      accRemaining := accRemaining - copyToAcc;
      if accRemaining > 0 {
        accAvailable := accAvailable + copyToAcc;
        accShare := accRemaining;
        model := next;
        assert View() == view.(acc := Some(acc[..accLen]), available := accAvailable, share := accShare);
        return NeedMore;
      }
      Attach(newFrag, newFragLen, accAvailable + copyToAcc, accAvailable, next);
      return Ok;
    }

    // The stores at the end of a successful feed.
    method Attach(newFrag: array<byte>, newFragLen: nat, available: nat, offset: nat, ghost next: Stream)
      requires Shape() && newFragLen <= newFrag.Length && newFrag != acc && pending == 0
      requires Represents(Buffers(Some(newFrag[..newFragLen]), 0, 0, 0,
                                  if acc == null then None else Some(acc[..accLen]), available, offset),
                          next, base)
      modifies this
      ensures Valid() && model == next && acc == old(acc) && accLen == old(accLen) && frag == newFrag
    {
      accShare := offset;
      accAvailable := available;
      frag, fragLen := newFrag, newFragLen;
      commit, end := 0, 0;
      model := next;
      assert View() == Buffers(Some(newFrag[..newFragLen]), 0, 0, 0,
                               if acc == null then None else Some(acc[..accLen]), available, offset);
    }

    method CopyIn(newFrag: array<byte>, newFragLen: nat, n: nat)
      requires Shape() && acc != null && newFrag != acc
      requires accAvailable + n <= accLen && n <= newFragLen <= newFrag.Length
      modifies acc
      ensures acc[..accLen][..accAvailable] == old(acc[..accLen])[..accAvailable]
      ensures acc[..accLen][accAvailable..accAvailable + n] == newFrag[..newFragLen][..n]
    {
      ghost var before := acc[..];
      Memcpy(acc, accAvailable, newFrag, 0, n);
      Slice(before, accLen, 0, accAvailable);
      Slice(acc[..], accLen, 0, accAvailable);
      Slice(acc[..], accLen, accAvailable, accAvailable + n);
      Slice(newFrag[..], newFragLen, 0, n);
    }

    // A successful get hands out buffer[offset..offset + length].  `whole` stands
    // for a null length pointer: a shorter answer is not acceptable.
    method Get(desired: nat, whole: bool) returns (rc: Status, buffer: array?<byte>, offset: nat, length: nat)
      requires Valid() && desired < SIZE_MOD
      modifies this`end, this`pending, this`model
      ensures Valid()
      ensures var (t, r) := DoGet(old(model), desired, whole);
              && model == t && rc == r.status
              && (rc.Ok? ==>
                    && (buffer == acc || buffer == frag)
                    && buffer != null && offset + length <= buffer.Length
                    && buffer[offset..offset + length] == r.bytes)
    {
      hide Grant;
      if frag == null {
        return Unexpected, null, 0, 0;
      }
      if ServingFromAccumulator() {
        rc, offset := GetFromAccumulator(desired, whole);
        return rc, acc, offset, desired;
      }
      rc, offset, length := GetFromFragment(desired, whole);
      return rc, frag, offset, length;
    }

    // The stores at the end of a get or of a refused reclaim.
    method SetEnd(newEnd: nat, newPending: nat, ghost next: Stream)
      requires Shape() && Represents(View().(end := newEnd, pending := newPending), next, base)
      modifies this`end, this`pending, this`model
      ensures Valid() && model == next
    {
      end := newEnd;
      pending := newPending;
      model := next;
      assert View() == old(View()).(end := newEnd, pending := newPending);
    }

    method GetFromAccumulator(desired: nat, ghost whole: bool) returns (rc: Status, offset: nat)
      requires Valid() && frag != null && ServingFromAccumulator()
      modifies this`end, this`pending, this`model
      ensures Valid()
      ensures var (t, r) := DoGet(old(model), desired, whole);
              && model == t && rc == r.status
              && (rc.Ok? ==> offset + desired <= acc.Length && acc[offset..offset + desired] == r.bytes)
    {
      hide Represents, Grant, DoGet;
      Readable(View(), model, base);
      GetFromAccRepresents(View(), model, base, desired, whole);
      if FragOffset() - end < desired {
        if accAvailable - end != desired {
          return Inconsistent, 0;
        }
      }
      offset := TakeFromAccumulator(desired, DoGet(model, desired, whole).0);
      return Ok, offset;
    }

    method TakeFromAccumulator(n: nat, ghost next: Stream) returns (offset: nat)
      requires Shape() && acc != null && end + n <= accLen && Represents(View().(end := end + n, pending := 0), next, base)
      modifies this`end, this`pending, this`model
      ensures Valid() && model == next && offset == old(end) && offset + n <= acc.Length
      ensures acc[offset..offset + n] == old(View().acc.value)[offset..offset + n]
    {
      offset := end;
      Slice(acc[..], accLen, offset, offset + n);
      SetEnd(end + n, 0, next);
    }

    method GetFromFragment(desired: nat, whole: bool) returns (rc: Status, offset: nat, length: nat)
      requires Valid() && desired < SIZE_MOD && frag != null && !ServingFromAccumulator()
      modifies this`end, this`pending, this`model
      ensures Valid()
      ensures var (t, r) := DoGet(old(model), desired, whole);
              && model == t && rc == r.status
              && (rc.Ok? ==> offset + length <= frag.Length && frag[offset..offset + length] == r.bytes)
    {
      hide Represents, Grant, DoGet;
      Readable(View(), model, base);
      FragmentRequest(View(), model, base, desired, whole);
      var fragRemaining := fragLen - (end - FragOffset());
      length := desired;
      if fragRemaining < desired {
        if whole {
          RunShort(desired, fragRemaining);
          return OutOfData, 0, 0;
        }
        length := fragRemaining;
      }
      offset := TakeFromFragment(length);
      return Ok, offset, length;
    }

    // The fragment cannot serve the whole request: remember how much is missing.
    method RunShort(desired: nat, fragRemaining: nat)
      requires Valid() && desired < SIZE_MOD && frag != null && !ServingFromAccumulator()
      requires fragRemaining == fragLen - (end - FragOffset()) < desired
      modifies this`pending, this`end, this`model
      ensures Valid() && (model, Reply(OutOfData, [], false)) == DoGet(old(model), desired, true)
    {
      FragmentRequest(View(), model, base, desired, true);
      SetEnd(end, if fragRemaining > 0 then desired - fragRemaining else pending, DoGet(model, desired, true).0);
    }

    method TakeFromFragment(n: nat) returns (offset: nat)
      requires Valid() && frag != null && FragOffset() <= end && end - FragOffset() + n <= fragLen
      modifies this`end, this`pending, this`model
      ensures Valid() && offset + n <= frag.Length
      ensures old(model.cursor) + n <= |old(model.fed)|
      ensures (model, Reply(Ok, frag[offset..offset + n], false)) == Grant(old(model), n)
    {
      hide Represents, Grant;
      Readable(View(), model, base);
      GrantFromFragment(View(), model, base, n);
      offset := end - FragOffset();
      Slice(frag[..], fragLen, offset, offset + n);
      SetEnd(end + n, 0, Grant(model, n).0);
    }

    method Commit() returns (rc: Status)
      requires Valid()
      modifies this`commit, this`model
      ensures Valid()
      ensures (model, Reply(rc, [], false)) == DoCommit(old(model))
    {
      if frag == null {
        return Unexpected;
      }
      commit := end;
      model := model.(mark := model.cursor);
      return Ok;
    }

    method Reclaim() returns (rc: Status, paused: bool)
      requires Valid()
      modifies this, acc
      ensures Valid() && acc == old(acc) && accLen == old(accLen)
      ensures frag == old(frag) || frag == null
      ensures (model, Reply(rc, [], paused)) == DoReclaim(old(model))
    {
      hide Represents, DoReclaim;
      Readable(View(), model, base);
      ReclaimRepresents(View(), model, base);
      if frag == null {
        return Unexpected, false;
      }
      if pending > 0 {
        if acc == null {
          return NeedAccumulator, false;
        }
        paused := Pause();
        return if paused then Ok else TooSmall, paused;
      }
      var fragOffset := FragOffset();
      if commit < fragOffset || commit - fragOffset < fragLen {
        SetEnd(commit, pending, DoReclaim(model).0);
        return DataLeft, false;
      }
      Detach(0, 0, DoReclaim(model).0);
      return Ok, false;
    }

    // The stores at the end of a successful reclaim.
    method Detach(available: nat, remaining: nat, ghost next: Stream)
      requires Shape()
      requires Represents(Buffers(None, 0, 0, 0, if acc == null then None else Some(acc[..accLen]), available, remaining),
                          next, model.mark)
      modifies this
      ensures Valid() && model == next && acc == old(acc) && accLen == old(accLen) && frag == null
    {
      accAvailable, accShare := available, remaining;
      frag, fragLen := null, 0;
      commit, end, pending := 0, 0, 0;
      base := model.mark;
      model := next;
      assert View() == Buffers(None, 0, 0, 0, if acc == null then None else Some(acc[..accLen]), available, remaining);
    }

    // A reclaim with a shortfall on record: saves everything after the commit
    // mark at the front of the accumulator, if that and the missing bytes fit.
    method Pause() returns (fits: bool)
      requires Valid() && frag != null && acc != null && pending > 0
      modifies this, acc
      ensures Valid() && acc == old(acc) && accLen == old(accLen)
      ensures frag == if fits then null else old(frag)
      ensures (model, Reply(if fits then Ok else TooSmall, [], fits)) == DoReclaim(old(model))
    {
      hide Represents, DoReclaim;
      Readable(View(), model, base);
      ReclaimRepresents(View(), model, base);
      ghost var view := View();
      var accFrom, accBackupLen, fragFrom, fragBackupLen := BackupPlan();
      var backupLen := WrapAdd(accBackupLen, fragBackupLen);
      var accLenNeeded := WrapAdd(backupLen, pending);
      var overflow := backupLen < accBackupLen || accLenNeeded < backupLen;
      WrapChecksExact(accBackupLen, fragBackupLen, pending, accLen);
      if overflow || accLen < accLenNeeded {
        Refuse();
        return false;
      }
      Save(accFrom, accBackupLen, fragFrom, fragBackupLen);
      PauseRepresents(view, model, base, acc[..accLen], accFrom, accBackupLen, fragFrom, fragBackupLen);
      Detach(backupLen, pending, DoReclaim(model).0);
      return true;
    }

    // The accumulator is too small: back to the last commit.
    method Refuse()
      requires Valid() && frag != null && acc != null && pending > 0 && accLen < |model.fed| - model.mark + pending
      modifies this`end, this`pending, this`model
      ensures Valid() && (model, Reply(TooSmall, [], false)) == DoReclaim(old(model))
    {
      RefusedRepresents(View(), model, base);
      SetEnd(commit, 0, DoReclaim(model).0);
    }

    method BackupPlan() returns (accFrom: nat, accBackupLen: nat, fragFrom: nat, fragBackupLen: nat)
      requires Valid() && frag != null && acc != null
      ensures BackupOf(View(), accFrom, accBackupLen, fragFrom, fragBackupLen)
      ensures accBackupLen + fragBackupLen == |model.fed| - model.mark
    {
      var fragOffset := FragOffset();
      if commit < fragOffset {
        fragFrom, fragBackupLen := 0, fragLen;
        accFrom, accBackupLen := commit, fragOffset - commit;
      } else {
        fragFrom := commit - fragOffset;
        fragBackupLen := fragLen - fragFrom;
        accFrom, accBackupLen := 0, 0;
      }
    }

    method Save(accFrom: nat, accBackupLen: nat, fragFrom: nat, fragBackupLen: nat)
      requires Shape() && frag != null && acc != null
      requires accFrom + accBackupLen <= accLen && accBackupLen + fragBackupLen <= accLen
      requires fragFrom + fragBackupLen <= fragLen
      modifies acc
      ensures acc[..accLen][..accBackupLen] == old(acc[..accLen])[accFrom..accFrom + accBackupLen]
      ensures acc[..accLen][accBackupLen..accBackupLen + fragBackupLen]
           == frag[..fragLen][fragFrom..fragFrom + fragBackupLen]
    {
      Slice(acc[..], accLen, accFrom, accFrom + accBackupLen);
      MoveToFront(acc, accFrom, accBackupLen);
      Memcpy(acc, accBackupLen, frag, fragFrom, fragBackupLen);
      Slice(acc[..], accLen, 0, accBackupLen);
      Slice(acc[..], accLen, accBackupLen, accBackupLen + fragBackupLen);
      Slice(frag[..], fragLen, fragFrom, fragFrom + fragBackupLen);
    }
  }

  // -------------------------------------------------------------------------
  // Whole runs

  predicate Fits(c: Call, accLen: nat) {
    match c
    case Feed(frag) => frag.Some? ==> |frag.value| + accLen < SIZE_MOD
    case Get(desired, _) => desired < SIZE_MOD
    case Commit => true
    case Reclaim => true
  }

  // One call on a real reader, and what it hands back.
  method Perform(r: Reader, c: Call) returns (reply: Reply)
    requires r.Valid() && Fits(c, if r.acc == null then 0 else r.accLen)
    modifies r, r.acc
    ensures r.Valid() && r.acc == old(r.acc) && r.accLen == old(r.accLen)
    ensures (r.model, reply) == Do(old(r.model), c)
  {
    hide DoCommit;
    match c
    case Feed(frag) =>
      reply := PerformFeed(r, frag);
    case Get(desired, whole) =>
      var rc, buffer, offset, length := r.Get(desired, whole);
      return Reply(rc, if rc.Ok? then buffer[offset..offset + length] else [], false);
    case Commit =>
      var rc := r.Commit();
      return Reply(rc, [], false);
    case Reclaim =>
      var rc, paused := r.Reclaim();
      return Reply(rc, [], paused);
  }

  method PerformFeed(r: Reader, frag: Option<seq<byte>>) returns (reply: Reply)
    requires r.Valid() && Fits(Feed(frag), if r.acc == null then 0 else r.accLen)
    modifies r, r.acc
    ensures r.Valid() && r.acc == old(r.acc) && r.accLen == old(r.accLen)
    ensures (r.model, reply) == DoFeed(old(r.model), frag)
  {
    var rc;
    if frag.None? {
      rc := r.Feed(null, 0);
    } else {
      var buf := new byte[|frag.value|](i requires 0 <= i < |frag.value| => frag.value[i]);
      assert buf[..buf.Length] == frag.value;
      rc := r.Feed(buf, buf.Length);
    }
    return Reply(rc, [], false);
  }

  /** Whole runs on the real reader, with its two buffers: whatever the calls,
      the observer's log is the one of the abstract stream, so the bytes handed
      out are a prefix of the bytes accepted. */
  method Drive(cap: Option<nat>, calls: seq<Call>) returns (log: Log)
    requires cap.Some? ==> cap.value < SIZE_MOD
    requires forall i :: 0 <= i < |calls| ==> Fits(calls[i], if cap.Some? then cap.value else 0)
    ensures log == Start(cap, calls).1
    ensures log.committed + log.tentative <= log.sent
  {
    var acc: array?<byte> := null;
    var accLen := 0;
    if cap.Some? {
      acc := new byte[cap.value](_ => 0);
      accLen := cap.value;
    }
    var r := new Reader(acc, accLen);
    log := Log([], [], [], [], 0);
    var i := 0;
    while i < |calls|
      invariant 0 <= i <= |calls| && r.Valid() && fresh(r) && r.acc == acc && r.accLen == accLen
      invariant Run(r.model, log, calls[i..]) == Start(cap, calls)
    {
      var reply := Perform(r, calls[i]);
      log := Note(log, calls[i], reply);
      assert calls[i..][1..] == calls[i + 1..];
      i := i + 1;
    }
    DeliversInOrder(cap, calls, 0, false);
  }
}
