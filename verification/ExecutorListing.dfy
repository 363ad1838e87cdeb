/**
 A directory listing on the native executor: hs_list and hs_add_name reserve credit
 name by name while every other thread goes on.
 */
module ExecutorListing {
  import opened Counting
  import opened Executor
  import opened ExecutorRuns

  // -------------------------------------------------------------------------
  // What the others can do while a worker runs job j

  ghost function Held(e: Exec, j: Addr): int {
    if j in e.credit.ledger then e.credit.ledger[j].amount else 0
  }

  predicate Elsewhere(s: Step, j: Addr) {
    s != PublishStep(j) && !(s.ChargeStep? && s.job5 == j)
  }

  function Others(e: Exec, steps: seq<Step>, j: Addr): Exec
    decreases |steps|
  {
    if steps == [] then e
    else Others(if Enabled(e, steps[0]) && Elsewhere(steps[0], j) then Next(e, steps[0]) else e, steps[1..], j)
  }

  // The job is running and owes what it owed.
  ghost predicate Running(e: Exec, j: Addr, amount: int) {
    Good(e) && j in e.work.working && j in e.work.jobs && Held(e, j) == amount
  }

  lemma WorkingIsKept(e: Exec, j: Addr, id: Addr)
    requires ActiveOk(e.work) && QueueOk(e.work) && PoolsOk(e) && j in e.work.working && Drained(e, id)
    ensures e.work.jobs[j] != id && j in e.credit.ledger && e.credit.ledger[j].account != id
  {
    NoneOf(e.work, id);
  }

  lemma DropKeepsJob(e: Exec, j: Addr, id: Addr)
    requires j in e.work.jobs && e.work.jobs[j] != id && j in e.credit.ledger && e.credit.ledger[j].account != id
    ensures var f := DropPool(e, id); f.work.working == e.work.working && j in f.work.jobs && Held(f, j) == Held(e, j)
  {
  }

  lemma OwnerKeepsJob(e: Exec, s: Step, j: Addr)
    requires Good(e) && j in e.work.working && j in e.work.jobs && Enabled(e, s)
    requires s.NewPool? || s.StopPool? || s.RemovePool? || s.Submit? || s.TakeOverStep? || s.FreeJob?
    ensures var f := Next(e, s); j in f.work.working && j in f.work.jobs && Held(f, j) == Held(e, j)
  {
    hide PoolsOk;
    if s.RemovePool? {
      WorkingIsKept(e, j, s.id2);
      DropKeepsJob(e, j, s.id2);
    } else if s.Submit? {
      NewJob(e);
      JobCredit(e, j);
    }
  }

  lemma CreditKeepsJob(e: Exec, s: Step, j: Addr)
    requires j in e.work.working && j in e.work.jobs && Enabled(e, s) && Elsewhere(s, j)
    requires s.Reserve? || s.Release? || s.AcquireBody? || s.ReleaseLoose? || s.ChargeStep?
    ensures var f := Next(e, s); f.work == e.work && Held(f, j) == Held(e, j)
  {
  }

  lemma WorkersKeepJob(e: Exec, s: Step, j: Addr)
    requires j in e.work.working && j in e.work.jobs && Enabled(e, s) && Elsewhere(s, j)
    requires s.Start? || s.PublishStep? || s.LeaveStep?
    ensures var f := Next(e, s); j in f.work.working && j in f.work.jobs && f.credit == e.credit
  {
  }

  lemma StepKeepsJob(e: Exec, s: Step, j: Addr, amount: int)
    requires Running(e, j, amount) && Enabled(e, s) && Elsewhere(s, j)
    ensures Running(Next(e, s), j, amount)
  {
    NextGood(e, s);
    if s.NewPool? || s.StopPool? || s.RemovePool? || s.Submit? || s.TakeOverStep? || s.FreeJob? {
      OwnerKeepsJob(e, s, j);
    } else if s.Start? || s.PublishStep? || s.LeaveStep? {
      WorkersKeepJob(e, s, j);
    } else {
      CreditKeepsJob(e, s, j);
    }
  }

  lemma {:induction false} OthersKeep(e: Exec, steps: seq<Step>, j: Addr, amount: int)
    requires Running(e, j, amount)
    ensures Running(Others(e, steps, j), j, amount)
    decreases |steps|
  {
    if steps != [] {
      if Enabled(e, steps[0]) && Elsewhere(steps[0], j) {
        StepKeepsJob(e, steps[0], j, amount);
        OthersKeep(Next(e, steps[0]), steps[1..], j, amount);
      } else {
        OthersKeep(e, steps[1..], j, amount);
      }
    }
  }

  lemma ChargeKeepsJob(e: Exec, j: Addr, n: nat, amount: int)
    requires Running(e, j, amount)
    ensures Running(Charged(e, j, n), j, if Admits(e, true, n) then amount + n else amount)
  {
    JobCredit(e, j);
    ChargeGood(e, j, n);
  }

  // -------------------------------------------------------------------------

  // hs_io_reserve for the job.
  method ReserveFor(e: Exec, j: Addr, n: nat, ghost amount: int) returns (f: Exec, ok: bool)
    requires Running(e, j, amount)
    ensures Running(f, j, if ok then amount + n else amount) && f == (if ok then Charged(e, j, n) else e) && ok == Admits(e, true, n)
  {
    ok := Admits(e, true, n);
    f := if ok then Charged(e, j, n) else e;
    ChargeKeepsJob(e, j, n, amount);
  }

  // The other threads go on.
  method OthersRun(e: Exec, steps: seq<Step>, j: Addr, ghost amount: int) returns (f: Exec)
    requires Running(e, j, amount)
    ensures Running(f, j, amount) && (steps == [] ==> f == e)
  {
    OthersKeep(e, steps, j, amount);
    f := Others(e, steps, j);
  }

  // A name and its terminating zero, and what one entry costs in memory.
  function Size(name: string): int { |name| + 1 }
  function Cost(name: string): int { Size(name) * 32 + 2048 }

  predicate IsDots(name: string) {
    name == "." || name == ".."
  }

  datatype Code = Done | NotDirectory | NoRoom | IoError

  class Listing {
    var names: seq<string>
    var capacity: nat
    var charge: nat

    constructor()
      ensures names == [] && capacity == 0 && charge == 0
    {
      names, capacity, charge := [], 0, 0;
    }

    // The name is within the job's limit on bytes, the count is not at its end, the charge
    // can be reserved and recorded, and memory for the longer list and the copy is left.
    ghost predicate Takes(e: Exec, name: string, used: int, limit: int, memory: (bool, bool))
      reads this
    {
      && used + Size(name) + 64 <= limit && |names| != INT_MAX
      && charge + Cost(name) <= INT_MAX && Admits(e, true, Cost(name))
      && (|names| == capacity ==> memory.0 && 2 * capacity <= INT_MAX)
      && memory.1
    }

    /** hs_add_name.  It stores every name but the two dot entries exactly if Takes holds.  On every exit the job's record of its charge has grown by
        exactly what was reserved for it. */
    method AddName(e: Exec, j: Addr, name: string, used: int, limit: int, memory: (bool, bool)) returns (f: Exec, total: int, code: Code)
      requires Running(e, j, charge)
      modifies this
      ensures Running(f, j, charge) && old(charge) <= charge
      ensures code == Done || code == NoRoom
      ensures code == Done ==>
                if IsDots(name) then names == old(names) && total == used && charge == old(charge)
                else names == old(names) + [name] && total == used + Size(name) + 64 <= limit && charge == old(charge) + Cost(name) <= INT_MAX
      ensures code == NoRoom ==> names == old(names)
      ensures code == Done <==> IsDots(name) || old(Takes(e, name, used, limit, memory))
      ensures code == Done ==> f == (if IsDots(name) then e else Charged(e, j, Cost(name)))
      ensures code == Done ==> capacity == old(capacity) || capacity == 64 || capacity == 2 * |old(names)|
    {
      hide Good;
      f, total := e, used;
      if IsDots(name) {
        return f, total, Done;
      }
      total := used + Size(name) + 64;
      if total > limit || |names| == INT_MAX {
        return f, total, NoRoom;
      }
      var cost := Cost(name);
      if cost > INT_MAX - charge {
        return f, total, NoRoom;
      }
      var ok := Reserve(e, j, cost);
      f := if ok then Charged(e, j, cost) else e;
      if !ok {
        return f, total, NoRoom;
      }
      var stored := Store(name, memory);
      code := if stored then Done else NoRoom;
    }

    // The reservation and its record.
    method Reserve(e: Exec, j: Addr, n: nat) returns (ok: bool)
      requires Running(e, j, charge)
      modifies this`charge
      ensures ok == Admits(e, true, n) && charge == old(charge) + (if ok then n else 0)
      ensures Running(if ok then Charged(e, j, n) else e, j, charge)
    {
      ok := Admits(e, true, n);
      ChargeKeepsJob(e, j, n, charge);
      if ok {
        charge := charge + n;
      }
    }

    method Store(name: string, memory: (bool, bool)) returns (ok: bool)
      modifies this`names, this`capacity
      ensures names == if ok then old(names) + [name] else old(names)
      ensures ok <==> (|old(names)| == old(capacity) ==> memory.0 && 2 * old(capacity) <= INT_MAX) && memory.1
      ensures ok ==> capacity == old(capacity) || capacity == 64 || capacity == 2 * |old(names)|
    {
      if |names| == capacity {
        var grown := if capacity > 0 then capacity * 2 else 64;
        if grown > INT_MAX || !memory.0 {
          return false;
        }
        capacity := grown;
      }
      if !memory.1 {
        return false;
      }
      names := names + [name];
      ok := true;
    }

    // One turn of the loop in hs_list, after the names of `before`.
    method AddEntry(e: Exec, j: Addr, name: string, used: int, limit: int, memory: (bool, bool), others: seq<Step>,
                    ghost before: seq<string>, ghost base: int)
      returns (f: Exec, total: int, code: Code)
      requires Running(e, j, charge) && names == Visible(before) && charge == base + Costs(before)
      modifies this
      ensures Running(f, j, charge)
      ensures code == Done ==> names == Visible(before + [name]) && charge == base + Costs(before + [name])
      ensures code == Done || code == NoRoom
      ensures others == [] ==> (code == Done <==> IsDots(name) || old(Takes(e, name, used, limit, memory)))
      ensures others == [] && code == Done ==> f == (if IsDots(name) then e else Charged(e, j, Cost(name)))
      ensures code == Done ==> total == used + (if IsDots(name) then 0 else Size(name) + 64)
      ensures code == Done ==> capacity == old(capacity) || capacity == 64 || capacity == 2 * |old(names)|
    {
      hide Good, Running, Visible, Costs, Charged, Others, Cost, Size;
      VisibleSnoc(before, name);
      var now := OthersRun(e, others, j, charge);
      f, total, code := AddName(now, j, name, used, limit, memory);
    }

    // The first i entries have been added.
    ghost predicate Added(e: Exec, j: Addr, entries: seq<string>, i: nat, base: int)
      reads this
    {
      && i <= |entries| && Running(e, j, charge)
      && names == Visible(entries[..i]) && charge == base + Costs(entries[..i])
    }

    // There is room for all entries together.
    ghost predicate Calm(entries: seq<string>, limit: int, base: int) {
      Sizes(entries) <= limit && base + Costs(entries) <= INT_MAX && |entries| < 0x2000_0000
    }

    // The first i entries are added, and the rest can still be reserved.
    ghost predicate Ahead(e: Exec, entries: seq<string>, i: nat, used: int, base: int)
      reads this
    {
      && i <= |entries| && used == Sizes(entries[..i]) && |names| <= i && charge == base + Costs(entries[..i])
      && capacity <= 2 * i + 64 && Costs(entries[..i]) <= Costs(entries) && Admits(e, true, Costs(entries) - Costs(entries[..i]))
    }

    method Turn(e: Exec, j: Addr, entries: seq<string>, i: nat, used: int, limit: int, memory: (bool, bool), others: seq<Step>, ghost base: int)
      returns (f: Exec, total: int, code: Code)
      requires i < |entries| && Added(e, j, entries, i, base)
      modifies this
      ensures Running(f, j, charge) && (code == Done || code == NoRoom)
      ensures code == Done ==> Added(f, j, entries, i + 1, base)
      ensures others == [] && memory == (true, true) && Calm(entries, limit, base) && old(Ahead(e, entries, i, used, base))
              ==> code == Done && Ahead(f, entries, i + 1, total, base)
    {
      hide Good, Running;
      assert entries[..i + 1] == entries[..i] + [entries[i]];
      VisibleSnoc(entries[..i], entries[i]);
      SumsGrow(entries, i);
      f, total, code := AddEntry(e, j, entries[i], used, limit, memory, others, entries[..i], base);
    }

    // The loop in hs_list.
    method ListEntries(e: Exec, j: Addr, entries: seq<string>, limit: int, memory: seq<(bool, bool)>, others: seq<seq<Step>>, ghost base: int)
      returns (f: Exec, code: Code)
      requires |memory| == |others| == |entries| && Added(e, j, entries, 0, base)
      modifies this
      ensures Running(f, j, charge) && (code == Done || code == NoRoom)
      ensures code == Done ==> Added(f, j, entries, |entries|, base)
      ensures Undisturbed(others, memory) && Calm(entries, limit, base) && old(Ahead(e, entries, 0, 0, base)) ==> code == Done
    {
      hide Good, Running, Calm;
      f, code := e, Done;
      var i, used := 0, 0;
      while i < |entries|
        invariant i <= |entries| && code == Done && Added(f, j, entries, i, base)
        invariant Undisturbed(others, memory) && Calm(entries, limit, base) && old(Ahead(e, entries, 0, 0, base)) ==> Ahead(f, entries, i, used, base)
      {
        f, used, code := Turn(f, j, entries, i, used, limit, memory[i], others[i], base);
        if code != Done {
          return;
        }
        i := i + 1;
      }
    }

    /** hs_list: the names of a directory, with any steps of the other threads in
        between.  However it ends, the job holds exactly what was reserved for it. */
    method List(e: Exec, j: Addr, directory: bool, entries: seq<string>, limit: int, memory: seq<(bool, bool)>,
                others: seq<seq<Step>>, fault: bool) returns (f: Exec, code: Code)
      requires Running(e, j, charge) && |memory| == |others| == |entries| && names == []
      modifies this
      ensures Running(f, j, charge)
      ensures code == NotDirectory <==> !directory
      ensures code == NotDirectory ==> f == e && charge == old(charge)
      ensures code == Done ==> names == Visible(entries) && charge == old(charge) + 65536 + Costs(entries)
      ensures code == IoError ==> fault && names == Visible(entries)
      ensures directory && Undisturbed(others, memory) && old(capacity <= 64 && Calm(entries, limit, charge + 65536)) && Admits(e, true, 65536 + Costs(entries))
              ==> code == if fault then IoError else Done
    {
      hide Good, Running;
      f := e;
      if !directory {
        return f, NotDirectory;
      }
      ReservesFirst(e, j, 65536, Costs(entries));
      var ok;
      f, ok := ReserveFor(e, j, 65536, charge);
      if !ok {
        return f, NoRoom;
      }
      charge := charge + 65536;
      assert entries[..0] == [] && entries[..|entries|] == entries;
      f, code := ListEntries(f, j, entries, limit, memory, others, charge);
      if code == Done && fault {
        code := IoError;
      }
    }
  }

  // No other thread takes a step, and memory never runs out.
  ghost predicate Undisturbed(others: seq<seq<Step>>, memory: seq<(bool, bool)>) {
    (forall i | 0 <= i < |others| :: others[i] == []) && forall i | 0 <= i < |memory| :: memory[i] == (true, true)
  }

  // What can be reserved in one go can be reserved in two.
  lemma ReservesFirst(e: Exec, j: Addr, n: nat, rest: nat)
    ensures Admits(e, true, n + rest) ==> Admits(e, true, n) && Admits(Charged(e, j, n), true, rest)
  {
  }

  function Sizes(entries: seq<string>): nat {
    if entries == [] then 0
    else (if IsDots(entries[0]) then 0 else Size(entries[0]) + 64) + Sizes(entries[1..])
  }

  lemma {:induction false} SizesSnoc(xs: seq<string>, x: string)
    ensures Sizes(xs + [x]) == Sizes(xs) + (if IsDots(x) then 0 else Size(x) + 64)
  {
    if xs == [] {
      assert xs + [x] == [x];
    } else {
      assert (xs + [x])[1..] == xs[1..] + [x];
      SizesSnoc(xs[1..], x);
    }
  }

  // The sums over a beginning of the entries are within those over all.
  lemma {:induction false} SumsWithin(xs: seq<string>, i: nat)
    requires i <= |xs|
    ensures Sizes(xs[..i]) <= Sizes(xs) && Costs(xs[..i]) <= Costs(xs)
    decreases |xs| - i
  {
    if i < |xs| {
      SumsWithin(xs, i + 1);
      assert xs[..i + 1] == xs[..i] + [xs[i]];
      SizesSnoc(xs[..i], xs[i]);
      VisibleSnoc(xs[..i], xs[i]);
    } else {
      assert xs[..i] == xs;
    }
  }

  lemma SumsGrow(xs: seq<string>, i: nat)
    requires i < |xs|
    ensures Sizes(xs[..i + 1]) == Sizes(xs[..i]) + (if IsDots(xs[i]) then 0 else Size(xs[i]) + 64) <= Sizes(xs)
    ensures Costs(xs[..i + 1]) == Costs(xs[..i]) + (if IsDots(xs[i]) then 0 else Cost(xs[i])) <= Costs(xs)
  {
    hide Sizes, Costs, Visible, Cost, Size;
    assert xs[..i + 1] == xs[..i] + [xs[i]];
    SizesSnoc(xs[..i], xs[i]);
    VisibleSnoc(xs[..i], xs[i]);
    SumsWithin(xs, i + 1);
  }

  function Visible(entries: seq<string>): seq<string> {
    if entries == [] then []
    else if IsDots(entries[0]) then Visible(entries[1..])
    else [entries[0]] + Visible(entries[1..])
  }

  function Costs(entries: seq<string>): nat {
    if entries == [] then 0
    else (if IsDots(entries[0]) then 0 else Cost(entries[0])) + Costs(entries[1..])
  }

  lemma {:induction false} VisibleSnoc(xs: seq<string>, x: string)
    ensures Visible(xs + [x]) == Visible(xs) + (if IsDots(x) then [] else [x])
    ensures Costs(xs + [x]) == Costs(xs) + (if IsDots(x) then 0 else Cost(x))
  {
    if xs == [] {
      assert xs + [x] == [x];
    } else {
      assert (xs + [x])[1..] == xs[1..] + [x];
      VisibleSnoc(xs[1..], x);
    }
  }
}
