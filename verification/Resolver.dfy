/**
 hs_open_components: the loop that resolves a path beneath a root directory with a
 stack of directory descriptors, expanding symbolic links into the remaining path.
 */
module Resolver {
  import opened Basics
  import opened Paths
  import opened Confinement

  const PATH_MAX: nat := 4096
  const SLOTS: nat := 256
  const MAX_LINKS: nat := 40

  // The errors of the resolver: those of the path itself, and those of its limits
  // and of the system it runs on.
  datatype Outcome = Opened(fd: nat, path: seq<string>) | Error(errno: Errno)
                   | NameTooLong | TooDeep | NoDescriptor | NoRootPath

  // The descriptor table.  Every open descriptor stands for a path from the root
  // of the tree; `capacity` is the most that the process may have open.
  lemma LessOne(open: map<nat, seq<string>>, fd: nat)
    requires fd in open
    ensures |open - {fd}| == |open| - 1
  {
    assert (open - {fd}).Keys == open.Keys - {fd};
  }

  class Kernel {
    const tree: Node
    const rootPath: Option<string>
    const capacity: nat
    var open: map<nat, seq<string>>
    var next: nat
    var used: nat

    constructor(tree: Node, rootPath: Option<string>, capacity: nat)
      ensures this.tree == tree && this.rootPath == rootPath && this.capacity == capacity && open == map[] && Valid()
    {
      this.tree, this.rootPath, this.capacity := tree, rootPath, capacity;
      open, next, used := map[], 0, 0;
    }

    ghost predicate Valid()
      reads this
    {
      used == |open| && forall fd | fd in open :: fd < next
    }

    // openat with O_NOFOLLOW: a real child of an open directory, or "." itself.  The
    // descriptor is reserved before the name is looked up.
    method OpenAt(dir: nat, name: string, directory: bool) returns (r: Outcome)
      requires Valid() && dir in open && IsDir(tree, open[dir])
      requires name != "." ==> Lookup(tree, open[dir] + [name]).Some? && !Lookup(tree, open[dir] + [name]).value.Link?
      modifies this`open, this`next, this`used
      ensures Valid() && used == old(used) + (if r.Opened? then 1 else 0)
      ensures var path := if name == "." then old(open)[dir] else old(open)[dir] + [name];
              match r
              case Opened(fd, p) => fd !in old(open) && p == path && open == old(open)[fd := path]
                                    && (directory ==> IsDir(tree, path))
              case Error(e) => e == NotDirectory && directory && !IsDir(tree, path) && open == old(open)
              case NoDescriptor => open == old(open)
              case _ => false
      ensures r.NoDescriptor? <==> old(used) >= capacity
    {
      if used >= capacity {
        return NoDescriptor;
      }
      var path := if name == "." then open[dir] else open[dir] + [name];
      if directory && !IsDir(tree, path) {
        return Error(NotDirectory);
      }
      r := Opened(next, path);
      open := open[next := path];
      next, used := next + 1, used + 1;
    }

    // fstatat without following links; there is no entry with an empty name.
    method StatAt(dir: nat, name: string) returns (child: Option<Node>)
      requires dir in open
      ensures child == if name == "" then None else Lookup(tree, open[dir] + [name])
    {
      child := if name == "" then None else Lookup(tree, open[dir] + [name]);
    }

    // readlinkat: a longer target is cut off without notice.
    method ReadLinkAt(dir: nat, name: string, size: nat) returns (link: string)
      requires dir in open && Lookup(tree, open[dir] + [name]).Some? && Lookup(tree, open[dir] + [name]).value.Link?
      ensures var target := Lookup(tree, open[dir] + [name]).value.target;
              link == if |target| <= size then target else target[..size]
    {
      var target := Lookup(tree, open[dir] + [name]).value.target;
      link := if |target| <= size then target else target[..size];
    }

    method Close(fd: nat)
      requires Valid() && fd in open
      modifies this`open, this`used
      ensures Valid() && open == old(open) - {fd} && used == old(used) - 1
    {
      LessOne(open, fd);
      open := open - {fd};
      used := used - 1;
    }
  }

  // -------------------------------------------------------------------------
  // Cutting the remaining path

  function Head(todo: string): string {
    todo[..HeadLen(todo)]
  }

  function Rest(todo: string): (r: string)
    ensures todo != "" ==> |r| < |todo|
    ensures r == "" || r[0] != SLASH
  {
    var n := HeadLen(todo);
    if n < |todo| then SkipSlashes(todo[n + 1..]) else ""
  }

  function Join(target: string, rest: string): string {
    if rest == "" then target else target + [SLASH] + rest
  }

  lemma CutComponents(todo: string)
    requires todo != "" && todo[0] != SLASH
    ensures Components(todo) == [Head(todo)] + Components(Rest(todo)) && Head(todo) != ""
  {
    var n := HeadLen(todo);
    assert n >= 1;
    if n < |todo| {
      assert todo[n..][1..] == todo[n + 1..];
      ComponentsSkip(todo[n + 1..]);
    }
  }

  lemma JoinComponents(target: string, rest: string)
    ensures Components(Join(target, rest)) == Components(target) + Components(rest)
  {
    if rest != "" {
      hide Components;
      var tail := [SLASH] + rest;
      assert Join(target, rest) == target + tail && tail[1..] == rest;
      ComponentsJoin(target, tail);
    }
  }

  // -------------------------------------------------------------------------
  // The descriptor stack

  // dirs[1..depth] are the descriptors of the directories on the way down path,
  // each a real child of the one before, opened on top of `before`.
  ghost predicate Stacked(open: map<nat, seq<string>>, before: map<nat, seq<string>>, dirs: seq<nat>, path: seq<string>) {
    && |dirs| == |path| + 1
    && dirs[0] in before && before[dirs[0]] == []
    && Distinct(dirs)
    && (forall i | 0 < i < |dirs| :: dirs[i] !in before)
    && Along(open, dirs, path)
    && (forall fd | fd in before :: fd in open && open[fd] == before[fd])
    && (forall fd | fd in open :: fd in before || Above(dirs, fd))
  }

  ghost predicate Distinct(dirs: seq<nat>) {
    forall i, j | 0 <= i < j < |dirs| :: dirs[i] != dirs[j]
  }

  ghost predicate Along(open: map<nat, seq<string>>, dirs: seq<nat>, path: seq<string>)
    requires |dirs| == |path| + 1
  {
    forall i | 0 <= i < |dirs| :: dirs[i] in open && open[dirs[i]] == path[..i]
  }

  // A descriptor of the stack other than the root's.
  ghost predicate Above(dirs: seq<nat>, fd: nat) {
    exists i :: 0 < i < |dirs| && dirs[i] == fd
  }

  lemma PopAlong(open: map<nat, seq<string>>, dirs: seq<nat>, path: seq<string>)
    requires |dirs| == |path| + 1 && path != [] && Distinct(dirs) && Along(open, dirs, path)
    ensures Along(open - {dirs[|path|]}, dirs[..|path|], path[..|path| - 1])
  {
    var less, fewer, up := open - {dirs[|path|]}, dirs[..|path|], path[..|path| - 1];
    forall i | 0 <= i < |fewer| ensures fewer[i] in less && less[fewer[i]] == up[..i] {
      assert fewer[i] == dirs[i] && up[..i] == path[..i];
    }
  }

  lemma PopAbove(dirs: seq<nat>, fd: nat)
    requires dirs != [] && Above(dirs, fd) && fd != dirs[|dirs| - 1]
    ensures Above(dirs[..|dirs| - 1], fd)
  {
    var i :| 0 < i < |dirs| && dirs[i] == fd;
    assert dirs[..|dirs| - 1][i] == fd;
  }

  lemma PopStacked(open: map<nat, seq<string>>, before: map<nat, seq<string>>, dirs: seq<nat>, path: seq<string>)
    requires Stacked(open, before, dirs, path) && path != []
    ensures Stacked(open - {dirs[|path|]}, before, dirs[..|path|], path[..|path| - 1])
  {
    PopAlong(open, dirs, path);
    forall fd | fd in open - {dirs[|path|]} && fd !in before ensures Above(dirs[..|path|], fd) {
      PopAbove(dirs, fd);
    }
  }

  lemma PopBeside(open: map<nat, seq<string>>, result: set<nat>, before: map<nat, seq<string>>, dirs: seq<nat>, path: seq<string>, d: nat)
    requires Stacked(open - result, before, dirs, path) && path != [] && d == dirs[|path|]
    ensures d in open && d !in result
    ensures Stacked(open - {d} - result, before, dirs[..|path|], path[..|path| - 1])
  {
    PopStacked(open - result, before, dirs, path);
    assert open - {d} - result == open - result - {d};
  }

  lemma StartStacked(open: map<nat, seq<string>>, root: nat)
    requires root in open && open[root] == []
    ensures Stacked(open - {}, open, [root], [])
  {
    assert open - {} == open;
  }

  lemma PushAlong(open: map<nat, seq<string>>, dirs: seq<nat>, path: seq<string>, fd: nat, name: string)
    requires |dirs| == |path| + 1 && Along(open, dirs, path) && fd !in open
    ensures Along(open[fd := path + [name]], dirs + [fd], path + [name])
  {
    var more, longer, down := open[fd := path + [name]], dirs + [fd], path + [name];
    forall i | 0 <= i < |longer| ensures longer[i] in more && more[longer[i]] == down[..i] {
      if i < |dirs| {
        assert longer[i] == dirs[i] && down[..i] == path[..i];
      } else {
        assert longer[i] == fd && down[..i] == down;
      }
    }
  }

  lemma PushAbove(dirs: seq<nat>, fd: nat, x: nat)
    requires dirs != [] && (x == fd || Above(dirs, x))
    ensures Above(dirs + [fd], x)
  {
    if x == fd {
      assert (dirs + [fd])[|dirs|] == x;
    } else {
      var i :| 0 < i < |dirs| && dirs[i] == x;
      assert (dirs + [fd])[i] == x;
    }
  }

  lemma PushDistinct(open: map<nat, seq<string>>, dirs: seq<nat>, path: seq<string>, fd: nat)
    requires |dirs| == |path| + 1 && Distinct(dirs) && Along(open, dirs, path) && fd !in open
    ensures Distinct(dirs + [fd])
  {
  }

  lemma PushStacked(open: map<nat, seq<string>>, before: map<nat, seq<string>>, dirs: seq<nat>, path: seq<string>, fd: nat, name: string)
    requires Stacked(open, before, dirs, path) && fd !in open
    ensures Stacked(open[fd := path + [name]], before, dirs + [fd], path + [name])
  {
    PushAlong(open, dirs, path, fd, name);
    PushDistinct(open, dirs, path, fd);
    forall x | x in open[fd := path + [name]] && x !in before ensures Above(dirs + [fd], x) {
      PushAbove(dirs, fd, x);
    }
  }

  lemma BottomStacked(open: map<nat, seq<string>>, before: map<nat, seq<string>>, dirs: seq<nat>)
    requires Stacked(open, before, dirs, [])
    ensures open == before
  {
    assert forall fd :: !Above(dirs, fd);
  }

  lemma NothingLeft(rest: string)
    requires rest == "" || rest[0] != SLASH
    ensures Components(rest) == [] <==> rest == ""
  {
  }

  lemma DotComponents()
    ensures Components(".") == ["."] && Components("") == []
  {
    var dot := ".";
    assert HeadLen(dot[1..]) == 0;
    assert HeadLen(dot) == 1;
    assert dot[..1] == "." && dot[1..] == "";
  }

  // The plain resolver, one component at a time.
  lemma ResolveDot(t: Node, rp: string, path: seq<string>, rest: seq<string>, links: nat)
    ensures Literal(t, rp, path, ["."] + rest, links) == Literal(t, rp, path, rest, links)
    ensures path == [] ==> Literal(t, rp, path, [".."] + rest, links) == Failed(Escape)
    ensures path != [] ==> Literal(t, rp, path, [".."] + rest, links) == Literal(t, rp, path[..|path| - 1], rest, links)
  {
  }

  lemma ResolveName(t: Node, rp: string, path: seq<string>, name: string, rest: seq<string>, links: nat)
    requires name != "." && name != ".."
    ensures var child, r := Lookup(t, path + [name]), Literal(t, rp, path, [name] + rest, links);
            if child.None? then r == Failed(NotFound)
            else if child.value.File? then r == if rest == [] then At(path + [name]) else Failed(NotDirectory)
            else if child.value.Dir? then r == Literal(t, rp, path + [name], rest, links)
            else links == 0 ==> r == Failed(TooManyLinks)
  {
  }

  lemma ResolveLink(t: Node, rp: string, path: seq<string>, name: string, rest: seq<string>, links: nat, target: string)
    requires name != "." && name != ".." && Lookup(t, path + [name]) == Some(Link(target)) && links > 0
    ensures var to, r := Expansion(target, rp), Literal(t, rp, path, [name] + rest, links);
            if to.None? then r == Failed(Escape)
            else if to.value == "" && rest != [] then r == Failed(NotFound)
            else r == Literal(t, rp, if Absolute(target) then [] else path, Components(to.value) + rest, links - 1)
  {
  }

  // -------------------------------------------------------------------------
  // The course of a resolution, limits included

  function RootOf(rootPath: Option<string>): string {
    if rootPath.Some? then rootPath.value else ""
  }

  // How a resolution ends: as the path itself decides, or at the first of the limits
  // that it meets: a name or link that is too long, a stack that is full, no free
  // descriptor, no known path of the root.
  datatype Fate = Ends(r: Resolved) | Long | Deep | Full | Rootless

  // What is left of a resolution that stands at `path` with `todo` to do, when `free`
  // descriptors were free at its start.
  ghost function Course(t: Node, rp: Option<string>, free: int, path: seq<string>, todo: string, links: nat): Fate
    decreases links, |todo|
  {
    if todo == "" then if |path| >= free then Full else Ends(At(path))
    else
      var name, rest := Head(todo), Rest(todo);
      if name == "." then Course(t, rp, free, path, rest, links)
      else if name == ".." then
        if path == [] then Ends(Failed(Escape)) else Course(t, rp, free, path[..|path| - 1], rest, links)
      else if name == "" || Lookup(t, path + [name]).None? then Ends(Failed(NotFound))
      else
        var child := Lookup(t, path + [name]).value;
        if child.Link? then
          if links == 0 then Ends(Failed(TooManyLinks))
          else if |child.target| >= PATH_MAX - 1 then Long
          else if Absolute(child.target) && rp.None? then Rootless
          else
            var to := Expansion(child.target, RootOf(rp));
            if to.None? then Ends(Failed(Escape))
            else if |Join(to.value, rest)| >= PATH_MAX then Long
            else Course(t, rp, free, if Absolute(child.target) then [] else path, Join(to.value, rest), links - 1)
        else if |path| >= free then Full
        else if rest == "" then Ends(At(path + [name]))
        else if child.File? then Ends(Failed(NotDirectory))
        else if |path| == SLOTS - 1 then Deep
        else Course(t, rp, free, path + [name], rest, links)
  }

  // What a path means to the literal resolver: a leading slash is an empty component.
  ghost function Meaning(t: Node, rp: string, path: seq<string>, todo: string, n: nat): Resolved {
    if Absolute(todo) then Failed(NotFound) else Literal(t, rp, path, Components(todo), n)
  }

  /** A resolution that meets no limit ends as the literal resolver says. */
  lemma {:induction false} CourseMeans(t: Node, rp: Option<string>, free: int, path: seq<string>, todo: string, links: nat)
    ensures var f := Course(t, rp, free, path, todo, links); f.Ends? ==> f.r == Meaning(t, RootOf(rp), path, todo, links)
    decreases links, |todo|
  {
    if todo == "" || Absolute(todo) {
      DotComponents();
    } else {
      hide Literal, Components;
      var name, rest := Head(todo), Rest(todo);
      CutComponents(todo);
      if name == "." {
        ResolveDot(t, RootOf(rp), path, Components(rest), links);
        CourseMeans(t, rp, free, path, rest, links);
      } else if name == ".." {
        ResolveDot(t, RootOf(rp), path, Components(rest), links);
        if path != [] {
          CourseMeans(t, rp, free, path[..|path| - 1], rest, links);
        }
      } else {
        CourseMeansName(t, rp, free, path, todo, links);
      }
    }
  }

  lemma {:induction false} CourseMeansName(t: Node, rp: Option<string>, free: int, path: seq<string>, todo: string, links: nat)
    requires todo != "" && !Absolute(todo) && Head(todo) != "" && Head(todo) != "." && Head(todo) != ".."
    requires Components(todo) == [Head(todo)] + Components(Rest(todo))
    ensures var f := Course(t, rp, free, path, todo, links); f.Ends? ==> f.r == Meaning(t, RootOf(rp), path, todo, links)
    decreases links, |todo|, 0
  {
    hide Literal, Components, Expansion;
    var name, rest := Head(todo), Rest(todo);
    ResolveName(t, RootOf(rp), path, name, Components(rest), links);
    NothingLeft(rest);
    LiteralDone(t, RootOf(rp), path + [name], links);
    var child := Lookup(t, path + [name]);
    if child.Some? && child.value.Link? {
      if links > 0 {
        CourseMeansLink(t, rp, free, path, name, rest, links, child.value.target);
      }
    } else if child.Some? && child.value.Dir? && rest != "" {
      CourseMeans(t, rp, free, path + [name], rest, links);
    }
  }

  lemma LiteralDone(t: Node, rp: string, path: seq<string>, links: nat)
    ensures Literal(t, rp, path, [], links) == At(path)
  {
  }

  lemma {:induction false} CourseMeansLink(t: Node, rp: Option<string>, free: int, path: seq<string>, name: string, rest: string, links: nat, target: string)
    requires links > 0 && name != "." && name != ".." && Lookup(t, path + [name]) == Some(Link(target)) && (rest == "" || rest[0] != SLASH)
    ensures var to, r := Expansion(target, RootOf(rp)), Literal(t, RootOf(rp), path, [name] + Components(rest), links);
            && (to.None? ==> r == Failed(Escape))
            && (to.Some? ==>
                  var f := Course(t, rp, free, if Absolute(target) then [] else path, Join(to.value, rest), links - 1);
                  f.Ends? ==> f.r == r)
    decreases links, 0, 0
  {
    hide Literal, Components, Expansion;
    ResolveLink(t, RootOf(rp), path, name, Components(rest), links, target);
    NothingLeft(rest);
    var to := Expansion(target, RootOf(rp));
    if to.Some? {
      ExpansionStart(target, RootOf(rp));
      JoinComponents(to.value, rest);
      CourseMeans(t, rp, free, if Absolute(target) then [] else path, Join(to.value, rest), links - 1);
    }
  }

  // -------------------------------------------------------------------------
  // What the limits take

  ghost predicate LinksWithin(tree: Node, longest: nat) {
    forall p, t | Lookup(tree, p) == Some(Link(t)) :: |t| <= longest
  }

  ghost predicate HasDeepDir(tree: Node) {
    exists p :: |p| == SLOTS && IsDir(tree, p)
  }

  // By how much n expansions can lengthen the remaining path.
  ghost function Growth(n: nat, longest: nat): nat {
    if n == 0 then 0 else Growth(n - 1, longest) + longest + 1
  }

  lemma {:induction false} GrowthIs(n: nat, longest: nat)
    ensures Growth(n, longest) == n * (longest + 1)
  {
    if n > 0 {
      GrowthIs(n - 1, longest);
      assert n * (longest + 1) == (n - 1) * (longest + 1) + (longest + 1);
    }
  }

  lemma ExpansionShorter(target: string, rootPath: string)
    ensures var to := Expansion(target, rootPath); to.Some? ==> |to.value| <= |target|
  {
  }

  lemma WithinAt(t: Node, longest: nat, p: seq<string>, target: string)
    requires LinksWithin(t, longest) && Lookup(t, p) == Some(Link(target))
    ensures |target| <= longest
  {
  }

  lemma DeepDir(t: Node, p: seq<string>)
    requires |p| == SLOTS && IsDir(t, p)
    ensures HasDeepDir(t)
  {
  }

  // No limit is met without its reason, for paths and links that add up to `size`.
  ghost predicate Reasoned(t: Node, rp: Option<string>, free: int, size: nat, f: Fate) {
    && (f.Long? ==> size >= PATH_MAX - 1)
    && (f.Deep? ==> HasDeepDir(t))
    && (f.Full? ==> free < SLOTS)
    && (f.Rootless? ==> rp.None?)
  }

  /** Each limit is met only for its own reason: links and paths that add up to too
      much, directories 256 deep, fewer than 256 free descriptors, no root path. */
  lemma {:induction false} LimitsNeed(t: Node, rp: Option<string>, free: int, path: seq<string>, todo: string, links: nat, longest: nat)
    requires LinksWithin(t, longest) && |path| < SLOTS
    ensures Reasoned(t, rp, free, |todo| + Growth(links, longest), Course(t, rp, free, path, todo, links))
    decreases links, |todo|, 1
  {
    hide LinksWithin, HasDeepDir, Lookup, Growth, Expansion, HeadLen, Join;
    if todo != "" {
      if Head(todo) == "." {
        LimitsNeed(t, rp, free, path, Rest(todo), links, longest);
      } else if Head(todo) == ".." {
        if path != [] {
          LimitsNeed(t, rp, free, path[..|path| - 1], Rest(todo), links, longest);
        }
      } else {
        NameLimits(t, rp, free, path, todo, links, longest);
      }
    }
  }

  lemma {:induction false} NameLimits(t: Node, rp: Option<string>, free: int, path: seq<string>, todo: string, links: nat, longest: nat)
    requires LinksWithin(t, longest) && |path| < SLOTS && todo != "" && Head(todo) != "." && Head(todo) != ".."
    ensures Reasoned(t, rp, free, |todo| + Growth(links, longest), Course(t, rp, free, path, todo, links))
    decreases links, |todo|, 0
  {
    hide LinksWithin, HasDeepDir, Lookup, Growth, Expansion, HeadLen, Head, Rest, Join, Absolute;
    var name, rest := Head(todo), Rest(todo);
    if name != "" && Lookup(t, path + [name]).Some? {
      var child := Lookup(t, path + [name]).value;
      if child.Link? {
        if links > 0 {
          WithinAt(t, longest, path + [name], child.target);
          LinkLimits(t, rp, free, path, child.target, rest, links, longest);
        }
      } else if child.Dir? && rest != "" {
        if |path| < SLOTS - 1 {
          LimitsNeed(t, rp, free, path + [name], rest, links, longest);
        } else {
          DeepDir(t, path + [name]);
        }
      }
    }
  }

  lemma {:induction false} LinkLimits(t: Node, rp: Option<string>, free: int, path: seq<string>, target: string, rest: string, links: nat, longest: nat)
    requires LinksWithin(t, longest) && |path| < SLOTS && links > 0 && |target| <= longest
    ensures Growth(links, longest) > longest
    ensures var to := Expansion(target, RootOf(rp));
            to.Some? ==>
              && |Join(to.value, rest)| <= |rest| + Growth(links, longest)
              && Reasoned(t, rp, free, |rest| + Growth(links, longest),
                          Course(t, rp, free, if Absolute(target) then [] else path, Join(to.value, rest), links - 1))
    decreases links, 0, 0
  {
    hide Course, LinksWithin, Expansion, HasDeepDir;
    var to := Expansion(target, RootOf(rp));
    ExpansionShorter(target, RootOf(rp));
    if to.Some? {
      LimitsNeed(t, rp, free, if Absolute(target) then [] else path, Join(to.value, rest), links - 1, longest);
    }
  }

  // -------------------------------------------------------------------------
  // One resolution under way

  class Opening {
    const kernel: Kernel
    const dirs: array<nat>
    var todo: string
    var depth: nat
    var links: nat
    ghost const before: map<nat, seq<string>>
    ghost const idle: nat
    ghost const fate: Fate
    ghost var path: seq<string>
    ghost var stack: seq<nat>
    // The descriptor that is to be returned.
    ghost var result: set<nat>

    // What is left to do.
    ghost function Left(path: seq<string>, todo: string, links: nat): Fate
      reads this
      requires links <= MAX_LINKS
    {
      Course(kernel.tree, kernel.rootPath, kernel.capacity - idle, path, todo, MAX_LINKS - links)
    }

    ghost predicate Valid()
      reads this, kernel, dirs
    {
      && kernel.Valid() && kernel.tree.Dir?
      && dirs.Length == SLOTS && depth < SLOTS && links <= MAX_LINKS && |todo| < PATH_MAX
      && stack == dirs[..depth + 1] && |path| == depth
      && Stacked(kernel.open - result, before, stack, path)
      && kernel.used == idle + depth + (if result == {} then 0 else 1)
      && IsDir(kernel.tree, path)
    }

    ghost predicate OnTrack()
      reads this
      requires links <= MAX_LINKS
    {
      result == {} && Left(path, todo, links) == fate
    }

    // The first component of the remaining path and what follows it.
    ghost predicate Cut(name: string, rest: string)
      reads this
    {
      todo != "" && name == Head(todo) && rest == Rest(todo)
    }

    // What is answered is what the course of the resolution comes to.
    ghost predicate Answers(r: Outcome)
      reads this
    {
      Is(r, fate)
    }

    // The descriptor to be returned is open, beside the stack.
    ghost predicate Holds(r: Outcome)
      reads this, kernel
    {
      if r.Opened? then result == {r.fd} && r.fd in kernel.open && kernel.open[r.fd] == r.path && r.fd !in before
      else result == {}
    }

    constructor(kernel: Kernel, root: nat, relative: string, ghost fate: Fate)
      requires kernel.Valid() && kernel.tree.Dir? && root in kernel.open && kernel.open[root] == [] && |relative| < PATH_MAX
      requires fate == Course(kernel.tree, kernel.rootPath, kernel.capacity - kernel.used, [], if relative == "" then "." else relative, MAX_LINKS)
      ensures Valid() && OnTrack() && fresh(dirs) && this.kernel == kernel && before == kernel.open && this.fate == fate
    {
      this.kernel, this.fate := kernel, fate;
      todo := if relative == "" then "." else relative;
      dirs := new nat[SLOTS];
      depth, links := 0, 0;
      before, idle := kernel.open, kernel.used;
      path, result, stack := [], {}, [root];
      new;
      hide Course, Stacked;
      dirs[0] := root;
      assert dirs[..1] == [root];
      StartStacked(kernel.open, root);
      assert kernel.open - {} == kernel.open;
    }

    // close(dirs[depth--])
    method Pop()
      requires Valid() && depth > 0
      modifies this`depth, this`path, this`stack, kernel`open, kernel`used
      ensures Valid() && depth == old(depth) - 1 && path == old(path)[..depth]
      ensures forall fd | fd in result && fd in old(kernel.open) :: fd in kernel.open && kernel.open[fd] == old(kernel.open)[fd]
    {
      hide Stacked;
      assert stack[depth] == dirs[depth];
      PopBeside(kernel.open, result, before, stack, path, dirs[depth]);
      ParentIsDir(kernel.tree, path);
      kernel.Close(dirs[depth]);
      depth := depth - 1;
      path := path[..depth];
      stack := stack[..depth + 1];
    }

    // while (depth > 0) close(dirs[depth--])
    method PopAll()
      requires Valid()
      modifies this`depth, this`path, this`stack, kernel`open, kernel`used
      ensures Valid() && depth == 0 && path == [] && kernel.open - result == before
      ensures forall fd | fd in result && fd in old(kernel.open) :: fd in kernel.open && kernel.open[fd] == old(kernel.open)[fd]
    {
      hide Stacked;
      while depth > 0
        invariant Valid()
        invariant forall fd | fd in result && fd in old(kernel.open) :: fd in kernel.open && kernel.open[fd] == old(kernel.open)[fd]
        decreases depth
      {
        Pop();
      }
      BottomStacked(kernel.open - result, before, stack);
    }

    // "." and "..", the two components that open nothing.
    method Dots(name: string, rest: string) returns (r: Option<Outcome>)
      requires Valid() && OnTrack() && Cut(name, rest) && (name == "." || name == "..")
      modifies this`todo, this`depth, this`path, this`stack, kernel`open, kernel`used
      ensures Valid() && (if r.None? then OnTrack() && todo == rest else r.value == Error(Escape) && Answers(r.value) && Holds(r.value))
    {
      hide Stacked, Course;
      if name == "." {
        LeftHere(name, rest);
        todo := rest;
        return None;
      }
      if depth == 0 {
        NothingAbove(name, rest);
        return Some(Error(Escape));
      }
      LeftAbove(name, rest);
      Pop();
      todo := rest;
      r := None;
    }

    lemma LeftHere(name: string, rest: string)
      requires links <= MAX_LINKS && OnTrack() && Cut(name, rest) && name == "."
      ensures Left(path, rest, links) == fate
    {
    }

    lemma NothingAbove(name: string, rest: string)
      requires links <= MAX_LINKS && OnTrack() && Cut(name, rest) && name == ".." && path == []
      ensures fate == Ends(Failed(Escape))
    {
    }

    lemma LeftAbove(name: string, rest: string)
      requires links <= MAX_LINKS && OnTrack() && Cut(name, rest) && name == ".." && path != []
      ensures Left(path[..|path| - 1], rest, links) == fate
    {
    }

    // Whether and to what a symbolic link is expanded.
    method Target(name: string, rest: string) returns (r: Outcome, link: string, to: string)
      requires Valid() && OnTrack() && Cut(name, rest) && name != "" && name != "." && name != ".."
      requires Lookup(kernel.tree, path + [name]).Some? && Lookup(kernel.tree, path + [name]).value.Link?
      ensures if r.Opened? then
                && links < MAX_LINKS && |Join(to, rest)| < PATH_MAX
                && Left(if Absolute(link) then [] else path, Join(to, rest), links + 1) == fate
              else Answers(r)
    {
      hide Expansion, Stacked;
      link, to := "", "";
      if links + 1 > MAX_LINKS {
        return Error(TooManyLinks), link, to;
      }
      TopOfStack();
      link := kernel.ReadLinkAt(dirs[depth], name, PATH_MAX - 1);
      if |link| == PATH_MAX - 1 {
        return NameTooLong, link, to;
      }
      if Absolute(link) && kernel.rootPath.None? {
        return NoRootPath, link, to;
      }
      var e := Expansion(link, RootOf(kernel.rootPath));
      if e.None? {
        return Error(Escape), link, to;
      }
      to := e.value;
      if |Join(to, rest)| >= PATH_MAX {
        return NameTooLong, link, to;
      }
      r := Opened(0, []);
    }

    // A symbolic link: its target replaces it in the remaining path.
    method Expand(name: string, rest: string) returns (r: Option<Outcome>)
      requires Valid() && OnTrack() && Cut(name, rest) && name != "" && name != "." && name != ".."
      requires Lookup(kernel.tree, path + [name]).Some? && Lookup(kernel.tree, path + [name]).value.Link?
      modifies this`todo, this`depth, this`path, this`stack, this`links, kernel`open, kernel`used
      ensures Valid() && (if r.None? then OnTrack() && links == old(links) + 1 else Answers(r.value) && Holds(r.value))
    {
      hide Stacked, Course, Is;
      var verdict, link, to := Target(name, rest);
      if !verdict.Opened? {
        return Some(verdict);
      }
      links := links + 1;
      if Absolute(link) {
        PopAll();
      }
      todo := Join(to, rest);
      r := None;
    }

    // openat in the directory on top of the stack.
    method OpenChild(name: string, directory: bool) returns (found: Outcome)
      requires Valid() && result == {}
      requires name != "." ==> Lookup(kernel.tree, path + [name]).Some? && !Lookup(kernel.tree, path + [name]).value.Link?
      modifies kernel`open, kernel`next, kernel`used
      ensures kernel.Valid() && kernel.used == old(kernel.used) + (if found.Opened? then 1 else 0)
      ensures var p := if name == "." then path else path + [name];
              match found
              case Opened(fd, q) => q == p && fd !in old(kernel.open) && kernel.open == old(kernel.open)[fd := p] && (directory ==> IsDir(kernel.tree, p))
              case Error(e) => e == NotDirectory && directory && !IsDir(kernel.tree, p) && kernel.open == old(kernel.open)
              case NoDescriptor => kernel.open == old(kernel.open)
              case _ => false
      ensures found.NoDescriptor? <==> |path| >= kernel.capacity - idle
      ensures Stacked(old(kernel.open), before, stack, path)
    {
      hide Stacked;
      TopOfStack();
      assert kernel.open - {} == kernel.open;
      found := kernel.OpenAt(dirs[depth], name, directory);
    }

    // dirs[++depth] = fd
    method Push(fd: nat, name: string, ghost open: map<nat, seq<string>>)
      requires kernel.Valid() && kernel.tree.Dir? && dirs.Length == SLOTS && depth < SLOTS - 1 && links <= MAX_LINKS && |todo| < PATH_MAX && result == {}
      requires stack == dirs[..depth + 1] && |path| == depth && Stacked(open, before, stack, path) && kernel.used == idle + depth + 1
      requires fd !in open && kernel.open == open[fd := path + [name]] && IsDir(kernel.tree, path + [name])
      modifies this`depth, this`path, this`stack, dirs
      ensures Valid() && path == old(path) + [name]
    {
      hide Stacked;
      PushStacked(open, before, stack, path, fd, name);
      depth := depth + 1;
      dirs[depth] := fd;
      path := path + [name];
      stack := stack + [fd];
      assert kernel.open - {} == kernel.open;
    }

    // No slot is left on the stack: close(fd)
    method GiveBack(fd: nat, ghost open: map<nat, seq<string>>)
      requires kernel.Valid() && kernel.tree.Dir? && dirs.Length == SLOTS && depth < SLOTS && links <= MAX_LINKS && |todo| < PATH_MAX && IsDir(kernel.tree, path)
      requires stack == dirs[..depth + 1] && |path| == depth && Stacked(open, before, stack, path) && kernel.used == idle + depth + 1 && fd !in open && fd in kernel.open && result == {}
      requires kernel.open == open[fd := kernel.open[fd]]
      modifies kernel`open, kernel`used
      ensures Valid()
    {
      hide Stacked;
      kernel.Close(fd);
      assert kernel.open == open && open - {} == open;
    }

    // result = fd
    ghost method Keep(found: Outcome, open: map<nat, seq<string>>)
      requires kernel.Valid() && kernel.tree.Dir? && dirs.Length == SLOTS && depth < SLOTS && links <= MAX_LINKS && |todo| < PATH_MAX && IsDir(kernel.tree, path)
      requires stack == dirs[..depth + 1] && |path| == depth && Stacked(open, before, stack, path) && kernel.used == idle + depth + 1 && found.Opened? && found.fd !in open
      requires kernel.open == open[found.fd := found.path]
      modifies this`result
      ensures Valid() && Holds(found)
    {
      BesideBefore(open, before, stack, path, found.fd);
      hide Stacked;
      result := {found.fd};
      assert kernel.open - {found.fd} == open;
    }

    // What opening the child comes to.
    lemma EnterLeft(name: string, rest: string)
      requires links <= MAX_LINKS && OnTrack() && Cut(name, rest) && name != "" && name != "." && name != ".."
      requires Lookup(kernel.tree, path + [name]).Some? && !Lookup(kernel.tree, path + [name]).value.Link?
      ensures if |path| >= kernel.capacity - idle then fate == Full
              else if rest == "" then fate == Ends(At(path + [name]))
              else if !IsDir(kernel.tree, path + [name]) then fate == Ends(Failed(NotDirectory))
              else if |path| == SLOTS - 1 then fate == Deep
              else Left(path + [name], rest, links) == fate
    {
    }

    // The last component is opened and returned.
    method Last(name: string) returns (r: Outcome)
      requires Valid() && OnTrack() && Cut(name, "") && name != "" && name != "." && name != ".."
      requires Lookup(kernel.tree, path + [name]).Some? && !Lookup(kernel.tree, path + [name]).value.Link?
      modifies this`result, kernel`open, kernel`next, kernel`used
      ensures Valid() && Answers(r) && Holds(r)
    {
      hide Stacked, Course;
      EnterLeft(name, "");
      ghost var open := kernel.open;
      r := OpenChild(name, false);
      if r.Opened? {
        Keep(r, open);
      } else {
        assert kernel.open - {} == open;
      }
    }

    // A component with more behind it must be a directory, and is entered.
    method Deeper(name: string, rest: string) returns (r: Option<Outcome>)
      requires Valid() && OnTrack() && Cut(name, rest) && name != "" && name != "." && name != ".." && rest != ""
      requires Lookup(kernel.tree, path + [name]).Some? && !Lookup(kernel.tree, path + [name]).value.Link?
      modifies this`todo, this`depth, this`path, this`stack, dirs, kernel`open, kernel`next, kernel`used
      ensures Valid() && (if r.None? then OnTrack() && todo == rest else Answers(r.value) && Holds(r.value))
    {
      hide Stacked, Course;
      EnterLeft(name, rest);
      ghost var open := kernel.open;
      var found := OpenChild(name, true);
      if !found.Opened? {
        assert kernel.open - {} == open;
        return Some(found);
      }
      if depth == SLOTS - 1 {
        GiveBack(found.fd, open);
        return Some(TooDeep);
      }
      Push(found.fd, name, open);
      todo := rest;
      r := None;
    }

    // done: every directory of the stack is closed, the result is not.
    method Finish(r: Outcome)
      requires Valid() && Holds(r)
      modifies this`depth, this`path, this`stack, kernel`open, kernel`used
      ensures kernel.Valid()
      ensures kernel.open == if r.Opened? then before[r.fd := r.path] else before
    {
      hide Stacked;
      PopAll();
      if r.Opened? {
        assert kernel.open == (kernel.open - {r.fd})[r.fd := r.path];
      } else {
        assert kernel.open - {} == kernel.open;
      }
    }

    // The whole loop, and the open of "." when nothing is left to do.
    method Run() returns (r: Outcome)
      requires Valid() && OnTrack()
      modifies this`todo, this`depth, this`path, this`stack, this`links, this`result, dirs, kernel`open, kernel`next, kernel`used
      ensures Valid() && Answers(r) && Holds(r)
    {
      hide Stacked, Is;
      while todo != ""
        invariant Valid() && OnTrack()
        decreases MAX_LINKS - links, |todo|
      {
        var left := Turn();
        if left.Some? {
          return left.value;
        }
      }
      r := Here();
    }

    method Here() returns (r: Outcome)
      requires Valid() && OnTrack() && todo == ""
      modifies this`result, kernel`open, kernel`next, kernel`used
      ensures Valid() && Answers(r) && Holds(r)
    {
      hide Stacked;
      ghost var open := kernel.open;
      r := OpenChild(".", true);
      if r.Opened? {
        Keep(r, open);
      } else {
        assert kernel.open - {} == open;
      }
    }

    lemma TopOfStack()
      requires Valid() && result == {}
      ensures dirs[depth] in kernel.open && kernel.open[dirs[depth]] == path && depth == |path|
    {
      assert kernel.open - {} == kernel.open;
      assert stack[depth] == dirs[depth] && path[..depth] == path;
    }

    lemma Missing(name: string, rest: string)
      requires links <= MAX_LINKS && OnTrack() && Cut(name, rest) && name != "." && name != ".."
      requires name == "" || Lookup(kernel.tree, path + [name]).None?
      ensures fate == Ends(Failed(NotFound))
    {
    }

    // One turn of the loop: Some when it is left.
    method Turn() returns (r: Option<Outcome>)
      requires Valid() && OnTrack() && todo != ""
      modifies this`todo, this`depth, this`path, this`stack, this`links, this`result, dirs, kernel`open, kernel`next, kernel`used
      ensures Valid()
      ensures r.None? ==> OnTrack() && (links == old(links) + 1 || (links == old(links) && |todo| < |old(todo)|))
      ensures r.Some? ==> Answers(r.value) && Holds(r.value)
    {
      hide Stacked, Course;
      var name, rest := Head(todo), Rest(todo);
      if name == "." || name == ".." {
        r := Dots(name, rest);
        return;
      }
      TopOfStack();
      var child := kernel.StatAt(dirs[depth], name);
      if child.None? {
        Missing(name, rest);
        return Some(Error(NotFound));
      }
      if child.value.Link? {
        r := Expand(name, rest);
      } else if rest == "" {
        var last := Last(name);
        r := Some(last);
      } else {
        r := Deeper(name, rest);
      }
    }
  }

  // The code's answer for a fate.
  predicate Is(r: Outcome, fate: Fate) {
    match r
    case Opened(_, p) => fate == Ends(At(p))
    case Error(e) => fate == Ends(Failed(e))
    case NameTooLong => fate == Long
    case TooDeep => fate == Deep
    case NoDescriptor => fate == Full
    case NoRootPath => fate == Rootless
  }

  lemma BesideBefore(open: map<nat, seq<string>>, before: map<nat, seq<string>>, dirs: seq<nat>, path: seq<string>, fd: nat)
    requires Stacked(open, before, dirs, path) && fd !in open
    ensures fd !in before
  {
  }

  // The fate of a whole call.
  ghost function Verdict(t: Node, rp: Option<string>, free: int, relative: string): Fate {
    if |relative| >= PATH_MAX then Long else Course(t, rp, free, [], if relative == "" then "." else relative, MAX_LINKS)
  }

  /** hs_open_components.  It ends for every path and every tree, and its answer, limit
      errors included, is exactly the one that the course of the resolution comes to.
      The descriptors open afterwards are those open before, and the result. */
  method OpenComponents(kernel: Kernel, root: nat, relative: string) returns (r: Outcome)
    requires kernel.Valid() && kernel.tree.Dir? && root in kernel.open && kernel.open[root] == []
    modifies kernel`open, kernel`next, kernel`used
    ensures kernel.Valid()
    ensures kernel.open == if r.Opened? then old(kernel.open)[r.fd := r.path] else old(kernel.open)
    ensures r.Opened? ==> r.fd !in old(kernel.open)
    ensures Is(r, Verdict(kernel.tree, kernel.rootPath, kernel.capacity - |old(kernel.open)|, relative))
  {
    hide Course, Stacked;
    if |relative| >= PATH_MAX {
      return NameTooLong;
    }
    ghost var fate := Verdict(kernel.tree, kernel.rootPath, kernel.capacity - kernel.used, relative);
    var o := new Opening(kernel, root, relative, fate);
    r := o.Run();
    o.Finish(r);
  }

  /** What a verdict means: without a limit it is what the literal resolver says, and
      so, unless a root link is swallowed or the path is absolute, what the plain
      confined resolver says; success always agrees with it.  Each limit has its
      reason, and where none of the reasons holds no limit is met. */
  lemma VerdictMeans(t: Node, rp: Option<string>, free: int, relative: string, longest: nat)
    requires LinksWithin(t, longest)
    ensures var f := Verdict(t, rp, free, relative);
            && (f.Ends? ==> f.r == Meaning(t, RootOf(rp), [], relative, MAX_LINKS))
            && (f.Ends? && f.r.At? ==> Resolve(t, RootOf(rp), [], Components(relative), MAX_LINKS) == f.r)
            && (f.Long? ==> |relative| + 1 + MAX_LINKS * (longest + 1) >= PATH_MAX - 1)
            && (f.Deep? ==> HasDeepDir(t)) && (f.Full? ==> free < SLOTS) && (f.Rootless? ==> rp.None?)
  {
    hide Course, Meaning, Resolve, Growth, LinksWithin, HasDeepDir, Swallows, NoRootLinks;
    if |relative| < PATH_MAX {
      var todo := if relative == "" then "." else relative;
      CourseMeans(t, rp, free, [], todo, MAX_LINKS);
      LimitsNeed(t, rp, free, [], todo, MAX_LINKS, longest);
      GrowthIs(MAX_LINKS, longest);
      StartMeaning(t, RootOf(rp), relative, MAX_LINKS);
      OpenedIsResolved(t, RootOf(rp), relative, MAX_LINKS);
    }
  }

  /** Told by the ordinary walk of the whole file system alone: an answer that is no
      limit is the escape error if the walk does not stay beneath the root, and what
      the walk finds or fails with if it does.  Only a path that starts with a slash,
      or a root link in front of more, is reported as not found instead. */
  lemma OpensWhatTheWalkFinds(top: Node, t: Node, root: string, rp: Option<string>, free: int, relative: string)
    requires Mounted(top, t, root) && (rp.Some? ==> rp.value == root) && Verdict(t, rp, free, relative).Ends?
    ensures var base, todo := Components(root), Components(relative);
            var r := Verdict(t, rp, free, relative).r;
            if Absolute(relative) || Swallows(t, root, [], todo, MAX_LINKS) then r == Failed(NotFound)
            else if Stays(top, root, base, todo, MAX_LINKS) then Rebased(base, r) == Walk(top, base, todo, MAX_LINKS)
            else r == Failed(Escape)
    ensures NoRootLinks(t, root) ==> !Swallows(t, root, [], Components(relative), MAX_LINKS)
  {
    hide Course, Walk, Stays, Resolve, Literal, Swallows, Components, NoRootLinks, Mounted;
    var start, todo := if relative == "" then "." else relative, Components(relative);
    RootUnasked(t, root, free, [], start, MAX_LINKS);
    CourseMeans(t, Some(root), free, [], start, MAX_LINKS);
    StartMeaning(t, root, relative, MAX_LINKS);
    LiteralExactly(t, root, [], todo, MAX_LINKS);
    MountedRoot(top, t, root);
    ConfinedExactly(top, t, root, [], todo, MAX_LINKS);
    assert Components(root) + [] == Components(root);
    if NoRootLinks(t, root) {
      NothingSwallowed(t, root, [], todo, MAX_LINKS);
    }
  }

  lemma MountedRoot(top: Node, t: Node, rp: string)
    requires Mounted(top, t, rp)
    ensures IsDir(t, [])
  {
  }

  /** Where the path of the root is not known, no answer depends on it: either it is the
      answer under every path, or it is the error that says so. */
  lemma {:induction false} RootUnasked(t: Node, rp: string, free: int, path: seq<string>, todo: string, links: nat)
    ensures var f := Course(t, None, free, path, todo, links); f.Rootless? || f == Course(t, Some(rp), free, path, todo, links)
    decreases links, |todo|
  {
    hide HeadLen, Lookup, Join, Beneath;
    if todo != "" {
      var name, rest := Head(todo), Rest(todo);
      if name == "." {
        RootUnasked(t, rp, free, path, rest, links);
      } else if name == ".." {
        if path != [] {
          RootUnasked(t, rp, free, path[..|path| - 1], rest, links);
        }
      } else if name != "" && Lookup(t, path + [name]).Some? {
        var child := Lookup(t, path + [name]).value;
        if child.Link? && !Absolute(child.target) && links > 0 {
          RootUnasked(t, rp, free, path, Join(child.target, rest), links - 1);
        } else if child.Dir? && rest != "" {
          RootUnasked(t, rp, free, path + [name], rest, links);
        }
      }
    }
  }

  lemma StartMeaning(t: Node, rp: string, relative: string, n: nat)
    ensures Meaning(t, rp, [], if relative == "" then "." else relative, n) == Meaning(t, rp, [], relative, n)
  {
    if relative == "" {
      DotComponents();
      ResolveDot(t, rp, [], [], n);
      assert ["."] + [] == ["."];
    }
  }

  /** So whatever it opens is what ordinary resolution finds, and all its answers
      are those of the plain confined resolver where no link leads to the root
      itself and the path is relative. */
  lemma OpenedIsResolved(t: Node, rp: string, relative: string, n: nat)
    ensures var meaning, plain := Meaning(t, rp, [], relative, n), Resolve(t, rp, [], Components(relative), n);
            && (meaning.At? ==> plain == meaning)
            && (meaning == plain <==> plain == Failed(NotFound) || !(Absolute(relative) || Swallows(t, rp, [], Components(relative), n)))
            && (NoRootLinks(t, rp) && !Absolute(relative) ==> meaning == plain)
  {
    LiteralExactly(t, rp, [], Components(relative), n);
    if NoRootLinks(t, rp) {
      NothingSwallowed(t, rp, [], Components(relative), n);
    }
  }

  lemma ExpansionStart(target: string, rootPath: string)
    ensures var to := Expansion(target, rootPath); to.Some? ==> to.value == "" || to.value[0] != SLASH
  {
  }
}
