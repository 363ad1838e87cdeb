/**
 What confinement means, told by the ordinary walk alone: which absolute links lie
 beneath the root, which walks stay there, and that the confined resolver refuses
 exactly the others.
 */
module Confinement {
  import opened Basics
  import opened Paths

  // -------------------------------------------------------------------------
  // Links beneath the root

  /** Trimming takes off slashes at the end, all but the first character at most, and
      nothing else. */
  lemma {:induction false} TrimmedIs(s: string)
    ensures var t := Trimmed(s);
            && t <= s && (|t| <= 1 || t[|t| - 1] != SLASH)
            && (s != "" ==> t != "") && forall i | |t| <= i < |s| :: s[i] == SLASH
  {
    if |s| > 1 && s[|s| - 1] == SLASH {
      TrimmedIs(s[..|s| - 1]);
    }
  }

  /** What follows leading slashes. */
  lemma {:induction false} SkipSlashesIs(s: string)
    ensures var n := |s| - |SkipSlashes(s)|; s[n..] == SkipSlashes(s) && forall i | 0 <= i < n :: s[i] == SLASH
  {
    if s != "" && s[0] == SLASH {
      SkipSlashesIs(s[1..]);
      var n := |s| - |SkipSlashes(s)|;
      assert s[1..][n - 1..] == s[n..];
      forall i | 0 < i < n ensures s[i] == s[1..][i - 1] {}
    }
  }

  // The link is the root's path, without slashes at its end, followed by `x`: by nothing,
  // by a slash, or by anything behind the top itself.
  ghost predicate Within(link: string, rootPath: string, x: string) {
    link == Trimmed(rootPath) + x && (x == "" || Absolute(x) || |Trimmed(rootPath)| <= 1)
  }

  /** Exactly the links of that form lie beneath the root, and then what is left to
      resolve from there is what follows, without its leading slashes. */
  lemma BeneathExactly(link: string, rootPath: string)
    ensures Beneath(link, rootPath).Some? <==> exists x: string :: Within(link, rootPath, x)
    ensures forall x: string | Within(link, rootPath, x) :: Beneath(link, rootPath) == Some(SkipSlashes(x))
  {
    var base := Trimmed(rootPath);
    if Beneath(link, rootPath).Some? {
      assert Within(link, rootPath, link[|base|..]);
    }
    forall x: string | Within(link, rootPath, x) ensures Beneath(link, rootPath) == Some(SkipSlashes(x)) {
      assert link[|base|..] == x;
      assert x != "" ==> link[|base|] == x[0];
    }
  }

  // -------------------------------------------------------------------------
  // Walks beneath the root

  /** Every position of the ordinary walk is the root directory or beneath it: no step up
      is taken from the root, and every absolute link that is followed names the root
      or something beneath it. */
  ghost predicate Stays(top: Node, rootPath: string, path: seq<string>, todo: seq<string>, links: nat)
    decreases links, |todo|
  {
    todo == [] ||
    var name, rest := todo[0], todo[1..];
    if name == "." then Stays(top, rootPath, path, rest, links)
    else if name == ".." then |path| > |Components(rootPath)| && Stays(top, rootPath, path[..|path| - 1], rest, links)
    else
      var child := Lookup(top, path + [name]);
      child.None? ||
      match child.value
      case File(_) => true
      case Dir(_) => Stays(top, rootPath, path + [name], rest, links)
      case Link(target) => links == 0 || StaysBehind(top, rootPath, path, target, rest, links)
  }

  ghost predicate StaysBehind(top: Node, rootPath: string, path: seq<string>, target: string, rest: seq<string>, links: nat)
    requires links > 0
    decreases links, 0
  {
    if Absolute(target) then
      exists x: string :: Within(target, rootPath, x) && Stays(top, rootPath, Components(rootPath), Components(x) + rest, links - 1)
    else Stays(top, rootPath, path, Components(target) + rest, links - 1)
  }

  // The confined answer as one of the whole file system.
  function Rebased(base: seq<string>, r: Resolved): Resolved {
    if r.At? then At(base + r.path) else r
  }

  // The confined resolver answers what the walk finds, and refuses exactly what leaves.
  ghost predicate Exact(top: Node, root: Node, rootPath: string, path: seq<string>, todo: seq<string>, links: nat) {
    var base := Components(rootPath);
    var r := Resolve(root, rootPath, path, todo, links);
    && (r == Failed(Escape) <==> !Stays(top, rootPath, base + path, todo, links))
    && (r != Failed(Escape) ==> Walk(top, base + path, todo, links) == Rebased(base, r))
  }

  lemma ExactOnDot(top: Node, root: Node, rootPath: string, path: seq<string>, rest: seq<string>, links: nat)
    requires Exact(top, root, rootPath, path, rest, links)
    ensures Exact(top, root, rootPath, path, ["."] + rest, links)
  {
    assert (["."] + rest)[1..] == rest;
  }

  lemma ExactOnUp(top: Node, root: Node, rootPath: string, path: seq<string>, rest: seq<string>, links: nat)
    requires path != [] ==> Exact(top, root, rootPath, path[..|path| - 1], rest, links)
    ensures Exact(top, root, rootPath, path, [".."] + rest, links)
  {
    assert ([".."] + rest)[1..] == rest;
    if path != [] {
      var base := Components(rootPath);
      assert (base + path)[..|base + path| - 1] == base + path[..|path| - 1];
    }
  }

  /** The confined resolver refuses with the escape error exactly the walks that do not
      stay beneath the root, and answers all others as the walk itself does, errors
      included. */
  lemma {:induction false} ConfinedExactly(top: Node, root: Node, rootPath: string, path: seq<string>, todo: seq<string>, links: nat)
    requires Mounted(top, root, rootPath) && IsDir(root, path)
    ensures Exact(top, root, rootPath, path, todo, links)
    decreases links, |todo|, 1
  {
    hide Exact;
    if todo == [] {
      ExactAtEnd(top, root, rootPath, path, links);
    } else {
      var name, rest := todo[0], todo[1..];
      assert todo == [name] + rest;
      if name == "." {
        ConfinedExactly(top, root, rootPath, path, rest, links);
        ExactOnDot(top, root, rootPath, path, rest, links);
      } else if name == ".." {
        if path != [] {
          ParentIsDir(root, path);
          ConfinedExactly(top, root, rootPath, path[..|path| - 1], rest, links);
        }
        ExactOnUp(top, root, rootPath, path, rest, links);
      } else {
        ExactOnChild(top, root, rootPath, path, name, rest, links);
      }
    }
  }

  lemma ExactAtEnd(top: Node, root: Node, rootPath: string, path: seq<string>, links: nat)
    ensures Exact(top, root, rootPath, path, [], links)
  {
  }

  lemma {:induction false} ExactOnChild(top: Node, root: Node, rootPath: string, path: seq<string>, name: string, rest: seq<string>, links: nat)
    requires Mounted(top, root, rootPath) && IsDir(root, path) && name != "." && name != ".."
    ensures Exact(top, root, rootPath, path, [name] + rest, links)
    decreases links, |rest| + 1, 0
  {
    hide Exact, Resolve, Walk, Stays;
    var base, child := Components(rootPath), Lookup(root, path + [name]);
    LookupBelow(top, root, base, path + [name]);
    if child.None? || child.value.File? || (child.value.Link? && links == 0) {
      ExactAtLeaf(top, root, rootPath, path, name, rest, links);
    } else if child.value.Dir? {
      ConfinedExactly(top, root, rootPath, path + [name], rest, links);
      ExactAtDir(top, root, rootPath, path, name, rest, links);
    } else {
      var target := child.value.target;
      if !Absolute(target) {
        ConfinedExactly(top, root, rootPath, path, Components(target) + rest, links - 1);
        ExactAtRelative(top, root, rootPath, path, name, rest, links, target);
      } else {
        if x: string :| Within(target, rootPath, x) {
          ConfinedExactly(top, root, rootPath, [], Components(x) + rest, links - 1);
          ExactAtAbsolute(top, root, rootPath, path, name, rest, links, target, x);
        } else {
          ExactAtRefused(top, root, rootPath, path, name, rest, links, target);
        }
      }
    }
  }

  lemma ExactAtLeaf(top: Node, root: Node, rootPath: string, path: seq<string>, name: string, rest: seq<string>, links: nat)
    requires name != "." && name != ".."
    requires Lookup(top, Components(rootPath) + (path + [name])) == Lookup(root, path + [name])
    requires var child := Lookup(root, path + [name]); child.None? || child.value.File? || (child.value.Link? && links == 0)
    ensures Exact(top, root, rootPath, path, [name] + rest, links)
  {
    var base, todo := Components(rootPath), [name] + rest;
    assert todo[0] == name && todo[1..] == rest;
    assert base + path + [name] == base + (path + [name]);
  }

  lemma ExactAtDir(top: Node, root: Node, rootPath: string, path: seq<string>, name: string, rest: seq<string>, links: nat)
    requires name != "." && name != ".." && IsDir(root, path + [name])
    requires Lookup(top, Components(rootPath) + (path + [name])) == Lookup(root, path + [name])
    requires Exact(top, root, rootPath, path + [name], rest, links)
    ensures Exact(top, root, rootPath, path, [name] + rest, links)
  {
    hide Lookup, Components;
    var base, todo := Components(rootPath), [name] + rest;
    assert todo[0] == name && todo[1..] == rest;
    assert base + path + [name] == base + (path + [name]);
  }

  lemma StaysAtLink(top: Node, rootPath: string, path: seq<string>, name: string, rest: seq<string>, links: nat, target: string)
    requires name != "." && name != ".." && links > 0 && Lookup(top, path + [name]) == Some(Link(target))
    ensures Stays(top, rootPath, path, [name] + rest, links) <==> StaysBehind(top, rootPath, path, target, rest, links)
  {
    var todo := [name] + rest;
    assert todo[0] == name && todo[1..] == rest;
  }

  lemma ExactAtRelative(top: Node, root: Node, rootPath: string, path: seq<string>, name: string, rest: seq<string>, links: nat, target: string)
    requires name != "." && name != ".." && links > 0 && !Absolute(target)
    requires Lookup(top, Components(rootPath) + (path + [name])) == Lookup(root, path + [name]) == Some(Link(target))
    requires Exact(top, root, rootPath, path, Components(target) + rest, links - 1)
    ensures Exact(top, root, rootPath, path, [name] + rest, links)
  {
    hide Lookup, Components;
    var base, todo := Components(rootPath), [name] + rest;
    assert todo[0] == name && todo[1..] == rest;
    assert base + path + [name] == base + (path + [name]);
    StaysAtLink(top, rootPath, base + path, name, rest, links, target);
  }

  lemma ExactAtRefused(top: Node, root: Node, rootPath: string, path: seq<string>, name: string, rest: seq<string>, links: nat, target: string)
    requires name != "." && name != ".." && links > 0 && Absolute(target)
    requires Lookup(top, Components(rootPath) + (path + [name])) == Lookup(root, path + [name]) == Some(Link(target))
    requires forall x: string :: !Within(target, rootPath, x)
    ensures Exact(top, root, rootPath, path, [name] + rest, links)
  {
    hide Lookup, Components, Within, Beneath;
    BeneathExactly(target, rootPath);
    var base, todo := Components(rootPath), [name] + rest;
    assert todo[0] == name && todo[1..] == rest;
    assert base + path + [name] == base + (path + [name]);
    StaysAtLink(top, rootPath, base + path, name, rest, links, target);
  }

  // Only one `x` will do.
  lemma WithinOnce(link: string, rootPath: string, x: string)
    requires Within(link, rootPath, x)
    ensures forall y: string | Within(link, rootPath, y) :: y == x
  {
    forall y: string | Within(link, rootPath, y) ensures y == x {
      assert y == link[|Trimmed(rootPath)|..] && x == link[|Trimmed(rootPath)|..];
    }
  }

  lemma ExactAtAbsolute(top: Node, root: Node, rootPath: string, path: seq<string>, name: string, rest: seq<string>, links: nat, target: string, x: string)
    requires Mounted(top, root, rootPath) && name != "." && name != ".." && links > 0 && Absolute(target)
    requires Lookup(top, Components(rootPath) + (path + [name])) == Lookup(root, path + [name]) == Some(Link(target))
    requires Within(target, rootPath, x)
    requires Exact(top, root, rootPath, [], Components(x) + rest, links - 1)
    ensures Exact(top, root, rootPath, path, [name] + rest, links)
  {
    hide Lookup, Components, Within, Beneath, Mounted, SkipSlashes;
    BeneathExactly(target, rootPath);
    WithinOnce(target, rootPath, x);
    WalkFromTop(top, root, rootPath, target, x, rest, links - 1);
    var base, todo := Components(rootPath), [name] + rest;
    assert todo[0] == name && todo[1..] == rest;
    assert base + path + [name] == base + (path + [name]) && base + [] == base;
    StaysAtLink(top, rootPath, base + path, name, rest, links, target);
  }

  lemma WalkFromTop(top: Node, root: Node, rootPath: string, target: string, x: string, rest: seq<string>, links: nat)
    requires Mounted(top, root, rootPath) && Within(target, rootPath, x)
    ensures Components(SkipSlashes(x)) == Components(x)
    ensures Walk(top, [], Components(target) + rest, links) == Walk(top, Components(rootPath) + [], Components(x) + rest, links)
  {
    hide Lookup, Walk, Components, Beneath, SkipSlashes, Within;
    BeneathExactly(target, rootPath);
    BeneathComponents(target, rootPath);
    ComponentsSkip(x);
    FromTheTop(top, root, rootPath, Components(x) + rest, links);
    assert Components(rootPath) + (Components(x) + rest) == Components(target) + rest;
  }
}
