/**
 Trees of directories, files and symbolic links, and what a path means in them:
 a plain resolver over lists of components, confined to a root or not.
 */
module Paths {
  import opened Basics

  const SLASH: char := '/'

  datatype Node = Dir(children: map<string, Node>) | File(id: int) | Link(target: string)

  datatype Errno = NotFound | NotDirectory | Escape | TooManyLinks

  datatype Resolved = At(path: seq<string>) | Failed(errno: Errno)

  // -------------------------------------------------------------------------
  // Components

  // The length of the first component.
  function HeadLen(s: string): (n: nat)
    ensures n <= |s| && (forall i | 0 <= i < n :: s[i] != SLASH) && (n < |s| ==> s[n] == SLASH)
  {
    if s == "" || s[0] == SLASH then 0 else 1 + HeadLen(s[1..])
  }

  function SkipSlashes(s: string): (r: string)
    ensures |r| <= |s| && (r == "" || r[0] != SLASH)
  {
    if s == "" || s[0] != SLASH then s else SkipSlashes(s[1..])
  }

  // All non-empty components.
  function Components(s: string): (r: seq<string>)
    ensures "" !in r
    decreases |s|
  {
    if s == "" then []
    else if s[0] == SLASH then Components(s[1..])
    else [s[..HeadLen(s)]] + Components(s[HeadLen(s)..])
  }

  lemma {:induction false} ComponentsSkip(s: string)
    ensures Components(SkipSlashes(s)) == Components(s)
  {
    if s != "" && s[0] == SLASH {
      ComponentsSkip(s[1..]);
    }
  }

  lemma {:induction false} HeadLenJoin(a: string, b: string)
    requires b == "" || b[0] == SLASH
    ensures HeadLen(a + b) == HeadLen(a)
  {
    if a == "" {
      assert a + b == b;
    } else if a[0] != SLASH {
      assert (a + b)[1..] == a[1..] + b;
      HeadLenJoin(a[1..], b);
    }
  }

  lemma {:induction false} ComponentsJoin(a: string, b: string)
    requires b == "" || b[0] == SLASH
    ensures Components(a + b) == Components(a) + Components(b)
    decreases |a|
  {
    hide HeadLen;
    if a == "" {
      assert a + b == b;
    } else if a[0] == SLASH {
      assert (a + b)[1..] == a[1..] + b;
      ComponentsJoin(a[1..], b);
    } else {
      var n := HeadLen(a);
      HeadLenJoin(a, b);
      assert (a + b)[..n] == a[..n];
      assert (a + b)[n..] == a[n..] + b;
      ComponentsJoin(a[n..], b);
    }
  }

  // -------------------------------------------------------------------------
  // Nodes

  function Lookup(root: Node, path: seq<string>): Option<Node>
    decreases |path|
  {
    if path == [] then Some(root)
    else
      var parent := Lookup(root, path[..|path| - 1]);
      if parent.Some? && parent.value.Dir? && path[|path| - 1] in parent.value.children
      then Some(parent.value.children[path[|path| - 1]])
      else None
  }

  // A directory reached through real directories only.
  predicate IsDir(root: Node, path: seq<string>) {
    var n := Lookup(root, path);
    n.Some? && n.value.Dir?
  }

  lemma LookupChild(root: Node, path: seq<string>, name: string)
    ensures Lookup(root, path + [name]) ==
            (if IsDir(root, path) && name in Lookup(root, path).value.children
             then Some(Lookup(root, path).value.children[name]) else None)
  {
    assert (path + [name])[..|path|] == path;
  }

  lemma ParentIsDir(root: Node, path: seq<string>)
    requires Lookup(root, path).Some? && path != []
    ensures IsDir(root, path[..|path| - 1])
  {
  }

  lemma {:induction false} PrefixIsDir(root: Node, path: seq<string>, n: nat)
    requires Lookup(root, path).Some? && n < |path|
    ensures IsDir(root, path[..n])
    decreases |path|
  {
    ParentIsDir(root, path);
    var up := path[..|path| - 1];
    if n < |up| {
      PrefixIsDir(root, up, n);
      assert up[..n] == path[..n];
    } else {
      assert up == path[..n];
    }
  }

  // -------------------------------------------------------------------------
  // Links

  function Trimmed(s: string): (r: string)
    ensures r <= s
  {
    if |s| > 1 && s[|s| - 1] == SLASH then Trimmed(s[..|s| - 1]) else s
  }

  lemma {:induction false} TrimmedComponents(s: string)
    ensures Components(Trimmed(s)) == Components(s)
  {
    if |s| > 1 && s[|s| - 1] == SLASH {
      var t := s[..|s| - 1];
      TrimmedComponents(t);
      assert s == t + [SLASH];
      ComponentsJoin(t, [SLASH]);
    }
  }

  // What an absolute link leaves to resolve from the root, if it stays beneath it.
  function Beneath(link: string, rootPath: string): Option<string> {
    var base := Trimmed(rootPath);
    if base <= link && !(|base| > 1 && |link| > |base| && link[|base|] != SLASH)
    then Some(SkipSlashes(link[|base|..])) else None
  }

  lemma BeneathComponents(link: string, rootPath: string)
    requires Beneath(link, rootPath).Some? && (rootPath == "" || rootPath[0] == SLASH)
    ensures Components(link) == Components(rootPath) + Components(Beneath(link, rootPath).value)
  {
    var base := Trimmed(rootPath);
    TrimmedComponents(rootPath);
    ComponentsSkip(link[|base|..]);
    assert link == base + link[|base|..];
    if |base| > 1 {
      ComponentsJoin(base, link[|base|..]);
    } else if |base| == 1 {
      assert base == [SLASH];
      assert Components(link) == Components(link[1..]);
    }
  }

  predicate Absolute(link: string) {
    link != "" && link[0] == SLASH
  }

  // -------------------------------------------------------------------------
  /** The confined resolver: a position beneath the root, the components left and
      how many more links may be followed. */
  function Resolve(root: Node, rootPath: string, path: seq<string>, todo: seq<string>, links: nat): (r: Resolved)
    decreases links, |todo|
  {
    if todo == [] then At(path)
    else
      var name, rest := todo[0], todo[1..];
      if name == "." then Resolve(root, rootPath, path, rest, links)
      else if name == ".." then
        if path == [] then Failed(Escape) else Resolve(root, rootPath, path[..|path| - 1], rest, links)
      else
        var child := Lookup(root, path + [name]);
        if child.None? then Failed(NotFound)
        else match child.value
          case File(_) => if rest == [] then At(path + [name]) else Failed(NotDirectory)
          case Dir(_) => Resolve(root, rootPath, path + [name], rest, links)
          case Link(target) =>
            if links == 0 then Failed(TooManyLinks)
            else if !Absolute(target) then Resolve(root, rootPath, path, Components(target) + rest, links - 1)
            else
              var inside := Beneath(target, rootPath);
              if inside.None? then Failed(Escape)
              else Resolve(root, rootPath, [], Components(inside.value) + rest, links - 1)
  }

  // Where a link leads, if it stays beneath the root.
  function Expansion(link: string, rootPath: string): Option<string> {
    if Absolute(link) then Beneath(link, rootPath) else Some(link)
  }

  /** The same resolver with one difference: a link that expands to nothing, as one
      to the root itself does, must come last; otherwise what follows it is taken
      for an entry with an empty name. */
  function Literal(root: Node, rootPath: string, path: seq<string>, todo: seq<string>, links: nat): (r: Resolved)
    decreases links, |todo|
  {
    if todo == [] then At(path)
    else
      var name, rest := todo[0], todo[1..];
      if name == "." then Literal(root, rootPath, path, rest, links)
      else if name == ".." then
        if path == [] then Failed(Escape) else Literal(root, rootPath, path[..|path| - 1], rest, links)
      else
        var child := Lookup(root, path + [name]);
        if child.None? then Failed(NotFound)
        else match child.value
          case File(_) => if rest == [] then At(path + [name]) else Failed(NotDirectory)
          case Dir(_) => Literal(root, rootPath, path + [name], rest, links)
          case Link(target) =>
            var to := Expansion(target, rootPath);
            if links == 0 then Failed(TooManyLinks)
            else if to.None? then Failed(Escape)
            else if to.value == "" && rest != [] then Failed(NotFound)
            else Literal(root, rootPath, if Absolute(target) then [] else path, Components(to.value) + rest, links - 1)
  }

  // A link that expands to nothing is met in front of further components.
  predicate Swallows(root: Node, rootPath: string, path: seq<string>, todo: seq<string>, links: nat)
    decreases links, |todo|
  {
    if todo == [] then false
    else
      var name, rest := todo[0], todo[1..];
      if name == "." then Swallows(root, rootPath, path, rest, links)
      else if name == ".." then path != [] && Swallows(root, rootPath, path[..|path| - 1], rest, links)
      else
        var child := Lookup(root, path + [name]);
        if child.None? then false
        else match child.value
          case File(_) => false
          case Dir(_) => Swallows(root, rootPath, path + [name], rest, links)
          case Link(target) =>
            var to := Expansion(target, rootPath);
            if links == 0 || to.None? then false
            else if to.value == "" && rest != [] then true
            else Swallows(root, rootPath, if Absolute(target) then [] else path, Components(to.value) + rest, links - 1)
  }

  /** The two resolvers differ exactly when such a link is met, and then the
      literal one reports not found. */
  lemma {:induction false} LiteralExactly(root: Node, rootPath: string, path: seq<string>, todo: seq<string>, links: nat)
    ensures Literal(root, rootPath, path, todo, links) ==
            if Swallows(root, rootPath, path, todo, links) then Failed(NotFound) else Resolve(root, rootPath, path, todo, links)
    decreases links, |todo|
  {
    if todo != [] {
      var name, rest := todo[0], todo[1..];
      if name == "." {
        LiteralExactly(root, rootPath, path, rest, links);
      } else if name == ".." {
        if path != [] {
          LiteralExactly(root, rootPath, path[..|path| - 1], rest, links);
        }
      } else {
        var child := Lookup(root, path + [name]);
        if child.Some? && child.value.Dir? {
          LiteralExactly(root, rootPath, path + [name], rest, links);
        } else if child.Some? && child.value.Link? && links > 0 {
          var target := child.value.target;
          var to := Expansion(target, rootPath);
          if to.Some? && !(to.value == "" && rest != []) {
            LiteralExactly(root, rootPath, if Absolute(target) then [] else path, Components(to.value) + rest, links - 1);
          }
        }
      }
    }
  }

  // No link of the tree expands to nothing.
  ghost predicate NoRootLinks(root: Node, rootPath: string) {
    forall p, t | Lookup(root, p) == Some(Link(t)) :: Expansion(t, rootPath) != Some("")
  }

  lemma {:induction false} NothingSwallowed(root: Node, rootPath: string, path: seq<string>, todo: seq<string>, links: nat)
    requires NoRootLinks(root, rootPath)
    ensures !Swallows(root, rootPath, path, todo, links)
    decreases links, |todo|
  {
    if todo != [] {
      var name, rest := todo[0], todo[1..];
      if name == "." {
        NothingSwallowed(root, rootPath, path, rest, links);
      } else if name == ".." {
        if path != [] {
          NothingSwallowed(root, rootPath, path[..|path| - 1], rest, links);
        }
      } else {
        var child := Lookup(root, path + [name]);
        if child.Some? && child.value.Dir? {
          NothingSwallowed(root, rootPath, path + [name], rest, links);
        } else if child.Some? && child.value.Link? && links > 0 {
          var target := child.value.target;
          assert Lookup(root, path + [name]) == Some(Link(target));
          var to := Expansion(target, rootPath);
          if to.Some? {
            NothingSwallowed(root, rootPath, if Absolute(target) then [] else path, Components(to.value) + rest, links - 1);
          }
        }
      }
    }
  }

  /** It does happen: beneath /srv, a link `l` to /srv and a file `f`. */
  lemma RootLinkIsSwallowed()
    ensures var tree := Dir(map["l" := Link("/srv"), "f" := File(7)]);
            && Resolve(tree, "/srv", [], ["l", "f"], 40) == At(["f"])
            && Literal(tree, "/srv", [], ["l", "f"], 40) == Failed(NotFound)
  {
    var tree := Dir(map["l" := Link("/srv"), "f" := File(7)]);
    LookupChild(tree, [], "l");
    LookupChild(tree, [], "f");
    assert [] + ["l"] == ["l"] && [] + ["f"] == ["f"];
    assert Trimmed("/srv") == "/srv";
    assert "/srv"[4..] == "";
    assert Beneath("/srv", "/srv") == Some("");
    assert Components("") + ["f"] == ["f"];
    assert ["l", "f"][1..] == ["f"];
    assert Resolve(tree, "/srv", [], ["f"], 39) == At(["f"]);
  }

  /** A result is always a file or directory beneath the root, reached through
      real directories. */
  lemma {:induction false} ResolveStaysInside(root: Node, rootPath: string, path: seq<string>, todo: seq<string>, links: nat)
    requires root.Dir? && IsDir(root, path)
    ensures var r := Resolve(root, rootPath, path, todo, links);
            r.At? ==> Lookup(root, r.path).Some? && !Lookup(root, r.path).value.Link?
    decreases links, |todo|
  {
    if todo != [] {
      var name, rest := todo[0], todo[1..];
      if name == "." {
        ResolveStaysInside(root, rootPath, path, rest, links);
      } else if name == ".." {
        if path != [] {
          ParentIsDir(root, path);
          ResolveStaysInside(root, rootPath, path[..|path| - 1], rest, links);
        }
      } else {
        var child := Lookup(root, path + [name]);
        if child.Some? && child.value.Dir? {
          ResolveStaysInside(root, rootPath, path + [name], rest, links);
        } else if child.Some? && child.value.Link? && links > 0 {
          var target := child.value.target;
          if !Absolute(target) {
            ResolveStaysInside(root, rootPath, path, Components(target) + rest, links - 1);
          } else if Beneath(target, rootPath).Some? {
            ResolveStaysInside(root, rootPath, [], Components(Beneath(target, rootPath).value) + rest, links - 1);
          }
        }
      }
    }
  }

  // -------------------------------------------------------------------------
  /** The ordinary resolver of a whole file system: `..` stays at the top, and
      absolute links start there. */
  function Walk(top: Node, path: seq<string>, todo: seq<string>, links: nat): (r: Resolved)
    decreases links, |todo|
  {
    if todo == [] then At(path)
    else
      var name, rest := todo[0], todo[1..];
      if name == "." then Walk(top, path, rest, links)
      else if name == ".." then Walk(top, if path == [] then [] else path[..|path| - 1], rest, links)
      else
        var child := Lookup(top, path + [name]);
        if child.None? then Failed(NotFound)
        else match child.value
          case File(_) => if rest == [] then At(path + [name]) else Failed(NotDirectory)
          case Dir(_) => Walk(top, path + [name], rest, links)
          case Link(target) =>
            if links == 0 then Failed(TooManyLinks)
            else Walk(top, if Absolute(target) then [] else path, Components(target) + rest, links - 1)
  }

  // The root directory is where the system says it is.
  predicate Mounted(top: Node, root: Node, rootPath: string) {
    && Lookup(top, Components(rootPath)) == Some(root) && root.Dir?
    && "." !in Components(rootPath) && ".." !in Components(rootPath)
    && (rootPath == "" || rootPath[0] == SLASH)
  }

  lemma {:induction false} LookupBelow(top: Node, root: Node, base: seq<string>, path: seq<string>)
    requires Lookup(top, base) == Some(root)
    ensures Lookup(top, base + path) == Lookup(root, path)
    decreases |path|
  {
    if path == [] {
      assert base + path == base;
    } else {
      var up := path[..|path| - 1];
      LookupBelow(top, root, base, up);
      assert (base + path)[..|base + path| - 1] == base + up;
    }
  }

  // Walking down real directories.
  lemma {:induction false} WalkDown(top: Node, path: seq<string>, down: seq<string>, todo: seq<string>, links: nat)
    requires IsDir(top, path + down) && "." !in down && ".." !in down
    ensures Walk(top, path, down + todo, links) == Walk(top, path + down, todo, links)
    decreases |down|
  {
    if down == [] {
      assert down + todo == todo && path + down == path;
    } else {
      var name, rest := down[0], down[1..];
      assert path + down == (path + [name]) + rest;
      if rest == [] {
        assert path + down == path + [name];
      } else {
        PrefixIsDir(top, path + down, |path| + 1);
        assert (path + down)[..|path| + 1] == path + [name];
      }
      assert (down + todo)[0] == name && (down + todo)[1..] == rest + todo;
      WalkDown(top, path + [name], rest, todo, links);
    }
  }

  // If the confined resolver finds something, the ordinary one finds the same.
  ghost predicate Agree(top: Node, root: Node, rootPath: string, path: seq<string>, todo: seq<string>, links: nat) {
    var r := Resolve(root, rootPath, path, todo, links);
    r.At? ==> Walk(top, Components(rootPath) + path, todo, links) == At(Components(rootPath) + r.path)
  }

  lemma AgreeOnDot(top: Node, root: Node, rootPath: string, path: seq<string>, rest: seq<string>, links: nat)
    requires Agree(top, root, rootPath, path, rest, links)
    ensures Agree(top, root, rootPath, path, ["."] + rest, links)
  {
    assert (["."] + rest)[1..] == rest;
  }

  lemma AgreeOnUp(top: Node, root: Node, rootPath: string, path: seq<string>, rest: seq<string>, links: nat)
    requires path != [] ==> Agree(top, root, rootPath, path[..|path| - 1], rest, links)
    ensures Agree(top, root, rootPath, path, [".."] + rest, links)
  {
    assert ([".."] + rest)[1..] == rest;
    if path != [] {
      var base := Components(rootPath);
      assert (base + path)[..|base + path| - 1] == base + path[..|path| - 1];
    }
  }

  /** Whenever the confined resolver finds something, ordinary resolution from the
      root directory finds the same node: confinement only adds refusals. */
  lemma {:induction false} ResolveAgreesWithWalk(top: Node, root: Node, rootPath: string, path: seq<string>, todo: seq<string>, links: nat)
    requires Mounted(top, root, rootPath) && IsDir(root, path)
    ensures Agree(top, root, rootPath, path, todo, links)
    decreases links, |todo|, 0
  {
    if todo != [] {
      var name, rest := todo[0], todo[1..];
      assert todo == [name] + rest;
      if name == "." {
        ResolveAgreesWithWalk(top, root, rootPath, path, rest, links);
        AgreeOnDot(top, root, rootPath, path, rest, links);
      } else if name == ".." {
        if path != [] {
          ParentIsDir(root, path);
          ResolveAgreesWithWalk(top, root, rootPath, path[..|path| - 1], rest, links);
        }
        AgreeOnUp(top, root, rootPath, path, rest, links);
      } else {
        AgreeOnChild(top, root, rootPath, path, name, rest, links);
      }
    }
  }

  lemma {:induction false} AgreeOnChild(top: Node, root: Node, rootPath: string, path: seq<string>, name: string, rest: seq<string>, links: nat)
    requires Mounted(top, root, rootPath) && IsDir(root, path) && name != "." && name != ".."
    ensures Agree(top, root, rootPath, path, [name] + rest, links)
    decreases links, |rest|, 1
  {
    hide Agree, SkipSlashes, Resolve, Walk;
    var base, child := Components(rootPath), Lookup(root, path + [name]);
    LookupBelow(top, root, base, path + [name]);
    if child.Some? && child.value.Dir? {
      ResolveAgreesWithWalk(top, root, rootPath, path + [name], rest, links);
    } else if child.Some? && child.value.Link? && links > 0 {
      var target := child.value.target;
      if !Absolute(target) {
        ResolveAgreesWithWalk(top, root, rootPath, path, Components(target) + rest, links - 1);
      } else if Beneath(target, rootPath).Some? {
        var inside := Beneath(target, rootPath).value;
        ResolveAgreesWithWalk(top, root, rootPath, [], Components(inside) + rest, links - 1);
      }
    }
    AgreeAtChild(top, root, rootPath, path, name, rest, links);
  }

  // One step at a name, given agreement on what comes after it.
  lemma AgreeAtChild(top: Node, root: Node, rootPath: string, path: seq<string>, name: string, rest: seq<string>, links: nat)
    requires Mounted(top, root, rootPath) && name != "." && name != ".."
    requires Lookup(top, Components(rootPath) + (path + [name])) == Lookup(root, path + [name])
    requires var child := Lookup(root, path + [name]);
             && (child.Some? && child.value.Dir? ==> Agree(top, root, rootPath, path + [name], rest, links))
             && (child.Some? && child.value.Link? && links > 0 ==>
                   var target := child.value.target;
                   if !Absolute(target) then Agree(top, root, rootPath, path, Components(target) + rest, links - 1)
                   else Beneath(target, rootPath).Some? ==> Agree(top, root, rootPath, [], Components(Beneath(target, rootPath).value) + rest, links - 1))
    ensures Agree(top, root, rootPath, path, [name] + rest, links)
  {
    var child := Lookup(root, path + [name]);
    if child.Some? && child.value.Link? {
      if links > 0 && Absolute(child.value.target) {
        AgreeAtAbsolute(top, root, rootPath, path, name, rest, links, child.value.target);
      } else {
        AgreeAtRelative(top, root, rootPath, path, name, rest, links, child.value.target);
      }
    } else {
      var todo := [name] + rest;
      assert todo[0] == name && todo[1..] == rest;
      assert Components(rootPath) + path + [name] == Components(rootPath) + (path + [name]);
    }
  }

  lemma AgreeAtRelative(top: Node, root: Node, rootPath: string, path: seq<string>, name: string, rest: seq<string>, links: nat, target: string)
    requires name != "." && name != ".." && (links == 0 || !Absolute(target))
    requires Lookup(top, Components(rootPath) + (path + [name])) == Lookup(root, path + [name]) == Some(Link(target))
    requires links > 0 ==> Agree(top, root, rootPath, path, Components(target) + rest, links - 1)
    ensures Agree(top, root, rootPath, path, [name] + rest, links)
  {
    var todo := [name] + rest;
    assert todo[0] == name && todo[1..] == rest;
    assert Components(rootPath) + path + [name] == Components(rootPath) + (path + [name]);
  }

  lemma AgreeAtAbsolute(top: Node, root: Node, rootPath: string, path: seq<string>, name: string, rest: seq<string>, links: nat, target: string)
    requires Mounted(top, root, rootPath) && name != "." && name != ".." && links > 0 && Absolute(target)
    requires Lookup(top, Components(rootPath) + (path + [name])) == Lookup(root, path + [name]) == Some(Link(target))
    requires Beneath(target, rootPath).Some? ==>
               Agree(top, root, rootPath, [], Components(Beneath(target, rootPath).value) + rest, links - 1)
    ensures Agree(top, root, rootPath, path, [name] + rest, links)
  {
    hide Lookup, Components, SkipSlashes;
    var base, todo := Components(rootPath), [name] + rest;
    assert todo[0] == name && todo[1..] == rest;
    assert base + path + [name] == base + (path + [name]);
    if Beneath(target, rootPath).Some? {
      var inside := Beneath(target, rootPath).value;
      BeneathComponents(target, rootPath);
      FromTheTop(top, root, rootPath, Components(inside) + rest, links - 1);
      assert base + (Components(inside) + rest) == Components(target) + rest;
    }
  }

  lemma FromTheTop(top: Node, root: Node, rootPath: string, todo: seq<string>, links: nat)
    requires Mounted(top, root, rootPath)
    ensures Walk(top, [], Components(rootPath) + todo, links) == Walk(top, Components(rootPath) + [], todo, links)
  {
    var base := Components(rootPath);
    assert [] + base == base && base + [] == base;
    WalkDown(top, [], base, todo, links);
  }
}
