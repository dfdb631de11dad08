/** Path confinement: safePath over Go's lexical path functions on Unix, and what the
    daemon's file commands can change in a symlink-free tree. */
module Paths {
  import opened Common
  import opened Text

  /** A directory entry's name as it can appear in a cleaned path. */
  predicate Normal(part: string) {
    part != "" && part != "." && part != ".." && Lacks(part, '/')
  }

  predicate AllNormal(parts: seq<string>) {
    forall i :: 0 <= i < |parts| ==> Normal(parts[i])
  }

  /** Follow one path element from an absolute directory; ".." at the top stays there. */
  function Enter(stack: seq<string>, part: string): seq<string> {
    if part == "" || part == "." then stack
    else if part == ".." then (if stack == [] then [] else stack[..|stack| - 1])
    else stack + [part]
  }

  function Walk(stack: seq<string>, parts: seq<string>): seq<string> {
    if parts == [] then stack else Enter(Walk(stack, parts[..|parts| - 1]), parts[|parts| - 1])
  }

  /** Follow one element of a relative path; leading ".." elements are kept. */
  function EnterRelative(stack: seq<string>, part: string): seq<string> {
    if part == "" || part == "." then stack
    else if part == ".." && stack != [] && stack[|stack| - 1] != ".." then stack[..|stack| - 1]
    else stack + [part]
  }

  function WalkRelative(parts: seq<string>): seq<string> {
    if parts == [] then [] else EnterRelative(WalkRelative(parts[..|parts| - 1]), parts[|parts| - 1])
  }

  /** The absolute path with these components. */
  function Render(parts: seq<string>): string {
    "/" + Join(parts, '/')
  }

  predicate IsAbs(path: string) {
    path != "" && path[0] == '/'
  }

  function Components(path: string): seq<string> {
    Walk([], Split(path, '/'))
  }

  /** filepath.Clean. */
  function Clean(path: string): string {
    if IsAbs(path) then Render(Components(path))
    else
      var parts := WalkRelative(Split(path, '/'));
      if parts == [] then "." else Join(parts, '/')
  }

  /** filepath.Abs in working directory `cwd`. */
  function Abs(cwd: string, path: string): string {
    if IsAbs(path) then Clean(path) else if path == "" then Clean(cwd) else Clean(cwd + "/" + path)
  }

  predicate HasPrefix(s: string, prefix: string) {
    |prefix| <= |s| && s[..|prefix|] == prefix
  }

  /** None when the path is refused. */
  function SafePath(cwd: string, root: string, rel: string): Option<string> {
    if IsAbs(rel) then None
    else
      var cleanRoot := Abs(cwd, root);
      var target := Abs(cwd, Clean(cleanRoot + "/" + Clean(rel)));
      if target != cleanRoot && !HasPrefix(target, cleanRoot + "/") then None else Some(target)
  }

  // Splitting, joining and walking.

  lemma SplitRender(parts: seq<string>)
    requires AllNormal(parts)
    ensures Split(Render(parts), '/') == if parts == [] then ["", ""] else [""] + parts
  {
    SplitConcat("", Join(parts, '/'), '/');
    assert "" + "/" + Join(parts, '/') == Render(parts);
    if parts != [] { SplitJoin(parts, '/'); }
    assert Split("", '/') == [""];
  }

  lemma {:induction false} WalkConcat(stack: seq<string>, a: seq<string>, b: seq<string>)
    ensures Walk(stack, a + b) == Walk(Walk(stack, a), b)
  {
    if b == [] {
      assert a + b == a;
    } else {
      WalkConcat(stack, a, b[..|b| - 1]);
      assert (a + b)[..|a + b| - 1] == a + b[..|b| - 1];
    }
  }

  lemma {:induction false} WalkNormal(stack: seq<string>, parts: seq<string>)
    requires AllNormal(stack) && forall i :: 0 <= i < |parts| ==> Lacks(parts[i], '/')
    ensures AllNormal(Walk(stack, parts))
  {
    if parts != [] { WalkNormal(stack, parts[..|parts| - 1]); }
  }

  lemma {:induction false} WalkThroughNormal(stack: seq<string>, parts: seq<string>)
    requires AllNormal(parts)
    ensures Walk(stack, parts) == stack + parts
  {
    if parts != [] {
      WalkThroughNormal(stack, parts[..|parts| - 1]);
      assert stack + parts == (stack + parts[..|parts| - 1]) + [parts[|parts| - 1]];
    } else {
      assert stack + parts == stack;
    }
  }

  lemma ComponentsNormal(path: string)
    ensures AllNormal(Components(path))
  {
    SplitLacks(path, '/');
    WalkNormal([], Split(path, '/'));
  }

  lemma ComponentsOfRender(parts: seq<string>)
    requires AllNormal(parts)
    ensures Components(Render(parts)) == parts && IsAbs(Render(parts))
  {
    SplitRender(parts);
    if parts == [] {
      WalkConcat([], [""], [""]);
      assert [""] + [""] == ["", ""];
    } else {
      WalkConcat([], [""], parts);
      WalkThroughNormal([], parts);
    }
    assert [""][..0] == [];
  }

  /** Cleaning a relative path first changes nothing about where it leads. */
  lemma {:induction false} WalkCleaned(stack: seq<string>, parts: seq<string>)
    ensures Walk(stack, WalkRelative(parts)) == Walk(stack, parts)
  {
    if parts != [] {
      var front, part := parts[..|parts| - 1], parts[|parts| - 1];
      WalkCleaned(stack, front);
      var cleaned, next := WalkRelative(front), WalkRelative(parts);
      if part == "" || part == "." {
      } else if part == ".." && cleaned != [] && cleaned[|cleaned| - 1] != ".." {
        RelativeParts(front);
        var before := Walk(stack, next);
        assert Walk(stack, cleaned) == Enter(before, cleaned[|cleaned| - 1]);
        assert Enter(before, cleaned[|cleaned| - 1]) == before + [cleaned[|cleaned| - 1]];
      } else {
        assert next[..|next| - 1] == cleaned;
      }
    }
  }

  lemma {:induction false} RelativeParts(parts: seq<string>)
    ensures forall i :: 0 <= i < |WalkRelative(parts)| ==>
              WalkRelative(parts)[i] != "" && WalkRelative(parts)[i] != "." && WalkRelative(parts)[i] in parts
  {
    if parts != [] {
      RelativeParts(parts[..|parts| - 1]);
      assert forall p :: p in parts[..|parts| - 1] ==> p in parts;
    }
  }

  lemma SplitClean(rel: string)
    requires !IsAbs(rel)
    ensures var parts := WalkRelative(Split(rel, '/'));
            Split(Clean(rel), '/') == if parts == [] then ["."] else parts
  {
    var parts := WalkRelative(Split(rel, '/'));
    SplitLacks(rel, '/');
    RelativeParts(Split(rel, '/'));
    hide WalkRelative, Split, Join;
    SplitWhole(".", '/');
    if parts != [] { SplitJoin(parts, '/'); }
  }

  lemma WalkClean(stack: seq<string>, rel: string)
    requires !IsAbs(rel)
    ensures Walk(stack, Split(Clean(rel), '/')) == Walk(stack, Split(rel, '/'))
  {
    SplitClean(rel);
    WalkCleaned(stack, Split(rel, '/'));
    hide Clean, Split;
    assert ["."][..0] == [];
  }

  // The string test and the component test.

  lemma RenderInjective(a: seq<string>, b: seq<string>)
    requires AllNormal(a) && AllNormal(b)
    ensures Render(a) == Render(b) <==> a == b
  {
    ComponentsOfRender(a);
    ComponentsOfRender(b);
  }

  lemma PrefixOfText(root: seq<string>, target: seq<string>)
    requires AllNormal(root) && AllNormal(target)
    requires HasPrefix(Render(target), Render(root) + "/")
    ensures root <= target && root != []
  {
    var prefix := Render(root) + "/";
    var rest := Render(target)[|prefix|..];
    hide Split, Join, Render;
    assert Render(target) == Render(root) + "/" + rest;
    SplitConcat(Render(root), rest, '/');
    SplitRender(root);
    SplitRender(target);
    SplitPrefix(root, target, Split(rest, '/'));
  }

  lemma SplitPrefix(root: seq<string>, target: seq<string>, rest: seq<string>)
    requires AllNormal(root) && AllNormal(target) && rest != []
    requires (if target == [] then ["", ""] else [""] + target)
          == (if root == [] then ["", ""] else [""] + root) + rest
    ensures root <= target && root != []
  {
    var left := if target == [] then ["", ""] else [""] + target;
    var right := if root == [] then ["", ""] else [""] + root;
    assert left == right + rest;
    SecondPart(target);
    SecondPart(root);
    hide AllNormal;
    assert left[1] == right[1];
    if |root| > 0 && |target| > 0 { DropFirst(target, root, rest); }
  }

  lemma DropFirst(target: seq<string>, root: seq<string>, rest: seq<string>)
    requires [""] + target == [""] + root + rest
    ensures root <= target
  {
    assert ([""] + target)[1..] == target && ([""] + root + rest)[1..] == root + rest;
  }

  /** Only the top shows as an empty second part. */
  lemma SecondPart(parts: seq<string>)
    requires AllNormal(parts)
    ensures |(if parts == [] then ["", ""] else [""] + parts)[1]| == 0 <==> |parts| == 0
  {
    if |parts| > 0 { assert Normal(parts[0]); }
  }

  lemma TextOfPrefix(root: seq<string>, target: seq<string>)
    requires root != [] && root <= target && root != target
    ensures HasPrefix(Render(target), Render(root) + "/")
  {
    var rest := target[|root|..];
    assert target == root + rest;
    JoinConcat(root, rest, '/');
    hide Join;
    assert Render(target) == (Render(root) + "/") + Join(rest, '/');
  }

  /** For a root other than "/", "equals root or starts with root and a separator" is
      exactly "root's components are a prefix of the target's". */
  lemma PrefixTest(root: seq<string>, target: seq<string>)
    requires AllNormal(root) && AllNormal(target)
    ensures Render(target) == Render(root) || HasPrefix(Render(target), Render(root) + "/")
            <==> root <= target && (root == [] ==> target == [])
  {
    RenderInjective(root, target);
    hide Render;
    if HasPrefix(Render(target), Render(root) + "/") { PrefixOfText(root, target); }
    if root != [] && root <= target && root != target { TextOfPrefix(root, target); }
  }

  /** Where a relative path leads from the root. */
  function Target(cwd: string, root: string, rel: string): seq<string> {
    Walk(Components(Abs(cwd, root)), Split(rel, '/'))
  }

  lemma AbsComponents(cwd: string, path: string)
    requires IsAbs(cwd)
    ensures AllNormal(Components(Abs(cwd, path))) && Abs(cwd, path) == Render(Components(Abs(cwd, path)))
  {
    var full := if IsAbs(path) then path else if path == "" then cwd else cwd + "/" + path;
    assert IsAbs(full) && Abs(cwd, path) == Render(Components(full));
    ComponentsNormal(full);
    ComponentsOfRender(Components(full));
  }

  lemma JoinedComponents(base: string, rel: string)
    requires IsAbs(base) && !IsAbs(rel)
    ensures var joined := base + "/" + Clean(rel);
            IsAbs(joined) && Components(joined) == Walk(Components(base), Split(rel, '/'))
  {
    SplitConcat(base, Clean(rel), '/');
    WalkConcat([], Split(base, '/'), Split(Clean(rel), '/'));
    WalkClean(Components(base), rel);
  }

  lemma CleanAbsolute(path: string)
    requires IsAbs(path)
    ensures Clean(path) == Render(Components(path))
  {
  }

  /** safePath, exactly: an absolute path is refused; any other is resolved element by
      element from the root and accepted just when the result is the root or below it
      (with "/" as root, only when it is "/" itself). */
  lemma SafePathExactly(cwd: string, root: string, rel: string)
    requires IsAbs(cwd)
    ensures var at, to := Components(Abs(cwd, root)), Target(cwd, root, rel);
            SafePath(cwd, root, rel) ==
            if !IsAbs(rel) && at <= to && (at == [] ==> to == []) then Some(Render(to)) else None
    ensures SafePath(cwd, root, rel).Some? ==>
              Components(SafePath(cwd, root, rel).value) == Target(cwd, root, rel)
  {
    hide Clean, Components, Walk, Split, Render, AllNormal;
    if !IsAbs(rel) {
      var at, to := Components(Abs(cwd, root)), Target(cwd, root, rel);
      AbsComponents(cwd, root);
      ComponentsOfRender(at);
      var joined := Abs(cwd, root) + "/" + Clean(rel);
      JoinedComponents(Abs(cwd, root), rel);
      ComponentsNormal(joined);
      ComponentsOfRender(to);
      CleanAbsolute(joined);
      CleanAbsolute(Render(to));
      PrefixTest(at, to);
    }
  }
}
