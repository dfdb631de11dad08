/** What the daemon's file commands do to a symlink-free tree. A fault record says where
    the operating system may fail part way, so partial effects are covered too. */
module Files {
  import opened Common
  import opened Text
  import opened Paths

  type Path = seq<string>

  datatype Node = Dir | File(content: seq<byte>)

  type Disk = map<Path, Node>

  /** Directories deeper than `deepest` cannot be made, writes stop after `written`
      bytes, nothing at or above a `stuck` path can be removed (nor ever "/" itself), and a
      `denied` open, removal or move fails outright. */
  datatype Faults = Faults(deepest: nat, written: nat, stuck: set<Path>, denied: bool)

  datatype Outcome = Outcome(disk: Disk, ok: bool)

  datatype Command =
    | Write(rel: string, data: seq<byte>)
    | Delete(rel: string)
    | Rename(from: string, to: string)
    | Mkdir(rel: string)

  function Parent(p: Path): Path {
    if p == [] then [] else p[..|p| - 1]
  }

  /** Every node but the top has a directory above it. */
  ghost predicate IsTree(disk: Disk) {
    && [] in disk && disk[[]] == Dir
    && forall p :: p in disk && p != [] ==> Parent(p) in disk && disk[Parent(p)] == Dir
  }

  predicate IsFile(disk: Disk, p: Path) {
    p in disk && disk[p].File?
  }

  /** A file stands on the way to `p`, or at it. */
  predicate Blocked(disk: Disk, p: Path) {
    IsFile(disk, p) || (p != [] && Blocked(disk, Parent(p)))
  }

  // The operating system's part.

  /** os.MkdirAll. */
  function MkdirAll(disk: Disk, p: Path, deepest: nat): Outcome
    decreases |p|
  {
    if p in disk then Outcome(disk, disk[p] == Dir)
    else if p == [] then Outcome(disk, false)
    else
      var up := MkdirAll(disk, Parent(p), deepest);
      if !up.ok || |p| > deepest then Outcome(up.disk, false)
      else Outcome(up.disk[p := Dir], true)
  }

  /** os.WriteFile: truncate or create, then write. */
  function WriteFile(disk: Disk, p: Path, data: seq<byte>, faults: Faults): Outcome {
    if faults.denied || Parent(p) !in disk || disk[Parent(p)] != Dir || (p in disk && disk[p] == Dir)
    then Outcome(disk, false)
    else Outcome(disk[p := File(data[..Min(faults.written, |data|)])], faults.written >= |data|)
  }

  /** Something at or below `p` cannot be removed. */
  predicate Held(p: Path, stuck: set<Path>) {
    p == [] || exists q :: q in stuck && p <= q
  }

  /** os.RemoveAll: everything removable at or below `p` goes, even after a failure. */
  function RemoveAll(disk: Disk, p: Path, stuck: set<Path>): Outcome {
    Outcome(map q | q in disk && (!(p <= q) || Held(q, stuck * disk.Keys)) :: disk[q],
            !Held(p, stuck * disk.Keys))
  }

  /** The subtree at `from` stands at `to` instead. */
  function Moved(disk: Disk, from: Path, to: Path): Disk {
    var stay := set q | q in disk && !(from <= q) && q != to;
    var arrive := set q | q in disk && from <= q :: to + q[|from|..];
    map q | q in stay + arrive :: if to <= q && from + q[|to|..] in disk then disk[from + q[|to|..]]
                                  else if q in disk then disk[q] else Dir
  }

  /** os.Rename: an existing directory is never replaced, nor a file by a directory, and
      nothing moves into itself. */
  function Move(disk: Disk, from: Path, to: Path, denied: bool): Outcome {
    if denied || from !in disk || from <= to || Parent(to) !in disk || disk[Parent(to)] != Dir
       || (to in disk && (disk[to] == Dir || disk[from] == Dir))
    then Outcome(disk, false)
    else Outcome(Moved(disk, from, to), true)
  }

  function Lower(c: char): char {
    if 'A' <= c <= 'Z' then c - 'A' + 'a' else c
  }

  /** strings.EqualFold on ASCII text. */
  predicate EqualFold(a: string, b: string) {
    |a| == |b| && forall i :: 0 <= i < |a| ==> Lower(a[i]) == Lower(b[i])
  }

  /** Up to and including the last separator. */
  function UpToSlash(path: string): string {
    if path == "" || path[|path| - 1] == '/' then path else UpToSlash(path[..|path| - 1])
  }

  /** filepath.Dir. */
  function DirOf(path: string): string {
    if UpToSlash(path) == "" then "." else Clean(UpToSlash(path))
  }

  // The four commands.

  function DoWrite(disk: Disk, cwd: string, root: string, rel: string, data: seq<byte>, faults: Faults): Outcome {
    match SafePath(cwd, root, rel)
    case None => Outcome(disk, false)
    case Some(path) =>
      var made := MkdirAll(disk, Components(DirOf(path)), faults.deepest);
      if !made.ok then made else WriteFile(made.disk, Components(path), data, faults)
  }

  function DoDelete(disk: Disk, cwd: string, root: string, rel: string, faults: Faults): Outcome {
    match SafePath(cwd, root, rel)
    case None => Outcome(disk, false)
    case Some(path) =>
      var p := Components(path);
      if p !in disk then Outcome(disk, !Blocked(disk, Parent(p)))
      else if disk[p] == Dir then RemoveAll(disk, p, faults.stuck)
      else if faults.denied then Outcome(disk, false)
      else Outcome(disk - {p}, true)
  }

  function DoRename(disk: Disk, cwd: string, root: string, from: string, to: string, faults: Faults): Outcome {
    match (SafePath(cwd, root, from), SafePath(cwd, root, to))
    case (Some(source), Some(target)) =>
      if EqualFold(source, target) then Outcome(disk, true)
      else
        var made := MkdirAll(disk, Components(DirOf(target)), faults.deepest);
        if !made.ok then made else Move(made.disk, Components(source), Components(target), faults.denied)
    case _ => Outcome(disk, false)
  }

  function DoMkdir(disk: Disk, cwd: string, root: string, rel: string, faults: Faults): Outcome {
    match SafePath(cwd, root, rel)
    case None => Outcome(disk, false)
    case Some(path) => MkdirAll(disk, Components(path), faults.deepest)
  }

  datatype ReadError = Refused | NotFound | IsDirectory | TooLarge

  function DoRead(disk: Disk, cwd: string, root: string, rel: string, limit: int): Result<seq<byte>, ReadError> {
    match SafePath(cwd, root, rel)
    case None => Err(Refused)
    case Some(path) =>
      var p := Components(path);
      if p !in disk then Err(NotFound)
      else if disk[p] == Dir then Err(IsDirectory)
      else if limit > 0 && |disk[p].content| > limit then Err(TooLarge)
      else Ok(disk[p].content)
  }

  function Execute(disk: Disk, cwd: string, root: string, command: Command, faults: Faults): Outcome {
    match command
    case Write(rel, data) => DoWrite(disk, cwd, root, rel, data, faults)
    case Delete(rel) => DoDelete(disk, cwd, root, rel, faults)
    case Rename(from, to) => DoRename(disk, cwd, root, from, to, faults)
    case Mkdir(rel) => DoMkdir(disk, cwd, root, rel, faults)
  }

  // Trees.

  lemma {:induction false} AboveIsDir(disk: Disk, p: Path, q: Path)
    requires IsTree(disk) && p in disk && q <= p && q != p
    ensures q in disk && disk[q] == Dir
    decreases |p|
  {
    if q != Parent(p) { AboveIsDir(disk, Parent(p), q); }
  }

  lemma {:induction false} BlockedBy(disk: Disk, p: Path, k: nat)
    requires k <= |p| && IsFile(disk, p[..k])
    ensures Blocked(disk, p)
    decreases |p|
  {
    if k == |p| {
      assert p[..k] == p;
    } else {
      assert Parent(p)[..k] == p[..k];
      BlockedBy(disk, Parent(p), k);
    }
  }

  /** In a tree only a file itself is blocked among the nodes that exist. */
  lemma {:induction false} BlockedNode(disk: Disk, p: Path)
    requires IsTree(disk) && p in disk
    ensures Blocked(disk, p) <==> disk[p].File?
    decreases |p|
  {
    if p != [] { BlockedNode(disk, Parent(p)); }
  }

  /** Nothing is taken away and only directories on the way to `p` are added. */
  ghost predicate OnlyAddsAbove(before: Disk, after: Disk, p: Path) {
    && (forall q :: q in before ==> q in after && after[q] == before[q])
    && (forall q :: q in after && q !in before ==> q <= p && after[q] == Dir)
  }

  /** os.MkdirAll keeps a tree, adds only directories on the way, does nothing at all when
      a file is in the way, and otherwise fails only for want of depth. */
  lemma {:induction false} MkdirAllExactly(disk: Disk, p: Path, deepest: nat)
    requires IsTree(disk)
    ensures var made := MkdirAll(disk, p, deepest);
            && IsTree(made.disk) && OnlyAddsAbove(disk, made.disk, p)
            && (made.ok ==> p in made.disk && made.disk[p] == Dir)
            && (Blocked(disk, p) ==> made == Outcome(disk, false))
            && (!Blocked(disk, p) && |p| <= deepest ==> made.ok)
    decreases |p|
  {
    if p in disk {
      BlockedNode(disk, p);
    } else {
      MkdirAllExactly(disk, Parent(p), deepest);
      var up := MkdirAll(disk, Parent(p), deepest);
      assert Parent(p) <= p;
    }
  }

  // Confinement.

  /** Nothing outside `at` and what is below it differs. */
  ghost predicate Confined(before: Disk, after: Disk, at: Path) {
    forall q :: !(at <= q) ==> (q in before <==> q in after) && (q in before ==> after[q] == before[q])
  }

  /** The directory above the root exists, or a file makes it impossible to create. */
  predicate Settled(disk: Disk, at: Path) {
    at == [] || Parent(at) in disk || Blocked(disk, Parent(at))
  }

  lemma {:induction false} BlockedMonotone(disk: Disk, p: Path, q: Path)
    requires p <= q && Blocked(disk, p)
    ensures Blocked(disk, q)
    decreases |q|
  {
    if p != q { BlockedMonotone(disk, p, Parent(q)); }
  }

  lemma MkdirAllConfined(disk: Disk, at: Path, p: Path, deepest: nat)
    requires IsTree(disk) && Settled(disk, at) && at != [] && (at <= p || p == Parent(at))
    ensures Confined(disk, MkdirAll(disk, p, deepest).disk, at)
  {
    MkdirAllExactly(disk, p, deepest);
    var made := MkdirAll(disk, p, deepest).disk;
    if Parent(at) !in disk {
      BlockedMonotone(disk, Parent(at), p);
    } else {
      forall q | q in made && q !in disk ensures at <= q {
        if |q| < |at| {
          assert q == p[..|q|] && Parent(at) == p[..|at| - 1];
          assert q <= Parent(at);
          if q != Parent(at) { AboveIsDir(disk, Parent(at), q); }
        }
      }
    }
  }

  lemma ConfinedTwice(a: Disk, b: Disk, c: Disk, at: Path)
    requires Confined(a, b, at) && Confined(b, c, at)
    ensures Confined(a, c, at)
  {
  }

  lemma DirOfRender(p: Path)
    requires AllNormal(p)
    ensures DirOf(Render(p)) == Render(Parent(p)) && Components(DirOf(Render(p))) == Parent(p)
  {
    var up := if |p| <= 1 then "/" else Render(Parent(p)) + "/";
    if p == [] {
      assert Render(p) == "/";
    } else {
      assert Render(p) == up + p[|p| - 1];
      UpToSlashOf(up, p[|p| - 1]);
    }
    assert UpToSlash(Render(p)) == up;
    CleanAbsolute(up);
    ComponentsOfRender(Parent(p));
    if |p| > 1 {
      SplitConcat(Render(Parent(p)), "", '/');
      assert Render(Parent(p)) + "/" + "" == up;
      WalkConcat([], Split(Render(Parent(p)), '/'), [""]);
    } else {
      assert up == Render([]);
    }
  }

  lemma {:induction false} UpToSlashOf(up: string, name: string)
    requires up != "" && up[|up| - 1] == '/' && Lacks(name, '/')
    ensures UpToSlash(up + name) == up
  {
    if name == "" {
      assert up + name == up;
    } else {
      UpToSlashOf(up, name[..|name| - 1]);
      assert (up + name)[..|up + name| - 1] == up + name[..|name| - 1];
    }
  }

  /** A subtree is confined to any root at or above it. */
  lemma ConfinedBelow(before: Disk, after: Disk, p: Path, at: Path)
    requires at <= p && Confined(before, after, p)
    ensures Confined(before, after, at)
  {
    forall q | !(at <= q) ensures (q in before <==> q in after) && (q in before ==> after[q] == before[q]) {
      assert !(p <= q);
    }
  }

  lemma WriteFileKeeps(disk: Disk, p: Path, data: seq<byte>, faults: Faults)
    requires IsTree(disk)
    ensures var done := WriteFile(disk, p, data, faults);
            IsTree(done.disk) && Confined(disk, done.disk, p)
  {
  }

  lemma RemoveAllKeeps(disk: Disk, p: Path, stuck: set<Path>)
    requires IsTree(disk)
    ensures var done := RemoveAll(disk, p, stuck); IsTree(done.disk) && Confined(disk, done.disk, p)
  {
    var done := RemoveAll(disk, p, stuck).disk;
    forall q | q in done && q != [] ensures Parent(q) in done && done[Parent(q)] == Dir {
      if p <= Parent(q) && Parent(q) != [] {
        var below :| below in stuck * disk.Keys && q <= below;
        assert Parent(q) <= below;
      }
    }
  }

  lemma RemoveFileKeeps(disk: Disk, p: Path)
    requires IsTree(disk) && IsFile(disk, p)
    ensures IsTree(disk - {p}) && Confined(disk, disk - {p}, p)
  {
  }

  lemma Nested(a: Path, b: Path, q: Path)
    requires a <= q && b <= q
    ensures a <= b || b <= a
  {
    if |a| <= |b| { assert a == b[..|a|]; } else { assert b == a[..|b|]; }
  }

  /** What the checks of os.Rename establish. */
  ghost predicate Movable(disk: Disk, from: Path, to: Path) {
    IsTree(disk) && from in disk && !(from <= to) && (to in disk ==> disk[to].File?)
  }

  /** The two places do not overlap. */
  lemma Apart(disk: Disk, from: Path, to: Path, q: Path)
    requires Movable(disk, from, to)
    ensures !(to <= from) && !(from <= q && to <= q) && (to <= q && q in disk ==> q == to)
  {
    if to <= from { AboveIsDir(disk, from, to); }
    if from <= q && to <= q { Nested(from, to, q); }
    if to <= q && q in disk && q != to { AboveIsDir(disk, q, to); }
  }

  lemma ArrivesFrom(disk: Disk, from: Path, to: Path, q: Path)
    requires to <= q
    ensures (exists s :: s in disk && from <= s && q == to + s[|from|..]) <==> from + q[|to|..] in disk
  {
    var source := from + q[|to|..];
    assert q == to + source[|from|..];
    forall s | s in disk && from <= s && q == to + s[|from|..] ensures s == source {
      assert q[|to|..] == s[|from|..];
    }
  }

  /** What a move leaves where: the subtree at its new place, nothing at the old one and
      everything else as it was. */
  lemma MovedExactly(disk: Disk, from: Path, to: Path, q: Path)
    requires Movable(disk, from, to)
    ensures var after := Moved(disk, from, to);
            && (from <= q ==> q !in after)
            && (to <= q ==> (q in after <==> from + q[|to|..] in disk)
                            && (q in after ==> after[q] == disk[from + q[|to|..]]))
            && (!(from <= q) && !(to <= q) ==> (q in after <==> q in disk) && (q in disk ==> after[q] == disk[q]))
  {
    Apart(disk, from, to, q);
    if to <= q {
      ArrivesFrom(disk, from, to, q);
    } else {
      assert forall s :: s in disk && from <= s ==> to <= to + s[|from|..];
    }
  }

  lemma MoveKeeps(disk: Disk, from: Path, to: Path, denied: bool)
    requires IsTree(disk)
    ensures IsTree(Move(disk, from, to, denied).disk)
  {
    if Move(disk, from, to, denied).ok { MovedIsTree(disk, from, to); }
  }

  lemma MovedIsTree(disk: Disk, from: Path, to: Path)
    requires Movable(disk, from, to) && Parent(to) in disk && disk[Parent(to)] == Dir
    ensures IsTree(Moved(disk, from, to))
  {
    var after := Moved(disk, from, to);
    forall q | q in after && q != [] ensures Parent(q) in after && after[Parent(q)] == Dir {
      MovedParent(disk, from, to, q);
    }
    Apart(disk, from, to, []);
    MovedExactly(disk, from, to, []);
    assert !(from <= []) && !(to <= []);
  }

  lemma MovedParent(disk: Disk, from: Path, to: Path, q: Path)
    requires Movable(disk, from, to) && Parent(to) in disk && disk[Parent(to)] == Dir
    requires q in Moved(disk, from, to) && q != []
    ensures Parent(q) in Moved(disk, from, to) && Moved(disk, from, to)[Parent(q)] == Dir
  {
    MovedExactly(disk, from, to, q);
    MovedExactly(disk, from, to, Parent(q));
    hide Moved;
    if q == to {
      assert !(from <= Parent(q));
    } else if to <= q {
      InsideMoved(disk, from, to, q);
    } else {
      assert !(from <= Parent(q)) && !(to <= Parent(q));
    }
  }

  lemma InsideMoved(disk: Disk, from: Path, to: Path, q: Path)
    requires IsTree(disk) && to <= q && q != to && from + q[|to|..] in disk
    ensures to <= Parent(q)
    ensures var source := from + Parent(q)[|to|..]; source in disk && disk[source] == Dir
  {
    var source := from + q[|to|..];
    assert Parent(source) == from + Parent(q)[|to|..];
  }

  lemma MoveConfined(disk: Disk, from: Path, to: Path, denied: bool, at: Path)
    requires IsTree(disk) && at <= from && at <= to
    ensures Confined(disk, Move(disk, from, to, denied).disk, at)
  {
    var done := Move(disk, from, to, denied);
    if done.ok {
      forall q | !(at <= q)
        ensures (q in disk <==> q in done.disk) && (q in disk ==> done.disk[q] == disk[q])
      {
        MovedExactly(disk, from, to, q);
      }
    }
  }

  /** Where an accepted path leads; the text and its components say the same. */
  lemma Accepted(cwd: string, root: string, rel: string)
    requires IsAbs(cwd) && SafePath(cwd, root, rel).Some?
    ensures var at, to := Components(Abs(cwd, root)), Target(cwd, root, rel);
            var path := SafePath(cwd, root, rel).value;
            && at <= to && (at == [] ==> to == []) && path == Render(to) && AllNormal(to)
            && Components(path) == to && Components(DirOf(path)) == Parent(to)
  {
    var to := Target(cwd, root, rel);
    SafePathExactly(cwd, root, rel);
    AbsComponents(cwd, root);
    SplitLacks(rel, '/');
    WalkNormal(Components(Abs(cwd, root)), Split(rel, '/'));
    DirOfRender(to);
  }

  lemma PathConfined(disk: Disk, at: Path, p: Path, deepest: nat)
    requires IsTree(disk) && Settled(disk, at) && (at <= p || p == Parent(at))
    ensures var made := MkdirAll(disk, p, deepest); IsTree(made.disk) && Confined(disk, made.disk, at)
  {
    MkdirAllExactly(disk, p, deepest);
    if at != [] { MkdirAllConfined(disk, at, p, deepest); }
  }

  /** No command, whatever its paths and wherever the system fails, changes a node
      outside the root's subtree, and a tree stays a tree. */
  lemma CommandConfined(disk: Disk, cwd: string, root: string, command: Command, faults: Faults)
    requires IsTree(disk) && IsAbs(cwd) && Settled(disk, Components(Abs(cwd, root)))
    ensures var after := Execute(disk, cwd, root, command, faults).disk;
            IsTree(after) && Confined(disk, after, Components(Abs(cwd, root)))
  {
    var at := Components(Abs(cwd, root));
    hide SafePath, Abs, Components, DirOf, Target, MkdirAll, WriteFile, RemoveAll, Move;
    match command {
      case Write(rel, data) =>
        if SafePath(cwd, root, rel).Some? { WriteConfined(disk, cwd, root, rel, data, faults); }
      case Delete(rel) =>
        if SafePath(cwd, root, rel).Some? { DeleteConfined(disk, cwd, root, rel, faults); }
      case Rename(from, to) =>
        if SafePath(cwd, root, from).Some? && SafePath(cwd, root, to).Some? {
          RenameConfined(disk, cwd, root, from, to, faults);
        }
      case Mkdir(rel) =>
        if SafePath(cwd, root, rel).Some? {
          Accepted(cwd, root, rel);
          PathConfined(disk, at, Target(cwd, root, rel), faults.deepest);
        }
    }
  }

  lemma WriteConfined(disk: Disk, cwd: string, root: string, rel: string, data: seq<byte>, faults: Faults)
    requires IsTree(disk) && IsAbs(cwd) && Settled(disk, Components(Abs(cwd, root)))
    requires SafePath(cwd, root, rel).Some?
    ensures var after := DoWrite(disk, cwd, root, rel, data, faults).disk;
            IsTree(after) && Confined(disk, after, Components(Abs(cwd, root)))
  {
    var at, to := Components(Abs(cwd, root)), Target(cwd, root, rel);
    hide SafePath, Abs, Components, DirOf, Target, MkdirAll, WriteFile;
    Accepted(cwd, root, rel);
    assert at <= Parent(to) || Parent(to) == Parent(at);
    PathConfined(disk, at, Parent(to), faults.deepest);
    var made := MkdirAll(disk, Parent(to), faults.deepest).disk;
    WriteFileKeeps(made, to, data, faults);
    ConfinedBelow(made, WriteFile(made, to, data, faults).disk, to, at);
  }

  lemma DeleteConfined(disk: Disk, cwd: string, root: string, rel: string, faults: Faults)
    requires IsTree(disk) && IsAbs(cwd) && SafePath(cwd, root, rel).Some?
    ensures var after := DoDelete(disk, cwd, root, rel, faults).disk;
            IsTree(after) && Confined(disk, after, Components(Abs(cwd, root)))
  {
    var at, to := Components(Abs(cwd, root)), Target(cwd, root, rel);
    hide SafePath, Abs, Components, DirOf, Target, RemoveAll;
    Accepted(cwd, root, rel);
    RemoveAllKeeps(disk, to, faults.stuck);
    ConfinedBelow(disk, RemoveAll(disk, to, faults.stuck).disk, to, at);
    if IsFile(disk, to) {
      RemoveFileKeeps(disk, to);
      ConfinedBelow(disk, disk - {to}, to, at);
    }
  }

  lemma RenameConfined(disk: Disk, cwd: string, root: string, from: string, to: string, faults: Faults)
    requires IsTree(disk) && IsAbs(cwd) && Settled(disk, Components(Abs(cwd, root)))
    requires SafePath(cwd, root, from).Some? && SafePath(cwd, root, to).Some?
    ensures var after := DoRename(disk, cwd, root, from, to, faults).disk;
            IsTree(after) && Confined(disk, after, Components(Abs(cwd, root)))
  {
    var at, source, target := Components(Abs(cwd, root)), Target(cwd, root, from), Target(cwd, root, to);
    hide SafePath, Abs, Components, DirOf, Target, MkdirAll, Move, EqualFold;
    Accepted(cwd, root, from);
    Accepted(cwd, root, to);
    assert at <= Parent(target) || Parent(target) == Parent(at);
    PathConfined(disk, at, Parent(target), faults.deepest);
    var made := MkdirAll(disk, Parent(target), faults.deepest).disk;
    MoveKeeps(made, source, target, faults.denied);
    MoveConfined(made, source, target, faults.denied, at);
    ConfinedTwice(disk, made, Move(made, source, target, faults.denied).disk, at);
  }

  lemma Escapes(disk: Disk, cwd: string, root: string, faults: Faults)
    requires IsTree(disk) && IsAbs(cwd) && !Settled(disk, Components(Abs(cwd, root)))
    requires faults.deepest == |Components(Abs(cwd, root))|
    ensures var at := Components(Abs(cwd, root));
            !Confined(disk, Execute(disk, cwd, root, Mkdir("."), faults).disk, at)
  {
    hide SafePath, Abs, Components, DirOf, Target, MkdirAll, Settled, Confined, IsTree;
    RootItself(cwd, root);
    Accepted(cwd, root, ".");
    RootMade(disk, Components(Abs(cwd, root)));
  }

  lemma RootMade(disk: Disk, at: Path)
    requires IsTree(disk) && !Settled(disk, at)
    ensures !Confined(disk, MkdirAll(disk, at, |at|).disk, at)
  {
    MkdirAllExactly(disk, at, |at|);
    hide MkdirAll;
    assert at !in disk;
    assert !(at <= Parent(at));
  }

  /** The hypothesis is exact: when the directory above the root is missing and could be
      created, creating the root's own directory changes the tree outside it. */
  lemma ConfinedExactly(disk: Disk, cwd: string, root: string)
    requires IsTree(disk) && IsAbs(cwd)
    ensures (forall command, faults ::
               Confined(disk, Execute(disk, cwd, root, command, faults).disk, Components(Abs(cwd, root))))
            <==> Settled(disk, Components(Abs(cwd, root)))
  {
    var at := Components(Abs(cwd, root));
    hide Execute, Settled, Components, Abs, Confined;
    if Settled(disk, at) {
      forall command, faults ensures Confined(disk, Execute(disk, cwd, root, command, faults).disk, at) {
        CommandConfined(disk, cwd, root, command, faults);
      }
    } else {
      Escapes(disk, cwd, root, Faults(|at|, 0, {}, false));
    }
  }

  lemma RootItself(cwd: string, root: string)
    requires IsAbs(cwd)
    ensures Target(cwd, root, ".") == Components(Abs(cwd, root)) && SafePath(cwd, root, ".").Some?
  {
    var at := Components(Abs(cwd, root));
    SafePathExactly(cwd, root, ".");
    SplitWhole(".", '/');
    assert ["."][..0] == [];
    assert Walk(at, ["."]) == Enter(Walk(at, []), ".");
  }

  // Whole runs.

  function ExecuteAll(disk: Disk, cwd: string, root: string, log: seq<(Command, Faults)>): Disk {
    if log == [] then disk
    else
      var (command, faults) := log[|log| - 1];
      Execute(ExecuteAll(disk, cwd, root, log[..|log| - 1]), cwd, root, command, faults).disk
  }

  lemma {:induction false} BlockedOutside(before: Disk, after: Disk, at: Path, p: Path)
    requires Confined(before, after, at) && !(at <= p)
    ensures Blocked(before, p) <==> Blocked(after, p)
    decreases |p|
  {
    if p != [] { BlockedOutside(before, after, at, Parent(p)); }
  }

  /** Over any sequence of commands, including ones that remove the root itself. */
  lemma {:induction false} RunConfined(disk: Disk, cwd: string, root: string, log: seq<(Command, Faults)>)
    requires IsTree(disk) && IsAbs(cwd) && Settled(disk, Components(Abs(cwd, root)))
    ensures var after := ExecuteAll(disk, cwd, root, log);
            var at := Components(Abs(cwd, root));
            IsTree(after) && Confined(disk, after, at) && Settled(after, at)
  {
    if log != [] {
      var at := Components(Abs(cwd, root));
      var before := ExecuteAll(disk, cwd, root, log[..|log| - 1]);
      var (command, faults) := log[|log| - 1];
      RunConfined(disk, cwd, root, log[..|log| - 1]);
      CommandConfined(before, cwd, root, command, faults);
      var after := Execute(before, cwd, root, command, faults).disk;
      hide Execute, ExecuteAll;
      ConfinedTwice(disk, before, after, at);
      if at != [] {
        assert !(at <= Parent(at));
        BlockedOutside(before, after, at, Parent(at));
      }
      assert after == ExecuteAll(disk, cwd, root, log) by { LastExecuted(disk, cwd, root, log); }
    }
  }

  lemma LastExecuted(disk: Disk, cwd: string, root: string, log: seq<(Command, Faults)>)
    requires log != []
    ensures ExecuteAll(disk, cwd, root, log)
         == Execute(ExecuteAll(disk, cwd, root, log[..|log| - 1]), cwd, root, log[|log| - 1].0, log[|log| - 1].1).disk
  {
  }

  // What the commands achieve.

  predicate Faultless(faults: Faults, p: Path, data: seq<byte>) {
    |p| <= faults.deepest && |data| <= faults.written && faults.stuck == {} && !faults.denied
  }

  lemma WriteAfterMaking(disk: Disk, made: Outcome, to: Path, data: seq<byte>, faults: Faults)
    requires IsTree(disk) && IsTree(made.disk) && OnlyAddsAbove(disk, made.disk, Parent(to))
    requires made.ok && Parent(to) in made.disk && made.disk[Parent(to)] == Dir
    ensures var done := WriteFile(made.disk, to, data, faults);
            && (done.ok ==>
                  && to in done.disk && done.disk[to] == File(data)
                  && (forall q :: q in disk && q != to ==> q in done.disk && done.disk[q] == disk[q])
                  && (forall q :: q in done.disk && q !in disk && q != to ==> q <= to && done.disk[q] == Dir))
            && (Faultless(faults, to, data) ==> (done.ok <==> !(to in disk && disk[to] == Dir)))
  {
    var done := WriteFile(made.disk, to, data, faults);
    assert data[..|data|] == data;
    forall q | q in done.disk && q !in disk && q != to ensures q <= to {
      assert q <= Parent(to);
    }
    if to == [] {
      assert to in disk && made.disk[to] == disk[to];
    } else {
      assert !(to <= Parent(to));
    }
  }

  /** A successful write put exactly these bytes at the target, at most made directories
      above it, and touched no other node; without faults it fails only for a refused
      path, a directory at the target or a file in the way. */
  lemma WriteExactly(disk: Disk, cwd: string, root: string, rel: string, data: seq<byte>, faults: Faults)
    requires IsTree(disk) && IsAbs(cwd)
    ensures var done := DoWrite(disk, cwd, root, rel, data, faults);
            var to := Target(cwd, root, rel);
            && (done.ok ==>
                  && to in done.disk && done.disk[to] == File(data)
                  && (forall q :: q in disk && q != to ==> q in done.disk && done.disk[q] == disk[q])
                  && (forall q :: q in done.disk && q !in disk && q != to ==> q <= to && done.disk[q] == Dir))
            && (Faultless(faults, to, data) ==>
                  (done.ok <==> SafePath(cwd, root, rel).Some? && !Blocked(disk, Parent(to))
                                && !(to in disk && disk[to] == Dir)))
  {
    var to := Target(cwd, root, rel);
    if SafePath(cwd, root, rel).Some? {
      Accepted(cwd, root, rel);
      hide SafePath, Abs, Components, DirOf, Target, MkdirAll, WriteFile, IsTree, OnlyAddsAbove;
      MkdirAllExactly(disk, Parent(to), faults.deepest);
      var made := MkdirAll(disk, Parent(to), faults.deepest);
      if made.ok { WriteAfterMaking(disk, made, to, data, faults); }
    }
  }

  /** Reading back a file just written gives what was written. */
  lemma WriteThenRead(disk: Disk, cwd: string, root: string, rel: string, data: seq<byte>, faults: Faults, limit: int)
    requires IsTree(disk) && IsAbs(cwd) && DoWrite(disk, cwd, root, rel, data, faults).ok
    ensures DoRead(DoWrite(disk, cwd, root, rel, data, faults).disk, cwd, root, rel, limit)
         == if limit > 0 && |data| > limit then Err(TooLarge) else Ok(data)
  {
    WriteExactly(disk, cwd, root, rel, data, faults);
    Accepted(cwd, root, rel);
  }

  /** A successful mkdir added exactly the directories missing on the way to the target and
      touched no other node; without faults it fails only for a refused path or a file in the
      way or at the target. */
  lemma MkdirExactly(disk: Disk, cwd: string, root: string, rel: string, faults: Faults)
    requires IsTree(disk) && IsAbs(cwd)
    ensures var done := DoMkdir(disk, cwd, root, rel, faults);
            var to := Target(cwd, root, rel);
            && (done.ok ==>
                  && (forall q :: q in done.disk <==> q in disk || q <= to)
                  && (forall q :: q in disk ==> done.disk[q] == disk[q])
                  && (forall q :: q <= to ==> done.disk[q] == Dir))
            && (Faultless(faults, to, []) ==> (done.ok <==> SafePath(cwd, root, rel).Some? && !Blocked(disk, to)))
  {
    var to := Target(cwd, root, rel);
    if SafePath(cwd, root, rel).Some? {
      Accepted(cwd, root, rel);
      hide SafePath, Abs, Components, DirOf, Target, MkdirAll, Blocked;
      MkdirAllExactly(disk, to, faults.deepest);
      var made := MkdirAll(disk, to, faults.deepest);
      if made.ok {
        forall q | q <= to ensures q in made.disk && made.disk[q] == Dir {
          if q != to { AboveIsDir(made.disk, to, q); }
        }
      }
    }
  }

  /** A directory just made reads as one, and what was just deleted is not found. */
  lemma MadeOrDeletedThenRead(disk: Disk, cwd: string, root: string, rel: string, faults: Faults, limit: int)
    requires IsTree(disk) && IsAbs(cwd)
    ensures DoMkdir(disk, cwd, root, rel, faults).ok ==>
              DoRead(DoMkdir(disk, cwd, root, rel, faults).disk, cwd, root, rel, limit) == Err(IsDirectory)
    ensures DoDelete(disk, cwd, root, rel, faults).ok ==>
              DoRead(DoDelete(disk, cwd, root, rel, faults).disk, cwd, root, rel, limit) == Err(NotFound)
  {
    MkdirExactly(disk, cwd, root, rel, faults);
    DeleteExactly(disk, cwd, root, rel, faults);
    if SafePath(cwd, root, rel).Some? { Accepted(cwd, root, rel); }
    hide Target, Components, Abs, MkdirAll, RemoveAll, Blocked, DirOf;
  }

  /** A successful delete leaves exactly the nodes outside the target's subtree; a target
      that is not there counts as deleted unless a file is in the way. */
  lemma DeleteExactly(disk: Disk, cwd: string, root: string, rel: string, faults: Faults)
    requires IsTree(disk) && IsAbs(cwd)
    ensures var done := DoDelete(disk, cwd, root, rel, faults);
            var to := Target(cwd, root, rel);
            && (done.ok ==> done.disk == map q | q in disk && !(to <= q) :: disk[q])
            && (Faultless(faults, to, []) ==>
                  (done.ok <==> SafePath(cwd, root, rel).Some? && to != [] && !Blocked(disk, Parent(to))))
  {
    var to := Target(cwd, root, rel);
    if SafePath(cwd, root, rel).Some? {
      Accepted(cwd, root, rel);
      hide SafePath, Abs, Components, DirOf, Target, Blocked, RemoveAll, IsTree;
      if to in disk {
        Below(disk, to, faults.stuck);
      } else {
        NothingBelow(disk, to);
      }
    }
  }

  lemma NothingBelow(disk: Disk, to: Path)
    requires IsTree(disk) && to !in disk
    ensures to != [] && disk == map q | q in disk && !(to <= q) :: disk[q]
  {
    forall q | q in disk ensures !(to <= q) {
      if to <= q && q != to { AboveIsDir(disk, q, to); }
    }
  }

  lemma Below(disk: Disk, to: Path, stuck: set<Path>)
    requires IsTree(disk) && to in disk
    ensures disk[to].File? ==> disk - {to} == map q | q in disk && !(to <= q) :: disk[q]
    ensures RemoveAll(disk, to, stuck).ok ==>
              RemoveAll(disk, to, stuck).disk == map q | q in disk && !(to <= q) :: disk[q]
    ensures !Blocked(disk, Parent(to)) && (stuck == {} ==> (RemoveAll(disk, to, stuck).ok <==> to != []))
  {
    BlockedNode(disk, Parent(to));
    if disk[to].File? {
      forall q | q in disk && to <= q ensures q == to {
        if q != to { AboveIsDir(disk, q, to); }
      }
    }
    if !Held(to, stuck * disk.Keys) {
      forall q | q in disk && to <= q ensures !Held(q, stuck * disk.Keys) {
        forall held | held in stuck * disk.Keys ensures !(q <= held) {
          assert q <= held ==> to <= held;
        }
      }
    }
  }

  /** After, `q` is what `origin` was before: the same node, or likewise nothing. */
  predicate ArrivedFrom(before: Disk, after: Disk, q: Path, origin: Path) {
    (q in after <==> origin in before) && (q in after ==> after[q] == before[origin])
  }

  /** A successful rename either did nothing, because the two paths differ at most in
      case, or put the whole subtree of `from` at `to`, left nothing at `from` and kept
      every other node, at most making directories above `to`. */
  lemma RenameExactly(disk: Disk, cwd: string, root: string, from: string, to: string, faults: Faults)
    requires IsTree(disk) && IsAbs(cwd) && DoRename(disk, cwd, root, from, to, faults).ok
    ensures var after := DoRename(disk, cwd, root, from, to, faults).disk;
            var source, target := Target(cwd, root, from), Target(cwd, root, to);
            if EqualFold(Render(source), Render(target)) then after == disk
            else
              && source in disk
              && (forall q :: source <= q ==> q !in after)
              && (forall q :: target <= q ==> ArrivedFrom(disk, after, q, source + q[|target|..]))
              && (forall q :: q in disk && !(source <= q) && !(target <= q) ==> q in after && after[q] == disk[q])
              && (forall q :: q in after && !(target <= q) && q !in disk ==> q <= target && after[q] == Dir)
  {
    var source, target := Target(cwd, root, from), Target(cwd, root, to);
    hide SafePath, Abs, Components, DirOf, Target, EqualFold, MkdirAll, Render, IsTree, OnlyAddsAbove, Move,
         ArrivedFrom;
    Accepted(cwd, root, from);
    Accepted(cwd, root, to);
    if !EqualFold(Render(source), Render(target)) {
      MkdirAllExactly(disk, Parent(target), faults.deepest);
      MoveAfterMaking(disk, MkdirAll(disk, Parent(target), faults.deepest).disk, source, target, faults.denied);
    }
  }

  lemma MoveAfterMaking(disk: Disk, made: Disk, source: Path, target: Path, denied: bool)
    requires IsTree(made) && OnlyAddsAbove(disk, made, Parent(target)) && Move(made, source, target, denied).ok
    ensures source in disk
    ensures var after := Move(made, source, target, denied).disk;
            && (forall q :: source <= q ==> q !in after)
            && (forall q :: target <= q ==> ArrivedFrom(disk, after, q, source + q[|target|..]))
            && (forall q :: q in disk && !(source <= q) && !(target <= q) ==> q in after && after[q] == disk[q])
            && (forall q :: q in after && !(target <= q) && q !in disk ==> q <= target && after[q] == Dir)
  {
    var after := Moved(made, source, target);
    hide Moved;
    forall q | source <= q ensures q in made <==> q in disk {
      assert source <= q <= Parent(target) ==> source <= target;
    }
    assert source in disk;
    forall q ensures (source <= q ==> q !in after)
      && (target <= q ==> ArrivedFrom(disk, after, q, source + q[|target|..]))
      && (q in disk && !(source <= q) && !(target <= q) ==> q in after && after[q] == disk[q])
      && (q in after && !(target <= q) && q !in disk ==> q <= target && after[q] == Dir)
    {
      MovedExactly(made, source, target, q);
      if target <= q { assert source <= source + q[|target|..]; }
      if q in made && q !in disk { assert q <= Parent(target) <= target; }
    }
  }

  /** What was renamed reads under its new name as it did under the old one, which is not
      found any more. */
  lemma RenamedThenRead(disk: Disk, cwd: string, root: string, from: string, to: string, faults: Faults, limit: int)
    requires IsTree(disk) && IsAbs(cwd) && DoRename(disk, cwd, root, from, to, faults).ok
    requires !EqualFold(Render(Target(cwd, root, from)), Render(Target(cwd, root, to)))
    ensures var after := DoRename(disk, cwd, root, from, to, faults).disk;
            && DoRead(after, cwd, root, to, limit) == DoRead(disk, cwd, root, from, limit)
            && DoRead(after, cwd, root, from, limit) == Err(NotFound)
  {
    RenameExactly(disk, cwd, root, from, to, faults);
    RenameAccepted(disk, cwd, root, from, to, faults);
    var after := DoRename(disk, cwd, root, from, to, faults).disk;
    var source, target := Target(cwd, root, from), Target(cwd, root, to);
    hide *;
    assert source + target[|target|..] == source;
    SameRead(disk, after, cwd, root, to, from, limit);
    ReadNothing(after, cwd, root, from, limit);
  }

  lemma RenameAccepted(disk: Disk, cwd: string, root: string, from: string, to: string, faults: Faults)
    requires DoRename(disk, cwd, root, from, to, faults).ok
    ensures SafePath(cwd, root, from).Some? && SafePath(cwd, root, to).Some?
  {
    hide SafePath, MkdirAll, Move, EqualFold;
  }

  lemma SameRead(disk: Disk, after: Disk, cwd: string, root: string, rel: string, other: string, limit: int)
    requires IsAbs(cwd) && SafePath(cwd, root, rel).Some? && SafePath(cwd, root, other).Some?
    requires ArrivedFrom(disk, after, Target(cwd, root, rel), Target(cwd, root, other))
    ensures DoRead(after, cwd, root, rel, limit) == DoRead(disk, cwd, root, other, limit)
  {
    hide SafePath, Target, Components, Abs;
    Accepted(cwd, root, rel);
    Accepted(cwd, root, other);
  }

  lemma ReadNothing(disk: Disk, cwd: string, root: string, rel: string, limit: int)
    requires IsAbs(cwd) && SafePath(cwd, root, rel).Some? && Target(cwd, root, rel) !in disk
    ensures DoRead(disk, cwd, root, rel, limit) == Err(NotFound)
  {
    hide SafePath, Target, Components, Abs;
    Accepted(cwd, root, rel);
  }

  /** When a rename reports success: always if the paths differ at most in case, and then
      without doing anything; otherwise, without faults, exactly when the source exists, no
      file is in the way, the target is not inside the source, is no directory and is not a
      file that a directory would replace. */
  lemma RenameSucceedsExactly(disk: Disk, cwd: string, root: string, from: string, to: string, faults: Faults)
    requires IsTree(disk) && IsAbs(cwd)
    ensures var accepted := SafePath(cwd, root, from).Some? && SafePath(cwd, root, to).Some?;
            var source, target := Target(cwd, root, from), Target(cwd, root, to);
            var done := DoRename(disk, cwd, root, from, to, faults);
            && (!accepted ==> done == Outcome(disk, false))
            && (accepted && EqualFold(Render(source), Render(target)) ==> done == Outcome(disk, true))
            && (accepted && !EqualFold(Render(source), Render(target)) && Faultless(faults, target, []) ==>
                  (done.ok <==> source in disk && !(source <= target) && !Blocked(disk, Parent(target))
                                && (target in disk ==> disk[target].File? && disk[source].File?)))
  {
    if SafePath(cwd, root, from).Some? && SafePath(cwd, root, to).Some? {
      RenameOfAccepted(disk, cwd, root, from, to, faults);
      hide SafePath, Target, EqualFold, MkdirAll, Render, IsTree, OnlyAddsAbove, Move, Blocked, DoRename;
      var target := Target(cwd, root, to);
      MkdirAllExactly(disk, Parent(target), faults.deepest);
      var made := MkdirAll(disk, Parent(target), faults.deepest);
      if made.ok { MoveSucceedsExactly(disk, made.disk, Target(cwd, root, from), target, faults.denied); }
    }
  }

  lemma RenameOfAccepted(disk: Disk, cwd: string, root: string, from: string, to: string, faults: Faults)
    requires IsAbs(cwd) && SafePath(cwd, root, from).Some? && SafePath(cwd, root, to).Some?
    ensures var source, target := Target(cwd, root, from), Target(cwd, root, to);
            var made := MkdirAll(disk, Parent(target), faults.deepest);
            DoRename(disk, cwd, root, from, to, faults) ==
            if EqualFold(Render(source), Render(target)) then Outcome(disk, true)
            else if !made.ok then made
            else Move(made.disk, source, target, faults.denied)
  {
    hide SafePath, Abs, Components, DirOf, Target, EqualFold, MkdirAll, Render, Move;
    Accepted(cwd, root, from);
    Accepted(cwd, root, to);
  }

  lemma MoveSucceedsExactly(disk: Disk, made: Disk, source: Path, target: Path, denied: bool)
    requires IsTree(disk) && IsTree(made) && OnlyAddsAbove(disk, made, Parent(target))
    requires Parent(target) in made && made[Parent(target)] == Dir
    ensures Move(made, source, target, denied).ok <==>
              !denied && source in disk && !(source <= target)
              && (target in disk ==> disk[target].File? && disk[source].File?)
  {
    assert Parent(target) <= target;
    assert source in made && source !in disk ==> source <= target;
    if target == [] {
      assert target in disk && made[target] == disk[target] == Dir;
    } else {
      assert !(target <= Parent(target));
    }
  }

  /** Renaming to a free name in an existing directory and back restores the tree. */
  lemma RenameBack(disk: Disk, cwd: string, root: string, from: string, to: string, faults: Faults)
    requires IsTree(disk) && IsAbs(cwd) && DoRename(disk, cwd, root, from, to, faults).ok
    requires Target(cwd, root, to) !in disk && Parent(Target(cwd, root, to)) in disk
    requires !faults.denied
    ensures DoRename(DoRename(disk, cwd, root, from, to, faults).disk, cwd, root, to, from, faults)
         == Outcome(disk, true)
  {
    var source, target := Target(cwd, root, from), Target(cwd, root, to);
    Accepted(cwd, root, from);
    Accepted(cwd, root, to);
    hide SafePath, Abs, Components, DirOf, Target, Render;
    if EqualFold(Render(source), Render(target)) {
      FoldSymmetric(Render(source), Render(target));
    } else {
      assert !EqualFold(Render(target), Render(source)) by {
        if EqualFold(Render(target), Render(source)) { FoldSymmetric(Render(target), Render(source)); }
      }
      MoveBack(disk, source, target);
    }
  }

  lemma FoldSymmetric(a: string, b: string)
    requires EqualFold(a, b)
    ensures EqualFold(b, a)
  {
  }

  lemma MoveBack(disk: Disk, from: Path, to: Path)
    requires IsTree(disk) && to !in disk && Parent(to) in disk && Move(disk, from, to, false).ok
    ensures var away := Move(disk, from, to, false).disk;
            && MkdirAll(away, Parent(from), 0) == Outcome(away, true)
            && Parent(from) in away && away[Parent(from)] == Dir
            && Move(away, to, from, false) == Outcome(disk, true)
  {
    var away := Move(disk, from, to, false).disk;
    MovableBack(disk, from, to);
    MovedTwice(disk, from, to);
  }

  lemma MovedTwice(disk: Disk, from: Path, to: Path)
    requires Movable(disk, from, to) && to !in disk && Movable(Moved(disk, from, to), to, from)
    ensures Moved(Moved(disk, from, to), to, from) == disk
  {
    hide Moved;
    var away := Moved(disk, from, to);
    var home := Moved(away, to, from);
    assert IsTree(disk);
    hide Movable, IsTree;
    forall q ensures (q in home <==> q in disk) && (q in disk ==> home[q] == disk[q]) {
      MoveBackAt(disk, from, to, away, q);
    }
    assert home.Keys == disk.Keys;
  }

  lemma MovableBack(disk: Disk, from: Path, to: Path)
    requires Movable(disk, from, to) && to !in disk && Parent(to) in disk && disk[Parent(to)] == Dir
    ensures var away := Moved(disk, from, to);
            && Movable(away, to, from) && from !in away
            && Parent(from) in away && away[Parent(from)] == Dir
  {
    Apart(disk, from, to, from);
    MovedIsTree(disk, from, to);
    MovedExactly(disk, from, to, to);
    MovedExactly(disk, from, to, from);
    MovedExactly(disk, from, to, Parent(from));
    hide Moved;
    assert from + to[|to|..] == from;
    assert to <= Parent(from) ==> to <= from;
    assert !(from <= Parent(from));
  }

  lemma HomeAgain(disk: Disk, from: Path, to: Path, q: Path)
    requires Movable(disk, from, to) && Movable(Moved(disk, from, to), to, from) && from <= q
    ensures var home := Moved(Moved(disk, from, to), to, from);
            (q in home <==> q in disk) && (q in disk ==> home[q] == disk[q])
  {
    var there := to + q[|from|..];
    MovedExactly(Moved(disk, from, to), to, from, q);
    MovedExactly(disk, from, to, there);
    hide Moved, Movable;
    assert there[|to|..] == q[|from|..] && from + there[|to|..] == q;
  }

  lemma MoveBackAt(disk: Disk, from: Path, to: Path, away: Disk, q: Path)
    requires IsTree(disk) && Movable(disk, from, to) && to !in disk && away == Moved(disk, from, to)
    requires Movable(away, to, from)
    ensures (q in Moved(away, to, from) <==> q in disk) && (q in disk ==> Moved(away, to, from)[q] == disk[q])
  {
    if from <= q {
      HomeAgain(disk, from, to, q);
    } else {
      MovedExactly(away, to, from, q);
      MovedExactly(disk, from, to, q);
      Apart(disk, from, to, q);
      hide Moved, Movable, IsTree;
    }
  }
}
