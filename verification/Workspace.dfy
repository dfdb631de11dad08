/** The file commands as the daemon runs them: one call after another against one disk. */
module WorkspaceObject {
  import opened Common
  import opened Paths
  import opened Files

  class Workspace {
    const cwd: string
    const root: string
    var disk: Disk

    ghost predicate Valid() reads this {
      IsTree(disk) && IsAbs(cwd) && Settled(disk, Components(Abs(cwd, root)))
    }

    ghost function Top(): Path {
      Components(Abs(cwd, root))
    }

    constructor (cwd: string, root: string, disk: Disk)
      requires IsTree(disk) && IsAbs(cwd) && Settled(disk, Components(Abs(cwd, root)))
      ensures Valid() && this.cwd == cwd && this.root == root && this.disk == disk
    {
      this.cwd, this.root, this.disk := cwd, root, disk;
    }

    method MakeAll(path: string, faults: Faults) returns (ok: bool)
      modifies this
      ensures Outcome(disk, ok) == MkdirAll(old(disk), Components(path), faults.deepest)
    {
      var made := MkdirAll(disk, Components(path), faults.deepest);
      disk, ok := made.disk, made.ok;
    }

    method Write(rel: string, data: seq<byte>, faults: Faults) returns (ok: bool)
      requires Valid()
      modifies this
      ensures Outcome(disk, ok) == DoWrite(old(disk), cwd, root, rel, data, faults)
      ensures Valid() && Confined(old(disk), disk, Top())
    {
      RunConfined(disk, cwd, root, [(Command.Write(rel, data), faults)]);
      ExecuteOne(disk, cwd, root, Command.Write(rel, data), faults);
      var path := SafePath(cwd, root, rel);
      if path == None { return false; }
      ok := MakeAll(DirOf(path.value), faults);
      if !ok { return; }
      var done := WriteFile(disk, Components(path.value), data, faults);
      disk, ok := done.disk, done.ok;
    }

    method Delete(rel: string, faults: Faults) returns (ok: bool)
      requires Valid()
      modifies this
      ensures Outcome(disk, ok) == DoDelete(old(disk), cwd, root, rel, faults)
      ensures Valid() && Confined(old(disk), disk, Top())
    {
      RunConfined(disk, cwd, root, [(Command.Delete(rel), faults)]);
      ExecuteOne(disk, cwd, root, Command.Delete(rel), faults);
      var path := SafePath(cwd, root, rel);
      if path == None { return false; }
      var p := Components(path.value);
      if p !in disk { return !Blocked(disk, Parent(p)); }
      if disk[p] == Dir {
        var done := RemoveAll(disk, p, faults.stuck);
        disk, ok := done.disk, done.ok;
        return;
      }
      if faults.denied { return false; }
      disk := disk - {p};
      ok := true;
    }

    method Rename(from: string, to: string, faults: Faults) returns (ok: bool)
      requires Valid()
      modifies this
      ensures Outcome(disk, ok) == DoRename(old(disk), cwd, root, from, to, faults)
      ensures Valid() && Confined(old(disk), disk, Top())
    {
      RunConfined(disk, cwd, root, [(Command.Rename(from, to), faults)]);
      ExecuteOne(disk, cwd, root, Command.Rename(from, to), faults);
      var source := SafePath(cwd, root, from);
      if source == None { return false; }
      var target := SafePath(cwd, root, to);
      if target == None { return false; }
      if EqualFold(source.value, target.value) { return true; }
      ok := MakeAll(DirOf(target.value), faults);
      if !ok { return; }
      var done := Move(disk, Components(source.value), Components(target.value), faults.denied);
      disk, ok := done.disk, done.ok;
    }

    method Mkdir(rel: string, faults: Faults) returns (ok: bool)
      requires Valid()
      modifies this
      ensures Outcome(disk, ok) == DoMkdir(old(disk), cwd, root, rel, faults)
      ensures Valid() && Confined(old(disk), disk, Top())
    {
      RunConfined(disk, cwd, root, [(Command.Mkdir(rel), faults)]);
      ExecuteOne(disk, cwd, root, Command.Mkdir(rel), faults);
      var path := SafePath(cwd, root, rel);
      if path == None { return false; }
      ok := MakeAll(path.value, faults);
    }
  }

  lemma ExecuteOne(disk: Disk, cwd: string, root: string, command: Command, faults: Faults)
    ensures ExecuteAll(disk, cwd, root, [(command, faults)]) == Execute(disk, cwd, root, command, faults).disk
  {
    LastExecuted(disk, cwd, root, [(command, faults)]);
    assert [(command, faults)][..0] == [];
  }
}
