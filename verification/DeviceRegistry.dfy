/** deviceRegistry as the daemon runs it: slices loaded from the file, edited or
    compacted in place, and saved back. */
module DeviceRegistryObject {
  import opened Common
  import opened Text
  import opened Registry

  class DeviceRegistry {
    var file: File

    constructor (file: File)
      ensures this.file == file
    {
      this.file := file;
    }

    method LoadSlice() returns (ok: bool, devices: array<Device>)
      ensures ok <==> Load(file).Some?
      ensures fresh(devices) && (ok ==> devices[..] == Load(file).value)
    {
      match file {
        case Missing =>
          ok, devices := true, new Device[0];
        case Unreadable =>
          ok, devices := false, new Device[0];
        case Stored(stored) =>
          ok, devices := true, new Device[|stored|](i requires 0 <= i < |stored| => stored[i]);
          assert devices[..] == stored;
      }
    }

    method SaveSlice(devices: array<Device>, count: nat, w: Write) returns (ok: bool)
      requires count <= devices.Length
      modifies this
      ensures file == Save(old(file), devices[..count], w)
      ensures ok <==> w.Done?
    {
      file := Save(file, devices[..count], w);
      ok := w.Done?;
    }

    method IsAuthorized(id: string, publicKey: string) returns (found: bool)
      ensures found <==> Registry.IsAuthorized(file, id, publicKey)
    {
      if id == "" || publicKey == "" {
        return false;
      }
      var ok, devices := LoadSlice();
      if !ok {
        return false;
      }
      for i := 0 to devices.Length
        invariant forall j :: 0 <= j < i ==> !(devices[j].id == id && devices[j].publicKey == publicKey)
      {
        if devices[i].id == id && devices[i].publicKey == publicKey {
          assert Load(file).value[i] == devices[i];
          return true;
        }
      }
      assert forall j :: 0 <= j < |Load(file).value| ==> Load(file).value[j] == devices[j];
      return false;
    }

    method Authorize(id: string, name: string, publicKey: string, now: int, w: Write) returns (ok: bool)
      modifies this
      ensures file == Apply(old(file), Op.Authorize(id, name, publicKey, now), w)
      ensures ok <==> AuthorizeOk(old(file), id, publicKey, w)
    {
      if id == "" || publicKey == "" {
        return true;
      }
      var loaded, devices := LoadSlice();
      if !loaded {
        return false;
      }
      ghost var before := devices[..];
      for i := 0 to devices.Length
        invariant devices[..] == before && file == old(file)
        invariant forall j :: 0 <= j < i ==> before[j].id != id
      {
        if devices[i].id == id {
          IndexUnique(before, id, i);
          devices[i] := devices[i].(name := FirstNonEmpty(name, devices[i].name), publicKey := publicKey,
                                    lastSeen := now);
          assert devices[..devices.Length] == Authorized(before, id, name, publicKey, now);
          ok := SaveSlice(devices, devices.Length, w);
          return;
        }
      }
      IndexUnique(before, id, |before|);
      var added := Device(id, FirstNonEmpty(name, "Mobile device"), publicKey, now, now);
      var grown := new Device[devices.Length + 1](i requires 0 <= i <= devices.Length reads devices =>
        if i < devices.Length then devices[i] else added);
      assert grown[..grown.Length] == Authorized(before, id, name, publicKey, now);
      ok := SaveSlice(grown, grown.Length, w);
    }

    method Touch(id: string, now: int, w: Write) returns (ok: bool)
      modifies this
      ensures file == Apply(old(file), Op.Touch(id, now), w)
      ensures ok <==> id == "" || (Load(old(file)).Some?
                                   && (w.Done? || forall d :: d in Load(old(file)).value ==> d.id != id))
    {
      if id == "" {
        return true;
      }
      var loaded, devices := LoadSlice();
      if !loaded {
        return false;
      }
      ghost var before := devices[..];
      for i := 0 to devices.Length
        invariant devices[..] == before && file == old(file)
        invariant forall j :: 0 <= j < i ==> before[j].id != id
      {
        if devices[i].id == id {
          IndexUnique(before, id, i);
          devices[i] := devices[i].(lastSeen := now);
          assert devices[..devices.Length] == Touched(before, id, now);
          ok := SaveSlice(devices, devices.Length, w);
          return;
        }
      }
      IndexUnique(before, id, |before|);
      return true;
    }

    /** Keep the survivors at the front of the same array, as append over devices[:0] does. */
    method Compact(devices: array<Device>, id: string) returns (count: nat, removed: bool)
      modifies devices
      ensures count <= devices.Length && devices[..count] == Without(old(devices[..]), id)
      ensures removed <==> IndexOf(old(devices[..]), id) < devices.Length
    {
      ghost var before := devices[..];
      count, removed := 0, false;
      hide Without;
      EmptyWithout(id);
      assert before[..0] == [];
      for i := 0 to devices.Length
        invariant count <= i && |before| == devices.Length
        invariant devices[..count] == Without(before[..i], id)
        invariant forall j :: i <= j < |before| ==> devices[j] == before[j]
        invariant removed <==> IndexOf(before, id) < i
      {
        var device := devices[i];
        WithoutPrefix(before, i, id);
        if device.id == id {
          removed := true;
        } else {
          devices[count] := device;
          count := count + 1;
          assert devices[..count] == devices[..count - 1] + [device];
        }
      }
      assert before[..devices.Length] == before;
    }

    method Revoke(id: string, w: Write) returns (removed: bool, ok: bool)
      modifies this
      ensures file == Apply(old(file), Op.Revoke(id), w)
      ensures removed <==> TrimSpace(id) != "" && exists d :: d in Load(old(file)).GetOr([]) && d.id == TrimSpace(id)
      ensures ok <==> TrimSpace(id) == "" || (Load(old(file)).Some? && (removed ==> w.Done?))
    {
      hide TrimSpace, Without;
      var gone := TrimSpace(id);
      if gone == "" {
        return false, true;
      }
      var loaded, devices := LoadSlice();
      if !loaded {
        return false, false;
      }
      ghost var before := devices[..];
      var count, any := Compact(devices, gone);
      if !any {
        return false, true;
      }
      assert before[IndexOf(before, gone)] in before;
      assert before == Load(old(file)).GetOr([]);
      ok := SaveSlice(devices, count, w);
      removed := true;
    }
  }
}
