/** The trusted-device registry: a list kept in one JSON file, read whole before each
    operation and written whole after each change. */
module Registry {
  import opened Common
  import opened Text

  datatype Device = Device(id: string, name: string, publicKey: string, firstSeen: int, lastSeen: int)

  /** What a reader finds at the registry's path. */
  datatype File = Missing | Unreadable | Stored(devices: seq<Device>)

  /** A write succeeds, fails before touching the file, or fails after truncating it. */
  datatype Write = Done | Untouched | Truncated

  datatype Op =
    | Authorize(id: string, name: string, publicKey: string, now: int)
    | Touch(id: string, now: int)
    | Revoke(id: string)

  function Load(f: File): Option<seq<Device>> {
    match f
    case Missing => Some([])
    case Unreadable => None
    case Stored(devices) => Some(devices)
  }

  function Save(f: File, devices: seq<Device>, w: Write): File {
    match w
    case Done => Stored(devices)
    case Untouched => f
    case Truncated => Unreadable
  }

  function FirstNonEmpty(a: string, b: string): string {
    if a != "" then a else b
  }

  function IndexOf(devices: seq<Device>, id: string): (k: nat)
    ensures k <= |devices|
    ensures k < |devices| ==> devices[k].id == id
    ensures forall j :: 0 <= j < k ==> devices[j].id != id
  {
    if devices == [] then 0
    else if devices[0].id == id then 0
    else
      var k := IndexOf(devices[1..], id);
      assert forall j :: 0 < j < k + 1 ==> devices[j] == devices[1..][j - 1];
      k + 1
  }

  lemma IndexUnique(devices: seq<Device>, id: string, k: nat)
    requires k <= |devices| && (k < |devices| ==> devices[k].id == id)
    requires forall j :: 0 <= j < k ==> devices[j].id != id
    ensures IndexOf(devices, id) == k
  {
  }

  function Authorized(devices: seq<Device>, id: string, name: string, publicKey: string, now: int): seq<Device> {
    var k := IndexOf(devices, id);
    if k < |devices| then
      devices[k := devices[k].(name := FirstNonEmpty(name, devices[k].name), publicKey := publicKey, lastSeen := now)]
    else devices + [Device(id, FirstNonEmpty(name, "Mobile device"), publicKey, now, now)]
  }

  function Touched(devices: seq<Device>, id: string, now: int): seq<Device> {
    var k := IndexOf(devices, id);
    if k < |devices| then devices[k := devices[k].(lastSeen := now)] else devices
  }

  function Without(devices: seq<Device>, id: string): seq<Device> {
    Filter(devices, (d: Device) => d.id != id)
  }

  lemma WithoutAppend(devices: seq<Device>, d: Device, id: string)
    ensures Without(devices + [d], id) == if d.id == id then Without(devices, id) else Without(devices, id) + [d]
  {
    FilterAppend(devices, d, (x: Device) => x.id != id);
  }

  lemma WithoutPrefix(devices: seq<Device>, i: nat, id: string)
    requires i < |devices|
    ensures Without(devices[..i + 1], id) ==
            if devices[i].id == id then Without(devices[..i], id) else Without(devices[..i], id) + [devices[i]]
  {
    assert devices[..i + 1] == devices[..i] + [devices[i]];
    WithoutAppend(devices[..i], devices[i], id);
  }

  lemma EmptyWithout(id: string)
    ensures Without([], id) == []
  {
  }

  predicate IsAuthorized(f: File, id: string, publicKey: string) {
    id != "" && publicKey != "" && Load(f).Some?
    && exists i :: 0 <= i < |Load(f).value| && Load(f).value[i].id == id && Load(f).value[i].publicKey == publicKey
  }

  /** The file after one operation whose write, if it makes one, goes as `w` says. */
  function Apply(f: File, op: Op, w: Write): File {
    match Load(f)
    case None => f
    case Some(devices) =>
      match op
      case Authorize(id, name, key, now) =>
        if id == "" || key == "" then f else Save(f, Authorized(devices, id, name, key, now), w)
      case Touch(id, now) =>
        if id == "" || IndexOf(devices, id) == |devices| then f else Save(f, Touched(devices, id, now), w)
      case Revoke(id) =>
        if TrimSpace(id) == "" || IndexOf(devices, TrimSpace(id)) == |devices| then f
        else Save(f, Without(devices, TrimSpace(id)), w)
  }

  /** Authorize reports an error exactly when loading or writing fails. */
  predicate AuthorizeOk(f: File, id: string, publicKey: string, w: Write) {
    id == "" || publicKey == "" || (Load(f).Some? && w.Done?)
  }

  // Uniqueness, and the map the list stands for.

  ghost predicate UniqueIds(devices: seq<Device>) {
    forall i, j :: 0 <= i < j < |devices| ==> devices[i].id != devices[j].id
  }

  lemma WithoutMembers(devices: seq<Device>, id: string, d: Device)
    ensures d in Without(devices, id) <==> d in devices && d.id != id
  {
    FilterMembers(devices, (d: Device) => d.id != id, d);
  }

  lemma {:induction false} WithoutUnique(devices: seq<Device>, id: string)
    requires UniqueIds(devices)
    ensures UniqueIds(Without(devices, id))
  {
    if devices != [] {
      var front, last := devices[..|devices| - 1], devices[|devices| - 1];
      WithoutUnique(front, id);
      forall d | d in Without(front, id) ensures d.id != last.id {
        WithoutMembers(front, id, d);
      }
    }
  }

  /** The key a registry holds for `id`, if any. */
  function KeyOf(devices: seq<Device>, id: string): Option<string> {
    var k := IndexOf(devices, id);
    if k < |devices| then Some(devices[k].publicKey) else None
  }

  lemma KeyOfUnique(devices: seq<Device>, id: string, key: string)
    requires UniqueIds(devices)
    ensures KeyOf(devices, id) == Some(key) <==>
            exists i :: 0 <= i < |devices| && devices[i].id == id && devices[i].publicKey == key
  {
    if KeyOf(devices, id) == Some(key) {
      assert devices[IndexOf(devices, id)].publicKey == key;
    }
  }

  lemma KeyOfWithout(devices: seq<Device>, gone: string, id: string)
    requires UniqueIds(devices)
    ensures KeyOf(Without(devices, gone), id) == if id == gone then None else KeyOf(devices, id)
  {
    var left := Without(devices, gone);
    WithoutUnique(devices, gone);
    if id == gone {
      var k := IndexOf(left, id);
      if k < |left| { WithoutMembers(devices, gone, left[k]); }
    } else {
      var k, k' := IndexOf(left, id), IndexOf(devices, id);
      if k < |left| {
        WithoutMembers(devices, gone, left[k]);
        KeyOfUnique(devices, id, left[k].publicKey);
      } else if k' < |devices| {
        WithoutMembers(devices, gone, devices[k']);
      }
    }
  }

  /** What the operations say about `id`, read from the latest back: the key of its last
      Authorize since its last Revoke. No list is involved. */
  function LastKey(ops: seq<Op>, id: string): Option<string> {
    if ops == [] then None
    else
      match ops[|ops| - 1]
      case Authorize(i, _, key, _) =>
        if i == id && i != "" && key != "" then Some(key) else LastKey(ops[..|ops| - 1], id)
      case Revoke(i) =>
        if TrimSpace(i) == id && id != "" then None else LastKey(ops[..|ops| - 1], id)
      case Touch(_, _) => LastKey(ops[..|ops| - 1], id)
  }

  function ApplyAll(ops: seq<Op>): File {
    if ops == [] then Missing else Apply(ApplyAll(ops[..|ops| - 1]), ops[|ops| - 1], Done)
  }

  lemma AuthorizedRefines(devices: seq<Device>, i: string, name: string, key: string, now: int, id: string)
    requires UniqueIds(devices)
    ensures var next := Authorized(devices, i, name, key, now);
            UniqueIds(next) && KeyOf(next, id) == if id == i then Some(key) else KeyOf(devices, id)
  {
    var next := Authorized(devices, i, name, key, now);
    var k := IndexOf(devices, id);
    if IndexOf(devices, i) < |devices| || k < |devices| {
      IndexUnique(next, id, k);
    } else {
      IndexUnique(next, id, if id == i then k else |next|);
    }
  }

  lemma TouchedRefines(devices: seq<Device>, i: string, now: int, id: string)
    requires UniqueIds(devices)
    ensures UniqueIds(Touched(devices, i, now)) && KeyOf(Touched(devices, i, now), id) == KeyOf(devices, id)
  {
    IndexUnique(Touched(devices, i, now), id, IndexOf(devices, id));
  }

  /** The registry's key for `id` after one operation, from the key before it. */
  function NextKey(op: Op, id: string, key: Option<string>): Option<string> {
    match op
    case Authorize(i, _, k, _) => if i == id && i != "" && k != "" then Some(k) else key
    case Touch(_, _) => key
    case Revoke(i) => if TrimSpace(i) == id && id != "" then None else key
  }

  lemma StepRefines(f: File, op: Op, id: string)
    requires Load(f).Some? && UniqueIds(Load(f).value)
    ensures var g := Apply(f, op, Done);
            && Load(g).Some? && UniqueIds(Load(g).value)
            && KeyOf(Load(g).value, id) == NextKey(op, id, KeyOf(Load(f).value, id))
  {
    hide TrimSpace, Authorized, Touched, Without, UniqueIds;
    var devices := Load(f).value;
    match op
    case Authorize(i, name, key, now) => AuthorizedRefines(devices, i, name, key, now, id);
    case Touch(i, now) => TouchedRefines(devices, i, now, id);
    case Revoke(i) =>
      WithoutUnique(devices, TrimSpace(i));
      KeyOfWithout(devices, TrimSpace(i), id);
      if IndexOf(devices, TrimSpace(i)) == |devices| { assert KeyOf(devices, TrimSpace(i)) == None; }
  }

  lemma {:induction false} RunRefines(ops: seq<Op>, id: string)
    ensures var f := ApplyAll(ops);
            Load(f).Some? && UniqueIds(Load(f).value) && KeyOf(Load(f).value, id) == LastKey(ops, id)
  {
    hide Apply, UniqueIds, TrimSpace;
    if ops == [] {
      assert UniqueIds([]) by { EmptyUnique(); }
    } else {
      RunRefines(ops[..|ops| - 1], id);
      StepRefines(ApplyAll(ops[..|ops| - 1]), ops[|ops| - 1], id);
    }
  }

  lemma EmptyUnique()
    ensures UniqueIds([])
  {
  }

  /** Starting empty, after any operations, a device is authorized with a key exactly when
      that non-empty key is the one of its last Authorize since its last Revoke. */
  lemma AuthorizedExactly(ops: seq<Op>, id: string, key: string)
    ensures IsAuthorized(ApplyAll(ops), id, key) <==> id != "" && key != "" && LastKey(ops, id) == Some(key)
    ensures Load(ApplyAll(ops)).Some? && UniqueIds(Load(ApplyAll(ops)).value)
  {
    RunRefines(ops, id);
    KeyOfUnique(Load(ApplyAll(ops)).value, id, key);
  }

  /** The pairs a registry lets through. */
  ghost predicate SubAuthorized(f: File, g: File) {
    forall id, key :: IsAuthorized(f, id, key) ==> IsAuthorized(g, id, key)
  }

  /** Touch and Revoke never add a pair, however their write goes. */
  lemma OnlyAuthorizeAdds(f: File, op: Op, w: Write)
    requires !op.Authorize?
    ensures SubAuthorized(Apply(f, op, w), f)
  {
    var g := Apply(f, op, w);
    forall id, key | IsAuthorized(g, id, key) ensures IsAuthorized(f, id, key) {
      if g != f {
        var devices := Load(f).value;
        var i :| 0 <= i < |g.devices| && g.devices[i].id == id && g.devices[i].publicKey == key;
        if op.Touch? {
          assert devices[i].id == id && devices[i].publicKey == key;
        } else {
          WithoutMembers(devices, TrimSpace(op.id), g.devices[i]);
          var j :| 0 <= j < |devices| && devices[j] == g.devices[i];
        }
      }
    }
  }

  /** A revoke that reaches the file leaves no key authorized for the trimmed id. */
  lemma RevokeRemoves(f: File, id: string, w: Write, key: string)
    requires !w.Untouched?
    ensures !IsAuthorized(Apply(f, Revoke(id), w), TrimSpace(id), key)
  {
    var g, gone := Apply(f, Revoke(id), w), TrimSpace(id);
    if gone != "" && Load(g).Some? {
      forall d | d in Load(g).value ensures d.id != gone {
        if IndexOf(Load(f).value, gone) < |Load(f).value| {
          WithoutMembers(Load(f).value, gone, d);
        } else {
          var j :| 0 <= j < |Load(f).value| && Load(f).value[j] == d;
        }
      }
    }
  }

  /** A completed Authorize lets the pair through, and a completed Touch takes nothing away. */
  lemma AuthorizeGrants(f: File, id: string, name: string, key: string, now: int)
    requires id != "" && key != "" && Load(f).Some?
    ensures IsAuthorized(Apply(f, Authorize(id, name, key, now), Done), id, key)
  {
    var devices := Load(f).value;
    var next := Authorized(devices, id, name, key, now);
    assert next[IndexOf(devices, id)].id == id && next[IndexOf(devices, id)].publicKey == key;
  }

  lemma TouchKeeps(f: File, id: string, now: int, other: string, key: string)
    requires IsAuthorized(f, other, key)
    ensures IsAuthorized(Apply(f, Touch(id, now), Done), other, key)
  {
    var devices := Load(f).value;
    var i :| 0 <= i < |devices| && devices[i].id == other && devices[i].publicKey == key;
    if id != "" && IndexOf(devices, id) < |devices| {
      var next := Touched(devices, id, now);
      assert next[i].id == other && next[i].publicKey == key;
    }
  }

  /** A completed Touch sets when a listed device was last seen, and nothing else. */
  lemma TouchRecords(f: File, id: string, now: int)
    requires id != "" && Load(f).Some? && UniqueIds(Load(f).value)
    ensures var g := Apply(f, Touch(id, now), Done);
            && Load(g).Some? && |Load(g).value| == |Load(f).value|
            && forall i :: 0 <= i < |Load(f).value| ==>
                 var d := Load(f).value[i];
                 Load(g).value[i] == if d.id == id then Device(id, d.name, d.publicKey, d.firstSeen, now) else d
  {
  }

  /** A completed Authorize leaves exactly one entry for the device, with this key and time;
      a given name replaces the old one, a device not listed before is first seen now, and
      no other entry changes. */
  lemma AuthorizeRecords(f: File, id: string, name: string, key: string, now: int)
    requires id != "" && key != "" && Load(f).Some? && UniqueIds(Load(f).value)
    ensures var before, g := Load(f).value, Apply(f, Authorize(id, name, key, now), Done);
            && Load(g).Some? && UniqueIds(Load(g).value)
            && (forall d :: d in before && d.id != id ==> d in Load(g).value)
            && (forall d :: d in Load(g).value && d.id != id ==> d in before)
            && (forall d :: d in before && d.id == id ==>
                  Device(id, if name != "" then name else d.name, key, d.firstSeen, now) in Load(g).value)
            && ((forall d :: d in before ==> d.id != id) ==>
                  Device(id, if name != "" then name else "Mobile device", key, now, now) in Load(g).value)
  {
    var before, k := Load(f).value, IndexOf(Load(f).value, id);
    var after := Authorized(before, id, name, key, now);
    forall d | d in before && d.id != id ensures d in after {
      var i :| 0 <= i < |before| && before[i] == d;
      assert after[i] == d;
    }
    forall d | d in before && d.id == id
      ensures Device(id, if name != "" then name else d.name, key, d.firstSeen, now) in after
    {
      assert after[k] in after;
    }
    if k == |before| { assert after[k] in after; }
  }

  /** A revoke whose trimmed id is another one leaves the pair authorized. */
  lemma RevokeKeepsOthers(f: File, typed: string, id: string, key: string)
    requires IsAuthorized(f, id, key) && TrimSpace(typed) != id
    ensures IsAuthorized(Apply(f, Revoke(typed), Done), id, key)
  {
    var devices := Load(f).value;
    var i :| 0 <= i < |devices| && devices[i].id == id && devices[i].publicKey == key;
    var next := Without(devices, TrimSpace(typed));
    WithoutMembers(devices, TrimSpace(typed), devices[i]);
    var j :| 0 <= j < |next| && next[j] == devices[i];
    assert next[j].id == id && next[j].publicKey == key;
  }

  /** Which authorized devices a revocation can reach at all: exactly those whose stored id
      has no surrounding blanks. */
  lemma RevocableExactly(f: File, id: string, key: string)
    requires IsAuthorized(f, id, key)
    ensures (exists typed: string :: !IsAuthorized(Apply(f, Revoke(typed), Done), id, key)) <==> TrimSpace(id) == id
  {
    hide IsAuthorized, Apply, TrimSpace;
    if TrimSpace(id) == id { RevokeRemoves(f, id, Done, key); }
    if typed: string :| !IsAuthorized(Apply(f, Revoke(typed), Done), id, key) {
      if TrimSpace(typed) != id { RevokeKeepsOthers(f, typed, id, key); }
      TrimTwice(typed);
    }
  }

  /** A device authorized once under an id with surrounding blanks stays authorized through
      any number of revokes and touches, its own id typed exactly among them. */
  lemma {:induction false} BlankIdSurvives(id: string, name: string, key: string, now: int, later: seq<Op>)
    requires id != TrimSpace(id) && key != "" && forall op :: op in later ==> !op.Authorize?
    ensures IsAuthorized(ApplyAll([Authorize(id, name, key, now)] + later), id, key)
  {
    hide TrimSpace, Apply;
    BlankIdKept(id, name, key, now, later);
    assert id != "" by { EmptyTrims(); }
    AuthorizedExactly([Authorize(id, name, key, now)] + later, id, key);
  }

  /** Such a run: authorized as " a", revoked by that very id, authorized still. */
  lemma BlankIdExample(name: string, key: string, now: int)
    requires key != ""
    ensures IsAuthorized(ApplyAll([Authorize(" a", name, key, now), Revoke(" a")]), " a", key)
  {
    assert TrimSpace(" a") == "a" by { assert " a"[1..] == "a"; }
    var later := [Revoke(" a")];
    BlankIdSurvives(" a", name, key, now, later);
    assert [Authorize(" a", name, key, now)] + later == [Authorize(" a", name, key, now), Revoke(" a")];
  }

  lemma EmptyTrims()
    ensures TrimSpace("") == ""
  {
  }

  lemma {:induction false} BlankIdKept(id: string, name: string, key: string, now: int, later: seq<Op>)
    requires id != TrimSpace(id) && key != "" && forall op :: op in later ==> !op.Authorize?
    ensures LastKey([Authorize(id, name, key, now)] + later, id) == Some(key)
  {
    var ops := [Authorize(id, name, key, now)] + later;
    EmptyTrims();
    if later == [] {
      assert ops == [Authorize(id, name, key, now)];
    } else {
      BlankIdKept(id, name, key, now, later[..|later| - 1]);
      assert ops[..|ops| - 1] == [Authorize(id, name, key, now)] + later[..|later| - 1];
      assert later[|later| - 1] in later;
      if later[|later| - 1].Revoke? { TrimTwice(later[|later| - 1].id); }
    }
  }
}
