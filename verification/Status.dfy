/** Reading the output of git status in its NUL-separated short form. */
module Status {
  import opened Common
  import opened Text

  const NUL := '\0'

  /** One record: a two-letter code, a path, and the old path after a rename or copy. */
  datatype Record = Record(code: string, path: string, source: Option<string>)

  predicate IsRename(status: string) {
    |status| > 0 && status[0] == 'R'
  }

  predicate WellFormed(r: Record) {
    && |r.code| == 2 && Lacks(r.code, NUL)
    && |r.path| > 0 && TrimSpace(r.path) == r.path && Lacks(r.path, NUL)
    && (r.source.Some? ==> |r.source.value| > 0 && Lacks(r.source.value, NUL))
  }

  /** Exactly the renames carry a second path. */
  predicate Regular(r: Record) {
    r.source.Some? <==> IsRename(TrimSpace(r.code))
  }

  function Fields(r: Record): seq<string> {
    [r.code + " " + r.path] + (if r.source.Some? then [r.source.value] else [])
  }

  function AllFields(records: seq<Record>): seq<string> {
    if records == [] then [] else Fields(records[0]) + AllFields(records[1..])
  }

  /** What git prints: every field ended by a NUL. */
  function Print(records: seq<Record>): string {
    Join(AllFields(records) + [""], NUL)
  }

  function Row(r: Record): map<string, string> {
    map[r.path := TrimSpace(r.code)]
  }

  /** What the records say: the last one for a path counts. */
  function Table(records: seq<Record>): map<string, string> {
    if records == [] then map[] else Row(records[0]) + Table(records[1..])
  }

  // The parser.

  /** A part starts a record only if it can hold a code, a blank and a path. */
  predicate IsRecord(part: string) {
    |part| >= 4
  }

  function StatusOf(part: string): string
    requires IsRecord(part)
  {
    TrimSpace(part[..2])
  }

  function PathOf(part: string): string
    requires IsRecord(part)
  {
    TrimSpace(part[3..])
  }

  /** How many parts the record at the head of `parts` takes. */
  function Taken(parts: seq<string>): (n: nat)
    requires |parts| > 0
    ensures 1 <= n <= |parts|
  {
    if IsRecord(parts[0]) && IsRename(StatusOf(parts[0])) && |parts| > 1 && |parts[1]| > 0 then 2 else 1
  }

  function ParseParts(parts: seq<string>): map<string, string> {
    if parts == [] then map[]
    else if !IsRecord(parts[0]) then ParseParts(parts[1..])
    else map[PathOf(parts[0]) := StatusOf(parts[0])] + ParseParts(parts[Taken(parts)..])
  }

  method ParseStatus(out: string) returns (statusByPath: map<string, string>)
    ensures statusByPath == ParseParts(Split(out, NUL))
  {
    statusByPath := map[];
    var parts := Split(out, NUL);
    var i := 0;
    while i < |parts|
      invariant 0 <= i <= |parts|
      invariant statusByPath + ParseParts(parts[i..]) == ParseParts(parts)
    {
      var p := parts[i];
      var rest := parts[i..];
      if p == "" || |p| < 4 {
        assert parts[i + 1..] == rest[1..];
        i := i + 1;
        continue;
      }
      var status, path := TrimSpace(p[..2]), TrimSpace(p[3..]);
      assert rest[Taken(rest)..] == parts[i + Taken(rest)..];
      Overlay(statusByPath, path, status, ParseParts(parts[i + Taken(rest)..]));
      if |status| > 0 && status[0] == 'R' && i + 1 < |parts| && |parts[i + 1]| > 0 {
        i := i + 1;
      }
      statusByPath := statusByPath[path := status];
      i := i + 1;
    }
    assert parts[i..] == [];
  }

  lemma Overlay(a: map<string, string>, path: string, status: string, b: map<string, string>)
    ensures a + (map[path := status] + b) == a[path := status] + b
  {
  }

  // Round trip.

  lemma RecordFields(r: Record)
    requires WellFormed(r)
    ensures var head := Fields(r)[0];
            && |Fields(r)| == (if r.source.Some? then 2 else 1)
            && IsRecord(head) && StatusOf(head) == TrimSpace(r.code) && PathOf(head) == r.path
            && forall i :: 0 <= i < |Fields(r)| ==> |Fields(r)[i]| > 0 && Lacks(Fields(r)[i], NUL)
  {
    var head := r.code + " " + r.path;
    assert head[..2] == r.code && head[3..] == r.path;
  }

  lemma {:induction false} AllFieldsLack(records: seq<Record>)
    requires forall r :: r in records ==> WellFormed(r)
    ensures forall i :: 0 <= i < |AllFields(records)| ==> Lacks(AllFields(records)[i], NUL)
  {
    if |records| > 0 {
      RecordFields(records[0]);
      AllFieldsLack(records[1..]);
    }
  }

  lemma SplitPrinted(records: seq<Record>)
    requires forall r :: r in records ==> WellFormed(r)
    ensures Split(Print(records), NUL) == AllFields(records) + [""]
  {
    AllFieldsLack(records);
    SplitJoin(AllFields(records) + [""], NUL);
  }

  lemma AllFieldsCons(r: Record, rest: seq<Record>)
    ensures AllFields([r] + rest) == Fields(r) + AllFields(rest)
  {
    assert ([r] + rest)[1..] == rest;
  }

  lemma AllFieldsStep(r: Record, a: seq<Record>, b: seq<Record>)
    requires AllFields(a + b) == AllFields(a) + AllFields(b)
    ensures AllFields([r] + a + b) == AllFields([r] + a) + AllFields(b)
  {
    hide Fields, AllFields;
    assert [r] + a + b == [r] + (a + b);
    AllFieldsCons(r, a + b);
    AllFieldsCons(r, a);
  }

  lemma {:induction false} AllFieldsConcat(a: seq<Record>, b: seq<Record>)
    ensures AllFields(a + b) == AllFields(a) + AllFields(b)
  {
    if a == [] {
      assert a + b == b;
    } else {
      AllFieldsConcat(a[1..], b);
      AllFieldsStep(a[0], a[1..], b);
      assert a == [a[0]] + a[1..];
    }
  }

  lemma OverlayAssociates(a: map<string, string>, b: map<string, string>, c: map<string, string>)
    ensures a + (b + c) == a + b + c
  {
  }

  lemma TableCons(r: Record, rest: seq<Record>)
    ensures Table([r] + rest) == Row(r) + Table(rest)
  {
    assert ([r] + rest)[1..] == rest;
  }

  lemma TableStep(r: Record, a: seq<Record>, b: seq<Record>)
    requires Table(a + b) == Table(a) + Table(b)
    ensures Table([r] + a + b) == Table([r] + a) + Table(b)
  {
    hide Row, Table;
    assert [r] + a + b == [r] + (a + b);
    TableCons(r, a + b);
    TableCons(r, a);
    OverlayAssociates(Row(r), Table(a), Table(b));
  }

  lemma {:induction false} TableConcat(a: seq<Record>, b: seq<Record>)
    ensures Table(a + b) == Table(a) + Table(b)
  {
    if a == [] {
      assert a + b == b;
      assert map[] + Table(b) == Table(b);
    } else {
      TableConcat(a[1..], b);
      TableStep(a[0], a[1..], b);
      assert a == [a[0]] + a[1..];
    }
  }

  /** A record whose parts are all taken is one row. */
  lemma ParseHead(parts: seq<string>, r: Record)
    requires |parts| > 0 && IsRecord(parts[0]) && StatusOf(parts[0]) == TrimSpace(r.code) && PathOf(parts[0]) == r.path
    ensures ParseParts(parts) == Row(r) + ParseParts(parts[Taken(parts)..])
  {
  }

  lemma ParseOne(r: Record, rest: seq<string>)
    requires WellFormed(r) && Regular(r)
    ensures ParseParts(Fields(r) + rest) == Row(r) + ParseParts(rest)
  {
    RecordFields(r);
    var parts := Fields(r) + rest;
    hide ParseParts, StatusOf, PathOf, TrimSpace, Row, WellFormed, Fields, IsRename;
    assert parts[0] == Fields(r)[0];
    assert r.source.Some? ==> parts[1] == Fields(r)[1];
    assert Taken(parts) == |Fields(r)|;
    assert parts[|Fields(r)|..] == rest;
    ParseHead(parts, r);
  }

  // Irregular records: copies, and codes such as "DR", carry a second path the parser
  // does not expect; a rename code without one swallows the next record.

  /** Regular, or a second path too short to be read as a record, or one that happens to
      repeat the record itself. */
  predicate Tolerated(r: Record) {
    || Regular(r)
    || (r.source.Some? && !IsRename(TrimSpace(r.code))
        && (IsRecord(r.source.value) ==>
              PathOf(r.source.value) == r.path && StatusOf(r.source.value) == TrimSpace(r.code)))
  }

  lemma SecondPathIgnored(r: Record, source: string, rest: seq<string>)
    requires IsRecord(source) ==>
               PathOf(source) == r.path && StatusOf(source) == TrimSpace(r.code) && !IsRename(StatusOf(source))
    ensures Row(r) + ParseParts([source] + rest) == Row(r) + ParseParts(rest)
  {
    var parts := [source] + rest;
    assert parts[1..] == rest;
    if IsRecord(source) {
      hide ParseParts, Row, StatusOf, PathOf, TrimSpace;
      assert Taken(parts) == 1;
      ParseHead(parts, r);
      OverlayAssociates(Row(r), Row(r), ParseParts(rest));
      OverlaySelf(Row(r));
    }
  }

  lemma OverlaySelf(a: map<string, string>)
    ensures a + a == a
  {
  }

  lemma ParseTolerated(r: Record, rest: seq<string>)
    requires WellFormed(r) && Tolerated(r)
    ensures ParseParts(Fields(r) + rest) == Row(r) + ParseParts(rest)
  {
    if Regular(r) {
      ParseOne(r, rest);
    } else {
      var source := r.source.value;
      var parts := Fields(r) + rest;
      RecordFields(r);
      assert parts[1..] == [source] + rest;
      hide ParseParts, Row, StatusOf, PathOf, TrimSpace, Fields;
      assert parts[0] == Fields(r)[0];
      ParseHead(parts, r);
      SecondPathIgnored(r, source, rest);
    }
  }

  /** Tolerated records are read off one by one, whatever follows them. */
  lemma {:induction false} ParseAll(records: seq<Record>, rest: seq<string>)
    requires forall r :: r in records ==> WellFormed(r) && Tolerated(r)
    ensures ParseParts(AllFields(records) + rest) == Table(records) + ParseParts(rest)
  {
    hide ParseParts, Fields, WellFormed, Tolerated, Row;
    if records == [] {
      assert AllFields(records) + rest == rest;
    } else {
      var more := AllFields(records[1..]) + rest;
      ParseTolerated(records[0], more);
      ParseAll(records[1..], rest);
      assert AllFields(records) + rest == Fields(records[0]) + more;
      OverlayAssociates(Row(records[0]), Table(records[1..]), ParseParts(rest));
    }
  }

  /** Reading what git prints for tolerated records gives the last code of every path. */
  lemma PrintParse(records: seq<Record>)
    requires forall r :: r in records ==> WellFormed(r) && Tolerated(r)
    ensures ParseParts(Split(Print(records), NUL)) == Table(records)
  {
    SplitPrinted(records);
    hide WellFormed, Tolerated, Split, Print, ParseParts;
    ParseAll(records, [""]);
    LastPart();
  }

  lemma LastPart()
    ensures ParseParts([""]) == map[] && forall m: map<string, string> :: m + map[] == m
  {
  }

  /** With distinct paths: one entry per record, its trimmed code, and nothing else. */
  lemma {:induction false} TableExactly(records: seq<Record>, path: string)
    requires forall i, j :: 0 <= i < j < |records| ==> records[i].path != records[j].path
    ensures path in Table(records) <==> exists r :: r in records && r.path == path
    ensures forall r :: r in records && r.path == path ==>
              path in Table(records) && Table(records)[path] == TrimSpace(r.code)
  {
    if |records| > 0 {
      TableExactly(records[1..], path);
      assert forall r :: r in records <==> r == records[0] || r in records[1..];
    }
  }

  /** This record does not disturb the reading of the tolerated ones around it. */
  ghost predicate Harmless(r: Record) {
    forall a: seq<Record>, b: seq<Record> ::
      (forall x :: x in a + b ==> WellFormed(x) && Tolerated(x)) ==>
      ParseParts(Split(Print(a + [r] + b), NUL)) == Table(a + [r] + b)
  }

  lemma AllFieldsOne(r: Record)
    ensures AllFields([r]) == Fields(r)
  {
    assert [r][1..] == [];
  }

  /** The parser reads a record correctly among all tolerated ones just when it is
      tolerated itself. */
  lemma HarmlessExactly(r: Record)
    requires WellFormed(r)
    ensures Harmless(r) <==> Tolerated(r)
  {
    if Tolerated(r) {
      forall a: seq<Record>, b: seq<Record> | forall x :: x in a + b ==> WellFormed(x) && Tolerated(x)
        ensures ParseParts(Split(Print(a + [r] + b), NUL)) == Table(a + [r] + b)
      {
        assert forall x :: x in a + [r] + b ==> x == r || x in a + b;
        PrintParse(a + [r] + b);
      }
    } else if r.source.Some? {
      SecondPathMisread(r);
    } else {
      NextRecordLost(r);
    }
  }

  lemma PartsAround(a: seq<Record>, r: Record, b: seq<Record>)
    requires WellFormed(r) && forall x :: x in a + b ==> WellFormed(x)
    ensures Split(Print(a + [r] + b), NUL) == AllFields(a) + (Fields(r) + (AllFields(b) + [""]))
  {
    var all := a + [r] + b;
    assert forall x :: x in all ==> x in a + b || x == r;
    hide WellFormed, Split, Print, AllFields, Fields;
    SplitPrinted(all);
    AllFieldsConcat(a + [r], b);
    AllFieldsConcat(a, [r]);
    AllFieldsOne(r);
    Regroup(AllFields(a), Fields(r), AllFields(b), [""]);
  }

  lemma Regroup(a: seq<string>, b: seq<string>, c: seq<string>, d: seq<string>)
    ensures a + b + c + d == a + (b + (c + d))
  {
  }

  lemma TableAround(a: seq<Record>, r: Record, b: seq<Record>)
    ensures Table(a + [r] + b) == Table(a) + (Row(r) + Table(b))
  {
    hide Table, Row;
    TableConcat(a + [r], b);
    TableConcat(a, [r]);
    TableOne(r);
    OverlayAssociates(Table(a), Row(r), Table(b));
  }

  lemma TableOne(r: Record)
    ensures Table([r]) == Row(r)
  {
    assert [r][1..] == [];
  }

  /** The second path shows up as a record of its own. */
  lemma SecondPathParsed(r: Record, source: string)
    requires WellFormed(r) && !IsRename(TrimSpace(r.code)) && r.source == Some(source) && IsRecord(source)
    ensures ParseParts(Fields(r) + [""]) == Row(r) + map[PathOf(source) := StatusOf(source)]
  {
    var parts := Fields(r) + [""];
    RecordFields(r);
    var more := [source, ""];
    assert more[1..] == [""];
    LastPart();
    assert ParseParts(more) == map[PathOf(source) := StatusOf(source)];
    hide ParseParts, StatusOf, PathOf, TrimSpace, Fields;
    assert parts[0] == Fields(r)[0];
    assert parts[1..] == more by { assert Fields(r)[1] == source by { SecondField(r); } }
    ParseHead(parts, r);
  }

  lemma SecondField(r: Record)
    requires r.source.Some?
    ensures |Fields(r)| == 2 && Fields(r)[1] == r.source.value
  {
  }

  lemma SecondPathMisread(r: Record)
    requires WellFormed(r) && !Tolerated(r) && r.source.Some?
    ensures !Harmless(r)
  {
    var source := r.source.value;
    SecondPathParsed(r, source);
    PartsAround([], r, []);
    TableAround([], r, []);
    LastPart();
    hide ParseParts, StatusOf, PathOf, TrimSpace, Fields, Split, Print;
    var parsed := ParseParts(Split(Print([] + [r] + []), NUL));
    assert [] + (Fields(r) + ([] + [""])) == Fields(r) + [""];
    assert PathOf(source) in parsed && parsed[PathOf(source)] == StatusOf(source);
    assert Table([] + [r] + []) == map[] + Row(r);
  }

  /** The next record is taken for the old path and lost. */
  lemma NextRecordParsed(r: Record, lost: string)
    requires WellFormed(r) && IsRename(TrimSpace(r.code)) && r.source.None? && |lost| > 0
    ensures ParseParts(Fields(r) + [lost, ""]) == Row(r)
  {
    hide *;
    RecordFields(r);
    SwallowedParsed(r, Fields(r)[0], lost);
    HeadAndTwo(Fields(r), lost);
  }

  lemma HeadAndTwo(fields: seq<string>, lost: string)
    requires |fields| == 1
    ensures fields + [lost, ""] == [fields[0], lost, ""]
  {
  }

  lemma SwallowedParsed(r: Record, head: string, lost: string)
    requires IsRecord(head) && StatusOf(head) == TrimSpace(r.code) && PathOf(head) == r.path
    requires IsRename(TrimSpace(r.code)) && |lost| > 0
    ensures ParseParts([head, lost, ""]) == Row(r)
  {
    var parts := [head, lost, ""];
    hide ParseParts, StatusOf, PathOf, TrimSpace, Row, IsRename;
    TwoTaken(parts);
    ParseHead(parts, r);
    assert parts[2..] == [""];
    LastPart();
  }

  lemma TwoTaken(parts: seq<string>)
    requires |parts| > 1 && IsRecord(parts[0]) && IsRename(StatusOf(parts[0])) && |parts[1]| > 0
    ensures Taken(parts) == 2
  {
  }

  function Next(path: string): Record {
    Record("M ", if path == "a" then "b" else "a", None)
  }

  lemma TrimOne(c: char)
    requires !IsSpace(c)
    ensures TrimSpace([c]) == [c]
  {
  }

  lemma TrimTwo(c: char)
    requires !IsSpace(c)
    ensures TrimSpace([c, ' ']) == [c]
  {
    assert [c, ' '][..1] == [c];
  }

  lemma NextIsRegular(path: string)
    ensures WellFormed(Next(path)) && Regular(Next(path)) && Next(path).path != path && Next(path).source.None?
  {
    hide TrimSpace;
    TrimOne('a');
    TrimOne('b');
    TrimTwo('M');
  }

  lemma NextRecordLost(r: Record)
    requires WellFormed(r) && IsRename(TrimSpace(r.code)) && r.source.None?
    ensures !Harmless(r)
  {
    var lost := Next(r.path);
    NextIsRegular(r.path);
    hide WellFormed, Regular, ParseParts, Split, Print, Table, Next, Fields, TrimSpace, StatusOf, PathOf;
    RecordFields(lost);
    assert Fields(lost) == [Fields(lost)[0]];
    NextRecordParsed(r, Fields(lost)[0]);
    PrintedPair(r, lost);
    assert forall x :: x in [] + [lost] ==> x == lost;
    assert lost.path !in ParseParts(Split(Print([] + [r] + [lost]), NUL));
    assert lost.path in Table([] + [r] + [lost]);
  }

  lemma PrintedPair(r: Record, next: Record)
    requires WellFormed(r) && WellFormed(next) && |Fields(next)| == 1
    ensures Split(Print([] + [r] + [next]), NUL) == Fields(r) + [Fields(next)[0], ""]
    ensures Table([] + [r] + [next]) == Row(r) + Row(next)
  {
    assert forall x :: x in [] + [next] ==> x == next;
    PartsAround([], r, [next]);
    TableAround([], r, [next]);
    AllFieldsOne(next);
    TableOne(next);
    hide WellFormed, Split, Print, Fields, Row;
    assert Fields(next) + [""] == [Fields(next)[0], ""];
  }
}
