/** The list of listening ports shown on the phone: duplicates dropped, ordered, cut. */
module Ports {
  import opened Common
  import opened Text
  import Decimal

  const MAX_PORTS := 40

  datatype Port = Port(port: nat, protocol: string, address: string, pid: string,
                       process: string, url: string, direct: string)

  predicate EligibleNumber(port: nat) {
    port >= 1024 || port == 80 || port == 443
  }

  predicate Eligible(p: Port) {
    EligibleNumber(p.port)
  }

  function Key(p: Port): string {
    p.address + ":" + Decimal.Print(p.port) + ":" + p.pid
  }

  predicate SameListener(p: Port, q: Port) {
    p.address == q.address && p.port == q.port && p.pid == q.pid
  }

  // The order.

  /** Go's order on strings. */
  predicate TextLess(a: string, b: string) {
    b != "" && (a == "" || a[0] < b[0] || (a[0] == b[0] && TextLess(a[1..], b[1..])))
  }

  predicate Before(p: Port, q: Port) {
    if p.port == q.port then TextLess(p.address, q.address) else p.port < q.port
  }

  predicate SameRank(p: Port, q: Port) {
    p.port == q.port && p.address == q.address
  }

  predicate Sorted(s: seq<Port>) {
    forall i, j :: 0 <= i < j < |s| ==> !Before(s[j], s[i])
  }

  /** The entries with one port and address, in the order they stand in. */
  function Ranked(s: seq<Port>, like: Port): seq<Port> {
    Filter(s, (p: Port) => SameRank(p, like))
  }

  /** Ordered, with entries of equal rank left in their original order. */
  ghost predicate IsStableSort(t: seq<Port>, s: seq<Port>) {
    Sorted(t) && forall like :: Ranked(t, like) == Ranked(s, like)
  }

  /** Put `p` after everything it does not come before. */
  function Insert(s: seq<Port>, p: Port): seq<Port> {
    if s == [] || !Before(p, s[|s| - 1]) then s + [p]
    else Insert(s[..|s| - 1], p) + [s[|s| - 1]]
  }

  /** sort.SliceStable. */
  function StableSort(s: seq<Port>): seq<Port> {
    if s == [] then [] else Insert(StableSort(s[..|s| - 1]), s[|s| - 1])
  }

  // What is kept.

  /** Eligible, and the first eligible entry with its key. */
  predicate FirstByKey(ports: seq<Port>, k: nat)
    requires k < |ports|
  {
    Eligible(ports[k]) && forall j :: 0 <= j < k && Eligible(ports[j]) ==> Key(ports[j]) != Key(ports[k])
  }

  /** Eligible, and the first eligible entry for its listener. */
  predicate FirstOfListener(ports: seq<Port>, k: nat)
    requires k < |ports|
  {
    Eligible(ports[k]) && forall j :: 0 <= j < k && Eligible(ports[j]) ==> !SameListener(ports[j], ports[k])
  }

  function Firsts(ports: seq<Port>, n: nat): seq<Port>
    requires n <= |ports|
  {
    if n == 0 then []
    else Firsts(ports, n - 1) + (if FirstByKey(ports, n - 1) then [ports[n - 1]] else [])
  }

  function FirstListeners(ports: seq<Port>, n: nat): seq<Port>
    requires n <= |ports|
  {
    if n == 0 then []
    else FirstListeners(ports, n - 1) + (if FirstOfListener(ports, n - 1) then [ports[n - 1]] else [])
  }

  method DedupePorts(ports: seq<Port>) returns (out: seq<Port>)
    ensures |out| <= MAX_PORTS
    ensures exists all :: IsStableSort(all, Firsts(ports, |ports|)) && out == all[..Min(|all|, MAX_PORTS)]
  {
    var seen: set<string> := {};
    out := [];
    for i := 0 to |ports|
      invariant out == Firsts(ports, i)
      invariant forall key :: key in seen <==> exists j :: 0 <= j < i && Eligible(ports[j]) && key == Key(ports[j])
    {
      var port := ports[i];
      if port.port < 1024 && port.port != 80 && port.port != 443 { continue; }
      var key := Key(port);
      if key in seen { continue; }
      seen := seen + {key};
      out := out + [port];
    }
    SortIsStable(out);
    out := StableSort(out);
    ghost var all := out;
    assert IsStableSort(all, Firsts(ports, |ports|));
    if |out| > 40 { out := out[..40]; }
    assert out == all[..Min(|all|, MAX_PORTS)];
  }

  // Sorting.

  lemma {:induction false} TextLessTransitive(a: string, b: string, c: string)
    requires !TextLess(b, a) && !TextLess(c, b)
    ensures !TextLess(c, a)
  {
    if a != "" && b != "" && c != "" && a[0] == b[0] == c[0] {
      TextLessTransitive(a[1..], b[1..], c[1..]);
    }
  }

  lemma {:induction false} TextLessTotal(a: string, b: string)
    ensures !TextLess(a, b) && !TextLess(b, a) <==> a == b
    ensures !(TextLess(a, b) && TextLess(b, a))
  {
    if a != "" && b != "" && a[0] == b[0] {
      TextLessTotal(a[1..], b[1..]);
      assert a == [a[0]] + a[1..] && b == [b[0]] + b[1..];
    }
  }

  lemma NotAfterTransitive(p: Port, q: Port, r: Port)
    requires !Before(q, p) && !Before(r, q)
    ensures !Before(r, p)
  {
    if p.port == q.port == r.port { TextLessTransitive(p.address, q.address, r.address); }
  }

  lemma BeforeTotal(p: Port, q: Port)
    ensures !Before(p, q) && !Before(q, p) <==> SameRank(p, q)
    ensures !(Before(p, q) && Before(q, p))
  {
    TextLessTotal(p.address, q.address);
  }

  lemma {:induction false} InsertMembers(s: seq<Port>, p: Port)
    ensures forall q :: q in Insert(s, p) <==> q in s || q == p
  {
    if s != [] && Before(p, s[|s| - 1]) {
      InsertMembers(s[..|s| - 1], p);
      assert s == s[..|s| - 1] + [s[|s| - 1]];
    }
  }

  lemma {:induction false} InsertSorted(s: seq<Port>, p: Port)
    requires Sorted(s)
    ensures Sorted(Insert(s, p))
  {
    if s != [] {
      var front, last := s[..|s| - 1], s[|s| - 1];
      if Before(p, last) {
        InsertSorted(front, p);
        InsertMembers(front, p);
        BeforeTotal(p, last);
        SortedAppend(Insert(front, p), last);
      } else {
        forall q | q in s ensures !Before(p, q) {
          if q != last { NotAfterTransitive(q, last, p); }
        }
        SortedAppend(s, p);
      }
    }
  }

  lemma SortedAppend(s: seq<Port>, p: Port)
    requires Sorted(s) && forall q :: q in s ==> !Before(p, q)
    ensures Sorted(s + [p])
  {
    forall i, j | 0 <= i < j < |s + [p]| ensures !Before((s + [p])[j], (s + [p])[i]) {
      if j == |s| { assert s[i] in s; }
    }
  }

  lemma RankedAppend(s: seq<Port>, p: Port, like: Port)
    ensures Ranked(s + [p], like) == if SameRank(p, like) then Ranked(s, like) + [p] else Ranked(s, like)
  {
    FilterAppend(s, p, (q: Port) => SameRank(q, like));
  }

  lemma {:induction false} InsertRanked(s: seq<Port>, p: Port, like: Port)
    ensures Ranked(Insert(s, p), like) == Ranked(s + [p], like)
  {
    if s != [] && Before(p, s[|s| - 1]) {
      var front, last := s[..|s| - 1], s[|s| - 1];
      InsertRanked(front, p, like);
      BeforeTotal(p, last);
      assert s == front + [last];
      RankedAppend(Insert(front, p), last, like);
      RankedAppend(front, p, like);
      RankedAppend(front, last, like);
      RankedAppend(s, p, like);
    }
  }

  lemma {:induction false} SortIsStable(s: seq<Port>)
    ensures IsStableSort(StableSort(s), s)
  {
    if s != [] {
      var front, last := s[..|s| - 1], s[|s| - 1];
      SortIsStable(front);
      InsertSorted(StableSort(front), last);
      assert s == front + [last];
      forall like ensures Ranked(StableSort(s), like) == Ranked(s, like) {
        InsertRanked(StableSort(front), last, like);
        RankedAppend(StableSort(front), last, like);
        RankedAppend(front, last, like);
      }
    }
  }

  ghost predicate SameRanked(t: seq<Port>, u: seq<Port>) {
    forall like :: Ranked(t, like) == Ranked(u, like)
  }

  lemma LastInBoth(t: seq<Port>, u: seq<Port>)
    requires SameRanked(t, u) && t != []
    ensures t[|t| - 1] in u
  {
    var x := t[|t| - 1];
    FilterMembers(t, (p: Port) => SameRank(p, x), x);
    FilterMembers(u, (p: Port) => SameRank(p, x), x);
    assert Ranked(t, x) == Ranked(u, x);
  }

  lemma SameLast(t: seq<Port>, u: seq<Port>)
    requires Sorted(t) && Sorted(u) && SameRanked(t, u) && t != [] && u != []
    ensures t[|t| - 1] == u[|u| - 1]
  {
    var x, y := t[|t| - 1], u[|u| - 1];
    LastInBoth(t, u);
    LastInBoth(u, t);
    BeforeTotal(x, y);
    assert SameRank(x, y) by {
      BeforeTotal(x, x);
      var i :| 0 <= i < |u| && u[i] == x;
      var j :| 0 <= j < |t| && t[j] == y;
    }
    assert t == t[..|t| - 1] + [x] && u == u[..|u| - 1] + [y];
    RankedAppend(t[..|t| - 1], x, x);
    RankedAppend(u[..|u| - 1], y, x);
    var ranked := Ranked(t, x);
    assert ranked == Ranked(u, x);
    assert ranked[|ranked| - 1] == x && ranked[|ranked| - 1] == y;
  }

  lemma {:induction false} SortedUnique(t: seq<Port>, u: seq<Port>)
    requires Sorted(t) && Sorted(u) && SameRanked(t, u)
    ensures t == u
  {
    if t == [] {
      if u != [] { LastInBoth(u, t); }
    } else if u == [] {
      LastInBoth(t, u);
    } else {
      SameLast(t, u);
      var front, rest, x := t[..|t| - 1], u[..|u| - 1], t[|t| - 1];
      assert t == front + [x] && u == rest + [x];
      forall like ensures Ranked(front, like) == Ranked(rest, like) {
        RankedAppend(front, x, like);
        RankedAppend(rest, x, like);
        assert Ranked(t, like) == Ranked(u, like);
        if SameRank(x, like) {
          assert Ranked(front, like) == Ranked(t, like)[..|Ranked(t, like)| - 1];
          assert Ranked(rest, like) == Ranked(u, like)[..|Ranked(u, like)| - 1];
        }
      }
      SortedUnique(front, rest);
    }
  }

  /** The order is determined: only one is sorted and keeps entries of equal rank in
      place, whichever algorithm finds it. */
  lemma StableSortExactly(t: seq<Port>, s: seq<Port>)
    ensures IsStableSort(t, s) <==> t == StableSort(s)
  {
    SortIsStable(s);
    if IsStableSort(t, s) { SortedUnique(t, StableSort(s)); }
  }

  // The string key.

  lemma SplitKey(p: Port)
    requires Lacks(p.pid, ':')
    ensures Split(Key(p), ':') == Split(p.address, ':') + [Decimal.Print(p.port), p.pid]
  {
    var digits := Decimal.Print(p.port);
    Decimal.PrintsDigits(p.port);
    assert forall i :: 0 <= i < |digits| ==> digits[i] in digits;
    SplitWhole(digits, ':');
    SplitWhole(p.pid, ':');
    hide Split;
    SplitConcat(p.address + ":" + digits, p.pid, ':');
    SplitConcat(p.address, digits, ':');
  }

  /** Although addresses may contain colons, the key tells listeners apart as long as
      process ids do not. */
  lemma KeyInjective(p: Port, q: Port)
    requires Lacks(p.pid, ':') && Lacks(q.pid, ':')
    ensures Key(p) == Key(q) <==> SameListener(p, q)
  {
    if Key(p) == Key(q) {
      SplitKey(p);
      SplitKey(q);
      hide Split;
      var a, b := Split(p.address, ':'), Split(q.address, ':');
      var x, y := [Decimal.Print(p.port), p.pid], [Decimal.Print(q.port), q.pid];
      assert a == (a + x)[..|a|] && x == (a + x)[|a|..];
      assert b == (b + y)[..|b|] && y == (b + y)[|b|..];
      assert a + x == b + y && |a| == |b|;
      assert x[0] == y[0] && x[1] == y[1];
      Decimal.ParsePrint(p.port);
      Decimal.ParsePrint(q.port);
      JoinSplit(p.address, ':');
      JoinSplit(q.address, ':');
    }
  }

  predicate EndsWith(s: string, end: string) {
    |end| <= |s| && s[|s| - |end|..] == end
  }

  /** The longer process id ends, read with a colon before it, in a colon, the number of a
      port that is not skipped, a colon and the shorter one. */
  ghost predicate Confusable(longer: string, shorter: string) {
    exists port: nat :: EligibleNumber(port) && EndsWith(":" + longer, ":" + Decimal.Print(port) + ":" + shorter)
  }

  /** Two entries that are not skipped, with these process ids, are mistaken for one. */
  ghost predicate KeysClash(pid: string, other: string) {
    exists p: Port, q: Port :: p.pid == pid && q.pid == other && Clash(p, q)
  }

  predicate Clash(p: Port, q: Port) {
    Eligible(p) && Eligible(q) && Key(p) == Key(q) && !SameListener(p, q)
  }

  lemma SamePid(p: Port, q: Port)
    requires Key(p) == Key(q) && |p.pid| == |q.pid|
    ensures SameListener(p, q)
  {
    var k := Key(p);
    assert p.pid == k[|k| - |p.pid|..] && q.pid == k[|k| - |p.pid|..];
    var p0, q0 := p.(pid := ""), q.(pid := "");
    assert Key(p0) == k[..|k| - |p.pid|] && Key(q0) == k[..|k| - |p.pid|];
    KeyInjective(p0, q0);
  }

  lemma SuffixOfSuffix(s: string, long: string, short: string)
    requires EndsWith(s, long) && EndsWith(s, short) && |short| <= |long|
    ensures EndsWith(long, short)
  {
  }

  lemma LongerHoldsPort(p: Port, q: Port)
    requires Key(p) == Key(q) && |p.pid| > |q.pid| && Eligible(q)
    ensures Confusable(p.pid, q.pid)
  {
    var head, digits := p.address + ":" + Decimal.Print(p.port), Decimal.Print(q.port);
    Decimal.PrintsDigits(q.port);
    assert Lacks(digits, ':') by {
      assert forall i :: 0 <= i < |digits| ==> digits[i] in digits;
    }
    hide Decimal.Print;
    assert Key(p) == head + (":" + p.pid) && Key(q) == q.address + (":" + digits + ":" + q.pid);
    TailFits(head, p.pid, q.address, digits, q.pid);
    ConfusableBy(p.pid, q.pid, q.port);
  }

  /** One text read two ways: a longer process id reaches back past the whole port number,
      because the colon before it is not among the digits. */
  lemma TailFits(head: string, longer: string, address: string, digits: string, shorter: string)
    requires head + (":" + longer) == address + (":" + digits + ":" + shorter)
    requires |longer| > |shorter| && Lacks(digits, ':')
    ensures EndsWith(":" + longer, ":" + digits + ":" + shorter)
  {
    var k, end, tail := head + (":" + longer), ":" + longer, ":" + digits + ":" + shorter;
    var start := |address| + 1;
    assert k[start..start + |digits|] == digits;
    assert k[|head|] == ':';
    LacksWithin(k, start, start + |digits|, ':');
    assert |tail| <= |end|;
    BothEnds(k, head, end);
    BothEnds(k, address, tail);
    SuffixOfSuffix(k, end, tail);
  }

  lemma LacksWithin(s: string, from: nat, to: nat, sep: char)
    requires from <= to <= |s| && Lacks(s[from..to], sep)
    ensures forall i :: from <= i < to ==> s[i] != sep
  {
    forall i | from <= i < to ensures s[i] != sep {
      assert s[from..to][i - from] == s[i];
    }
  }

  lemma BothEnds(s: string, head: string, end: string)
    requires s == head + end
    ensures EndsWith(s, end)
  {
  }

  lemma ConfusableBy(longer: string, shorter: string, port: nat)
    requires EligibleNumber(port)
    requires EndsWith(":" + longer, ":" + Decimal.Print(port) + ":" + shorter)
    ensures Confusable(longer, shorter)
  {
  }

  lemma ConfusableClash(longer: string, shorter: string)
    requires Confusable(longer, shorter)
    ensures KeysClash(longer, shorter) && KeysClash(shorter, longer)
  {
    var port: nat :| EligibleNumber(port) && EndsWith(":" + longer, ":" + Decimal.Print(port) + ":" + shorter);
    var whole, tail := ":" + longer, ":" + Decimal.Print(port) + ":" + shorter;
    var start := whole[..|whole| - |tail|];
    assert whole == start + tail;
    ClashAt(longer, shorter, start, port);
  }

  lemma ClashAt(longer: string, shorter: string, start: string, port: nat)
    requires EligibleNumber(port)
    requires ":" + longer == start + (":" + Decimal.Print(port) + ":" + shorter)
    ensures KeysClash(longer, shorter) && KeysClash(shorter, longer)
  {
    hide Decimal.Print;
    var head := "h" + ":" + Decimal.Print(80);
    var p := Port(80, "", "h", longer, "", "", "");
    var q := Port(port, "", head + start, shorter, "", "", "");
    var tail := ":" + Decimal.Print(port) + ":" + shorter;
    assert Key(p) == head + (":" + longer);
    assert Key(q) == head + (start + tail);
    assert p.address != q.address;
    assert p.pid == longer && q.pid == shorter && Clash(p, q) && Clash(q, p);
  }

  /** In general: keys of two process ids can clash exactly when one is confusable with
      the other. */
  lemma KeysClashExactly(pid: string, other: string)
    ensures KeysClash(pid, other) <==> Confusable(pid, other) || Confusable(other, pid)
  {
    if KeysClash(pid, other) {
      var p: Port, q: Port :| p.pid == pid && q.pid == other && Clash(p, q);
      if |pid| > |other| { LongerHoldsPort(p, q); }
      if |pid| < |other| { LongerHoldsPort(q, p); }
      if |pid| == |other| { SamePid(p, q); }
    }
    if Confusable(pid, other) { ConfusableClash(pid, other); }
    if Confusable(other, pid) { ConfusableClash(other, pid); }
  }

  // What that means for the list.

  /** Whatever the list, as long as its process ids are among these, exactly the first
      entry of every eligible listener is kept. */
  ghost predicate KeepsFirstListeners(pids: iset<string>) {
    forall ports: seq<Port>, n: nat | n <= |ports| && PidsAmong(ports, pids) ::
      Firsts(ports, n) == FirstListeners(ports, n)
  }

  ghost predicate PidsAmong(ports: seq<Port>, pids: iset<string>) {
    forall p :: p in ports ==> p.pid in pids
  }

  lemma {:induction false} FirstsWithoutClash(ports: seq<Port>, n: nat)
    requires n <= |ports| && forall p, q :: p in ports && q in ports ==> !Clash(p, q)
    ensures Firsts(ports, n) == FirstListeners(ports, n)
  {
    if n > 0 {
      FirstsWithoutClash(ports, n - 1);
      forall j | 0 <= j < n && Eligible(ports[j]) && Eligible(ports[n - 1])
        ensures Key(ports[j]) == Key(ports[n - 1]) <==> SameListener(ports[j], ports[n - 1])
      {
        assert !Clash(ports[j], ports[n - 1]);
      }
    }
  }

  /** Two clashing entries: the list of both keeps one where there are two listeners. */
  lemma ClashLosesOne(p: Port, q: Port)
    requires Clash(p, q)
    ensures Firsts([p, q], 2) == [p] && FirstListeners([p, q], 2) == [p, q]
  {
    var ports := [p, q];
    assert Firsts(ports, 0) == [] && FirstListeners(ports, 0) == [];
    assert FirstByKey(ports, 0) && FirstOfListener(ports, 0);
    assert Firsts(ports, 1) == [p] && FirstListeners(ports, 1) == [p];
    assert !FirstByKey(ports, 1) by { assert Key(ports[0]) == Key(ports[1]); }
    assert FirstOfListener(ports, 1);
  }

  /** The list keeps exactly the first entry of every eligible listener, for all lists with
      process ids among these, if and only if none of them is confusable with another. */
  lemma ListExactly(pids: iset<string>)
    ensures KeepsFirstListeners(pids) <==> forall a, b :: a in pids && b in pids ==> !Confusable(a, b)
  {
    hide Confusable, Clash, Firsts, FirstListeners;
    if forall a, b :: a in pids && b in pids ==> !Confusable(a, b) {
      forall ports: seq<Port>, n: nat | n <= |ports| && PidsAmong(ports, pids)
        ensures Firsts(ports, n) == FirstListeners(ports, n)
      {
        forall p, q | p in ports && q in ports ensures !Clash(p, q) {
          KeysClashExactly(p.pid, q.pid);
        }
        FirstsWithoutClash(ports, n);
      }
    }
    if a, b :| a in pids && b in pids && Confusable(a, b) {
      KeysClashExactly(a, b);
      var p: Port, q: Port :| p.pid == a && q.pid == b && Clash(p, q);
      ClashLosesOne(p, q);
      assert PidsAmong([p, q], pids);
    }
  }

  /** Process ids without colons are never confusable, so for them the list is right. */
  lemma FirstsExactly(ports: seq<Port>, n: nat)
    requires n <= |ports| && forall p :: p in ports ==> Lacks(p.pid, ':')
    ensures Firsts(ports, n) == FirstListeners(ports, n)
  {
    forall p, q | p in ports && q in ports ensures !Clash(p, q) {
      KeyInjective(p, q);
    }
    FirstsWithoutClash(ports, n);
  }
}
