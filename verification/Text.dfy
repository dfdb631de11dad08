/** Text: splitting at a separator and joining again, and trimming blanks. */
module Text {

  function Split(text: string, sep: char): (parts: seq<string>)
    ensures |parts| > 0
  {
    if text == "" then [""] else Extend(Split(text[..|text| - 1], sep), text[|text| - 1], sep)
  }

  /** One more character: a separator opens a new part, any other extends the last. */
  function Extend(parts: seq<string>, c: char, sep: char): (r: seq<string>)
    requires |parts| > 0
    ensures |r| > 0
  {
    if c == sep then parts + [""] else parts[..|parts| - 1] + [parts[|parts| - 1] + [c]]
  }

  function Join(parts: seq<string>, sep: char): string {
    if parts == [] then ""
    else if |parts| == 1 then parts[0]
    else Join(parts[..|parts| - 1], sep) + [sep] + parts[|parts| - 1]
  }

  predicate Lacks(part: string, sep: char) {
    forall i :: 0 <= i < |part| ==> part[i] != sep
  }

  lemma SplitSnoc(text: string, c: char, sep: char)
    ensures Split(text + [c], sep) == Extend(Split(text, sep), c, sep)
  {
    assert (text + [c])[..|text|] == text;
  }

  lemma ExtendConcat(a: seq<string>, b: seq<string>, c: char, sep: char)
    requires |b| > 0
    ensures |a + b| > 0 && Extend(a + b, c, sep) == a + Extend(b, c, sep)
  {
    assert (a + b)[..|a + b| - 1] == a + b[..|b| - 1];
  }

  lemma {:induction false} SplitConcat(a: string, b: string, sep: char)
    ensures Split(a + [sep] + b, sep) == Split(a, sep) + Split(b, sep)
  {
    hide Split, Extend;
    if b == "" {
      SplitSnoc(a, sep, sep);
      SplitEmpty(Split(a, sep), sep);
      assert a + [sep] + b == a + [sep];
    } else {
      var front, c := b[..|b| - 1], b[|b| - 1];
      SplitConcat(a, front, sep);
      assert b == front + [c];
      SplitSnoc(front, c, sep);
      assert a + [sep] + (front + [c]) == (a + [sep] + front) + [c];
      SplitSnoc(a + [sep] + front, c, sep);
      ExtendConcat(Split(a, sep), Split(front, sep), c, sep);
    }
  }

  lemma SplitEmpty(parts: seq<string>, sep: char)
    requires |parts| > 0
    ensures Extend(parts, sep, sep) == parts + Split("", sep)
  {
  }

  lemma {:induction false} SplitWhole(part: string, sep: char)
    requires Lacks(part, sep)
    ensures Split(part, sep) == [part]
  {
    if |part| > 0 {
      SplitWhole(part[..|part| - 1], sep);
      assert part == part[..|part| - 1] + [part[|part| - 1]];
    }
  }

  lemma {:induction false} SplitLacks(text: string, sep: char)
    ensures forall i :: 0 <= i < |Split(text, sep)| ==> Lacks(Split(text, sep)[i], sep)
  {
    if |text| > 0 { SplitLacks(text[..|text| - 1], sep); }
  }

  lemma {:induction false} SplitJoin(parts: seq<string>, sep: char)
    requires |parts| > 0 && forall i :: 0 <= i < |parts| ==> Lacks(parts[i], sep)
    ensures Split(Join(parts, sep), sep) == parts
  {
    hide Split, Extend;
    var front, last := parts[..|parts| - 1], parts[|parts| - 1];
    SplitWhole(last, sep);
    if |parts| > 1 {
      SplitJoin(front, sep);
      SplitConcat(Join(front, sep), last, sep);
    }
  }

  lemma {:induction false} JoinSplit(text: string, sep: char)
    ensures Join(Split(text, sep), sep) == text
  {
    if |text| > 0 {
      var parts, c := Split(text[..|text| - 1], sep), text[|text| - 1];
      JoinSplit(text[..|text| - 1], sep);
      JoinExtend(parts, c, sep);
      assert text == text[..|text| - 1] + [c];
    }
  }

  lemma JoinExtend(parts: seq<string>, c: char, sep: char)
    requires |parts| > 0
    ensures Join(Extend(parts, c, sep), sep) == Join(parts, sep) + [c]
  {
    var next := Extend(parts, c, sep);
    if c == sep {
      assert next[..|next| - 1] == parts;
    } else {
      assert next[..|next| - 1] == parts[..|parts| - 1];
      if |parts| > 1 {
        var front := Join(parts[..|parts| - 1], sep) + [sep];
        assert front + (parts[|parts| - 1] + [c]) == (front + parts[|parts| - 1]) + [c];
      }
    }
  }

  lemma {:induction false} JoinConcat(a: seq<string>, b: seq<string>, sep: char)
    requires |a| > 0 && |b| > 0
    ensures Join(a + b, sep) == Join(a, sep) + [sep] + Join(b, sep)
  {
    assert (a + b)[..|a + b| - 1] == a + b[..|b| - 1];
    if |b| == 1 {
      assert a + b[..0] == a;
    } else {
      JoinConcat(a, b[..|b| - 1], sep);
      assert Join(a, sep) + [sep] + Join(b[..|b| - 1], sep) + [sep] + b[|b| - 1]
          == Join(a, sep) + [sep] + (Join(b[..|b| - 1], sep) + [sep] + b[|b| - 1]);
    }
  }

  // Blanks.

  /** Go's strings.TrimSpace. */
  predicate IsSpace(c: char) {
    var n := c as int;
    9 <= n <= 13 || n == 32 || n == 0x85 || n == 0xA0 || n == 0x1680 || 0x2000 <= n <= 0x200A
    || n == 0x2028 || n == 0x2029 || n == 0x202F || n == 0x205F || n == 0x3000
  }

  function TrimSpace(s: string): (t: string)
    decreases |s|
  {
    if |s| == 0 then s
    else if IsSpace(s[0]) then TrimSpace(s[1..])
    else if IsSpace(s[|s| - 1]) then TrimSpace(s[..|s| - 1])
    else s
  }

  lemma {:induction false} TrimTwice(s: string)
    ensures TrimSpace(TrimSpace(s)) == TrimSpace(s)
    decreases |s|
  {
    if |s| == 0 {
    } else if IsSpace(s[0]) {
      TrimTwice(s[1..]);
    } else if IsSpace(s[|s| - 1]) {
      TrimTwice(s[..|s| - 1]);
    }
  }

  predicate Blank(s: string) {
    forall i :: 0 <= i < |s| ==> IsSpace(s[i])
  }

  /** `t` is left when the blanks around it are taken away. */
  ghost predicate TrimsTo(s: string, t: string) {
    && (t != "" ==> !IsSpace(t[0]) && !IsSpace(t[|t| - 1]))
    && exists a: string, b: string :: Blank(a) && Blank(b) && s == a + t + b
  }

  lemma {:induction false} TrimReached(s: string) returns (a: string, b: string)
    ensures Blank(a) && Blank(b) && s == a + TrimSpace(s) + b
    ensures TrimSpace(s) != "" ==> !IsSpace(TrimSpace(s)[0]) && !IsSpace(TrimSpace(s)[|TrimSpace(s)| - 1])
    decreases |s|
  {
    hide IsSpace;
    if |s| == 0 || (!IsSpace(s[0]) && !IsSpace(s[|s| - 1])) {
      a, b := "", "";
      assert TrimSpace(s) == s;
    } else if IsSpace(s[0]) {
      a, b := TrimReached(s[1..]);
      Regroup([s[0]], a, TrimSpace(s), b);
      a := [s[0]] + a;
    } else {
      a, b := TrimReached(s[..|s| - 1]);
      Regroup(a, TrimSpace(s), b, [s[|s| - 1]]);
      b := b + [s[|s| - 1]];
    }
  }

  lemma Regroup(a: string, b: string, c: string, d: string)
    ensures a + (b + c + d) == (a + b) + c + d
    ensures (a + b + c) + d == a + b + (c + d)
  {
  }

  lemma {:induction false} TrimAway(a: string, t: string, b: string)
    requires Blank(a) && Blank(b) && (t != "" ==> !IsSpace(t[0]) && !IsSpace(t[|t| - 1]))
    ensures TrimSpace(a + t + b) == t
    decreases |a| + |b|
  {
    var s := a + t + b;
    if a != "" {
      TrimAway(a[1..], t, b);
      assert s[1..] == a[1..] + t + b;
    } else if b != "" {
      if t == "" {
        TrimAway("", t, b[1..]);
        assert s[1..] == "" + t + b[1..];
      } else {
        TrimAway(a, t, b[..|b| - 1]);
        assert s[..|s| - 1] == a + t + b[..|b| - 1];
      }
    } else {
      assert s == t;
    }
  }

  /** Trimming takes away exactly the surrounding blanks. */
  lemma TrimExactly(s: string, t: string)
    ensures TrimSpace(s) == t <==> TrimsTo(s, t)
  {
    var before, after := TrimReached(s);
    assert s == before + TrimSpace(s) + after;
    hide IsSpace, TrimSpace;
    if TrimsTo(s, t) {
      var a: string, b: string :| Blank(a) && Blank(b) && s == a + t + b;
      TrimAway(a, t, b);
    }
  }
}
