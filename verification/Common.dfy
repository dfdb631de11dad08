/** Small shared vocabulary: optional values, results, filtering, and the
    subsequence relation in which every ordering claim is stated. */
module Common {

  datatype Option<+T> = None | Some(value: T) {
    function GetOr(default: T): T {
      if Some? then value else default
    }
  }

  datatype Result<+T, +E> = Ok(value: T) | Err(error: E)

  type byte = b: int | 0 <= b < 256

  function Min(a: int, b: int): int {
    if a <= b then a else b
  }

  function LastOf<T>(s: seq<T>, n: nat): seq<T> {
    if |s| > n then s[|s| - n..] else s
  }

  /** `a` is the end of `b`, all of it or `n` long. */
  ghost predicate IsTail<T>(a: seq<T>, b: seq<T>, n: nat) {
    |a| == Min(n, |b|) && a == b[|b| - |a|..]
  }

  function FirstOf<T>(s: seq<T>, n: nat): seq<T> {
    if |s| > n then s[..n] else s
  }

  /** The elements of `s` that satisfy `keep`, in order. */
  function Filter<T>(s: seq<T>, keep: T -> bool): (r: seq<T>) {
    if s == [] then []
    else if keep(s[|s| - 1]) then Filter(s[..|s| - 1], keep) + [s[|s| - 1]]
    else Filter(s[..|s| - 1], keep)
  }

  lemma FilterAppend<T>(s: seq<T>, x: T, keep: T -> bool)
    ensures Filter(s + [x], keep) == if keep(x) then Filter(s, keep) + [x] else Filter(s, keep)
  {
    assert (s + [x])[..|s|] == s;
  }

  lemma LastApart<T>(a: seq<T>, b: seq<T>)
    requires |b| > 0
    ensures var front, x := b[..|b| - 1], b[|b| - 1]; b == front + [x] && a + b == (a + front) + [x]
  {
  }

  lemma {:induction false} FilterConcat<T>(a: seq<T>, b: seq<T>, keep: T -> bool)
    ensures Filter(a + b, keep) == Filter(a, keep) + Filter(b, keep)
  {
    if b == [] {
      assert a + b == a;
    } else {
      var front := b[..|b| - 1];
      LastApart(a, b);
      FilterAppend(a + front, b[|b| - 1], keep);
      FilterConcat(a, front, keep);
    }
  }

  lemma {:induction false} FilterMembers<T>(s: seq<T>, keep: T -> bool, x: T)
    ensures x in Filter(s, keep) <==> x in s && keep(x)
  {
    if s != [] {
      FilterMembers(s[..|s| - 1], keep, x);
      assert s == s[..|s| - 1] + [s[|s| - 1]];
    }
  }

  lemma {:induction false} FilterAll<T>(s: seq<T>, keep: T -> bool)
    requires forall x :: x in s ==> keep(x)
    ensures Filter(s, keep) == s
  {
    if s != [] { FilterAll(s[..|s| - 1], keep); }
  }

  /** `at` names increasing positions of `b` at which the elements of `a` stand. */
  ghost predicate EmbedsAt<T>(a: seq<T>, b: seq<T>, at: seq<nat>) {
    && |at| == |a|
    && (forall i :: 0 <= i < |a| ==> at[i] < |b| && a[i] == b[at[i]])
    && (forall i, j :: 0 <= i < j < |a| ==> at[i] < at[j])
  }

  /** `a` is `b` with some elements left out: nothing invented, repeated or reordered. */
  ghost predicate Subsequence<T>(a: seq<T>, b: seq<T>) {
    exists at: seq<nat> :: EmbedsAt(a, b, at)
  }

  ghost predicate Increasing<T>(s: seq<T>, rank: T -> int) {
    forall i, j :: 0 <= i < j < |s| ==> rank(s[i]) < rank(s[j])
  }

  lemma IncreasingAppend<T>(s: seq<T>, x: T, rank: T -> int)
    requires Increasing(s, rank)
    requires forall y :: y in s ==> rank(y) < rank(x)
    ensures Increasing(s + [x], rank)
  {
    forall i, j | 0 <= i < j < |s + [x]| ensures rank((s + [x])[i]) < rank((s + [x])[j]) {
      if j == |s| { assert s[i] in s; }
    }
  }

  lemma {:induction false} FilterIncreasing<T>(s: seq<T>, keep: T -> bool, rank: T -> int)
    requires Increasing(s, rank)
    ensures Increasing(Filter(s, keep), rank)
  {
    if s != [] {
      var front, x := s[..|s| - 1], s[|s| - 1];
      FilterIncreasing(front, keep, rank);
      forall y | y in Filter(front, keep) ensures rank(y) < rank(x) {
        FilterMembers(front, keep, y);
      }
      IncreasingAppend(Filter(front, keep), x, rank);
    }
  }

  function IndexIn<T(==)>(b: seq<T>, x: T): (k: nat)
    requires x in b
    ensures k < |b| && b[k] == x
  {
    if b[0] == x then 0 else 1 + IndexIn(b[1..], x)
  }

  /** Picking members of a ranked log in increasing rank picks a subsequence of it. */
  lemma OrderedPicks<T>(a: seq<T>, b: seq<T>, rank: T -> int)
    requires Increasing(a, rank) && Increasing(b, rank)
    requires forall x :: x in a ==> x in b
    ensures Subsequence(a, b)
  {
    var at: seq<nat> := seq(|a|, i requires 0 <= i < |a| => (assert a[i] in a; IndexIn(b, a[i])));
    forall i, j | 0 <= i < j < |a| ensures at[i] < at[j] {
      assert rank(b[at[i]]) < rank(b[at[j]]);
    }
    assert EmbedsAt(a, b, at);
  }

  lemma SubsequenceIncreasing<T>(a: seq<T>, b: seq<T>, rank: T -> int)
    requires Subsequence(a, b) && Increasing(b, rank)
    ensures Increasing(a, rank)
  {
    var at: seq<nat> :| EmbedsAt(a, b, at);
    forall i, j | 0 <= i < j < |a| ensures rank(a[i]) < rank(a[j]) {
      assert rank(b[at[i]]) < rank(b[at[j]]);
    }
  }

  lemma SubsequenceMembers<T>(a: seq<T>, b: seq<T>)
    requires Subsequence(a, b)
    ensures forall x :: x in a ==> x in b
  {
    var at: seq<nat> :| EmbedsAt(a, b, at);
  }
}
