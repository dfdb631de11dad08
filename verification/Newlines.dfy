/** Input for the Windows pseudo-terminal: every line feed gets its carriage return. */
module Newlines {
  import opened Common

  const CR: byte := 13
  const LF: byte := 10

  /** The line feed at `i` has no carriage return before it. */
  predicate BareAt(data: seq<byte>, i: nat)
    requires i < |data|
  {
    data[i] == LF && (i == 0 || data[i - 1] != CR)
  }

  predicate NoBareFeeds(data: seq<byte>) {
    forall i :: 0 <= i < |data| ==> !BareAt(data, i)
  }

  function BareFeeds(data: seq<byte>): nat {
    if data == [] then 0
    else BareFeeds(data[..|data| - 1]) + (if BareAt(data, |data| - 1) then 1 else 0)
  }

  /** Every CR LF becomes LF. */
  function Collapse(data: seq<byte>): seq<byte>
    decreases |data|
  {
    var n := |data|;
    if n >= 2 && data[n - 2] == CR && data[n - 1] == LF then Collapse(data[..n - 2]) + [LF]
    else if n >= 1 then Collapse(data[..n - 1]) + [data[n - 1]]
    else []
  }

  /** Every LF becomes CR LF. */
  function Expand(data: seq<byte>): seq<byte> {
    if data == [] then []
    else Expand(data[..|data| - 1]) + (if data[|data| - 1] == LF then [CR, LF] else [data[|data| - 1]])
  }

  /** What normalizing means: both line endings count as the same line end. */
  function Normalized(data: seq<byte>): seq<byte> {
    Expand(Collapse(data))
  }

  method NormalizeInput(data: seq<byte>) returns (out: seq<byte>)
    ensures out == Normalized(data)
  {
    if |data| == 0 { return data; }
    out := [];
    assert data[..0] == [];
    NormalizedNothing();
    hide Normalized;
    for i := 0 to |data|
      invariant out == Normalized(data[..i])
    {
      var b := data[i];
      NormalizedPrefix(data, i);
      if b == LF {
        if i > 0 && data[i - 1] == CR {
          out := out + [b];
          continue;
        }
        assert out + [CR] + [LF] == out + [CR, LF];
        out := out + [CR];
        out := out + [LF];
        continue;
      }
      out := out + [b];
    }
    assert data[..|data|] == data;
  }

  lemma NormalizedNothing()
    ensures Normalized([]) == []
  {
  }

  lemma NormalizedPrefix(data: seq<byte>, i: nat)
    requires i < |data|
    ensures Normalized(data[..i + 1]) == Normalized(data[..i]) +
              (if data[i] == LF && (i == 0 || data[i - 1] != CR) then [CR, LF] else [data[i]])
  {
    hide Normalized;
    assert data[..i + 1] == data[..i] + [data[i]];
    NormalizedStep(data[..i], data[i]);
  }

  lemma ExpandAppend(data: seq<byte>, b: byte)
    ensures Expand(data + [b]) == Expand(data) + (if b == LF then [CR, LF] else [b])
  {
    assert (data + [b])[..|data|] == data;
  }

  lemma CollapseAppend(data: seq<byte>, b: byte)
    ensures Collapse(data + [b])
         == if b == LF && |data| > 0 && data[|data| - 1] == CR then Collapse(data[..|data| - 1]) + [LF]
            else Collapse(data) + [b]
  {
    var more := data + [b];
    assert more[..|more| - 1] == data;
    if |data| > 0 {
      assert more[..|more| - 2] == data[..|data| - 1];
      assert more[|more| - 2] == data[|data| - 1];
    }
  }

  /** Normalizing goes byte by byte, looking back one byte only. */
  lemma NormalizedStep(data: seq<byte>, b: byte)
    ensures Normalized(data + [b]) == Normalized(data) + AddedFor(data, b)
  {
    CollapseAppend(data, b);
    if b == LF && |data| > 0 && data[|data| - 1] == CR {
      var front := data[..|data| - 1];
      assert data == front + [CR];
      CollapseAppend(front, CR);
      ExpandAppend(Collapse(front), CR);
      ExpandAppend(Collapse(front), LF);
    } else {
      ExpandAppend(Collapse(data), b);
    }
  }

  lemma {:induction false} NormalizedLast(data: seq<byte>)
    ensures (data == [] <==> Normalized(data) == [])
    ensures data != [] ==> Normalized(data)[|Normalized(data)| - 1] == data[|data| - 1]
  {
    if data != [] {
      NormalizedStep(data[..|data| - 1], data[|data| - 1]);
      assert data == data[..|data| - 1] + [data[|data| - 1]];
    }
  }

  function AddedFor(data: seq<byte>, b: byte): seq<byte> {
    if b == LF && (|data| == 0 || data[|data| - 1] != CR) then [CR, LF] else [b]
  }

  lemma BareFeedsAppend(data: seq<byte>, b: byte)
    ensures BareFeeds(data + [b]) + 1 == BareFeeds(data) + |AddedFor(data, b)|
    ensures |AddedFor(data, b)| >= 1 && (|AddedFor(data, b)| == 1 ==> AddedFor(data, b) == [b])
  {
    assert (data + [b])[..|data|] == data;
  }

  lemma NoBareAdded(out: seq<byte>, data: seq<byte>, b: byte)
    requires NoBareFeeds(out) && |out| >= |data|
    requires |data| > 0 ==> out[|out| - 1] == data[|data| - 1]
    ensures NoBareFeeds(out + AddedFor(data, b))
  {
    if b == LF && (|data| == 0 || data[|data| - 1] != CR) {
      NoBareAppend(out, CR);
      NoBareAppend(out + [CR], LF);
      assert out + [CR] + [LF] == out + [CR, LF];
    } else {
      NoBareAppend(out, b);
    }
  }

  /** No bare line feed is left, and one byte is added for each there was. */
  lemma {:induction false} NormalizedExactly(data: seq<byte>)
    ensures NoBareFeeds(Normalized(data))
    ensures |Normalized(data)| == |data| + BareFeeds(data)
  {
    if |data| > 0 {
      var front, b := data[..|data| - 1], data[|data| - 1];
      NormalizedExactly(front);
      NormalizedStep(front, b);
      NormalizedLast(front);
      hide Normalized, BareFeeds, NoBareFeeds, AddedFor;
      assert data == front + [b];
      BareFeedsAppend(front, b);
      NoBareAdded(Normalized(front), front, b);
    }
  }

  lemma NoBareAppend(out: seq<byte>, b: byte)
    requires NoBareFeeds(out) && (b == LF ==> |out| > 0 && out[|out| - 1] == CR)
    ensures NoBareFeeds(out + [b])
  {
    forall i | 0 <= i <= |out| ensures !BareAt(out + [b], i) {
      if i < |out| { assert !BareAt(out, i); }
    }
  }

  /** Input is unchanged exactly when it has no bare line feed; so normalizing twice is
      normalizing once. */
  lemma {:induction false} FixedExactly(data: seq<byte>)
    ensures Normalized(data) == data <==> NoBareFeeds(data)
    ensures Normalized(Normalized(data)) == Normalized(data)
  {
    NormalizedExactly(data);
    NormalizedExactly(Normalized(data));
    NoneCounted(data);
    NoneCounted(Normalized(data));
    SameLength(data);
    SameLength(Normalized(data));
  }

  lemma {:induction false} NoneCounted(data: seq<byte>)
    ensures BareFeeds(data) == 0 <==> NoBareFeeds(data)
  {
    if data != [] {
      var front := data[..|data| - 1];
      NoneCounted(front);
      forall i | 0 <= i < |front| ensures BareAt(front, i) <==> BareAt(data, i) {
      }
      assert BareFeeds(data) == 0 ==> forall i :: 0 <= i < |front| ==> !BareAt(data, i);
      assert NoBareFeeds(data) ==> NoBareFeeds(front) by {
        if NoBareFeeds(data) {
          forall i | 0 <= i < |front| ensures !BareAt(front, i) { assert !BareAt(data, i); }
        }
      }
    }
  }

  /** Nothing but added bytes distinguishes input from output. */
  lemma {:induction false} SameLength(data: seq<byte>)
    ensures BareFeeds(data) == 0 ==> Normalized(data) == data
  {
    if |data| > 0 {
      var front, b := data[..|data| - 1], data[|data| - 1];
      SameLength(front);
      NormalizedStep(front, b);
      hide Normalized, BareFeeds, AddedFor;
      assert data == front + [b];
      BareFeedsAppend(front, b);
    }
  }

  lemma {:induction false} CollapseExpand(data: seq<byte>)
    ensures Collapse(Expand(data)) == data
  {
    if |data| == 0 {
      assert Expand(data) == [] == data;
    } else {
      var front, b := data[..|data| - 1], data[|data| - 1];
      hide *;
      CollapseExpand(front);
      CollapseExpandStep(front, b);
      Snoc(data);
    }
  }

  lemma Snoc(data: seq<byte>)
    requires |data| > 0
    ensures data == data[..|data| - 1] + [data[|data| - 1]]
  {
  }

  lemma CollapseExpandStep(data: seq<byte>, b: byte)
    ensures Collapse(Expand(data + [b])) == Collapse(Expand(data)) + [b]
  {
    ExpandAppend(data, b);
    hide Expand, Collapse;
    if b == LF { CollapseBoth(Expand(data)); } else { CollapseAppend(Expand(data), b); }
  }

  lemma CollapseBoth(data: seq<byte>)
    ensures Collapse(data + [CR, LF]) == Collapse(data) + [LF]
  {
    hide Collapse;
    assert data + [CR, LF] == (data + [CR]) + [LF];
    CollapseAppend(data + [CR], LF);
    assert (data + [CR])[..|data|] == data;
  }

  /** Two inputs give the same bytes exactly when they differ only in how line ends are
      written. */
  lemma AgreeExactly(a: seq<byte>, b: seq<byte>)
    ensures Normalized(a) == Normalized(b) <==> Collapse(a) == Collapse(b)
    ensures Collapse(Normalized(a)) == Collapse(a)
  {
    CollapseExpand(Collapse(a));
    CollapseExpand(Collapse(b));
  }

  // Writing to the pseudo-terminal.

  datatype Answer = Answer(taken: nat, failed: bool)

  datatype WriteError = WriteFailed | WroteNothing

  /** The terminal takes part of what it is given; `answers` says how much each time. */
  class PseudoTerminal {
    const answers: nat -> Answer
    var calls: nat
    var emitted: seq<byte>

    constructor (answers: nat -> Answer)
      ensures this.answers == answers && calls == 0 && emitted == []
    {
      this.answers := answers;
      calls, emitted := 0, [];
    }

    method WriteFile(data: seq<byte>) returns (written: nat, failed: bool)
      modifies this
      ensures calls == old(calls) + 1
      ensures failed == answers(old(calls)).failed && written == Min(answers(old(calls)).taken, |data|)
      ensures emitted == old(emitted) + data[..written]
    {
      var answer := answers(calls);
      written, failed := Min(answer.taken, |data|), answer.failed;
      emitted := emitted + data[..written];
      calls := calls + 1;
    }

    /** Emits the bytes in order without gaps or repeats, all of them on success; success
        unless some call fails or takes nothing. */
    method WriteAll(data: seq<byte>) returns (error: Option<WriteError>)
      modifies this
      ensures exists k :: 0 <= k <= |data| && emitted == old(emitted) + data[..k] && (error.None? ==> k == |data|)
      ensures error == Some(WriteFailed) <==>
                calls > old(calls) && answers(calls - 1).failed
      ensures error == Some(WroteNothing) <==>
                calls > old(calls) && !answers(calls - 1).failed && answers(calls - 1).taken == 0
      ensures forall n :: old(calls) <= n < calls - 1 ==> !answers(n).failed && answers(n).taken > 0
    {
      var rest := data;
      while |rest| > 0
        invariant calls >= old(calls)
        invariant |rest| <= |data| && rest == data[|data| - |rest|..]
        invariant emitted == old(emitted) + data[..|data| - |rest|]
        invariant forall n :: old(calls) <= n < calls ==> !answers(n).failed && answers(n).taken > 0
        decreases |rest|
      {
        var done := |data| - |rest|;
        var written, failed := WriteFile(rest);
        assert data[..done] + rest[..written] == data[..done + written];
        if failed { return Some(WriteFailed); }
        if written == 0 { return Some(WroteNothing); }
        rest := rest[written..];
      }
      return None;
    }

    /** What typing sends: the normalized input. */
    method Send(input: seq<byte>) returns (error: Option<WriteError>)
      modifies this
      ensures error.None? ==> emitted == old(emitted) + Normalized(input)
      ensures exists k :: 0 <= k <= |Normalized(input)| && emitted == old(emitted) + Normalized(input)[..k]
    {
      var data := NormalizeInput(input);
      error := WriteAll(data);
    }
  }
}
