/** The phone's chat history: most recently saved sessions first, bounded in number and
    in length. */
module History {
  import opened Common

  const MAX_SESSIONS := 80
  const MAX_MESSAGES := 160
  const MAX_ACTIVITY := 120

  datatype Session<M, A> = Session(id: string, chat: seq<M>, activity: seq<A>)

  /** The stored value: nothing, text that is not JSON, JSON that is not a list, or a list
      whose rows are sessions or something else. */
  datatype Stored<M, A> = Absent | Broken | NotAList | Rows(rows: seq<Option<Session<M, A>>>)

  function Trimmed<M, A>(s: Session<M, A>): Session<M, A> {
    s.(chat := LastOf(s.chat, MAX_MESSAGES), activity := LastOf(s.activity, MAX_ACTIVITY))
  }

  function Sessions<M, A>(rows: seq<Option<Session<M, A>>>): seq<Session<M, A>> {
    if rows == [] then []
    else
      var row := rows[|rows| - 1];
      Sessions(rows[..|rows| - 1]) + (if row.Some? then [row.value] else [])
  }

  predicate Named<M, A>(s: Session<M, A>) {
    s.id != ""
  }

  function Loaded<M, A>(stored: Stored<M, A>): seq<Session<M, A>> {
    if stored.Rows? then Filter(Sessions(stored.rows), s => Named(s)) else []
  }

  function Others<M, A>(list: seq<Session<M, A>>, id: string): seq<Session<M, A>> {
    Filter(list, (s: Session<M, A>) => s.id != id)
  }

  function Written<M, A>(list: seq<Session<M, A>>): Stored<M, A> {
    Rows(seq(|list|, i requires 0 <= i < |list| => Some(list[i])))
  }

  function Saved<M, A>(list: seq<Session<M, A>>, s: Session<M, A>): seq<Session<M, A>> {
    FirstOf([Trimmed(s)] + Others(list, s.id), MAX_SESSIONS)
  }

  /** The list after saving each session of the log in turn, from an empty store. */
  function Replay<M, A>(log: seq<Session<M, A>>): seq<Session<M, A>> {
    if log == [] then [] else Saved(Replay(log[..|log| - 1]), log[|log| - 1])
  }

  // What the list should be, read off the log at once.

  /** No later save has this id. */
  predicate IsLastSave<M, A>(log: seq<Session<M, A>>, k: nat)
    requires k < |log|
  {
    forall j :: k < j < |log| ==> log[j].id != log[k].id
  }

  /** The last saves among the first `n`, newest first, trimmed. */
  function LastSaves<M, A>(log: seq<Session<M, A>>, n: nat): seq<Session<M, A>>
    requires n <= |log|
  {
    if n == 0 then []
    else (if IsLastSave(log, n - 1) then [Trimmed(log[n - 1])] else []) + LastSaves(log, n - 1)
  }

  ghost predicate DistinctIds<M, A>(list: seq<Session<M, A>>) {
    forall i, j :: 0 <= i < j < |list| ==> list[i].id != list[j].id
  }

  ghost predicate IsSomeLastSave<M, A>(log: seq<Session<M, A>>, n: nat, s: Session<M, A>)
    requires n <= |log|
  {
    exists k :: 0 <= k < n && IsLastSave(log, k) && s == Trimmed(log[k])
  }

  lemma {:induction false} LastSavesDistinct<M, A>(log: seq<Session<M, A>>, n: nat)
    requires n <= |log|
    ensures DistinctIds(LastSaves(log, n))
    ensures forall s :: s in LastSaves(log, n) ==> IsSomeLastSave(log, n, s)
  {
    if n > 0 {
      LastSavesDistinct(log, n - 1);
      forall s | s in LastSaves(log, n) ensures IsSomeLastSave(log, n, s) {
        if s in LastSaves(log, n - 1) {
          assert IsSomeLastSave(log, n - 1, s);
        } else {
          assert s == Trimmed(log[n - 1]);
        }
      }
      forall s | s in LastSaves(log, n - 1) ensures IsLastSave(log, n - 1) ==> s.id != log[n - 1].id {
        var k :| 0 <= k < n - 1 && IsLastSave(log, k) && s == Trimmed(log[k]);
        assert log[n - 1].id != log[k].id;
      }
    }
  }

  /** One more save takes its id out of what was there. */
  lemma {:induction false} LastSavesAppend<M, A>(log: seq<Session<M, A>>, s: Session<M, A>, n: nat)
    requires n <= |log|
    ensures LastSaves(log + [s], n) == Others(LastSaves(log, n), s.id)
  {
    if n > 0 {
      LastSavesAppend(log, s, n - 1);
      var longer := log + [s];
      assert longer[n - 1] == log[n - 1];
      assert IsLastSave(longer, n - 1) <==> IsLastSave(log, n - 1) && log[n - 1].id != s.id by {
        assert longer[|log|] == s;
        assert forall j :: 0 <= j < |log| ==> longer[j] == log[j];
      }
      var head := if IsLastSave(log, n - 1) then [Trimmed(log[n - 1])] else [];
      OthersConcat(head, LastSaves(log, n - 1), s.id);
      OthersOfOne(Trimmed(log[n - 1]), s.id);
    }
  }

  lemma OthersConcat<M, A>(a: seq<Session<M, A>>, b: seq<Session<M, A>>, id: string)
    ensures Others(a + b, id) == Others(a, id) + Others(b, id)
  {
    FilterConcat(a, b, (s: Session<M, A>) => s.id != id);
  }

  lemma OthersOfOne<M, A>(s: Session<M, A>, id: string)
    ensures Others([s], id) == (if s.id != id then [s] else []) && Others<M, A>([], id) == []
  {
    assert [s] == [] + [s];
    FilterAppend([], s, (s: Session<M, A>) => s.id != id);
  }

  /** With distinct ids at most one goes. */
  lemma {:induction false} OthersLength<M, A>(list: seq<Session<M, A>>, id: string)
    requires DistinctIds(list)
    ensures |list| - 1 <= |Others(list, id)| <= |list|
    ensures (forall i :: 0 <= i < |list| ==> list[i].id != id) ==> Others(list, id) == list
  {
    if list != [] {
      var front, s := list[..|list| - 1], list[|list| - 1];
      OthersLength(front, id);
      assert list == front + [s];
      OthersConcat(front, [s], id);
      OthersOfOne(s, id);
    }
  }

  /** Cutting before or after a save comes to the same. */
  lemma CutCommutes<M, A>(list: seq<Session<M, A>>, s: Session<M, A>)
    requires DistinctIds(list)
    ensures Saved(FirstOf(list, MAX_SESSIONS), s) == Saved(list, s)
  {
    if |list| > MAX_SESSIONS {
      var kept, gone := list[..MAX_SESSIONS], list[MAX_SESSIONS..];
      assert list == kept + gone;
      OthersConcat(kept, gone, s.id);
      OthersLength(kept, s.id);
      hide Others;
      assert |[Trimmed(s)] + Others(kept, s.id)| >= MAX_SESSIONS;
      assert [Trimmed(s)] + (Others(kept, s.id) + Others(gone, s.id))
          == ([Trimmed(s)] + Others(kept, s.id)) + Others(gone, s.id);
    }
  }

  /** The stored list is the at most eighty most recently saved distinct sessions, newest
      first, each with its last saved content cut to size. */
  lemma {:induction false} ReplayExactly<M, A>(log: seq<Session<M, A>>)
    ensures Replay(log) == FirstOf(LastSaves(log, |log|), MAX_SESSIONS)
    ensures DistinctIds(Replay(log))
  {
    if log != [] {
      var front, s := log[..|log| - 1], log[|log| - 1];
      ReplayExactly(front);
      assert log == front + [s];
      LastSavesAppend(front, s, |front|);
      LastSavesDistinct(front, |front|);
      CutCommutes(LastSaves(front, |front|), s);
      assert IsLastSave(log, |log| - 1);
      assert LastSaves(log, |log|) == [Trimmed(s)] + LastSaves(log, |front|);
    }
    LastSavesDistinct(log, |log|);
  }

  /** `s` is what is kept of the session saved as `full`: its last messages and activities. */
  ghost predicate KeptOf<M, A>(s: Session<M, A>, full: Session<M, A>) {
    s.id == full.id && IsTail(s.chat, full.chat, 160) && IsTail(s.activity, full.activity, 120)
  }

  /** `at` names, newest first, the saves that the entries of `list` are left of: last saves
      of their ids, and all of them that are not older than the oldest listed. */
  ghost predicate ListsSaves<M, A>(log: seq<Session<M, A>>, list: seq<Session<M, A>>, at: seq<nat>) {
    && |at| == |list|
    && (forall i :: 0 <= i < |at| ==> at[i] < |log| && IsLastSave(log, at[i]) && KeptOf(list[i], log[at[i]]))
    && (forall i, j :: 0 <= i < j < |at| ==> at[i] > at[j])
    && (forall k :: 0 <= k < |log| && IsLastSave(log, k) && k !in at ==> |at| == 80 && k < at[79])
  }

  /** The positions of the last saves among the first `n`, newest first. */
  function LastAt<M, A>(log: seq<Session<M, A>>, n: nat): (at: seq<nat>)
    requires n <= |log|
  {
    if n == 0 then [] else (if IsLastSave(log, n - 1) then [n - 1] else []) + LastAt(log, n - 1)
  }

  lemma {:induction false} LastAtLists<M, A>(log: seq<Session<M, A>>, n: nat)
    requires n <= |log|
    ensures var list, at := LastSaves(log, n), LastAt(log, n);
            && |at| == |list|
            && (forall i :: 0 <= i < |at| ==> at[i] < n && IsLastSave(log, at[i]) && list[i] == Trimmed(log[at[i]]))
            && (forall i, j :: 0 <= i < j < |at| ==> at[i] > at[j])
            && (forall k :: 0 <= k < n && IsLastSave(log, k) ==> k in at)
  {
    if n > 0 { LastAtLists(log, n - 1); }
  }

  lemma TrimmedKept<M, A>(s: Session<M, A>)
    ensures KeptOf(Trimmed(s), s)
  {
  }

  /** Cut to the first eighty, both lists still tell which saves there are. */
  lemma CutLists<M, A>(log: seq<Session<M, A>>, all: seq<Session<M, A>>, at: seq<nat>)
    requires |at| == |all|
    requires forall i :: 0 <= i < |at| ==> at[i] < |log| && IsLastSave(log, at[i]) && KeptOf(all[i], log[at[i]])
    requires forall i, j :: 0 <= i < j < |at| ==> at[i] > at[j]
    requires forall k :: 0 <= k < |log| && IsLastSave(log, k) ==> k in at
    ensures ListsSaves(log, FirstOf(all, 80), FirstOf(at, 80))
  {
    hide IsLastSave, KeptOf;
    var kept := FirstOf(at, 80);
    forall k | 0 <= k < |log| && IsLastSave(log, k) && k !in kept ensures |kept| == 80 && k < kept[79] {
      var i :| 0 <= i < |at| && at[i] == k;
    }
  }

  /** In plain numbers: at most eighty sessions are stored, the most recently saved ones,
      newest first, each with the last 160 messages and 120 activities of its last save, or
      all of them if there were fewer. */
  lemma StoredExactly<M, A>(log: seq<Session<M, A>>)
    ensures |Replay(log)| <= 80
    ensures exists at :: ListsSaves(log, Replay(log), at)
  {
    hide IsLastSave, LastSaves, LastAt, Replay, Trimmed, KeptOf, ListsSaves;
    ReplayExactly(log);
    LastAtLists(log, |log|);
    var all, at := LastSaves(log, |log|), LastAt(log, |log|);
    forall i | 0 <= i < |at| ensures KeptOf(all[i], log[at[i]]) {
      TrimmedKept(log[at[i]]);
    }
    CutLists(log, all, at);
  }

  // Storage.

  lemma {:induction false} SessionsWritten<M, A>(list: seq<Session<M, A>>)
    ensures Sessions(Written(list).rows) == list
  {
    if list != [] {
      var front := list[..|list| - 1];
      SessionsWritten(front);
      assert Written(list).rows[..|list| - 1] == Written(front).rows;
    }
  }

  /** A list is read back as written exactly when every session in it has an id. */
  lemma LoadedWritten<M, A>(list: seq<Session<M, A>>)
    ensures Loaded(Written(list)) == list <==> forall s :: s in list ==> Named(s)
  {
    SessionsWritten(list);
    var keep := (s: Session<M, A>) => Named(s);
    if forall s :: s in list ==> Named(s) { FilterAll(list, keep); }
    if Loaded(Written(list)) == list {
      forall s | s in list ensures Named(s) { FilterMembers(list, keep, s); }
    }
  }

  lemma {:induction false} ReplayNamed<M, A>(log: seq<Session<M, A>>)
    requires forall s :: s in log ==> Named(s)
    ensures forall s :: s in Replay(log) ==> Named(s)
  {
    ReplayExactly(log);
    LastSavesDistinct(log, |log|);
    forall s | s in Replay(log) ensures Named(s) {
      assert s in LastSaves(log, |log|);
      var k :| 0 <= k < |log| && IsLastSave(log, k) && s == Trimmed(log[k]);
      assert log[k] in log;
    }
  }
}
