/** The store object: every call reads the stored value and may replace it. */
module HistoryStoreObject {
  import opened Common
  import opened History

  class LocalChatHistoryStore<M(0), A(0)> {
    var stored: Stored<M, A>
    ghost var log: seq<Session<M, A>>

    /** The stored list is what replaying the saves gives. */
    ghost predicate Valid() reads this {
      && (forall s :: s in log ==> Named(s))
      && Loaded(stored) == Replay(log)
    }

    constructor ()
      ensures stored == Absent && log == [] && Valid()
    {
      stored, log := Absent, [];
    }

    method Load() returns (sessions: seq<Session<M, A>>)
      modifies this
      ensures sessions == Loaded(old(stored)) == Loaded(stored)
      ensures stored == (if old(stored).Broken? then Absent else old(stored)) && log == old(log)
    {
      match stored
      case Absent => sessions := [];
      case NotAList => sessions := [];
      case Broken =>
        stored := Absent;
        sessions := [];
      case Rows(rows) => sessions := Filter(Sessions(rows), s => Named(s));
    }

    method Trim(session: Session<M, A>) returns (r: Session<M, A>)
      ensures r == Trimmed(session)
    {
      var chat := if |session.chat| > MAX_MESSAGES then session.chat[|session.chat| - MAX_MESSAGES..] else session.chat;
      var activity := if |session.activity| > MAX_ACTIVITY
        then session.activity[|session.activity| - MAX_ACTIVITY..] else session.activity;
      r := Session(session.id, chat, activity);
    }

    method Save(session: Session<M, A>)
      requires Named(session) && Valid()
      modifies this
      ensures Valid() && log == old(log) + [session]
      ensures Loaded(stored) == FirstOf(LastSaves(log, |log|), MAX_SESSIONS)
      ensures |Loaded(stored)| <= 80 && exists at :: ListsSaves(log, Loaded(stored), at)
    {
      var current := Load();
      var trimmed := Trim(session);
      var next := FirstOf([trimmed] + Filter(current, (item: Session<M, A>) => item.id != session.id), MAX_SESSIONS);
      stored := Written(next);
      log := log + [session];
      assert log[..|log| - 1] == old(log);
      assert next == Replay(log);
      ReplayNamed(log);
      ReplayExactly(log);
      StoredExactly(log);
      LoadedWritten(next);
    }
  }
}
