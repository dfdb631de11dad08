/** Automatic reconnection read off the events alone: which timers run, when they connect and
    where to, without the controller's counters. */
module ReconnectRuns {
  import opened Common
  import opened Reconnect

  // What the events say.

  /** The session was last ended, not begun again. */
  function EndedBy(events: seq<Event>): bool {
    if events == [] then false
    else
      match events[|events| - 1]
      case EndPressed => true
      case ProcessExited => true
      case ConnectTo(_) => false
      case ReconnectLast => false
      case SessionReady => false
      case PairingExpired => false
      case _ => EndedBy(events[..|events| - 1])
  }

  /** The pairing last stored. */
  function LastStored(events: seq<Event>): Option<string> {
    if events == [] then None
    else
      match events[|events| - 1]
      case Restored(pairing) => Some(pairing)
      case DialSucceeded(pairing, save) => if save then Some(pairing) else LastStored(events[..|events| - 1])
      case PairingExpired => None
      case _ => LastStored(events[..|events| - 1])
  }

  /** The pairing on show. */
  function Shown(events: seq<Event>): Option<string> {
    if events == [] then None
    else
      var front := events[..|events| - 1];
      match events[|events| - 1]
      case ConnectTo(pairing) => Some(pairing)
      case ReconnectLast => if LastStored(front).Some? then LastStored(front) else Shown(front)
      case HistoryOpened(session) => if LastStored(front) == Some(session) then Some(session) else None
      case _ => Shown(front)
  }

  function Aim(events: seq<Event>): Option<string> {
    if Shown(events).Some? then Shown(events) else LastStored(events)
  }

  /** Timers running after these events. */
  function Timers(events: seq<Event>): map<nat, Timer> {
    Run(events).running
  }

  /** The status on show. */
  function StatusBy(events: seq<Event>): Status
    decreases events, 0
  {
    if events == [] then Idle
    else
      var front := events[..|events| - 1];
      match events[|events| - 1]
      case ConnectTo(_) => Connecting
      case ReconnectLast => if LastStored(front).Some? then Connecting else StatusBy(front)
      case DialFailed => Error
      case HistoryOpened(session) => if LastStored(front) == Some(session) then Disconnected else Ended
      case EndClosed => Ended
      case RelayConnecting => Connecting
      case SessionReady => Ready
      case SocketLost => if EndedBy(front) then Ended else Disconnected
      case Progressed => Ready
      case ProcessExited => Ended
      case PairingExpired => Error
      case ErrorReported => if EndedBy(front) then StatusBy(front) else Error
      case SendFailed => Error
      case TimerDue(id) => if id in Timers(front) && Lost(front) then Connecting else StatusBy(front)
      case AutoDialFailed => Disconnected
      case _ => StatusBy(front)
  }

  /** The connection was last seen lost. */
  predicate Lost(events: seq<Event>)
    decreases events, 1
  {
    StatusBy(events) == Disconnected
  }

  /** This event, coming after those, ends a row of attempts. */
  predicate Restarts(events: seq<Event>, e: Event) {
    || e.ConnectTo? || e.ReconnectLast? || e.SessionReady?
    || e.EndPressed? || e.ProcessExited? || e.PairingExpired?
    || (e.ErrorReported? && !EndedBy(events))
  }

  function Dials(log: seq<Effect>): seq<nat> {
    if log == [] then []
    else Dials(log[..|log| - 1]) + if log[|log| - 1].Dialled? then [log[|log| - 1].seconds] else []
  }

  /** The delays after which timers have connected since the last event that ends a row of
      attempts. */
  function SinceRestart(events: seq<Event>): seq<nat> {
    if events == [] then []
    else
      var front, e := events[..|events| - 1], events[|events| - 1];
      if Restarts(front, e) then [] else SinceRestart(front) + Dials(NewEffects(front, e))
  }

  /** What the controller does on this event. */
  function NewEffects(events: seq<Event>, e: Event): seq<Effect> {
    var before, after := Run(events).log, Run(events + [e]).log;
    if |before| <= |after| then after[|before|..] else []
  }

  // The controller follows.

  lemma {:induction false} EndedExactly(events: seq<Event>)
    ensures Run(events).ended == EndedBy(events)
  {
    hide DELAYS;
    if events != [] { EndedExactly(events[..|events| - 1]); }
  }

  lemma StepStored(s: State, e: Event)
    ensures Step(s, e).lastPairing ==
            match e
            case Restored(pairing) => Some(pairing)
            case DialSucceeded(pairing, save) => if save then Some(pairing) else s.lastPairing
            case PairingExpired => None
            case _ => s.lastPairing
  {
    hide DELAYS;
  }

  lemma {:induction false} StoredExactly(events: seq<Event>)
    ensures Run(events).lastPairing == LastStored(events)
  {
    hide Step;
    if events != [] {
      StoredExactly(events[..|events| - 1]);
      StepStored(Run(events[..|events| - 1]), events[|events| - 1]);
    }
  }

  lemma StepPairing(s: State, e: Event)
    ensures Step(s, e).pairing ==
            match e
            case ConnectTo(pairing) => Some(pairing)
            case ReconnectLast => if s.lastPairing.Some? then s.lastPairing else s.pairing
            case HistoryOpened(session) => if s.lastPairing == Some(session) then Some(session) else None
            case _ => s.pairing
  {
    hide DELAYS;
  }

  lemma {:induction false} ShownExactly(events: seq<Event>)
    ensures Run(events).pairing == Shown(events)
  {
    hide Step, LastStored;
    if events != [] {
      var front := events[..|events| - 1];
      StoredExactly(front);
      ShownExactly(front);
      StepPairing(Run(front), events[|events| - 1]);
    }
  }

  lemma StepStatus(s: State, e: Event)
    ensures Step(s, e).status ==
            match e
            case ConnectTo(_) => Connecting
            case ReconnectLast => if s.lastPairing.Some? then Connecting else s.status
            case DialFailed => Error
            case HistoryOpened(session) => if s.lastPairing == Some(session) then Disconnected else Ended
            case EndClosed => Ended
            case RelayConnecting => Connecting
            case SessionReady => Ready
            case SocketLost => if s.ended then Ended else Disconnected
            case Progressed => Ready
            case ProcessExited => Ended
            case PairingExpired => Error
            case ErrorReported => if s.ended then s.status else Error
            case SendFailed => Error
            case TimerDue(id) => if id in s.running && s.status == Disconnected then Connecting else s.status
            case AutoDialFailed => Disconnected
            case _ => s.status
  {
    hide DELAYS;
  }

  lemma {:induction false} StatusExactly(events: seq<Event>)
    ensures Run(events).status == StatusBy(events)
  {
    hide Step, EndedBy, LastStored, Shown;
    if events != [] {
      var front := events[..|events| - 1];
      EndedExactly(front);
      StoredExactly(front);
      StatusExactly(front);
      StepStatus(Run(front), events[|events| - 1]);
    }
  }

  /** What the fields say, the events say too. */
  lemma FieldsExactly(events: seq<Event>)
    ensures var s := Run(events);
            && s.ended == EndedBy(events) && s.lastPairing == LastStored(events) && s.pairing == Shown(events)
            && s.status == StatusBy(events)
  {
    EndedExactly(events);
    StoredExactly(events);
    ShownExactly(events);
    StatusExactly(events);
  }

  lemma StepDials(s: State, e: Event)
    ensures var r := Step(s, e);
            && s.log <= r.log
            && Dials(r.log[|s.log|..]) == if e.TimerDue? && e.id in s.running && s.status == Disconnected
                                          then [s.running[e.id].seconds] else []
  {
    hide DELAYS;
    var added := Step(s, e).log[|s.log|..];
    assert |added| <= 1;
    if |added| == 1 { assert added[..0] == []; }
  }

  lemma StepAttempts(s: State, e: Event, events: seq<Event>)
    requires s == Run(events)
    ensures Step(s, e).attempt ==
            if Restarts(events, e) then 0
            else if e.TimerDue? && e.id in s.running && s.status == Disconnected then s.attempt + 1 else s.attempt
    ensures Restarts(events, e) ==> Step(s, e).timer.None?
  {
    FieldsExactly(events);
    hide DELAYS, Run;
  }

  lemma EventDials(events: seq<Event>, e: Event)
    ensures var s := Run(events);
            var due := e.TimerDue? && e.id in s.running && s.status == Disconnected;
            && Dials(NewEffects(events, e)) == (if due then [s.running[e.id].seconds] else [])
            && Run(events + [e]).attempt
               == (if Restarts(events, e) then 0 else if due then s.attempt + 1 else s.attempt)
  {
    hide Step, Restarts, Dials;
    RunMore(events, e);
    StepDials(Run(events), e);
    StepAttempts(Run(events), e, events);
  }

  function FirstDelays(k: nat): seq<nat>
    requires k <= 4
  {
    [1, 2, 4, 8][..k]
  }

  lemma FirstMore(k: nat)
    ensures FirstDelays(0) == []
    ensures k < 4 ==> FirstDelays(k + 1) == FirstDelays(k) + [[1, 2, 4, 8][k]]
  {
  }

  /** The delays dialled are the first of the prescribed ones, as many as the attempts
      counted. */
  lemma {:induction false} DialsCounted(events: seq<Event>)
    ensures Run(events).attempt <= 4 && SinceRestart(events) == FirstDelays(Run(events).attempt)
  {
    hide Run, NewEffects, Step, Restarts, Dials, DelaysDialled, Counted, Inv, FirstDelays, SinceRestart;
    SinceStep(events);
    if events == [] {
      NoEvents();
      FirstMore(0);
    } else {
      var front, e := events[..|events| - 1], events[|events| - 1];
      assert front + [e] == events;
      DialsCounted(front);
      RunInv(front);
      if e.TimerDue? && e.id in Timers(front) { DialSeconds(Run(front), e.id); }
      EventDials(front, e);
      FirstMore(Run(front).attempt);
    }
  }

  lemma SinceStep(events: seq<Event>)
    ensures SinceRestart(events) ==
            if events == [] then []
            else
              var front, e := events[..|events| - 1], events[|events| - 1];
              if Restarts(front, e) then [] else SinceRestart(front) + Dials(NewEffects(front, e))
  {
  }

  lemma RunInv(events: seq<Event>)
    ensures Inv(Run(events))
  {
    RunKeeps(events);
  }

  lemma DialSeconds(s: State, id: nat)
    requires Inv(s) && id in s.running
    ensures s.attempt < 4 && s.running[id].seconds == [1, 2, 4, 8][s.attempt]
  {
    hide DelaysDialled;
  }

  /** In every order of events, between two that end a row of attempts, timers connect after
      one, two, four and eight seconds, in this order and no oftener. */
  lemma DelaysExactly(events: seq<Event>)
    ensures SinceRestart(events) <= [1, 2, 4, 8]
  {
    DialsCounted(events);
  }

  /** What a lost connection, or a timer's connect that fails, leads to: nothing in a session
      that was ended, or with nowhere to connect to, or while a timer runs; giving up after
      four connects; else one timer, with the next delay, for the pairing on show or the one
      last stored. */
  lemma LossExactly(events: seq<Event>, loss: Event)
    requires loss.SocketLost? || loss.AutoDialFailed?
    ensures var n, before, after := |SinceRestart(events)|, Timers(events), Timers(events + [loss]);
            && n <= 4
            && if EndedBy(events) || Aim(events).None? || before != map[] then after == before
               else if n == 4 then after == map[] && NewEffects(events, loss) == [GaveUp]
               else exists id :: after == map[id := Timer([1, 2, 4, 8][n], Aim(events).value)]
    ensures EndedBy(events) ==> Timers(events) == map[]
    ensures |Timers(events)| <= 1
  {
    DialsCounted(events);
    FieldsExactly(events);
    RunKeeps(events);
    RunMore(events, loss);
    var s := Run(events);
    hide Run, DelaysDialled, Counted, SinceRestart, EndedBy, Shown, LastStored;
    NoTimer(s);
    if !s.ended && Aim(events).Some? && s.running == map[] {
      assert Step(s, loss) == Schedule(s.(status := Disconnected));
      Scheduled(s.(status := Disconnected));
    }
  }

  lemma NoTimer(s: State)
    requires Inv(s)
    ensures s.running == map[] <==> s.timer.None?
  {
    hide DelaysDialled;
    if s.timer.Some? { assert s.timer.value in s.running; } else { assert s.running.Keys == {}; }
  }

  lemma Scheduled(s: State)
    requires s.status == Disconnected && !s.ended && Target(s).Some? && s.timer.None? && s.running == map[]
    requires s.attempt <= 4
    ensures var r := Schedule(s);
            if s.attempt == 4 then r == s.(log := s.log + [GaveUp])
            else r.running == map[s.started := Timer([1, 2, 4, 8][s.attempt], Target(s).value)]
  {
  }

  /** When a timer goes off it connects exactly if the connection is still lost; either way it
      runs no more. */
  lemma DueExactly(events: seq<Event>, id: nat)
    requires id in Timers(events)
    ensures var after, timer := events + [TimerDue(id)], Timers(events)[id];
            && Timers(after) == map[]
            && NewEffects(events, TimerDue(id)) == (if Lost(events) then [Dialled(timer.seconds, timer.target)] else [])
            && (Lost(events) ==> Run(after).status == Connecting)
            && SinceRestart(after) == SinceRestart(events) + if Lost(events) then [timer.seconds] else []
  {
    FieldsExactly(events);
    RunKeeps(events);
    RunMore(events, TimerDue(id));
    assert (events + [TimerDue(id)])[..|events|] == events;
    StepDials(Run(events), TimerDue(id));
    TimerFires(Run(events), id);
    OnlyTimer(Run(events), id);
    hide DelaysDialled, Counted, Dials, Lost;
    assert Run(events + [TimerDue(id)]) == Fire(Run(events), id);
  }

  lemma OnlyTimer(s: State, id: nat)
    requires Inv(s) && id in s.running
    ensures s.running - {id} == map[]
  {
    hide DelaysDialled;
    assert s.running.Keys == {id};
  }

  /** After an event that ends a row of attempts no timer runs, and unless it also ended the
      session the next loss waits one second, whatever came before. */
  lemma StartsAfresh(events: seq<Event>, e: Event)
    requires Restarts(events, e)
    ensures Timers(events + [e]) == map[]
    ensures !EndedBy(events + [e]) && Aim(events + [e]).Some? ==>
              exists id :: Timers(events + [e] + [SocketLost]) == map[id := Timer(1, Aim(events + [e]).value)]
  {
    var now := events + [e];
    assert now[..|events|] == events;
    RunKeeps(now);
    NoTimer(Run(now));
    RunMore(events, e);
    StepAttempts(Run(events), e, events);
    LossExactly(now, SocketLost);
    assert SinceRestart(now) == [];
  }
}
