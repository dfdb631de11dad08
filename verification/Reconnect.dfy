/** The phone's automatic reconnect: one timer, four attempts, doubling delays. */
module Reconnect {
  import opened Common

  datatype Status = Idle | Pairing | Connecting | Ready | Disconnected | Ended | Error

  const MAX_ATTEMPTS := 4
  const DELAYS: seq<nat> := [1, 2, 4, 8]

  /** What the reconnect logic did, for the claims about whole runs. */
  datatype Effect =
    | WasReset
    | Armed(seconds: nat)
    | Dialled(seconds: nat, target: string)
    | GaveUp

  /** A started timer: when it goes off it connects to this pairing. */
  datatype Timer = Timer(seconds: nat, target: string)

  /** The controller's fields, and the timers the event loop still holds: started, neither
      cancelled nor gone off. Pairings are represented by their session ids. */
  datatype State = State(
    status: Status,
    pairing: Option<string>,
    lastPairing: Option<string>,
    ended: bool,
    attempt: nat,
    timer: Option<nat>,
    running: map<nat, Timer>,
    started: nat,
    log: seq<Effect>)

  const INITIAL := State(Idle, None, None, false, 0, None, map[], 0, [])

  datatype Event =
    | ConnectTo(pairing: string)              // connectFromPairing, up to its await
    | ReconnectLast                           // reconnectLastPairing, up to its await
    | DialSucceeded(pairing: string, save: bool)
    | DialFailed                              // either of the two, after its await
    | Restored(pairing: string)               // the saved pairing has been read
    | HistoryOpened(session: string)
    | EndPressed                              // end, up to its await
    | EndClosed                               // end, after its await
    | RelayConnecting
    | SessionReady                            // session_ready or session_started
    | SocketLost                              // disconnect
    | Progressed                              // an event that shows the session as ready
    | ProcessExited
    | PairingExpired
    | ErrorReported
    | SendFailed
    | TimerDue(id: nat)
    | AutoDialFailed                          // the timer's connect, after its await

  // The two helpers.

  function Reset(s: State): State {
    s.(running := if s.timer.Some? then s.running - {s.timer.value} else s.running,
       timer := None, attempt := 0, log := s.log + [WasReset])
  }

  function Target(s: State): Option<string> {
    if s.pairing.Some? then s.pairing else s.lastPairing
  }

  function Schedule(s: State): State {
    if s.ended || Target(s).None? || s.status != Disconnected || s.timer.Some? then s
    else if s.attempt >= MAX_ATTEMPTS then s.(log := s.log + [GaveUp])
    else
      s.(timer := Some(s.started), started := s.started + 1,
         running := s.running[s.started := Timer(DELAYS[s.attempt], Target(s).value)],
         log := s.log + [Armed(DELAYS[s.attempt])])
  }

  /** The timer's callback, up to its await. */
  function Fire(s: State, id: nat): State
    requires id in s.running
  {
    var timer := s.running[id];
    var idle := s.(timer := None, running := s.running - {id});
    if s.status != Disconnected then idle
    else idle.(attempt := s.attempt + 1, status := Connecting,
               log := s.log + [Dialled(timer.seconds, timer.target)])
  }

  function Step(s: State, event: Event): State {
    match event
    case ConnectTo(pairing) => Reset(s.(ended := false)).(pairing := Some(pairing), status := Connecting)
    case ReconnectLast =>
      var anew := Reset(s.(ended := false));
      if s.lastPairing.None? then anew else anew.(pairing := s.lastPairing, status := Connecting)
    case DialSucceeded(pairing, save) => if save then s.(lastPairing := Some(pairing)) else s
    case DialFailed => s.(status := Error)
    case Restored(pairing) => s.(lastPairing := Some(pairing))
    case HistoryOpened(session) =>
      if s.lastPairing == Some(session) then s.(pairing := s.lastPairing, status := Disconnected)
      else s.(pairing := None, status := Ended)
    case EndPressed => Reset(s.(ended := true))
    case EndClosed => s.(status := Ended)
    case RelayConnecting => s.(status := Connecting)
    case SessionReady => Reset(s.(ended := false)).(status := Ready)
    case SocketLost => if s.ended then s.(status := Ended) else Schedule(s.(status := Disconnected))
    case Progressed => s.(status := Ready)
    case ProcessExited => Reset(s.(ended := true)).(status := Ended)
    case PairingExpired => Reset(s.(ended := false)).(lastPairing := None, status := Error)
    case ErrorReported => if s.ended then s else Reset(s).(status := Error)
    case SendFailed => s.(status := Error)
    case TimerDue(id) => if id in s.running then Fire(s, id) else s
    case AutoDialFailed => Schedule(s.(status := Disconnected))
  }

  function Run(events: seq<Event>): State {
    if events == [] then INITIAL else Step(Run(events[..|events| - 1]), events[|events| - 1])
  }

  // What holds in every event order.

  /** The delays of the connects made by timers since the last reset. */
  function DelaysDialled(log: seq<Effect>): seq<nat> {
    if log == [] then [] else Counted(DelaysDialled(log[..|log| - 1]), log[|log| - 1])
  }

  function Counted(delays: seq<nat>, effect: Effect): seq<nat> {
    match effect
    case WasReset => []
    case Dialled(seconds, _) => delays + [seconds]
    case _ => delays
  }

  /** The timer the controller knows is the only one running; there is none once the
      session is ended; and the connects since the last reset are as many as the attempts
      counted, with the prescribed delays. */
  ghost predicate Inv(s: State) {
    && s.running.Keys == (if s.timer.Some? then {s.timer.value} else {})
    && (s.timer.Some? ==> s.timer.value < s.started && !s.ended)
    && s.attempt <= MAX_ATTEMPTS
    && (s.timer.Some? ==> s.attempt < MAX_ATTEMPTS && s.running[s.timer.value].seconds == DELAYS[s.attempt])
    && DelaysDialled(s.log) == DELAYS[..s.attempt]
  }

  lemma LogAppend(log: seq<Effect>, effect: Effect)
    ensures DelaysDialled(log + [effect]) == Counted(DelaysDialled(log), effect)
  {
    assert (log + [effect])[..|log|] == log;
  }

  lemma ResetKeeps(s: State)
    requires s.running.Keys == (if s.timer.Some? then {s.timer.value} else {})
    ensures Inv(Reset(s)) && Reset(s).timer.None? && Reset(s).attempt == 0
  {
    LogAppend(s.log, WasReset);
  }

  lemma ScheduleKeeps(s: State)
    requires Inv(s)
    ensures Inv(Schedule(s))
  {
    LogAppend(s.log, GaveUp);
    if s.attempt < MAX_ATTEMPTS { LogAppend(s.log, Armed(DELAYS[s.attempt])); }
  }

  lemma FireKeeps(s: State, id: nat)
    requires Inv(s) && id in s.running
    ensures Inv(Fire(s, id))
  {
    var timer := s.running[id];
    assert s.timer == Some(id);
    LogAppend(s.log, Dialled(timer.seconds, timer.target));
    hide DELAYS;
    assert DELAYS[..s.attempt + 1] == DELAYS[..s.attempt] + [DELAYS[s.attempt]];
  }

  lemma StepKeeps(s: State, event: Event)
    requires Inv(s)
    ensures Inv(Step(s, event))
  {
    hide Fire, Schedule, DelaysDialled, Counted, DELAYS;
    match event
    case TimerDue(id) => if id in s.running { FireKeeps(s, id); }
    case SocketLost => ScheduleKeeps(s.(status := Disconnected));
    case AutoDialFailed => ScheduleKeeps(s.(status := Disconnected));
    case EndPressed => ResetKeeps(s.(ended := true));
    case ProcessExited => ResetKeeps(s.(ended := true));
    case ErrorReported => ResetKeeps(s);
    case _ => ResetKeeps(s.(ended := false));
  }

  /** In every order of events: at most one timer, none while ended, and between resets
      at most four connects after one, two, four and eight seconds. */
  lemma {:induction false} RunKeeps(events: seq<Event>)
    ensures var s := Run(events);
            && Inv(s) && |s.running| <= 1 && (s.ended ==> s.running == map[])
            && |DelaysDialled(s.log)| <= 4 && DelaysDialled(s.log) <= [1, 2, 4, 8]
  {
    if events != [] {
      RunKeeps(events[..|events| - 1]);
      StepKeeps(Run(events[..|events| - 1]), events[|events| - 1]);
    }
    var s := Run(events);
    if s.timer.Some? {
      assert |s.running.Keys| == 1;
    } else {
      assert |s.running.Keys| == 0;
      assert s.running == map[];
    }
  }

  // Repeated failure.

  /** How a connect is seen to fail: it throws, or its socket reports an error or its end.
      A socket often reports both. */
  datatype Loss = Thrown | SocketGone

  function LossEvent(loss: Loss): Event {
    if loss.Thrown? then AutoDialFailed else SocketLost
  }

  function Lose(s: State, losses: seq<Loss>): State {
    if losses == [] then s else Step(Lose(s, losses[..|losses| - 1]), LossEvent(losses[|losses| - 1]))
  }

  /** One failed attempt: the timer goes off, the relay service may still announce that it
      is connecting, and then the failure is reported, once or several times. */
  datatype Attempt = Attempt(announced: bool, losses: seq<Loss>)

  function Round(s: State, attempt: Attempt): State
    requires s.timer.Some?
  {
    var fired := Step(s, TimerDue(s.timer.value));
    Lose(if attempt.announced then Step(fired, RelayConnecting) else fired, attempt.losses)
  }

  /** These attempts in turn, as long as there is a timer to start them. */
  function Fail(s: State, attempts: seq<Attempt>): State {
    if attempts == [] then s
    else
      var before := Fail(s, attempts[..|attempts| - 1]);
      if before.timer.None? then before else Round(before, attempts[|attempts| - 1])
  }

  ghost predicate AllFail(attempts: seq<Attempt>) {
    forall a :: a in attempts ==> a.losses != []
  }

  /** After so many failed attempts: the next timer runs, or the controller has given up
      and no timer runs. */
  ghost predicate FailedTimes(s: State, rounds: nat, target: string) {
    && Inv(s) && s.attempt == rounds && s.status == Disconnected && !s.ended && Target(s) == Some(target)
    && if rounds < MAX_ATTEMPTS then s.timer.Some?
       else s.timer.None? && s.running.Keys == {} && s.log != [] && s.log[|s.log| - 1] == GaveUp
  }

  /** Everything but the status and the timer is as in FailedTimes. */
  ghost predicate Failing(s: State, rounds: nat, target: string) {
    && Inv(s) && s.attempt == rounds <= MAX_ATTEMPTS && !s.ended && Target(s) == Some(target)
    && (rounds == MAX_ATTEMPTS ==> s.timer.None?)
  }

  /** The first report of a failure starts the next timer or gives up; more reports of the
      same failure change nothing but the give-up notes. */
  lemma LossFails(s: State, loss: Loss, rounds: nat, target: string)
    requires Failing(s, rounds, target)
    ensures FailedTimes(Step(s, LossEvent(loss)), rounds, target)
  {
    hide DelaysDialled, Counted, DELAYS;
    var lost := s.(status := Disconnected);
    assert Step(s, LossEvent(loss)) == Schedule(lost);
    ScheduleKeeps(lost);
  }

  lemma FailedStillFailing(s: State, rounds: nat, target: string)
    requires FailedTimes(s, rounds, target)
    ensures Failing(s, rounds, target)
  {
  }

  lemma {:induction false} LossesFail(s: State, losses: seq<Loss>, rounds: nat, target: string)
    requires Failing(s, rounds, target) && losses != []
    ensures FailedTimes(Lose(s, losses), rounds, target)
  {
    hide Step, Failing, FailedTimes;
    var front := losses[..|losses| - 1];
    if front != [] {
      LossesFail(s, front, rounds, target);
      FailedStillFailing(Lose(s, front), rounds, target);
    }
    LossFails(Lose(s, front), losses[|losses| - 1], rounds, target);
  }

  lemma FiredFailing(s: State, announced: bool, rounds: nat, target: string)
    requires FailedTimes(s, rounds, target) && rounds < MAX_ATTEMPTS
    ensures var fired := Step(s, TimerDue(s.timer.value));
            Failing(if announced then Step(fired, RelayConnecting) else fired, rounds + 1, target)
  {
    hide DelaysDialled, Counted, DELAYS;
    FireKeeps(s, s.timer.value);
    TimerFires(s, s.timer.value);
  }

  lemma RoundFails(s: State, attempt: Attempt, rounds: nat, target: string)
    requires FailedTimes(s, rounds, target) && rounds < MAX_ATTEMPTS && attempt.losses != []
    ensures s.timer.Some? && FailedTimes(Round(s, attempt), rounds + 1, target)
  {
    FiredFailing(s, attempt.announced, rounds, target);
    hide Step, Failing, Lose;
    var fired := Step(s, TimerDue(s.timer.value));
    LossesFail(if attempt.announced then Step(fired, RelayConnecting) else fired, attempt.losses, rounds + 1, target);
  }

  /** Repeated failure after a lost connection, for every mix of connects that throw and
      sockets that fail once or more: connects after 1, 2, 4 and 8 seconds, then the give-up
      state, in which further reports start no timer. */
  lemma {:induction false} FailuresEnd(s: State, first: seq<Loss>, attempts: seq<Attempt>)
    requires Inv(s) && !s.ended && Target(s).Some? && s.attempt == 0 && s.timer.None?
    requires first != [] && AllFail(attempts) && |attempts| <= MAX_ATTEMPTS
    ensures var t := Fail(Lose(s, first), attempts);
            && FailedTimes(t, |attempts|, Target(s).value)
            && DelaysDialled(t.log) == DELAYS[..|attempts|]
    ensures forall more: seq<Loss> :: more != [] && |attempts| == MAX_ATTEMPTS ==>
              FailedTimes(Lose(Fail(Lose(s, first), attempts), more), MAX_ATTEMPTS, Target(s).value)
  {
    hide Step, Inv, Schedule, DelaysDialled;
    var target := Target(s).value;
    if attempts == [] {
      LossesFail(s, first, 0, target);
    } else {
      var front := attempts[..|attempts| - 1];
      FailuresEnd(s, first, front);
      assert attempts[|attempts| - 1] in attempts;
      RoundFails(Fail(Lose(s, first), front), attempts[|attempts| - 1], |front|, target);
    }
    var t := Fail(Lose(s, first), attempts);
    DelaysSoFar(t);
    forall more: seq<Loss> | more != [] && |attempts| == MAX_ATTEMPTS
      ensures FailedTimes(Lose(t, more), MAX_ATTEMPTS, target)
    {
      LossesFail(t, more, MAX_ATTEMPTS, target);
    }
  }

  lemma DelaysSoFar(s: State)
    requires Inv(s)
    ensures s.attempt <= MAX_ATTEMPTS && DelaysDialled(s.log) == DELAYS[..s.attempt]
  {
  }

  // Where a pending timer will connect to.

  /** The pending timer, if any, will connect to the pairing the controller now shows. */
  ghost predicate Aimed(s: State)
    requires Inv(s)
  {
    s.timer.Some? ==> Target(s) == Some(s.running[s.timer.value].target)
  }

  /** What an event must satisfy to leave a timer for `target` aimed. */
  predicate KeepsAim(s: State, event: Event, target: string) {
    match event
    case HistoryOpened(_) => s.lastPairing == Some(target)
    case Restored(pairing) => s.pairing.Some? || pairing == target
    case DialSucceeded(pairing, save) => save ==> s.pairing.Some? || pairing == target
    case _ => true
  }

  /** Timers are not restarted when the shown pairing changes, so a pending one stays aimed
      just as long as history is only opened while the last pairing is its target, and
      pairings are only restored or saved while one is shown or for its target. */
  lemma AimExactly(s: State, event: Event)
    requires Inv(s) && Aimed(s) && s.timer.Some?
    ensures Inv(Step(s, event))
    ensures Aimed(Step(s, event)) <==> KeepsAim(s, event, s.running[s.timer.value].target)
  {
    StepKeeps(s, event);
    hide DelaysDialled, Counted, DELAYS;
  }

  /** A run in which the timer connects to one session while another is shown: a connect
      that is not saved as the last pairing has returned, its socket is lost, and the last
      pairing's history is opened before the timer goes off. */
  lemma TimerConnectsElsewhere(one: string, two: string)
    requires one != two
    ensures var s := Run([Restored(two), ConnectTo(one), DialSucceeded(one, false), SocketLost,
                          HistoryOpened(two), TimerDue(0)]);
            s.pairing == Some(two) && s.status == Connecting && Dialled(1, one) in s.log
  {
    var s1 := Step(Step(Step(INITIAL, Restored(two)), ConnectTo(one)), DialSucceeded(one, false));
    assert s1 == INITIAL.(pairing := Some(one), lastPairing := Some(two), status := Connecting, log := [WasReset]);
    var s2 := Step(s1, SocketLost);
    assert s2.timer == Some(0) && s2.running == map[0 := Timer(1, one)] && s2.status == Disconnected;
    var s3 := Step(s2, HistoryOpened(two));
    assert 0 in s3.running && s3.running[0] == Timer(1, one) && s3.status == Disconnected;
    hide Step, Run;
    RunSix(Restored(two), ConnectTo(one), DialSucceeded(one, false), SocketLost, HistoryOpened(two), TimerDue(0));
    assert Step(s3, TimerDue(0)) == Fire(s3, 0) by { TimerFires(s3, 0); }
  }

  lemma TimerFires(s: State, id: nat)
    requires id in s.running
    ensures Step(s, TimerDue(id)) == Fire(s, id)
  {
  }

  lemma RunSix(a: Event, b: Event, c: Event, d: Event, e: Event, f: Event)
    ensures Run([a, b, c, d, e, f]) == Step(Step(Step(Step(Step(Step(INITIAL, a), b), c), d), e), f)
  {
    hide Step;
    var e1 := [] + [a];
    var e2 := e1 + [b];
    var e3 := e2 + [c];
    var e4 := e3 + [d];
    var e5 := e4 + [e];
    RunMore([], a);
    RunMore(e1, b);
    RunMore(e2, c);
    RunMore(e3, d);
    RunMore(e4, e);
    RunMore(e5, f);
    hide Run;
    assert e5 + [f] == [a, b, c, d, e, f];
    assert Run([]) == INITIAL by { NoEvents(); }
  }

  lemma NoEvents()
    ensures Run([]) == INITIAL
  {
  }

  lemma RunMore(events: seq<Event>, event: Event)
    ensures Run(events + [event]) == Step(Run(events), event)
  {
    assert (events + [event])[..|events|] == events;
  }
}
