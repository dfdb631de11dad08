/** The reconnect fields of the phone's session controller, updated event by event. */
module SessionControllerObject {
  import opened Common
  import opened Reconnect

  class SessionController {
    var status: Status
    var pairing: Option<string>
    var lastPairing: Option<string>
    var endedByUser: bool
    var attempt: nat
    var timer: Option<nat>
    /** The event loop's side: timers started and neither cancelled nor gone off. */
    var running: map<nat, Timer>
    var started: nat
    ghost var log: seq<Effect>

    ghost function Abstract(): State reads this {
      State(status, pairing, lastPairing, endedByUser, attempt, timer, running, started, log)
    }

    constructor ()
      ensures Abstract() == INITIAL && Inv(Abstract())
    {
      status, pairing, lastPairing, endedByUser, attempt := Idle, None, None, false, 0;
      timer, running, started, log := None, map[], 0, [];
      new;
      RunKeeps([]);
    }

    method ResetAutoReconnect()
      modifies this
      ensures Abstract() == Reset(old(Abstract()))
    {
      if timer.Some? { running := running - {timer.value}; }
      timer := None;
      attempt := 0;
      log := log + [WasReset];
    }

    method ScheduleAutoReconnect()
      modifies this
      ensures Abstract() == Schedule(old(Abstract()))
    {
      if endedByUser { return; }
      var target := if pairing.Some? then pairing else lastPairing;
      if target.None? { return; }
      if status != Disconnected { return; }
      if timer.Some? { return; }
      if attempt >= 4 {
        log := log + [GaveUp];
        return;
      }
      var seconds := DELAYS[attempt];
      running := running[started := Timer(seconds, target.value)];
      timer := Some(started);
      started := started + 1;
      log := log + [Armed(seconds)];
    }

    method OnTimer(id: nat)
      requires id in running
      modifies this
      ensures Abstract() == Fire(old(Abstract()), id)
    {
      var due := running[id];
      running := running - {id};
      timer := None;
      if status != Disconnected { return; }
      attempt := attempt + 1;
      status := Connecting;
      log := log + [Dialled(due.seconds, due.target)];
    }

    /** Every event takes exactly its step and keeps the invariant. */
    method Deliver(event: Event)
      requires Inv(Abstract())
      modifies this
      ensures Abstract() == Step(old(Abstract()), event) && Inv(Abstract())
    {
      hide Inv, Fire, Schedule;
      StepKeeps(Abstract(), event);
      match event {
        case ConnectTo(target) =>
          endedByUser := false;
          ResetAutoReconnect();
          pairing, status := Some(target), Connecting;
        case ReconnectLast =>
          endedByUser := false;
          ResetAutoReconnect();
          if lastPairing.Some? { pairing, status := lastPairing, Connecting; }
        case DialSucceeded(target, save) =>
          if save { lastPairing := Some(target); }
        case DialFailed => status := Error;
        case Restored(target) => lastPairing := Some(target);
        case HistoryOpened(session) =>
          var canReconnectToThis := lastPairing == Some(session);
          pairing := if canReconnectToThis then lastPairing else None;
          status := if canReconnectToThis then Disconnected else Ended;
        case EndPressed =>
          endedByUser := true;
          ResetAutoReconnect();
        case EndClosed => status := Ended;
        case RelayConnecting => status := Connecting;
        case SessionReady =>
          endedByUser := false;
          ResetAutoReconnect();
          status := Ready;
        case SocketLost =>
          if endedByUser {
            status := Ended;
          } else {
            status := Disconnected;
            ScheduleAutoReconnect();
          }
        case Progressed => status := Ready;
        case ProcessExited =>
          endedByUser := true;
          ResetAutoReconnect();
          status := Ended;
        case PairingExpired =>
          endedByUser := false;
          ResetAutoReconnect();
          lastPairing := None;
          status := Error;
        case ErrorReported =>
          if !endedByUser {
            ResetAutoReconnect();
            status := Error;
          }
        case SendFailed => status := Error;
        case TimerDue(id) =>
          if id in running { OnTimer(id); }
        case AutoDialFailed =>
          status := Disconnected;
          ScheduleAutoReconnect();
      }
    }
  }
}
