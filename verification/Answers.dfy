/** What the daemon answers: which frames each hello, command and local event puts on its
    outbound queue, and which commands it executes. */
module Answers {
  import opened Common
  import opened E2ee
  import opened Wire
  import opened Sender
  import opened Daemon
  import Network
  import Registry

  // Frames for the peer.

  /** `line` is what was queued in `s`, and then one frame for the peer for each of these
      events, under the next numbers. */
  ghost predicate Carries(s: Sender.State, line: seq<WireMessage>, evs: seq<Event>) {
    && s.peer.Some? && |line| == |s.outbound| + |evs| && s.outbound <= line
    && forall i :: 0 <= i < |evs| ==>
         Delivers(Agree(s.own, s.peer.value.key), line[|s.outbound| + i],
                  PlainMessage(evs[i].typ, s.sid, s.num + i + 1, evs[i].data))
  }

  /** Between `s` and `r` exactly these events were sent to the peer. */
  ghost predicate Answered(s: Sender.State, r: Sender.State, evs: seq<Event>) {
    r.num == s.num + |evs| && Carries(s, r.outbound, evs)
  }

  /** The next `k` seals succeed. */
  ghost predicate SealsWork(tape: Tape, s: Sender.State, k: nat) {
    forall n: nat :: s.num < n <= s.num + k ==> tape(n).Some?
  }

  /** They also find room in the queue. */
  ghost predicate CanAnswer(tape: Tape, s: Sender.State, k: nat) {
    SealsWork(tape, s, k) && |s.outbound| + k <= 256
  }

  lemma SendQueues(tape: Tape, s: Sender.State, ev: Event, buffered: bool)
    requires s.peer.Some? && CanAnswer(tape, s, 1)
    ensures var r := Send(tape, s, ev, buffered);
            && |r.outbound| == |s.outbound| + 1 && r.outbound == s.outbound + [r.outbound[|s.outbound|]]
            && Delivers(Agree(s.own, s.peer.value.key), r.outbound[|s.outbound|],
                        PlainMessage(ev.typ, s.sid, s.num + 1, ev.data))
            && r.num == s.num + 1 && r.peer == s.peer && r.own == s.own && r.sid == s.sid
  {
    hide Delivers, SealedFrame, Agree;
    SealedDelivers(s, s.peer.value.key, tape(s.num + 1).value, PlainMessage(ev.typ, s.sid, s.num + 1, ev.data));
  }

  lemma SendAnswers(tape: Tape, s: Sender.State, ev: Event, buffered: bool)
    requires s.peer.Some? && CanAnswer(tape, s, 1)
    ensures Answered(s, Send(tape, s, ev, buffered), [ev])
  {
    hide Delivers, Agree, Send, CanAnswer;
    SendQueues(tape, s, ev, buffered);
  }

  lemma CarriesFrames(s: Sender.State, frames: seq<WireMessage>, evs: seq<Event>)
    requires s.peer.Some? && |frames| == |evs|
    requires forall i :: 0 <= i < |evs| ==>
               Delivers(Agree(s.own, s.peer.value.key), frames[i],
                        PlainMessage(evs[i].typ, s.sid, s.num + i + 1, evs[i].data))
    ensures Carries(s, s.outbound + frames, evs)
  {
    hide Delivers, Agree;
    BehindPrefix(s.outbound, frames);
  }

  lemma BehindPrefix<T>(a: seq<T>, b: seq<T>)
    ensures |a + b| == |a| + |b| && a <= a + b
    ensures forall i :: 0 <= i < |b| ==> (a + b)[|a| + i] == b[i]
  {
  }

  lemma SendAllAnswers(tape: Tape, s: Sender.State, evs: seq<Event>)
    requires s.peer.Some? && CanAnswer(tape, s, |evs|)
    ensures Answered(s, SendAll(tape, s, evs), evs)
  {
    hide Delivers, FlushedFrames, Agree, SendAll, Carries;
    SendAllQueuesInOrder(tape, s, evs);
    FlushedFramesDeliver(tape, s, evs);
    CarriesFrames(s, FlushedFrames(tape, s, evs), evs);
  }

  // Local events.

  /** While nobody is paired, events wait; from then on none do. */
  lemma NextUnbuffers(tape: Tape, d: Daemon.State, step: Step)
    requires d.sender.peer.Some? ==> d.sender.buffer == []
    ensures Next(tape, d, step).sender.peer.Some? ==> Next(tape, d, step).sender.buffer == []
  {
    hide SendAll, ParsePublicKey, Replies, Registry.Apply, Registry.IsAuthorized, Hello, Command;
    match step
    case Frame(msg, w) =>
      HelloPairsExactly(tape, d, msg, w);
      CommandKeepsBuffer(tape, d, msg, w);
    case _ =>
  }

  lemma CommandKeepsBuffer(tape: Tape, d: Daemon.State, msg: WireMessage, w: World)
    requires d.sender.peer.Some? ==> d.sender.buffer == []
    ensures Command(tape, d, msg, w).sender.buffer == d.sender.buffer
            && Command(tape, d, msg, w).sender.peer == d.sender.peer
            && Command(tape, d, msg, w).registry == d.registry
  {
    hide SendAll, Replies, Registry.IsAuthorized, Open, Seal;
    if GateOpen(d) && AsEnvelope(msg.payload).Some? {
      var (after, plain) := Receive(d.sender, AsEnvelope(msg.payload).value);
      if plain.Ok? && Replies(plain.value.typ, w).Ok? {
        SendAllExtends(tape, after, Replies(plain.value.typ, w).value);
      }
    }
  }

  /** In every run of the daemon no event waits while a phone is paired. */
  lemma {:induction false} NothingWaitsOncePaired(tape: Tape, sid: string, own: KeyPair, file: Registry.File,
                                                  expires: int, steps: seq<Step>)
    ensures var r := Run(tape, Daemon.State(Fresh(sid, own), file, expires, []), steps);
            r.sender.peer.Some? ==> r.sender.buffer == []
  {
    hide Next;
    if steps != [] {
      var front := steps[..|steps| - 1];
      NothingWaitsOncePaired(tape, sid, own, file, expires, front);
      NextUnbuffers(tape, Run(tape, Daemon.State(Fresh(sid, own), file, expires, []), front), steps[|steps| - 1]);
    }
  }

  /** A local event of a paired daemon goes out at once, whether or not it may wait; only a
      failed seal or a full queue loses it, and its number is spent all the same. Without a
      peer nothing goes out. */
  lemma LocalEventExactly(tape: Tape, d: Daemon.State, ev: Event, buffered: bool)
    ensures var s, r := d.sender, Next(tape, d, Local(ev, buffered)).sender;
            && (s.peer.Some? && CanAnswer(tape, s, 1) ==> Answered(s, r, [ev]))
            && (s.peer.Some? && !CanAnswer(tape, s, 1) ==> r.outbound == s.outbound && r.num == s.num + 1)
            && (s.peer.None? ==> r.outbound == s.outbound && r.num == s.num)
            && r.peer == s.peer && r.lastRecv == s.lastRecv
  {
    hide Seal, Answered;
    LocalIsSend(tape, d, ev, buffered);
    if d.sender.peer.Some? && CanAnswer(tape, d.sender, 1) { SendAnswers(tape, d.sender, ev, buffered); }
  }

  /** What leaves the outbound queue over a run. */
  function Left(tape: Tape, d: Daemon.State, steps: seq<Step>): seq<WireMessage> {
    if steps == [] then []
    else
      var front := steps[..|steps| - 1];
      var waiting := Run(tape, d, front).sender.outbound;
      Left(tape, d, front) + if steps[|steps| - 1].Drain? && waiting != [] then [waiting[0]] else []
  }

  function LocalEvents(steps: seq<Step>): seq<Event> {
    if steps == [] then []
    else
      LocalEvents(steps[..|steps| - 1]) + if steps[|steps| - 1].Local? then [steps[|steps| - 1].ev] else []
  }

  /** Local events, drains and revocations only; each event finds room, and can be sealed. */
  ghost predicate Undisturbed(tape: Tape, d: Daemon.State, steps: seq<Step>) {
    steps == []
    || (var front := steps[..|steps| - 1];
        && Undisturbed(tape, d, front) && !steps[|steps| - 1].Frame?
        && (steps[|steps| - 1].Local? ==> CanAnswer(tape, Run(tape, d, front).sender, 1)))
  }

  /** Once paired, local events leave in the order they came, under consecutive numbers,
      behind whatever was queued, each readable by the peer. */
  lemma {:induction false} LocalEventsLeaveInOrder(tape: Tape, d: Daemon.State, steps: seq<Step>)
    requires d.sender.peer.Some? && Undisturbed(tape, d, steps)
    ensures var s, r, evs := d.sender, Run(tape, d, steps).sender, LocalEvents(steps);
            && Carries(s, Left(tape, d, steps) + r.outbound, evs) && r.num == s.num + |evs|
            && r.peer == s.peer && r.own == s.own && r.sid == s.sid
  {
    hide Next, Carries, CanAnswer;
    if steps == [] {
      NothingCarried(d.sender);
      assert [] + d.sender.outbound == d.sender.outbound;
    } else {
      var front, last := steps[..|steps| - 1], steps[|steps| - 1];
      LocalEventsLeaveInOrder(tape, d, front);
      var before, line := Run(tape, d, front), Left(tape, d, front);
      if last.Local? {
        LocalCarried(tape, d.sender, before, line, LocalEvents(front), last.ev, last.bufferUntilPaired);
        assert line + [] == line;
      } else {
        LineKept(tape, before, last, line);
        assert LocalEvents(front) + [] == LocalEvents(front);
      }
    }
  }

  lemma LocalCarried(tape: Tape, s: Sender.State, before: Daemon.State, line: seq<WireMessage>, evs: seq<Event>,
                     ev: Event, buffered: bool)
    requires Carries(s, line + before.sender.outbound, evs) && before.sender.num == s.num + |evs|
    requires before.sender.peer == s.peer && before.sender.own == s.own && before.sender.sid == s.sid
    requires CanAnswer(tape, before.sender, 1)
    ensures var r := Next(tape, before, Local(ev, buffered)).sender;
            && Carries(s, line + r.outbound, evs + [ev]) && r.num == s.num + |evs| + 1
            && r.peer == s.peer && r.own == s.own && r.sid == s.sid
  {
    hide Next, CanAnswer, Delivers, Agree, Send;
    LocalIsSend(tape, before, ev, buffered);
    SendQueues(tape, before.sender, ev, buffered);
    var r := Next(tape, before, Local(ev, buffered)).sender;
    var frame := r.outbound[|before.sender.outbound|];
    OneMoreCarried(s, line + before.sender.outbound, evs, ev, frame);
    assert line + (before.sender.outbound + [frame]) == line + before.sender.outbound + [frame];
  }

  lemma NothingCarried(s: Sender.State)
    requires s.peer.Some?
    ensures Carries(s, s.outbound, [])
  {
  }

  lemma OneMoreCarried(s: Sender.State, line: seq<WireMessage>, evs: seq<Event>, ev: Event, frame: WireMessage)
    requires Carries(s, line, evs)
    requires Delivers(Agree(s.own, s.peer.value.key), frame, PlainMessage(ev.typ, s.sid, s.num + |evs| + 1, ev.data))
    ensures Carries(s, line + [frame], evs + [ev])
  {
    hide Delivers, Agree;
  }

  lemma LocalIsSend(tape: Tape, d: Daemon.State, ev: Event, buffered: bool)
    ensures Next(tape, d, Local(ev, buffered)).sender == Send(tape, d.sender, ev, buffered)
  {
    hide Send;
  }

  lemma LineKept(tape: Tape, d: Daemon.State, step: Step, line: seq<WireMessage>)
    requires step.Drain? || step.RevokeDevice?
    ensures var s, r := d.sender, Next(tape, d, step).sender;
            && r.num == s.num && r.peer == s.peer && r.own == s.own && r.sid == s.sid
            && line + s.outbound
               == (line + (if step.Drain? && s.outbound != [] then [s.outbound[0]] else [])) + r.outbound
  {
    hide Registry.Apply;
    var out := d.sender.outbound;
    if step.Drain? && out != [] {
      assert out == [out[0]] + out[1..] && line + ([out[0]] + out[1..]) == (line + [out[0]]) + out[1..];
    } else {
      assert (line + []) + out == line + out;
    }
  }

  // Hellos.

  lemma ShownIdentity(msg: WireMessage, key: string, deviceId: string, deviceName: string)
    requires Shows(msg, key, deviceId, deviceName)
    ensures HelloIdentity(msg) == (key, deviceId, deviceName)
  {
  }

  /** A hello that is not admitted changes nothing of the sender but the outbound queue, which
      gets exactly the notice it deserves. */
  lemma HelloRefused(tape: Tape, d: Daemon.State, msg: WireMessage, w: World, key: string, id: string, name: string)
    requires Shows(msg, key, id, name) && !Admits(d, key, id, w) && |d.sender.outbound| < 256
    ensures var s, r := d.sender, Next(tape, d, Frame(msg, w)).sender;
            var known := Registry.IsAuthorized(d.registry, id, key);
            && s.outbound <= r.outbound && r == s.(outbound := r.outbound)
            && r.outbound[|s.outbound|..] ==
               if id == "" then [WireMessage("device_identity_required", s.sid, "daemon", "", "", "", NoPayload)]
               else if !known && w.now > d.expires then
                 [WireMessage("pairing_expired", s.sid, "daemon", "", "", "", NoPayload)]
               else if ParsePublicKey(key).None? then []
               else [WireMessage("device_authorization_failed", s.sid, "daemon", "", "", "", NoPayload)]
  {
    ShownIdentity(msg, key, id, name);
    EmptyKeyNeverParses();
    hide ParsePublicKey, Registry.IsAuthorized, Registry.Apply, Pair;
  }

  /** `r` follows `s` by a pairing with this phone: the waiting events, then the daemon's own
      key, then the encrypted session_ready. */
  ghost predicate Welcomed(s: Sender.State, r: Sender.State, phone: PublicKey, id: string, name: string) {
    var line, n, k := r.outbound, |s.outbound|, |s.buffer|;
    && |line| == n + k + 2 && s.outbound <= line && r.num == s.num + k + 1
    && (forall i :: 0 <= i < k ==>
          Delivers(Agree(s.own, phone), line[n + i],
                   PlainMessage(s.buffer[i].typ, s.sid, s.num + i + 1, s.buffer[i].data)))
    && line[n + k] == WireMessage("daemon_ready", s.sid, "daemon", EncodePublicKey(s.own.public), id, "", NoPayload)
    && Delivers(Agree(s.own, phone), line[n + k + 1],
                PlainMessage("session_ready", s.sid, s.num + k + 1, id + " " + name))
  }

  lemma PairWelcomes(tape: Tape, d: Daemon.State, key: string, id: string, name: string, phone: PublicKey)
    requires ParsePublicKey(key) == Some(phone)
    requires SealsWork(tape, d.sender, |d.sender.buffer| + 1)
    requires |d.sender.outbound| + |d.sender.buffer| + 2 <= 256
    ensures Welcomed(d.sender, Pair(tape, d, key, id, name).sender, phone, id, name)
  {
    hide ParsePublicKey, SendAll, Send, Delivers, Agree, EncodePublicKey;
    var s := d.sender;
    var paired := s.(peer := Some(Peer(phone, key, id)), lastRecv := 0, accepted := []);
    var kept := paired.(lastRecv := s.lastRecv, accepted := s.accepted);
    SendAllAnswers(tape, paired, s.buffer);
    SendAllSentOnly(tape, paired, s.buffer);
    SendAllAnswers(tape, kept, s.buffer);
    SendAllSentOnly(tape, kept, s.buffer);
    var flushed := SetPeer(tape, s, key, id).value;
    var ready := Announce(d.(sender := flushed), Ready(d, id)).sender;
    SendQueues(tape, ready, Event("session_ready", id + " " + name), false);
  }

  /** An admitted hello is answered, in this order, with what had been waiting, the daemon's
      public key, and an encrypted session_ready. */
  lemma HelloWelcomed(tape: Tape, d: Daemon.State, msg: WireMessage, w: World, key: string, id: string, name: string)
    requires Shows(msg, key, id, name) && Admits(d, key, id, w)
    requires SealsWork(tape, d.sender, |d.sender.buffer| + 1)
    requires |d.sender.outbound| + |d.sender.buffer| + 2 <= 256
    ensures Welcomed(d.sender, Next(tape, d, Frame(msg, w)).sender, ParsePublicKey(key).value, id, name)
  {
    ShownIdentity(msg, key, id, name);
    EmptyKeyNeverParses();
    hide ParsePublicKey, Registry.IsAuthorized, Registry.Apply, Pair, Welcomed;
    var touch, authorize := Registry.Touch(id, w.now), Registry.Authorize(id, name, key, w.now);
    PairWelcomes(tape, d.(registry := Registry.Apply(d.registry, touch, w.write)), key, id, name,
                 ParsePublicKey(key).value);
    PairWelcomes(tape, d.(registry := Registry.Apply(d.registry, authorize, w.write)), key, id, name,
                 ParsePublicKey(key).value);
  }

  /** An admitted hello whose write completes is noted in the device list: the device's one
      entry shows this key and this time, and every other entry stays as it was. */
  lemma HelloRecorded(tape: Tape, d: Daemon.State, msg: WireMessage, w: World, key: string, id: string, name: string)
    requires Shows(msg, key, id, name) && Admits(d, key, id, w) && w.write.Done?
    requires Registry.Load(d.registry).Some? && Registry.UniqueIds(Registry.Load(d.registry).value)
    ensures var before, after := d.registry, Next(tape, d, Frame(msg, w)).registry;
            && Registry.Load(after).Some?
            && (exists e :: e in Registry.Load(after).value
                            && e.id == id && e.publicKey == key && e.lastSeen == w.now)
            && (forall e :: e in Registry.Load(before).value && e.id != id ==> e in Registry.Load(after).value)
            && (forall e :: e in Registry.Load(after).value && e.id != id ==> e in Registry.Load(before).value)
  {
    ShownIdentity(msg, key, id, name);
    EmptyKeyNeverParses();
    PairKeepsRegistry(tape, d, msg, w, key, id, name);
    var devices := Registry.Load(d.registry).value;
    if Registry.IsAuthorized(d.registry, id, key) {
      Registry.TouchRecords(d.registry, id, w.now);
      hide Registry.Apply;
      var after := Registry.Load(Registry.Apply(d.registry, Registry.Touch(id, w.now), w.write)).value;
      var i :| 0 <= i < |devices| && devices[i].id == id && devices[i].publicKey == key;
      assert after[i] in after;
      forall e | e in devices && e.id != id ensures e in after {
        var j :| 0 <= j < |devices| && devices[j] == e;
        assert after[j] == e;
      }
    } else {
      Registry.AuthorizeRecords(d.registry, id, name, key, w.now);
      hide Registry.Apply;
      var after := Registry.Load(Registry.Apply(d.registry, Registry.Authorize(id, name, key, w.now), w.write)).value;
      if e :| e in devices && e.id == id {
        assert Registry.Device(id, if name != "" then name else e.name, key, e.firstSeen, w.now) in after;
      } else {
        assert Registry.Device(id, if name != "" then name else "Mobile device", key, w.now, w.now) in after;
      }
    }
  }

  lemma PairKeepsRegistry(tape: Tape, d: Daemon.State, msg: WireMessage, w: World, key: string, id: string,
                          name: string)
    requires Shows(msg, key, id, name) && Admits(d, key, id, w) && w.write.Done?
    ensures Next(tape, d, Frame(msg, w)).registry
         == Registry.Apply(d.registry, if Registry.IsAuthorized(d.registry, id, key) then Registry.Touch(id, w.now)
                                       else Registry.Authorize(id, name, key, w.now), w.write)
  {
    ShownIdentity(msg, key, id, name);
    EmptyKeyNeverParses();
    hide ParsePublicKey, Registry.IsAuthorized, Registry.Apply, SetPeer, Send;
  }

  // Commands.

  /** The event that answers a command which has come off, where that is one event. */
  const ANSWER: map<string, string> :=
    map["interrupt" := "permission_resolved", "approve" := "permission_resolved", "reject" := "permission_resolved",
        "file_list" := "file_snapshot", "file_read" := "file_content", "file_write" := "file_saved",
        "file_delete" := "file_deleted", "file_rename" := "file_renamed", "folder_create" := "folder_created"]

  predicate Known(typ: string) {
    typ in ANSWER || typ in {"stdin", "git_action", "workspace_tools", "ping"}
  }

  /** The command reports an error: nobody knows it, or it is one that can fail and did. */
  predicate Fails(typ: string, w: World) {
    !Known(typ) || (w.failure.Some? && typ != "workspace_tools" && typ != "ping")
  }

  /** The events a command is answered with. */
  ghost predicate AnsweredBy(typ: string, w: World, evs: seq<Event>) {
    && (Fails(typ, w) ==> |evs| == 1 && evs[0].typ == "error")
    && (!Known(typ) ==> evs == [Event("error", "unsupported mobile command " + typ)])
    && (Known(typ) && Fails(typ, w) ==> evs == [Event("error", w.failure.value)])
    && (!Fails(typ, w) ==>
          && (typ == "stdin" ==> evs == [])
          && (typ in ANSWER ==> evs == [Event(ANSWER[typ], w.data)])
          && (typ == "workspace_tools" ==> evs == [Event("workspace_tools", w.tools)])
          && (typ == "ping" ==> evs == [Event("pong", w.data)])
          && (typ == "git_action" ==>
                && 1 <= |evs| <= 3 && evs[0] == Event("git_action_result", w.data)
                && (|evs| > 1 <==> w.gitOk) && (|evs| > 2 <==> w.gitOk && w.snapshot.Some?)
                && (|evs| > 1 ==> evs[1] == Event("workspace_tools", w.tools))
                && (|evs| > 2 ==> evs[2] == Event("file_snapshot", w.snapshot.value))))
  }

  /** The frame brings, behind an open gate, a message of the peer with a fresh number. */
  ghost predicate Brings(d: Daemon.State, msg: WireMessage, m: PlainMessage) {
    && msg.typ == "ciphertext" && msg.payload.Encrypted? && d.sender.peer.Some?
    && Registry.IsAuthorized(d.registry, d.sender.peer.value.deviceId, d.sender.peer.value.encoded)
    && Open(d.sender.own, d.sender.peer.value.key, msg.payload.env) == Ok(m) && m.num > d.sender.lastRecv
  }

  /** From `d` to `r` the message was accepted, and executed if it is a known command. */
  ghost predicate Accepts(d: Daemon.State, r: Daemon.State, m: PlainMessage) {
    && d.sender.peer.Some? && r.sender.peer == d.sender.peer && r.sender.own == d.sender.own
    && r.sender.sid == d.sender.sid && r.registry == d.registry
    && r.sender.accepted == d.sender.accepted + [m] && r.sender.lastRecv == m.num
    && var who := d.sender.peer.value;
       r.executed == d.executed + if Known(m.typ) then [Execution(who.deviceId, who.encoded, m)] else []
  }

  /** Such a message is accepted, executed if it is a known command, and answered. */
  lemma CommandAnswered(tape: Tape, d: Daemon.State, msg: WireMessage, w: World, m: PlainMessage)
    requires Brings(d, msg, m)
    ensures var s, r := d.sender, Next(tape, d, Frame(msg, w));
            && Accepts(d, r, m)
            && (CanAnswer(tape, s, 3) ==> exists evs :: AnsweredBy(m.typ, w, evs) && Answered(s, r.sender, evs))
  {
    hide Open, Registry.IsAuthorized, SendAll, Seal, Answered, AnsweredBy, Replies, COMMANDS, Known, CanAnswer;
    var after := Heard(d, m);
    assert Receive(d.sender, msg.payload.env) == (after, Ok(m)) by {
      OpenGivesCarried(d.sender.own, d.sender.peer.value.key, msg.payload.env);
    }
    KnownCommands(m.typ);
    hide Receive;
    if CanAnswer(tape, d.sender, 3) { HeardAnswered(tape, d, m, w); }
    if Replies(m.typ, w).Ok? { SendAllSentOnly(tape, after, Replies(m.typ, w).value); }
  }

  /** The sender once it has accepted `m`. */
  function Heard(d: Daemon.State, m: PlainMessage): Sender.State {
    d.sender.(lastRecv := m.num, accepted := d.sender.accepted + [m])
  }

  lemma HeardAnswered(tape: Tape, d: Daemon.State, m: PlainMessage, w: World)
    requires d.sender.peer.Some? && CanAnswer(tape, d.sender, 3)
    ensures var after := Heard(d, m);
            var r := match Replies(m.typ, w)
                     case Err(why) => Send(tape, after, Event("error", why), false)
                     case Ok(evs) => SendAll(tape, after, evs);
            exists evs :: AnsweredBy(m.typ, w, evs) && Answered(d.sender, r, evs)
  {
    RepliesAnswer(m.typ, w);
    hide Replies, SendAll, Send, Answered, AnsweredBy;
    var after := Heard(d, m);
    match Replies(m.typ, w)
    case Err(why) =>
      SendAnswers(tape, after, Event("error", why), false);
      AnsweredAfter(d.sender, after, Send(tape, after, Event("error", why), false), [Event("error", why)]);
    case Ok(evs) =>
      SendAllAnswers(tape, after, evs);
      AnsweredAfter(d.sender, after, SendAll(tape, after, evs), evs);
  }

  lemma KnownCommands(typ: string)
    ensures typ in COMMANDS <==> Known(typ)
  {
  }

  lemma RepliesAnswer(typ: string, w: World)
    ensures match Replies(typ, w)
            case Err(why) => AnsweredBy(typ, w, [Event("error", why)])
            case Ok(evs) => AnsweredBy(typ, w, evs) && |evs| <= 3
  {
  }

  lemma AnsweredAfter(s: Sender.State, after: Sender.State, r: Sender.State, evs: seq<Event>)
    requires Answered(after, r, evs)
    requires after == s.(lastRecv := after.lastRecv, accepted := after.accepted)
    ensures Answered(s, r, evs)
  {
    hide Delivers, Agree;
  }

  /** Any other ciphertext frame changes nothing but the outbound queue and the counter, and
      is answered with one error. */
  lemma OthersRefused(tape: Tape, d: Daemon.State, msg: WireMessage, w: World)
    requires msg.typ == "ciphertext" && forall m :: !Brings(d, msg, m)
    ensures var s, r := d.sender, Next(tape, d, Frame(msg, w));
            && r.executed == d.executed && r.registry == d.registry && r.sender.peer == s.peer
            && r.sender.accepted == s.accepted && r.sender.lastRecv == s.lastRecv
            && (s.peer.None? ==> r == d)
            && (s.peer.Some? && CanAnswer(tape, s, 1) ==>
                  exists why :: Answered(s, r.sender, [Event("error", why)])
                                && (!GateOpen(d) ==> why == "mobile device is not authorized"))
  {
    hide Open, Registry.IsAuthorized, SendAll, Answered;
    var why := if !GateOpen(d) then "mobile device is not authorized"
               else if AsEnvelope(msg.payload).None? then "malformed envelope" else "cannot open";
    if GateOpen(d) && AsEnvelope(msg.payload).Some? { NotBrought(d, msg, AsEnvelope(msg.payload).value); }
    assert Next(tape, d, Frame(msg, w)) == Fail(tape, d, why);
    hide GateOpen, Daemon.Command;
    if d.sender.peer.Some? && CanAnswer(tape, d.sender, 1) { SendAnswers(tape, d.sender, Event("error", why), false); }
  }

  lemma NotBrought(d: Daemon.State, msg: WireMessage, env: Envelope)
    requires msg.typ == "ciphertext" && AsEnvelope(msg.payload) == Some(env) && GateOpen(d)
    requires forall m :: !Brings(d, msg, m)
    ensures Receive(d.sender, env).1.Err? && Receive(d.sender, env).0 == d.sender
  {
    var plain := Open(d.sender.own, d.sender.peer.value.key, env);
    if plain.Ok? {
      OpenGivesCarried(d.sender.own, d.sender.peer.value.key, env);
      assert !Brings(d, msg, plain.value);
    }
  }

  // A new phone, from its hello to its last command.

  /** The frame carries this box of the phone, whatever else it says. */
  predicate CarriesBox(msg: WireMessage, x: Sealing) {
    msg.typ == "ciphertext" && msg.payload == Encrypted(PhoneSeal(x.key, x.nonce, x.msg))
  }

  /** Each of these boxes arrives in a frame of its own. */
  ghost predicate BringBoxes(steps: seq<Step>, boxes: seq<Sealing>) {
    |steps| == |boxes| && forall i :: 0 <= i < |steps| ==> steps[i].Frame? && CarriesBox(steps[i].msg, boxes[i])
  }

  /** The executions of the known commands among these messages. */
  function Executions(deviceId: string, key: string, boxes: seq<Sealing>): seq<Execution> {
    if boxes == [] then []
    else
      Executions(deviceId, key, boxes[..|boxes| - 1])
      + if Known(boxes[|boxes| - 1].msg.typ) then [Execution(deviceId, key, boxes[|boxes| - 1].msg)] else []
  }

  lemma CommandExecuted(tape: Tape, d: Daemon.State, msg: WireMessage, w: World, m: PlainMessage)
    requires Brings(d, msg, m)
    ensures Accepts(d, Next(tape, d, Frame(msg, w)), m)
  {
    hide Next, CanAnswer, AnsweredBy, Answered, Known;
    CommandAnswered(tape, d, msg, w, m);
  }

  lemma BoxBrought(d: Daemon.State, phone: KeyPair, msg: WireMessage, x: Sealing)
    requires GateOpen(d) && d.sender.peer.value.key == phone.public && CarriesBox(msg, x)
    requires x.key == Agree(phone, d.sender.own.public) && x.msg.num > d.sender.lastRecv
    ensures Brings(d, msg, x.msg)
  {
    hide Open, PhoneSeal, Registry.IsAuthorized;
    SealedOpensAtOtherEnd(d.sender.own, phone, x.nonce, "", x.msg);
  }

  /** From `d` to `r` these boxes were accepted, and the known commands among them executed. */
  ghost predicate Obeyed(d: Daemon.State, r: Daemon.State, boxes: seq<Sealing>) {
    && d.sender.peer.Some? && r.sender.peer == d.sender.peer && r.sender.own == d.sender.own
    && r.registry == d.registry && r.sender.accepted == d.sender.accepted + Network.Messages(boxes)
    && r.executed == d.executed + Executions(d.sender.peer.value.deviceId, d.sender.peer.value.encoded, boxes)
    && r.sender.lastRecv == if boxes == [] then d.sender.lastRecv else boxes[|boxes| - 1].msg.num
  }

  lemma ObeyedNone(d: Daemon.State)
    requires d.sender.peer.Some?
    ensures Obeyed(d, d, [])
  {
    assert d.executed + [] == d.executed && d.sender.accepted + [] == d.sender.accepted;
  }

  lemma ObeyedOneMore(d: Daemon.State, before: Daemon.State, r: Daemon.State, boxes: seq<Sealing>, x: Sealing)
    requires Obeyed(d, before, boxes) && Accepts(before, r, x.msg)
    ensures Obeyed(d, r, boxes + [x])
  {
    hide Known;
    var longer := boxes + [x];
    assert longer[..|longer| - 1] == boxes && longer[|longer| - 1] == x;
    assert Network.Messages(longer) == Network.Messages(boxes) + [x.msg];
  }

  /** Behind an open gate every box of the peer that arrives in increasing number is
      accepted, and every known command among them is executed, in order. */
  lemma {:induction false} AllExecuted(tape: Tape, d: Daemon.State, phone: KeyPair, steps: seq<Step>,
                                       boxes: seq<Sealing>)
    requires GateOpen(d) && d.sender.peer.value.key == phone.public && BringBoxes(steps, boxes)
    requires Increasing(boxes, SealingNum)
    requires forall x :: x in boxes ==> x.key == Agree(phone, d.sender.own.public) && x.msg.num > d.sender.lastRecv
    ensures Obeyed(d, Run(tape, d, steps), boxes)
  {
    hide Next, Known, Obeyed, Accepts, CarriesBox, Executions, Registry.IsAuthorized;
    if boxes == [] {
      ObeyedNone(d);
    } else {
      var front, last := steps[..|steps| - 1], steps[|steps| - 1];
      var earlier, x := boxes[..|boxes| - 1], boxes[|boxes| - 1];
      AllExecuted(tape, d, phone, front, earlier);
      var before := Run(tape, d, front);
      StillOpen(d, before, earlier);
      if earlier != [] { assert SealingNum(boxes[|earlier| - 1]) < SealingNum(x); }
      BoxBrought(before, phone, last.msg, x);
      CommandExecuted(tape, before, last.msg, last.world, x.msg);
      ObeyedOneMore(d, before, Next(tape, before, last), earlier, x);
      assert earlier + [x] == boxes;
    }
  }

  lemma StillOpen(d: Daemon.State, r: Daemon.State, boxes: seq<Sealing>)
    requires GateOpen(d) && Obeyed(d, r, boxes)
    ensures GateOpen(r) && r.sender.peer == d.sender.peer && r.sender.own == d.sender.own
    ensures r.sender.lastRecv == if boxes == [] then d.sender.lastRecv else boxes[|boxes| - 1].msg.num
  {
  }

  /** Whatever daemon admits a new phone and can note it down, it executes every known
      command that phone then sends it in increasing number, in order. */
  lemma NewPhoneObeyed(tape: Tape, d: Daemon.State, msg: WireMessage, w: World, phone: KeyPair, steps: seq<Step>,
                       boxes: seq<Sealing>)
    requires Network.NewPhone(d, msg, w, phone) && w.write.Done?
    requires BringBoxes(steps, boxes) && Increasing(boxes, SealingNum)
    requires forall x :: x in boxes ==> x.key == Agree(phone, d.sender.own.public) && x.msg.num > 0
    ensures var paired := Next(tape, d, Frame(msg, w));
            && paired.sender.peer.Some?
            && var who := paired.sender.peer.value;
               Run(tape, paired, steps).executed == d.executed + Executions(who.deviceId, who.encoded, boxes)
  {
    hide Network.NewPhone, Next, Run, BringBoxes, Registry.IsAuthorized, Executions;
    Network.NewPhonePaired(tape, d, msg, w, phone);
    AllExecuted(tape, Next(tape, d, Frame(msg, w)), phone, steps, boxes);
  }
}
