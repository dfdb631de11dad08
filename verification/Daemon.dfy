/** The daemon's inbound loop: pairing hellos, the authorization gate in front of every
    command, and whole runs of frames, local events and revocations. */
module Daemon {
  import opened Common
  import opened Text
  import opened E2ee
  import opened Wire
  import opened Sender
  import Base64
  import Registry

  /** A command that passed the gate, with the identity it passed under. */
  datatype Execution = Execution(deviceId: string, key: string, msg: PlainMessage)

  datatype State = State(sender: Sender.State, registry: Registry.File, expires: int, executed: seq<Execution>)

  /** What the world decides while one frame is handled: the clock, how a registry write
      goes, and how the command itself turns out. */
  datatype World = World(now: int, write: Registry.Write, failure: Option<string>, data: string,
                         gitOk: bool, tools: string, snapshot: Option<string>)

  datatype Step =
    | Frame(msg: WireMessage, world: World)
    | Local(ev: Event, bufferUntilPaired: bool)
    | RevokeDevice(id: string, write: Registry.Write)
    | Drain

  // mobile_hello.

  /** The public key, device id and device name a hello shows: from the frame, or from
      its payload when the frame carries no key. */
  function HelloIdentity(msg: WireMessage): (string, string, string) {
    if msg.publicKey == "" && msg.payload != NoPayload then
      match msg.payload
      case Identity(key, id, name) => (key, id, name)
      case _ => ("", "", "")
    else (msg.publicKey, msg.deviceId, msg.deviceName)
  }

  /** A hello shows its identity in the frame, or in its payload. */
  predicate Shows(msg: WireMessage, key: string, deviceId: string, deviceName: string) {
    && msg.typ == "mobile_hello"
    && if msg.publicKey != "" then msg.publicKey == key && msg.deviceId == deviceId && msg.deviceName == deviceName
       else msg.payload == Identity(key, deviceId, deviceName)
  }

  function Announce(d: State, notice: WireMessage): State {
    d.(sender := d.sender.(outbound := Queue(d.sender.outbound, notice)))
  }

  function Ready(d: State, deviceId: string): WireMessage {
    WireMessage("daemon_ready", d.sender.sid, "daemon", EncodePublicKey(d.sender.own.public), deviceId, "", NoPayload)
  }

  function Pair(tape: Tape, d: State, key: string, deviceId: string, deviceName: string): State {
    match Sender.SetPeer(tape, d.sender, key, deviceId)
    case None => d
    case Some(paired) =>
      var ready := Announce(d.(sender := paired), Ready(d, deviceId));
      ready.(sender := Send(tape, ready.sender, Event("session_ready", deviceId + " " + deviceName), false))
  }

  function Hello(tape: Tape, d: State, msg: WireMessage, w: World): State {
    var (key, deviceId, deviceName) := HelloIdentity(msg);
    var known := Registry.IsAuthorized(d.registry, deviceId, key);
    if deviceId == "" then Announce(d, Notice("device_identity_required", d.sender.sid, "daemon"))
    else if w.now > d.expires && !known then Announce(d, Notice("pairing_expired", d.sender.sid, "daemon"))
    else if ParsePublicKey(key).None? then d
    else if known then
      Pair(tape, d.(registry := Registry.Apply(d.registry, Registry.Touch(deviceId, w.now), w.write)),
           key, deviceId, deviceName)
    else
      var authorize := Registry.Authorize(deviceId, deviceName, key, w.now);
      var tried := d.(registry := Registry.Apply(d.registry, authorize, w.write));
      if Registry.AuthorizeOk(d.registry, deviceId, key, w.write) then Pair(tape, tried, key, deviceId, deviceName)
      else Announce(tried, Notice("device_authorization_failed", d.sender.sid, "daemon"))
  }

  // ciphertext.

  /** json.Unmarshal of the payload into an envelope; an object of another shape leaves
      every field at its zero value. */
  function AsEnvelope(payload: Payload): Option<Envelope> {
    match payload
    case Encrypted(env) => Some(env)
    case Identity(_, _, _) => Some(Envelope(0, "", "", 0, "", None))
    case _ => None
  }

  const COMMANDS: set<string> :=
    {"stdin", "interrupt", "approve", "reject", "file_list", "file_read", "file_write", "file_delete",
     "file_rename", "folder_create", "workspace_tools", "git_action", "ping"}

  /** The encrypted replies of a command, or the error it reports instead. */
  function Replies(typ: string, w: World): Result<seq<Event>, string> {
    if typ !in COMMANDS then Err("unsupported mobile command " + typ)
    else if typ == "workspace_tools" then Ok([Event("workspace_tools", w.tools)])
    else if typ == "ping" then Ok([Event("pong", w.data)])
    else if w.failure.Some? then Err(w.failure.value)
    else if typ == "stdin" then Ok([])
    else if typ == "interrupt" || typ == "approve" || typ == "reject" then Ok([Event("permission_resolved", w.data)])
    else if typ == "file_list" then Ok([Event("file_snapshot", w.data)])
    else if typ == "file_read" then Ok([Event("file_content", w.data)])
    else if typ == "file_write" then Ok([Event("file_saved", w.data)])
    else if typ == "file_delete" then Ok([Event("file_deleted", w.data)])
    else if typ == "file_rename" then Ok([Event("file_renamed", w.data)])
    else if typ == "folder_create" then Ok([Event("folder_created", w.data)])
    else
      Ok([Event("git_action_result", w.data)]
         + (if !w.gitOk then []
            else [Event("workspace_tools", w.tools)]
                 + (if w.snapshot.Some? then [Event("file_snapshot", w.snapshot.value)] else [])))
  }

  function Fail(tape: Tape, d: State, why: string): State {
    d.(sender := Send(tape, d.sender, Event("error", why), false))
  }

  predicate GateOpen(d: State) {
    d.sender.peer.Some? && Registry.IsAuthorized(d.registry, d.sender.peer.value.deviceId, d.sender.peer.value.encoded)
  }

  function Command(tape: Tape, d: State, msg: WireMessage, w: World): State {
    if !GateOpen(d) then Fail(tape, d, "mobile device is not authorized")
    else
      match AsEnvelope(msg.payload)
      case None => Fail(tape, d, "malformed envelope")
      case Some(env) =>
        var (after, plain) := Receive(d.sender, env);
        match plain
        case Err(_) => Fail(tape, d, "cannot open")
        case Ok(m) =>
          var who := d.sender.peer.value;
          var ran := d.(sender := after,
                        executed := if m.typ in COMMANDS then d.executed + [Execution(who.deviceId, who.encoded, m)]
                                    else d.executed);
          match Replies(m.typ, w)
          case Err(why) => Fail(tape, ran, why)
          case Ok(replies) => ran.(sender := SendAll(tape, ran.sender, replies))
  }

  function Handle(tape: Tape, d: State, msg: WireMessage, w: World): State {
    if msg.typ == "mobile_hello" then Hello(tape, d, msg, w)
    else if msg.typ == "ciphertext" then Command(tape, d, msg, w)
    else d
  }

  function Next(tape: Tape, d: State, step: Step): State {
    match step
    case Frame(msg, w) => Handle(tape, d, msg, w)
    case Local(ev, buffered) => d.(sender := Send(tape, d.sender, ev, buffered))
    case RevokeDevice(id, w) => d.(registry := Registry.Apply(d.registry, Registry.Revoke(id), w))
    case Drain => if d.sender.outbound == [] then d else d.(sender := d.sender.(outbound := d.sender.outbound[1..]))
  }

  function Run(tape: Tape, d: State, steps: seq<Step>): State {
    if steps == [] then d else Next(tape, Run(tape, d, steps[..|steps| - 1]), steps[|steps| - 1])
  }

  // The sender's invariant, and growth of its logs, over every step.

  lemma PairKeeps(tape: Tape, d: State, key: string, deviceId: string, deviceName: string)
    requires Inv(d.sender)
    ensures Inv(Pair(tape, d, key, deviceId, deviceName).sender)
  {
    hide ParsePublicKey, EncodePublicKey, Sender.SetPeer, SendLocked;
    if Sender.SetPeer(tape, d.sender, key, deviceId).Some? {
      SetPeerKeeps(tape, d.sender, key, deviceId);
      var ready := Announce(d.(sender := Sender.SetPeer(tape, d.sender, key, deviceId).value), Ready(d, deviceId));
      if ready.sender.peer.Some? {
        SendLockedKeeps(tape, ready.sender, Event("session_ready", deviceId + " " + deviceName));
      }
    }
  }

  lemma HelloKeeps(tape: Tape, d: State, msg: WireMessage, w: World)
    requires Inv(d.sender)
    ensures Inv(Hello(tape, d, msg, w).sender)
  {
    hide ParsePublicKey, Pair, Registry.IsAuthorized, Registry.Apply;
    var (key, deviceId, deviceName) := HelloIdentity(msg);
    PairKeeps(tape, d.(registry := Registry.Apply(d.registry, Registry.Touch(deviceId, w.now), w.write)),
              key, deviceId, deviceName);
    var authorize := Registry.Authorize(deviceId, deviceName, key, w.now);
    PairKeeps(tape, d.(registry := Registry.Apply(d.registry, authorize, w.write)), key, deviceId, deviceName);
  }

  lemma FailKeeps(tape: Tape, d: State, why: string)
    requires Inv(d.sender)
    ensures Inv(Fail(tape, d, why).sender)
  {
    if d.sender.peer.Some? { SendLockedKeeps(tape, d.sender, Event("error", why)); }
  }

  lemma CommandKeeps(tape: Tape, d: State, msg: WireMessage, w: World)
    requires Inv(d.sender)
    ensures Inv(Command(tape, d, msg, w).sender)
  {
    hide Replies, SendLocked, SendAll, Inv, Registry.IsAuthorized, Fail;
    FailKeeps(tape, d, "mobile device is not authorized");
    FailKeeps(tape, d, "malformed envelope");
    FailKeeps(tape, d, "cannot open");
    if GateOpen(d) && AsEnvelope(msg.payload).Some? {
      var env := AsEnvelope(msg.payload).value;
      ReceiveKeeps(d.sender, env);
      var (after, plain) := Receive(d.sender, env);
      if plain.Ok? {
        var who := d.sender.peer.value;
        var ran := d.(sender := after,
                      executed := if plain.value.typ !in COMMANDS then d.executed
                                  else d.executed + [Execution(who.deviceId, who.encoded, plain.value)]);
        match Replies(plain.value.typ, w)
        case Err(why) => FailKeeps(tape, ran, why);
        case Ok(replies) => SendAllKeeps(tape, ran.sender, replies);
      }
    }
  }

  lemma NextKeeps(tape: Tape, d: State, step: Step)
    requires Inv(d.sender)
    ensures Inv(Next(tape, d, step).sender)
  {
    match step
    case Frame(msg, w) =>
      hide Hello, Command;
      HelloKeeps(tape, d, msg, w);
      CommandKeeps(tape, d, msg, w);
    case Local(ev, buffered) =>
      if d.sender.peer.Some? { SendLockedKeeps(tape, d.sender, ev); }
    case RevokeDevice(_, _) =>
    case Drain =>
  }

  /** What one step can do to the sender's peer and accepted messages. */
  ghost predicate Moves(s: Sender.State, r: Sender.State, step: Step) {
    || SentOnly(s, r)
    || PairedAnew(s, r)
    || (step.Frame? && step.msg.payload.Encrypted? && AcceptedFrom(s, r, step.msg.payload.env))
  }

  lemma PairMoves(tape: Tape, d: State, key: string, deviceId: string, deviceName: string)
    ensures var r := Pair(tape, d, key, deviceId, deviceName).sender;
            SentOnly(d.sender, r) || PairedAnew(d.sender, r)
  {
    hide ParsePublicKey, EncodePublicKey, Sender.SetPeer, Sender.Send;
    if Sender.SetPeer(tape, d.sender, key, deviceId).Some? {
      SetPeerPairsAnew(tape, d.sender, key, deviceId);
      var paired := Sender.SetPeer(tape, d.sender, key, deviceId).value;
      var ready := Announce(d.(sender := paired), Ready(d, deviceId));
      SendSentOnly(tape, ready.sender, Event("session_ready", deviceId + " " + deviceName), false);
    }
  }

  lemma CommandMoves(tape: Tape, d: State, msg: WireMessage, w: World)
    ensures Moves(d.sender, Command(tape, d, msg, w).sender, Frame(msg, w))
  {
    hide Sender.Send, SendAll, Replies, Registry.IsAuthorized, Receive;
    SendSentOnly(tape, d.sender, Event("error", "mobile device is not authorized"), false);
    SendSentOnly(tape, d.sender, Event("error", "malformed envelope"), false);
    SendSentOnly(tape, d.sender, Event("error", "cannot open"), false);
    if GateOpen(d) && AsEnvelope(msg.payload).Some? {
      ReceiveAccepts(d.sender, AsEnvelope(msg.payload).value);
      var (after, plain) := Receive(d.sender, AsEnvelope(msg.payload).value);
      if plain.Ok? {
        match Replies(plain.value.typ, w)
        case Err(why) => SendSentOnly(tape, after, Event("error", why), false);
        case Ok(replies) => SendAllSentOnly(tape, after, replies);
      }
    }
  }

  lemma NextMoves(tape: Tape, d: State, step: Step)
    ensures Moves(d.sender, Next(tape, d, step).sender, step)
  {
    hide Sender.Send, Pair, Command, Registry.IsAuthorized, Registry.Apply, ParsePublicKey;
    match step
    case Frame(msg, w) =>
      var (key, deviceId, deviceName) := HelloIdentity(msg);
      CommandMoves(tape, d, msg, w);
      PairMoves(tape, d.(registry := Registry.Apply(d.registry, Registry.Touch(deviceId, w.now), w.write)),
                key, deviceId, deviceName);
      var authorize := Registry.Authorize(deviceId, deviceName, key, w.now);
      PairMoves(tape, d.(registry := Registry.Apply(d.registry, authorize, w.write)), key, deviceId, deviceName);
    case Local(ev, buffered) => SendSentOnly(tape, d.sender, ev, buffered);
    case _ =>
  }

  // Pairing.

  /** What it takes to pair: a device id, a key that parses, and either a registry entry
      for exactly this pair or an open window and a registry that can be written. */
  predicate Admits(d: State, key: string, deviceId: string, w: World) {
    && deviceId != "" && ParsePublicKey(key).Some?
    && (Registry.IsAuthorized(d.registry, deviceId, key)
        || (w.now <= d.expires && Registry.Load(d.registry).Some? && w.write.Done?))
  }

  /** A hello pairs exactly when it is admitted. The peer is then the one it names and, if
      the registry write completed, may run commands at once; a new key text starts the
      replay counter at zero, the same one keeps it. Otherwise the peer, the numbering and
      the replay counter stay as they were. */
  lemma HelloPairsExactly(tape: Tape, d: State, msg: WireMessage, w: World)
    ensures var (key, deviceId, _) := HelloIdentity(msg);
            var r := Hello(tape, d, msg, w);
            if Admits(d, key, deviceId, w) then
              && r.sender.peer == Some(Peer(ParsePublicKey(key).value, key, deviceId)) && r.sender.buffer == []
              && r.sender.own == d.sender.own && r.sender.sid == d.sender.sid
              && r.sender.lastRecv == (if NewKey(d.sender, key) then 0 else d.sender.lastRecv)
              && r.sender.accepted == (if NewKey(d.sender, key) then [] else d.sender.accepted)
              && (w.write.Done? ==> GateOpen(r))
            else r.sender == d.sender.(outbound := r.sender.outbound)
    ensures Hello(tape, d, msg, w).executed == d.executed
  {
    hide ParsePublicKey, EncodePublicKey, SendAll, SendLocked, Registry.Apply, Registry.IsAuthorized;
    var (key, deviceId, deviceName) := HelloIdentity(msg);
    EmptyKeyNeverParses();
    if Admits(d, key, deviceId, w) {
      if Registry.IsAuthorized(d.registry, deviceId, key) {
        Registry.TouchKeeps(d.registry, deviceId, w.now, deviceId, key);
        PairSets(tape, d.(registry := Registry.Apply(d.registry, Registry.Touch(deviceId, w.now), w.write)),
                 key, deviceId, deviceName);
      } else {
        Registry.AuthorizeGrants(d.registry, deviceId, deviceName, key, w.now);
        var authorize := Registry.Authorize(deviceId, deviceName, key, w.now);
        PairSets(tape, d.(registry := Registry.Apply(d.registry, authorize, w.write)), key, deviceId, deviceName);
      }
    }
  }

  lemma PairSets(tape: Tape, d: State, key: string, deviceId: string, deviceName: string)
    requires ParsePublicKey(key).Some?
    ensures var r := Pair(tape, d, key, deviceId, deviceName);
            && r.sender.peer == Some(Peer(ParsePublicKey(key).value, key, deviceId)) && r.sender.buffer == []
            && r.sender.own == d.sender.own && r.sender.sid == d.sender.sid
            && r.sender.lastRecv == (if NewKey(d.sender, key) then 0 else d.sender.lastRecv)
            && r.sender.accepted == (if NewKey(d.sender, key) then [] else d.sender.accepted)
            && r.registry == d.registry && r.executed == d.executed
  {
    hide ParsePublicKey, EncodePublicKey, SendAll, Seal;
    SetPeerPairsAnew(tape, d.sender, key, deviceId);
  }

  lemma EmptyKeyNeverParses()
    ensures ParsePublicKey("") == None
  {
    assert Filter("", Base64.NotNewline) == [];
  }

  // Authorization.

  /** `e` was added by handling `step` in state `d`: the registry then held exactly the
      current peer's device id and key, the message was sealed under that key, and its
      number was above everything accepted from that key so far. */
  ghost predicate Justified(d: State, step: Step, e: Execution) {
    && step.Frame? && step.msg.typ == "ciphertext" && step.msg.payload.Encrypted?
    && d.sender.peer.Some?
    && d.sender.peer.value.deviceId == e.deviceId && d.sender.peer.value.encoded == e.key
    && Registry.IsAuthorized(d.registry, e.deviceId, e.key)
    && Carried(Agree(d.sender.own, d.sender.peer.value.key), step.msg.payload.env) == Some(e.msg)
    && e.msg.num > d.sender.lastRecv
    && e.msg.typ in COMMANDS
  }

  lemma NextExecutes(tape: Tape, d: State, step: Step)
    ensures var r := Next(tape, d, step);
            || r.executed == d.executed
            || exists e :: Justified(d, step, e) && r.executed == d.executed + [e]
  {
    hide SendAll, SendLocked, Replies, Registry.IsAuthorized, Registry.Apply, ParsePublicKey, Open, Agree,
         EncodePublicKey;
    if step.Frame? && step.msg.typ == "ciphertext" && GateOpen(d) && AsEnvelope(step.msg.payload).Some? {
      var env := AsEnvelope(step.msg.payload).value;
      OpenGivesCarried(d.sender.own, d.sender.peer.value.key, env);
      var (_, plain) := Receive(d.sender, env);
      if plain.Ok? && plain.value.typ in COMMANDS {
        var e := Execution(d.sender.peer.value.deviceId, d.sender.peer.value.encoded, plain.value);
        assert Next(tape, d, step).executed == d.executed + [e];
        assert step.msg.payload.Encrypted?;
        assert Justified(d, step, e);
      }
    }
  }

  /** Over any run, the log of executed commands only grows, and each new entry was added
      at a step that justified it. */
  lemma {:induction false} EveryExecutionJustified(tape: Tape, d: State, steps: seq<Step>)
    ensures var r := Run(tape, d, steps);
            && d.executed <= r.executed
            && forall k :: |d.executed| <= k < |r.executed| ==>
                 exists j :: 0 <= j < |steps| && Justified(Run(tape, d, steps[..j]), steps[j], r.executed[k])
  {
    hide Next, Justified;
    if steps != [] {
      var front, last := steps[..|steps| - 1], steps[|steps| - 1];
      var before, r := Run(tape, d, front), Run(tape, d, steps);
      NextExecutes(tape, before, last);
      EveryExecutionJustified(tape, d, front);
      forall k | |d.executed| <= k < |r.executed|
        ensures exists j :: 0 <= j < |steps| && Justified(Run(tape, d, steps[..j]), steps[j], r.executed[k])
      {
        if k < |before.executed| {
          var j :| 0 <= j < |front| && Justified(Run(tape, d, front[..j]), front[j], before.executed[k]);
          assert front[..j] == steps[..j];
        } else {
          assert Justified(Run(tape, d, steps[..|steps| - 1]), steps[|steps| - 1], r.executed[k]);
        }
      }
    }
  }

  /** Every hello of the run is handled after the pairing window closed. */
  ghost predicate AfterExpiry(expires: int, steps: seq<Step>) {
    forall i :: 0 <= i < |steps| ==> steps[i].Frame? && steps[i].msg.typ == "mobile_hello" ==>
        steps[i].world.now > expires
  }

  lemma NextShrinks(tape: Tape, d: State, step: Step)
    requires AfterExpiry(d.expires, [step])
    ensures Registry.SubAuthorized(Next(tape, d, step).registry, d.registry)
    ensures Next(tape, d, step).expires == d.expires
  {
    hide SendAll, SendLocked, Replies, Registry.IsAuthorized, Registry.Apply, ParsePublicKey, Open, Agree,
         EncodePublicKey;
    assert [step][0] == step;
    match step
    case Frame(msg, w) =>
      var (key, deviceId, _) := HelloIdentity(msg);
      Registry.OnlyAuthorizeAdds(d.registry, Registry.Touch(deviceId, w.now), w.write);
    case RevokeDevice(id, w) => Registry.OnlyAuthorizeAdds(d.registry, Registry.Revoke(id), w);
    case _ =>
  }

  /** Once pairing has expired, the set of authorized (device, key) pairs only shrinks. */
  lemma {:induction false} AuthorizedOnlyShrinks(tape: Tape, d: State, steps: seq<Step>)
    requires AfterExpiry(d.expires, steps)
    ensures Registry.SubAuthorized(Run(tape, d, steps).registry, d.registry)
    ensures Run(tape, d, steps).expires == d.expires
  {
    hide Next, Registry.IsAuthorized;
    if steps != [] {
      var front, last := steps[..|steps| - 1], steps[|steps| - 1];
      AuthorizedOnlyShrinks(tape, d, front);
      NextShrinks(tape, Run(tape, d, front), last);
    }
  }

  /** A device revoked after expiry never gets another command executed in this session. */
  lemma RevokedNeverExecutesAgain(tape: Tape, d: State, id: string, w: Registry.Write, steps: seq<Step>)
    requires AfterExpiry(d.expires, steps) && !w.Untouched?
    ensures var r := Run(tape, Next(tape, d, RevokeDevice(id, w)), steps);
            && d.executed <= r.executed
            && forall k :: |d.executed| <= k < |r.executed| ==> r.executed[k].deviceId != TrimSpace(id)
  {
    hide Registry.IsAuthorized, Registry.Apply, Handle;
    var revoked := Next(tape, d, RevokeDevice(id, w));
    var r := Run(tape, revoked, steps);
    EveryExecutionJustified(tape, revoked, steps);
    forall k | |d.executed| <= k < |r.executed| ensures r.executed[k].deviceId != TrimSpace(id) {
      var e := r.executed[k];
      var j :| 0 <= j < |steps| && Justified(Run(tape, revoked, steps[..j]), steps[j], e);
      AuthorizedOnlyShrinks(tape, revoked, steps[..j]);
      Registry.RevokeRemoves(d.registry, id, w, e.key);
    }
  }
}
