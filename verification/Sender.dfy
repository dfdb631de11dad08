/** The daemon's secureSender: numbering, sealing, the drop-on-full outbound queue,
    the pre-pairing buffer, and the replay check on what the phone sends. */
module Sender {
  import opened Common
  import opened E2ee
  import opened Wire
  import Base64

  const OUTBOUND_CAP := 256
  const BUFFER_CAP := 128

  datatype Event = Event(typ: string, data: string)

  datatype Peer = Peer(key: PublicKey, encoded: string, deviceId: string)

  /** What becomes of the n-th attempt to seal: a nonce, or None when marshalling,
      randomness or key agreement fails. */
  type Tape = nat -> Option<Nonce>

  /** `sealed` lists every box made so far; `accepted` lists what was opened since the
      replay counter was last zeroed, the current key period. */
  datatype State = State(sid: string, own: KeyPair, peer: Option<Peer>, num: nat, lastRecv: nat,
                         outbound: seq<WireMessage>, buffer: seq<Event>,
                         sealed: seq<Sealing>, accepted: seq<PlainMessage>)

  datatype RecvError = NotPaired | Refused(why: OpenError) | Replayed

  function Fresh(sid: string, own: KeyPair): State {
    State(sid, own, None, 0, 0, [], [], [], [])
  }

  // Step functions.

  function Queue(outbound: seq<WireMessage>, msg: WireMessage): seq<WireMessage> {
    if |outbound| < OUTBOUND_CAP then outbound + [msg] else outbound
  }

  function Numbered(s: State, ev: Event): PlainMessage {
    PlainMessage(ev.typ, s.sid, s.num + 1, ev.data)
  }

  function SealedFrame(s: State, key: PublicKey, nonce: Nonce, msg: PlainMessage): WireMessage {
    Cipher(s.sid, "daemon", Seal(s.own, key, "daemon", nonce, msg))
  }

  function SendLocked(tape: Tape, s: State, ev: Event): State
    requires s.peer.Some?
  {
    var msg := Numbered(s, ev);
    match tape(s.num + 1)
    case None => s.(num := s.num + 1)
    case Some(nonce) =>
      s.(num := s.num + 1,
         outbound := Queue(s.outbound, SealedFrame(s, s.peer.value.key, nonce, msg)),
         sealed := s.sealed + [Sealing(Agree(s.own, s.peer.value.key), nonce, msg)])
  }

  function SendAll(tape: Tape, s: State, evs: seq<Event>): (r: State)
    requires s.peer.Some?
    ensures r.peer == s.peer
  {
    if evs == [] then s else SendLocked(tape, SendAll(tape, s, evs[..|evs| - 1]), evs[|evs| - 1])
  }

  function Send(tape: Tape, s: State, ev: Event, bufferUntilPaired: bool): State {
    if s.peer.Some? then SendLocked(tape, s, ev)
    else if bufferUntilPaired then s.(buffer := LastOf(s.buffer + [ev], BUFFER_CAP))
    else s
  }

  /** None when the key does not parse; the state is then unchanged. */
  function SetPeer(tape: Tape, s: State, encoded: string, deviceId: string): Option<State> {
    match ParsePublicKey(encoded)
    case None => None
    case Some(key) =>
      var same := s.peer.Some? && s.peer.value.encoded == encoded;
      var paired := s.(peer := Some(Peer(key, encoded, deviceId)),
                       lastRecv := if same then s.lastRecv else 0,
                       accepted := if same then s.accepted else []);
      Some(SendAll(tape, paired, s.buffer).(buffer := []))
  }

  function Receive(s: State, env: Envelope): (State, Result<PlainMessage, RecvError>) {
    if s.peer.None? then (s, Err(NotPaired))
    else
      match Open(s.own, s.peer.value.key, env)
      case Err(e) => (s, Err(Refused(e)))
      case Ok(msg) =>
        if env.num <= s.lastRecv then (s, Err(Replayed))
        else (s.(lastRecv := env.num, accepted := s.accepted + [msg]), Ok(msg))
  }

  // What every step keeps.

  ghost predicate Inv(s: State) {
    && Increasing(s.sealed, SealingNum)
    && (forall x :: x in s.sealed ==> 0 < x.msg.num <= s.num && x.msg.sid == s.sid)
    && Increasing(s.accepted, MessageNum)
    && (forall m :: m in s.accepted ==> 0 < m.num <= s.lastRecv)
    && (s.peer.None? ==> s.accepted == [] && s.lastRecv == 0)
    && |s.outbound| <= OUTBOUND_CAP
  }

  lemma SendLockedKeeps(tape: Tape, s: State, ev: Event)
    requires s.peer.Some? && Inv(s)
    ensures Inv(SendLocked(tape, s, ev))
  {
    if tape(s.num + 1).Some? {
      var x := Sealing(Agree(s.own, s.peer.value.key), tape(s.num + 1).value, Numbered(s, ev));
      assert SendLocked(tape, s, ev).sealed == s.sealed + [x];
      IncreasingAppend(s.sealed, x, SealingNum);
    }
  }

  lemma {:induction false} SendAllKeeps(tape: Tape, s: State, evs: seq<Event>)
    requires s.peer.Some? && Inv(s)
    ensures Inv(SendAll(tape, s, evs))
  {
    if evs != [] {
      SendAllKeeps(tape, s, evs[..|evs| - 1]);
      SendLockedKeeps(tape, SendAll(tape, s, evs[..|evs| - 1]), evs[|evs| - 1]);
    }
  }

  lemma SetPeerKeeps(tape: Tape, s: State, encoded: string, deviceId: string)
    requires Inv(s) && SetPeer(tape, s, encoded, deviceId).Some?
    ensures Inv(SetPeer(tape, s, encoded, deviceId).value)
  {
    hide ParsePublicKey;
    var same := s.peer.Some? && s.peer.value.encoded == encoded;
    var paired := s.(peer := Some(Peer(ParsePublicKey(encoded).value, encoded, deviceId)),
                     lastRecv := if same then s.lastRecv else 0,
                     accepted := if same then s.accepted else []);
    SendAllKeeps(tape, paired, s.buffer);
  }

  /** A message is accepted only with a number above every one accepted in this period. */
  lemma ReceiveKeeps(s: State, env: Envelope)
    requires Inv(s)
    ensures Inv(Receive(s, env).0)
  {
    if Receive(s, env).1.Ok? {
      OpenGivesCarried(s.own, s.peer.value.key, env);
      IncreasingAppend(s.accepted, Receive(s, env).1.value, MessageNum);
    }
  }

  lemma SendAllNone(tape: Tape, s: State, none: seq<Event>)
    requires s.peer.Some? && |none| == 0
    ensures SendAll(tape, s, none) == s
  {
  }

  lemma SendAllOneMore(tape: Tape, s: State, evs: seq<Event>, i: nat)
    requires s.peer.Some? && i < |evs|
    ensures SendAll(tape, s, evs[..i + 1]) == SendLocked(tape, SendAll(tape, s, evs[..i]), evs[i])
  {
    assert evs[..i + 1][..i] == evs[..i];
  }

  /** Sealing appends to the log and never rewrites it. */
  lemma {:induction false} SendAllExtends(tape: Tape, s: State, evs: seq<Event>)
    requires s.peer.Some?
    ensures s.sealed <= SendAll(tape, s, evs).sealed
    ensures var r := SendAll(tape, s, evs);
            r.accepted == s.accepted && r.lastRecv == s.lastRecv && r.own == s.own && r.sid == s.sid
            && r.buffer == s.buffer
  {
    if evs != [] { SendAllExtends(tape, s, evs[..|evs| - 1]); }
  }

  /** `r` differs from `s` only by queued frames, spent numbers and new seals. */
  ghost predicate SentOnly(s: State, r: State) {
    r.own == s.own && r.sid == s.sid && s.sealed <= r.sealed
    && r.peer == s.peer && r.accepted == s.accepted && r.lastRecv == s.lastRecv
  }

  /** `r` results from pairing with a key that parses: the same key text keeps the period. */
  ghost predicate PairedAnew(s: State, r: State) {
    && r.own == s.own && r.sid == s.sid && s.sealed <= r.sealed
    && r.peer.Some? && ParsePublicKey(r.peer.value.encoded) == Some(r.peer.value.key)
    && r.accepted == (if NewKey(s, r.peer.value.encoded) then [] else s.accepted)
    && r.lastRecv == (if NewKey(s, r.peer.value.encoded) then 0 else s.lastRecv)
  }

  /** Nobody is paired under this key text. */
  predicate NewKey(s: State, encoded: string) {
    s.peer.Some? ==> s.peer.value.encoded != encoded
  }

  /** `r` has accepted the message boxed in `env`. */
  ghost predicate AcceptedFrom(s: State, r: State, env: Envelope) {
    && r.own == s.own && r.sid == s.sid && s.sealed <= r.sealed && r.peer == s.peer && s.peer.Some?
    && var carried := Carried(Agree(s.own, s.peer.value.key), env);
       carried.Some? && r.accepted == s.accepted + [carried.value] && r.lastRecv == carried.value.num
  }

  lemma SendSentOnly(tape: Tape, s: State, ev: Event, buffered: bool)
    ensures SentOnly(s, Send(tape, s, ev, buffered))
  {
  }

  lemma {:induction false} SendAllSentOnly(tape: Tape, s: State, evs: seq<Event>)
    requires s.peer.Some?
    ensures SentOnly(s, SendAll(tape, s, evs))
  {
    if evs != [] { SendAllSentOnly(tape, s, evs[..|evs| - 1]); }
  }

  lemma SetPeerPairsAnew(tape: Tape, s: State, encoded: string, deviceId: string)
    requires SetPeer(tape, s, encoded, deviceId).Some?
    ensures PairedAnew(s, SetPeer(tape, s, encoded, deviceId).value)
  {
    hide ParsePublicKey;
    var same := s.peer.Some? && s.peer.value.encoded == encoded;
    SendAllSentOnly(tape, s.(peer := Some(Peer(ParsePublicKey(encoded).value, encoded, deviceId)),
                             lastRecv := if same then s.lastRecv else 0,
                             accepted := if same then s.accepted else []), s.buffer);
  }

  lemma ReceiveAccepts(s: State, env: Envelope)
    ensures var (r, got) := Receive(s, env);
            if got.Ok? then AcceptedFrom(s, r, env) && got.value.num > s.lastRecv else r == s
  {
    if s.peer.Some? { OpenGivesCarried(s.own, s.peer.value.key, env); }
  }

  lemma SetPeerKeepsIdentity(tape: Tape, s: State, encoded: string, deviceId: string)
    requires SetPeer(tape, s, encoded, deviceId).Some?
    ensures var r := SetPeer(tape, s, encoded, deviceId).value;
            r.sid == s.sid && r.own == s.own && s.sealed <= r.sealed && r.buffer == []
  {
    hide ParsePublicKey;
    var same := s.peer.Some? && s.peer.value.encoded == encoded;
    SendAllExtends(tape, s.(peer := Some(Peer(ParsePublicKey(encoded).value, encoded, deviceId)),
                            lastRecv := if same then s.lastRecv else 0,
                            accepted := if same then s.accepted else []), s.buffer);
  }

  // The pre-pairing buffer.

  function SendRun(tape: Tape, s: State, sends: seq<(Event, bool)>): State {
    if sends == [] then s
    else
      var last := sends[|sends| - 1];
      Send(tape, SendRun(tape, s, sends[..|sends| - 1]), last.0, last.1)
  }

  function Bufferable(send: (Event, bool)): bool { send.1 }

  function EventsOf(sends: seq<(Event, bool)>): seq<Event> {
    seq(|sends|, i requires 0 <= i < |sends| => sends[i].0)
  }

  /** The bufferable events of a run of sends, in order. */
  function Kept(sends: seq<(Event, bool)>): seq<Event> {
    EventsOf(Filter(sends, Bufferable))
  }

  /** Before the first pairing, any run of sends leaves exactly the last 128 bufferable
      events waiting, in order, and uses up no number. */
  lemma {:induction false} BufferHoldsTheLast(tape: Tape, s: State, sends: seq<(Event, bool)>)
    requires s.peer.None? && s.buffer == []
    ensures SendRun(tape, s, sends) == s.(buffer := LastOf(Kept(sends), BUFFER_CAP))
    ensures IsTail(SendRun(tape, s, sends).buffer, Kept(sends), 128)
  {
    if sends != [] {
      var front, last := sends[..|sends| - 1], sends[|sends| - 1];
      BufferHoldsTheLast(tape, s, front);
      assert sends == front + [last];
      FilterAppend(front, last, Bufferable);
      if last.1 {
        var kept := Kept(front);
        assert Kept(sends) == kept + [last.0];
        assert LastOf(LastOf(kept, BUFFER_CAP) + [last.0], BUFFER_CAP) == LastOf(kept + [last.0], BUFFER_CAP);
      }
    }
  }

  /** The frames that numbers n+1, n+2, ... carry when every seal succeeds. */
  function FlushedFrames(tape: Tape, s: State, evs: seq<Event>): (frames: seq<WireMessage>)
    requires s.peer.Some?
    requires forall n: nat :: s.num < n <= s.num + |evs| ==> tape(n).Some?
    ensures |frames| == |evs|
  {
    seq(|evs|, i requires 0 <= i < |evs| =>
      SealedFrame(s, s.peer.value.key, tape(s.num + i + 1).value,
                  PlainMessage(evs[i].typ, s.sid, s.num + i + 1, evs[i].data)))
  }

  lemma {:induction false} SendAllQueuesInOrder(tape: Tape, s: State, evs: seq<Event>)
    requires s.peer.Some?
    requires forall n: nat :: s.num < n <= s.num + |evs| ==> tape(n).Some?
    requires |s.outbound| + |evs| <= OUTBOUND_CAP
    ensures var r := SendAll(tape, s, evs);
            r.num == s.num + |evs| && r.outbound == s.outbound + FlushedFrames(tape, s, evs)
    ensures var r := SendAll(tape, s, evs); r.sid == s.sid && r.own == s.own && r.peer == s.peer
  {
    if evs == [] {
      assert s.outbound + FlushedFrames(tape, s, evs) == s.outbound;
    } else {
      var front, last := evs[..|evs| - 1], evs[|evs| - 1];
      SendAllQueuesInOrder(tape, s, front);
      var mid := SendAll(tape, s, front);
      var frame := SealedFrame(s, s.peer.value.key, tape(s.num + |evs|).value,
                               PlainMessage(last.typ, s.sid, s.num + |evs|, last.data));
      assert FlushedFrames(tape, s, evs) == FlushedFrames(tape, s, front) + [frame];
      assert SendLocked(tape, mid, last).outbound == mid.outbound + [frame];
    }
  }

  /** The frame is the daemon's ciphertext for this session, and a phone holding `key` opens
      it to `msg`. */
  predicate Delivers(key: SharedKey, frame: WireMessage, msg: PlainMessage) {
    && frame.typ == "ciphertext" && frame.sid == msg.sid && frame.role == "daemon"
    && frame.payload.Encrypted? && PhoneOpen(key, frame.payload.env) == Ok(msg)
  }

  lemma SealedDelivers(s: State, key: PublicKey, nonce: Nonce, msg: PlainMessage)
    requires msg.sid == s.sid
    ensures Delivers(Agree(s.own, key), SealedFrame(s, key, nonce, msg), msg)
  {
    hide PhoneOpen, Seal;
    SealedOpensAtOtherEnd(s.own, KeyPair(key), nonce, "daemon", msg);
    assert Agree(KeyPair(key), s.own.public) == Agree(s.own, key);
  }

  lemma FlushedFramesDeliver(tape: Tape, s: State, evs: seq<Event>)
    requires s.peer.Some?
    requires forall n: nat :: s.num < n <= s.num + |evs| ==> tape(n).Some?
    ensures forall i :: 0 <= i < |evs| ==>
              Delivers(Agree(s.own, s.peer.value.key), FlushedFrames(tape, s, evs)[i],
                       PlainMessage(evs[i].typ, s.sid, s.num + i + 1, evs[i].data))
  {
    hide SealedFrame, Delivers;
    forall i | 0 <= i < |evs|
      ensures Delivers(Agree(s.own, s.peer.value.key), FlushedFrames(tape, s, evs)[i],
                       PlainMessage(evs[i].typ, s.sid, s.num + i + 1, evs[i].data))
    {
      SealedDelivers(s, s.peer.value.key, tape(s.num + i + 1).value,
                     PlainMessage(evs[i].typ, s.sid, s.num + i + 1, evs[i].data));
    }
  }

  /** Pairing a fresh daemon after any run of sends puts the last 128 bufferable events on
      the outbound queue with numbers 1, 2, ..., m, ahead of any later event, and loses
      none of them when m slots are free. */
  lemma FirstPairingFlushes(tape: Tape, s: State, sends: seq<(Event, bool)>, encoded: string, deviceId: string,
                            key: PublicKey, waiting: seq<Event>)
    requires s.peer.None? && s.buffer == [] && s.num == 0
    requires ParsePublicKey(encoded) == Some(key)
    requires waiting == LastOf(Kept(sends), BUFFER_CAP) && |s.outbound| + |waiting| <= OUTBOUND_CAP
    requires forall n: nat :: 0 < n <= |waiting| ==> tape(n).Some?
    ensures var r := SetPeer(tape, SendRun(tape, s, sends), encoded, deviceId).value;
            && r.num == |waiting| && r.buffer == []
            && |r.outbound| == |s.outbound| + |waiting| && s.outbound <= r.outbound
            && forall i :: 0 <= i < |waiting| ==>
                 Delivers(Agree(s.own, key), r.outbound[|s.outbound| + i],
                          PlainMessage(waiting[i].typ, s.sid, i + 1, waiting[i].data))
  {
    hide ParsePublicKey, SendAll, FlushedFrames, Delivers, Agree;
    BufferHoldsTheLast(tape, s, sends);
    var paired := s.(buffer := waiting, lastRecv := 0, accepted := [],
                     peer := Some(Peer(key, encoded, deviceId)));
    SendAllQueuesInOrder(tape, paired, waiting);
    FlushedFramesDeliver(tape, paired, waiting);
    var frames := FlushedFrames(tape, paired, waiting);
    assert SetPeer(tape, SendRun(tape, s, sends), encoded, deviceId).value.outbound == s.outbound + frames;
  }
}
