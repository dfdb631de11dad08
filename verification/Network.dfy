/** Daemon and phone joined by a network that may drop, duplicate, delay and reorder
    frames, rewrite every header, and invent any frame it has the keys for, but never
    hands a party a box that party made itself. */
module Network {
  import opened Common
  import opened E2ee
  import opened Wire
  import Sender
  import Daemon
  import Numbering
  import Phone
  import Registry

  datatype State = State(daemon: Daemon.State, phone: Phone.State)

  datatype Step =
    | AtDaemon(d: Daemon.Step)
    | AtPhone(p: Phone.Step)

  /** Each side's own randomness. */
  datatype Chance = Chance(tape: Sender.Tape, derive: Phone.Derive)

  function Next(chance: Chance, n: State, step: Step): (r: State)
    requires Phone.Sound(n.phone)
    ensures Phone.Sound(r.phone)
  {
    match step
    case AtDaemon(d) => n.(daemon := Daemon.Next(chance.tape, n.daemon, d))
    case AtPhone(p) =>
      Phone.NextSound(chance.derive, n.phone, p);
      n.(phone := Phone.Next(chance.derive, n.phone, p))
  }

  function Run(chance: Chance, n: State, steps: seq<Step>): (r: State)
    requires Phone.Sound(n.phone)
    ensures Phone.Sound(r.phone)
  {
    if steps == [] then n else Next(chance, Run(chance, n, steps[..|steps| - 1]), steps[|steps| - 1])
  }

  function Start(sid: string, own: KeyPair, registry: Registry.File, expires: int,
                 storage: map<string, string>): State {
    State(Daemon.State(Sender.Fresh(sid, own), registry, expires, []), Phone.Start(storage))
  }

  /** What the phone put on a socket under `key` for session `sid`, in the order it was
      sealed. */
  function PhoneSent(phone: Phone.State, key: SharedKey, sid: string): seq<Sealing> {
    Filter(Numbering.SentAsSealed(phone), (x: Sealing) => x.key == key && x.msg.sid == sid)
  }

  /** The same in the order it was put there. */
  function PhoneWire(phone: Phone.State, key: SharedKey, sid: string): seq<Sealing> {
    Filter(phone.wire, (x: Sealing) => x.key == key && x.msg.sid == sid)
  }

  function Messages(sealed: seq<Sealing>): seq<PlainMessage> {
    seq(|sealed|, i requires 0 <= i < |sealed| => sealed[i].msg)
  }

  /** What the daemon sealed under `key`, in order. */
  function DaemonSealed(daemon: Daemon.State, key: SharedKey): seq<Sealing> {
    Filter(daemon.sender.sealed, (x: Sealing) => x.key == key)
  }

  ghost predicate OnWire(phone: Phone.State, key: SharedKey, m: PlainMessage) {
    exists x :: x in phone.wire && x.key == key && x.msg == m
  }

  ghost predicate SealedByDaemon(daemon: Daemon.State, key: SharedKey, m: PlainMessage) {
    exists x :: x in daemon.sender.sealed && x.key == key && x.msg == m
  }

  /** A frame reaching one side with a box under `key` carries what the other side made.
      Everything else about the frame, and every frame under other keys, is arbitrary. */
  ghost predicate Admissible(n: State, key: SharedKey, step: Step) {
    match step
    case AtDaemon(Frame(msg, _)) =>
      msg.payload.Encrypted? && Carried(key, msg.payload.env).Some? ==>
        OnWire(n.phone, key, Carried(key, msg.payload.env).value)
    case AtPhone(StartOpen(env)) =>
      Carried(key, env).Some? ==> SealedByDaemon(n.daemon, key, Carried(key, env).value)
    case _ => true
  }

  ghost predicate AdmissibleRun(chance: Chance, n: State, key: SharedKey, steps: seq<Step>)
    requires Phone.Sound(n.phone)
  {
    steps == []
    || (AdmissibleRun(chance, n, key, steps[..|steps| - 1])
        && Admissible(Run(chance, n, steps[..|steps| - 1]), key, steps[|steps| - 1]))
  }

  /** The phone's steps are careful (see Numbering). */
  ghost predicate CarefulRun(chance: Chance, n: State, steps: seq<Step>)
    requires Phone.Sound(n.phone)
  {
    steps == []
    || (CarefulRun(chance, n, steps[..|steps| - 1])
        && (steps[|steps| - 1].AtPhone? ==>
              Numbering.Careful(Run(chance, n, steps[..|steps| - 1]).phone, steps[|steps| - 1].p)))
  }

  // The daemon's side.

  ghost predicate DaemonInv(n: State, key: SharedKey) {
    && Sender.Inv(n.daemon.sender)
    && (n.daemon.sender.peer.Some? ==>
          ParsePublicKey(n.daemon.sender.peer.value.encoded) == Some(n.daemon.sender.peer.value.key))
    && (n.daemon.sender.peer.Some? && Agree(n.daemon.sender.own, n.daemon.sender.peer.value.key) == key ==>
          forall m :: m in n.daemon.sender.accepted ==> OnWire(n.phone, key, m))
  }

  function RankReceived(r: Phone.Received): int { r.msg.num }

  ghost predicate ObjectInv(daemon: Daemon.State, key: SharedKey, c: Phone.Crypto) {
    && Increasing(c.accepted, RankReceived)
    && forall r :: r in c.accepted ==>
         r.msg.num <= c.lastPeerNum && (r.key == key ==> SealedByDaemon(daemon, key, r.msg))
  }

  ghost predicate OpeningInv(daemon: Daemon.State, key: SharedKey, o: Phone.Opening) {
    Carried(key, o.env).Some? ==> SealedByDaemon(daemon, key, Carried(key, o.env).value)
  }

  ghost predicate PhoneInv(n: State, key: SharedKey) {
    && (forall i :: 0 <= i < |n.phone.objects| ==> ObjectInv(n.daemon, key, n.phone.objects[i]))
    && (forall o :: o in n.phone.opening ==> OpeningInv(n.daemon, key, o))
  }

  lemma OnWireGrows(chance: Chance, n: State, step: Phone.Step, key: SharedKey, m: PlainMessage)
    requires Phone.Sound(n.phone) && OnWire(n.phone, key, m)
    ensures OnWire(Next(chance, n, AtPhone(step)).phone, key, m)
  {
    Phone.WireGrows(chance.derive, n.phone, step);
    var x :| x in n.phone.wire && x.key == key && x.msg == m;
    assert x in Next(chance, n, AtPhone(step)).phone.wire;
  }

  lemma DaemonInvKept(chance: Chance, n: State, key: SharedKey, step: Step)
    requires Phone.Sound(n.phone) && DaemonInv(n, key) && Admissible(n, key, step)
    ensures DaemonInv(Next(chance, n, step), key)
  {
    hide ParsePublicKey, OnWire, Daemon.Next, Phone.Next;
    match step
    case AtDaemon(d) =>
      Daemon.NextKeeps(chance.tape, n.daemon, d);
      Daemon.NextMoves(chance.tape, n.daemon, d);
    case AtPhone(p) =>
      forall m | OnWire(n.phone, key, m) ensures OnWire(Next(chance, n, step).phone, key, m) {
        OnWireGrows(chance, n, p, key, m);
      }
  }

  lemma SealedGrows(chance: Chance, daemon: Daemon.State, step: Daemon.Step, key: SharedKey, m: PlainMessage)
    requires SealedByDaemon(daemon, key, m)
    ensures SealedByDaemon(Daemon.Next(chance.tape, daemon, step), key, m)
  {
    hide Daemon.Next, ParsePublicKey;
    Daemon.NextMoves(chance.tape, daemon, step);
    var x :| x in daemon.sender.sealed && x.key == key && x.msg == m;
    assert x in Daemon.Next(chance.tape, daemon, step).sender.sealed;
  }

  lemma FinishOpenKeeps(daemon: Daemon.State, key: SharedKey, c: Phone.Crypto, o: Phone.Opening)
    requires ObjectInv(daemon, key, c) && OpeningInv(daemon, key, o)
    ensures ObjectInv(daemon, key, Phone.FinishOpen(c, o.key, o.env).0)
  {
    hide PhoneOpen;
    if PhoneOpen(o.key, o.env).Ok? && o.env.num > c.lastPeerNum {
      Phone.OpenedCarried(o.key, o.env);
      IncreasingAppend(c.accepted, Phone.Received(o.key, PhoneOpen(o.key, o.env).value), RankReceived);
    }
  }

  /** Objects other than through an open keep what they accepted. */
  lemma PhoneInvKept(chance: Chance, n: State, key: SharedKey, step: Step)
    requires Phone.Sound(n.phone) && PhoneInv(n, key) && Admissible(n, key, step)
    ensures PhoneInv(Next(chance, n, step), key)
  {
    hide ObjectInv, OpeningInv, Daemon.Next, Phone.Next, Phone.FinishOpen;
    match step
    case AtDaemon(d) =>
      DaemonStepKeepsPhoneInv(chance, n, key, d);
    case AtPhone(p) =>
      var r := Next(chance, n, step).phone;
      forall i | 0 <= i < |r.objects| ensures ObjectInv(n.daemon, key, r.objects[i]) {
        Phone.ObjectsChange(chance.derive, n.phone, p, i);
        if i >= |n.phone.objects| {
          NewObjectInv(n.daemon, key, r.objects[i]);
        } else if p.EndOpen? && p.which < |n.phone.opening| && i == n.phone.opening[p.which].crypto {
          FinishOpenKeeps(n.daemon, key, n.phone.objects[i], n.phone.opening[p.which]);
        } else {
          SameAcceptedInv(n.daemon, key, n.phone.objects[i], r.objects[i]);
        }
      }
      forall o | o in r.opening ensures OpeningInv(n.daemon, key, o) {
        Phone.OpeningsChange(chance.derive, n.phone, p, o);
        if o !in n.phone.opening { StartedOpeningInv(n.daemon, key, o, p.env, n); }
      }
  }

  lemma NewObjectInv(daemon: Daemon.State, key: SharedKey, c: Phone.Crypto)
    requires c.accepted == []
    ensures ObjectInv(daemon, key, c)
  {
  }

  lemma SameAcceptedInv(daemon: Daemon.State, key: SharedKey, c: Phone.Crypto, d: Phone.Crypto)
    requires ObjectInv(daemon, key, c) && d.accepted == c.accepted && d.lastPeerNum == c.lastPeerNum
    ensures ObjectInv(daemon, key, d)
  {
  }

  lemma StartedOpeningInv(daemon: Daemon.State, key: SharedKey, o: Phone.Opening, env: Envelope, n: State)
    requires o.env == env && n.daemon == daemon && Admissible(n, key, AtPhone(Phone.StartOpen(env)))
    ensures OpeningInv(daemon, key, o)
  {
  }

  lemma DaemonStepKeepsPhoneInv(chance: Chance, n: State, key: SharedKey, d: Daemon.Step)
    requires Phone.Sound(n.phone) && PhoneInv(n, key)
    ensures PhoneInv(Next(chance, n, AtDaemon(d)), key)
  {
    hide SealedByDaemon, Daemon.Next;
    forall m | SealedByDaemon(n.daemon, key, m)
      ensures SealedByDaemon(Daemon.Next(chance.tape, n.daemon, d), key, m)
    {
      SealedGrows(chance, n.daemon, d, key, m);
    }
  }

  lemma {:induction false} InvariantsHold(chance: Chance, n: State, key: SharedKey, steps: seq<Step>)
    requires Phone.Sound(n.phone) && DaemonInv(n, key) && PhoneInv(n, key)
    requires AdmissibleRun(chance, n, key, steps)
    ensures DaemonInv(Run(chance, n, steps), key) && PhoneInv(Run(chance, n, steps), key)
  {
    hide DaemonInv, PhoneInv, Next, Admissible;
    if steps != [] {
      InvariantsHold(chance, n, key, steps[..|steps| - 1]);
      DaemonInvKept(chance, Run(chance, n, steps[..|steps| - 1]), key, steps[|steps| - 1]);
      PhoneInvKept(chance, Run(chance, n, steps[..|steps| - 1]), key, steps[|steps| - 1]);
    }
  }

  lemma {:induction false} NumberingHolds(chance: Chance, n: State, steps: seq<Step>)
    requires Numbering.NumberingInv(n.phone) && CarefulRun(chance, n, steps)
    ensures Numbering.NumberingInv(Run(chance, n, steps).phone)
  {
    hide Numbering.NumberingInv, Numbering.Careful, Phone.Next, Daemon.Next;
    assert Phone.Sound(n.phone) by { Numbering.NumberingSound(n.phone); }
    if steps != [] {
      var before, last := Run(chance, n, steps[..|steps| - 1]), steps[|steps| - 1];
      NumberingHolds(chance, n, steps[..|steps| - 1]);
      if last.AtPhone? { Numbering.NumberingKeeps(chance.derive, before.phone, last.p); }
    }
  }

  // The two ordering theorems.

  function OfSession(messages: seq<PlainMessage>, sid: string): seq<PlainMessage> {
    Filter(messages, (m: PlainMessage) => m.sid == sid)
  }

  lemma SentRanked(phone: Phone.State, key: SharedKey, sid: string)
    requires Numbering.NumberingInv(phone)
    ensures Increasing(PhoneSent(phone, key, sid), SealingNum)
    ensures forall x :: x in PhoneSent(phone, key, sid) <==> x in phone.wire && x.key == key && x.msg.sid == sid
  {
    hide Numbering.SentUpTo, Numbering.NumberingInv;
    var keep := (x: Sealing) => x.key == key && x.msg.sid == sid;
    Numbering.SentIncreasing(phone, |phone.made|, keep, sid);
    forall x ensures x in PhoneSent(phone, key, sid) <==> x in phone.wire && keep(x) {
      FilterMembers(Numbering.SentAsSealed(phone), keep, x);
      Numbering.SentIsWire(phone, x);
    }
  }

  /** Phone to daemon. In every run over such a network, while the daemon is paired with
      the phone's key, the messages it has accepted in this key period have strictly
      increasing numbers, and those of any one session are a subsequence of what the phone
      put on the wire for that session, taken in the order it was sealed: nothing invented,
      repeated or reordered. */
  lemma DaemonAcceptsWhatThePhoneSent(chance: Chance, n: State, key: SharedKey, steps: seq<Step>, sid: string)
    requires Numbering.NumberingInv(n.phone) && DaemonInv(n, key) && PhoneInv(n, key)
    requires AdmissibleRun(chance, n, key, steps) && CarefulRun(chance, n, steps)
    requires var s := Run(chance, n, steps).daemon.sender; s.peer.Some? && Agree(s.own, s.peer.value.key) == key
    ensures var r := Run(chance, n, steps);
            && Increasing(r.daemon.sender.accepted, MessageNum)
            && Subsequence(OfSession(r.daemon.sender.accepted, sid), Messages(PhoneSent(r.phone, key, sid)))
  {
    hide Numbering.NumberingInv, Run, AdmissibleRun, CarefulRun, ParsePublicKey, PhoneSent;
    Numbering.NumberingSound(n.phone);
    InvariantsHold(chance, n, key, steps);
    NumberingHolds(chance, n, steps);
    var r := Run(chance, n, steps);
    var accepted, sent := r.daemon.sender.accepted, PhoneSent(r.phone, key, sid);
    SentRanked(r.phone, key, sid);
    var ofSid := (m: PlainMessage) => m.sid == sid;
    FilterIncreasing(accepted, ofSid, MessageNum);
    forall m | m in OfSession(accepted, sid) ensures m in Messages(sent) {
      FilterMembers(accepted, ofSid, m);
      var x :| x in r.phone.wire && x.key == key && x.msg == m;
      var i :| 0 <= i < |sent| && sent[i] == x;
      assert Messages(sent)[i] == m;
    }
    OrderedPicks(OfSession(accepted, sid), Messages(sent), MessageNum);
  }

  function AcceptedUnder(c: Phone.Crypto, key: SharedKey): seq<PlainMessage> {
    var kept := Filter(c.accepted, (r: Phone.Received) => r.key == key);
    seq(|kept|, i requires 0 <= i < |kept| => kept[i].msg)
  }

  /** Daemon to phone. Each CryptoService object accepts strictly increasing numbers, and
      what it accepts under the key shared with the daemon is a subsequence of what the
      daemon sealed under that key, however its opens interleave. */
  lemma PhoneAcceptsWhatTheDaemonSealed(chance: Chance, n: State, key: SharedKey, steps: seq<Step>, i: nat)
    requires Phone.Sound(n.phone) && DaemonInv(n, key) && PhoneInv(n, key)
    requires AdmissibleRun(chance, n, key, steps) && i < |Run(chance, n, steps).phone.objects|
    ensures var r := Run(chance, n, steps);
            && Increasing(r.phone.objects[i].accepted, RankReceived)
            && Subsequence(AcceptedUnder(r.phone.objects[i], key), Messages(DaemonSealed(r.daemon, key)))
  {
    hide Run, AdmissibleRun, ParsePublicKey;
    InvariantsHold(chance, n, key, steps);
    var r := Run(chance, n, steps);
    var c := r.phone.objects[i];
    var underKey, sealedUnder := (x: Phone.Received) => x.key == key, (x: Sealing) => x.key == key;
    FilterIncreasing(c.accepted, underKey, RankReceived);
    FilterIncreasing(r.daemon.sender.sealed, sealedUnder, SealingNum);
    var a, b := AcceptedUnder(c, key), Messages(DaemonSealed(r.daemon, key));
    forall m | m in a ensures m in b {
      var k :| 0 <= k < |a| && a[k] == m;
      var got := Filter(c.accepted, underKey)[k];
      FilterMembers(c.accepted, underKey, got);
      assert SealedByDaemon(r.daemon, key, got.msg);
      var x :| x in r.daemon.sender.sealed && x.key == key && x.msg == m;
      FilterMembers(r.daemon.sender.sealed, sealedUnder, x);
      var j :| 0 <= j < |DaemonSealed(r.daemon, key)| && DaemonSealed(r.daemon, key)[j] == x;
      assert b[j] == m;
    }
    OrderedPicks(a, b, MessageNum);
  }

  lemma StartSatisfies(sid: string, own: KeyPair, registry: Registry.File, expires: int,
                       storage: map<string, string>, key: SharedKey)
    ensures var n := Start(sid, own, registry, expires, storage);
            Numbering.NumberingInv(n.phone) && DaemonInv(n, key) && PhoneInv(n, key)
  {
  }

  lemma {:induction false} OwnKeyStays(chance: Chance, n: State, steps: seq<Step>)
    requires Phone.Sound(n.phone)
    ensures Run(chance, n, steps).daemon.sender.own == n.daemon.sender.own
  {
    hide Daemon.Next, Phone.Next, ParsePublicKey;
    if steps != [] {
      OwnKeyStays(chance, n, steps[..|steps| - 1]);
      if steps[|steps| - 1].AtDaemon? {
        Daemon.NextMoves(chance.tape, Run(chance, n, steps[..|steps| - 1]).daemon, steps[|steps| - 1].d);
      }
    }
  }

  // Over a link that keeps order, nothing honest is refused.

  function ReceiveAll(s: Sender.State, envs: seq<Envelope>): Sender.State {
    if envs == [] then s else Sender.Receive(ReceiveAll(s, envs[..|envs| - 1]), envs[|envs| - 1]).0
  }

  function Envelopes(sent: seq<Sealing>): seq<Envelope> {
    seq(|sent|, i requires 0 <= i < |sent| => PhoneSeal(sent[i].key, sent[i].nonce, sent[i].msg))
  }

  lemma HonestFrameAccepted(s: Sender.State, phone: KeyPair, x: Sealing)
    requires s.peer.Some? && s.peer.value.key == phone.public
    requires x.key == Agree(phone, s.own.public) && x.msg.num > s.lastRecv
    ensures Sender.Receive(s, PhoneSeal(x.key, x.nonce, x.msg)) ==
            (s.(lastRecv := x.msg.num, accepted := s.accepted + [x.msg]), Ok(x.msg))
  {
    hide Open;
    SealedOpensAtOtherEnd(s.own, phone, x.nonce, "", x.msg);
  }

  /** Frames of the phone arriving in increasing number, all above the daemon's counter,
      are all accepted, whichever were lost on the way. */
  lemma {:induction false} InOrderAllAccepted(s: Sender.State, phone: KeyPair, arrived: seq<Sealing>)
    requires s.peer.Some? && s.peer.value.key == phone.public
    requires Increasing(arrived, SealingNum)
    requires forall x :: x in arrived ==> x.key == Agree(phone, s.own.public) && x.msg.num > s.lastRecv
    ensures ReceiveAll(s, Envelopes(arrived)) ==
            s.(accepted := s.accepted + Messages(arrived),
               lastRecv := if arrived == [] then s.lastRecv else arrived[|arrived| - 1].msg.num)
  {
    hide Sender.Receive, PhoneSeal;
    if arrived == [] {
      assert s.accepted + Messages(arrived) == s.accepted;
    } else {
      var front, x := arrived[..|arrived| - 1], arrived[|arrived| - 1];
      InOrderAllAccepted(s, phone, front);
      assert Envelopes(arrived)[..|front|] == Envelopes(front);
      assert Messages(arrived) == Messages(front) + [x.msg];
      if front != [] { assert arrived[|front| - 1] == front[|front| - 1]; }
      HonestFrameAccepted(ReceiveAll(s, Envelopes(front)), phone, x);
    }
  }

  // Over the phone's whole wire.

  /** All that arrives is accepted, whatever an order-preserving link loses. */
  ghost predicate NeverRefused(s: Sender.State, wire: seq<Sealing>) {
    forall arrived :: Subsequence(arrived, wire) ==>
      ReceiveAll(s, Envelopes(arrived)).accepted == s.accepted + Messages(arrived)
  }

  /** The second half of crash-safe numbering: a daemon paired with the phone's key never
      refuses an honest frame of a session over an order-preserving lossy link exactly when
      the frames, numbered above its counter, went out in increasing number. */
  lemma NeverRefusedExactly(s: Sender.State, phone: KeyPair, wire: seq<Sealing>)
    requires s.peer.Some? && s.peer.value.key == phone.public
    requires forall x :: x in wire ==> x.key == Agree(phone, s.own.public) && x.msg.num > s.lastRecv
    ensures NeverRefused(s, wire) <==> Increasing(wire, SealingNum)
  {
    hide ReceiveAll;
    if Increasing(wire, SealingNum) {
      forall arrived | Subsequence(arrived, wire)
        ensures ReceiveAll(s, Envelopes(arrived)).accepted == s.accepted + Messages(arrived)
      {
        SubsequenceMembers(arrived, wire);
        SubsequenceIncreasing(arrived, wire, SealingNum);
        InOrderAllAccepted(s, phone, arrived);
      }
    } else {
      var i, j :| 0 <= i < j < |wire| && !(SealingNum(wire[i]) < SealingNum(wire[j]));
      var arrived := [wire[i], wire[j]];
      assert EmbedsAt(arrived, wire, [i, j]);
      SecondRefused(s, phone, wire[i], wire[j]);
      assert |Messages(arrived)| == 2;
    }
  }

  lemma SecondRefused(s: Sender.State, phone: KeyPair, x: Sealing, y: Sealing)
    requires s.peer.Some? && s.peer.value.key == phone.public
    requires x.key == y.key == Agree(phone, s.own.public) && s.lastRecv < y.msg.num <= x.msg.num
    ensures ReceiveAll(s, Envelopes([x, y])).accepted == s.accepted + [x.msg]
  {
    hide Sender.Receive, PhoneSeal;
    HonestFrameAccepted(s, phone, x);
    var t := Sender.Receive(s, PhoneSeal(x.key, x.nonce, x.msg)).0;
    StaleRefused(t, phone, y);
    var envs := Envelopes([x, y]);
    assert envs[..1] == [PhoneSeal(x.key, x.nonce, x.msg)] && envs[..1][..0] == [];
    assert ReceiveAll(s, []) == s;
    assert ReceiveAll(s, envs[..1]) == t;
  }

  lemma StaleRefused(s: Sender.State, phone: KeyPair, x: Sealing)
    requires s.peer.Some? && s.peer.value.key == phone.public
    requires x.key == Agree(phone, s.own.public) && x.msg.num <= s.lastRecv
    ensures Sender.Receive(s, PhoneSeal(x.key, x.nonce, x.msg)).0 == s
  {
    hide Open;
    SealedOpensAtOtherEnd(s.own, phone, x.nonce, "", x.msg);
  }

  /** `msg` is an admitted hello of this phone, with another key text than the present
      peer's. */
  ghost predicate NewPhone(d: Daemon.State, msg: WireMessage, w: Daemon.World, phone: KeyPair) {
    exists key, id, name ::
      && Daemon.Shows(msg, key, id, name) && Daemon.Admits(d, key, id, w)
      && ParsePublicKey(key) == Some(phone.public)
      && (d.sender.peer.Some? ==> d.sender.peer.value.encoded != key)
  }

  lemma NewPhonePaired(tape: Sender.Tape, d: Daemon.State, msg: WireMessage, w: Daemon.World, phone: KeyPair)
    requires NewPhone(d, msg, w, phone)
    ensures var s := Daemon.Next(tape, d, Daemon.Frame(msg, w)).sender;
            && s.peer.Some? && s.peer.value.key == phone.public && s.own == d.sender.own
            && s.lastRecv == 0 && s.accepted == []
    ensures w.write.Done? ==> Daemon.GateOpen(Daemon.Next(tape, d, Daemon.Frame(msg, w)))
    ensures Daemon.Next(tape, d, Daemon.Frame(msg, w)).executed == d.executed
  {
    Daemon.HelloPairsExactly(tape, d, msg, w);
    hide ParsePublicKey, Daemon.Admits, Daemon.Hello, Daemon.GateOpen;
  }

  /** Whatever daemon admits a new phone, it accepts every frame that phone then sends it in
      increasing number. */
  lemma NewPhoneHeard(tape: Sender.Tape, d: Daemon.State, msg: WireMessage, w: Daemon.World, phone: KeyPair,
                      arrived: seq<Sealing>)
    requires NewPhone(d, msg, w, phone) && Increasing(arrived, SealingNum)
    requires forall x :: x in arrived ==> x.key == Agree(phone, d.sender.own.public) && x.msg.num > 0
    ensures var s := Daemon.Next(tape, d, Daemon.Frame(msg, w)).sender;
            ReceiveAll(s, Envelopes(arrived)).accepted == Messages(arrived)
  {
    hide NewPhone, Daemon.Next, ReceiveAll;
    NewPhonePaired(tape, d, msg, w, phone);
    InOrderAllAccepted(Daemon.Next(tape, d, Daemon.Frame(msg, w)).sender, phone, arrived);
    assert [] + Messages(arrived) == Messages(arrived);
  }

  /** So after any careful run of connects, closes, sends, crashes and restarts of the
      phone, however its calls overlap, whatever daemon admits its hello accepts every frame
      of a session that such a link brings it, if they were sent in the order they were
      sealed. */
  lemma HonestFramesNeverRefused(chance: Chance, storage: map<string, string>, steps: seq<Phone.Step>,
                                 d: Daemon.State, msg: WireMessage, w: Daemon.World, phone: KeyPair, sid: string)
    requires Numbering.CarefulRun(chance.derive, Phone.Start(storage), steps)
    requires NewPhone(d, msg, w, phone)
    ensures var r := Phone.Run(chance.derive, Phone.Start(storage), steps);
            var wire := PhoneWire(r, Agree(phone, d.sender.own.public), sid);
            var s := Daemon.Next(chance.tape, d, Daemon.Frame(msg, w)).sender;
            && |r.stamps| == |r.wire|
            && (NeverRefused(s, wire) <==> Increasing(wire, SealingNum))
            && (Numbering.SentInSealOrder(r) ==> NeverRefused(s, wire))
  {
    hide Phone.Run, NeverRefused, Numbering.CarefulRun, Numbering.SentInSealOrder, NewPhone, Daemon.Next;
    var r := Phone.Run(chance.derive, Phone.Start(storage), steps);
    var keep := (x: Sealing) => x.key == Agree(phone, d.sender.own.public) && x.msg.sid == sid;
    NewPhonePaired(chance.tape, d, msg, w, phone);
    Numbering.NumberingIsCrashSafe(chance.derive, storage, steps);
    Phone.RunPositive(chance.derive, Phone.Start(storage), steps);
    forall x | x in Filter(r.wire, keep) ensures keep(x) && x in r.wire { FilterMembers(r.wire, keep, x); }
    NeverRefusedExactly(Daemon.Next(chance.tape, d, Daemon.Frame(msg, w)).sender, phone, Filter(r.wire, keep));
    if Numbering.SentInSealOrder(r) { WireOfSessionIncreasing(r.wire, keep, sid); }
  }

  lemma {:induction false} WireOfSessionIncreasing(wire: seq<Sealing>, keep: Sealing -> bool, sid: string)
    requires Numbering.WireIncreasing(wire) && forall x :: keep(x) ==> x.msg.sid == sid
    ensures Increasing(Filter(wire, keep), SealingNum)
  {
    if wire != [] {
      var front, x := wire[..|wire| - 1], wire[|wire| - 1];
      WireOfSessionIncreasing(front, keep, sid);
      if keep(x) {
        forall y | y in Filter(front, keep) ensures y.msg.num < x.msg.num {
          FilterMembers(front, keep, y);
          var i :| 0 <= i < |front| && front[i] == y;
          assert wire[i] == y;
        }
        IncreasingAppend(Filter(front, keep), x, SealingNum);
      }
    }
  }
}
