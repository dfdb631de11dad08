/** What the phone promises over whole runs, and a command's way to the daemon and back. */
module PhoneRuns {
  import opened Common
  import opened E2ee
  import opened Wire
  import opened Phone
  import Answers
  import Base64
  import Daemon
  import NumberingLimits
  import Registry
  import Sender

  // One identity.

  /** The seed the key store holds, if it holds a usable one. */
  function KeptSeed(storage: map<string, string>): Option<Seed> {
    if BOX_SEED_KEY !in storage || storage[BOX_SEED_KEY] == "" then None
    else
      match Base64.UrlNoPadDecode(storage[BOX_SEED_KEY])
      case Some(raw) => if |raw| == 32 then Some(raw) else None
      case None => None
  }

  /** Every CryptoService object has the key pair of the stored seed. */
  ghost predicate OneKey(derive: Derive, s: State) {
    s.objects != [] ==>
      && KeptSeed(s.storage).Some?
      && forall i :: 0 <= i < |s.objects| ==> s.objects[i].own == KeyPair(derive(KeptSeed(s.storage).value))
  }

  lemma SeedKept(storage: map<string, string>, random: Seed, works: bool)
    ensures match LoadOrCreateSeed(storage, random, works)
            case None => true
            case Some((after, seed)) =>
              && KeptSeed(after) == Some(seed)
              && (KeptSeed(storage).Some? ==> after == storage)
  {
    Base64.CrossLanguageRoundTrip(random);
    hide Base64.UrlNoPadDecode, Base64.UrlNoPadEncode, Base64.StdNoPadDecode, Base64.StdNoPadEncode,
         Base64.DecodeRaw, Base64.EncodeRaw;
    if Base64.UrlNoPadEncode(random) == "" { EmptyDecodes(); }
  }

  lemma EmptyDecodes()
    ensures Base64.UrlNoPadDecode("") != None ==> |Base64.UrlNoPadDecode("").value| == 0
  {
  }

  lemma SaveKeepsSeed(storage: map<string, string>, sid: string, n: nat)
    ensures KeptSeed(SaveSequence(storage, sid, n)) == KeptSeed(storage)
  {
    SequenceKeysDistinct(sid, sid);
    hide Base64.UrlNoPadDecode;
  }

  lemma SetPeerKeepsOwn(c: Crypto, encoded: string)
    ensures SetPeerPublicKey(c, encoded).0.own == c.own
  {
    hide Base64.UrlNoPadDecode;
  }

  lemma DialKeepsKey(derive: Derive, s: State, to: Pairing, works: bool)
    requires s.current.Some? && s.current.value < |s.objects| && OneKey(derive, s)
    ensures OneKey(derive, Dial(s, to, works)) && Dial(s, to, works).storage == s.storage
  {
    SetPeerKeepsOwn(s.objects[s.current.value], to.publicKey);
    hide KeptSeed, SetPeerPublicKey;
  }

  lemma DisposedOwn(objects: seq<Crypto>, current: Option<nat>)
    requires current.Some? ==> current.value < |objects|
    ensures forall i :: 0 <= i < |objects| ==> Disposed(objects, current)[i].own == objects[i].own
  {
  }

  lemma RenewKeepsKey(derive: Derive, s: State, step: Step)
    requires step.Connect? && OneKey(derive, s) && (s.current.Some? ==> s.current.value < |s.objects|)
    ensures OneKey(derive, Renew(derive, s, step).0)
    ensures KeptSeed(s.storage).Some? ==> KeptSeed(Renew(derive, s, step).0.storage) == KeptSeed(s.storage)
  {
    SeedKept(s.storage, step.random, step.seedWorks);
    DisposedOwn(s.objects, s.current);
    hide KeptSeed, LoadOrCreateSeed, LoadSequence, Disposed;
    var objects := Disposed(s.objects, s.current);
    match LoadOrCreateSeed(s.storage, step.random, step.seedWorks)
    case None =>
    case Some((storage, seed)) =>
      assert s.objects != [] ==> KeptSeed(s.storage) == Some(seed);
      forall i | 0 <= i < |objects| ensures objects[i].own == KeyPair(derive(seed)) {
        assert s.objects != [];
      }
  }

  lemma ConnectKeepsKey(derive: Derive, s: State, step: Step)
    requires Sound(s) && step.Connect? && OneKey(derive, s)
    ensures OneKey(derive, ConnectTo(derive, s, step))
    ensures KeptSeed(s.storage).Some? ==> KeptSeed(ConnectTo(derive, s, step).storage) == KeptSeed(s.storage)
  {
    hide KeptSeed, Renew, Dial;
    var left := s.(online := false, ready := false, pairing := Some(step.to));
    RenewKeepsKey(derive, left, step);
    if CanResume(s, step.to) {
      DialKeepsKey(derive, left, step.to, step.dialWorks);
    } else if Renew(derive, left, step).1 {
      DialKeepsKey(derive, Renew(derive, left, step).0, step.to, step.dialWorks);
    }
  }

  lemma NextKeepsKey(derive: Derive, s: State, step: Step)
    requires Sound(s) && OneKey(derive, s)
    ensures OneKey(derive, Next(derive, s, step))
    ensures KeptSeed(s.storage).Some? ==> KeptSeed(Next(derive, s, step).storage) == KeptSeed(s.storage)
  {
    hide KeptSeed, ConnectTo, SetPeerPublicKey, SaveSequence, PhoneOpen;
    match step
    case Connect(_, _, _, _, _) => ConnectKeepsKey(derive, s, step);
    case PeerKey(encoded) => if s.current.Some? { SetPeerKeepsOwn(s.objects[s.current.value], encoded); }
    case Save(i, works) =>
      if i < |s.tasks| && s.tasks[i].Sealed? {
        SaveKeepsSeed(s.storage, s.tasks[i].sid, s.objects[s.tasks[i].crypto].num);
      }
    case _ =>
  }

  lemma {:induction false} RunKeepsKey(derive: Derive, s: State, steps: seq<Step>)
    requires Sound(s) && OneKey(derive, s)
    ensures OneKey(derive, Run(derive, s, steps))
    ensures KeptSeed(s.storage).Some? ==> KeptSeed(Run(derive, s, steps).storage) == KeptSeed(s.storage)
  {
    hide Next, OneKey, KeptSeed;
    if steps != [] {
      RunKeepsKey(derive, s, steps[..|steps| - 1]);
      NextKeepsKey(derive, Run(derive, s, steps[..|steps| - 1]), steps[|steps| - 1]);
    }
  }

  /** The phone has one key pair: over every run, and every run of the app started again on
      the storage that leaves behind, all its CryptoService objects have the same one, so the
      daemon's registry goes on knowing it. */
  lemma OneIdentity(derive: Derive, storage: map<string, string>, steps: seq<Step>, later: seq<Step>)
    ensures var r := Run(derive, Start(storage), steps);
            var r2 := Run(derive, Start(r.storage), later);
            forall a, b :: a in r.objects && (b in r.objects || b in r2.objects) ==> a.own == b.own
  {
    hide Run, KeptSeed;
    RunKeepsKey(derive, Start(storage), steps);
    RunKeepsKey(derive, Start(Run(derive, Start(storage), steps).storage), later);
  }

  // Silence.

  lemma {:induction false} NothingWithout(derive: Derive, s: State, steps: seq<Step>)
    requires Sound(s) && s.current.None? && !s.online && forall step :: step in steps ==> !step.Connect?
    ensures var r := Run(derive, s, steps);
            r.current.None? && !r.online && r.wire == s.wire && r.made == s.made
  {
    hide SetPeerPublicKey, SaveSequence, FinishOpen, ConnectTo, Without;
    if steps != [] {
      assert steps[|steps| - 1] in steps;
      NothingWithout(derive, s, steps[..|steps| - 1]);
    }
  }

  /** After a close or a crash, nothing is sealed or sent until the next connect, whatever
      calls were in flight. */
  lemma SilentUntilConnect(derive: Derive, s: State, stop: Step, steps: seq<Step>)
    requires Sound(s) && (stop.Close? || stop.Crash?) && forall step :: step in steps ==> !step.Connect?
    ensures Sound(Next(derive, s, stop))
    ensures var r := Run(derive, Next(derive, s, stop), steps); r.wire == s.wire && r.made == s.made
  {
    NextSound(derive, s, stop);
    hide Run, Disposed;
    NothingWithout(derive, Next(derive, s, stop), steps);
  }

  // There and back.

  /** The phone is connected under the key it shares with the daemon's peer, and neither side
      is ahead of the other. */
  ghost predicate InTouch(p: State, d: Daemon.State)
    requires Sound(p)
  {
    && NumberingLimits.CanSend(p) && p.online && Daemon.GateOpen(d)
    && p.objects[p.current.value].shared == Some(Agree(d.sender.own, d.sender.peer.value.key))
    && d.sender.lastRecv <= p.objects[p.current.value].num
    && p.objects[p.current.value].lastPeerNum <= d.sender.num
  }

  /** Opening these frames one after the other. */
  function Opens(at: nat, frames: seq<WireMessage>): seq<Step> {
    if frames == [] then []
    else
      var m := frames[|frames| - 1];
      Opens(at, frames[..|frames| - 1])
      + if m.payload.Encrypted? then [StartOpen(m.payload.env), EndOpen(at)] else []
  }

  function Heard(key: SharedKey, sid: string, n: nat, evs: seq<Sender.Event>): seq<Received> {
    seq(|evs|, i requires 0 <= i < |evs| => Received(key, PlainMessage(evs[i].typ, sid, n + i + 1, evs[i].data)))
  }

  lemma StartEffect(derive: Derive, p: State, env: Envelope)
    requires Sound(p) && p.current.Some? && CanSeal(p.objects[p.current.value])
    ensures Next(derive, p, StartOpen(env))
         == p.(opening := p.opening + [Opening(p.current.value, p.objects[p.current.value].shared.value, env)])
  {
  }

  lemma EndEffect(derive: Derive, p: State, opening: seq<Opening>, o: Opening)
    requires Sound(p) && p.opening == opening + [o] && o.crypto < |p.objects|
    ensures Next(derive, p, EndOpen(|opening|))
         == p.(opening := opening,
               objects := p.objects[o.crypto := FinishOpen(p.objects[o.crypto], o.key, o.env).0])
  {
    hide FinishOpen;
    assert p.opening[..|opening|] + p.opening[|opening| + 1..] == opening;
  }

  lemma OpenOne(derive: Derive, p: State, frame: WireMessage, key: SharedKey, m: PlainMessage)
    requires Sound(p) && p.current.Some? && CanSeal(p.objects[p.current.value])
    requires p.objects[p.current.value].shared == Some(key)
    requires Sender.Delivers(key, frame, m) && m.num > p.objects[p.current.value].lastPeerNum
    ensures var k, c := p.current.value, p.objects[p.current.value];
            Run(derive, p, [StartOpen(frame.payload.env), EndOpen(|p.opening|)])
            == p.(objects := p.objects[k := c.(lastPeerNum := m.num, accepted := c.accepted + [Received(key, m)])])
  {
    hide Run, PhoneOpen, Next;
    var env := frame.payload.env;
    OpenedCarried(key, env);
    RunTwo(derive, p, StartOpen(env), EndOpen(|p.opening|));
    StartEffect(derive, p, env);
    EndEffect(derive, Next(derive, p, StartOpen(env)), p.opening, Opening(p.current.value, key, env));
  }

  lemma {:induction false} OpenAll(derive: Derive, p: State, frames: seq<WireMessage>, key: SharedKey, sid: string,
                                   n: nat, evs: seq<Sender.Event>)
    requires Sound(p) && p.current.Some? && CanSeal(p.objects[p.current.value]) && |frames| == |evs|
    requires p.objects[p.current.value].shared == Some(key) && p.objects[p.current.value].lastPeerNum <= n
    requires forall i :: 0 <= i < |evs| ==>
               Sender.Delivers(key, frames[i], PlainMessage(evs[i].typ, sid, n + i + 1, evs[i].data))
    ensures var k, c := p.current.value, p.objects[p.current.value];
            var last := if evs == [] then c.lastPeerNum else n + |evs|;
            Run(derive, p, Opens(|p.opening|, frames))
            == p.(objects := p.objects[k := c.(lastPeerNum := last, accepted := c.accepted + Heard(key, sid, n, evs))])
  {
    hide Run, Sender.Delivers, Next;
    var k, c := p.current.value, p.objects[p.current.value];
    if evs == [] {
      RunNone(derive, p);
      assert c.accepted + Heard(key, sid, n, evs) == c.accepted;
    } else {
      var front, ev := evs[..|evs| - 1], evs[|evs| - 1];
      var frame, m := frames[|frames| - 1], PlainMessage(ev.typ, sid, n + |evs|, ev.data);
      OpenAll(derive, p, frames[..|frames| - 1], key, sid, n, front);
      var t := Run(derive, p, Opens(|p.opening|, frames[..|frames| - 1]));
      assert frame.payload.Encrypted? by { DeliversBox(key, frame, m); }
      OpenOne(derive, t, frame, key, m);
      RunConcat(derive, p, Opens(|p.opening|, frames[..|frames| - 1]),
                [StartOpen(frame.payload.env), EndOpen(|p.opening|)]);
      assert Heard(key, sid, n, evs) == Heard(key, sid, n, front) + [Received(key, m)];
      assert c.accepted + Heard(key, sid, n, front) + [Received(key, m)] == c.accepted + Heard(key, sid, n, evs);
      assert t.current == p.current && t.opening == p.opening && |t.objects| == |p.objects|;
      TwiceAt(p.objects, k, t.objects[k], c.(lastPeerNum := m.num, accepted := c.accepted + Heard(key, sid, n, evs)));
    }
  }

  lemma TwiceAt(objects: seq<Crypto>, k: nat, c: Crypto, d: Crypto)
    requires k < |objects|
    ensures objects[k := c][k := d] == objects[k := d]
  {
  }

  lemma DeliversBox(key: SharedKey, frame: WireMessage, m: PlainMessage)
    requires Sender.Delivers(key, frame, m)
    ensures frame.payload.Encrypted?
  {
  }

  /** Once the two are in touch, a command that the phone sends is executed if it is a known
      one, and the phone hears exactly the events that answer it, in order. */
  lemma CommandRoundTrip(derive: Derive, tape: Sender.Tape, p: State, d: Daemon.State, typ: string, data: string,
                         nonce: Nonce, msg: WireMessage, w: Daemon.World)
    requires Sound(p) && InTouch(p, d) && Answers.CanAnswer(tape, d.sender, 3)
    requires var sent := Run(derive, p, NumberingLimits.SendCommand(|p.tasks|, typ, data, nonce));
             |sent.wire| > 0 && Answers.CarriesBox(msg, sent.wire[|sent.wire| - 1])
    ensures var sent := Run(derive, p, NumberingLimits.SendCommand(|p.tasks|, typ, data, nonce));
            var r := Daemon.Next(tape, d, Daemon.Frame(msg, w));
            var k, c := p.current.value, p.objects[p.current.value];
            var m := PlainMessage(typ, p.pairing.value.sid, c.num + 1, data);
            && Sound(sent) && sent.wire == p.wire + [Sealing(c.shared.value, nonce, m)]
            && r.executed == d.executed + (if Answers.Known(typ) then
                                             [Daemon.Execution(d.sender.peer.value.deviceId,
                                                               d.sender.peer.value.encoded, m)]
                                           else [])
            && exists evs ::
                 && Answers.AnsweredBy(typ, w, evs) && |r.sender.outbound| == |d.sender.outbound| + |evs|
                 && var heard := Run(derive, sent, Opens(|sent.opening|, r.sender.outbound[|d.sender.outbound|..]));
                    && k < |heard.objects|
                    && heard.objects[k].accepted
                       == c.accepted + Heard(c.shared.value, d.sender.sid, d.sender.num, evs)
  {
    hide Run, Daemon.Next, Answers.AnsweredBy, Registry.IsAuthorized, Answers.Known, Answers.CanAnswer, Open, PhoneSeal,
         SaveSequence;
    NumberingLimits.SendCommandEffect(derive, p, typ, data, nonce);
    var sent := Run(derive, p, NumberingLimits.SendCommand(|p.tasks|, typ, data, nonce));
    var c := p.objects[p.current.value];
    var m := PlainMessage(typ, p.pairing.value.sid, c.num + 1, data);
    var phone := KeyPair(d.sender.peer.value.key);
    Answers.BoxBrought(d, phone, msg, Sealing(c.shared.value, nonce, m));
    Answers.CommandAnswered(tape, d, msg, w, m);
    var r := Daemon.Next(tape, d, Daemon.Frame(msg, w));
    var evs :| Answers.AnsweredBy(typ, w, evs) && Answers.Answered(d.sender, r.sender, evs);
    AnswersHeard(derive, sent, d, r, evs);
  }

  lemma AnswersHeard(derive: Derive, p: State, d: Daemon.State, r: Daemon.State, evs: seq<Sender.Event>)
    requires Sound(p) && p.current.Some? && CanSeal(p.objects[p.current.value])
    requires Answers.Answered(d.sender, r.sender, evs)
    requires p.objects[p.current.value].shared == Some(Agree(d.sender.own, d.sender.peer.value.key))
    requires p.objects[p.current.value].lastPeerNum <= d.sender.num
    ensures |r.sender.outbound| == |d.sender.outbound| + |evs|
    ensures var c := p.objects[p.current.value];
            var heard := Run(derive, p, Opens(|p.opening|, r.sender.outbound[|d.sender.outbound|..]));
            && p.current.value < |heard.objects|
            && heard.objects[p.current.value].accepted
               == c.accepted + Heard(c.shared.value, d.sender.sid, d.sender.num, evs)
  {
    hide Run, Sender.Delivers, Agree, Opens;
    var frames, key := r.sender.outbound[|d.sender.outbound|..], Agree(d.sender.own, d.sender.peer.value.key);
    forall i | 0 <= i < |evs|
      ensures Sender.Delivers(key, frames[i], PlainMessage(evs[i].typ, d.sender.sid, d.sender.num + i + 1, evs[i].data))
    {
      assert frames[i] == r.sender.outbound[|d.sender.outbound| + i];
    }
    OpenAll(derive, p, frames, key, d.sender.sid, d.sender.num, evs);
  }

  /** The key a daemon_ready shows is the one the phone goes on with, so that, once the daemon
      is paired with the phone, the two are in touch. */
  lemma ReadyBringsInTouch(derive: Derive, p: State, d: Daemon.State)
    requires Sound(p) && p.current.Some? && p.pairing.Some? && p.online
    requires var c := p.objects[p.current.value];
             && !c.disposed && d.sender.peer.Some? && d.sender.peer.value.key == c.own.public
             && d.sender.lastRecv <= c.num && c.lastPeerNum <= d.sender.num
    requires Daemon.GateOpen(d)
    ensures Sound(Next(derive, p, PeerKey(EncodePublicKey(d.sender.own.public))))
    ensures InTouch(Next(derive, p, PeerKey(EncodePublicKey(d.sender.own.public))), d)
  {
    var encoded := EncodePublicKey(d.sender.own.public);
    hide Next, Daemon.GateOpen, EncodePublicKey;
    NextSound(derive, p, PeerKey(encoded));
    PeerKeyEffect(derive, p, d.sender.own.public);
    assert Agree(p.objects[p.current.value].own, d.sender.own.public)
        == Agree(d.sender.own, p.objects[p.current.value].own.public);
  }

  lemma PeerKeyEffect(derive: Derive, p: State, key: PublicKey)
    requires Sound(p) && p.current.Some? && !p.objects[p.current.value].disposed
    ensures var k, c := p.current.value, p.objects[p.current.value];
            Next(derive, p, PeerKey(EncodePublicKey(key)))
            == p.(objects := p.objects[k := c.(hasPeer := true, shared := Some(Agree(c.own, key)))])
  {
    KeyTravels(key);
    hide Base64.UrlNoPadDecode, EncodePublicKey;
  }

  lemma KeyTravels(key: PublicKey)
    ensures Base64.UrlNoPadDecode(EncodePublicKey(key)) == Some(key) && EncodePublicKey(key) != ""
  {
    Base64.CrossLanguageRoundTrip(key);
    hide Base64.UrlNoPadDecode, Base64.EncodeRaw;
    if EncodePublicKey(key) == "" { EmptyDecodes(); }
  }
}
