/** The phone: CryptoService objects, the persistent key store, and RelayService's
    connect, sendCommand and close, as a step machine in which every await inside
    sendCommand and open is a separate step and a crash may fall between any two. */
module Phone {
  import opened Common
  import opened E2ee
  import Base64
  import Decimal

  type Seed = PublicKey

  /** X25519 key derivation: the public key a seed stands for. */
  type Derive = Seed -> PublicKey

  /** A message opened under `key`. */
  datatype Received = Received(key: SharedKey, msg: PlainMessage)

  /** One CryptoService object. `sid` is the session it was created for; `accepted` lists
      what it has opened. A disposed object keeps its shared key but can agree on no other. */
  datatype Crypto = Crypto(own: KeyPair, hasPeer: bool, shared: Option<SharedKey>, num: nat, lastPeerNum: nat,
                           disposed: bool, sid: string, accepted: seq<Received>)

  datatype Pairing = Pairing(sid: string, publicKey: string)

  /** One sendCommand in flight: its box is sealed, and then its counter is saved. `stamp`
      is the box's position among all that were ever sealed. */
  datatype Task =
    | Sealed(crypto: nat, sid: string, box: Sealing, stamp: nat)
    | Saved(sid: string, box: Sealing, stamp: nat)

  /** An open waiting for its decryption, with the key it captured. */
  datatype Opening = Opening(crypto: nat, key: SharedKey, env: Envelope)

  /** `storage` survives a crash. `tasks` are the sendCommand calls in flight, in the order
      they sealed; `made` lists every box in that order, `wire` those handed to a socket, in
      the order they were, and `stamps` where each of these stands in `made`. */
  datatype State = State(storage: map<string, string>, objects: seq<Crypto>, current: Option<nat>,
                         pairing: Option<Pairing>, online: bool, ready: bool, tasks: seq<Task>,
                         opening: seq<Opening>, made: seq<Sealing>, wire: seq<Sealing>, stamps: seq<nat>)

  const BOX_SEED_KEY := "codex_nomad.mobile_box_seed.v1"
  const SEQUENCE_PREFIX := "codex_nomad.mobile_sequence.v1."

  // CryptoService.

  function NewCrypto(own: KeyPair, initial: nat, sid: string): Crypto {
    Crypto(own, false, None, initial, 0, false, sid, [])
  }

  /** The new state, and whether the call returned normally. */
  function SetPeerPublicKey(c: Crypto, encoded: string): (Crypto, bool) {
    match Base64.UrlNoPadDecode(encoded)
    case None => (c, false)
    case Some(raw) =>
      if |raw| != 32 || c.disposed then (c.(hasPeer := true), false)
      else (c.(hasPeer := true, shared := Some(Agree(c.own, raw))), true)
  }

  predicate CanSeal(c: Crypto) {
    c.hasPeer && c.shared.Some?
  }

  /** The counter moves before encryption, which may still throw (`fate` None). */
  function SealNext(c: Crypto, typ: string, data: string, sid: string, fate: Option<Nonce>): (Crypto, Option<Sealing>)
    requires CanSeal(c)
  {
    (c.(num := c.num + 1),
     match fate
     case None => None
     case Some(nonce) => Some(Sealing(c.shared.value, nonce, PlainMessage(typ, sid, c.num + 1, data))))
  }

  /** The part of open that follows decryption. */
  function FinishOpen(c: Crypto, key: SharedKey, env: Envelope): (Crypto, bool) {
    match PhoneOpen(key, env)
    case Err(_) => (c, false)
    case Ok(msg) =>
      if env.num <= c.lastPeerNum then (c, false)
      else (c.(lastPeerNum := env.num, accepted := c.accepted + [Received(key, msg)]), true)
  }

  // LocalDeviceKeyStore.

  function LoadSequence(storage: map<string, string>, sid: string): nat {
    if SEQUENCE_PREFIX + sid !in storage then 0
    else Decimal.Parse(storage[SEQUENCE_PREFIX + sid]).GetOr(0)
  }

  function SaveSequence(storage: map<string, string>, sid: string, n: nat): map<string, string> {
    storage[SEQUENCE_PREFIX + sid := Decimal.Print(n)]
  }

  /** The stored seed; a new one when none of the right length is stored; None when the
      stored text does not decode or a storage call throws. */
  function LoadOrCreateSeed(storage: map<string, string>, random: Seed, works: bool):
    Option<(map<string, string>, Seed)>
  {
    var create := (storage[BOX_SEED_KEY := Base64.UrlNoPadEncode(random)], random);
    if !works then None
    else if BOX_SEED_KEY !in storage || storage[BOX_SEED_KEY] == "" then Some(create)
    else
      match Base64.UrlNoPadDecode(storage[BOX_SEED_KEY])
      case None => None
      case Some(seed) => if |seed| == 32 then Some((storage, seed)) else Some(create)
  }

  lemma SequenceKeysDistinct(sid: string, other: string)
    ensures SEQUENCE_PREFIX + sid == SEQUENCE_PREFIX + other ==> sid == other
    ensures SEQUENCE_PREFIX + sid != BOX_SEED_KEY
  {
    var n := |SEQUENCE_PREFIX|;
    assert (SEQUENCE_PREFIX + sid)[n..] == sid && (SEQUENCE_PREFIX + other)[n..] == other;
    assert (SEQUENCE_PREFIX + sid)[19] == 's' && BOX_SEED_KEY[19] == 'b';
  }

  /** A saved counter is loaded back, and disturbs no other session's counter or the seed. */
  lemma SavedThenLoaded(storage: map<string, string>, sid: string, n: nat, other: string)
    ensures LoadSequence(SaveSequence(storage, sid, n), other)
         == if other == sid then n else LoadSequence(storage, other)
    ensures BOX_SEED_KEY in storage ==> SaveSequence(storage, sid, n)[BOX_SEED_KEY] == storage[BOX_SEED_KEY]
  {
    SequenceKeysDistinct(sid, other);
    Decimal.ParsePrint(n);
  }

  lemma SeedLeavesCounters(storage: map<string, string>, random: Seed, works: bool, sid: string)
    ensures var r := LoadOrCreateSeed(storage, random, works);
            r.Some? ==> LoadSequence(r.value.0, sid) == LoadSequence(storage, sid)
  {
    hide Base64.UrlNoPadDecode, Base64.UrlNoPadEncode;
    SequenceKeysDistinct(sid, sid);
  }

  // RelayService.

  datatype Step =
    | Connect(to: Pairing, random: Seed, seedWorks: bool, counterWorks: bool, dialWorks: bool)
    | Seal(typ: string, data: string, fate: Option<Nonce>)
    | Save(at: nat, works: bool)
    | Send(at: nat)
    | Close
    | Crash
    | PeerKey(encoded: string)
    | StartOpen(env: Envelope)
    | EndOpen(which: nat)

  predicate CanResume(s: State, to: Pairing) {
    s.current.Some? && s.pairing.Some? && s.pairing.value.sid == to.sid
  }

  /** Connect once a CryptoService object is in place. */
  function Dial(s: State, to: Pairing, dialWorks: bool): State
    requires s.current.Some? && s.current.value < |s.objects|
  {
    var k := s.current.value;
    var (c, keyed) := SetPeerPublicKey(s.objects[k], to.publicKey);
    var s' := s.(objects := s.objects[k := c]);
    if keyed && dialWorks then s'.(online := true, ready := true) else s'
  }

  function Disposed(objects: seq<Crypto>, current: Option<nat>): (r: seq<Crypto>)
    requires current.Some? ==> current.value < |objects|
    ensures |r| == |objects|
  {
    if current.None? then objects
    else objects[current.value := objects[current.value].(disposed := true)]
  }

  /** Replace the CryptoService object; false when a storage call throws on the way. */
  function Renew(derive: Derive, s: State, step: Step): (r: (State, bool))
    requires step.Connect?
    requires s.current.Some? ==> s.current.value < |s.objects|
    ensures r.1 ==> r.0.current.Some? && r.0.current.value < |r.0.objects|
  {
    var t := s.(objects := Disposed(s.objects, s.current));
    match LoadOrCreateSeed(s.storage, step.random, step.seedWorks)
    case None => (t, false)
    case Some((storage, seed)) =>
      var seeded := t.(storage := storage);
      if !step.counterWorks then (seeded, false)
      else
        var c := NewCrypto(KeyPair(derive(seed)), LoadSequence(storage, step.to.sid), step.to.sid);
        (seeded.(objects := seeded.objects + [c], current := Some(|seeded.objects|)), true)
  }

  function ConnectTo(derive: Derive, s: State, step: Step): State
    requires step.Connect?
    requires s.current.Some? ==> s.current.value < |s.objects|
  {
    var left := s.(online := false, ready := false, pairing := Some(step.to));
    if CanResume(s, step.to) then Dial(left, step.to, step.dialWorks)
    else
      var (t, ok) := Renew(derive, left, step);
      if ok then Dial(t, step.to, step.dialWorks) else t
  }

  function Without<T>(list: seq<T>, i: nat): seq<T>
    requires i < |list|
  {
    list[..i] + list[i + 1..]
  }

  /** Steps of different sendCommand calls, and of connects and closes between them, may
      come in any order. A save stores what the counter is when it starts. */
  function Next(derive: Derive, s: State, step: Step): State
    requires Sound(s)
  {
    match step
    case Connect(_, _, _, _, _) => ConnectTo(derive, s, step)
    case Seal(typ, data, fate) =>
      if s.current.None? || s.pairing.None? || !CanSeal(s.objects[s.current.value]) then s
      else
        var k, sid := s.current.value, s.pairing.value.sid;
        var (c, box) := SealNext(s.objects[k], typ, data, sid, fate);
        var t := s.(objects := s.objects[k := c]);
        if box.None? then t
        else t.(tasks := s.tasks + [Sealed(k, sid, box.value, |s.made|)], made := s.made + [box.value])
    case Save(i, works) =>
      if i >= |s.tasks| || !s.tasks[i].Sealed? then s
      else if !works then s.(tasks := Without(s.tasks, i))
      else
        var t := s.tasks[i];
        s.(storage := SaveSequence(s.storage, t.sid, s.objects[t.crypto].num),
           tasks := s.tasks[i := Saved(t.sid, t.box, t.stamp)])
    case Send(i) =>
      if i >= |s.tasks| || !s.tasks[i].Saved? then s
      else
        var t := s.(tasks := Without(s.tasks, i));
        if s.online then t.(wire := s.wire + [s.tasks[i].box], stamps := s.stamps + [s.tasks[i].stamp]) else t
    case Close =>
      s.(objects := Disposed(s.objects, s.current), current := None, pairing := None, online := false, ready := false)
    case Crash =>
      s.(current := None, pairing := None, online := false, ready := false, tasks := [], opening := [])
    case PeerKey(encoded) =>
      if s.current.None? || encoded == "" then s
      else
        var k := s.current.value;
        s.(objects := s.objects[k := SetPeerPublicKey(s.objects[k], encoded).0])
    case StartOpen(env) =>
      if s.current.None? || !CanSeal(s.objects[s.current.value]) then s
      else s.(opening := s.opening + [Opening(s.current.value, s.objects[s.current.value].shared.value, env)])
    case EndOpen(i) =>
      if i >= |s.opening| then s
      else
        var o := s.opening[i];
        s.(opening := s.opening[..i] + s.opening[i + 1..],
           objects := s.objects[o.crypto := FinishOpen(s.objects[o.crypto], o.key, o.env).0])
  }

  /** References point at existing objects. */
  ghost predicate Sound(s: State) {
    && (s.current.Some? ==> s.current.value < |s.objects|)
    && (forall t :: t in s.tasks && t.Sealed? ==> t.crypto < |s.objects|)
    && (forall o :: o in s.opening ==> o.crypto < |s.objects|)
  }

  lemma NextSound(derive: Derive, s: State, step: Step)
    requires Sound(s)
    ensures Sound(Next(derive, s, step))
    ensures |s.objects| <= |Next(derive, s, step).objects|
  {
    hide SetPeerPublicKey, ConnectTo, SaveSequence, FinishOpen, Without;
    match step
    case Connect(_, _, _, _, _) => ConnectSound(derive, s, step);
    case Save(i, _) => if i < |s.tasks| { FewerTasks(s.tasks, i); }
    case Send(i) => if i < |s.tasks| { FewerTasks(s.tasks, i); }
    case EndOpen(i) =>
      if i < |s.opening| { assert forall o :: o in s.opening[..i] + s.opening[i + 1..] ==> o in s.opening; }
    case _ =>
  }

  lemma FewerTasks<T>(list: seq<T>, i: nat)
    requires i < |list|
    ensures forall t :: t in Without(list, i) ==> t in list
  {
  }

  lemma ConnectSound(derive: Derive, s: State, step: Step)
    requires Sound(s) && step.Connect?
    ensures Sound(ConnectTo(derive, s, step)) && |s.objects| <= |ConnectTo(derive, s, step).objects|
  {
    hide SetPeerPublicKey, LoadOrCreateSeed, LoadSequence, Disposed;
  }

  function Start(storage: map<string, string>): State {
    State(storage, [], None, None, false, false, [], [], [], [], [])
  }

  function Run(derive: Derive, s: State, steps: seq<Step>): (r: State)
    requires Sound(s)
    ensures Sound(r)
  {
    if steps == [] then s
    else
      var before := Run(derive, s, steps[..|steps| - 1]);
      NextSound(derive, before, steps[|steps| - 1]);
      Next(derive, before, steps[|steps| - 1])
  }

  // Runs.

  lemma RunNone(derive: Derive, s: State)
    requires Sound(s)
    ensures Run(derive, s, []) == s
  {
  }

  lemma RunMore(derive: Derive, s: State, steps: seq<Step>, step: Step)
    requires Sound(s)
    ensures Run(derive, s, steps + [step]) == Next(derive, Run(derive, s, steps), step)
  {
    assert (steps + [step])[..|steps|] == steps;
  }

  lemma RunTwo(derive: Derive, s: State, a: Step, b: Step)
    requires Sound(s)
    ensures Sound(Next(derive, s, a))
    ensures Run(derive, s, [a, b]) == Next(derive, Next(derive, s, a), b)
  {
    hide Next, Run;
    NextSound(derive, s, a);
    RunNone(derive, s);
    RunMore(derive, s, [], a);
    RunMore(derive, s, [a], b);
    assert [] + [a] == [a] && [a] + [b] == [a, b];
  }

  lemma RunThree(derive: Derive, s: State, a: Step, b: Step, c: Step)
    requires Sound(s)
    ensures Sound(Next(derive, s, a)) && Sound(Next(derive, Next(derive, s, a), b))
    ensures Run(derive, s, [a, b, c]) == Next(derive, Next(derive, Next(derive, s, a), b), c)
  {
    hide Next, Run;
    RunTwo(derive, s, a, b);
    NextSound(derive, Next(derive, s, a), b);
    RunMore(derive, s, [a, b], c);
    assert [a, b] + [c] == [a, b, c];
  }

  lemma {:induction false} RunConcat(derive: Derive, s: State, a: seq<Step>, b: seq<Step>)
    requires Sound(s)
    ensures Run(derive, s, a + b) == Run(derive, Run(derive, s, a), b)
  {
    if b == [] {
      assert a + b == a;
    } else {
      var front, step := b[..|b| - 1], b[|b| - 1];
      hide Run, Next;
      RunConcat(derive, s, a, front);
      RunMore(derive, s, a + front, step);
      RunMore(derive, Run(derive, s, a), front, step);
      LastApart(a, b);
    }
  }

  // What a step leaves alone.

  lemma WireGrows(derive: Derive, s: State, step: Step)
    requires Sound(s)
    ensures s.wire <= Next(derive, s, step).wire
  {
    hide SetPeerPublicKey, LoadOrCreateSeed, LoadSequence, SaveSequence, FinishOpen;
  }

  lemma OpenedCarried(key: SharedKey, env: Envelope)
    requires PhoneOpen(key, env).Ok?
    ensures Carried(key, env) == Some(PhoneOpen(key, env).value) && PhoneOpen(key, env).value.num == env.num
  {
    hide Base64.UrlNoPadDecode;
  }

  lemma SetPeerKeepsAccepted(c: Crypto, encoded: string)
    ensures var d := SetPeerPublicKey(c, encoded).0; d.accepted == c.accepted && d.lastPeerNum == c.lastPeerNum
  {
    hide Base64.UrlNoPadDecode;
  }

  /** A step leaves each object's accepted messages alone, except that finishing an open
      lets the object it belongs to accept one, and a connect may add an object that has
      accepted nothing. */
  lemma ConnectObjects(derive: Derive, s: State, step: Step, i: nat)
    requires Sound(s) && step.Connect? && i < |ConnectTo(derive, s, step).objects|
    ensures var d := ConnectTo(derive, s, step).objects[i];
            if i >= |s.objects| then d.accepted == []
            else d.accepted == s.objects[i].accepted && d.lastPeerNum == s.objects[i].lastPeerNum
  {
    hide SetPeerPublicKey, LoadOrCreateSeed, LoadSequence;
    forall c: Crypto, encoded
      ensures var d := SetPeerPublicKey(c, encoded).0; d.accepted == c.accepted && d.lastPeerNum == c.lastPeerNum
    {
      SetPeerKeepsAccepted(c, encoded);
    }
  }

  lemma ObjectsChange(derive: Derive, s: State, step: Step, i: nat)
    requires Sound(s) && i < |Next(derive, s, step).objects|
    ensures var d := Next(derive, s, step).objects[i];
            if i >= |s.objects| then d.accepted == []
            else if step.EndOpen? && step.which < |s.opening| && i == s.opening[step.which].crypto then
              d == FinishOpen(s.objects[i], s.opening[step.which].key, s.opening[step.which].env).0
            else d.accepted == s.objects[i].accepted && d.lastPeerNum == s.objects[i].lastPeerNum
  {
    hide SetPeerPublicKey, SaveSequence, FinishOpen, ConnectTo;
    if step.Connect? {
      ConnectObjects(derive, s, step, i);
    } else if step.PeerKey? && s.current.Some? {
      SetPeerKeepsAccepted(s.objects[s.current.value], step.encoded);
    }
  }

  lemma OpeningsChange(derive: Derive, s: State, step: Step, o: Opening)
    requires Sound(s) && o in Next(derive, s, step).opening
    ensures o in s.opening || (step.StartOpen? && o.env == step.env)
  {
    hide SetPeerPublicKey, LoadOrCreateSeed, LoadSequence, SaveSequence, FinishOpen;
  }

  ghost predicate PositiveNumbers(s: State) {
    && (forall x :: x in s.wire ==> x.msg.num > 0)
    && (forall t :: t in s.tasks ==> t.box.msg.num > 0)
  }

  lemma NextPositive(derive: Derive, s: State, step: Step)
    requires Sound(s) && PositiveNumbers(s)
    ensures PositiveNumbers(Next(derive, s, step))
  {
    hide SetPeerPublicKey, LoadOrCreateSeed, LoadSequence, SaveSequence, FinishOpen;
  }

  lemma {:induction false} RunPositive(derive: Derive, s: State, steps: seq<Step>)
    requires Sound(s) && PositiveNumbers(s)
    ensures PositiveNumbers(Run(derive, s, steps))
  {
    hide Next, PositiveNumbers;
    if steps != [] {
      RunPositive(derive, s, steps[..|steps| - 1]);
      NextPositive(derive, Run(derive, s, steps[..|steps| - 1]), steps[|steps| - 1]);
    }
  }

  lemma ConnectLeaves(derive: Derive, s: State, step: Step)
    requires Sound(s) && step.Connect?
    ensures var r := ConnectTo(derive, s, step);
            r.tasks == s.tasks && r.made == s.made && r.wire == s.wire && r.stamps == s.stamps && r.opening == s.opening
  {
    hide SetPeerPublicKey, LoadOrCreateSeed, LoadSequence, Disposed;
  }

  lemma SetPeerKeepsNumbers(s: State, encoded: string)
    requires Sound(s)
    ensures s.current.Some? ==>
              var c := s.objects[s.current.value];
              var d := SetPeerPublicKey(c, encoded).0;
              d.num == c.num && d.sid == c.sid && d.disposed == c.disposed
  {
    hide Base64.UrlNoPadDecode;
  }

  lemma FinishOpenKeepsNumbers(c: Crypto, key: SharedKey, env: Envelope)
    ensures var d := FinishOpen(c, key, env).0;
            d.num == c.num && d.sid == c.sid && d.disposed == c.disposed
  {
    hide PhoneOpen;
  }

  lemma SaveLeavesSeed(storage: map<string, string>, sid: string, n: nat, random: Seed)
    ensures LoadOrCreateSeed(storage, random, true).Some?
            <==> LoadOrCreateSeed(SaveSequence(storage, sid, n), random, true).Some?
  {
    hide Base64.UrlNoPadDecode;
    SequenceKeysDistinct(sid, sid);
  }

  lemma SeedStays(storage: map<string, string>, random: Seed)
    requires LoadOrCreateSeed(storage, random, true).Some?
    ensures LoadOrCreateSeed(LoadOrCreateSeed(storage, random, true).value.0, random, true).Some?
  {
    hide Base64.UrlNoPadDecode, Base64.UrlNoPadEncode, Base64.StdNoPadDecode, Base64.StdNoPadEncode,
         Base64.DecodeRaw, Base64.EncodeRaw;
    Base64.CrossLanguageRoundTrip(random);
  }
}
