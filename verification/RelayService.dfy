/** The phone's objects: CryptoService, the key store and RelayService, proved against the
    steps of module Phone. */
module RelayServiceObject {
  import opened Common
  import opened E2ee
  import opened Phone
  import Base64
  import Decimal

  class CryptoService {
    const own: KeyPair
    ghost const sid: string
    var hasPeer: bool
    var sharedKey: Option<SharedKey>
    var num: nat
    var lastPeerNum: nat
    var disposed: bool
    ghost var accepted: seq<Received>

    ghost function View(): Crypto
      reads this
    {
      Crypto(own, hasPeer, sharedKey, num, lastPeerNum, disposed, sid, accepted)
    }

    constructor (own: KeyPair, initial: nat, ghost sid: string)
      ensures View() == NewCrypto(own, initial, sid)
    {
      this.own, this.sid := own, sid;
      hasPeer, sharedKey, num, lastPeerNum, disposed := false, None, initial, 0, false;
      accepted := [];
    }

    method SetPeerPublicKey(encoded: string) returns (ok: bool)
      modifies this
      ensures (View(), ok) == Phone.SetPeerPublicKey(old(View()), encoded)
    {
      var raw := Base64.UrlNoPadDecode(encoded);
      if raw.None? {
        return false;
      }
      hasPeer := true;
      if |raw.value| != 32 || disposed {
        return false;
      }
      sharedKey := Some(Agree(own, raw.value));
      return true;
    }

    /** None when sealing throws. */
    method Seal(sessionId: string, typ: string, data: string, fate: Option<Nonce>) returns (box: Option<Sealing>)
      modifies this
      ensures if CanSeal(old(View())) then (View(), box) == SealNext(old(View()), typ, data, sessionId, fate)
              else View() == old(View()) && box == None
    {
      if sharedKey.None? || !hasPeer {
        return None;
      }
      num := num + 1;
      if fate.None? {
        return None;
      }
      return Some(Sealing(sharedKey.value, fate.value, PlainMessage(typ, sessionId, num, data)));
    }

    /** None when opening throws. */
    method Open(env: Envelope) returns (msg: Option<PlainMessage>)
      modifies this
      ensures if CanSeal(old(View())) then
                View() == FinishOpen(old(View()), old(sharedKey).value, env).0
                && msg == if FinishOpen(old(View()), old(sharedKey).value, env).1
                          then Some(PhoneOpen(old(sharedKey).value, env).value) else None
              else View() == old(View()) && msg == None
      ensures msg.Some? ==>
                old(sharedKey).Some? && accepted == old(accepted) + [Received(old(sharedKey).value, msg.value)]
      ensures msg.None? ==> accepted == old(accepted)
    {
      hide PhoneOpen;
      if sharedKey.None? || !hasPeer {
        return None;
      }
      var plain := PhoneOpen(sharedKey.value, env);
      if plain.Err? || env.num <= lastPeerNum {
        return None;
      }
      lastPeerNum := env.num;
      accepted := accepted + [Received(sharedKey.value, plain.value)];
      return Some(plain.value);
    }

    method Dispose()
      modifies this
      ensures View() == old(View()).(disposed := true)
    {
      disposed := true;
    }
  }

  class KeyStore {
    var storage: map<string, string>

    constructor (storage: map<string, string>)
      ensures this.storage == storage
    {
      this.storage := storage;
    }

    /** None when the call throws; the storage is then unchanged. */
    method LoadOrCreateBoxSeed(random: Seed, works: bool) returns (seed: Option<Seed>)
      modifies this
      ensures match LoadOrCreateSeed(old(storage), random, works)
              case None => seed == None && storage == old(storage)
              case Some((after, s)) => seed == Some(s) && storage == after
    {
      hide Base64.UrlNoPadDecode, Base64.UrlNoPadEncode;
      if !works {
        return None;
      }
      if BOX_SEED_KEY in storage && storage[BOX_SEED_KEY] != "" {
        var raw := Base64.UrlNoPadDecode(storage[BOX_SEED_KEY]);
        if raw.None? {
          return None;
        }
        if |raw.value| == 32 {
          return Some(raw.value);
        }
      }
      storage := storage[BOX_SEED_KEY := Base64.UrlNoPadEncode(random)];
      return Some(random);
    }

    method LoadSequence(sid: string) returns (n: nat)
      ensures n == Phone.LoadSequence(storage, sid)
    {
      var key := SEQUENCE_PREFIX + sid;
      if key !in storage {
        return 0;
      }
      return Decimal.Parse(storage[key]).GetOr(0);
    }

    method SaveSequence(sid: string, n: nat, works: bool) returns (ok: bool)
      modifies this
      ensures ok == works
      ensures storage == if works then Phone.SaveSequence(old(storage), sid, n) else old(storage)
    {
      if works {
        storage := storage[SEQUENCE_PREFIX + sid := Decimal.Print(n)];
      }
      return works;
    }
  }

  /** `created` lists every CryptoService object ever made, the `current`-th of which is in
      use unless `crypto` is null. `calls` are the sendCommand calls waiting at an await,
      each with the object it captured; `made` is what was sealed and `sent` what reached a
      socket. */
  class RelayService {
    const derive: Derive
    const store: KeyStore
    var crypto: CryptoService?
    var pairing: Option<Pairing>
    var online: bool
    var sent: seq<Sealing>
    var calls: seq<Task>
    var created: seq<CryptoService>
    var current: nat
    var made: seq<Sealing>
    ghost var ready: bool
    ghost var stamps: seq<nat>

    ghost predicate Valid()
      reads this
    {
      && (forall t :: t in calls && t.Sealed? ==> t.crypto < |created|)
      && (forall i, j :: 0 <= i < j < |created| ==> created[i] != created[j])
      && (crypto != null ==> current < |created| && created[current] == crypto)
    }

    ghost function Objects(): (objects: seq<Crypto>)
      reads this, created
      ensures |objects| == |created|
      ensures forall i :: 0 <= i < |created| ==> objects[i] == created[i].View()
    {
      seq(|created|, i requires 0 <= i < |created| reads this, created => created[i].View())
    }

    ghost function View(): (s: State)
      requires Valid()
      reads this, created, store
      ensures Sound(s)
    {
      State(store.storage, Objects(), if crypto == null then None else Some(current), pairing, online, ready,
            calls, [], made, sent, stamps)
    }

    constructor (derive: Derive, storage: map<string, string>)
      ensures Valid() && fresh(store) && this.derive == derive && View() == Start(storage)
    {
      this.derive := derive;
      store := new KeyStore(storage);
      crypto, pairing, online, sent, calls, created := null, None, false, [], [], [];
      ready, current, made, stamps := false, 0, [], [];
    }

    method CanResume(to: Pairing) returns (yes: bool)
      requires Valid()
      ensures yes <==> Phone.CanResume(View(), to)
    {
      return crypto != null && pairing.Some? && pairing.value.sid == to.sid;
    }

    method DisposeCrypto()
      requires Valid()
      modifies crypto
      ensures Valid() && View() == old(View()).(objects := Disposed(old(View()).objects, old(View()).current))
    {
      if crypto != null {
        ghost var before := Objects();
        crypto.Dispose();
        assert Objects() == before[current := before[current].(disposed := true)];
      }
    }

    method Dial(to: Pairing, dialWorks: bool) returns (ok: bool)
      requires Valid() && crypto != null
      modifies this`online, this`ready, crypto
      ensures Valid() && View() == Phone.Dial(old(View()), to, dialWorks)
      ensures ready == (old(ready) || ok)
    {
      hide Phone.SetPeerPublicKey;
      ghost var before := Objects();
      var keyed := crypto.SetPeerPublicKey(to.publicKey);
      assert Objects() == before[current := Phone.SetPeerPublicKey(before[current], to.publicKey).0];
      if !keyed || !dialWorks {
        return false;
      }
      online, ready := true, true;
      return true;
    }

    method Adopt(keys: KeyPair, initial: nat, sid: string)
      requires Valid()
      modifies this`crypto, this`current, this`created
      ensures Valid() && fresh(crypto) && crypto != null && created == old(created) + [crypto]
      ensures View() == old(View()).(objects := old(View()).objects + [NewCrypto(keys, initial, sid)],
                                     current := Some(|old(View()).objects|))
    {
      ghost var before := Objects();
      var made := new CryptoService(keys, initial, sid);
      crypto, current, created := made, |created|, created + [made];
      assert Objects() == before + [NewCrypto(keys, initial, sid)];
    }

    method Renew(to: Pairing, random: Seed, seedWorks: bool, counterWorks: bool, ghost dialWorks: bool)
      returns (ok: bool)
      requires Valid()
      modifies this`crypto, this`current, this`created, store, crypto
      ensures Valid() && (crypto == old(crypto) || fresh(crypto)) && old(created) <= created
      ensures (View(), ok) ==
              Phone.Renew(derive, old(View()), Step.Connect(to, random, seedWorks, counterWorks, dialWorks))
    {
      hide Phone.LoadSequence, LoadOrCreateSeed, NewCrypto, Disposed;
      DisposeCrypto();
      var seed := store.LoadOrCreateBoxSeed(random, seedWorks);
      if seed.None? {
        return false;
      }
      if !counterWorks {
        return false;
      }
      var initial := store.LoadSequence(to.sid);
      Adopt(KeyPair(derive(seed.value)), initial, to.sid);
      return true;
    }

    method Connect(to: Pairing, random: Seed, seedWorks: bool, counterWorks: bool, dialWorks: bool) returns (ok: bool)
      requires Valid()
      modifies this, store, crypto
      ensures Valid() && (crypto == old(crypto) || fresh(crypto)) && old(created) <= created
      ensures View() == ConnectTo(derive, old(View()), Step.Connect(to, random, seedWorks, counterWorks, dialWorks))
      ensures ok <==> ready
    {
      hide Phone.Dial, Phone.Renew;
      var reuse := CanResume(to);
      ghost var before := View();
      online, ready, pairing := false, false, Some(to);
      assert Objects() == before.objects;
      if !reuse {
        var renewed := Renew(to, random, seedWorks, counterWorks, dialWorks);
        if !renewed {
          return false;
        }
      }
      ok := Dial(to, dialWorks);
    }

    /** sendCommand up to its second await: the frame is sealed and the call waits to save. */
    method SealCommand(typ: string, data: string, fate: Option<Nonce>) returns (ok: bool)
      requires Valid()
      modifies this`calls, this`made, crypto
      ensures Valid() && View() == Next(derive, old(View()), Step.Seal(typ, data, fate))
      ensures created == old(created) && |calls| == old(|calls|) + (if ok then 1 else 0)
      ensures |made| == old(|made|) + (if ok then 1 else 0)
      ensures ok ==> calls[|calls| - 1].Sealed?
    {
      hide ConnectTo, Phone.SaveSequence, Without, Disposed, Phone.SetPeerPublicKey, Phone.FinishOpen, CanSeal;
      hide SealNext;
      if pairing.None? || crypto == null {
        return false;
      }
      ghost var before := Objects();
      var box := crypto.Seal(pairing.value.sid, typ, data, fate);
      assert Objects() == before[current := crypto.View()];
      if box.None? {
        return false;
      }
      calls := calls + [Sealed(current, pairing.value.sid, box.value, |made|)];
      made := made + [box.value];
      return true;
    }

    /** The call saves what its object's counter is now; it is given up when that throws. */
    method SaveCounter(at: nat, works: bool) returns (ok: bool)
      requires Valid() && at < |calls| && calls[at].Sealed?
      modifies this`calls, store
      ensures Valid() && View() == Next(derive, old(View()), Step.Save(at, works))
      ensures ok == works && |calls| == old(|calls|) - (if ok then 0 else 1)
      ensures ok ==> calls[at].Saved?
    {
      hide Phone.SaveSequence;
      var call := calls[at];
      ok := store.SaveSequence(call.sid, created[call.crypto].num, works);
      if ok {
        calls := calls[at := Saved(call.sid, call.box, call.stamp)];
      } else {
        FewerTasks(calls, at);
        calls := Without(calls, at);
      }
    }

    /** The call hands its frame to the socket, if there is one, and returns. */
    method Transmit(at: nat)
      requires Valid() && at < |calls| && calls[at].Saved?
      modifies this`calls, this`sent, this`stamps
      ensures Valid() && View() == Next(derive, old(View()), Step.Send(at))
    {
      var call := calls[at];
      FewerTasks(calls, at);
      calls := Without(calls, at);
      if online {
        sent, stamps := sent + [call.box], stamps + [call.stamp];
      }
    }

    /** A sendCommand that nothing comes between; false when it throws. */
    method SendCommand(typ: string, data: string, fate: Option<Nonce>, saveWorks: bool) returns (ok: bool)
      requires Valid()
      modifies this`calls, this`made, this`sent, this`stamps, store, crypto
      ensures Valid() && (ok <==> saveWorks && |made| > old(|made|))
      ensures var at := |old(calls)|;
              View() == Run(derive, old(View()), [Step.Seal(typ, data, fate), Step.Save(at, saveWorks), Step.Send(at)])
    {
      hide Next, Run;
      ghost var before, at := View(), |calls|;
      RunThree(derive, before, Step.Seal(typ, data, fate), Step.Save(at, saveWorks), Step.Send(at));
      ok := SealCommand(typ, data, fate);
      if ok {
        ok := SaveCounter(|calls| - 1, saveWorks);
        if ok {
          Transmit(|calls| - 1);
        } else {
          NoSuchCall(derive, View(), at, saveWorks);
        }
      } else {
        NoSuchCall(derive, View(), at, saveWorks);
      }
    }

    method Close()
      requires Valid()
      modifies this, crypto
      ensures Valid() && View() == Next(derive, old(View()), Step.Close)
    {
      hide Disposed;
      ghost var before := View();
      online, ready := false, false;
      assert View() == before.(online := false, ready := false);
      DisposeCrypto();
      ghost var objects := Objects();
      crypto, pairing := null, None;
      assert Objects() == objects;
    }

    method HandleCiphertext(env: Envelope) returns (msg: Option<PlainMessage>)
      requires Valid()
      modifies crypto
      ensures Valid() && View() == Run(derive, old(View()), [Step.StartOpen(env), Step.EndOpen(0)])
      ensures msg.Some? ==>
                && crypto != null && old(crypto.sharedKey).Some?
                && crypto.accepted == old(crypto.accepted) + [Received(old(crypto.sharedKey).value, msg.value)]
      ensures msg.None? && crypto != null ==> crypto.accepted == old(crypto.accepted)
    {
      hide FinishOpen;
      ghost var s0 := View();
      RunTwo(derive, s0, Step.StartOpen(env), Step.EndOpen(0));
      if crypto == null {
        return None;
      }
      ghost var before := Objects();
      msg := crypto.Open(env);
      assert Objects() == before[current := crypto.View()];
    }

    method HandleDaemonReady(key: string)
      requires Valid()
      modifies crypto
      ensures Valid() && View() == Next(derive, old(View()), Step.PeerKey(key))
    {
      hide Phone.SetPeerPublicKey;
      if key != "" && crypto != null {
        ghost var before := Objects();
        var _ := crypto.SetPeerPublicKey(key);
        assert Objects() == before[current := crypto.View()];
      }
    }
  }

  lemma NoSuchCall(derive: Derive, s: State, at: nat, works: bool)
    requires Sound(s) && at >= |s.tasks|
    ensures Next(derive, s, Step.Save(at, works)) == s && Next(derive, s, Step.Send(at)) == s
  {
  }
}
