/** The objects behind module Sender: the outbound channel and the secureSender, whose
    methods are proved against the step functions. */
module SecureSenderObject {
  import opened Common
  import opened E2ee
  import opened Wire
  import opened Sender

  /** A Go channel used with non-blocking sends. */
  class Channel {
    var items: seq<WireMessage>

    constructor ()
      ensures items == []
    {
      items := [];
    }

    method Offer(msg: WireMessage)
      modifies this
      ensures items == Queue(old(items), msg)
    {
      if |items| < OUTBOUND_CAP {
        items := items + [msg];
      }
    }
  }

  class SecureSender {
    const sessionID: string
    const kp: KeyPair
    const tape: Tape
    const outbound: Channel
    var peer: PublicKey
    var peerKey: string
    var peerDevID: string
    var hasPeer: bool
    var num: nat
    var lastRecv: nat
    var buffer: array<Event>
    var count: nat
    ghost var sealed: seq<Sealing>
    ghost var accepted: seq<PlainMessage>

    ghost predicate Valid()
      reads this
    {
      count <= buffer.Length && count <= BUFFER_CAP
    }

    ghost function View(): State
      requires Valid()
      reads this, buffer, outbound
    {
      State(sessionID, kp, if hasPeer then Some(Peer(peer, peerKey, peerDevID)) else None,
            num, lastRecv, outbound.items, buffer[..count], sealed, accepted)
    }

    constructor (sessionID: string, kp: KeyPair, tape: Tape, outbound: Channel)
      ensures Valid() && fresh(buffer) && this.outbound == outbound && this.tape == tape
      ensures View() == Fresh(sessionID, kp).(outbound := outbound.items)
    {
      this.sessionID, this.kp, this.tape, this.outbound := sessionID, kp, tape, outbound;
      peer, peerKey, peerDevID, hasPeer := seq(32, _ => 0), "", "", false;
      num, lastRecv, count := 0, 0, 0;
      buffer := new Event[0];
      sealed, accepted := [], [];
    }

    method PeerIdentity() returns (deviceId: string, key: string, ok: bool)
      requires Valid()
      ensures ok == View().peer.Some?
      ensures ok ==> deviceId == View().peer.value.deviceId && key == View().peer.value.encoded
    {
      deviceId, key, ok := peerDevID, peerKey, hasPeer;
    }

    method SealAndQueue(ev: Event)
      requires Valid() && hasPeer
      modifies this`num, this`sealed, outbound
      ensures Valid() && View() == SendLocked(tape, old(View()), ev)
    {
      num := num + 1;
      var fate := tape(num);
      if fate.None? {
        return;
      }
      var msg := PlainMessage(ev.typ, sessionID, num, ev.data);
      var env := Seal(kp, peer, "daemon", fate.value, msg);
      sealed := sealed + [Sealing(Agree(kp, peer), fate.value, msg)];
      outbound.Offer(Cipher(sessionID, "daemon", env));
    }

    /** Append, growing the backing array when it is full. */
    method Append(ev: Event)
      requires count <= buffer.Length
      modifies this`buffer, this`count, buffer
      ensures count == old(count) + 1 <= buffer.Length
      ensures buffer[..count] == old(buffer[..count]) + [ev]
      ensures buffer == old(buffer) || fresh(buffer)
    {
      if count == buffer.Length {
        var grown := new Event[2 * count + 1](_ => ev);
        forall i | 0 <= i < count {
          grown[i] := buffer[i];
        }
        buffer := grown;
      }
      buffer[count] := ev;
      count := count + 1;
    }

    /** Go's copy over an overlapping range: elements move down in place. */
    method MoveDown(from: nat)
      requires from + BUFFER_CAP == count <= buffer.Length
      modifies buffer
      ensures buffer[..BUFFER_CAP] == old(buffer[from..count])
    {
      ghost var was := buffer[..count];
      var i := 0;
      while i < BUFFER_CAP
        invariant 0 <= i <= BUFFER_CAP
        invariant buffer[..i] == was[from..from + i]
        invariant buffer[i..count] == was[i..]
      {
        assert buffer[from + i] == buffer[i..count][from] == was[from + i];
        buffer[i] := buffer[from + i];
        assert buffer[..i + 1] == was[from..from + i] + [was[from + i]];
        i := i + 1;
      }
    }

    method Send(ev: Event, bufferUntilPaired: bool)
      requires Valid()
      modifies this`num, this`sealed, this`buffer, this`count, buffer, outbound
      ensures Valid() && (buffer == old(buffer) || fresh(buffer))
      ensures View() == Sender.Send(tape, old(View()), ev, bufferUntilPaired)
    {
      if hasPeer {
        SealAndQueue(ev);
      } else if bufferUntilPaired {
        Append(ev);
        if count > BUFFER_CAP {
          MoveDown(count - BUFFER_CAP);
          count := BUFFER_CAP;
        }
      }
    }

    method Flush()
      requires Valid() && hasPeer
      modifies this, outbound
      ensures Valid() && fresh(buffer) && hasPeer && lastRecv == old(lastRecv)
      ensures View() == SendAll(tape, old(View()), old(View()).buffer).(buffer := [])
    {
      hide SendAll, SendLocked;
      ghost var start := View();
      assert SendAll(tape, start, start.buffer[..0]) == start by { SendAllNone(tape, start, start.buffer[..0]); }
      var i := 0;
      while i < count
        invariant 0 <= i <= count == old(count) && buffer == old(buffer) && Valid() && hasPeer
        invariant buffer[..count] == start.buffer && lastRecv == old(lastRecv)
        invariant View() == SendAll(tape, start, start.buffer[..i])
      {
        SendAllOneMore(tape, start, start.buffer, i);
        SealAndQueue(buffer[i]);
        i := i + 1;
      }
      assert start.buffer[..i] == start.buffer;
      buffer, count := new Event[0], 0;
    }

    method SetPeer(encoded: string, deviceId: string) returns (ok: bool)
      requires Valid()
      modifies this, outbound
      ensures Valid() && (buffer == old(buffer) || fresh(buffer))
      ensures ok <==> Sender.SetPeer(tape, old(View()), encoded, deviceId).Some?
      ensures View() == if ok then Sender.SetPeer(tape, old(View()), encoded, deviceId).value else old(View())
    {
      hide ParsePublicKey, SendAll;
      var parsed := ParsePublicKey(encoded);
      if parsed.None? {
        return false;
      }
      if !hasPeer || peerKey != encoded {
        lastRecv := 0;
        accepted := [];
      }
      peer, peerKey, peerDevID, hasPeer := parsed.value, encoded, deviceId, true;
      Flush();
      return true;
    }

    method Open(env: Envelope) returns (r: Result<PlainMessage, RecvError>)
      requires Valid()
      modifies this`lastRecv, this`accepted
      ensures Valid() && (View(), r) == Receive(old(View()), env)
    {
      if !hasPeer {
        return Err(NotPaired);
      }
      var plain := E2ee.Open(kp, peer, env);
      if plain.Err? {
        return Err(Refused(plain.error));
      }
      if env.num <= lastRecv {
        return Err(Replayed);
      }
      lastRecv := env.num;
      accepted := accepted + [plain.value];
      return Ok(plain.value);
    }
  }
}
