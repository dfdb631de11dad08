/** The daemon session object: handleInbound and handleCiphertext over the real sender,
    registry and outbound channel, proved against module Daemon. */
module DaemonSessionObject {
  import opened Common
  import opened E2ee
  import opened Wire
  import opened Sender
  import opened Daemon
  import opened SecureSenderObject
  import opened DeviceRegistryObject
  import Registry

  class Session {
    const sender: SecureSender
    const devices: DeviceRegistry
    const outbound: Channel
    const expires: int
    ghost var executed: seq<Execution>

    ghost predicate Valid()
      reads this, sender
    {
      sender.Valid() && sender.outbound == outbound
    }

    ghost function View(): Daemon.State
      requires Valid()
      reads this, sender, sender.buffer, outbound, devices
    {
      Daemon.State(sender.View(), devices.file, expires, executed)
    }

    constructor (sid: string, kp: KeyPair, tape: Tape, expires: int, file: Registry.File)
      ensures Valid() && fresh(sender) && fresh(sender.buffer) && fresh(devices) && fresh(outbound)
      ensures sender.tape == tape
      ensures View() == Daemon.State(Fresh(sid, kp), file, expires, [])
    {
      var out := new Channel();
      outbound := out;
      sender := new SecureSender(sid, kp, tape, out);
      devices := new DeviceRegistry(file);
      this.expires := expires;
      executed := [];
    }

    method ReplyAll(evs: seq<Event>)
      requires Valid() && sender.hasPeer
      modifies sender, sender.buffer, outbound
      ensures Valid() && (sender.buffer == old(sender.buffer) || fresh(sender.buffer))
      ensures sender.View() == SendAll(sender.tape, old(sender.View()), evs)
    {
      hide SendAll, SendLocked;
      SendAllNone(sender.tape, sender.View(), evs[..0]);
      for i := 0 to |evs|
        invariant Valid() && sender.hasPeer && (sender.buffer == old(sender.buffer) || fresh(sender.buffer))
        invariant sender.View() == SendAll(sender.tape, old(sender.View()), evs[..i])
      {
        SendAllOneMore(sender.tape, old(sender.View()), evs, i);
        assert sender.View().peer.Some?;
        sender.Send(evs[i], false);
        assert sender.View().peer.Some?;
      }
      assert evs[..|evs|] == evs;
    }

    method ReportFailure(why: string)
      requires Valid()
      modifies sender, sender.buffer, outbound
      ensures Valid() && (sender.buffer == old(sender.buffer) || fresh(sender.buffer))
      ensures View() == Fail(sender.tape, old(View()), why)
    {
      sender.Send(Event("error", why), false);
    }

    method PairWith(key: string, deviceId: string, deviceName: string)
      requires Valid()
      modifies sender, sender.buffer, outbound
      ensures Valid() && (sender.buffer == old(sender.buffer) || fresh(sender.buffer))
      ensures View() == Pair(sender.tape, old(View()), key, deviceId, deviceName)
    {
      hide Sender.SetPeer, SendLocked, ParsePublicKey, EncodePublicKey;
      var ok := sender.SetPeer(key, deviceId);
      if !ok {
        return;
      }
      outbound.Offer(WireMessage("daemon_ready", sender.sessionID, "daemon", EncodePublicKey(sender.kp.public),
                                 deviceId, "", NoPayload));
      ghost var paired := Sender.SetPeer(sender.tape, old(sender.View()), key, deviceId).value;
      assert View() == Announce(old(View()).(sender := paired), Ready(old(View()), deviceId)) by {
        SetPeerKeepsIdentity(sender.tape, old(sender.View()), key, deviceId);
      }
      sender.Send(Event("session_ready", deviceId + " " + deviceName), false);
    }

    method HandleHello(msg: WireMessage, w: World)
      requires Valid()
      modifies sender, sender.buffer, outbound, devices
      ensures Valid() && (sender.buffer == old(sender.buffer) || fresh(sender.buffer))
      ensures View() == Hello(sender.tape, old(View()), msg, w)
    {
      hide Pair, Registry.Apply, Registry.IsAuthorized, ParsePublicKey;
      var (key, deviceId, deviceName) := HelloIdentity(msg);
      if deviceId == "" {
        outbound.Offer(Notice("device_identity_required", sender.sessionID, "daemon"));
        return;
      }
      var known := devices.IsAuthorized(deviceId, key);
      if w.now > expires && !known {
        outbound.Offer(Notice("pairing_expired", sender.sessionID, "daemon"));
        return;
      }
      if ParsePublicKey(key).None? {
        return;
      }
      if !known {
        var ok := devices.Authorize(deviceId, deviceName, key, w.now, w.write);
        if !ok {
          outbound.Offer(Notice("device_authorization_failed", sender.sessionID, "daemon"));
          return;
        }
      } else {
        var _ := devices.Touch(deviceId, w.now, w.write);
      }
      PairWith(key, deviceId, deviceName);
    }

    method HandleCiphertext(msg: WireMessage, w: World)
      requires Valid()
      modifies this`executed, sender, sender.buffer, outbound
      ensures Valid() && (sender.buffer == old(sender.buffer) || fresh(sender.buffer))
      ensures View() == Command(sender.tape, old(View()), msg, w)
    {
      hide Replies, SendAll, SendLocked, Registry.IsAuthorized;
      var deviceId, key, paired := sender.PeerIdentity();
      var allowed := false;
      if paired {
        allowed := devices.IsAuthorized(deviceId, key);
      }
      if !allowed {
        ReportFailure("mobile device is not authorized");
        return;
      }
      var parsed := AsEnvelope(msg.payload);
      if parsed.None? {
        ReportFailure("malformed envelope");
        return;
      }
      var plain := sender.Open(parsed.value);
      if plain.Err? {
        ReportFailure("cannot open");
        return;
      }
      if plain.value.typ in COMMANDS {
        executed := executed + [Execution(deviceId, key, plain.value)];
      }
      var replies := Replies(plain.value.typ, w);
      match replies {
        case Err(why) => ReportFailure(why);
        case Ok(evs) => ReplyAll(evs);
      }
    }

    /** One turn of handleInbound. */
    method HandleInbound(msg: WireMessage, w: World)
      requires Valid()
      modifies this`executed, sender, sender.buffer, outbound, devices
      ensures Valid() && (sender.buffer == old(sender.buffer) || fresh(sender.buffer))
      ensures View() == Handle(sender.tape, old(View()), msg, w)
    {
      hide Hello, Command;
      if msg.typ == "mobile_hello" {
        HandleHello(msg, w);
      } else if msg.typ == "ciphertext" {
        HandleCiphertext(msg, w);
      }
    }
  }
}
