/** Daemon, hub and phone together: the hub is shown to be the network of module Network,
    so the ordering theorems hold over it. */
module Relayed {
  import opened Common
  import opened E2ee
  import opened Wire
  import Base64
  import Daemon
  import Hub
  import Network
  import Numbering
  import Phone
  import Registry
  import Sender

  /** Whose program is at the other end of a hub connection. */
  datatype Party = DaemonParty | PhoneParty | Stranger

  datatype State = State(net: Network.State, hub: Hub.State<nat>, owner: map<nat, Party>)

  datatype Step =
    | AtEnds(end: Network.Step)
    | AtHub(h: Hub.Step<nat>, who: Party)

  function OwnerOf(s: State, c: nat): Party {
    if c in s.owner then s.owner[c] else Stranger
  }

  /** Accepting a connection fixes who is behind it. */
  ghost function Next(chance: Network.Chance, s: State, step: Step): (r: State)
    requires Phone.Sound(s.net.phone)
    ensures Phone.Sound(r.net.phone)
  {
    match step
    case AtEnds(end) => s.(net := Network.Next(chance, s.net, end))
    case AtHub(h, who) =>
      s.(hub := Hub.Next(s.hub, h),
         owner := if h.Accept? && h.c !in s.hub.clients then s.owner[h.c := who] else s.owner)
  }

  ghost function Run(chance: Network.Chance, s: State, steps: seq<Step>): (r: State)
    requires Phone.Sound(s.net.phone)
    ensures Phone.Sound(r.net.phone)
  {
    if steps == [] then s else Next(chance, Run(chance, s, steps[..|steps| - 1]), steps[|steps| - 1])
  }

  // What each party can write to its own socket, and read from it.

  /** The message boxed under `key` in a frame, if there is one. */
  function Boxed(key: SharedKey, msg: WireMessage): Option<PlainMessage> {
    if msg.payload.Encrypted? then Carried(key, msg.payload.env) else None
  }

  /** `msg` was delivered on a connection of `who`. */
  ghost predicate DeliveredTo(s: State, who: Party, msg: WireMessage) {
    exists c, f :: c in s.hub.clients && OwnerOf(s, c) == who && Hub.Relayed(f) in s.hub.clients[c].delivered
                   && f.msg == Some(msg)
  }

  /** Some frame delivered to a stranger carried this box. */
  ghost predicate PassedToStrangers(s: State, key: SharedKey, m: PlainMessage) {
    exists msg :: DeliveredTo(s, Stranger, msg) && Boxed(key, msg) == Some(m)
  }

  /** A party writes boxes under `key` only as far as it can: the daemon what it sealed, the
      phone what it put on the wire, a stranger what the hub has delivered to strangers.
      Anything else it may write freely. */
  ghost predicate Writable(s: State, key: SharedKey, who: Party, msg: WireMessage) {
    Boxed(key, msg).Some? ==>
      match who
      case DaemonParty => Network.SealedByDaemon(s.net.daemon, key, Boxed(key, msg).value)
      case PhoneParty => Network.OnWire(s.net.phone, key, Boxed(key, msg).value)
      case Stranger => PassedToStrangers(s, key, Boxed(key, msg).value)
  }

  /** A party handles an envelope only if the hub delivered it to one of its connections,
      possibly more than once and in any order. The daemon connects once. */
  ghost predicate Possible(s: State, key: SharedKey, step: Step) {
    match step
    case AtEnds(AtDaemon(Frame(msg, _))) => msg.payload.Encrypted? ==> DeliveredTo(s, DaemonParty, msg)
    case AtEnds(AtPhone(StartOpen(env))) =>
      exists msg: WireMessage :: msg.payload == Encrypted(env) && DeliveredTo(s, PhoneParty, msg)
    case AtHub(Read(c, msg), _) => msg.Some? ==> Writable(s, key, OwnerOf(s, c), msg.value)
    case AtHub(Accept(c, _), who) =>
      who == DaemonParty ==> forall d :: d in s.hub.clients ==> OwnerOf(s, d) != DaemonParty
    case _ => true
  }

  // Boxes that go back to the party that made them.

  /** Somebody other than `who` made this message. */
  ghost predicate MadeElsewhere(net: Network.State, key: SharedKey, who: Party, m: PlainMessage) {
    match who
    case DaemonParty => Network.OnWire(net.phone, key, m)
    case PhoneParty => Network.SealedByDaemon(net.daemon, key, m)
    case Stranger => Network.OnWire(net.phone, key, m) || Network.SealedByDaemon(net.daemon, key, m)
  }

  /** Handing the frame that `c` has pending to `p` gives a party a box only it made. */
  ghost predicate Returns(s: State, key: SharedKey, c: nat, p: nat) {
    && c in s.hub.clients && s.hub.clients[c].pending.Some? && s.hub.clients[c].pending.value.msg.Some?
    && Boxed(key, s.hub.clients[c].pending.value.msg.value).Some?
    && !MadeElsewhere(s.net, key, OwnerOf(s, p), Boxed(key, s.hub.clients[c].pending.value.msg.value).value)
  }

  /** The two ways in which members of a session may give a party its own boxes: another
      connection of the phone, and a stranger that passes boxes on. */
  datatype Company = Company(phones: bool, strangers: bool)

  const PRIVATE := Company(false, false)

  ghost predicate Respects(company: Company, s: State, key: SharedKey, step: Step) {
    step.AtHub? && step.h.Offer? && Hub.Enabled(s.hub, step.h) && Returns(s, key, step.h.c, step.h.peer) ==>
      && (OwnerOf(s, step.h.c) == PhoneParty ==> company.phones)
      && (OwnerOf(s, step.h.c) == Stranger ==> company.strangers)
  }

  ghost predicate PossibleRun(company: Company, chance: Network.Chance, s: State, key: SharedKey, steps: seq<Step>)
    requires Phone.Sound(s.net.phone)
  {
    steps == []
    || (PossibleRun(company, chance, s, key, steps[..|steps| - 1])
        && Possible(Run(chance, s, steps[..|steps| - 1]), key, steps[|steps| - 1])
        && Respects(company, Run(chance, s, steps[..|steps| - 1]), key, steps[|steps| - 1]))
  }

  // In private company the hub's frames are authentic and never return to their maker.

  /** A frame waiting at a connection of `who`, or read from it, is one `who` can write. */
  ghost predicate Authentic(net: Network.State, key: SharedKey, who: Party, f: Hub.Frame<nat>) {
    f.msg.Some? && Boxed(key, f.msg.value).Some? ==>
      var m := Boxed(key, f.msg.value).value;
      match who
      case DaemonParty => Network.SealedByDaemon(net.daemon, key, m)
      case PhoneParty => Network.OnWire(net.phone, key, m)
      case Stranger => MadeElsewhere(net, key, Stranger, m)
  }

  /** A frame queued for a connection of `who`, or delivered to it, is somebody else's. */
  ghost predicate Foreign(net: Network.State, key: SharedKey, who: Party, f: Hub.Frame<nat>) {
    f.msg.Some? && Boxed(key, f.msg.value).Some? ==> MadeElsewhere(net, key, who, Boxed(key, f.msg.value).value)
  }

  ghost predicate ClientOk(s: State, key: SharedKey, c: nat)
    requires c in s.hub.clients
  {
    && c in s.owner
    && (s.hub.clients[c].pending.Some? ==> Authentic(s.net, key, OwnerOf(s, c), s.hub.clients[c].pending.value))
    && (forall f: Hub.Frame<nat> :: Hub.Relayed(f) in Hub.Output(s.hub.clients[c]) ==>
          Foreign(s.net, key, OwnerOf(s, c), f))
  }

  ghost predicate OneDaemon(s: State) {
    forall c, d ::
      c in s.hub.clients && d in s.hub.clients && OwnerOf(s, c) == DaemonParty && OwnerOf(s, d) == DaemonParty ==>
        c == d
  }

  ghost predicate RelayInv(s: State, key: SharedKey) {
    && Phone.Sound(s.net.phone) && Hub.Inv(s.hub) && OneDaemon(s)
    && (forall c :: c in s.hub.clients ==> ClientOk(s, key, c))
  }

  lemma DeliveredForeign(s: State, key: SharedKey, who: Party, msg: WireMessage)
    requires RelayInv(s, key) && DeliveredTo(s, who, msg) && Boxed(key, msg).Some?
    ensures MadeElsewhere(s.net, key, who, Boxed(key, msg).value)
  {
    hide Hub.Inv, MadeElsewhere, Authentic;
    var c, f :| c in s.hub.clients && OwnerOf(s, c) == who && Hub.Relayed(f) in s.hub.clients[c].delivered
                && f.msg == Some(msg);
    assert ClientOk(s, key, c);
    assert Hub.Relayed(f) in Hub.Output(s.hub.clients[c]);
  }

  lemma DeliveredIsAdmissible(s: State, key: SharedKey, end: Network.Step)
    requires RelayInv(s, key) && Possible(s, key, AtEnds(end))
    ensures Network.Admissible(s.net, key, end)
  {
    hide Hub.Inv, DeliveredTo, RelayInv, Carried;
    match end
    case AtDaemon(Frame(msg, _)) =>
      if msg.payload.Encrypted? && Carried(key, msg.payload.env).Some? { DeliveredForeign(s, key, DaemonParty, msg); }
    case AtPhone(StartOpen(env)) =>
      if Carried(key, env).Some? {
        var msg: WireMessage :| msg.payload == Encrypted(env) && DeliveredTo(s, PhoneParty, msg);
        DeliveredForeign(s, key, PhoneParty, msg);
      }
    case _ =>
  }

  /** What was made stays made. */
  lemma MadeStays(chance: Network.Chance, net: Network.State, key: SharedKey, end: Network.Step, m: PlainMessage)
    requires Phone.Sound(net.phone)
    ensures var r := Network.Next(chance, net, end);
            && (Network.OnWire(net.phone, key, m) ==> Network.OnWire(r.phone, key, m))
            && (Network.SealedByDaemon(net.daemon, key, m) ==> Network.SealedByDaemon(r.daemon, key, m))
  {
    hide Daemon.Next, Phone.Next, Network.OnWire, Network.SealedByDaemon;
    match end
    case AtDaemon(d) =>
      if Network.SealedByDaemon(net.daemon, key, m) { Network.SealedGrows(chance, net.daemon, d, key, m); }
    case AtPhone(p) =>
      if Network.OnWire(net.phone, key, m) { Network.OnWireGrows(chance, net, p, key, m); }
  }

  lemma EndStepKeeps(chance: Network.Chance, s: State, key: SharedKey, end: Network.Step)
    requires RelayInv(s, key)
    ensures RelayInv(Next(chance, s, AtEnds(end)), key)
  {
    hide Hub.Inv, Network.Next, Network.OnWire, Network.SealedByDaemon, Boxed;
    var r := Next(chance, s, AtEnds(end));
    forall m ensures
      && (Network.OnWire(s.net.phone, key, m) ==> Network.OnWire(r.net.phone, key, m))
      && (Network.SealedByDaemon(s.net.daemon, key, m) ==> Network.SealedByDaemon(r.net.daemon, key, m))
    {
      MadeStays(chance, s.net, key, end, m);
    }
    forall c | c in r.hub.clients ensures ClientOk(r, key, c) {
      assert ClientOk(s, key, c);
    }
  }

  lemma HubClientOk(chance: Network.Chance, s: State, key: SharedKey, h: Hub.Step<nat>, who: Party, c: nat)
    requires RelayInv(s, key) && Possible(s, key, AtHub(h, who)) && Respects(PRIVATE, s, key, AtHub(h, who))
    requires c in Next(chance, s, AtHub(h, who)).hub.clients
    ensures ClientOk(Next(chance, s, AtHub(h, who)), key, c)
  {
    hide Hub.Next, Hub.Inv, Writable, Hub.SenderOrder, Hub.Enabled, Foreign, Authentic, Respects, Returns;
    var r := Next(chance, s, AtHub(h, who));
    Hub.ClientStays(s.hub, h, c);
    if c in s.hub.clients {
      assert ClientOk(s, key, c);
      QueueBounded(s, c);
      Hub.OutputGrows(s.hub, h, c);
      PendingOk(chance, s, key, h, who, c);
      forall f: Hub.Frame<nat> | Hub.Relayed(f) in Hub.Output(r.hub.clients[c])
        ensures Foreign(r.net, key, OwnerOf(r, c), f)
      {
        if Hub.Relayed(f) !in Hub.Output(s.hub.clients[c]) { OfferedOk(s, key, h.c, c, who); }
      }
    } else {
      AcceptedOnly(s, h, c);
    }
  }

  lemma QueueBounded(s: State, c: nat)
    requires Hub.Inv(s.hub) && c in s.hub.clients
    ensures |s.hub.clients[c].queue| <= Hub.QUEUE_CAP
  {
  }

  lemma AcceptedOnly(s: State, h: Hub.Step<nat>, c: nat)
    requires c !in s.hub.clients && c in Hub.Next(s.hub, h).clients
    ensures h.Accept? && h.c == c
  {
  }

  lemma WritableAuthentic(s: State, key: SharedKey, who: Party, msg: WireMessage, f: Hub.Frame<nat>)
    requires RelayInv(s, key) && Writable(s, key, who, msg) && f.msg == Some(msg)
    ensures Authentic(s.net, key, who, f)
  {
    hide Hub.Inv, DeliveredTo, RelayInv, Boxed;
    if Boxed(key, msg).Some? && who == Stranger {
      var other :| DeliveredTo(s, Stranger, other) && Boxed(key, other) == Boxed(key, msg);
      DeliveredForeign(s, key, Stranger, other);
    }
  }

  /** A frame being read was writable by its connection's owner; one already held stays. */
  lemma PendingOk(chance: Network.Chance, s: State, key: SharedKey, h: Hub.Step<nat>, who: Party, c: nat)
    requires RelayInv(s, key) && Possible(s, key, AtHub(h, who)) && c in s.hub.clients
    requires c in Next(chance, s, AtHub(h, who)).hub.clients
    ensures var r := Next(chance, s, AtHub(h, who));
            r.hub.clients[c].pending.Some? ==> Authentic(r.net, key, OwnerOf(r, c), r.hub.clients[c].pending.value)
  {
    hide Hub.Inv, Writable, Hub.Push, Hub.Judge, Hub.Unlocked, Authentic, Foreign, OneDaemon;
    assert ClientOk(s, key, c);
    var r := Next(chance, s, AtHub(h, who));
    if r.hub.clients[c].pending.Some? && r.hub.clients[c].pending != s.hub.clients[c].pending {
      ReadPending(s.hub, h, c);
      WritableAuthentic(s, key, OwnerOf(s, c), h.msg.value, r.hub.clients[c].pending.value);
    }
  }

  lemma ReadPending(h: Hub.State<nat>, step: Hub.Step<nat>, c: nat)
    requires c in h.clients && Hub.Next(h, step).clients[c].pending.Some?
    requires Hub.Next(h, step).clients[c].pending != h.clients[c].pending
    ensures step.Read? && step.c == c && step.msg.Some? && Hub.Next(h, step).clients[c].pending.value.msg == step.msg
  {
    hide Hub.Push, Hub.Judge, Hub.Unlocked;
  }

  /** A frame is offered only to another connection bound to the sender's session; in
      private company that is one for whom it is foreign. */
  lemma OfferedOk(s: State, key: SharedKey, d: nat, c: nat, who: Party)
    requires RelayInv(s, key) && Respects(PRIVATE, s, key, AtHub(Hub.Offer(d, c), who))
    requires Hub.Enabled(s.hub, Hub.Offer(d, c)) && s.hub.clients[d].pending.Some?
    ensures Foreign(s.net, key, OwnerOf(s, c), s.hub.clients[d].pending.value)
  {
    hide Network.OnWire, Network.SealedByDaemon, Boxed;
    assert ClientOk(s, key, d);
    if OwnerOf(s, d) == DaemonParty { OfferedToAnother(s, d, c); }
  }

  lemma OfferedToAnother(s: State, d: nat, c: nat)
    requires Hub.Inv(s.hub) && Hub.Enabled(s.hub, Hub.Offer(d, c))
    ensures d != c && Hub.Live(s.hub, c) && Hub.Live(s.hub, d)
    ensures s.hub.clients[c].sid == s.hub.clients[d].sid != ""
  {
    hide Hub.Provenance, Hub.Ordered;
    assert Hub.WorkingAt(s.hub, d);
    assert c in Hub.Members(s.hub, s.hub.clients[d].sid);
  }

  lemma HubStepKeeps(chance: Network.Chance, s: State, key: SharedKey, h: Hub.Step<nat>, who: Party)
    requires RelayInv(s, key) && Possible(s, key, AtHub(h, who)) && Respects(PRIVATE, s, key, AtHub(h, who))
    ensures RelayInv(Next(chance, s, AtHub(h, who)), key)
  {
    hide Hub.Next, Hub.Inv, ClientOk, Respects;
    var r := Next(chance, s, AtHub(h, who));
    Hub.NextKeeps(s.hub, h);
    forall c | c in r.hub.clients ensures ClientOk(r, key, c) {
      HubClientOk(chance, s, key, h, who, c);
    }
    forall c, d | c in r.hub.clients && d in r.hub.clients
                  && OwnerOf(r, c) == DaemonParty && OwnerOf(r, d) == DaemonParty
      ensures c == d
    {
      if c !in s.hub.clients { AcceptedOnly(s, h, c); }
      if d !in s.hub.clients { AcceptedOnly(s, h, d); }
    }
  }

  // Projection onto the network.

  function Ends(steps: seq<Step>): seq<Network.Step> {
    if steps == [] then []
    else if steps[|steps| - 1].AtEnds? then Ends(steps[..|steps| - 1]) + [steps[|steps| - 1].end]
    else Ends(steps[..|steps| - 1])
  }

  /** A run through the hub is, for daemon and phone, a run over an admissible network. */
  lemma {:induction false} HubIsANetwork(chance: Network.Chance, s: State, key: SharedKey, steps: seq<Step>)
    requires RelayInv(s, key) && PossibleRun(PRIVATE, chance, s, key, steps)
    ensures RelayInv(Run(chance, s, steps), key)
    ensures Network.AdmissibleRun(chance, s.net, key, Ends(steps))
    ensures Network.Run(chance, s.net, Ends(steps)) == Run(chance, s, steps).net
  {
    hide RelayInv, Possible, Respects, Network.Admissible, Network.Next, Hub.Next;
    RelaySound(s, key);
    if steps != [] {
      var front, last := steps[..|steps| - 1], steps[|steps| - 1];
      HubIsANetwork(chance, s, key, front);
      var before := Run(chance, s, front);
      match last
      case AtEnds(end) =>
        DeliveredIsAdmissible(before, key, end);
        EndStepKeeps(chance, before, key, end);
        assert Ends(steps)[..|Ends(front)|] == Ends(front);
      case AtHub(h, who) =>
        HubStepKeeps(chance, before, key, h, who);
    }
  }

  lemma RelaySound(s: State, key: SharedKey)
    requires RelayInv(s, key)
    ensures Phone.Sound(s.net.phone)
  {
  }

  /** What a run starts from. */
  datatype Setup = Setup(sid: string, own: KeyPair, registry: Registry.File, expires: int, storage: map<string, string>)

  function Start(setup: Setup): (s: State)
    ensures Phone.Sound(s.net.phone)
  {
    State(Network.Start(setup.sid, setup.own, setup.registry, setup.expires, setup.storage), Hub.Empty(), map[])
  }

  /** What the daemon accepts in a key period, and what the phone's i-th CryptoService object
      accepts, are subsequences of what the other side made, in strictly increasing number. */
  ghost predicate EndToEnd(setup: Setup, key: SharedKey, r: Network.State, i: nat) {
    && (r.daemon.sender.peer.Some? && Agree(setup.own, r.daemon.sender.peer.value.key) == key ==>
          && Increasing(r.daemon.sender.accepted, MessageNum)
          && Subsequence(Network.OfSession(r.daemon.sender.accepted, setup.sid),
                         Network.Messages(Network.PhoneSent(r.phone, key, setup.sid))))
    && (i < |r.phone.objects| ==>
          && Increasing(r.phone.objects[i].accepted, Network.RankReceived)
          && Subsequence(Network.AcceptedUnder(r.phone.objects[i], key),
                         Network.Messages(Network.DaemonSealed(r.daemon, key))))
  }

  /** End to end through the hub, in private company: whatever connections, frames, crashes
      and overlaps there are, as long as no forward gives a party a box only it made. */
  lemma EndToEndThroughTheHub(chance: Network.Chance, setup: Setup, key: SharedKey, steps: seq<Step>, i: nat)
    requires PossibleRun(PRIVATE, chance, Start(setup), key, steps)
    requires Network.CarefulRun(chance, Start(setup).net, Ends(steps))
    ensures EndToEnd(setup, key, Run(chance, Start(setup), steps).net, i)
  {
    hide Network.Run, Network.AdmissibleRun, Network.CarefulRun, PossibleRun, Run, Hub.Inv, Numbering.NumberingInv;
    hide Network.PhoneSent, Network.OfSession, Network.AcceptedUnder, Network.DaemonSealed;
    var n := Start(setup).net;
    StartInv(setup, key);
    HubIsANetwork(chance, Start(setup), key, steps);
    Network.StartSatisfies(setup.sid, setup.own, setup.registry, setup.expires, setup.storage, key);
    Network.OwnKeyStays(chance, n, Ends(steps));
    var r := Network.Run(chance, n, Ends(steps));
    if r.daemon.sender.peer.Some? && Agree(setup.own, r.daemon.sender.peer.value.key) == key {
      Network.DaemonAcceptsWhatThePhoneSent(chance, n, key, Ends(steps), setup.sid);
    }
    if i < |r.phone.objects| {
      Network.PhoneAcceptsWhatTheDaemonSealed(chance, n, key, Ends(steps), i);
    }
  }

  lemma StartInv(setup: Setup, key: SharedKey)
    ensures RelayInv(Start(setup), key)
  {
    Hub.EmptySatisfies<nat>();
  }

  // Which sessions are private company.

  /** `c` is about to forward a box under `key`. */
  ghost predicate Carrying(s: State, key: SharedKey, c: nat) {
    && c in s.hub.clients && s.hub.clients[c].pending.Some? && s.hub.clients[c].pending.value.msg.Some?
    && Boxed(key, s.hub.clients[c].pending.value.msg.value).Some?
  }

  /** Who shares a session in this company: two open connections of the phone only if it
      allows that, and a stranger about to pass on a box with the daemon or the phone only if
      it allows that. */
  ghost predicate MembersAllowed(company: Company, s: State, key: SharedKey) {
    forall c, d ::
      && Hub.Live(s.hub, c) && Hub.Live(s.hub, d) && c != d
      && s.hub.clients[c].sid == s.hub.clients[d].sid != "" ==>
        && (OwnerOf(s, c) == PhoneParty && OwnerOf(s, d) == PhoneParty ==> company.phones)
        && (OwnerOf(s, c) == Stranger && Carrying(s, key, c) && OwnerOf(s, d) != Stranger ==> company.strangers)
  }

  /** A possible run in whose every state the members of each session are allowed. */
  ghost predicate MemberRun(company: Company, chance: Network.Chance, s: State, key: SharedKey, steps: seq<Step>)
    requires Phone.Sound(s.net.phone)
  {
    && MembersAllowed(company, Run(chance, s, steps), key)
    && (steps == []
        || (MemberRun(company, chance, s, key, steps[..|steps| - 1])
            && Possible(Run(chance, s, steps[..|steps| - 1]), key, steps[|steps| - 1])))
  }

  /** Sessions shared by at most one connection of the phone, the daemon, and strangers that
      keep boxes to themselves are private company. */
  lemma PrivateSessionsSuffice(s: State, key: SharedKey, step: Step)
    requires RelayInv(s, key) && MembersAllowed(PRIVATE, s, key)
    ensures Respects(PRIVATE, s, key, step)
  {
    hide Hub.Inv, Network.OnWire, Network.SealedByDaemon, Boxed, Hub.Enabled;
    if step.AtHub? && step.h.Offer? && Hub.Enabled(s.hub, step.h) && Returns(s, key, step.h.c, step.h.peer) {
      var c, p := step.h.c, step.h.peer;
      OfferedToAnother(s, c, p);
      assert ClientOk(s, key, c);
    }
  }

  lemma {:induction false} MembersArePrivate(chance: Network.Chance, s: State, key: SharedKey, steps: seq<Step>)
    requires RelayInv(s, key) && MemberRun(PRIVATE, chance, s, key, steps)
    ensures PossibleRun(PRIVATE, chance, s, key, steps)
  {
    hide RelayInv, Possible, Respects, MembersAllowed, Run;
    RelaySound(s, key);
    if steps != [] {
      var front := steps[..|steps| - 1];
      MembersArePrivate(chance, s, key, front);
      HubIsANetwork(chance, s, key, front);
      AllowedNow(PRIVATE, chance, s, key, front);
      PrivateSessionsSuffice(Run(chance, s, front), key, steps[|steps| - 1]);
    }
  }

  lemma AllowedNow(company: Company, chance: Network.Chance, s: State, key: SharedKey, steps: seq<Step>)
    requires Phone.Sound(s.net.phone) && MemberRun(company, chance, s, key, steps)
    ensures MembersAllowed(company, Run(chance, s, steps), key)
  {
  }

  /** End to end through the hub, by who is in the sessions: as long as no session ever holds
      two connections of the phone, or a stranger about to pass a box on to the daemon or the
      phone. */
  lemma EndToEndInPrivateSessions(chance: Network.Chance, setup: Setup, key: SharedKey, steps: seq<Step>, i: nat)
    requires MemberRun(PRIVATE, chance, Start(setup), key, steps)
    requires Network.CarefulRun(chance, Start(setup).net, Ends(steps))
    ensures EndToEnd(setup, key, Run(chance, Start(setup), steps).net, i)
  {
    hide MemberRun, PossibleRun, Run, RelayInv, EndToEnd, Network.CarefulRun;
    StartInv(setup, key);
    MembersArePrivate(chance, Start(setup), key, steps);
    EndToEndThroughTheHub(chance, setup, key, steps, i);
  }

  /** Exactly when a forward gives somebody a box back: when another open connection of the
      only party that made the box is bound to the sender's session. */
  lemma EchoExactly(s: State, key: SharedKey, c: nat)
    requires RelayInv(s, key) && Hub.Forwarding(s.hub, c)
    requires s.hub.clients[c].todo.value == Hub.Members(s.hub, s.hub.clients[c].sid) - {c}
    ensures (exists p :: Hub.Enabled(s.hub, Hub.Offer(c, p)) && Returns(s, key, c, p)) <==>
            (exists p :: Hub.Live(s.hub, p) && p != c && s.hub.clients[p].sid == s.hub.clients[c].sid
                         && OwnerOf(s, p) != Stranger && Returns(s, key, c, p))
  {
    hide Network.OnWire, Network.SealedByDaemon, Boxed;
    assert ClientOk(s, key, c);
    if p :| Hub.Enabled(s.hub, Hub.Offer(c, p)) && Returns(s, key, c, p) {
      OfferedToAnother(s, c, p);
    }
    if p :| Hub.Live(s.hub, p) && p != c && s.hub.clients[p].sid == s.hub.clients[c].sid
            && OwnerOf(s, p) != Stranger && Returns(s, key, c, p) {
      MemberOffered(s, c, p);
    }
  }

  lemma MemberOffered(s: State, c: nat, p: nat)
    requires Hub.Inv(s.hub) && Hub.Forwarding(s.hub, c)
    requires s.hub.clients[c].todo.value == Hub.Members(s.hub, s.hub.clients[c].sid) - {c}
    requires Hub.Live(s.hub, p) && p != c && s.hub.clients[p].sid == s.hub.clients[c].sid
    ensures Hub.Enabled(s.hub, Hub.Offer(c, p))
  {
    hide Hub.Provenance, Hub.Ordered;
    assert Hub.WorkingAt(s.hub, c);
  }

  /** An echo is accepted: both directions share one key, and neither side looks at who the
      envelope says sent it. */
  lemma EchoIsAccepted(c: Phone.Crypto, key: SharedKey, nonce: Nonce, msg: PlainMessage, s: Sender.State)
    requires msg.num > c.lastPeerNum
    requires s.peer.Some? && msg.num > s.lastRecv
    ensures Phone.FinishOpen(c, key, PhoneSeal(key, nonce, msg)).0.accepted == c.accepted + [Phone.Received(key, msg)]
    ensures Sender.Receive(s, Seal(s.own, s.peer.value.key, "daemon", nonce, msg)).1 == Ok(msg)
  {
    Base64.CrossLanguageRoundTrip(nonce);
    hide Base64.UrlNoPadDecode, Base64.UrlNoPadEncode, Base64.DecodeRaw, Base64.EncodeRaw;
  }
}
