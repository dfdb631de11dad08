/** Why private company is needed: two runs in which a party accepts a box that only it
    made, once because the phone has two connections in a session, once because a stranger
    passes the daemon's own box back to it. Each breaks one of the two conditions on who
    shares a session, and no other. */
module Echo {
  import opened Common
  import opened E2ee
  import opened Wire
  import opened Relayed
  import Base64
  import Daemon
  import Hub
  import Network
  import Numbering
  import NumberingLimits
  import Phone
  import Registry
  import Sender

  /** The end-to-end property over all runs whose forwards respect this company. */
  ghost predicate Promise(company: Company, chance: Network.Chance, setup: Setup, key: SharedKey, steps: seq<Step>,
                          i: nat)
  {
    && PossibleRun(company, chance, Start(setup), key, steps)
    && Network.CarefulRun(chance, Start(setup).net, Ends(steps)) ==>
      EndToEnd(setup, key, Run(chance, Start(setup), steps).net, i)
  }

  /** The same over all runs in whose states this company allows the members of every
      session. */
  ghost predicate MemberPromise(company: Company, chance: Network.Chance, setup: Setup, key: SharedKey,
                                steps: seq<Step>, i: nat)
  {
    && MemberRun(company, chance, Start(setup), key, steps)
    && Network.CarefulRun(chance, Start(setup).net, Ends(steps)) ==>
      EndToEnd(setup, key, Run(chance, Start(setup), steps).net, i)
  }

  /** A careful run from the start that is in this company in either sense. */
  ghost predicate InCompany(company: Company, chance: Network.Chance, setup: Setup, key: SharedKey, steps: seq<Step>) {
    && PossibleRun(company, chance, Start(setup), key, steps)
    && MemberRun(company, chance, Start(setup), key, steps)
    && Network.CarefulRun(chance, Start(setup).net, Ends(steps))
  }

  // Who can be in a session, by whose connections the hub has accepted.

  ghost predicate OwnersAmong(s: State, parties: set<Party>) {
    forall c :: c in s.hub.clients ==> OwnerOf(s, c) in parties
  }

  predicate AcceptsAmong(steps: seq<Step>, parties: set<Party>) {
    forall step :: step in steps && step.AtHub? && step.h.Accept? ==> step.who in parties
  }

  lemma OwnersStay(chance: Network.Chance, s: State, step: Step, parties: set<Party>)
    requires Phone.Sound(s.net.phone) && OwnersAmong(s, parties) && AcceptsAmong([step], parties)
    ensures OwnersAmong(Next(chance, s, step), parties)
  {
    hide Hub.Next, Network.Next;
    var r := Next(chance, s, step);
    forall c | c in r.hub.clients ensures OwnerOf(r, c) in parties {
      if c !in s.hub.clients {
        AcceptedOnly(s, step.h, c);
        assert step in [step];
      }
    }
  }

  /** No stranger, or no phone, among the owners leaves one of the conditions to break. */
  ghost predicate Covered(company: Company, parties: set<Party>) {
    (company.phones && Stranger !in parties) || (company.strangers && PhoneParty !in parties)
  }

  lemma OwnersAllowed(company: Company, s: State, key: SharedKey, parties: set<Party>)
    requires OwnersAmong(s, parties) && Covered(company, parties)
    ensures MembersAllowed(company, s, key)
  {
    hide Carrying;
  }

  lemma {:induction false} OwnersRun(company: Company, chance: Network.Chance, s: State, key: SharedKey,
                                     steps: seq<Step>, parties: set<Party>)
    requires Phone.Sound(s.net.phone) && PossibleRun(company, chance, s, key, steps)
    requires OwnersAmong(s, parties) && AcceptsAmong(steps, parties) && Covered(company, parties)
    ensures MemberRun(company, chance, s, key, steps) && OwnersAmong(Run(chance, s, steps), parties)
  {
    hide Next, Possible, Respects, MembersAllowed, OwnersAmong;
    if steps != [] {
      var front, last := steps[..|steps| - 1], steps[|steps| - 1];
      assert last in steps;
      OwnersRun(company, chance, s, key, front, parties);
      OwnersStay(chance, Run(chance, s, front), last, parties);
    }
    OwnersAllowed(company, Run(chance, s, steps), key, parties);
  }

  // Runs put together.

  lemma {:induction false} RunConcat(chance: Network.Chance, s: State, a: seq<Step>, b: seq<Step>)
    requires Phone.Sound(s.net.phone)
    ensures Run(chance, s, a + b) == Run(chance, Run(chance, s, a), b)
    ensures Ends(a + b) == Ends(a) + Ends(b)
  {
    if b == [] {
      assert a + b == a;
    } else {
      hide Next;
      RunConcat(chance, s, a, b[..|b| - 1]);
      LastApart(a, b);
      assert (a + b)[..|a + b| - 1] == a + b[..|b| - 1];
    }
  }

  lemma {:induction false} PossibleConcat(company: Company, chance: Network.Chance, s: State, key: SharedKey,
                                          a: seq<Step>, b: seq<Step>)
    requires Phone.Sound(s.net.phone)
    requires PossibleRun(company, chance, s, key, a) && PossibleRun(company, chance, Run(chance, s, a), key, b)
    ensures PossibleRun(company, chance, s, key, a + b)
  {
    hide Possible, Respects, Run;
    if b == [] {
      assert a + b == a;
    } else {
      PossibleConcat(company, chance, s, key, a, b[..|b| - 1]);
      RunConcat(chance, s, a, b[..|b| - 1]);
      assert (a + b)[..|a + b| - 1] == a + b[..|b| - 1];
    }
  }

  /** A run so far: it is possible, and leads from `s` to `r`. */
  ghost predicate Leads(company: Company, chance: Network.Chance, s: State, key: SharedKey, steps: seq<Step>, r: State)
    requires Phone.Sound(s.net.phone)
  {
    PossibleRun(company, chance, s, key, steps) && Run(chance, s, steps) == r
  }

  lemma LeadsConcat(company: Company, chance: Network.Chance, s: State, key: SharedKey,
                    a: seq<Step>, t: State, b: seq<Step>, r: State)
    requires Phone.Sound(s.net.phone) && Leads(company, chance, s, key, a, t)
    requires Phone.Sound(t.net.phone) && Leads(company, chance, t, key, b, r)
    ensures Leads(company, chance, s, key, a + b, r) && Ends(a + b) == Ends(a) + Ends(b)
  {
    hide PossibleRun, Run;
    RunConcat(chance, s, a, b);
    PossibleConcat(company, chance, s, key, a, b);
  }

  lemma OneStep(company: Company, chance: Network.Chance, s: State, key: SharedKey, step: Step)
    requires Phone.Sound(s.net.phone) && Possible(s, key, step) && Respects(company, s, key, step)
    ensures Leads(company, chance, s, key, [step], Next(chance, s, step))
    ensures Ends([step]) == if step.AtEnds? then [step.end] else []
  {
    hide Possible, Respects, Next;
    var steps := [step];
    assert steps[..|steps| - 1] == [];
    assert Run(chance, s, []) == s && PossibleRun(company, chance, s, key, []);
  }

  // One frame relayed between the two connections of a session.

  /** `c` and `p` are the open connections of session `sid`, and idle. */
  ghost predicate Pair(h: Hub.State<nat>, c: nat, p: nat, sid: string) {
    && c != p && sid != "" && h.clients.Keys == {c, p} && h.sessions == map[sid := {c, p}]
    && Idle(h.clients[c], sid) && Idle(h.clients[p], sid)
  }

  predicate Idle(cl: Hub.Client<nat>, sid: string) {
    cl.open && cl.sid == sid && cl.pending == None && cl.todo == None && cl.queue == []
  }

  /** `c`'s role lets it send the frame, which is no ping. */
  predicate Sendable(cl: Hub.Client<nat>, msg: WireMessage) {
    msg.sid == cl.sid && msg.typ != "ping" && (cl.role == "" || msg.role == "" || msg.role == cl.role)
  }

  function Relay(c: nat, p: nat, msg: WireMessage): seq<Step> {
    [AtHub(Hub.Read(c, Some(msg)), Stranger), AtHub(Hub.Route(c), Stranger), AtHub(Hub.Offer(c, p), Stranger),
     AtHub(Hub.Finish(c), Stranger), AtHub(Hub.Write(p), Stranger)]
  }

  /** The hub after relaying one frame. */
  ghost function Passed(h: Hub.State<nat>, c: nat, p: nat, msg: WireMessage): Hub.State<nat>
    requires c in h.clients && p in h.clients && c != p
  {
    var f := Hub.Frame(c, h.clients[c].got, Some(msg));
    h.(clients := h.clients[c := h.clients[c].(got := h.clients[c].got + 1)]
                           [p := h.clients[p].(delivered := h.clients[p].delivered + [Hub.Relayed(f)])])
  }

  /** The hub between these steps. */
  ghost function Holding(h: Hub.State<nat>, c: nat, msg: WireMessage, todo: Option<set<nat>>): Hub.State<nat>
    requires c in h.clients
  {
    var cl := h.clients[c];
    var f := Hub.Frame(c, cl.got, Some(msg));
    h.(clients := h.clients[c := cl.(got := cl.got + 1, pending := Some(f), todo := todo)])
  }

  lemma ReadStep(h: Hub.State<nat>, c: nat, p: nat, msg: WireMessage)
    requires Pair(h, c, p, msg.sid)
    ensures Hub.Next(h, Hub.Read(c, Some(msg))) == Holding(h, c, msg, None)
  {
  }

  lemma RouteStep(h: Hub.State<nat>, c: nat, p: nat, msg: WireMessage)
    requires Pair(h, c, p, msg.sid) && Sendable(h.clients[c], msg)
    ensures Hub.Next(Holding(h, c, msg, None), Hub.Route(c)) == Holding(h, c, msg, Some({p}))
  {
    assert {c, p} - {c} == {p};
  }

  /** The hub once the frame is queued for `p`. */
  ghost function Offered(h: Hub.State<nat>, c: nat, p: nat, msg: WireMessage): Hub.State<nat>
    requires c in h.clients && p in h.clients && c != p
  {
    var held := Holding(h, c, msg, Some({}));
    var f := Hub.Frame(c, h.clients[c].got, Some(msg));
    held.(clients := held.clients[p := h.clients[p].(queue := [Hub.Relayed(f)])])
  }

  lemma OfferStep(h: Hub.State<nat>, c: nat, p: nat, msg: WireMessage)
    requires Pair(h, c, p, msg.sid)
    ensures Hub.Enabled(Holding(h, c, msg, Some({p})), Hub.Offer(c, p))
    ensures Hub.Next(Holding(h, c, msg, Some({p})), Hub.Offer(c, p)) == Offered(h, c, p, msg)
  {
    assert {p} - {p} == {};
    var item := Hub.Relayed(Hub.Frame(c, h.clients[c].got, Some(msg)));
    assert [] + [item] == [item];
  }

  lemma FinishStep(h: Hub.State<nat>, c: nat, p: nat, msg: WireMessage)
    requires Pair(h, c, p, msg.sid)
    ensures Hub.Next(Hub.Next(Offered(h, c, p, msg), Hub.Finish(c)), Hub.Write(p)) == Passed(h, c, p, msg)
    ensures Pair(Passed(h, c, p, msg), c, p, msg.sid)
  {
    var f := Hub.Frame(c, h.clients[c].got, Some(msg));
    var done := h.(clients := h.clients[c := h.clients[c].(got := h.clients[c].got + 1)]
                                      [p := h.clients[p].(queue := [Hub.Relayed(f)])]);
    Hub.SameClients(Hub.Next(Offered(h, c, p, msg), Hub.Finish(c)), done);
    Hub.SameClients(Hub.Next(done, Hub.Write(p)), Passed(h, c, p, msg));
  }

  /** The company allows this box to be handed from `c` to `p`. */
  ghost predicate MayPass(company: Company, s: State, key: SharedKey, c: nat, p: nat, msg: WireMessage) {
    Boxed(key, msg).Some? && !MadeElsewhere(s.net, key, OwnerOf(s, p), Boxed(key, msg).value) ==>
      && (OwnerOf(s, c) == PhoneParty ==> company.phones)
      && (OwnerOf(s, c) == Stranger ==> company.strangers)
  }

  lemma RelayLeads(company: Company, chance: Network.Chance, s: State, key: SharedKey, c: nat, p: nat, msg: WireMessage)
    requires Phone.Sound(s.net.phone) && Pair(s.hub, c, p, msg.sid) && Sendable(s.hub.clients[c], msg)
    requires Writable(s, key, OwnerOf(s, c), msg) && MayPass(company, s, key, c, p, msg)
    ensures Leads(company, chance, s, key, Relay(c, p, msg), s.(hub := Passed(s.hub, c, p, msg)))
    ensures Ends(Relay(c, p, msg)) == []
    ensures Pair(Passed(s.hub, c, p, msg), c, p, msg.sid)
  {
    ReadRouteLeads(company, chance, s, key, c, p, msg);
    var s2 := s.(hub := Holding(s.hub, c, msg, Some({p})));
    OfferLeads(company, chance, s, key, c, p, msg);
    FinishStep(s.hub, c, p, msg);
    hide Pair, Sendable, Hub.Next, Writable, MayPass, Passed, Leads, Offered;
    var steps := Relay(c, p, msg);
    var s3 := s.(hub := Offered(s.hub, c, p, msg));
    FinishWriteLeads(company, chance, s, key, c, p, msg);
    LeadsConcat(company, chance, s, key, steps[..2], s2, [steps[2]], s3);
    LeadsConcat(company, chance, s, key, steps[..2] + [steps[2]], s3, steps[3..], s.(hub := Passed(s.hub, c, p, msg)));
    assert steps[..2] + [steps[2]] + steps[3..] == steps;
    assert Ends(steps) == [];
  }

  lemma TwoSteps(company: Company, chance: Network.Chance, s: State, key: SharedKey, a: Step, b: Step)
    requires Phone.Sound(s.net.phone) && a.AtHub? && b.AtHub? && Possible(s, key, a) && Respects(company, s, key, a)
    requires Possible(Next(chance, s, a), key, b) && Respects(company, Next(chance, s, a), key, b)
    ensures Leads(company, chance, s, key, [a, b], Next(chance, Next(chance, s, a), b)) && Ends([a, b]) == []
  {
    hide Possible, Respects, Next, Leads;
    OneStep(company, chance, s, key, a);
    OneStep(company, chance, Next(chance, s, a), key, b);
    LeadsConcat(company, chance, s, key, [a], Next(chance, s, a), [b], Next(chance, Next(chance, s, a), b));
    assert [a] + [b] == [a, b];
  }

  lemma ReadRouteLeads(company: Company, chance: Network.Chance, s: State, key: SharedKey, c: nat, p: nat,
                       msg: WireMessage)
    requires Phone.Sound(s.net.phone) && Pair(s.hub, c, p, msg.sid) && Sendable(s.hub.clients[c], msg)
    requires Writable(s, key, OwnerOf(s, c), msg)
    ensures Leads(company, chance, s, key, Relay(c, p, msg)[..2], s.(hub := Holding(s.hub, c, msg, Some({p}))))
    ensures Ends(Relay(c, p, msg)[..2]) == []
  {
    ReadStep(s.hub, c, p, msg);
    RouteStep(s.hub, c, p, msg);
    hide Hub.Next, Writable, Leads;
    TwoSteps(company, chance, s, key, Relay(c, p, msg)[0], Relay(c, p, msg)[1]);
    assert Relay(c, p, msg)[..2] == [Relay(c, p, msg)[0], Relay(c, p, msg)[1]];
  }

  lemma OfferLeads(company: Company, chance: Network.Chance, s: State, key: SharedKey, c: nat, p: nat, msg: WireMessage)
    requires Phone.Sound(s.net.phone) && Pair(s.hub, c, p, msg.sid) && MayPass(company, s, key, c, p, msg)
    ensures Leads(company, chance, s.(hub := Holding(s.hub, c, msg, Some({p}))), key, [Relay(c, p, msg)[2]],
                  s.(hub := Offered(s.hub, c, p, msg)))
    ensures Ends([Relay(c, p, msg)[2]]) == []
  {
    OfferStep(s.hub, c, p, msg);
    hide Hub.Next, Hub.Enabled, MadeElsewhere, Boxed, Leads, Offered;
    OneStep(company, chance, s.(hub := Holding(s.hub, c, msg, Some({p}))), key, Relay(c, p, msg)[2]);
  }

  lemma FinishWriteLeads(company: Company, chance: Network.Chance, s: State, key: SharedKey, c: nat, p: nat,
                         msg: WireMessage)
    requires Phone.Sound(s.net.phone) && Pair(s.hub, c, p, msg.sid)
    ensures Leads(company, chance, s.(hub := Offered(s.hub, c, p, msg)), key, Relay(c, p, msg)[3..],
                  s.(hub := Passed(s.hub, c, p, msg)))
    ensures Ends(Relay(c, p, msg)[3..]) == []
  {
    FinishStep(s.hub, c, p, msg);
    hide Hub.Next, Leads, Pair, Offered, Passed;
    var steps := Relay(c, p, msg);
    TwoSteps(company, chance, s.(hub := Offered(s.hub, c, p, msg)), key, steps[3], steps[4]);
    assert steps[3..] == [steps[3], steps[4]];
  }

  // Setting up a session with two connections.

  /** The first connection is `one`'s, in this role; the second is `two`'s, as a phone. */
  function Joins(sid: string, one: Party, role: string, two: Party): seq<Step> {
    [AtHub(Hub.Accept(0, Some((sid, role))), one), AtHub(Hub.Accept(1, Some((sid, "mobile"))), two)]
  }

  ghost predicate Joined(s: State, sid: string, one: Party, role: string, two: Party) {
    && Pair(s.hub, 0, 1, sid) && Pair(s.hub, 1, 0, sid) && OwnerOf(s, 0) == one && OwnerOf(s, 1) == two
    && s.hub.clients[0].role == role && s.hub.clients[1].role == "mobile"
    && s.hub.clients[0].delivered == [] && s.hub.clients[1].delivered == []
  }

  function Joiner(sid: string, role: string): Hub.Client<nat> {
    Hub.Client(true, sid, role, 0, None, None, [], [])
  }

  lemma FirstJoins(sid: string, role: string)
    requires sid != ""
    ensures Hub.Next(Hub.Empty<nat>(), Hub.Accept(0, Some((sid, role))))
         == Hub.State(map[sid := {0}], map[0 := Joiner(sid, role)])
  {
    var none: set<nat> := {};
    assert none + {0} == {0};
  }

  lemma SecondJoins(sid: string, role: string, other: string)
    requires sid != ""
    ensures var h := Hub.State(map[sid := {0}], map[0 := Joiner(sid, role)]);
            Hub.Next(h, Hub.Accept(1, Some((sid, other))))
            == Hub.State(map[sid := {0, 1}], map[0 := Joiner(sid, role), 1 := Joiner(sid, other)])
  {
    assert {0} + {1} == {0, 1};
    var h := Hub.State(map[sid := {0}], map[0 := Joiner(sid, role)]);
    var r := Hub.Next(h, Hub.Accept(1, Some((sid, other))));
    assert r.sessions == map[sid := {0, 1}];
    assert r.clients == map[0 := Joiner(sid, role), 1 := Joiner(sid, other)];
  }

  lemma JoinsLead(company: Company, chance: Network.Chance, s: State, key: SharedKey,
                  sid: string, one: Party, role: string, two: Party)
    requires Phone.Sound(s.net.phone) && s.hub == Hub.Empty() && s.owner == map[] && sid != "" && two != DaemonParty
    ensures var r := Run(chance, s, Joins(sid, one, role, two));
            && Leads(company, chance, s, key, Joins(sid, one, role, two), r)
            && r.net == s.net && Joined(r, sid, one, role, two)
    ensures Ends(Joins(sid, one, role, two)) == []
  {
    hide Hub.Next, Leads, Joined, Possible, Respects;
    var first, second := Joins(sid, one, role, two)[0], Joins(sid, one, role, two)[1];
    BothJoined(chance, s, sid, one, role, two);
    JoinsPossible(company, chance, s, key, sid, one, role, two);
    TwoSteps(company, chance, s, key, first, second);
    assert [first, second] == Joins(sid, one, role, two);
    LeadsRun(company, chance, s, key, [first, second], Next(chance, Next(chance, s, first), second));
  }

  lemma BothJoined(chance: Network.Chance, s: State, sid: string, one: Party, role: string, two: Party)
    requires Phone.Sound(s.net.phone) && s.hub == Hub.Empty() && s.owner == map[] && sid != ""
    ensures var joins := Joins(sid, one, role, two);
            var r := Next(chance, Next(chance, s, joins[0]), joins[1]);
            r.net == s.net && Joined(r, sid, one, role, two)
  {
    FirstJoins(sid, role);
    SecondJoins(sid, role, "mobile");
    hide Hub.Next;
    assert {0, 1} == {1, 0};
  }

  lemma JoinsPossible(company: Company, chance: Network.Chance, s: State, key: SharedKey,
                      sid: string, one: Party, role: string, two: Party)
    requires Phone.Sound(s.net.phone) && s.hub == Hub.Empty() && two != DaemonParty
    ensures var joins := Joins(sid, one, role, two);
            && Possible(s, key, joins[0]) && Respects(company, s, key, joins[0])
            && Possible(Next(chance, s, joins[0]), key, joins[1])
            && Respects(company, Next(chance, s, joins[0]), key, joins[1])
  {
    hide Hub.Next;
  }

  lemma LeadsRun(company: Company, chance: Network.Chance, s: State, key: SharedKey, steps: seq<Step>, r: State)
    requires Phone.Sound(s.net.phone) && Leads(company, chance, s, key, steps, r)
    ensures Run(chance, s, steps) == r && PossibleRun(company, chance, s, key, steps)
  {
  }

  // Steps of the phone alone.

  function ToNet(steps: seq<Phone.Step>): seq<Network.Step> {
    seq(|steps|, i requires 0 <= i < |steps| => Network.AtPhone(steps[i]))
  }

  function AtPhoneAll(steps: seq<Phone.Step>): seq<Step> {
    seq(|steps|, i requires 0 <= i < |steps| => AtEnds(Network.AtPhone(steps[i])))
  }

  /** Every envelope opened in these steps was delivered to the phone. */
  ghost predicate OpensDelivered(s: State, steps: seq<Phone.Step>) {
    forall i :: 0 <= i < |steps| && steps[i].StartOpen? ==>
      exists msg: WireMessage :: msg.payload == Encrypted(steps[i].env) && DeliveredTo(s, PhoneParty, msg)
  }

  lemma {:induction false} PhoneLeads(company: Company, chance: Network.Chance, s: State, key: SharedKey,
                                      steps: seq<Phone.Step>)
    requires Phone.Sound(s.net.phone) && OpensDelivered(s, steps)
    ensures Leads(company, chance, s, key, AtPhoneAll(steps), AfterPhone(chance, s, steps))
    ensures Ends(AtPhoneAll(steps)) == ToNet(steps)
  {
    hide Phone.Next, Phone.Run, OpensDelivered, Leads, AfterPhone;
    if steps == [] {
      NoStepsLead(company, chance, s, key);
    } else {
      var front := steps[..|steps| - 1];
      OpensFront(s, steps);
      PhoneLeads(company, chance, s, key, front);
      LastPhoneStep(company, chance, s, key, steps);
      var t := AfterPhone(chance, s, front);
      AfterSound(chance, s, front);
      LeadsConcat(company, chance, s, key, AtPhoneAll(front), t, [AtEnds(Network.AtPhone(steps[|steps| - 1]))],
                  AfterPhone(chance, s, steps));
      PhoneStepsApart(steps);
    }
  }

  /** The state after these steps of the phone. */
  ghost function AfterPhone(chance: Network.Chance, s: State, steps: seq<Phone.Step>): State
    requires Phone.Sound(s.net.phone)
  {
    s.(net := s.net.(phone := Phone.Run(chance.derive, s.net.phone, steps)))
  }

  lemma AfterSound(chance: Network.Chance, s: State, steps: seq<Phone.Step>)
    requires Phone.Sound(s.net.phone)
    ensures Phone.Sound(AfterPhone(chance, s, steps).net.phone)
  {
  }

  lemma LastPhoneStep(company: Company, chance: Network.Chance, s: State, key: SharedKey, steps: seq<Phone.Step>)
    requires Phone.Sound(s.net.phone) && OpensDelivered(s, steps) && steps != []
    ensures var t, end := AfterPhone(chance, s, steps[..|steps| - 1]), Network.AtPhone(steps[|steps| - 1]);
            && Phone.Sound(t.net.phone) && Ends([AtEnds(end)]) == [end]
            && Leads(company, chance, t, key, [AtEnds(end)], AfterPhone(chance, s, steps))
  {
    hide Phone.Next, OpensDelivered, Leads, Possible, Respects;
    var t, end := AfterPhone(chance, s, steps[..|steps| - 1]), Network.AtPhone(steps[|steps| - 1]);
    PhonePossible(s, t, key, steps);
    EndRespects(company, t, key, end);
    OneStep(company, chance, t, key, AtEnds(end));
  }

  lemma PhoneStepsApart(steps: seq<Phone.Step>)
    requires steps != []
    ensures var front, end := steps[..|steps| - 1], Network.AtPhone(steps[|steps| - 1]);
            && AtPhoneAll(front) + [AtEnds(end)] == AtPhoneAll(steps) && ToNet(front) + [end] == ToNet(steps)
  {
  }

  lemma NoStepsLead(company: Company, chance: Network.Chance, s: State, key: SharedKey)
    requires Phone.Sound(s.net.phone)
    ensures Leads(company, chance, s, key, AtPhoneAll([]), AfterPhone(chance, s, []))
    ensures Ends(AtPhoneAll([])) == ToNet([])
  {
  }

  lemma EndRespects(company: Company, s: State, key: SharedKey, end: Network.Step)
    ensures Respects(company, s, key, AtEnds(end))
  {
  }

  lemma OpensFront(s: State, steps: seq<Phone.Step>)
    requires OpensDelivered(s, steps) && steps != []
    ensures OpensDelivered(s, steps[..|steps| - 1])
  {
    hide DeliveredTo;
    var front := steps[..|steps| - 1];
    forall i | 0 <= i < |front| && front[i].StartOpen?
      ensures exists msg: WireMessage :: msg.payload == Encrypted(front[i].env) && DeliveredTo(s, PhoneParty, msg)
    {
      assert front[i] == steps[i];
    }
  }

  lemma PhonePossible(s: State, t: State, key: SharedKey, steps: seq<Phone.Step>)
    requires OpensDelivered(s, steps) && steps != [] && t.hub == s.hub && t.owner == s.owner
    ensures Possible(t, key, AtEnds(Network.AtPhone(steps[|steps| - 1])))
  {
    SameDelivered(s, t);
    hide DeliveredTo;
  }

  lemma SameDelivered(s: State, t: State)
    requires t.hub == s.hub && t.owner == s.owner
    ensures forall who, msg :: DeliveredTo(s, who, msg) <==> DeliveredTo(t, who, msg)
  {
  }

  lemma {:induction false} CarefulAll(chance: Network.Chance, n: Network.State, steps: seq<Phone.Step>)
    requires Phone.Sound(n.phone) && Numbering.CarefulRun(chance.derive, n.phone, steps)
    ensures Network.CarefulRun(chance, n, ToNet(steps))
    ensures Network.Run(chance, n, ToNet(steps)) == n.(phone := Phone.Run(chance.derive, n.phone, steps))
  {
    hide Phone.Next, Network.Next, Numbering.Careful, Numbering.CarefulRun, ToNet;
    ToNetApart(steps);
    if steps != [] {
      var front, last := steps[..|steps| - 1], steps[|steps| - 1];
      CarefulFront(chance.derive, n.phone, steps);
      CarefulAll(chance, n, front);
      PhoneOnly(chance, n.(phone := Phone.Run(chance.derive, n.phone, front)), last);
    }
  }

  lemma ToNetApart(steps: seq<Phone.Step>)
    ensures |ToNet(steps)| == |steps|
    ensures steps != [] ==>
              && ToNet(steps)[|steps| - 1] == Network.AtPhone(steps[|steps| - 1])
              && ToNet(steps)[..|steps| - 1] == ToNet(steps[..|steps| - 1])
  {
  }

  lemma PhoneOnly(chance: Network.Chance, n: Network.State, step: Phone.Step)
    requires Phone.Sound(n.phone)
    ensures Network.Next(chance, n, Network.AtPhone(step)) == n.(phone := Phone.Next(chance.derive, n.phone, step))
  {
    hide Phone.Next;
  }

  lemma CarefulFront(derive: Phone.Derive, s: Phone.State, steps: seq<Phone.Step>)
    requires Phone.Sound(s) && Numbering.CarefulRun(derive, s, steps) && steps != []
    ensures var front := steps[..|steps| - 1];
            && Numbering.CarefulRun(derive, s, front)
            && Numbering.Careful(Phone.Run(derive, s, front), steps[|steps| - 1])
  {
    hide Phone.Run, Numbering.Careful;
    var front := steps[..|steps| - 1];
    forall i | 0 <= i < |front| ensures Numbering.Careful(Phone.Run(derive, s, front[..i]), front[i]) {
      assert front[..i] == steps[..i];
    }
  }

  // The phone hears itself.

  /** A connect, and one command. */
  function PhoneSends(to: Phone.Pairing, random: Phone.Seed, nonce: Nonce): seq<Phone.Step> {
    [Phone.Connect(to, random, true, true, true)] + NumberingLimits.SendCommand(0, "ping", "", nonce)
  }

  lemma NewObject(derive: Phone.Derive, s: Phone.State, to: Phone.Pairing, random: Phone.Seed)
    requires Phone.Sound(s) && !Phone.CanResume(s, to) && NumberingLimits.CanReach(s, to, random)
    ensures var r := Phone.Next(derive, s, Phone.Connect(to, random, true, true, true));
            && |r.objects| == |s.objects| + 1 && r.opening == s.opening
            && r.objects[|s.objects|].accepted == [] && r.objects[|s.objects|].lastPeerNum == 0
  {
    hide Phone.LoadOrCreateSeed, Phone.LoadSequence, Base64.UrlNoPadDecode;
  }

  /** What that leaves: one object, which has accepted nothing, and its one box on the wire. */
  ghost predicate JustSent(p: Phone.State, sid: string) {
    && Phone.Sound(p) && p.current == Some(0) && |p.objects| == 1 && p.opening == []
    && Phone.CanSeal(p.objects[0]) && p.objects[0].accepted == [] && p.objects[0].lastPeerNum == 0
    && |p.wire| == 1 && p.wire[0].key == p.objects[0].shared.value
    && p.wire[0].msg.sid == sid && p.wire[0].msg.typ == "ping" && p.wire[0].msg.num > 0
  }

  lemma PhoneSent(derive: Phone.Derive, storage: map<string, string>, to: Phone.Pairing, random: Phone.Seed,
                  nonce: Nonce)
    requires NumberingLimits.CanReach(Phone.Start(storage), to, random)
    ensures JustSent(Phone.Run(derive, Phone.Start(storage), PhoneSends(to, random, nonce)), to.sid)
    ensures Numbering.CarefulRun(derive, Phone.Start(storage), PhoneSends(to, random, nonce))
  {
    hide NumberingLimits.CanReach, Phone.LoadSequence, Phone.SaveSequence, Phone.LoadOrCreateSeed, Phone.Run,
         Numbering.CarefulRun, Phone.Next, NumberingLimits.SendCommand;
    var s := Phone.Start(storage);
    var connect := Phone.Connect(to, random, true, true, true);
    NumberingLimits.CarefulOne(derive, s, connect);
    NumberingLimits.ConnectEffect(derive, s, to, random);
    NewObject(derive, s, to, random);
    Phone.NextSound(derive, s, connect);
    var t := Phone.Next(derive, s, connect);
    NumberingLimits.SendCommandEffect(derive, t, "ping", "", nonce);
    NumberingLimits.CommandCareful(derive, t, "ping", "", nonce);
    NumberingLimits.Follow(derive, s, [connect], NumberingLimits.SendCommand(0, "ping", "", nonce));
  }

  /** The frame that box travels in. */
  function PhoneFrame(box: Sealing): WireMessage {
    Cipher(box.msg.sid, "mobile", PhoneSeal(box.key, box.nonce, box.msg))
  }

  function Hears(box: Sealing): seq<Phone.Step> {
    [Phone.StartOpen(PhoneFrame(box).payload.env), Phone.EndOpen(0)]
  }

  lemma HearsOwn(derive: Phone.Derive, p: Phone.State, sid: string)
    requires JustSent(p, sid)
    ensures var r := Phone.Run(derive, p, Hears(p.wire[0]));
            && |r.objects| == 1 && r.objects[0].accepted == [Phone.Received(p.wire[0].key, p.wire[0].msg)]
            && r.wire == p.wire
    ensures Numbering.CarefulRun(derive, p, Hears(p.wire[0]))
  {
    hide PhoneSeal, Phone.FinishOpen, Phone.Run, Numbering.CarefulRun;
    var box := p.wire[0];
    var env := PhoneFrame(box).payload.env;
    NumberingLimits.CarefulTwo(derive, p, Phone.StartOpen(env), Phone.EndOpen(0));
    OwnBoxOpens(p.objects[0], box);
    assert [] + [Phone.Opening(0, box.key, env)] == [Phone.Opening(0, box.key, env)];
  }

  lemma OwnBoxOpens(c: Phone.Crypto, box: Sealing)
    requires box.msg.num > c.lastPeerNum
    ensures Phone.FinishOpen(c, box.key, PhoneFrame(box).payload.env).0.accepted
         == c.accepted + [Phone.Received(box.key, box.msg)]
  {
    Base64.CrossLanguageRoundTrip(box.nonce);
    hide Base64.UrlNoPadDecode, Base64.UrlNoPadEncode, Base64.DecodeRaw, Base64.EncodeRaw;
  }

  /** The phone connects and sends one command, holds two connections of the session, the
      hub forwards the frame from one to the other, and the phone opens it. */
  function PhoneEcho(to: Phone.Pairing, random: Phone.Seed, nonce: Nonce, box: Sealing): seq<Step> {
    AtPhoneAll(PhoneSends(to, random, nonce)) + Joins(to.sid, PhoneParty, "mobile", PhoneParty)
    + Relay(0, 1, PhoneFrame(box)) + AtPhoneAll(Hears(box))
  }

  lemma PhoneEchoLeads(company: Company, chance: Network.Chance, setup: Setup, to: Phone.Pairing,
                       random: Phone.Seed, nonce: Nonce)
    requires company.phones && to.sid != ""
    requires NumberingLimits.CanReach(Phone.Start(setup.storage), to, random)
    ensures var sends := PhoneSends(to, random, nonce);
            var p := Phone.Run(chance.derive, Phone.Start(setup.storage), sends);
            && |p.wire| == 1
            && var box := p.wire[0];
               var steps := PhoneEcho(to, random, nonce, box);
               && PossibleRun(company, chance, Start(setup), box.key, steps)
               && Ends(steps) == ToNet(sends) + ToNet(Hears(box))
               && Run(chance, Start(setup), steps).net
                  == Start(setup).net.(phone := Phone.Run(chance.derive, p, Hears(box)))
  {
    hide NumberingLimits.CanReach, PhoneSends, Phone.Run, Hears, PossibleRun, Run, Pair, Idle, Passed, Joins, Relay;
    var sends := PhoneSends(to, random, nonce);
    var p := Phone.Run(chance.derive, Phone.Start(setup.storage), sends);
    PhoneSent(chance.derive, setup.storage, to, random, nonce);
    var box := p.wire[0];
    var key, msg := box.key, PhoneFrame(box);
    var s0 := Start(setup);
    assert OpensDelivered(s0, sends) by { NothingOpened(to, random, nonce); }
    PhoneLeads(company, chance, s0, key, sends);
    var s1 := s0.(net := s0.net.(phone := p));
    JoinsLead(company, chance, s1, key, to.sid, PhoneParty, "mobile", PhoneParty);
    var joins := Joins(to.sid, PhoneParty, "mobile", PhoneParty);
    var s2 := Run(chance, s1, joins);
    assert Writable(s2, key, PhoneParty, msg) by { BoxOnWire(p, to.sid, s2.net); }
    assert Sendable(s2.hub.clients[0], msg) by { JoinedSends(s2, to.sid, box); }
    JoinedKeys(s2, to.sid, PhoneParty, "mobile", PhoneParty);
    RelayLeads(company, chance, s2, key, 0, 1, msg);
    var s3 := s2.(hub := Passed(s2.hub, 0, 1, msg));
    assert OpensDelivered(s3, Hears(box)) by { HearsDelivered(s2, box); }
    PhoneLeads(company, chance, s3, key, Hears(box));
    var s4 := s3.(net := s3.net.(phone := Phone.Run(chance.derive, p, Hears(box))));
    LeadsConcat(company, chance, s0, key, AtPhoneAll(sends), s1, joins, s2);
    LeadsConcat(company, chance, s0, key, AtPhoneAll(sends) + joins, s2, Relay(0, 1, msg), s3);
    LeadsConcat(company, chance, s0, key, AtPhoneAll(sends) + joins + Relay(0, 1, msg), s3, AtPhoneAll(Hears(box)), s4);
    assert ToNet(sends) + [] + [] == ToNet(sends);
  }

  lemma NothingOpened(to: Phone.Pairing, random: Phone.Seed, nonce: Nonce)
    ensures forall step :: step in PhoneSends(to, random, nonce) ==> !step.StartOpen?
  {
  }

  lemma JoinedKeys(s: State, sid: string, one: Party, role: string, two: Party)
    requires Joined(s, sid, one, role, two)
    ensures 0 in s.hub.clients && 1 in s.hub.clients && Pair(s.hub, 0, 1, sid) && Pair(s.hub, 1, 0, sid)
  {
  }

  lemma JoinedSends(s: State, sid: string, box: Sealing)
    requires Joined(s, sid, PhoneParty, "mobile", PhoneParty) && box.msg.sid == sid
    ensures 0 in s.hub.clients && Sendable(s.hub.clients[0], PhoneFrame(box))
  {
  }

  lemma BoxOnWire(p: Phone.State, sid: string, net: Network.State)
    requires JustSent(p, sid) && net.phone == p
    ensures var box := p.wire[0];
            Boxed(box.key, PhoneFrame(box)) == Some(box.msg) && Network.OnWire(net.phone, box.key, box.msg)
  {
    hide Base64.UrlNoPadEncode;
    assert p.wire[0] in p.wire;
  }

  lemma HearsDelivered(s: State, box: Sealing)
    requires Joined(s, box.msg.sid, PhoneParty, "mobile", PhoneParty)
    ensures 0 in s.hub.clients && 1 in s.hub.clients
    ensures OpensDelivered(s.(hub := Passed(s.hub, 0, 1, PhoneFrame(box))), Hears(box))
  {
    var msg := PhoneFrame(box);
    var r := s.(hub := Passed(s.hub, 0, 1, msg));
    var f := Hub.Frame(0, s.hub.clients[0].got, Some(msg));
    assert Hub.Relayed(f) in r.hub.clients[1].delivered;
    assert DeliveredTo(r, PhoneParty, msg);
  }

  /** The phone's only object has accepted one message, the phone itself has sent it, and
      the daemon has sealed nothing at all. */
  ghost predicate HeardItself(r: Network.State, key: SharedKey) {
    && |r.phone.objects| == 1 && |r.phone.objects[0].accepted| == 1 && r.phone.objects[0].accepted[0].key == key
    && Network.OnWire(r.phone, key, r.phone.objects[0].accepted[0].msg)
    && r.daemon.sender.sealed == []
  }

  /** With two phone connections in a session the end-to-end property fails: the phone's
      object accepts the phone's own command, and the daemon has made nothing at all. */
  lemma PhoneHearsItself(company: Company, chance: Network.Chance, setup: Setup, to: Phone.Pairing,
                         random: Phone.Seed, nonce: Nonce)
    requires company.phones && to.sid != ""
    requires NumberingLimits.CanReach(Phone.Start(setup.storage), to, random)
    ensures exists key, steps ::
              && InCompany(company, chance, setup, key, steps)
              && HeardItself(Run(chance, Start(setup), steps).net, key)
              && !EndToEnd(setup, key, Run(chance, Start(setup), steps).net, 0)
  {
    var p := Phone.Run(chance.derive, Phone.Start(setup.storage), PhoneSends(to, random, nonce));
    hide *;
    PhoneEchoInCompany(company, chance, setup, to, random, nonce);
    PhoneEchoHeard(company, chance, setup, to, random, nonce);
    var steps := PhoneEcho(to, random, nonce, p.wire[0]);
    assert InCompany(company, chance, setup, p.wire[0].key, steps);
  }

  lemma PhoneEchoInCompany(company: Company, chance: Network.Chance, setup: Setup, to: Phone.Pairing,
                           random: Phone.Seed, nonce: Nonce)
    requires company.phones && to.sid != ""
    requires NumberingLimits.CanReach(Phone.Start(setup.storage), to, random)
    ensures var p := Phone.Run(chance.derive, Phone.Start(setup.storage), PhoneSends(to, random, nonce));
            |p.wire| == 1
            && InCompany(company, chance, setup, p.wire[0].key, PhoneEcho(to, random, nonce, p.wire[0]))
  {
    hide NumberingLimits.CanReach, PhoneSends, Phone.Run, Hears, PossibleRun, Run, PhoneEcho, Network.CarefulRun,
         InCompany, AcceptsAmong;
    PhoneEchoLeads(company, chance, setup, to, random, nonce);
    PhoneEchoCareful(chance, setup, to, random, nonce);
    var box := Phone.Run(chance.derive, Phone.Start(setup.storage), PhoneSends(to, random, nonce)).wire[0];
    PhoneEchoAccepts(to, random, nonce, box);
    StartedInCompany(company, chance, setup, box.key, PhoneEcho(to, random, nonce, box), {PhoneParty});
  }

  lemma PhoneEchoHeard(company: Company, chance: Network.Chance, setup: Setup, to: Phone.Pairing,
                       random: Phone.Seed, nonce: Nonce)
    requires company.phones && to.sid != ""
    requires NumberingLimits.CanReach(Phone.Start(setup.storage), to, random)
    ensures var p := Phone.Run(chance.derive, Phone.Start(setup.storage), PhoneSends(to, random, nonce));
            |p.wire| == 1
            && var r := Run(chance, Start(setup), PhoneEcho(to, random, nonce, p.wire[0])).net;
               HeardItself(r, p.wire[0].key) && !EndToEnd(setup, p.wire[0].key, r, 0)
  {
    hide NumberingLimits.CanReach, PhoneSends, Phone.Run, Hears, PossibleRun, Run, PhoneEcho, Network.CarefulRun,
         EndToEnd, HeardItself;
    PhoneEchoLeads(company, chance, setup, to, random, nonce);
    PhoneEchoCareful(chance, setup, to, random, nonce);
    var box := Phone.Run(chance.derive, Phone.Start(setup.storage), PhoneSends(to, random, nonce)).wire[0];
    OwnEchoBreaks(setup, box, Run(chance, Start(setup), PhoneEcho(to, random, nonce, box)).net);
  }

  lemma StartedInCompany(company: Company, chance: Network.Chance, setup: Setup, key: SharedKey, steps: seq<Step>,
                         parties: set<Party>)
    requires PossibleRun(company, chance, Start(setup), key, steps)
    requires Network.CarefulRun(chance, Start(setup).net, Ends(steps))
    requires AcceptsAmong(steps, parties) && Covered(company, parties)
    ensures InCompany(company, chance, setup, key, steps)
  {
    hide PossibleRun, MemberRun, Run, AcceptsAmong, Covered, Network.CarefulRun;
    OwnersRun(company, chance, Start(setup), key, steps, parties);
  }

  lemma AcceptsConcat(a: seq<Step>, b: seq<Step>, parties: set<Party>)
    requires AcceptsAmong(a, parties) && AcceptsAmong(b, parties)
    ensures AcceptsAmong(a + b, parties)
  {
  }

  lemma RelayAccepts(c: nat, p: nat, msg: WireMessage, parties: set<Party>)
    ensures AcceptsAmong(Relay(c, p, msg), parties)
  {
  }

  lemma JoinsAccept(sid: string, one: Party, role: string, two: Party, parties: set<Party>)
    requires one in parties && two in parties
    ensures AcceptsAmong(Joins(sid, one, role, two), parties)
  {
  }

  lemma PhoneAccepts(steps: seq<Phone.Step>, parties: set<Party>)
    ensures AcceptsAmong(AtPhoneAll(steps), parties)
  {
  }

  lemma PhoneEchoAccepts(to: Phone.Pairing, random: Phone.Seed, nonce: Nonce, box: Sealing)
    ensures AcceptsAmong(PhoneEcho(to, random, nonce, box), {PhoneParty})
  {
    hide AcceptsAmong, Joins, Relay, AtPhoneAll, PhoneSends, Hears, PhoneFrame;
    var parties := {PhoneParty};
    var sends, joins := AtPhoneAll(PhoneSends(to, random, nonce)), Joins(to.sid, PhoneParty, "mobile", PhoneParty);
    PhoneAccepts(PhoneSends(to, random, nonce), parties);
    JoinsAccept(to.sid, PhoneParty, "mobile", PhoneParty, parties);
    RelayAccepts(0, 1, PhoneFrame(box), parties);
    PhoneAccepts(Hears(box), parties);
    AcceptsConcat(sends, joins, parties);
    AcceptsConcat(sends + joins, Relay(0, 1, PhoneFrame(box)), parties);
    AcceptsConcat(sends + joins + Relay(0, 1, PhoneFrame(box)), AtPhoneAll(Hears(box)), parties);
  }

  lemma PhoneEchoCareful(chance: Network.Chance, setup: Setup, to: Phone.Pairing, random: Phone.Seed, nonce: Nonce)
    requires NumberingLimits.CanReach(Phone.Start(setup.storage), to, random)
    ensures var sends := PhoneSends(to, random, nonce);
            var p := Phone.Run(chance.derive, Phone.Start(setup.storage), sends);
            && |p.wire| == 1 && p.wire[0].msg.sid == to.sid
            && Network.CarefulRun(chance, Start(setup).net, ToNet(sends) + ToNet(Hears(p.wire[0])))
            && var r := Phone.Run(chance.derive, p, Hears(p.wire[0]));
               && |r.objects| == 1 && r.objects[0].accepted == [Phone.Received(p.wire[0].key, p.wire[0].msg)]
               && r.wire == p.wire
  {
    hide NumberingLimits.CanReach, PhoneSends, Phone.Run, Hears, Numbering.CarefulRun, Network.CarefulRun, Network.Run;
    var sends := PhoneSends(to, random, nonce);
    var p := Phone.Run(chance.derive, Phone.Start(setup.storage), sends);
    PhoneSent(chance.derive, setup.storage, to, random, nonce);
    var box := p.wire[0];
    HearsOwn(chance.derive, p, to.sid);
    NumberingLimits.Follow(chance.derive, Phone.Start(setup.storage), sends, Hears(box));
    CarefulAll(chance, Start(setup).net, sends + Hears(box));
    assert ToNet(sends + Hears(box)) == ToNet(sends) + ToNet(Hears(box));
  }

  lemma OwnEchoBreaks(setup: Setup, box: Sealing, r: Network.State)
    requires |r.phone.objects| == 1 && r.phone.objects[0].accepted == [Phone.Received(box.key, box.msg)]
    requires r.daemon.sender.sealed == [] && r.phone.wire == [box]
    ensures HeardItself(r, box.key) && !EndToEnd(setup, box.key, r, 0)
  {
    assert box in r.phone.wire;
    var key := box.key;
    var got := Network.AcceptedUnder(r.phone.objects[0], key);
    var made := Network.Messages(Network.DaemonSealed(r.daemon, key));
    var accepted := r.phone.objects[0].accepted;
    FilterAppend([], accepted[0], (x: Phone.Received) => x.key == key);
    assert [] + [accepted[0]] == accepted;
    assert got == [box.msg] && made == [];
    assert got[0] in got;
    if Subsequence(got, made) { SubsequenceMembers(got, made); }
  }

  // A stranger passes the daemon's own box back to it.

  const CALM := Daemon.World(0, Registry.Done, None, "", false, "", None)

  function HelloFrom(sid: string, phone: PublicKey): WireMessage {
    WireMessage("mobile_hello", sid, "mobile", EncodePublicKey(phone), "d", "", NoPayload)
  }

  /** The daemon has paired with this phone, has sealed its first box, and has accepted
      nothing. */
  ghost predicate JustPaired(d: Daemon.State, own: KeyPair, phone: PublicKey, sid: string, box: Sealing) {
    && d.sender.own == own && d.sender.peer.Some? && d.sender.peer.value.key == phone && Daemon.GateOpen(d)
    && d.sender.lastRecv == 0 && d.sender.accepted == [] && d.sender.sealed == [box]
    && box.key == Agree(own, phone) && box.msg == PlainMessage("session_ready", sid, 1, "d ")
  }

  lemma PairSeals(tape: Sender.Tape, d: Daemon.State, phone: PublicKey, nonce: Nonce)
    requires d.sender == Sender.Fresh(d.sender.sid, d.sender.own) && tape(1) == Some(nonce)
    ensures var r := Daemon.Pair(tape, d, EncodePublicKey(phone), "d", "");
            && r.sender.lastRecv == 0 && r.sender.accepted == [] && r.sender.own == d.sender.own
            && r.sender.sealed == [Sealing(Agree(d.sender.own, phone), nonce,
                                           PlainMessage("session_ready", d.sender.sid, 1, "d "))]
            && r.sender.peer.Some? && r.sender.peer.value.key == phone
  {
    EncodeParse(phone);
    hide EncodePublicKey, ParsePublicKey, Sender.SealedFrame;
    assert "d" + " " + "" == "d ";
  }

  lemma HelloSeals(tape: Sender.Tape, setup: Setup, phone: PublicKey, nonce: Nonce)
    requires tape(1) == Some(nonce) && Daemon.Admits(Start(setup).net.daemon, EncodePublicKey(phone), "d", CALM)
    ensures var d := Start(setup).net.daemon;
            var box := Sealing(Agree(setup.own, phone), nonce, PlainMessage("session_ready", setup.sid, 1, "d "));
            JustPaired(Daemon.Next(tape, d, Daemon.Frame(HelloFrom(setup.sid, phone), CALM)),
                       setup.own, phone, setup.sid, box)
  {
    var d, msg, key := Start(setup).net.daemon, HelloFrom(setup.sid, phone), EncodePublicKey(phone);
    Daemon.HelloPairsExactly(tape, d, msg, CALM);
    EncodeParse(phone);
    Daemon.EmptyKeyNeverParses();
    hide EncodePublicKey, ParsePublicKey, Registry.IsAuthorized, Registry.Apply, Daemon.Pair;
    var touch, authorize := Registry.Touch("d", 0), Registry.Authorize("d", "", key, 0);
    PairSeals(tape, d.(registry := Registry.Apply(d.registry, touch, Registry.Done)), phone, nonce);
    PairSeals(tape, d.(registry := Registry.Apply(d.registry, authorize, Registry.Done)), phone, nonce);
  }

  /** The box in the daemon's frame, and in the one a stranger makes of it. */
  function BoxFrame(own: KeyPair, phone: PublicKey, box: Sealing, role: string): WireMessage {
    Cipher(box.msg.sid, role, Seal(own, phone, "daemon", box.nonce, box.msg))
  }

  lemma DaemonHearsOwn(tape: Sender.Tape, d: Daemon.State, own: KeyPair, phone: PublicKey, sid: string, box: Sealing)
    requires JustPaired(d, own, phone, sid, box)
    ensures var r := Daemon.Next(tape, d, Daemon.Frame(BoxFrame(own, phone, box, "mobile"), CALM));
            r.sender.accepted == [box.msg] && r.sender.peer == d.sender.peer
  {
    var msg := BoxFrame(own, phone, box, "mobile");
    OwnBoxReceived(d, own, phone, sid, box);
    FrameFields(own, phone, box);
    hide BoxFrame, Sender.Receive, Daemon.Command;
    NotACommand(tape, d, msg);
  }

  lemma OwnBoxReceived(d: Daemon.State, own: KeyPair, phone: PublicKey, sid: string, box: Sealing)
    requires JustPaired(d, own, phone, sid, box)
    ensures var (after, got) := Sender.Receive(d.sender, BoxFrame(own, phone, box, "mobile").payload.env);
            got == Ok(box.msg) && after.accepted == [box.msg] && after.peer == d.sender.peer
  {
    EchoIsAccepted(Phone.NewCrypto(own, 0, sid), box.key, box.nonce, box.msg, d.sender);
    hide Seal, Open, Daemon.GateOpen;
    assert [] + [box.msg] == [box.msg];
  }

  /** A message that is no command is accepted all the same. */
  lemma NotACommand(tape: Sender.Tape, d: Daemon.State, msg: WireMessage)
    requires Daemon.GateOpen(d) && msg.payload.Encrypted? && d.sender.peer.Some?
    requires Sender.Receive(d.sender, msg.payload.env).1.Ok?
    requires Sender.Receive(d.sender, msg.payload.env).1.value.typ == "session_ready"
    requires Sender.Receive(d.sender, msg.payload.env).0.peer == d.sender.peer
    ensures var after := Sender.Receive(d.sender, msg.payload.env).0;
            var r := Daemon.Command(tape, d, msg, CALM);
            r.sender.accepted == after.accepted && r.sender.peer == d.sender.peer
  {
    hide Sender.Receive, Registry.IsAuthorized, Sender.SealedFrame;
  }

  function HelloStep(sid: string, phone: PublicKey): Network.Step {
    Network.AtDaemon(Daemon.Frame(HelloFrom(sid, phone), CALM))
  }

  function EchoStep(own: KeyPair, phone: PublicKey, box: Sealing): Network.Step {
    Network.AtDaemon(Daemon.Frame(BoxFrame(own, phone, box, "mobile"), CALM))
  }

  /** A phone's hello pairs the daemon, the daemon and a stranger share the session, the
      hub gives the stranger the daemon's frame, and the stranger sends its box back. */
  function StrangerEcho(own: KeyPair, phone: PublicKey, sid: string, box: Sealing): seq<Step> {
    [AtEnds(HelloStep(sid, phone))] + Joins(sid, DaemonParty, "daemon", Stranger)
    + Relay(0, 1, BoxFrame(own, phone, box, "daemon")) + Relay(1, 0, BoxFrame(own, phone, box, "mobile"))
    + [AtEnds(EchoStep(own, phone, box))]
  }

  lemma BoxFrameHolds(own: KeyPair, phone: PublicKey, box: Sealing, role: string)
    requires box.key == Agree(own, phone)
    ensures Boxed(box.key, BoxFrame(own, phone, box, role)) == Some(box.msg)
  {
    hide Base64.EncodeRaw;
  }

  /** The frame is in the session, and its sender's role fits. */
  lemma JoinedSendable(s: State, sid: string, one: Party, role: string, two: Party, msg: WireMessage)
    requires Joined(s, sid, one, role, two) && msg.sid == sid && msg.typ != "ping"
    ensures 0 in s.hub.clients && 1 in s.hub.clients
    ensures msg.role == role ==> Sendable(s.hub.clients[0], msg)
    ensures msg.role == "mobile" ==> Sendable(Passed(s.hub, 0, 1, msg).clients[1], msg)
    ensures s.hub.clients[1].role == "mobile"
  {
  }

  lemma PassedOn(s: State, key: SharedKey, sid: string, one: Party, role: string, two: Party, msg: WireMessage)
    requires Joined(s, sid, one, role, two) && msg.sid == sid && two == Stranger
    ensures 0 in s.hub.clients && 1 in s.hub.clients
    ensures var r := s.(hub := Passed(s.hub, 0, 1, msg));
            && DeliveredTo(r, two, msg) && Pair(r.hub, 1, 0, sid) && r.hub.clients[1].role == "mobile"
            && OwnerOf(r, 0) == one && OwnerOf(r, 1) == two
            && forall m :: Boxed(key, msg) == Some(m) ==> PassedToStrangers(r, key, m)
  {
    var r := s.(hub := Passed(s.hub, 0, 1, msg));
    var f := Hub.Frame(0, s.hub.clients[0].got, Some(msg));
    assert Hub.Relayed(f) in r.hub.clients[1].delivered;
    assert {0, 1} == {1, 0};
    assert DeliveredTo(r, two, msg);
  }

  lemma PassedBack(s: State, who: Party, msg: WireMessage)
    requires 0 in s.hub.clients && 1 in s.hub.clients && OwnerOf(s, 0) == who
    ensures DeliveredTo(s.(hub := Passed(s.hub, 1, 0, msg)), who, msg)
  {
    var r := s.(hub := Passed(s.hub, 1, 0, msg));
    var f := Hub.Frame(1, s.hub.clients[1].got, Some(msg));
    assert Hub.Relayed(f) in r.hub.clients[0].delivered;
  }

  lemma EndStep(company: Company, chance: Network.Chance, s: State, key: SharedKey, end: Network.Step)
    requires Phone.Sound(s.net.phone) && Possible(s, key, AtEnds(end))
    ensures Leads(company, chance, s, key, [AtEnds(end)], s.(net := Network.Next(chance, s.net, end)))
    ensures Ends([AtEnds(end)]) == [end]
  {
    hide Possible, Network.Next;
    OneStep(company, chance, s, key, AtEnds(end));
  }

  lemma StrangerEchoLeads(company: Company, chance: Network.Chance, setup: Setup, phone: PublicKey, box: Sealing)
    requires company.strangers && setup.sid != "" && box.key == Agree(setup.own, phone)
    requires JustPaired(Network.Next(chance, Start(setup).net, HelloStep(setup.sid, phone)).daemon,
                        setup.own, phone, setup.sid, box)
    ensures var steps := StrangerEcho(setup.own, phone, setup.sid, box);
            var paired := Network.Next(chance, Start(setup).net, HelloStep(setup.sid, phone));
            && PossibleRun(company, chance, Start(setup), box.key, steps)
            && Ends(steps) == [HelloStep(setup.sid, phone), EchoStep(setup.own, phone, box)]
            && Run(chance, Start(setup), steps).net == Network.Next(chance, paired, EchoStep(setup.own, phone, box))
  {
    hide PossibleRun, Run, Pair, Idle, Passed, Joins, Relay, BoxFrame, Network.Next, Boxed, Sendable;
    var sid, key := setup.sid, box.key;
    var hello, echo := HelloStep(sid, phone), EchoStep(setup.own, phone, box);
    var frame, back := BoxFrame(setup.own, phone, box, "daemon"), BoxFrame(setup.own, phone, box, "mobile");
    FrameFields(setup.own, phone, box);
    BoxFrameHolds(setup.own, phone, box, "daemon");
    BoxFrameHolds(setup.own, phone, box, "mobile");
    var s0 := Start(setup);
    EndStep(company, chance, s0, key, hello);
    var s1 := s0.(net := Network.Next(chance, s0.net, hello));
    var joins := Joins(sid, DaemonParty, "daemon", Stranger);
    JoinsLead(company, chance, s1, key, sid, DaemonParty, "daemon", Stranger);
    var s2 := Run(chance, s1, joins);
    JoinedKeys(s2, sid, DaemonParty, "daemon", Stranger);
    JoinedSendable(s2, sid, DaemonParty, "daemon", Stranger, frame);
    assert Network.SealedByDaemon(s2.net.daemon, key, box.msg) by { assert box in s2.net.daemon.sender.sealed; }
    RelayLeads(company, chance, s2, key, 0, 1, frame);
    var s3 := s2.(hub := Passed(s2.hub, 0, 1, frame));
    PassedOn(s2, key, sid, DaemonParty, "daemon", Stranger, frame);
    assert Sendable(s3.hub.clients[1], back) by { PairSendable(s3.hub, 1, 0, sid, back); }
    RelayLeads(company, chance, s3, key, 1, 0, back);
    var s4 := s3.(hub := Passed(s3.hub, 1, 0, back));
    PairKeys(s3.hub, 1, 0, sid);
    PassedBack(s3, DaemonParty, back);
    EndStep(company, chance, s4, key, echo);
    var s5 := s4.(net := Network.Next(chance, s4.net, echo));
    var first, second := Relay(0, 1, frame), Relay(1, 0, back);
    LeadsConcat(company, chance, s0, key, [AtEnds(hello)], s1, joins, s2);
    LeadsConcat(company, chance, s0, key, [AtEnds(hello)] + joins, s2, first, s3);
    LeadsConcat(company, chance, s0, key, [AtEnds(hello)] + joins + first, s3, second, s4);
    LeadsConcat(company, chance, s0, key, [AtEnds(hello)] + joins + first + second, s4, [AtEnds(echo)], s5);
    assert [hello] + [] + [] + [] + [echo] == [hello, echo];
  }

  lemma FrameFields(own: KeyPair, phone: PublicKey, box: Sealing)
    ensures forall role :: var m := BoxFrame(own, phone, box, role);
                           m.sid == box.msg.sid && m.typ == "ciphertext" && m.role == role && m.payload.Encrypted?
  {
  }

  lemma PairKeys(h: Hub.State<nat>, c: nat, p: nat, sid: string)
    requires Pair(h, c, p, sid)
    ensures c in h.clients && p in h.clients
  {
  }

  lemma PairSendable(h: Hub.State<nat>, c: nat, p: nat, sid: string, msg: WireMessage)
    requires Pair(h, c, p, sid) && msg.sid == sid && msg.typ != "ping" && h.clients[c].role == msg.role
    ensures Sendable(h.clients[c], msg)
  {
  }

  /** The daemon has accepted one message in the session, it has sealed that itself, and the
      phone has made nothing at all. */
  ghost predicate HeardBack(setup: Setup, r: Network.State, key: SharedKey) {
    && r.daemon.sender.peer.Some? && Agree(setup.own, r.daemon.sender.peer.value.key) == key
    && |r.daemon.sender.accepted| == 1 && r.daemon.sender.accepted[0].sid == setup.sid
    && Network.SealedByDaemon(r.daemon, key, r.daemon.sender.accepted[0])
    && r.phone.made == []
  }

  /** With a stranger that passes on boxes the end-to-end property fails: the daemon accepts
      its own first event as a phone's message, and the phone has sent nothing at all. */
  lemma StrangerReturns(company: Company, chance: Network.Chance, setup: Setup, phone: PublicKey, nonce: Nonce)
    requires company.strangers && setup.sid != "" && chance.tape(1) == Some(nonce)
    requires Daemon.Admits(Start(setup).net.daemon, EncodePublicKey(phone), "d", CALM)
    ensures exists key, steps ::
              && InCompany(company, chance, setup, key, steps)
              && HeardBack(setup, Run(chance, Start(setup), steps).net, key)
              && !EndToEnd(setup, key, Run(chance, Start(setup), steps).net, 0)
  {
    hide Daemon.Admits, Daemon.Next, BoxFrame, HelloFrom, EndToEnd, PossibleRun, Run, StrangerEcho, EncodePublicKey,
         InCompany, AcceptsAmong;
    var box := Sealing(Agree(setup.own, phone), nonce, PlainMessage("session_ready", setup.sid, 1, "d "));
    HelloSeals(chance.tape, setup, phone, nonce);
    StrangerEchoLeads(company, chance, setup, phone, box);
    var steps := StrangerEcho(setup.own, phone, setup.sid, box);
    var paired := Network.Next(chance, Start(setup).net, HelloStep(setup.sid, phone));
    DaemonHearsOwn(chance.tape, paired.daemon, setup.own, phone, setup.sid, box);
    DaemonStepsCareful(chance, Start(setup).net, HelloStep(setup.sid, phone), EchoStep(setup.own, phone, box));
    StrangerEchoAccepts(setup.own, phone, setup.sid, box);
    StartedInCompany(company, chance, setup, box.key, steps, {DaemonParty, Stranger});
    var r := Run(chance, Start(setup), steps).net;
    StillSealed(chance, paired, setup.own, phone, box);
    OwnEventBreaks(setup, phone, box, r);
    assert HeardBack(setup, r, box.key);
  }

  lemma StillSealed(chance: Network.Chance, paired: Network.State, own: KeyPair, phone: PublicKey, box: Sealing)
    requires Phone.Sound(paired.phone) && paired.daemon.sender.sealed == [box]
    ensures Network.SealedByDaemon(Network.Next(chance, paired, EchoStep(own, phone, box)).daemon, box.key, box.msg)
  {
    hide Daemon.Next, BoxFrame;
    assert box in paired.daemon.sender.sealed;
    Network.SealedGrows(chance, paired.daemon, EchoStep(own, phone, box).d, box.key, box.msg);
  }

  lemma StrangerEchoAccepts(own: KeyPair, phone: PublicKey, sid: string, box: Sealing)
    ensures AcceptsAmong(StrangerEcho(own, phone, sid, box), {DaemonParty, Stranger})
  {
    hide Joins, Relay, BoxFrame, HelloStep, EchoStep;
    var parties := {DaemonParty, Stranger};
    var hello, joins := [AtEnds(HelloStep(sid, phone))], Joins(sid, DaemonParty, "daemon", Stranger);
    var there := Relay(0, 1, BoxFrame(own, phone, box, "daemon"));
    var back := Relay(1, 0, BoxFrame(own, phone, box, "mobile"));
    var echo := [AtEnds(EchoStep(own, phone, box))];
    assert AcceptsAmong(hello, parties) && AcceptsAmong(echo, parties);
    JoinsAccept(sid, DaemonParty, "daemon", Stranger, parties);
    RelayAccepts(0, 1, BoxFrame(own, phone, box, "daemon"), parties);
    RelayAccepts(1, 0, BoxFrame(own, phone, box, "mobile"), parties);
    hide AcceptsAmong;
    AcceptsConcat(hello, joins, parties);
    AcceptsConcat(hello + joins, there, parties);
    AcceptsConcat(hello + joins + there, back, parties);
    AcceptsConcat(hello + joins + there + back, echo, parties);
  }

  lemma DaemonStepsCareful(chance: Network.Chance, n: Network.State, a: Network.Step, b: Network.Step)
    requires Phone.Sound(n.phone) && a.AtDaemon? && b.AtDaemon?
    ensures Network.CarefulRun(chance, n, [a, b])
  {
    hide Network.Next;
    var both, one := [a, b], [a];
    assert both[..|both| - 1] == one && one[..|one| - 1] == [];
    assert Network.CarefulRun(chance, n, []) && Network.CarefulRun(chance, n, one);
  }

  lemma OwnEventBreaks(setup: Setup, phone: PublicKey, box: Sealing, r: Network.State)
    requires r.daemon.sender.accepted == [box.msg] && box.msg.sid == setup.sid && box.key == Agree(setup.own, phone)
    requires r.daemon.sender.peer.Some? && r.daemon.sender.peer.value.key == phone && r.phone.made == []
    ensures !EndToEnd(setup, box.key, r, 0)
  {
    var accepted := r.daemon.sender.accepted;
    var got := Network.OfSession(accepted, setup.sid);
    var sent := Network.Messages(Network.PhoneSent(r.phone, box.key, setup.sid));
    FilterAppend([], accepted[0], (m: PlainMessage) => m.sid == setup.sid);
    assert [] + [accepted[0]] == accepted;
    assert Numbering.SentAsSealed(r.phone) == [];
    assert got == [box.msg] && sent == [];
    assert got[0] in got;
    if Subsequence(got, sent) { SubsequenceMembers(got, sent); }
  }

  // The exact condition.

  ghost predicate AlwaysKept(company: Company) {
    forall chance, setup, key, steps, i :: Promise(company, chance, setup, key, steps, i)
  }

  ghost predicate AlwaysKeptByMembers(company: Company) {
    forall chance, setup, key, steps, i :: MemberPromise(company, chance, setup, key, steps, i)
  }

  /** The end-to-end property holds of every run in a company if and only if that company
      is private: no phone's frame is forwarded to that phone, and no stranger passes a
      party's own boxes back to it. */
  lemma EndToEndExactly(company: Company)
    ensures AlwaysKept(company) <==> company == PRIVATE
  {
    hide Promise, InCompany, EndToEnd;
    if company == PRIVATE {
      forall chance, setup, key, steps, i ensures Promise(company, chance, setup, key, steps, i) {
        PrivatePromise(chance, setup, key, steps, i);
      }
    } else {
      var chance, setup, key, steps := SomeRunFails(company);
      BothBroken(company, chance, setup, key, steps);
    }
  }

  /** It holds of every run whose sessions have only allowed members if and only if no session
      may have two connections of the phone, and none a stranger that carries a box beside
      the daemon or the phone: each of the two conditions is needed. */
  lemma PrivateSessionsExactly(company: Company)
    ensures AlwaysKeptByMembers(company) <==> company == PRIVATE
  {
    hide MemberPromise, InCompany, EndToEnd;
    if company == PRIVATE {
      forall chance, setup, key, steps, i ensures MemberPromise(company, chance, setup, key, steps, i) {
        PrivateMemberPromise(chance, setup, key, steps, i);
      }
    } else {
      var chance, setup, key, steps := SomeRunFails(company);
      BothBroken(company, chance, setup, key, steps);
    }
  }

  lemma PrivatePromise(chance: Network.Chance, setup: Setup, key: SharedKey, steps: seq<Step>, i: nat)
    ensures Promise(PRIVATE, chance, setup, key, steps, i)
  {
    hide PossibleRun, Network.CarefulRun, EndToEnd, Run;
    if PossibleRun(PRIVATE, chance, Start(setup), key, steps)
       && Network.CarefulRun(chance, Start(setup).net, Ends(steps))
    {
      EndToEndThroughTheHub(chance, setup, key, steps, i);
    }
  }

  lemma PrivateMemberPromise(chance: Network.Chance, setup: Setup, key: SharedKey, steps: seq<Step>, i: nat)
    ensures MemberPromise(PRIVATE, chance, setup, key, steps, i)
  {
    hide MemberRun, Network.CarefulRun, EndToEnd, Run;
    if MemberRun(PRIVATE, chance, Start(setup), key, steps)
       && Network.CarefulRun(chance, Start(setup).net, Ends(steps))
    {
      EndToEndInPrivateSessions(chance, setup, key, steps, i);
    }
  }

  lemma BothBroken(company: Company, chance: Network.Chance, setup: Setup, key: SharedKey, steps: seq<Step>)
    requires InCompany(company, chance, setup, key, steps)
    requires !EndToEnd(setup, key, Run(chance, Start(setup), steps).net, 0)
    ensures !Promise(company, chance, setup, key, steps, 0) && !MemberPromise(company, chance, setup, key, steps, 0)
  {
    hide PossibleRun, MemberRun, Network.CarefulRun, EndToEnd, Run;
  }

  lemma SomeRunFails(company: Company)
    returns (chance: Network.Chance, setup: Setup, key: SharedKey, steps: seq<Step>)
    requires company.phones || company.strangers
    ensures InCompany(company, chance, setup, key, steps)
    ensures !EndToEnd(setup, key, Run(chance, Start(setup), steps).net, 0)
  {
    hide InCompany, EndToEnd, HeardItself, HeardBack, NumberingLimits.CanReach, Daemon.Admits, Base64.EncodeRaw,
         EncodePublicKey, Start, Phone.Start, Run;
    var zero: PublicKey := seq(32, _ => 0);
    var nonce: Nonce := seq(24, _ => 0);
    setup := Setup("s", KeyPair(zero), Registry.Missing, 0, map[]);
    chance := Network.Chance(_ => Some(nonce), seed => seed);
    assert |setup.sid| == 1;
    if company.phones {
      var to := Phone.Pairing("s", Base64.EncodeRaw(Base64.UrlSafe, zero));
      ZeroReachable(to, zero);
      PhoneHearsItself(company, chance, setup, to, zero, nonce);
      key, steps :| InCompany(company, chance, setup, key, steps)
                    && HeardItself(Run(chance, Start(setup), steps).net, key)
                    && !EndToEnd(setup, key, Run(chance, Start(setup), steps).net, 0);
    } else {
      ZeroAdmitted(setup, zero);
      StrangerReturns(company, chance, setup, zero, nonce);
      key, steps :| InCompany(company, chance, setup, key, steps)
                    && HeardBack(setup, Run(chance, Start(setup), steps).net, key)
                    && !EndToEnd(setup, key, Run(chance, Start(setup), steps).net, 0);
    }
  }

  lemma ZeroReachable(to: Phone.Pairing, zero: PublicKey)
    requires to.publicKey == Base64.EncodeRaw(Base64.UrlSafe, zero)
    ensures NumberingLimits.CanReach(Phone.Start(map[]), to, zero)
  {
    Base64.CrossLanguageRoundTrip(zero);
    hide Base64.EncodeRaw, Base64.DecodeRaw, Base64.UrlNoPadDecode, Base64.UrlNoPadEncode, Base64.StdNoPadDecode,
         Base64.StdNoPadEncode;
  }

  lemma ZeroAdmitted(setup: Setup, zero: PublicKey)
    requires setup.registry == Registry.Missing && setup.expires == 0
    ensures Daemon.Admits(Start(setup).net.daemon, EncodePublicKey(zero), "d", CALM)
  {
    EncodeParse(zero);
    hide EncodePublicKey, ParsePublicKey;
  }
}
