/** What one whole turn of a connection's read loop does to every connection of the hub, and
    what a ticket holds its bearer to. */
module HubTurns {
  import opened Common
  import opened Wire
  import opened Hub

  /** The session and role a connection has once it has shown this frame. */
  function BoundTo<C>(cl: Client<C>, m: WireMessage): (string, string) {
    if cl.sid == "" then (m.sid, m.role) else (cl.sid, cl.role)
  }

  /** Offered to a queue of 256 places. */
  predicate Added<C(==)>(before: seq<Item<C>>, after: seq<Item<C>>, item: Item<C>) {
    after == if |before| < 256 then before + [item] else before
  }

  /** What a frame that the sender may send adds to the queue of `p`: a ping is answered to
      the sender alone; anything else goes to every other open connection of the session. */
  ghost predicate FrameAdds<C>(s: State<C>, r: State<C>, c: C, m: WireMessage, p: C)
    requires c in s.clients && p in s.clients && p in r.clients
  {
    var before, after := s.clients[p].queue, r.clients[p].queue;
    if m.typ == "ping" then
      if p == c then Added(before, after, Pong(m.sid)) else after == before
    else if p != c && s.clients[p].open && s.clients[p].sid == m.sid then
      Added(before, after, Relayed(Frame(c, s.clients[c].got, Some(m))))
    else after == before
  }

  /** The turn on a frame that names a session. */
  ghost predicate TurnOf<C(!new)>(s: State<C>, r: State<C>, c: C, m: WireMessage)
    requires c in s.clients
  {
    var cl, (sid, role) := s.clients[c], BoundTo(s.clients[c], m);
    && r.clients.Keys == s.clients.Keys
    && r.clients[c] == cl.(sid := sid, role := role, got := cl.got + 1, queue := r.clients[c].queue)
    && (forall p :: p in s.clients && p != c ==> r.clients[p] == s.clients[p].(queue := r.clients[p].queue))
    && (forall p :: p in s.clients ==>
          if m.sid == sid && (role == "" || m.role == "" || m.role == role) then FrameAdds(s, r, c, m, p)
          else r.clients[p].queue == s.clients[p].queue)
    && c in Members(r, sid)
  }

  /** The state in which the frame is routed. */
  ghost function Prepared<C>(s: State<C>, c: C, m: WireMessage): State<C>
    requires Live(s, c)
  {
    var s1 := Next(s, Read(c, Some(m)));
    if s1.clients[c].sid == "" then Next(s1, Bind(c)) else s1
  }

  lemma PreparedEffect<C(!new)>(s: State<C>, c: C, m: WireMessage)
    requires Inv(s) && Live(s, c) && Unlocked(s) && s.clients[c].pending.None? && m.sid != ""
    ensures var t, cl, (sid, role) := Prepared(s, c, m), s.clients[c], BoundTo(s.clients[c], m);
            && Next(s, Read(c, Some(m))).clients[c].pending.Some?
            && t.clients == s.clients[c := cl.(sid := sid, role := role, got := cl.got + 1,
                                               pending := Some(Frame(c, cl.got, Some(m))))]
            && (forall p :: p in Members(t, sid) && p != c <==> p != c && Live(s, p) && s.clients[p].sid == sid)
            && c in Members(t, sid)
  {
    hide Provenance, Ordered, Working, Next;
    var cl := s.clients[c];
    ReadEffect(s, c, Some(m));
    var s1 := Next(s, Read(c, Some(m)));
    StillUnlocked(s, s1, c);
    hide Unlocked;
    if cl.sid == "" { BindEffect(s1, c); }
  }

  lemma StillUnlocked<C(!new)>(s: State<C>, r: State<C>, c: C)
    requires Unlocked(s) && c in s.clients && r.clients.Keys == s.clients.Keys
    requires forall p :: p in s.clients ==> r.clients[p].todo == s.clients[p].todo
    ensures Unlocked(r)
  {
  }

  /** One whole turn, with nothing in between: every queue of the hub afterwards. */
  lemma TurnExactly<C(!new)>(s: State<C>, c: C, msg: Option<WireMessage>)
    requires Inv(s) && Live(s, c) && Unlocked(s) && s.clients[c].pending.None?
    ensures var r := Handled(s, c, msg);
            if msg.None? || msg.value.sid == "" then r == Put(s, c, s.clients[c].(got := s.clients[c].got + 1))
            else TurnOf(s, r, c, msg.value)
  {
    assert s.clients[c].todo.None?;
    hide Next, Inv, Routed, Unlocked, TurnOf, Members;
    ReadEffect(s, c, msg);
    if msg.Some? && msg.value.sid != "" {
      PreparedEffect(s, c, msg.value);
      RoutedTurn(s, Prepared(s, c, msg.value), c, msg.value);
    }
  }

  lemma RoutedTurn<C(!new)>(s: State<C>, t: State<C>, c: C, m: WireMessage)
    requires Live(s, c) && s.clients[c].todo.None? && s.clients[c].pending.None? && m.sid != ""
    requires var cl, (sid, role) := s.clients[c], BoundTo(s.clients[c], m);
             && t.clients == s.clients[c := cl.(sid := sid, role := role, got := cl.got + 1,
                                                pending := Some(Frame(c, cl.got, Some(m))))]
             && (forall p :: p in Members(t, sid) && p != c <==> p != c && Live(s, p) && s.clients[p].sid == sid)
             && c in Members(t, sid)
    ensures TurnOf(s, Routed(t, c), c, m)
  {
    hide Next, Forwarded;
    RouteEffect(t, c);
    if Judge(t.clients[c], m).Forward? {
      RoutedForward(t, c);
      SameMembers(t, Routed(t, c), BoundTo(s.clients[c], m).0);
      hide Routed, Members;
      forall p | p in s.clients ensures FrameAdds(s, Routed(t, c), c, m, p) {
        assert p in t.clients;
      }
    }
  }

  lemma SameMembers<C>(t: State<C>, r: State<C>, sid: string)
    requires r.sessions == t.sessions
    ensures Members(r, sid) == Members(t, sid)
  {
  }

  lemma RouteEffect<C>(t: State<C>, c: C)
    requires Live(t, c) && t.clients[c].pending.Some? && t.clients[c].pending.value.msg.Some?
    requires t.clients[c].sid != "" && t.clients[c].todo.None?
    ensures var cl, m := t.clients[c], t.clients[c].pending.value.msg.value;
            match Judge(cl, m)
            case Drop => Next(t, Route(c)) == Put(t, c, cl.(pending := None))
            case AnswerPing =>
              Next(t, Route(c)) == Put(t, c, cl.(pending := None, queue := Push(cl.queue, Pong(cl.sid))))
            case Forward => true
  {
    hide Push, Judge;
  }

  lemma AcceptedAs<C(!new)>(s: State<C>, c: C, sid: string, role: string)
    requires Enabled(s, Accept(c, Some((sid, role))))
    ensures var r := Next(s, Accept(c, Some((sid, role))));
            c in r.clients && r.clients[c].sid == sid && r.clients[c].role == role && sid != ""
  {
    hide Unlocked;
  }

  /** Over any run, whoever came with a ticket is heard only in the ticket's session, by the
      members of that session, and in no other role than the ticket's. */
  lemma TicketHolds<C(!new)>(steps: seq<Step<C>>, i: nat, c: C, sid: string, role: string)
    requires i < |steps| && steps[i] == Accept(c, Some((sid, role)))
    requires Enabled(Run(Empty<C>(), steps[..i]), steps[i])
    ensures var s := Run(Empty<C>(), steps);
            forall p, f :: p in s.clients && Relayed(f) in Output(s.clients[p]) && f.conn == c ==>
              && s.clients[p].sid == sid && f.msg.Some? && f.msg.value.sid == sid
              && (role == "" || f.msg.value.role == "" || f.msg.value.role == role)
  {
    hide Next, Run, Inv, Enabled, Output;
    var none := Empty<C>();
    EmptySatisfies<C>();
    RunKeeps(none, steps[..i]);
    var before := Run(none, steps[..i]);
    AcceptedAs(before, c, sid, role);
    var s := Next(before, steps[i]);
    NextKeeps(before, steps[i]);
    RunMore(none, steps[..i], steps[i]);
    RunConcat(none, steps[..i] + [steps[i]], steps[i + 1..]);
    assert steps[..i] + [steps[i]] + steps[i + 1..] == steps;
    SessionNeverChanges(s, steps[i + 1..], c);
    RunKeeps(none, steps);
    HeardAs(Run(none, steps), c);
  }

  lemma HeardAs<C(!new)>(s: State<C>, c: C)
    requires Inv(s) && c in s.clients
    ensures forall p, f :: p in s.clients && Relayed(f) in Output(s.clients[p]) && f.conn == c ==> FromPeer(s, p, f)
  {
    hide Registered, Working, Ordered, FromPeer, Output;
  }

  /** What is left of a closed connection. */
  ghost predicate ClosedWith<C(!new)>(s: State<C>, c: C, out: seq<Item<C>>) {
    c in s.clients && !s.clients[c].open && Output(s.clients[c]) == out
  }

  lemma ClosedStays<C(!new)>(s: State<C>, step: Step<C>, c: C, out: seq<Item<C>>)
    requires Inv(s) && ClosedWith(s, c, out)
    ensures ClosedWith(Next(s, step), c, out)
  {
    hide SenderOrder, Provenance, Judge, Unlocked;
  }

  /** A connection that closes leaves its session at once and for good: over every run from
      then on it stands in no session's set, and nothing more is queued for it. */
  lemma {:induction false} ClosedForGood<C(!new)>(s: State<C>, c: C, steps: seq<Step<C>>)
    requires Inv(s) && Enabled(s, Close(c))
    ensures var r := Run(Next(s, Close(c)), steps);
            && Inv(r) && ClosedWith(r, c, Output(s.clients[c]))
            && forall sid :: c !in Members(r, sid)
  {
    hide Next, Inv;
    if steps == [] {
      NextKeeps(s, Close(c));
      JustClosed(s, c);
    } else {
      ClosedForGood(s, c, steps[..|steps| - 1]);
      var before := Run(Next(s, Close(c)), steps[..|steps| - 1]);
      NextKeeps(before, steps[|steps| - 1]);
      ClosedStays(before, steps[|steps| - 1], c, Output(s.clients[c]));
    }
    InNoSet(Run(Next(s, Close(c)), steps), c);
  }

  lemma JustClosed<C(!new)>(s: State<C>, c: C)
    requires Enabled(s, Close(c))
    ensures ClosedWith(Next(s, Close(c)), c, Output(s.clients[c]))
  {
    hide Unlocked;
  }

  lemma InNoSet<C(!new)>(s: State<C>, c: C)
    requires Inv(s) && c in s.clients && !s.clients[c].open
    ensures forall sid :: c !in Members(s, sid)
  {
    hide Working, Provenance, Ordered;
  }
}
