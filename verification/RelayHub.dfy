/** The relay's Hub and client objects, proved against the steps of module Hub. */
module RelayHubObject {
  import opened Common
  import opened Wire
  import opened Hub

  /** One websocket connection: its session, role, outgoing channel, and how many frames
      its read loop has taken. */
  class Conn {
    var open: bool
    var sessionID: string
    var role: string
    var received: nat
    var send: seq<Item<Conn>>
    var delivered: seq<Item<Conn>>

    constructor (sessionID: string, role: string)
      ensures View() == Client(true, sessionID, role, 0, None, None, [], [])
    {
      open, this.sessionID, this.role, received, send, delivered := true, sessionID, role, 0, [], [];
    }

    ghost function View(): Client<Conn>
      reads this
    {
      Client(open, sessionID, role, received, None, None, send, delivered)
    }

    /** A non-blocking channel send. */
    method Offer(item: Item<Conn>)
      modifies this`send
      ensures send == Push(old(send), item)
    {
      if |send| < QUEUE_CAP {
        send := send + [item];
      }
    }
  }

  class RelayHub {
    var sessions: map<string, set<Conn>>
    ghost var all: set<Conn>

    ghost function View(): State<Conn>
      reads this, all
    {
      State(sessions, map c | c in all :: c.View())
    }

    /** Every registered connection is a known one. */
    ghost predicate Valid()
      reads this
    {
      forall sid, c :: sid in sessions && c in sessions[sid] ==> c in all
    }

    constructor ()
      ensures Valid() && all == {} && View() == Empty()
    {
      sessions, all := map[], {};
    }

    method Register(c: Conn)
      requires Valid() && c in all
      modifies this`sessions
      ensures Valid() && View() == Hub.Register(old(View()), c, c.sessionID)
    {
      var members := if c.sessionID in sessions then sessions[c.sessionID] else {};
      sessions := sessions[c.sessionID := members + {c}];
    }

    method Unregister(c: Conn)
      requires Valid() && c in all
      modifies this`sessions
      ensures Valid() && View() == Hub.Unregister(old(View()), c, c.sessionID)
    {
      var left := (if c.sessionID in sessions then sessions[c.sessionID] else {}) - {c};
      sessions := if left == {} then sessions - {c.sessionID} else sessions[c.sessionID := left];
    }

    method AcceptConn(ticket: Option<(string, string)>) returns (c: Conn)
      requires Valid() && (ticket.Some? ==> ticket.value.0 != "")
      modifies this
      ensures Valid() && fresh(c) && all == old(all) + {c}
      ensures View() == Next(old(View()), Accept(c, ticket))
    {
      c := new Conn(if ticket.Some? then ticket.value.0 else "", if ticket.Some? then ticket.value.1 else "");
      ghost var before := View();
      all := all + {c};
      assert View().clients == before.clients[c := c.View()];
      if ticket.Some? {
        Register(c);
      }
    }

    /** Offer the frame to every other member, in whatever order the map yields them. */
    method Forward(sender: Conn, frame: Frame<Conn>)
      requires Valid() && sender in all
      modifies all`send
      ensures Valid()
      ensures forall p :: p in all ==>
                p.send == if p in Members(old(View()), sender.sessionID) - {sender}
                          then Push(old(p.send), Relayed(frame)) else old(p.send)
    {
      var left := (if sender.sessionID in sessions then sessions[sender.sessionID] else {}) - {sender};
      ghost var peers := left;
      while left != {}
        invariant left <= peers <= all
        invariant forall p :: p in all ==>
                    p.send == if p in peers - left then Push(old(p.send), Relayed(frame)) else old(p.send)
        decreases |left|
      {
        var peer :| peer in left;
        peer.Offer(Relayed(frame));
        left := left - {peer};
      }
    }

    method CloseConn(c: Conn)
      requires Valid() && c in all && c.open
      modifies this`sessions, c
      ensures Valid() && View() == Next(old(View()), Close(c))
    {
      ghost var before := View();
      c.open := false;
      assert View().clients == before.clients[c := c.View()];
      if c.sessionID != "" {
        Unregister(c);
      }
    }

    method WriteOne(c: Conn)
      requires Valid() && c in all && c.open && c.send != []
      modifies c
      ensures Valid() && View() == Next(old(View()), Write(c))
    {
      ghost var before := View();
      c.delivered := c.delivered + [c.send[0]];
      c.send := c.send[1..];
      assert View().clients == before.clients[c := c.View()];
    }

    /** The hub as seen while `c`'s read loop holds `frame`. */
    ghost function Holding(c: Conn, frame: Frame<Conn>): State<Conn>
      reads this, all, c
    {
      Put(View(), c, c.View().(pending := Some(frame)))
    }

    method RouteFrame(c: Conn, frame: Frame<Conn>)
      requires Valid() && c in all && c.open && c.sessionID != ""
      requires frame.msg.Some? && Unlocked(Holding(c, frame))
      modifies all`send
      ensures Valid() && View() == Routed(old(Holding(c, frame)), c)
    {
      ghost var s := Holding(c, frame);
      var msg := frame.msg.value;
      if msg.sid != c.sessionID || (c.role != "" && msg.role != "" && msg.role != c.role) {
        assert View().clients == Next(s, Route(c)).clients;
        return;
      }
      if msg.typ == "ping" {
        c.Offer(Pong(c.sessionID));
        assert View().clients == Next(s, Route(c)).clients;
        return;
      }
      ForwardRouted(c, frame);
    }

    /** The branch of RouteFrame that forwards. */
    method ForwardRouted(c: Conn, frame: Frame<Conn>)
      requires Valid() && c in all && c.open && c.sessionID != ""
      requires frame.msg.Some? && Unlocked(Holding(c, frame)) && Judge(c.View(), frame.msg.value).Forward?
      modifies all`send
      ensures Valid() && View() == Routed(old(Holding(c, frame)), c)
    {
      ghost var before, held := View(), Holding(c, frame);
      RoutedForward(held, c);
      hide Routed, Push, Judge;
      Forward(c, frame);
      forall p | p in all ensures View().clients[p] == Routed(held, c).clients[p] {
        assert before.clients[p] == old(p.View());
      }
      SameClients(View(), Routed(held, c));
    }

    lemma NobodyForwards(c: Conn, frame: Frame<Conn>)
      ensures Unlocked(View()) && Unlocked(Holding(c, frame))
    {
    }

    method TakeFrame(c: Conn, msg: Option<WireMessage>) returns (frame: Frame<Conn>, keep: bool)
      requires Valid() && c in all && c.open
      modifies c`received
      ensures frame.msg == msg && (keep <==> msg.Some? && msg.value.sid != "")
      ensures (if keep then Holding(c, frame) else View()) == Next(old(View()), Read(c, msg))
    {
      ReadEffect(View(), c, msg);
      hide Next;
      frame := Frame(c, c.received, msg);
      c.received := c.received + 1;
      keep := msg.Some? && msg.value.sid != "";
      SameClients(if keep then Holding(c, frame) else View(), Next(old(View()), Read(c, msg)));
    }

    method BindConn(c: Conn, frame: Frame<Conn>)
      requires Valid() && c in all && c.open && c.sessionID == "" && frame.msg.Some?
      modifies this`sessions, c`sessionID, c`role
      ensures Valid() && c.sessionID == frame.msg.value.sid
      ensures Holding(c, frame) == Next(old(Holding(c, frame)), Bind(c))
    {
      NobodyForwards(c, frame);
      BindEffect(Holding(c, frame), c);
      hide Next, Unlocked;
      c.sessionID, c.role := frame.msg.value.sid, frame.msg.value.role;
      Register(c);
      SameClients(Holding(c, frame), Next(old(Holding(c, frame)), Bind(c)));
    }

    /** One turn of the connection's read loop. */
    method HandleFrame(c: Conn, msg: Option<WireMessage>)
      requires Valid() && c in all && c.open
      modifies this`sessions, all
      ensures Valid() && View() == Handled(old(View()), c, msg)
    {
      hide Routed, Next, Unlocked;
      var frame, keep := TakeFrame(c, msg);
      if !keep {
        assert View().clients[c].pending.None?;
        return;
      }
      assert Holding(c, frame).clients[c] == c.View().(pending := Some(frame));
      if c.sessionID == "" {
        BindConn(c, frame);
      }
      NobodyForwards(c, frame);
      RouteFrame(c, frame);
    }
  }
}
