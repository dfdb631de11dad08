/** The relay hub as a step machine. Each connection's read loop, the hub's read-write
    lock and every single channel send are separate steps, so any interleaving of
    connections binding, forwarding and closing is a run. `C` is the identity of a
    connection. */
module Hub {
  import opened Common
  import opened Wire

  const QUEUE_CAP := 256

  /** The `no`-th frame read from connection `conn`; None when it is not JSON. */
  datatype Frame<C> = Frame(conn: C, no: nat, msg: Option<WireMessage>)

  datatype Item<C> = Relayed(frame: Frame<C>) | Pong(sid: string)

  /** One connection. `pending` is the frame its read loop is working on; `todo` the peers
      a forward in progress has still to serve; `delivered` what was written to its socket. */
  datatype Client<C> = Client(open: bool, sid: string, role: string, got: nat, pending: Option<Frame<C>>,
                              todo: Option<set<C>>, queue: seq<Item<C>>, delivered: seq<Item<C>>)

  datatype State<C> = State(sessions: map<string, set<C>>, clients: map<C, Client<C>>)

  datatype Step<C> =
    | Accept(c: C, ticket: Option<(string, string)>)
    | Read(c: C, msg: Option<WireMessage>)
    | Bind(c: C)
    | Route(c: C)
    | Offer(c: C, peer: C)
    | Finish(c: C)
    | Close(c: C)
    | Write(c: C)

  function Members<C>(s: State<C>, sid: string): set<C> {
    if sid in s.sessions then s.sessions[sid] else {}
  }

  function Put<C>(s: State<C>, c: C, cl: Client<C>): State<C> {
    s.(clients := s.clients[c := cl])
  }

  function Register<C>(s: State<C>, c: C, sid: string): State<C> {
    s.(sessions := s.sessions[sid := Members(s, sid) + {c}])
  }

  function Unregister<C>(s: State<C>, c: C, sid: string): State<C> {
    var left := Members(s, sid) - {c};
    s.(sessions := if left == {} then s.sessions - {sid} else s.sessions[sid := left])
  }

  function Push<C>(queue: seq<Item<C>>, item: Item<C>): seq<Item<C>> {
    if |queue| < QUEUE_CAP then queue + [item] else queue
  }

  /** No forward holds the read lock, so the write lock can be taken. */
  ghost predicate Unlocked<C>(s: State<C>) {
    forall c :: c in s.clients ==> s.clients[c].todo.None?
  }

  ghost predicate Live<C>(s: State<C>, c: C) {
    c in s.clients && s.clients[c].open
  }

  ghost predicate Enabled<C>(s: State<C>, step: Step<C>) {
    match step
    case Accept(c, ticket) => c !in s.clients && Unlocked(s) && (ticket.Some? ==> ticket.value.0 != "")
    case Read(c, _) => Live(s, c) && s.clients[c].pending.None?
    case Bind(c) => Live(s, c) && s.clients[c].pending.Some? && s.clients[c].sid == "" && Unlocked(s)
    case Route(c) => Live(s, c) && s.clients[c].pending.Some? && s.clients[c].sid != "" && s.clients[c].todo.None?
    case Offer(c, peer) => Live(s, c) && s.clients[c].todo.Some? && peer in s.clients[c].todo.value && peer in s.clients
    case Finish(c) => Live(s, c) && s.clients[c].todo == Some({})
    case Close(c) => Live(s, c) && s.clients[c].pending.None? && Unlocked(s)
    case Write(c) => Live(s, c) && s.clients[c].queue != []
  }

  /** What Route does with a frame. */
  datatype Verdict = Drop | AnswerPing | Forward

  function Judge<C>(cl: Client<C>, msg: WireMessage): Verdict {
    if msg.sid != cl.sid then Drop
    else if cl.role != "" && msg.role != "" && msg.role != cl.role then Drop
    else if msg.typ == "ping" then AnswerPing
    else Forward
  }

  ghost function Next<C>(s: State<C>, step: Step<C>): State<C> {
    if !Enabled(s, step) then s
    else
      match step
      case Accept(c, None) => Put(s, c, Client(true, "", "", 0, None, None, [], []))
      case Accept(c, Some((sid, role))) =>
        Register(Put(s, c, Client(true, sid, role, 0, None, None, [], [])), c, sid)
      case Read(c, msg) =>
        var cl := s.clients[c];
        Put(s, c, cl.(got := cl.got + 1,
                      pending := if msg.Some? && msg.value.sid != "" then Some(Frame(c, cl.got, msg)) else None))
      case Bind(c) =>
        var cl := s.clients[c];
        var msg := cl.pending.value.msg.GetOr(Notice("", "", ""));
        Register(Put(s, c, cl.(sid := msg.sid, role := msg.role)), c, msg.sid)
      case Route(c) =>
        var cl := s.clients[c];
        var msg := cl.pending.value.msg.GetOr(Notice("", "", ""));
        (match Judge(cl, msg)
         case Drop => Put(s, c, cl.(pending := None))
         case AnswerPing => Put(s, c, cl.(pending := None, queue := Push(cl.queue, Pong(cl.sid))))
         case Forward => Put(s, c, cl.(todo := Some(Members(s, cl.sid) - {c}))))
      case Offer(c, peer) =>
        var cl := s.clients[c];
        var s' := Put(s, c, cl.(todo := Some(cl.todo.value - {peer})));
        var to := s'.clients[peer];
        if cl.pending.None? then s' else Put(s', peer, to.(queue := Push(to.queue, Relayed(cl.pending.value))))
      case Finish(c) => Put(s, c, s.clients[c].(todo := None, pending := None))
      case Close(c) =>
        var closed := Put(s, c, s.clients[c].(open := false));
        if s.clients[c].sid != "" then Unregister(closed, c, s.clients[c].sid) else closed
      case Write(c) =>
        var cl := s.clients[c];
        Put(s, c, cl.(queue := cl.queue[1..], delivered := cl.delivered + [cl.queue[0]]))
  }

  ghost function Run<C>(s: State<C>, steps: seq<Step<C>>): State<C> {
    if steps == [] then s else Next(Run(s, steps[..|steps| - 1]), steps[|steps| - 1])
  }

  function Empty<C>(): State<C> { State(map[], map[]) }

  // The invariant.

  /** Everything ever queued for `c`, oldest first. */
  function Output<C>(cl: Client<C>): seq<Item<C>> {
    cl.delivered + cl.queue
  }

  /** An open connection is in a session's set exactly when that session is the one it is
      bound to; nobody else is in any set; no empty set is kept. */
  ghost predicate Registered<C(!new)>(s: State<C>) {
    && (forall sid, c :: sid in s.sessions && c in s.sessions[sid] ==>
          c in s.clients && s.clients[c].open && s.clients[c].sid == sid)
    && (forall c :: c in s.clients && s.clients[c].open && s.clients[c].sid != "" ==>
          s.clients[c].sid in s.sessions && c in s.sessions[s.clients[c].sid])
    && (forall sid :: sid in s.sessions ==> sid != "" && s.sessions[sid] != {})
  }

  /** A connection bound with a role names that role or none. */
  predicate RoleFits(role: string, msg: WireMessage) {
    role == "" || msg.role == "" || msg.role == role
  }

  /** The frame a read loop is working on is the last it read, and a forward in progress
      serves other members of its own session. */
  ghost predicate WorkingAt<C>(s: State<C>, c: C)
    requires c in s.clients
  {
    var cl := s.clients[c];
    && (cl.pending.Some? ==>
          cl.open && cl.pending.value.conn == c && cl.pending.value.no + 1 == cl.got
          && cl.pending.value.msg.Some? && cl.pending.value.msg.value.sid != "")
    && (cl.todo.Some? ==>
          cl.pending.Some? && cl.sid != "" && cl.pending.value.msg.value.sid == cl.sid
          && cl.todo.value <= Members(s, cl.sid) - {c}
          && RoleFits(cl.role, cl.pending.value.msg.value))
  }

  ghost predicate Working<C(!new)>(s: State<C>) {
    forall c :: c in s.clients ==> WorkingAt(s, c)
  }

  /** `f` may stand in what is queued for `c`: it came from a different connection bound
      to the same session, and names that session and no other role than its sender's. */
  ghost predicate FromPeer<C>(s: State<C>, c: C, f: Frame<C>)
    requires c in s.clients
  {
    && f.conn != c && f.conn in s.clients && f.no < s.clients[f.conn].got
    && s.clients[c].sid != "" && s.clients[f.conn].sid == s.clients[c].sid
    && f.msg.Some? && f.msg.value.sid == s.clients[c].sid && RoleFits(s.clients[f.conn].role, f.msg.value)
  }

  ghost predicate Provenance<C(!new)>(s: State<C>) {
    forall c, f :: c in s.clients && Relayed(f) in Output(s.clients[c]) ==> FromPeer(s, c, f)
  }

  /** One sender's frames stand in the order it sent them, none twice. */
  ghost predicate SenderOrder<C(!new)>(out: seq<Item<C>>) {
    forall i, j ::
      0 <= i < j < |out| && out[i].Relayed? && out[j].Relayed? && out[i].frame.conn == out[j].frame.conn ==>
      out[i].frame.no < out[j].frame.no
  }

  /** `d`'s pending frame has not been offered to `c` yet. */
  ghost predicate Unserved<C>(s: State<C>, d: C, c: C)
    requires d in s.clients
  {
    s.clients[d].pending.Some? && (s.clients[d].todo.None? || c in s.clients[d].todo.value)
  }

  ghost predicate Ordered<C(!new)>(s: State<C>) {
    && (forall c :: c in s.clients ==> SenderOrder(Output(s.clients[c])) && |s.clients[c].queue| <= QUEUE_CAP)
    && (forall c, f :: c in s.clients && Relayed(f) in Output(s.clients[c]) && f.conn in s.clients
                       && Unserved(s, f.conn, c) ==>
          f.no < s.clients[f.conn].pending.value.no)
  }

  ghost predicate Inv<C(!new)>(s: State<C>) {
    Registered(s) && Working(s) && Provenance(s) && Ordered(s)
  }

  lemma QuietKeepsRegistered<C(!new)>(s: State<C>, r: State<C>)
    requires Registered(s) && r.sessions == s.sessions && r.clients.Keys == s.clients.Keys
    requires forall c :: c in s.clients ==>
               r.clients[c].open == s.clients[c].open && r.clients[c].sid == s.clients[c].sid
    ensures Registered(r)
  {
  }

  lemma RegisterKeepsRegistered<C(!new)>(s: State<C>, c: C, cl: Client<C>)
    requires Registered(s) && cl.open && cl.sid != ""
    requires c in s.clients ==> s.clients[c].sid == ""
    ensures Registered(Register(Put(s, c, cl), c, cl.sid))
  {
  }

  lemma UnregisterKeepsRegistered<C(!new)>(s: State<C>, c: C)
    requires Registered(s) && Live(s, c) && s.clients[c].sid != ""
    ensures Registered(Unregister(Put(s, c, s.clients[c].(open := false)), c, s.clients[c].sid))
  {
    var sid := s.clients[c].sid;
    var r := Unregister(Put(s, c, s.clients[c].(open := false)), c, sid);
    forall d | d in r.clients && r.clients[d].open && r.clients[d].sid != ""
      ensures r.clients[d].sid in r.sessions && d in r.sessions[r.clients[d].sid]
    {
      assert d in s.sessions[s.clients[d].sid];
      if s.clients[d].sid == sid { assert d in Members(s, sid) - {c}; }
    }
  }

  lemma RegisteredKept<C(!new)>(s: State<C>, step: Step<C>)
    requires Inv(s)
    ensures Registered(Next(s, step))
  {
    hide SenderOrder, Provenance, Ordered, Registered, Push, Judge, Unserved, Register, Unregister, Unlocked;
    if Enabled(s, step) {
      match step
      case Accept(c, None) => UnboundKeepsRegistered(s, c, Client(true, "", "", 0, None, None, [], []));
      case Accept(c, Some((sid, role))) =>
        RegisterKeepsRegistered(s, c, Client(true, sid, role, 0, None, None, [], []));
      case Bind(c) =>
        var msg := s.clients[c].pending.value.msg.value;
        RegisterKeepsRegistered(s, c, s.clients[c].(sid := msg.sid, role := msg.role));
      case Close(c) =>
        if s.clients[c].sid != "" { UnregisterKeepsRegistered(s, c); }
        else { UnboundKeepsRegistered(s, c, s.clients[c].(open := false)); }
      case _ => QuietKeepsRegistered(s, Next(s, step));
    }
  }

  lemma UnboundKeepsRegistered<C(!new)>(s: State<C>, c: C, cl: Client<C>)
    requires Registered(s) && cl.sid == "" && (c in s.clients ==> s.clients[c].sid == "")
    ensures Registered(Put(s, c, cl))
  {
  }

  /** While no forward is in progress, session sets may change under everyone. */
  lemma WorkingUnlocked<C(!new)>(s: State<C>, r: State<C>, c: C)
    requires Working(s) && Unlocked(s) && c in s.clients && c in r.clients
    requires r.clients[c].pending == s.clients[c].pending
    requires r.clients[c].todo.None? && r.clients[c].got == s.clients[c].got
    requires r.clients[c].pending.Some? ==> r.clients[c].open == s.clients[c].open
    ensures WorkingAt(r, c)
  {
  }

  lemma WorkingKept<C(!new)>(s: State<C>, step: Step<C>)
    requires Inv(s)
    ensures Working(Next(s, step))
  {
    hide SenderOrder, Provenance, Ordered, Registered, Push, Unserved, WorkingAt;
    var r := Next(s, step);
    forall c | c in r.clients ensures WorkingAt(r, c) {
      if Enabled(s, step) {
        if step.Accept? || step.Bind? || step.Close? {
          if c in s.clients { WorkingUnlocked(s, r, c); } else { IdleWorks(r, c); }
        } else {
          WorkingAfter(s, step, c);
        }
      }
    }
  }

  lemma IdleWorks<C(!new)>(s: State<C>, c: C)
    requires c in s.clients && s.clients[c].pending.None? && s.clients[c].todo.None?
    ensures WorkingAt(s, c)
  {
  }

  lemma WorkingAfter<C(!new)>(s: State<C>, step: Step<C>, c: C)
    requires Working(s) && Enabled(s, step) && c in s.clients
    requires !step.Accept? && !step.Bind? && !step.Close?
    ensures WorkingAt(Next(s, step), c)
  {
    hide Push;
    assert WorkingAt(s, c);
  }

  /** A step never forgets what a connection has read or its session, and a new
      connection starts with nothing. */
  lemma ClientStays<C(!new)>(s: State<C>, step: Step<C>, c: C)
    ensures c in s.clients ==>
              c in Next(s, step).clients
              && s.clients[c].got <= Next(s, step).clients[c].got
              && (s.clients[c].sid != "" ==> Next(s, step).clients[c].sid == s.clients[c].sid
                                             && Next(s, step).clients[c].role == s.clients[c].role)
    ensures c in Next(s, step).clients && c !in s.clients ==>
              Output(Next(s, step).clients[c]) == [] && Next(s, step).clients[c].pending.None?
              && Next(s, step).clients[c].queue == []
  {
    hide Push, Judge, Unlocked;
  }

  lemma PushGrows<C>(cl: Client<C>, item: Item<C>)
    requires |cl.queue| <= QUEUE_CAP
    ensures var pushed := cl.(queue := Push(cl.queue, item));
            |pushed.queue| <= QUEUE_CAP && (Output(pushed) == Output(cl) || Output(pushed) == Output(cl) + [item])
  {
    assert cl.delivered + (cl.queue + [item]) == cl.delivered + cl.queue + [item];
  }

  lemma WriteKeepsOutput<C>(cl: Client<C>)
    requires cl.queue != []
    ensures Output(cl.(queue := cl.queue[1..], delivered := cl.delivered + [cl.queue[0]])) == Output(cl)
  {
  }

  /** A connection's output grows at most by a pong or by the frame of a forward serving it. */
  lemma OutputGrows<C(!new)>(s: State<C>, step: Step<C>, c: C)
    requires c in s.clients && |s.clients[c].queue| <= QUEUE_CAP
    ensures c in Next(s, step).clients && |Next(s, step).clients[c].queue| <= QUEUE_CAP
    ensures var before, after := Output(s.clients[c]), Output(Next(s, step).clients[c]);
            || after == before
            || after == before + [Pong(s.clients[c].sid)]
            || (step.Offer? && Enabled(s, step) && step.peer == c && s.clients[step.c].pending.Some?
                && after == before + [Relayed(s.clients[step.c].pending.value)])
  {
    hide Judge, Unlocked, Push;
    var cl := s.clients[c];
    if Enabled(s, step) {
      match step
      case Route(_) => PushGrows(cl, Pong(cl.sid));
      case Offer(d, _) => if s.clients[d].pending.Some? { PushGrows(cl, Relayed(s.clients[d].pending.value)); }
      case Write(_) => if cl.queue != [] { WriteKeepsOutput(cl); }
      case _ =>
    }
  }

  lemma OfferComesFromPeer<C(!new)>(s: State<C>, d: C, c: C)
    requires Inv(s) && Enabled(s, Offer(d, c)) && s.clients[d].pending.Some?
    ensures FromPeer(s, c, s.clients[d].pending.value)
  {
    hide SenderOrder, Provenance, Ordered, Unserved;
  }

  lemma FromPeerStays<C(!new)>(s: State<C>, step: Step<C>, c: C, f: Frame<C>)
    requires Inv(s) && c in s.clients && FromPeer(s, c, f)
    ensures c in Next(s, step).clients && FromPeer(Next(s, step), c, f)
  {
    hide Inv, Next;
    ClientStays(s, step, c);
    ClientStays(s, step, f.conn);
  }

  lemma ProvenanceKept<C(!new)>(s: State<C>, step: Step<C>)
    requires Inv(s)
    ensures Provenance(Next(s, step))
  {
    hide Next, FromPeer, Registered, Working, SenderOrder;
    var r := Next(s, step);
    forall c, f | c in r.clients && Relayed(f) in Output(r.clients[c]) ensures FromPeer(r, c, f) {
      ClientStays(s, step, c);
      if c in s.clients {
        OutputGrows(s, step, c);
        if Relayed(f) !in Output(s.clients[c]) {
          OfferComesFromPeer(s, step.c, c);
        }
        FromPeerStays(s, step, c, f);
      }
    }
  }

  lemma SenderOrderAppend<C(!new)>(out: seq<Item<C>>, item: Item<C>)
    requires SenderOrder(out)
    requires item.Relayed? ==> forall f :: Relayed(f) in out && f.conn == item.frame.conn ==> f.no < item.frame.no
    ensures SenderOrder(out + [item])
  {
    var after := out + [item];
    forall i, j | 0 <= i < j < |after| && after[i].Relayed? && after[j].Relayed?
                  && after[i].frame.conn == after[j].frame.conn
      ensures after[i].frame.no < after[j].frame.no
    {
      if j == |out| { assert Relayed(out[i].frame) in out; }
    }
  }

  lemma OutputOrdered<C(!new)>(s: State<C>, step: Step<C>, c: C)
    requires Inv(s) && c in Next(s, step).clients
    ensures SenderOrder(Output(Next(s, step).clients[c])) && |Next(s, step).clients[c].queue| <= QUEUE_CAP
  {
    hide Next, Registered, Working, SenderOrder;
    ClientStays(s, step, c);
    if c !in s.clients {
      EmptyOrdered<C>();
    } else {
      OutputGrows(s, step, c);
      SenderOrderAppend(Output(s.clients[c]), Pong(s.clients[c].sid));
      if step.Offer? && Enabled(s, step) && step.peer == c && s.clients[step.c].pending.Some? {
        PendingIsOwn(s, step.c);
        SenderOrderAppend(Output(s.clients[c]), Relayed(s.clients[step.c].pending.value));
      }
    }
  }

  lemma EmptyOrdered<C(!new)>()
    ensures SenderOrder<C>([])
  {
  }

  lemma PendingIsOwn<C(!new)>(s: State<C>, d: C)
    requires Inv(s) && d in s.clients && s.clients[d].pending.Some?
    ensures s.clients[d].pending.value.conn == d && s.clients[d].pending.value.no + 1 == s.clients[d].got
  {
    hide Registered, Provenance, Ordered;
  }

  /** A frame still to be offered to `c` was so before the step, or has just been read. */
  lemma UnservedBefore<C(!new)>(s: State<C>, step: Step<C>, d: C, c: C)
    requires Inv(s) && d in s.clients && d in Next(s, step).clients && Unserved(Next(s, step), d, c)
    ensures var r := Next(s, step);
            || r.clients[d].pending.value.no == s.clients[d].got
            || (Unserved(s, d, c) && r.clients[d].pending == s.clients[d].pending
                && !(step.Offer? && Enabled(s, step) && step.c == d && step.peer == c))
  {
    hide SenderOrder, Provenance, Ordered, FromPeer, Judge, Push;
  }

  lemma QueuedBelowPending<C(!new)>(s: State<C>, step: Step<C>, c: C, f: Frame<C>)
    requires Inv(s)
    requires var r := Next(s, step);
             c in r.clients && Relayed(f) in Output(r.clients[c]) && f.conn in r.clients && Unserved(r, f.conn, c)
    ensures f.no < Next(s, step).clients[f.conn].pending.value.no
  {
    hide Next, Registered, Working, SenderOrder;
    ClientStays(s, step, c);
    OutputGrows(s, step, c);
    if Relayed(f) in Output(s.clients[c]) {
      assert FromPeer(s, c, f);
      UnservedBefore(s, step, f.conn, c);
    } else {
      PendingIsOwn(s, step.c);
      UnservedBefore(s, step, f.conn, c);
      PendingStays(s, step);
    }
  }

  lemma OrderedKept<C(!new)>(s: State<C>, step: Step<C>)
    requires Inv(s)
    ensures Ordered(Next(s, step))
  {
    hide Next, Inv, SenderOrder;
    var r := Next(s, step);
    forall c | c in r.clients ensures SenderOrder(Output(r.clients[c])) && |r.clients[c].queue| <= QUEUE_CAP {
      OutputOrdered(s, step, c);
    }
    forall c, f | c in r.clients && Relayed(f) in Output(r.clients[c]) && f.conn in r.clients && Unserved(r, f.conn, c)
      ensures f.no < r.clients[f.conn].pending.value.no
    {
      QueuedBelowPending(s, step, c, f);
    }
  }

  lemma PendingStays<C(!new)>(s: State<C>, step: Step<C>)
    requires Inv(s) && step.Offer? && Enabled(s, step)
    ensures step.c in Next(s, step).clients && Next(s, step).clients[step.c].pending == s.clients[step.c].pending
  {
  }

  lemma NextKeeps<C(!new)>(s: State<C>, step: Step<C>)
    requires Inv(s)
    ensures Inv(Next(s, step))
  {
    hide Next, Registered, Working, Provenance, Ordered;
    RegisteredKept(s, step);
    WorkingKept(s, step);
    ProvenanceKept(s, step);
    OrderedKept(s, step);
  }

  /** Over all interleavings of connections accepting, binding, forwarding, closing and
      writing, the hub keeps its invariant. */
  lemma {:induction false} RunKeeps<C(!new)>(s: State<C>, steps: seq<Step<C>>)
    requires Inv(s)
    ensures Inv(Run(s, steps))
  {
    hide Inv, Next;
    if steps != [] {
      RunKeeps(s, steps[..|steps| - 1]);
      NextKeeps(Run(s, steps[..|steps| - 1]), steps[|steps| - 1]);
    }
  }

  lemma EmptySatisfies<C(!new)>()
    ensures Inv(Empty<C>())
  {
  }

  /** A connection's session and role never change once set. */
  lemma {:induction false} SessionNeverChanges<C(!new)>(s: State<C>, steps: seq<Step<C>>, c: C)
    requires Inv(s) && c in s.clients && s.clients[c].sid != ""
    ensures c in Run(s, steps).clients && Run(s, steps).clients[c].sid == s.clients[c].sid
    ensures Run(s, steps).clients[c].role == s.clients[c].role
  {
    hide Inv, Next;
    if steps != [] {
      SessionNeverChanges(s, steps[..|steps| - 1], c);
      RunKeeps(s, steps[..|steps| - 1]);
      ClientStays(Run(s, steps[..|steps| - 1]), steps[|steps| - 1], c);
    }
  }

  /** The hub's promise, spelled out: after any interleaving, an open connection stands in
      a session's set exactly when it is bound to that session, no empty set is kept, and
      whatever is queued for or delivered to a connection came from other connections
      bound to its session, each sender's frames in order and none twice. */
  lemma HubPromise<C(!new)>(steps: seq<Step<C>>, c: C)
    requires c in Run(Empty<C>(), steps).clients
    ensures var s := Run(Empty<C>(), steps);
            && (s.clients[c].open ==> forall sid :: c in Members(s, sid) <==> sid == s.clients[c].sid && sid != "")
            && (!s.clients[c].open ==> forall sid :: c !in Members(s, sid))
            && (forall sid :: sid in s.sessions ==> s.sessions[sid] != {})
            && (forall f :: Relayed(f) in Output(s.clients[c]) ==> FromPeer(s, c, f))
            && SenderOrder(Output(s.clients[c]))
  {
    hide Next, Run;
    EmptySatisfies<C>();
    RunKeeps(Empty<C>(), steps);
  }

  // A forward's loop over its peers, in whatever order the map gives them.

  /** The state once a forward of `c` has served the peers in `done`. */
  ghost function Served<C>(s: State<C>, c: C, done: set<C>): State<C>
    requires c in s.clients && s.clients[c].todo.Some? && s.clients[c].pending.Some?
  {
    s.(clients := map p | p in s.clients :: ServedClient(s, c, done, p))
  }

  function ServedClient<C>(s: State<C>, c: C, done: set<C>, p: C): Client<C>
    requires c in s.clients && s.clients[c].todo.Some? && s.clients[c].pending.Some? && p in s.clients
  {
    if p == c then s.clients[p].(todo := Some(s.clients[c].todo.value - done))
    else if p in done then s.clients[p].(queue := Push(s.clients[p].queue, Relayed(s.clients[c].pending.value)))
    else s.clients[p]
  }

  lemma SameClients<C>(s: State<C>, r: State<C>)
    requires s.sessions == r.sessions && s.clients.Keys == r.clients.Keys
    requires forall q :: q in s.clients ==> s.clients[q] == r.clients[q]
    ensures s == r
  {
    assert s.clients == r.clients;
  }

  /** The state once a forward of `c` has served all its peers and finished. */
  ghost function Forwarded<C>(s: State<C>, c: C): State<C>
    requires c in s.clients && s.clients[c].todo.Some? && s.clients[c].pending.Some?
  {
    var all := Served(s, c, s.clients[c].todo.value);
    Put(all, c, s.clients[c].(todo := None, pending := None))
  }

  ghost predicate Forwarding<C>(s: State<C>, c: C) {
    && Live(s, c) && s.clients[c].todo.Some? && s.clients[c].pending.Some?
    && c !in s.clients[c].todo.value && s.clients[c].todo.value <= s.clients.Keys
  }

  lemma ServeOneMore<C(!new)>(s: State<C>, c: C, done: set<C>, p: C)
    requires Forwarding(s, c) && p in s.clients[c].todo.value && p !in done && done <= s.clients[c].todo.value
    ensures Next(Served(s, c, done), Offer(c, p)) == Served(s, c, done + {p})
  {
    hide Push;
    var all := s.clients[c].todo.value;
    assert all - (done + {p}) == all - done - {p};
    SameClients(Next(Served(s, c, done), Offer(c, p)), Served(s, c, done + {p}));
  }

  ghost predicate Lists<C(!new)>(order: seq<C>, all: set<C>) {
    && (forall i, j :: 0 <= i < j < |order| ==> order[i] != order[j])
    && (forall p :: p in order <==> p in all)
  }

  function Offers<C>(c: C, order: seq<C>): seq<Step<C>> {
    seq(|order|, i requires 0 <= i < |order| => Offer(c, order[i]))
  }

  lemma {:induction false} OffersServe<C(!new)>(s: State<C>, c: C, order: seq<C>)
    requires Forwarding(s, c)
    requires forall i, j :: 0 <= i < j < |order| ==> order[i] != order[j]
    requires forall p :: p in order ==> p in s.clients[c].todo.value
    ensures Run(s, Offers(c, order)) == Served(s, c, (set p | p in order))
  {
    hide Next;
    if order == [] {
      var all := s.clients[c].todo.value;
      assert all - (set p | p in order) == all;
      SameClients(Served(s, c, (set p | p in order)), s);
    } else {
      var front, last := order[..|order| - 1], order[|order| - 1];
      OffersServe(s, c, front);
      assert Offers(c, order)[..|front|] == Offers(c, front);
      ServeOneMore(s, c, (set p | p in front), last);
      assert (set p | p in front) + {last} == (set p | p in order);
    }
  }

  /** Whatever order a forward visits its peers in, it ends in the same state. */
  lemma ForwardOrderIrrelevant<C(!new)>(s: State<C>, c: C, order: seq<C>)
    requires Forwarding(s, c) && Lists(order, s.clients[c].todo.value)
    ensures Run(s, Offers(c, order) + [Finish(c)]) == Forwarded(s, c)
  {
    OffersServe(s, c, order);
    assert (set p | p in order) == s.clients[c].todo.value;
    var steps := Offers(c, order) + [Finish(c)];
    assert steps[..|steps| - 1] == Offers(c, order);
    var all := s.clients[c].todo.value;
    assert all - all == {};
    var served := Served(s, c, all);
    assert served.clients[c].todo == Some({}) && Live(served, c);
    SameClients(Next(served, Finish(c)), Forwarded(s, c));
  }

  /** Routing a pending frame, with nothing else in between. */
  ghost function Routed<C>(s: State<C>, c: C): State<C>
    requires Live(s, c)
  {
    var r := Next(s, Route(c));
    if r.clients[c].todo.Some? && r.clients[c].pending.Some? then Forwarded(r, c) else r
  }

  lemma ReadEffect<C>(s: State<C>, c: C, msg: Option<WireMessage>)
    requires Enabled(s, Read(c, msg))
    ensures var cl := s.clients[c];
            var kept := if msg.Some? && msg.value.sid != "" then Some(Frame(c, cl.got, msg)) else None;
            Next(s, Read(c, msg)) == Put(s, c, cl.(got := cl.got + 1, pending := kept))
  {
  }

  lemma BindEffect<C>(s: State<C>, c: C)
    requires Enabled(s, Bind(c)) && s.clients[c].pending.value.msg.Some?
    ensures var msg := s.clients[c].pending.value.msg.value;
            Next(s, Bind(c)) == Put(Register(s, c, msg.sid), c, s.clients[c].(sid := msg.sid, role := msg.role))
  {
    hide Unlocked;
  }

  /** What forwarding does to each connection. */
  lemma RoutedForward<C>(s: State<C>, c: C)
    requires Live(s, c) && s.clients[c].pending.Some? && s.clients[c].pending.value.msg.Some?
    requires s.clients[c].sid != "" && s.clients[c].todo.None?
    requires Judge(s.clients[c], s.clients[c].pending.value.msg.value).Forward?
    ensures var r := Routed(s, c);
            && r.sessions == s.sessions && r.clients.Keys == s.clients.Keys
            && forall p :: p in s.clients ==>
                 r.clients[p] ==
                 if p == c then s.clients[p].(pending := None)
                 else if p in Members(s, s.clients[c].sid) then
                   s.clients[p].(queue := Push(s.clients[p].queue, Relayed(s.clients[c].pending.value)))
                 else s.clients[p]
  {
    hide Push, Members;
  }

  /** One whole turn of a read loop, with nothing else in between. */
  ghost function Handled<C>(s: State<C>, c: C, msg: Option<WireMessage>): State<C>
    requires Live(s, c)
  {
    var s1 := Next(s, Read(c, msg));
    if s1.clients[c].pending.None? then s1
    else Routed(if s1.clients[c].sid == "" then Next(s1, Bind(c)) else s1, c)
  }

  lemma {:induction false} Listing<C(!new)>(all: set<C>) returns (order: seq<C>)
    ensures Lists(order, all)
    decreases |all|
  {
    if all == {} {
      order := [];
    } else {
      var p :| p in all;
      var rest := Listing(all - {p});
      order := rest + [p];
      forall q ensures q in order <==> q in all {
        assert q in order <==> q in rest || q == p;
      }
    }
  }

  lemma {:induction false} RunConcat<C(!new)>(s: State<C>, a: seq<Step<C>>, b: seq<Step<C>>)
    ensures Run(s, a + b) == Run(Run(s, a), b)
  {
    hide Next;
    if b == [] {
      assert a + b == a;
    } else {
      var front, last := b[..|b| - 1], b[|b| - 1];
      RunConcat(s, a, front);
      assert (a + b)[..|a + b| - 1] == a + front;
    }
  }

  lemma RunMore<C(!new)>(s: State<C>, steps: seq<Step<C>>, step: Step<C>)
    ensures Run(s, steps + [step]) == Next(Run(s, steps), step)
  {
    assert (steps + [step])[..|steps|] == steps;
  }

  /** A turn taken as a whole is one of the interleavings. */
  lemma HandledIsRun<C(!new)>(s: State<C>, c: C, msg: Option<WireMessage>)
    requires Inv(s) && Live(s, c)
    ensures exists steps: seq<Step<C>> :: Run(s, steps) == Handled(s, c, msg)
  {
    hide Next, Run, Served, Working, Registered, Provenance, Ordered;
    var s1 := Next(s, Read(c, msg));
    RunNothing(s);
    RunMore(s, [], Read(c, msg));
    var steps := [] + [Read(c, msg)];
    NextKeeps(s, Read(c, msg));
    ClientStays(s, Read(c, msg), c);
    if s1.clients[c].pending.Some? {
      var s2 := s1;
      if s1.clients[c].sid == "" {
        s2 := Next(s1, Bind(c));
        RunMore(s, steps, Bind(c));
        steps := steps + [Bind(c)];
        NextKeeps(s1, Bind(c));
        ClientStays(s1, Bind(c), c);
      }
      var s3 := Next(s2, Route(c));
      RunMore(s, steps, Route(c));
      steps := steps + [Route(c)];
      NextKeeps(s2, Route(c));
      ClientStays(s2, Route(c), c);
      if s3.clients[c].todo.Some? && s3.clients[c].pending.Some? {
        ForwardingWhenWorking(s3, c);
        var order := Listing(s3.clients[c].todo.value);
        ForwardOrderIrrelevant(s3, c, order);
        RunConcat(s, steps, Offers(c, order) + [Finish(c)]);
        steps := steps + (Offers(c, order) + [Finish(c)]);
      }
    }
    assert Run(s, steps) == Handled(s, c, msg);
  }

  lemma RunNothing<C(!new)>(s: State<C>)
    ensures Run(s, []) == s
  {
  }

  lemma ForwardingWhenWorking<C(!new)>(s: State<C>, c: C)
    requires Inv(s) && c in s.clients && s.clients[c].todo.Some?
    ensures Forwarding(s, c)
  {
    hide Provenance, Ordered;
    assert WorkingAt(s, c);
    forall p | p in s.clients[c].todo.value ensures p in s.clients { assert p in Members(s, s.clients[c].sid); }
  }
}
