/** One phone connected throughout a key period: where every frame the daemon seals goes.
    The daemon's outbound queue, its socket, the phone's queue at the hub and the phone's
    socket are four FIFO stages; only the two bounded queues drop. */
module Conservation {
  import opened Common
  import opened E2ee
  import opened Wire
  import opened Sender
  import Base64
  import Hub
  import Phone

  /** `lostOut` lists the numbers dropped at the daemon's queue, `lostHub` the frames dropped at
      the hub's. */
  datatype State = State(sender: Sender.State, link: seq<WireMessage>, hubQueue: seq<WireMessage>,
                         down: seq<WireMessage>, phone: Phone.Crypto, lostOut: seq<nat>, lostHub: seq<WireMessage>)

  datatype Step =
    | Seal(ev: Event)
    | Announce(notice: WireMessage)
    | Ship
    | Forward
    | PongAt(pong: WireMessage)
    | Deliver
    | Receive

  /** A frame of the period: ciphertext under its key, numbered since it began. Control
      frames are none, nor is what was sealed for another key or in an earlier period. */
  predicate OfPeriod(key: SharedKey, n0: nat, m: WireMessage) {
    m.payload.Encrypted? && Carried(key, m.payload.env).Some? && Carried(key, m.payload.env).value.num > n0
  }

  function NumberOf(key: SharedKey, n0: nat, m: WireMessage): seq<nat> {
    if OfPeriod(key, n0, m) then [Carried(key, m.payload.env).value.num] else []
  }

  function Numbers(key: SharedKey, n0: nat, line: seq<WireMessage>): seq<nat> {
    if line == [] then [] else Numbers(key, n0, line[..|line| - 1]) + NumberOf(key, n0, line[|line| - 1])
  }

  function HubPush(queue: seq<WireMessage>, m: WireMessage): seq<WireMessage> {
    if |queue| < Hub.QUEUE_CAP then queue + [m] else queue
  }

  function Next(tape: Tape, key: SharedKey, s: State, step: Step): State {
    match step
    case Seal(ev) =>
      if s.sender.peer.None? then s
      else
        var full := |s.sender.outbound| == OUTBOUND_CAP;
        s.(sender := SendLocked(tape, s.sender, ev),
           lostOut := if full then s.lostOut + [s.sender.num + 1] else s.lostOut)
    case Announce(notice) =>
      if notice.payload.Encrypted? then s
      else s.(sender := s.sender.(outbound := Queue(s.sender.outbound, notice)))
    case Ship =>
      if s.sender.outbound == [] then s
      else s.(sender := s.sender.(outbound := s.sender.outbound[1..]), link := s.link + [s.sender.outbound[0]])
    case Forward =>
      if s.link == [] then s
      else
        var m := s.link[0];
        var full := |s.hubQueue| >= Hub.QUEUE_CAP;
        s.(link := s.link[1..], hubQueue := HubPush(s.hubQueue, m),
           lostHub := if full then s.lostHub + [m] else s.lostHub)
    case PongAt(pong) =>
      if pong.payload.Encrypted? then s else s.(hubQueue := HubPush(s.hubQueue, pong))
    case Deliver =>
      if s.hubQueue == [] then s
      else s.(hubQueue := s.hubQueue[1..], down := s.down + [s.hubQueue[0]])
    case Receive =>
      if s.down == [] then s
      else
        var m := s.down[0];
        s.(down := s.down[1..],
           phone := if m.payload.Encrypted? then Phone.FinishOpen(s.phone, key, m.payload.env).0 else s.phone)
  }

  function Run(tape: Tape, key: SharedKey, s: State, steps: seq<Step>): State {
    if steps == [] then s else Next(tape, key, Run(tape, key, s, steps[..|steps| - 1]), steps[|steps| - 1])
  }

  /** Every frame on its way, nearest the phone first. */
  function Line(s: State): seq<WireMessage> {
    s.down + s.hubQueue + s.link + s.sender.outbound
  }

  /** The numbers of the period that the phone has accepted since it had accepted `base`
      messages. */
  function Accepted(s: State, base: nat, n0: nat): seq<nat>
    requires base <= |s.phone.accepted|
  {
    AcceptedNumbers(s.phone.accepted[base..], n0)
  }

  function AcceptedNumbers(got: seq<Phone.Received>, n0: nat): seq<nat> {
    if got == [] then []
    else
      var n := got[|got| - 1].msg.num;
      AcceptedNumbers(got[..|got| - 1], n0) + (if n > n0 then [n] else [])
  }

  // The ledger: the same run seen as numbers only.

  /** Where each number spent since the period began has gone: accepted, dropped at either
      queue, or still on the line; the phone's counter and the daemon's. */
  datatype Ledger = Ledger(accepted: seq<nat>, lostOut: seq<nat>, lostHub: seq<nat>, line: seq<nat>,
                           last: nat, spent: nat)

  datatype Entry = Nothing | Sent | LostAtDaemon | LostAtHub(at: nat) | Got

  function Posted(l: Ledger, e: Entry): Ledger
    requires e.LostAtHub? ==> e.at < |l.line|
    requires e.Got? ==> l.line != []
  {
    match e
    case Nothing => l
    case Sent => l.(spent := l.spent + 1, line := l.line + [l.spent + 1])
    case LostAtDaemon => l.(spent := l.spent + 1, lostOut := l.lostOut + [l.spent + 1])
    case LostAtHub(i) => l.(line := l.line[..i] + l.line[i + 1..], lostHub := l.lostHub + [l.line[i]])
    case Got => l.(line := l.line[1..], accepted := l.accepted + [l.line[0]], last := l.line[0])
  }

  function CountUpTo(ns: seq<nat>, x: int): nat {
    if ns == [] then 0 else CountUpTo(ns[..|ns| - 1], x) + (if ns[|ns| - 1] <= x then 1 else 0)
  }

  ghost predicate Ascending(ns: seq<nat>) {
    forall i, j :: 0 <= i < j < |ns| ==> ns[i] < ns[j]
  }

  ghost predicate Within(ns: seq<nat>, above: int, upTo: int) {
    forall i :: 0 <= i < |ns| ==> above < ns[i] <= upTo
  }

  /** How many numbers up to `x` are accounted for. */
  function Tally(l: Ledger, x: int): nat {
    CountUpTo(l.accepted, x) + CountUpTo(l.lostOut, x) + CountUpTo(l.lostHub, x) + CountUpTo(l.line, x)
  }

  /** With `n0` numbers spent before the period began. */
  ghost predicate Balanced(l: Ledger, n0: nat) {
    Ordered(l, n0) && forall x: int :: n0 <= x ==> Tally(l, x) == Min(x, l.spent) - n0
  }

  /** Everything of the balance but the tallies. */
  ghost predicate Ordered(l: Ledger, n0: nat) {
    && n0 <= l.spent && l.last <= l.spent
    && Ascending(l.accepted) && Within(l.accepted, n0, l.last)
    && (l.accepted != [] ==> l.accepted[|l.accepted| - 1] == l.last)
    && Ascending(l.line) && Within(l.line, l.last, l.spent) && Within(l.line, n0, l.spent)
    && Within(l.lostOut, n0, l.spent) && Within(l.lostHub, n0, l.spent)
  }

  lemma {:induction false} CountConcat(a: seq<nat>, b: seq<nat>, x: int)
    ensures CountUpTo(a + b, x) == CountUpTo(a, x) + CountUpTo(b, x)
  {
    if b == [] {
      assert a + b == a;
    } else {
      CountConcat(a, b[..|b| - 1], x);
      assert (a + b)[..|a + b| - 1] == a + b[..|b| - 1];
    }
  }

  lemma CountOne(n: nat, x: int)
    ensures CountUpTo([n], x) == if n <= x then 1 else 0
  {
    assert [n][..0] == [];
  }

  lemma {:induction false} CountAll(ns: seq<nat>, above: int, x: int)
    requires Within(ns, above, x)
    ensures CountUpTo(ns, x) == |ns|
  {
    if ns != [] { CountAll(ns[..|ns| - 1], above, x); }
  }

  lemma {:induction false} CountNone(ns: seq<nat>, x: int, upTo: int)
    requires Within(ns, x, upTo)
    ensures CountUpTo(ns, x) == 0
  {
    if ns != [] { CountNone(ns[..|ns| - 1], x, upTo); }
  }

  lemma TallyLostAtHub(l: Ledger, i: nat, x: int)
    requires i < |l.line|
    ensures Tally(Posted(l, LostAtHub(i)), x) == Tally(l, x)
  {
    hide CountUpTo;
    var a, b, c := l.line[..i], [l.line[i]], l.line[i + 1..];
    assert l.line == a + b + c;
    CountConcat(l.lostHub, b, x);
    CountConcat(a, c, x);
    CountConcat(a, b, x);
    CountConcat(a + b, c, x);
  }

  lemma TallyGot(l: Ledger, x: int)
    requires l.line != []
    ensures Tally(Posted(l, Got), x) == Tally(l, x)
  {
    hide CountUpTo;
    assert l.line == [l.line[0]] + l.line[1..];
    CountConcat(l.accepted, [l.line[0]], x);
    CountConcat([l.line[0]], l.line[1..], x);
  }

  lemma TallyPosted(l: Ledger, e: Entry, x: int)
    requires e.LostAtHub? ==> e.at < |l.line|
    requires e.Got? ==> l.line != []
    ensures Tally(Posted(l, e), x) == Tally(l, x)
              + if (e.Sent? || e.LostAtDaemon?) && l.spent + 1 <= x then 1 else 0
  {
    CountOne(l.spent + 1, x);
    hide CountUpTo;
    match e
    case Nothing =>
    case Sent => CountConcat(l.line, [l.spent + 1], x);
    case LostAtDaemon => CountConcat(l.lostOut, [l.spent + 1], x);
    case LostAtHub(i) => TallyLostAtHub(l, i, x);
    case Got => TallyGot(l, x);
  }

  lemma PostedBalanced(l: Ledger, e: Entry, n0: nat)
    requires Balanced(l, n0)
    requires e.LostAtHub? ==> e.at < |l.line|
    requires e.Got? ==> l.line != []
    ensures Balanced(Posted(l, e), n0)
  {
    hide Tally, CountUpTo;
    var r := Posted(l, e);
    forall x: int | n0 <= x ensures Tally(r, x) == Min(x, r.spent) - n0 {
      TallyPosted(l, e, x);
    }
    PostedInOrder(l, e, n0);
  }

  lemma PostedInOrder(l: Ledger, e: Entry, n0: nat)
    requires Ordered(l, n0)
    requires e.LostAtHub? ==> e.at < |l.line|
    requires e.Got? ==> l.line != []
    ensures Ordered(Posted(l, e), n0)
  {
    match e
    case Nothing =>
    case Sent => AscendingMore(l.line, l.last, l.spent + 1);
    case LostAtDaemon =>
    case LostAtHub(i) =>
      hide Ordered;
      LostInOrder(l, i, n0);
    case Got =>
      hide Ordered;
      GotInOrder(l, n0);
  }

  lemma LostInOrder(l: Ledger, i: nat, n0: nat)
    requires Ordered(l, n0) && i < |l.line|
    ensures Ordered(Posted(l, LostAtHub(i)), n0)
  {
    AscendingWithout(l.line, i, l.last, l.spent);
    AscendingWithout(l.line, i, n0, l.spent);
    hide Ascending;
  }

  lemma GotInOrder(l: Ledger, n0: nat)
    requires Ordered(l, n0) && l.line != []
    ensures Ordered(Posted(l, Got), n0)
  {
    AscendingTail(l.line, l.spent);
    AscendingMore(l.accepted, n0, l.line[0]);
    hide Ascending;
  }

  lemma AscendingMore(ns: seq<nat>, above: int, x: nat)
    requires Ascending(ns) && Within(ns, above, x - 1)
    ensures Ascending(ns + [x])
  {
  }

  lemma AscendingTail(ns: seq<nat>, upTo: int)
    requires Ascending(ns) && ns != []
    ensures Ascending(ns[1..]) && (forall x: int :: Within(ns, x, upTo) ==>
                                             Within(ns[1..], ns[0], upTo) && x < ns[0] <= upTo)
  {
  }

  lemma AscendingWithout(ns: seq<nat>, at: nat, above: int, upTo: int)
    requires Ascending(ns) && at < |ns| && Within(ns, above, upTo)
    ensures Ascending(ns[..at] + ns[at + 1..]) && Within(ns[..at] + ns[at + 1..], above, upTo)
  {
  }

  /** What a balanced ledger says about counts and gaps. */
  lemma BalancedCounts(l: Ledger, n0: nat)
    requires Balanced(l, n0)
    ensures l.spent - n0 == |l.accepted| + |l.lostOut| + |l.lostHub| + |l.line|
    ensures l.accepted != [] ==>
              l.last - n0 - |l.accepted| == CountUpTo(l.lostOut, l.last) + CountUpTo(l.lostHub, l.last)
  {
    CountAll(l.accepted, n0, l.spent);
    CountAll(l.lostOut, n0, l.spent);
    CountAll(l.lostHub, n0, l.spent);
    CountAll(l.line, n0, l.spent);
    assert Tally(l, l.spent) == l.spent - n0;
    if l.accepted != [] {
      CountAll(l.accepted, n0, l.last);
      CountNone(l.line, l.last, l.spent);
      assert l.accepted[|l.accepted| - 1] > n0;
      assert Tally(l, l.last) == l.last - n0;
    }
  }

  // Each step of the pipeline posts one entry.

  function LedgerOf(key: SharedKey, s: State, base: nat, n0: nat): Ledger
    requires base <= |s.phone.accepted|
  {
    Ledger(Accepted(s, base, n0), s.lostOut, Numbers(key, n0, s.lostHub), Numbers(key, n0, Line(s)),
           if s.phone.lastPeerNum > n0 then s.phone.lastPeerNum else n0, s.sender.num)
  }

  /** A frame of the period is one the phone can open. */
  ghost predicate Opens(key: SharedKey, n0: nat, m: WireMessage) {
    OfPeriod(key, n0, m) ==> PhoneOpen(key, m.payload.env).Ok?
  }

  ghost predicate Sound(key: SharedKey, s: State, base: nat, n0: nat) {
    && s.sender.peer.Some? && key == Agree(s.sender.own, s.sender.peer.value.key)
    && base <= |s.phone.accepted| && |s.sender.outbound| <= OUTBOUND_CAP && n0 <= s.sender.num
    && forall m :: m in Line(s) ==> Opens(key, n0, m)
  }

  lemma NumbersAppend(key: SharedKey, n0: nat, line: seq<WireMessage>, m: WireMessage)
    ensures Numbers(key, n0, line + [m]) == Numbers(key, n0, line) + NumberOf(key, n0, m)
  {
    assert (line + [m])[..|line|] == line;
  }

  lemma {:induction false} NumbersConcat(key: SharedKey, n0: nat, a: seq<WireMessage>, b: seq<WireMessage>)
    ensures Numbers(key, n0, a + b) == Numbers(key, n0, a) + Numbers(key, n0, b)
  {
    if b == [] {
      assert a + b == a;
    } else {
      var front, m := b[..|b| - 1], b[|b| - 1];
      NumbersConcat(key, n0, a, front);
      hide Numbers, NumberOf;
      NumbersAppend(key, n0, a + front, m);
      NumbersAppend(key, n0, front, m);
      LastApart(a, b);
    }
  }

  lemma NumbersOne(key: SharedKey, n0: nat, m: WireMessage)
    ensures Numbers(key, n0, [m]) == NumberOf(key, n0, m)
  {
    assert [m][..0] == [];
  }

  lemma NumbersMiddle(key: SharedKey, n0: nat, before: seq<WireMessage>, m: WireMessage, after: seq<WireMessage>)
    ensures Numbers(key, n0, before + [m] + after)
         == Numbers(key, n0, before) + NumberOf(key, n0, m) + Numbers(key, n0, after)
    ensures Numbers(key, n0, before + after) == Numbers(key, n0, before) + Numbers(key, n0, after)
  {
    NumbersConcat(key, n0, before, after);
    NumbersConcat(key, n0, before + [m], after);
    NumbersConcat(key, n0, before, [m]);
    NumbersOne(key, n0, m);
  }

  /** The frame that sealing `ev` next makes, as long as it succeeds. */
  function FrameFor(tape: Tape, s: Sender.State, ev: Event): WireMessage
    requires s.peer.Some? && tape(s.num + 1).Some?
  {
    SealedFrame(s, s.peer.value.key, tape(s.num + 1).value, Numbered(s, ev))
  }

  lemma SealedFrameOpens(n0: nat, s: Sender.State, key: PublicKey, nonce: Nonce, msg: PlainMessage)
    requires msg.num > n0
    ensures Opens(Agree(s.own, key), n0, SealedFrame(s, key, nonce, msg))
    ensures NumberOf(Agree(s.own, key), n0, SealedFrame(s, key, nonce, msg)) == [msg.num]
  {
    SealedOpensAtOtherEnd(s.own, KeyPair(key), nonce, "daemon", msg);
    hide PhoneOpen, Base64.EncodeRaw;
  }

  lemma FrameOpens(n0: nat, tape: Tape, s: Sender.State, ev: Event)
    requires s.peer.Some? && tape(s.num + 1).Some? && n0 <= s.num
    ensures Opens(Agree(s.own, s.peer.value.key), n0, FrameFor(tape, s, ev))
    ensures NumberOf(Agree(s.own, s.peer.value.key), n0, FrameFor(tape, s, ev)) == [s.num + 1]
  {
    hide Opens, NumberOf, SealedFrame;
    SealedFrameOpens(n0, s, s.peer.value.key, tape(s.num + 1).value, Numbered(s, ev));
  }

  /** Sealing changes the counter, the drop list and the end of the line, nothing else. */
  lemma SealEffect(tape: Tape, key: SharedKey, s: State, ev: Event)
    requires s.sender.peer.Some? && tape(s.sender.num + 1).Some? && |s.sender.outbound| <= OUTBOUND_CAP
    ensures var r := Next(tape, key, s, Seal(ev));
            var full := |s.sender.outbound| == OUTBOUND_CAP;
            && Line(r) == (if full then Line(s) else Line(s) + [FrameFor(tape, s.sender, ev)])
            && r.phone == s.phone && r.lostHub == s.lostHub && r.sender.num == s.sender.num + 1
            && r.sender.own == s.sender.own && r.sender.peer == s.sender.peer
            && |r.sender.outbound| <= OUTBOUND_CAP
            && r.lostOut == (if full then s.lostOut + [s.sender.num + 1] else s.lostOut)
  {
    hide SealedFrame, Numbered;
  }

  lemma SealPosts(tape: Tape, key: SharedKey, s: State, ev: Event, base: nat, n0: nat)
    requires Sound(key, s, base, n0) && tape(s.sender.num + 1).Some?
    ensures var r := Next(tape, key, s, Seal(ev));
            && Sound(key, r, base, n0)
            && LedgerOf(key, r, base, n0) == Posted(LedgerOf(key, s, base, n0),
                                                    if |s.sender.outbound| == OUTBOUND_CAP then LostAtDaemon else Sent)
  {
    hide Next, Line, Opens, NumberOf, FrameFor, Posted, LedgerOf;
    SealEffect(tape, key, s, ev);
    FrameOpens(n0, tape, s.sender, ev);
    FramePosts(key, s, Next(tape, key, s, Seal(ev)), FrameFor(tape, s.sender, ev), base, n0);
  }

  lemma FramePosts(key: SharedKey, s: State, r: State, frame: WireMessage, base: nat, n0: nat)
    requires Sound(key, s, base, n0) && Opens(key, n0, frame) && NumberOf(key, n0, frame) == [s.sender.num + 1]
    requires r.phone == s.phone && r.lostHub == s.lostHub && r.sender.num == s.sender.num + 1
    requires r.sender.own == s.sender.own && r.sender.peer == s.sender.peer && |r.sender.outbound| <= OUTBOUND_CAP
    requires var full := |s.sender.outbound| == OUTBOUND_CAP;
             && Line(r) == (if full then Line(s) else Line(s) + [frame])
             && r.lostOut == (if full then s.lostOut + [s.sender.num + 1] else s.lostOut)
    ensures Sound(key, r, base, n0)
    ensures LedgerOf(key, r, base, n0) == Posted(LedgerOf(key, s, base, n0),
                                                 if |s.sender.outbound| == OUTBOUND_CAP then LostAtDaemon else Sent)
  {
    hide Opens, Line, Numbers, AcceptedNumbers, NumberOf;
    NumbersConcat(key, n0, Line(s), [frame]);
    NumbersOne(key, n0, frame);
  }

  lemma HubDropPosts(key: SharedKey, s: State, r: State, base: nat, n0: nat,
                     before: seq<WireMessage>, m: WireMessage, after: seq<WireMessage>)
    requires Sound(key, s, base, n0) && Line(s) == before + [m] + after && Line(r) == before + after
    requires r.phone == s.phone && r.lostOut == s.lostOut && r.sender == s.sender && r.lostHub == s.lostHub + [m]
    ensures OfPeriod(key, n0, m) ==> |Numbers(key, n0, before)| < |LedgerOf(key, s, base, n0).line|
    ensures Sound(key, r, base, n0)
    ensures LedgerOf(key, r, base, n0) ==
            Posted(LedgerOf(key, s, base, n0),
                   if OfPeriod(key, n0, m) then LostAtHub(|Numbers(key, n0, before)|) else Nothing)
  {
    hide Opens, Numbers, OfPeriod;
    NumbersMiddle(key, n0, before, m, after);
    NumbersConcat(key, n0, s.lostHub, [m]);
    NumbersOne(key, n0, m);
    assert forall k :: k in Line(r) ==> k in Line(s);
    if OfPeriod(key, n0, m) {
      var line := LedgerOf(key, s, base, n0).line;
      assert line[..|Numbers(key, n0, before)|] == Numbers(key, n0, before);
      assert line[|Numbers(key, n0, before)| + 1..] == Numbers(key, n0, after);
    }
  }

  /** On the line's order the phone refuses no frame of the period, and what else it opens
      on the way does not count. */
  lemma ReceivePosts(tape: Tape, key: SharedKey, s: State, base: nat, n0: nat)
    requires Sound(key, s, base, n0) && Balanced(LedgerOf(key, s, base, n0), n0) && s.down != []
    ensures var r := Next(tape, key, s, Receive);
            && Sound(key, r, base, n0)
            && (OfPeriod(key, n0, s.down[0]) ==> LedgerOf(key, s, base, n0).line != [])
            && LedgerOf(key, r, base, n0) == Posted(LedgerOf(key, s, base, n0),
                                                    if OfPeriod(key, n0, s.down[0]) then Got else Nothing)
  {
    hide PhoneOpen, Numbers, AcceptedNumbers, Tally, Ascending, OfPeriod, Phone.FinishOpen;
    var r := Next(tape, key, s, Receive);
    var m, rest := s.down[0], Line(r);
    assert Line(s) == [] + [m] + rest;
    assert Numbers(key, n0, []) == [] by { NoNumbers(key, n0, []); }
    NumbersMiddle(key, n0, [], m, rest);
    assert m in Line(s);
    assert forall k :: k in rest ==> k in Line(s);
    if OfPeriod(key, n0, m) {
      PeriodNumber(key, n0, m);
      var line := LedgerOf(key, s, base, n0).line;
      assert line[0] == Carried(key, m.payload.env).value.num && line[1..] == Numbers(key, n0, rest);
      ReceiveAccepts(key, s.phone, m, base, n0);
    } else if m.payload.Encrypted? {
      ReceiveOther(key, s.phone, m, base, n0);
    }
  }

  lemma PeriodNumber(key: SharedKey, n0: nat, m: WireMessage)
    requires OfPeriod(key, n0, m)
    ensures m.payload.Encrypted? && Carried(key, m.payload.env).Some?
    ensures NumberOf(key, n0, m) == [Carried(key, m.payload.env).value.num]
    ensures Carried(key, m.payload.env).value.num > n0
  {
  }

  lemma ReceiveAccepts(key: SharedKey, c: Phone.Crypto, m: WireMessage, base: nat, n0: nat)
    requires Opens(key, n0, m) && OfPeriod(key, n0, m) && base <= |c.accepted|
    requires c.lastPeerNum < Carried(key, m.payload.env).value.num
    ensures var n := Carried(key, m.payload.env).value.num;
            var d := Phone.FinishOpen(c, key, m.payload.env).0;
            && d.lastPeerNum == n && base <= |d.accepted|
            && AcceptedNumbers(d.accepted[base..], n0) == AcceptedNumbers(c.accepted[base..], n0) + [n]
  {
    hide PhoneOpen;
    Phone.OpenedCarried(key, m.payload.env);
    var d := Phone.FinishOpen(c, key, m.payload.env).0;
    var got := d.accepted[base..];
    assert got[..|got| - 1] == c.accepted[base..];
  }

  /** A ciphertext that is not of the period leaves the numbers of the period alone: it is
      refused, or accepted with a number from before the period. */
  lemma ReceiveOther(key: SharedKey, c: Phone.Crypto, m: WireMessage, base: nat, n0: nat)
    requires !OfPeriod(key, n0, m) && m.payload.Encrypted? && base <= |c.accepted|
    ensures var d := Phone.FinishOpen(c, key, m.payload.env).0;
            && base <= |d.accepted|
            && AcceptedNumbers(d.accepted[base..], n0) == AcceptedNumbers(c.accepted[base..], n0)
            && (d.lastPeerNum == c.lastPeerNum || c.lastPeerNum < d.lastPeerNum <= n0)
  {
    hide PhoneOpen;
    var d := Phone.FinishOpen(c, key, m.payload.env).0;
    if PhoneOpen(key, m.payload.env).Ok? {
      Phone.OpenedCarried(key, m.payload.env);
      if m.payload.env.num > c.lastPeerNum {
        var got := d.accepted[base..];
        assert got[..|got| - 1] == c.accepted[base..];
      }
    }
  }

  lemma ControlPosts(key: SharedKey, s: State, r: State, base: nat, n0: nat,
                     before: seq<WireMessage>, m: WireMessage, after: seq<WireMessage>)
    requires Sound(key, s, base, n0) && !m.payload.Encrypted?
    requires Line(s) == before + after && Line(r) == before + [m] + after
    requires r.phone == s.phone && r.lostOut == s.lostOut && r.lostHub == s.lostHub
    requires r.sender.num == s.sender.num && r.sender.peer == s.sender.peer && r.sender.own == s.sender.own
    requires |r.sender.outbound| <= OUTBOUND_CAP
    ensures Sound(key, r, base, n0) && LedgerOf(key, r, base, n0) == LedgerOf(key, s, base, n0)
  {
    hide Numbers, AcceptedNumbers;
    NumbersMiddle(key, n0, before, m, after);
    forall k | k in Line(r) ensures Opens(key, n0, k) { assert k == m || k in Line(s); }
  }

  lemma ForwardKeeps(tape: Tape, key: SharedKey, s: State, base: nat, n0: nat)
    requires Sound(key, s, base, n0) && Balanced(LedgerOf(key, s, base, n0), n0) && s.link != []
    ensures Sound(key, Next(tape, key, s, Forward), base, n0)
    ensures Balanced(LedgerOf(key, Next(tape, key, s, Forward), base, n0), n0)
  {
    hide Balanced, Opens, Posted, Numbers, AcceptedNumbers, OfPeriod;
    var r := Next(tape, key, s, Forward);
    var m, before, after := s.link[0], s.down + s.hubQueue, s.link[1..] + s.sender.outbound;
    assert Line(s) == before + [m] + after;
    if |s.hubQueue| >= Hub.QUEUE_CAP {
      assert Line(r) == before + after;
      HubDropPosts(key, s, r, base, n0, before, m, after);
      var entry := if OfPeriod(key, n0, m) then LostAtHub(|Numbers(key, n0, before)|) else Nothing;
      PostedBalanced(LedgerOf(key, s, base, n0), entry, n0);
    } else {
      assert Line(r) == Line(s);
    }
  }

  lemma NextKeeps(tape: Tape, key: SharedKey, s: State, step: Step, base: nat, n0: nat)
    requires Sound(key, s, base, n0) && Balanced(LedgerOf(key, s, base, n0), n0) && (forall n: nat :: tape(n).Some?)
    ensures Sound(key, Next(tape, key, s, step), base, n0)
    ensures Balanced(LedgerOf(key, Next(tape, key, s, step), base, n0), n0)
  {
    hide Balanced, SendLocked, Phone.FinishOpen, Opens, Posted, Numbers, AcceptedNumbers, OfPeriod;
    var r := Next(tape, key, s, step);
    var l := LedgerOf(key, s, base, n0);
    match step
    case Seal(ev) =>
      SealPosts(tape, key, s, ev, base, n0);
      PostedBalanced(l, if |s.sender.outbound| == OUTBOUND_CAP then LostAtDaemon else Sent, n0);
    case Announce(notice) =>
      if !notice.payload.Encrypted? && |s.sender.outbound| < OUTBOUND_CAP {
        assert Line(s) == Line(s) + [] && Line(r) == Line(s) + [notice] + [];
        ControlPosts(key, s, r, base, n0, Line(s), notice, []);
      }
    case Ship => assert Line(r) == Line(s);
    case Forward =>
      if s.link != [] { ForwardKeeps(tape, key, s, base, n0); }
    case PongAt(pong) =>
      if !pong.payload.Encrypted? && |s.hubQueue| < Hub.QUEUE_CAP {
        var before, after := s.down + s.hubQueue, s.link + s.sender.outbound;
        assert Line(s) == before + after && Line(r) == before + [pong] + after;
        ControlPosts(key, s, r, base, n0, before, pong, after);
      }
    case Deliver => assert Line(r) == Line(s);
    case Receive =>
      if s.down != [] {
        ReceivePosts(tape, key, s, base, n0);
        PostedBalanced(l, if OfPeriod(key, n0, s.down[0]) then Got else Nothing, n0);
      }
  }

  lemma {:induction false} RunKeeps(tape: Tape, key: SharedKey, s: State, steps: seq<Step>, base: nat, n0: nat)
    requires Sound(key, s, base, n0) && Balanced(LedgerOf(key, s, base, n0), n0) && (forall n: nat :: tape(n).Some?)
    ensures Sound(key, Run(tape, key, s, steps), base, n0)
    ensures Balanced(LedgerOf(key, Run(tape, key, s, steps), base, n0), n0)
  {
    hide Balanced, Next, Opens, LedgerOf;
    if steps != [] {
      RunKeeps(tape, key, s, steps[..|steps| - 1], base, n0);
      NextKeeps(tape, key, Run(tape, key, s, steps[..|steps| - 1]), steps[|steps| - 1], base, n0);
    }
  }

  /** The start of a key period, whatever is on the way: what was sealed for other keys, or
      for this one in an earlier period, may stand in any queue. The daemon's counter covers
      every number sealed so far and the phone's counter; drops are counted from here. */
  ghost predicate PeriodStart(key: SharedKey, s: State) {
    && s.sender.peer.Some? && key == Agree(s.sender.own, s.sender.peer.value.key)
    && (forall m :: m in Line(s) && m.payload.Encrypted? && Carried(key, m.payload.env).Some? ==>
          Carried(key, m.payload.env).value.num <= s.sender.num)
    && s.phone.lastPeerNum <= s.sender.num && |s.sender.outbound| <= OUTBOUND_CAP
    && s.lostOut == [] && s.lostHub == []
  }

  lemma {:induction false} NoNumbers(key: SharedKey, n0: nat, line: seq<WireMessage>)
    requires forall m :: m in line ==> !OfPeriod(key, n0, m)
    ensures Numbers(key, n0, line) == []
  {
    if line != [] { NoNumbers(key, n0, line[..|line| - 1]); }
  }

  lemma StartSatisfies(key: SharedKey, s: State)
    requires PeriodStart(key, s)
    ensures var base, n0 := |s.phone.accepted|, s.sender.num;
            Sound(key, s, base, n0) && Balanced(LedgerOf(key, s, base, n0), n0)
  {
    var base, n0 := |s.phone.accepted|, s.sender.num;
    NoNumbers(key, n0, Line(s));
    NoNumbers(key, n0, []);
    assert s.phone.accepted[base..] == [];
    assert Accepted(s, base, n0) == [];
    hide Line, Numbers, Accepted, AcceptedNumbers;
    EmptyBalanced(LedgerOf(key, s, base, n0), n0);
  }

  lemma EmptyBalanced(l: Ledger, n0: nat)
    requires l.accepted == l.lostOut == l.lostHub == l.line == [] && l.last <= l.spent == n0
    ensures Balanced(l, n0)
  {
    forall x: int ensures Tally(l, x) == 0 {
      assert CountUpTo([], x) == 0;
    }
  }

  /** Conservation. From the start of a key period on, whatever the interleaving and
      whatever of earlier periods is still on the way: the frames sealed are those accepted,
      dropped at the daemon's queue, dropped at the hub, and still on the way; the accepted
      ones come in order; and the numbers missing below the last accepted one are exactly
      the drops below it. */
  lemma EveryFrameAccountedFor(tape: Tape, key: SharedKey, s: State, steps: seq<Step>)
    requires PeriodStart(key, s) && (forall n: nat :: tape(n).Some?)
    ensures var n0, base, r := s.sender.num, |s.phone.accepted|, Run(tape, key, s, steps);
            && base <= |r.phone.accepted|
            && var got, dropped := Accepted(r, base, n0), Numbers(key, n0, r.lostHub);
               && r.sender.num - n0 == |got| + |r.lostOut| + |dropped| + |Numbers(key, n0, Line(r))|
               && Ascending(got)
               && (got != [] ==>
                     var last := got[|got| - 1];
                     last - n0 - |got| == CountUpTo(r.lostOut, last) + CountUpTo(dropped, last))
  {
    hide Next, Opens, CountUpTo, Tally, Line, Numbers, Run, AcceptedNumbers;
    var base, n0 := |s.phone.accepted|, s.sender.num;
    StartSatisfies(key, s);
    RunKeeps(tape, key, s, steps, base, n0);
    BalancedCounts(LedgerOf(key, Run(tape, key, s, steps), base, n0), n0);
  }

  // What is on the way arrives, and nothing is dropped for no reason.

  /** Every frame queued finds room: fewer than 256 frames wait where it goes. */
  ghost predicate Roomy(tape: Tape, key: SharedKey, s: State, steps: seq<Step>) {
    steps == []
    || (var before := Run(tape, key, s, steps[..|steps| - 1]);
        && Roomy(tape, key, s, steps[..|steps| - 1])
        && (steps[|steps| - 1].Seal? ==> |before.sender.outbound| < 256)
        && (steps[|steps| - 1].Forward? ==> |before.hubQueue| < 256))
  }

  lemma {:induction false} NothingDropped(tape: Tape, key: SharedKey, s: State, steps: seq<Step>)
    requires Roomy(tape, key, s, steps)
    ensures var r := Run(tape, key, s, steps); r.lostOut == s.lostOut && r.lostHub == s.lostHub
  {
    hide SendLocked, Phone.FinishOpen;
    if steps != [] { NothingDropped(tape, key, s, steps[..|steps| - 1]); }
  }

  /** With room in both queues the phone accepts every number of the period up to its last
      without a gap, and all others are still on the way. */
  lemma WithRoomNoGaps(tape: Tape, key: SharedKey, s: State, steps: seq<Step>)
    requires PeriodStart(key, s) && (forall n: nat :: tape(n).Some?) && Roomy(tape, key, s, steps)
    ensures var n0, base, r := s.sender.num, |s.phone.accepted|, Run(tape, key, s, steps);
            && base <= |r.phone.accepted|
            && var got := Accepted(r, base, n0);
               && r.sender.num - n0 == |got| + |Numbers(key, n0, Line(r))|
               && forall i :: 0 <= i < |got| ==> got[i] == n0 + i + 1
  {
    EveryFrameAccountedFor(tape, key, s, steps);
    NothingDropped(tape, key, s, steps);
    AcceptedAbove(key, s, tape, steps);
    hide Run, Roomy, Line, Numbers, Accepted, CountUpTo;
    var r := Run(tape, key, s, steps);
    NoneUpTo(Accepted(r, |s.phone.accepted|, s.sender.num), s.sender.num);
  }

  lemma AcceptedAbove(key: SharedKey, s: State, tape: Tape, steps: seq<Step>)
    requires PeriodStart(key, s) && (forall n: nat :: tape(n).Some?)
    ensures |s.phone.accepted| <= |Run(tape, key, s, steps).phone.accepted|
    ensures var got := Accepted(Run(tape, key, s, steps), |s.phone.accepted|, s.sender.num);
            forall i :: 0 <= i < |got| ==> s.sender.num < got[i]
    ensures Numbers(key, s.sender.num, []) == [] && forall x: int :: CountUpTo([], x) == 0
  {
    hide Next, Opens, Tally, Line, Run, AcceptedNumbers;
    StartSatisfies(key, s);
    RunKeeps(tape, key, s, steps, |s.phone.accepted|, s.sender.num);
  }

  /** As many ascending numbers above `n0` as the last is above it leave no gap. */
  lemma {:induction false} NoneUpTo(got: seq<nat>, n0: nat)
    requires Ascending(got) && (forall i :: 0 <= i < |got| ==> n0 < got[i])
    requires got != [] ==> got[|got| - 1] - n0 == |got|
    ensures forall i :: 0 <= i < |got| ==> got[i] == n0 + i + 1
  {
    if got != [] {
      var front := got[..|got| - 1];
      AtLeast(front, n0);
      if front != [] { assert front[|front| - 1] < got[|got| - 1]; }
      NoneUpTo(front, n0);
    }
  }

  lemma {:induction false} AtLeast(got: seq<nat>, n0: nat)
    requires Ascending(got) && forall i :: 0 <= i < |got| ==> n0 < got[i]
    ensures got != [] ==> got[|got| - 1] >= n0 + |got|
  {
    if |got| > 1 { AtLeast(got[..|got| - 1], n0); }
  }

  /** Nothing but its place on the line changes for a frame that moves on. */
  ghost predicate SameAccounts(s: State, r: State) {
    r.sender.num == s.sender.num && r.lostOut == s.lostOut && r.lostHub == s.lostHub
  }

  lemma ReceiveMoves(tape: Tape, key: SharedKey, s: State)
    requires s.down != []
    ensures var r := Next(tape, key, s, Receive); SameAccounts(s, r) && Line(r) == Line(s)[1..]
  {
    hide Phone.FinishOpen;
    MoveHead(s.down, s.hubQueue + s.link + s.sender.outbound);
    assert Line(s) == s.down + (s.hubQueue + s.link + s.sender.outbound);
    assert Line(Next(tape, key, s, Receive)) == s.down[1..] + (s.hubQueue + s.link + s.sender.outbound);
  }

  lemma MoveHead<T>(a: seq<T>, b: seq<T>)
    requires a != []
    ensures a == [a[0]] + a[1..] && (a + b)[1..] == a[1..] + b
  {
  }

  lemma DeliverMoves(tape: Tape, key: SharedKey, s: State)
    requires s.hubQueue != []
    ensures var r := Next(tape, key, s, Deliver);
            && SameAccounts(s, r) && Line(r) == Line(s) && |r.hubQueue| == |s.hubQueue| - 1
            && r.link == s.link && r.sender.outbound == s.sender.outbound
  {
    MoveHead(s.hubQueue, []);
    Regroup(s.down, [s.hubQueue[0]], s.hubQueue[1..], s.link + s.sender.outbound);
  }

  lemma ForwardMoves(tape: Tape, key: SharedKey, s: State)
    requires s.hubQueue == [] && s.link != []
    ensures var r := Next(tape, key, s, Forward);
            && SameAccounts(s, r) && Line(r) == Line(s) && |r.hubQueue| == 1
            && |r.link| == |s.link| - 1 && r.sender.outbound == s.sender.outbound
  {
    MoveHead(s.link, []);
    Regroup(s.down, [s.link[0]], s.link[1..], s.sender.outbound);
  }

  lemma ShipMoves(tape: Tape, key: SharedKey, s: State)
    requires s.sender.outbound != []
    ensures var r := Next(tape, key, s, Ship);
            && SameAccounts(s, r) && Line(r) == Line(s) && r.hubQueue == s.hubQueue
            && |r.link| == |s.link| + 1 && |r.sender.outbound| == |s.sender.outbound| - 1
  {
    MoveHead(s.sender.outbound, []);
    Regroup(s.down + s.hubQueue, s.link, [s.sender.outbound[0]], s.sender.outbound[1..]);
  }

  lemma Regroup<T>(a: seq<T>, b: seq<T>, c: seq<T>, d: seq<T>)
    ensures a + (b + c) + d == (a + b) + c + d == a + b + (c + d) == a + b + c + d
  {
  }

  lemma {:induction false} RunFirst(tape: Tape, key: SharedKey, s: State, step: Step, rest: seq<Step>)
    ensures Run(tape, key, s, [step] + rest) == Run(tape, key, Next(tape, key, s, step), rest)
  {
    hide Next;
    if rest == [] {
      assert [step] + rest == [step] && [step][..0] == [];
    } else {
      RunFirst(tape, key, s, step, rest[..|rest| - 1]);
      assert ([step] + rest)[..|rest|] == [step] + rest[..|rest| - 1];
    }
  }

  /** Frames that only move on all leave the line. */
  lemma {:induction false} LineEmpties(tape: Tape, key: SharedKey, s: State) returns (steps: seq<Step>)
    ensures var r := Run(tape, key, s, steps); Line(r) == [] && SameAccounts(s, r)
    ensures forall step :: step in steps ==> step in {Ship, Forward, Deliver, Receive}
    decreases |Line(s)|, 3 * |s.sender.outbound| + 2 * |s.link| + |s.hubQueue|
  {
    hide Run, Next;
    if Line(s) == [] {
      steps := [];
      RunNothing(tape, key, s);
    } else {
      var step;
      if s.down != [] {
        step := Receive;
        ReceiveMoves(tape, key, s);
      } else if s.hubQueue != [] {
        step := Deliver;
        DeliverMoves(tape, key, s);
      } else if s.link != [] {
        step := Forward;
        ForwardMoves(tape, key, s);
      } else {
        step := Ship;
        ShipMoves(tape, key, s);
      }
      var rest := LineEmpties(tape, key, Next(tape, key, s, step));
      steps := [step] + rest;
      RunFirst(tape, key, s, step, rest);
    }
  }

  lemma RunNothing(tape: Tape, key: SharedKey, s: State)
    ensures Run(tape, key, s, []) == s
  {
  }

  lemma {:induction false} RunOn(tape: Tape, key: SharedKey, s: State, a: seq<Step>, b: seq<Step>)
    ensures Run(tape, key, s, a + b) == Run(tape, key, Run(tape, key, s, a), b)
  {
    hide Next;
    if b == [] {
      assert a + b == a;
    } else {
      RunOn(tape, key, s, a, b[..|b| - 1]);
      assert (a + b)[..|a + b| - 1] == a + b[..|b| - 1];
    }
  }

  /** From wherever a run has got to, the frames on the way can all still arrive: with no
      further drop, every frame sealed in the period that no queue has dropped is accepted. */
  lemma EverythingArrives(tape: Tape, key: SharedKey, s: State, steps: seq<Step>)
    requires PeriodStart(key, s) && (forall n: nat :: tape(n).Some?)
    ensures exists more :: (forall step :: step in more ==> step in {Ship, Forward, Deliver, Receive}) &&
              var n0, base, r := s.sender.num, |s.phone.accepted|, Run(tape, key, s, steps + more);
              && Line(r) == [] && SameAccounts(Run(tape, key, s, steps), r) && base <= |r.phone.accepted|
              && r.sender.num - n0 == |Accepted(r, base, n0)| + |r.lostOut| + |Numbers(key, n0, r.lostHub)|
  {
    hide Run, Next, Accepted, PeriodStart;
    var more := LineEmpties(tape, key, Run(tape, key, s, steps));
    RunOn(tape, key, s, steps, more);
    EveryFrameAccountedFor(tape, key, s, steps + more);
    assert Numbers(key, s.sender.num, []) == [];
  }
}
