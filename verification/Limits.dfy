/** The relay's rate limiter: a fixed one-minute window per client. */
module Limits {
  import opened Common

  /** One minute, in the clock's ticks (nanoseconds). */
  const MINUTE: nat := 60_000_000_000

  datatype Decision = Decision(client: string, at: nat, granted: bool)

  /** The limiter's fields and every decision taken so far. */
  datatype State = State(window: nat, counts: map<string, nat>, log: seq<Decision>)

  function Window(at: nat): nat {
    at / MINUTE
  }

  function CountOf(counts: map<string, nat>, client: string): nat {
    if client in counts then counts[client] else 0
  }

  /** The counts that a request at this time finds. */
  function CountsAt(s: State, at: nat): map<string, nat> {
    if s.window == Window(at) then s.counts else map[]
  }

  function Allow(s: State, limit: int, client: string, at: nat): State {
    var count := CountOf(CountsAt(s, at), client) + 1;
    State(Window(at), CountsAt(s, at)[client := count], s.log + [Decision(client, at, count <= limit)])
  }

  datatype Request = Request(client: string, at: nat)

  /** The requests in the order in which they take the limiter's lock. Each has read the
      clock before, so overlapping requests need not come in the order of their times. */
  function Run(limit: int, trace: seq<Request>): State {
    if trace == [] then State(0, map[], [])
    else
      var last := trace[|trace| - 1];
      Allow(Run(limit, trace[..|trace| - 1]), limit, last.client, last.at)
  }

  predicate InOrder(trace: seq<Request>) {
    forall i, j :: 0 <= i < j < |trace| ==> trace[i].at <= trace[j].at
  }

  /** No request of another window, whoever's it is, comes between a client's requests of
      one window. */
  predicate Together(trace: seq<Request>) {
    forall i, j, k ::
      0 <= i < j < k < |trace| && trace[i].client == trace[k].client && Window(trace[i].at) == Window(trace[k].at) ==>
      Window(trace[j].at) == Window(trace[k].at)
  }

  function Requests(log: seq<Decision>): seq<Request> {
    seq(|log|, i requires 0 <= i < |log| => Request(log[i].client, log[i].at))
  }

  function Asked(trace: seq<Request>, client: string, window: nat): seq<Request> {
    Filter(trace, (r: Request) => r.client == client && Window(r.at) == window)
  }

  function Granted(log: seq<Decision>, client: string, window: nat): seq<Decision> {
    Filter(log, (d: Decision) => d.client == client && Window(d.at) == window && d.granted)
  }

  /** What was admitted from `start` on for one minute, wherever in a window that is. */
  function GrantedWithin(log: seq<Decision>, client: string, start: nat): seq<Decision> {
    Filter(log, (d: Decision) => d.client == client && start <= d.at < start + MINUTE && d.granted)
  }

  function Quota(limit: int): nat {
    if limit < 0 then 0 else limit
  }

  // Invariants of a run.

  /** The client's requests of this window since the last request of another one. */
  function Recent(trace: seq<Request>, client: string, window: nat): nat {
    if trace == [] || Window(trace[|trace| - 1].at) != window then 0
    else Recent(trace[..|trace| - 1], client, window) + if trace[|trace| - 1].client == client then 1 else 0
  }

  ghost predicate Fair(limit: int, log: seq<Decision>, client: string, window: nat) {
    |Granted(log, client, window)| == Min(Quota(limit), |Asked(Requests(log), client, window)|)
  }

  /** The counts are those since the last change of window, and every window has admitted up
      to the limit if its requests come together. */
  ghost predicate Inv(s: State, limit: int) {
    && (forall client, at :: CountOf(CountsAt(s, at), client) == Recent(Requests(s.log), client, Window(at)))
    && (Together(Requests(s.log)) ==> forall client, window :: Fair(limit, s.log, client, window))
  }

  lemma RequestsAppend(log: seq<Decision>, d: Decision)
    ensures Requests(log + [d]) == Requests(log) + [Request(d.client, d.at)]
  {
  }

  lemma RecentAppend(trace: seq<Request>, r: Request, client: string, window: nat)
    ensures Recent(trace + [r], client, window)
         == if Window(r.at) != window then 0
            else Recent(trace, client, window) + if r.client == client then 1 else 0
  {
    assert (trace + [r])[..|trace|] == trace;
  }

  lemma AskedAppend(trace: seq<Request>, r: Request, client: string, window: nat)
    ensures Asked(trace + [r], client, window)
         == if r.client == client && Window(r.at) == window then Asked(trace, client, window) + [r]
            else Asked(trace, client, window)
  {
    FilterAppend(trace, r, (x: Request) => x.client == client && Window(x.at) == window);
  }

  lemma GrantedAppend(log: seq<Decision>, d: Decision, client: string, window: nat)
    ensures Granted(log + [d], client, window)
         == if d.client == client && Window(d.at) == window && d.granted then Granted(log, client, window) + [d]
            else Granted(log, client, window)
  {
    FilterAppend(log, d, (x: Decision) => x.client == client && Window(x.at) == window && x.granted);
  }

  lemma {:induction false} NothingAsked(trace: seq<Request>, client: string, window: nat)
    requires forall r :: r in trace && r.client == client ==> Window(r.at) != window
    ensures Asked(trace, client, window) == []
  {
    if trace != [] { NothingAsked(trace[..|trace| - 1], client, window); }
  }

  /** If nothing came in between, what is counted is all that was asked. */
  lemma {:induction false} RecentIsAsked(trace: seq<Request>, client: string, window: nat)
    requires forall i, j ::
               0 <= i < j < |trace| && trace[i].client == client && Window(trace[i].at) == window ==>
               Window(trace[j].at) == window
    ensures Recent(trace, client, window) == |Asked(trace, client, window)|
  {
    if trace != [] {
      var last := trace[|trace| - 1];
      if Window(last.at) == window {
        RecentIsAsked(trace[..|trace| - 1], client, window);
      } else {
        NothingAsked(trace, client, window);
      }
    }
  }

  lemma TogetherFront(trace: seq<Request>, r: Request)
    requires Together(trace + [r])
    ensures Together(trace)
    ensures Recent(trace, r.client, Window(r.at)) == |Asked(trace, r.client, Window(r.at))|
  {
    var all := trace + [r];
    forall i, j, k | 0 <= i < j < k < |trace| && trace[i].client == trace[k].client
                     && Window(trace[i].at) == Window(trace[k].at)
      ensures Window(trace[j].at) == Window(trace[k].at)
    {
      assert all[i] == trace[i] && all[j] == trace[j] && all[k] == trace[k];
    }
    forall i, j | 0 <= i < j < |trace| && trace[i].client == r.client && Window(trace[i].at) == Window(r.at)
      ensures Window(trace[j].at) == Window(r.at)
    {
      assert all[i] == trace[i] && all[j] == trace[j] && all[|trace|] == r;
    }
    RecentIsAsked(trace, r.client, Window(r.at));
  }

  /** Every request keeps the invariant, whatever time it has read. */
  lemma AllowKeeps(s: State, limit: int, client: string, at: nat)
    requires Inv(s, limit)
    ensures Inv(Allow(s, limit, client, at), limit)
  {
    CountsKept(s, limit, client, at);
    hide Inv, Fair, CountsAt, CountOf, Recent, Together;
    AllowRequests(s, limit, client, at);
    var next := Allow(s, limit, client, at);
    if Together(Requests(next.log)) {
      forall other, window ensures Fair(limit, next.log, other, window) {
        FairKept(s, limit, client, at, other, window);
      }
    }
    InvOf(next, limit);
  }

  lemma InvOf(s: State, limit: int)
    requires forall client, at :: CountOf(CountsAt(s, at), client) == Recent(Requests(s.log), client, Window(at))
    requires Together(Requests(s.log)) ==> forall client, window :: Fair(limit, s.log, client, window)
    ensures Inv(s, limit)
  {
  }

  lemma CountsKept(s: State, limit: int, client: string, at: nat)
    requires Inv(s, limit)
    ensures var next := Allow(s, limit, client, at);
            forall other, t :: CountOf(CountsAt(next, t), other) == Recent(Requests(next.log), other, Window(t))
  {
    AllowRequests(s, limit, client, at);
    hide Requests, Window, Recent, Together, Fair;
    var next, trace, r := Allow(s, limit, client, at), Requests(s.log), Request(client, at);
    forall other, t ensures CountOf(CountsAt(next, t), other) == Recent(Requests(next.log), other, Window(t)) {
      RecentAppend(trace, r, other, Window(t));
      assert CountOf(CountsAt(s, at), other) == Recent(trace, other, Window(at));
    }
  }

  lemma FairKept(s: State, limit: int, client: string, at: nat, other: string, window: nat)
    requires Inv(s, limit) && Together(Requests(s.log) + [Request(client, at)])
    ensures Fair(limit, Allow(s, limit, client, at).log, other, window)
  {
    AllowRequests(s, limit, client, at);
    var d, trace, r := Allow(s, limit, client, at).log[|s.log|], Requests(s.log), Request(client, at);
    hide Requests, Window, Recent, Together, Granted, Asked;
    TogetherFront(trace, r);
    AskedAppend(trace, r, other, window);
    GrantedAppend(s.log, d, other, window);
    assert Fair(limit, s.log, other, window);
    assert CountOf(CountsAt(s, at), client) == Recent(trace, client, Window(at));
  }

  lemma AllowRequests(s: State, limit: int, client: string, at: nat)
    ensures Requests(Allow(s, limit, client, at).log) == Requests(s.log) + [Request(client, at)]
  {
    var log := Allow(s, limit, client, at).log;
    hide Requests;
    RequestsAppend(s.log, log[|s.log|]);
  }

  lemma {:induction false} RunKeeps(limit: int, trace: seq<Request>)
    ensures Inv(Run(limit, trace), limit)
    ensures Requests(Run(limit, trace).log) == trace
  {
    if trace != [] {
      hide Inv, Requests, Allow;
      var front, last := trace[..|trace| - 1], trace[|trace| - 1];
      RunKeeps(limit, front);
      AllowKeeps(Run(limit, front), limit, last.client, last.at);
      AllowRequests(Run(limit, front), limit, last.client, last.at);
      assert front + [Request(last.client, last.at)] == trace;
    }
  }

  lemma WindowMonotone(a: nat, b: nat)
    requires a <= b
    ensures Window(a) <= Window(b) && (b < a + MINUTE ==> Window(b) <= Window(a) + 1)
  {
  }

  lemma InOrderTogether(trace: seq<Request>)
    requires InOrder(trace)
    ensures Together(trace)
  {
    forall i, j, k | 0 <= i < j < k < |trace| && Window(trace[i].at) == Window(trace[k].at)
      ensures Window(trace[j].at) == Window(trace[k].at)
    {
      WindowMonotone(trace[i].at, trace[j].at);
      WindowMonotone(trace[j].at, trace[k].at);
    }
  }

  /** A window admits the lesser of the limit and what the client asked in it. */
  ghost predicate Exact(limit: int, trace: seq<Request>, client: string, window: nat) {
    |Granted(Run(limit, trace).log, client, window)| == Min(Quota(limit), |Asked(trace, client, window)|)
  }

  lemma Admits(limit: int, trace: seq<Request>, client: string, window: nat)
    requires Together(trace)
    ensures Exact(limit, trace, client, window)
  {
    RunKeeps(limit, trace);
    assert Fair(limit, Run(limit, trace).log, client, window);
  }

  /** A request whose client has nothing counted is granted by every positive limit. */
  lemma FirstIsGranted(limit: int, trace: seq<Request>)
    requires limit > 0 && trace != []
    requires var last := trace[|trace| - 1];
             Recent(trace[..|trace| - 1], last.client, Window(last.at)) == 0
    ensures var last := trace[|trace| - 1];
            |Granted(Run(limit, trace).log, last.client, Window(last.at))|
            == |Granted(Run(limit, trace[..|trace| - 1]).log, last.client, Window(last.at))| + 1
  {
    var front, last := trace[..|trace| - 1], trace[|trace| - 1];
    RunKeeps(limit, front);
    hide Requests, Granted, Recent;
    assert CountOf(CountsAt(Run(limit, front), last.at), last.client) == Recent(front, last.client, Window(last.at));
    GrantedAppend(Run(limit, front).log, Decision(last.client, last.at, true), last.client, Window(last.at));
  }

  lemma GrantedGrows(limit: int, trace: seq<Request>, client: string, window: nat)
    requires trace != []
    ensures |Granted(Run(limit, trace[..|trace| - 1]).log, client, window)|
         <= |Granted(Run(limit, trace).log, client, window)|
  {
    var front, log := trace[..|trace| - 1], Run(limit, trace).log;
    GrantedAppend(Run(limit, front).log, log[|log| - 1], client, window);
  }

  /** Nothing is counted of a window after a request of another one. */
  lemma {:induction false} NothingRecent(trace: seq<Request>, j: nat, client: string, window: nat)
    requires j <= |trace| && (j > 0 ==> Window(trace[j - 1].at) != window)
    requires forall m :: j <= m < |trace| && trace[m].client == client ==> Window(trace[m].at) != window
    ensures Recent(trace, client, window) == 0
  {
    if |trace| > j { NothingRecent(trace[..|trace| - 1], j, client, window); }
  }

  lemma {:induction false} OneGranted(limit: int, trace: seq<Request>, i: nat)
    requires limit > 0 && i < |trace|
    ensures |Granted(Run(limit, trace).log, trace[i].client, Window(trace[i].at))| >= 1
  {
    hide Run, Granted, Window, Recent;
    var front, client, window := trace[..|trace| - 1], trace[i].client, Window(trace[i].at);
    GrantedGrows(limit, trace, client, window);
    if i < |front| {
      OneGranted(limit, front, i);
    } else if m :| 0 <= m < |front| && front[m].client == client && Window(front[m].at) == window {
      OneGranted(limit, front, m);
    } else {
      NothingRecent(front, 0, client, window);
      FirstIsGranted(limit, trace);
    }
  }

  /** A request of another window in between clears the count, so a limit of one grants a
      client two requests of one window. */
  lemma {:induction false} TwoGranted(trace: seq<Request>, i: nat, j: nat, k: nat)
    requires i < j < k < |trace| && trace[i].client == trace[k].client
    requires Window(trace[i].at) == Window(trace[k].at) != Window(trace[j].at)
    ensures |Granted(Run(1, trace).log, trace[i].client, Window(trace[i].at))| >= 2
  {
    hide Run, Granted, Window, Recent;
    var front, client, window := trace[..|trace| - 1], trace[i].client, Window(trace[i].at);
    GrantedGrows(1, trace, client, window);
    if k < |front| {
      TwoGranted(front, i, j, k);
    } else if m :| j < m < |front| && front[m].client == client && Window(front[m].at) == window {
      TwoGranted(front, i, j, m);
    } else {
      OneGranted(1, front, i);
      NothingRecent(front, j + 1, client, window);
      FirstIsGranted(1, trace);
    }
  }

  /** For every limit, client and window exactly the lesser of the limit and what the client
      asked is admitted, if and only if a client's requests of a window take the lock with
      none of another window in between. */
  lemma WindowExactly(trace: seq<Request>)
    ensures (forall limit, client, window :: Exact(limit, trace, client, window)) <==> Together(trace)
  {
    if Together(trace) {
      forall limit, client, window ensures Exact(limit, trace, client, window) {
        Admits(limit, trace, client, window);
      }
    } else {
      var i, j, k :| 0 <= i < j < k < |trace| && trace[i].client == trace[k].client
                     && Window(trace[i].at) == Window(trace[k].at) != Window(trace[j].at);
      hide Window, Run, Granted, Asked, Together;
      TwoGranted(trace, i, j, k);
      assert !Exact(1, trace, trace[i].client, Window(trace[i].at));
    }
  }

  /** Four requests of one client that read the clock on both sides of a window's end and
      take the lock in this order are all granted under a limit of one. */
  lemma LateLocksClear(client: string, edge: nat)
    requires edge > 0 && edge % MINUTE == 0
    ensures var early, late := Request(client, edge - 1), Request(client, edge);
            var log := Run(1, [early, late, early, late]).log;
            && |Granted(log, client, Window(edge - 1))| == 2 && |Granted(log, client, Window(edge))| == 2
            && |GrantedWithin(log, client, edge - 1)| == 4
  {
    WindowEdge(edge);
    hide Window, Granted, Asked, Run;
    var first, second := Decision(client, edge - 1, true), Decision(client, edge, true);
    FourLocks(Request(client, edge - 1), Request(client, edge));
    FourGranted(first, second);
    FilterAll([first, second, first, second],
              (d: Decision) => d.client == client && edge - 1 <= d.at < edge - 1 + MINUTE && d.granted);
  }

  lemma FourLocks(early: Request, late: Request)
    requires Window(early.at) != Window(late.at)
    ensures var first, second := Decision(early.client, early.at, true), Decision(late.client, late.at, true);
            Run(1, [early, late, early, late]).log == [first, second, first, second]
  {
    Clears(1, [], early);
    NothingYet(1, early.client, 0);
    hide Window, Run;
    Clears(1, [early], late);
    Clears(1, [early, late], early);
    Clears(1, [early, late, early], late);
    assert [] + [early] == [early] && [early] + [late] == [early, late];
    assert [early, late] + [early] == [early, late, early];
    assert [early, late, early] + [late] == [early, late, early, late];
  }

  /** A first request, or one of another window than the last, is granted. */
  lemma Clears(limit: int, trace: seq<Request>, r: Request)
    requires limit > 0 && (trace == [] || Window(trace[|trace| - 1].at) != Window(r.at))
    ensures Run(limit, trace + [r]).log == Run(limit, trace).log + [Decision(r.client, r.at, true)]
  {
    OneMore(limit, trace, r.client, r.at);
  }

  lemma FourGranted(first: Decision, second: Decision)
    requires first.granted && second.granted && first.client == second.client && Window(first.at) != Window(second.at)
    ensures var log := [first, second, first, second];
            |Granted(log, first.client, Window(first.at))| == 2 && |Granted(log, first.client, Window(second.at))| == 2
  {
    var client := first.client;
    forall w ensures |Granted([first, second, first, second], client, w)|
                     == (if Window(first.at) == w then 2 else 0) + (if Window(second.at) == w then 2 else 0)
    {
      assert Granted([], client, w) == [];
      hide Window, Granted;
      assert [] + [first] == [first] && [first] + [second] == [first, second];
      assert [first, second] + [first] == [first, second, first];
      GrantedAppend([], first, client, w);
      GrantedAppend([first], second, client, w);
      GrantedAppend([first, second], first, client, w);
      GrantedAppend([first, second, first], second, client, w);
      assert [first, second, first] + [second] == [first, second, first, second];
    }
  }

  lemma {:induction false} FilterSplits<T>(s: seq<T>, p: T -> bool, q: T -> bool, r: T -> bool)
    requires forall x :: x in s && p(x) ==> q(x) || r(x)
    ensures |Filter(s, p)| <= |Filter(s, q)| + |Filter(s, r)|
  {
    if s != [] {
      assert s[|s| - 1] in s;
      FilterSplits(s[..|s| - 1], p, q, r);
    }
  }

  /** Hence any minute of the clock, across windows, admits at most twice the limit. */
  lemma AnyMinute(limit: int, trace: seq<Request>, client: string, start: nat)
    requires Together(trace)
    ensures |GrantedWithin(Run(limit, trace).log, client, start)| <= 2 * Quota(limit)
  {
    var log := Run(limit, trace).log;
    var first := Window(start);
    Admits(limit, trace, client, first);
    Admits(limit, trace, client, first + 1);
    forall d: Decision | start <= d.at < start + MINUTE ensures Window(d.at) in {first, first + 1} {
      WindowMonotone(start, d.at);
    }
    FilterSplits(log,
      (d: Decision) => d.client == client && start <= d.at < start + MINUTE && d.granted,
      (d: Decision) => d.client == client && Window(d.at) == first && d.granted,
      (d: Decision) => d.client == client && Window(d.at) == first + 1 && d.granted);
  }

  // The bound is met wherever a window ends inside the minute: a burst just before its end
  // and another just after.

  function Burst(client: string, at: nat, n: nat): seq<Request> {
    seq(n, i => Request(client, at))
  }

  function Grants(client: string, at: nat, n: nat): seq<Decision> {
    seq(n, i => Decision(client, at, true))
  }

  lemma AllowOnce(s: State, limit: nat, client: string, at: nat)
    requires CountOf(CountsAt(s, at), client) < limit
    ensures var next := Allow(s, limit, client, at);
            && CountOf(CountsAt(next, at), client) == CountOf(CountsAt(s, at), client) + 1
            && next.log == s.log + [Decision(client, at, true)] && next.window == Window(at)
  {
  }

  lemma {:induction false} Admitted(limit: nat, before: seq<Request>, client: string, at: nat, n: nat)
    requires n <= limit && CountOf(CountsAt(Run(limit, before), at), client) == 0
    ensures var s := Run(limit, before + Burst(client, at, n));
            && CountOf(CountsAt(s, at), client) == n
            && s.log == Run(limit, before).log + Grants(client, at, n)
            && (n > 0 ==> s.window == Window(at))
  {
    hide Run, CountsAt, CountOf, Allow;
    if n == 0 {
      assert before + Burst(client, at, 0) == before;
    } else {
      Admitted(limit, before, client, at, n - 1);
      var earlier := before + Burst(client, at, n - 1);
      OneMore(limit, earlier, client, at);
      AllowOnce(Run(limit, earlier), limit, client, at);
      assert before + Burst(client, at, n) == earlier + [Request(client, at)];
      assert Grants(client, at, n) == Grants(client, at, n - 1) + [Decision(client, at, true)];
    }
  }

  lemma OneMore(limit: int, trace: seq<Request>, client: string, at: nat)
    ensures Run(limit, trace + [Request(client, at)]) == Allow(Run(limit, trace), limit, client, at)
  {
    assert (trace + [Request(client, at)])[..|trace|] == trace;
  }

  lemma BurstsInOrder(client: string, edge: nat, n: nat)
    requires edge > 0
    ensures InOrder(Burst(client, edge - 1, n) + Burst(client, edge, n))
  {
  }

  lemma BurstsLog(limit: nat, client: string, edge: nat)
    requires edge > 0 && edge % MINUTE == 0
    ensures Run(limit, Burst(client, edge - 1, limit) + Burst(client, edge, limit)).log
         == Grants(client, edge - 1, limit) + Grants(client, edge, limit)
  {
    hide Run, Grants, CountOf, CountsAt, Burst;
    var first := Burst(client, edge - 1, limit);
    FirstBurstLog(limit, client, edge - 1);
    LaterWindow(limit, client, edge);
    Admitted(limit, first, client, edge, limit);
  }

  lemma FirstBurstLog(limit: nat, client: string, at: nat)
    ensures Run(limit, Burst(client, at, limit)).log == Grants(client, at, limit)
    ensures limit > 0 ==> Run(limit, Burst(client, at, limit)).window == Window(at)
  {
    NothingYet(limit, client, at);
    hide Run, Grants, CountOf, CountsAt, Burst;
    Admitted(limit, [], client, at, limit);
    assert [] + Burst(client, at, limit) == Burst(client, at, limit);
  }

  /** From any start that is not a window's own, a client can get twice the limit within a
      minute. */
  lemma TwiceIsReached(limit: nat, client: string, start: nat)
    requires start % MINUTE != 0
    ensures var edge := (start / MINUTE + 1) * MINUTE;
            var trace := Burst(client, edge - 1, limit) + Burst(client, edge, limit);
            InOrder(trace) && |GrantedWithin(Run(limit, trace).log, client, start)| == 2 * limit
  {
    hide Run, GrantedWithin, Grants, Burst, InOrder;
    NextEdge(start);
    var edge := (start / MINUTE + 1) * MINUTE;
    BurstsInOrder(client, edge, limit);
    BurstsLog(limit, client, edge);
    var trace := Burst(client, edge - 1, limit) + Burst(client, edge, limit);
    BurstsGranted(Run(limit, trace).log, client, start, edge, limit);
  }

  lemma NextEdge(start: nat)
    ensures var edge := (start / MINUTE + 1) * MINUTE;
            edge > 0 && edge % MINUTE == 0 && start < edge <= start + MINUTE
            && (start % MINUTE != 0 ==> edge < start + MINUTE)
  {
    assert start == start / MINUTE * MINUTE + start % MINUTE;
  }

  lemma WindowEdge(edge: nat)
    requires edge > 0 && edge % MINUTE == 0
    ensures Window(edge - 1) < Window(edge)
  {
  }

  lemma NothingYet(limit: int, client: string, at: nat)
    ensures CountOf(CountsAt(Run(limit, []), at), client) == 0 && Run(limit, []).log == []
  {
  }

  lemma LaterWindow(limit: nat, client: string, edge: nat)
    requires edge > 0 && edge % MINUTE == 0
    ensures CountOf(CountsAt(Run(limit, Burst(client, edge - 1, limit)), edge), client) == 0
  {
    var first := Burst(client, edge - 1, limit);
    WindowEdge(edge);
    hide Window;
    FirstBurstLog(limit, client, edge - 1);
    if limit == 0 {
      assert first == [];
    } else {
      assert Run(limit, first).window == Window(edge - 1);
    }
  }

  lemma BurstsGranted(log: seq<Decision>, client: string, start: nat, edge: nat, n: nat)
    requires start < edge < start + MINUTE
    requires log == Grants(client, edge - 1, n) + Grants(client, edge, n)
    ensures |GrantedWithin(log, client, start)| == 2 * n
  {
    FilterAll(log, (d: Decision) => d.client == client && start <= d.at < start + MINUTE && d.granted);
  }

  /** From a window's own start, a minute is that window. */
  lemma AlignedMinute(limit: int, trace: seq<Request>, client: string, start: nat)
    requires Together(trace) && start % MINUTE == 0
    ensures |GrantedWithin(Run(limit, trace).log, client, start)| <= Quota(limit)
  {
    var log := Run(limit, trace).log;
    var window := Window(start);
    Admits(limit, trace, client, window);
    forall d: Decision | start <= d.at < start + MINUTE ensures Window(d.at) == window {
      AlignedWindow(start, d.at);
    }
    FilterSplits(log,
      (d: Decision) => d.client == client && start <= d.at < start + MINUTE && d.granted,
      (d: Decision) => d.client == client && Window(d.at) == window && d.granted,
      (d: Decision) => false);
    FilterNothing(log);
  }

  lemma {:induction false} FilterNothing(log: seq<Decision>)
    ensures Filter(log, (d: Decision) => false) == []
  {
    if log != [] { FilterNothing(log[..|log| - 1]); }
  }

  lemma AlignedWindow(start: nat, at: nat)
    requires start % MINUTE == 0 && start <= at < start + MINUTE
    ensures Window(at) == Window(start)
  {
  }

  /** The limit holds of every client and every trace in the minute from `start` exactly
      when that is a window's start, or nothing is admitted at all. */
  lemma PlainLimitExactly(limit: int, start: nat)
    ensures (forall trace, client :: InOrder(trace) ==>
               |GrantedWithin(Run(limit, trace).log, client, start)| <= Quota(limit))
            <==> start % MINUTE == 0 || limit <= 0
  {
    hide Run, GrantedWithin, InOrder, Together, Burst;
    if start % MINUTE == 0 || limit <= 0 {
      forall trace, client | InOrder(trace)
        ensures |GrantedWithin(Run(limit, trace).log, client, start)| <= Quota(limit)
      {
        InOrderTogether(trace);
        if limit <= 0 { AnyMinute(limit, trace, client, start); } else { AlignedMinute(limit, trace, client, start); }
      }
    } else {
      TwiceIsReached(limit, "a", start);
    }
  }
}
