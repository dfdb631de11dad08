/** Where the hypotheses of module Numbering come from: what happens without them, and
    exactly when it does. */
module NumberingLimits {
  import opened Common
  import opened E2ee
  import opened Phone
  import opened Numbering
  import Base64

  // Running sendCommand without interruption.

  /** A whole sendCommand while `at` other calls are in flight. */
  function SendCommand(at: nat, typ: string, data: string, nonce: Nonce): seq<Step> {
    [Seal(typ, data, Some(nonce)), Save(at, true), Send(at)]
  }

  ghost predicate CanSend(s: State)
    requires Sound(s)
  {
    s.current.Some? && s.pairing.Some? && CanSeal(s.objects[s.current.value])
  }

  lemma SendCommandEffect(derive: Derive, s: State, typ: string, data: string, nonce: Nonce)
    requires Sound(s) && CanSend(s)
    ensures var k, sid := s.current.value, s.pairing.value.sid;
            var n := s.objects[k].num + 1;
            var box := Sealing(s.objects[k].shared.value, nonce, PlainMessage(typ, sid, n, data));
            Run(derive, s, SendCommand(|s.tasks|, typ, data, nonce)) ==
            s.(objects := s.objects[k := s.objects[k].(num := n)],
               storage := SaveSequence(s.storage, sid, n),
               made := s.made + [box],
               wire := if s.online then s.wire + [box] else s.wire,
               stamps := if s.online then s.stamps + [|s.made|] else s.stamps)
  {
    RunCommand(derive, s, typ, data, nonce);
    hide Run, SaveSequence, Next;
    SealStep(derive, s, typ, data, nonce);
    var sealed := Next(derive, s, Seal(typ, data, Some(nonce)));
    SaveAndSend(derive, sealed, |s.tasks|);
    assert Without(sealed.tasks, |s.tasks|) == s.tasks;
  }

  lemma RunCommand(derive: Derive, s: State, typ: string, data: string, nonce: Nonce)
    requires Sound(s)
    ensures var at := |s.tasks|;
            var sealed := Next(derive, s, Seal(typ, data, Some(nonce)));
            && Sound(sealed) && Sound(Next(derive, sealed, Save(at, true)))
            && Run(derive, s, SendCommand(at, typ, data, nonce))
               == Next(derive, Next(derive, sealed, Save(at, true)), Send(at))
  {
    hide Next, Run;
    RunThree(derive, s, Seal(typ, data, Some(nonce)), Save(|s.tasks|, true), Send(|s.tasks|));
  }

  lemma SealStep(derive: Derive, s: State, typ: string, data: string, nonce: Nonce)
    requires Sound(s) && CanSend(s)
    ensures var k, sid := s.current.value, s.pairing.value.sid;
            var n := s.objects[k].num + 1;
            var box := Sealing(s.objects[k].shared.value, nonce, PlainMessage(typ, sid, n, data));
            Next(derive, s, Seal(typ, data, Some(nonce))) ==
            s.(objects := s.objects[k := s.objects[k].(num := n)],
               tasks := s.tasks + [Sealed(k, sid, box, |s.made|)], made := s.made + [box])
  {
  }

  lemma SaveAndSend(derive: Derive, s: State, i: nat)
    requires Sound(s) && i < |s.tasks| && s.tasks[i].Sealed?
    ensures Sound(Next(derive, s, Save(i, true)))
    ensures var t := s.tasks[i];
            Next(derive, Next(derive, s, Save(i, true)), Send(i)) ==
            s.(storage := SaveSequence(s.storage, t.sid, s.objects[t.crypto].num), tasks := Without(s.tasks, i),
               wire := if s.online then s.wire + [t.box] else s.wire,
               stamps := if s.online then s.stamps + [t.stamp] else s.stamps)
  {
    hide SaveSequence;
    var saved := Next(derive, s, Save(i, true));
    NextSound(derive, s, Save(i, true));
    assert Without(saved.tasks, i) == Without(s.tasks, i);
  }

  lemma {:induction false} CarefulConcat(derive: Derive, s: State, a: seq<Step>, b: seq<Step>)
    requires Sound(s) && CarefulRun(derive, s, a) && CarefulRun(derive, Run(derive, s, a), b)
    ensures CarefulRun(derive, s, a + b)
  {
    hide Careful, Run;
    forall i | 0 <= i < |a + b| ensures Careful(Run(derive, s, (a + b)[..i]), (a + b)[i]) {
      if i < |a| {
        assert (a + b)[..i] == a[..i];
      } else {
        assert (a + b)[..i] == a + b[..i - |a|];
        RunConcat(derive, s, a, b[..i - |a|]);
      }
    }
  }

  lemma CarefulOne(derive: Derive, s: State, step: Step)
    requires Sound(s) && Careful(s, step)
    ensures CarefulRun(derive, s, [step])
    ensures Run(derive, s, [step]) == Next(derive, s, step)
  {
    hide Careful, Next;
    RunNone(derive, s);
    RunMore(derive, s, [], step);
    assert [] + [step] == [step];
    assert [step][..0] == [];
  }

  // Sending many commands in a row.

  function Commands(at: nat, nonce: Nonce, n: nat): seq<Step> {
    if n == 0 then [] else Commands(at, nonce, n - 1) + SendCommand(at, "ping", "", nonce)
  }

  /** The phone is connected and can send to this session. */
  ghost predicate Connected(s: State, sid: string)
    requires Sound(s)
  {
    CanSend(s) && s.online && s.pairing.value.sid == sid && Coherent(s)
  }

  /** What `n` commands leave: the counter moved on and was stored, and the wire got exactly
      the next `n` numbers. */
  ghost predicate SentMore(s: State, r: State, sid: string, n: nat)
    requires Sound(s) && Sound(r) && Connected(s, sid)
  {
    var k := s.current.value;
    && Connected(r, sid) && r.current == s.current && r.pairing == s.pairing && r.tasks == s.tasks
    && |r.objects| == |s.objects| && r.objects[k].num == s.objects[k].num + n
    && (forall i :: 0 <= i < |s.objects| && i != k ==> r.objects[i] == s.objects[i])
    && (forall other :: other != sid ==> LoadSequence(r.storage, other) == LoadSequence(s.storage, other))
    && (LoadSequence(r.storage, sid) == if n == 0 then LoadSequence(s.storage, sid) else s.objects[k].num + n)
    && (forall random ::
          LoadOrCreateSeed(s.storage, random, true).Some? ==> LoadOrCreateSeed(r.storage, random, true).Some?)
    && s.wire <= r.wire && |r.wire| == |s.wire| + n
    && forall j :: |s.wire| <= j < |r.wire| ==>
         r.wire[j].msg.sid == sid && r.wire[j].msg.num == s.objects[k].num + 1 + (j - |s.wire|)
  }

  lemma CommandSendsOne(derive: Derive, s: State, sid: string, nonce: Nonce)
    requires Sound(s) && Connected(s, sid)
    ensures SentMore(s, Run(derive, s, SendCommand(|s.tasks|, "ping", "", nonce)), sid, 1)
  {
    hide LoadSequence, SaveSequence, LoadOrCreateSeed, Run;
    SendCommandEffect(derive, s, "ping", "", nonce);
    var n := s.objects[s.current.value].num + 1;
    forall other ensures LoadSequence(SaveSequence(s.storage, sid, n), other)
                         == if other == sid then n else LoadSequence(s.storage, other) {
      SavedThenLoaded(s.storage, sid, n, other);
    }
    forall random ensures LoadOrCreateSeed(s.storage, random, true).Some?
                          <==> LoadOrCreateSeed(SaveSequence(s.storage, sid, n), random, true).Some? {
      SaveLeavesSeed(s.storage, sid, n, random);
    }
  }

  lemma SentMoreConcat(s: State, t: State, r: State, sid: string, m: nat)
    requires Sound(s) && Sound(t) && Sound(r) && Connected(s, sid) && Connected(t, sid)
    requires SentMore(s, t, sid, m) && SentMore(t, r, sid, 1)
    ensures SentMore(s, r, sid, m + 1)
  {
    hide LoadSequence, LoadOrCreateSeed;
    forall j | |s.wire| <= j < |r.wire|
      ensures r.wire[j].msg.sid == sid && r.wire[j].msg.num == s.objects[s.current.value].num + 1 + (j - |s.wire|)
    {
      if j < |t.wire| { assert r.wire[j] == t.wire[j]; }
    }
  }

  lemma CommandCareful(derive: Derive, s: State, typ: string, data: string, nonce: Nonce)
    requires Sound(s) && Coherent(s)
    ensures CarefulRun(derive, s, SendCommand(|s.tasks|, typ, data, nonce))
  {
    hide Next, Run;
    var steps := SendCommand(|s.tasks|, typ, data, nonce);
    RunNone(derive, s);
    assert steps[..0] == [];
  }

  lemma {:induction false} CommandsSend(derive: Derive, s: State, sid: string, nonce: Nonce, n: nat)
    requires Sound(s) && Connected(s, sid)
    ensures SentMore(s, Run(derive, s, Commands(|s.tasks|, nonce, n)), sid, n)
    ensures CarefulRun(derive, s, Commands(|s.tasks|, nonce, n))
  {
    hide SentMore, Run, CarefulRun, SendCommand;
    var at := |s.tasks|;
    if n == 0 {
      RunNone(derive, s);
      NoneSent(s, sid);
      assert CarefulRun(derive, s, []) by { NoSteps(derive, s); }
    } else {
      CommandsSend(derive, s, sid, nonce, n - 1);
      var t := Run(derive, s, Commands(at, nonce, n - 1));
      assert Connected(t, sid) && |t.tasks| == at by { StillConnected(s, t, sid, n - 1); }
      CommandSendsOne(derive, t, sid, nonce);
      RunConcat(derive, s, Commands(at, nonce, n - 1), SendCommand(at, "ping", "", nonce));
      CommandCareful(derive, t, "ping", "", nonce);
      CarefulConcat(derive, s, Commands(at, nonce, n - 1), SendCommand(at, "ping", "", nonce));
      SentMoreConcat(s, t, Run(derive, t, SendCommand(at, "ping", "", nonce)), sid, n - 1);
    }
  }

  lemma NoSteps(derive: Derive, s: State)
    requires Sound(s)
    ensures CarefulRun(derive, s, [])
  {
  }

  lemma NoneSent(s: State, sid: string)
    requires Sound(s) && Connected(s, sid)
    ensures SentMore(s, s, sid, 0)
  {
  }

  lemma StillConnected(s: State, r: State, sid: string, n: nat)
    requires Sound(s) && Sound(r) && Connected(s, sid) && SentMore(s, r, sid, n)
    ensures Connected(r, sid) && r.tasks == s.tasks
  {
  }

  ghost predicate CanReach(s: State, to: Pairing, random: Seed) {
    && LoadOrCreateSeed(s.storage, random, true).Some?
    && Base64.UrlNoPadDecode(to.publicKey).Some? && |Base64.UrlNoPadDecode(to.publicKey).value| == 32
  }

  /** A connect to a session not currently held, when nothing fails. */
  lemma ConnectEffect(derive: Derive, s: State, to: Pairing, random: Seed)
    requires Sound(s) && !CanResume(s, to) && CanReach(s, to, random)
    ensures var back := Next(derive, s, Connect(to, random, true, true, true));
            && Connected(back, to.sid) && back.tasks == s.tasks && back.pairing == Some(to) && back.wire == s.wire
            && back.current == Some(|s.objects|) && |back.objects| == |s.objects| + 1
            && back.objects[|s.objects|].num == LoadSequence(s.storage, to.sid)
            && (forall i :: 0 <= i < |s.objects| ==>
                  back.objects[i].num == s.objects[i].num && back.objects[i].sid == s.objects[i].sid)
            && back.storage == LoadOrCreateSeed(s.storage, random, true).value.0
            && (forall other :: LoadSequence(back.storage, other) == LoadSequence(s.storage, other))
            && LoadOrCreateSeed(back.storage, random, true).Some?
  {
    hide LoadOrCreateSeed, LoadSequence, Base64.UrlNoPadDecode;
    var seeded := LoadOrCreateSeed(s.storage, random, true).value.0;
    forall other ensures LoadSequence(seeded, other) == LoadSequence(s.storage, other) {
      SeedLeavesCounters(s.storage, random, true, other);
    }
    SeedStays(s.storage, random);
  }

  lemma ReconnectEffect(derive: Derive, s: State, to: Pairing, random: Seed)
    requires Sound(s) && CanReach(s, to, random)
    ensures var back := Run(derive, s, [Crash, Connect(to, random, true, true, true)]);
            && Connected(back, to.sid) && back.tasks == [] && back.pairing == Some(to) && back.wire == s.wire
            && back.objects[back.current.value].num == LoadSequence(s.storage, to.sid)
            && (forall other :: LoadSequence(back.storage, other) == LoadSequence(s.storage, other))
            && CanReach(back, to, random)
    ensures CarefulRun(derive, s, [Crash, Connect(to, random, true, true, true)])
  {
    hide CanReach, LoadSequence;
    var crashed := Next(derive, s, Crash);
    CarefulOne(derive, s, Crash);
    assert CanReach(crashed, to, random) by { SameStorageReach(s, crashed, to, random); }
    var connect := Connect(to, random, true, true, true);
    assert Careful(crashed, connect);
    CarefulOne(derive, crashed, connect);
    RunConcat(derive, s, [Crash], [connect]);
    CarefulConcat(derive, s, [Crash], [connect]);
    assert [Crash] + [connect] == [Crash, connect];
    hide Next;
    ConnectEffect(derive, crashed, to, random);
    ReachAgain(Next(derive, crashed, connect), crashed, to, random);
  }

  lemma ReachAgain(s: State, before: State, to: Pairing, random: Seed)
    requires CanReach(before, to, random) && LoadOrCreateSeed(s.storage, random, true).Some?
    ensures CanReach(s, to, random)
  {
  }

  lemma SameStorageReach(s: State, t: State, to: Pairing, random: Seed)
    requires CanReach(s, to, random) && t.storage == s.storage
    ensures CanReach(t, to, random)
  {
  }

  /** Restart, reconnect to `to` and send `n` commands. */
  function RestartAndSend(to: Pairing, random: Seed, nonce: Nonce, n: nat): seq<Step> {
    [Crash, Connect(to, random, true, true, true)] + Commands(0, nonce, n)
  }

  /** Restarting and sending far enough repeats any number above the stored counter. */
  lemma RestartRepeats(derive: Derive, s: State, to: Pairing, random: Seed, nonce: Nonce, i: nat)
    requires Sound(s) && CanReach(s, to, random) && i < |s.wire| && s.wire[i].msg.sid == to.sid
    requires s.wire[i].msg.num > LoadSequence(s.storage, to.sid)
    ensures var steps := RestartAndSend(to, random, nonce, s.wire[i].msg.num - LoadSequence(s.storage, to.sid));
            CarefulRun(derive, s, steps) && !WireDistinct(Run(derive, s, steps).wire)
  {
    hide LoadSequence, CanReach, Run, CarefulRun, Commands;
    var start := [Crash, Connect(to, random, true, true, true)];
    var n := s.wire[i].msg.num - LoadSequence(s.storage, to.sid);
    ReconnectEffect(derive, s, to, random);
    var back := Run(derive, s, start);
    CommandsSend(derive, back, to.sid, nonce, n);
    RunConcat(derive, s, start, Commands(0, nonce, n));
    CarefulConcat(derive, s, start, Commands(0, nonce, n));
    var r := Run(derive, back, Commands(0, nonce, n));
    assert r.wire[i] == s.wire[i];
    assert r.wire[|s.wire| + (n - 1)].msg.num == s.wire[i].msg.num;
    RepeatedNumber(r.wire, i, |s.wire| + (n - 1));
  }

  // A connect to another session that fails before loading that session's counter leaves
  // the old object paired with the new session id. What a sendCommand does then:

  lemma StaleSendKeeps(derive: Derive, s: State, typ: string, data: string, nonce: Nonce)
    requires NumberingInv(s) && CanSend(s) && !Coherent(s)
    requires Covers(s, s.pairing.value.sid, s.objects[s.current.value].num + 1)
    ensures NumberingInv(Run(derive, s, SendCommand(|s.tasks|, typ, data, nonce)))
  {
    hide LoadSequence, SaveSequence, Run;
    SendCommandEffect(derive, s, typ, data, nonce);
    var sid, n := s.pairing.value.sid, s.objects[s.current.value].num + 1;
    var r := Run(derive, s, SendCommand(|s.tasks|, typ, data, nonce));
    forall other ensures LoadSequence(r.storage, other) == if other == sid then n else LoadSequence(s.storage, other) {
      SavedThenLoaded(s.storage, sid, n, other);
    }
    StaleSendStored(s, r, sid, n);
    forall a: nat | Alive(r, a) ensures Alive(s, a) && a < |s.made| {
      AliveInMade(s, a);
    }
  }

  lemma StaleSendStored(s: State, r: State, sid: string, n: nat)
    requires Sound(s) && Stored(s) && s.current.Some? && s.objects[s.current.value].sid != sid
    requires Covers(s, sid, n) && n == s.objects[s.current.value].num + 1
    requires Sound(r) && r.tasks == s.tasks && r.wire == s.wire && r.current == s.current
    requires r.objects == s.objects[s.current.value := s.objects[s.current.value].(num := n)]
    requires forall other ::
               LoadSequence(r.storage, other) == if other == sid then n else LoadSequence(s.storage, other)
    ensures Stored(r)
  {
    hide LoadSequence;
    forall t | t in r.tasks ensures TaskStored(r, t) {
      assert TaskStored(s, t);
    }
  }

  /** A session no call in flight belongs to. */
  function NewSession(tasks: seq<Task>, sid: string): (z: string)
    ensures |z| > |sid|
  {
    if tasks == [] then sid + "+"
    else
      var z := NewSession(tasks[..|tasks| - 1], sid);
      if |tasks[|tasks| - 1].sid| >= |z| then tasks[|tasks| - 1].sid + "+" else z
  }

  lemma {:induction false} NewSessionIsNew(tasks: seq<Task>, sid: string)
    ensures forall t :: t in tasks ==> |t.sid| < |NewSession(tasks, sid)|
  {
    if tasks != [] { NewSessionIsNew(tasks[..|tasks| - 1], sid); }
  }

  /** A saved call can always still be sent: over a connection to some other session. */
  lemma SavedReachesWire(derive: Derive, s: State, to: Pairing, random: Seed, at: nat)
    requires Sound(s) && s.pairing.Some? && s.pairing.value.sid == to.sid && CanReach(s, to, random)
    requires at < |s.tasks| && s.tasks[at].Saved?
    ensures var other := Pairing(NewSession(s.tasks, to.sid), to.publicKey);
            var steps := [Connect(other, random, true, true, true), Send(at)];
            var r := Run(derive, s, steps);
            && CarefulRun(derive, s, steps) && r.wire == s.wire + [s.tasks[at].box]
            && (forall sid :: LoadSequence(r.storage, sid) == LoadSequence(s.storage, sid)) && CanReach(r, to, random)
  {
    hide LoadSequence, LoadOrCreateSeed, Run, CarefulRun, Base64.UrlNoPadDecode, NewSession;
    var other := Pairing(NewSession(s.tasks, to.sid), to.publicKey);
    NewSessionIsNew(s.tasks, to.sid);
    var connect := Connect(other, random, true, true, true);
    assert CanReach(s, other, random);
    assert Careful(s, connect);
    CarefulOne(derive, s, connect);
    NextSound(derive, s, connect);
    ConnectEffect(derive, s, other, random);
    var t := Next(derive, s, connect);
    CarefulOne(derive, t, Send(at));
    Follow(derive, s, [connect], [Send(at)]);
    assert [connect] + [Send(at)] == [connect, Send(at)];
    SentNow(derive, t, at);
  }

  lemma SentNow(derive: Derive, s: State, at: nat)
    requires Sound(s) && at < |s.tasks| && s.tasks[at].Saved? && s.online
    ensures var r := Next(derive, s, Send(at)); r.wire == s.wire + [s.tasks[at].box] && r.storage == s.storage
  {
  }

  /** Anything of the session above its stored counter, on the wire or about to be, can
      still be repeated. */
  lemma UncoveredRepeats(derive: Derive, s: State, to: Pairing, random: Seed, nonce: Nonce)
    requires Sound(s) && s.pairing.Some? && s.pairing.value.sid == to.sid && CanReach(s, to, random)
    requires !Covers(s, to.sid, LoadSequence(s.storage, to.sid))
    requires forall t :: t in s.tasks ==> t.box.msg.sid == t.sid
    ensures !AlwaysDistinct(derive, s)
  {
    hide LoadSequence, CanReach, Run, CarefulRun, WireDistinct, RestartAndSend, NewSession;
    var n := LoadSequence(s.storage, to.sid);
    if !WireUpTo(s.wire, to.sid, n) {
      var x :| x in s.wire && x.msg.sid == to.sid && x.msg.num > n;
      var i :| 0 <= i < |s.wire| && s.wire[i] == x;
      RestartRepeats(derive, s, to, random, nonce, i);
    } else {
      var t :| t in s.tasks && t.Saved? && t.sid == to.sid && t.box.msg.num > n;
      var at :| 0 <= at < |s.tasks| && s.tasks[at] == t;
      SavedReachesWire(derive, s, to, random, at);
      var other := Pairing(NewSession(s.tasks, to.sid), to.publicKey);
      var steps := [Connect(other, random, true, true, true), Send(at)];
      var r := Run(derive, s, steps);
      RestartRepeats(derive, r, to, random, nonce, |s.wire|);
      var more := RestartAndSend(to, random, nonce, t.box.msg.num - n);
      Follow(derive, s, steps, more);
    }
  }

  lemma TaskSessions(s: State)
    requires NumberingInv(s)
    ensures forall t :: t in s.tasks ==> t.box.msg.sid == t.sid
  {
  }

  /** After such a send, however many calls are in flight, every careful continuation keeps
      the numbers of a session distinct exactly when the old object's next number covers
      what of the session is on the wire or has been saved and waits to be sent; otherwise a
      restart and more sends repeat a number. `to` and `random` only show that the phone can
      still reconnect. */
  lemma StaleSendExactly(derive: Derive, s: State, typ: string, data: string, nonce: Nonce, to: Pairing, random: Seed)
    requires NumberingInv(s) && CanSend(s) && !Coherent(s)
    requires to.sid == s.pairing.value.sid && CanReach(s, to, random)
    ensures Covers(s, s.pairing.value.sid, s.objects[s.current.value].num + 1) <==>
            AlwaysDistinct(derive, Run(derive, s, SendCommand(|s.tasks|, typ, data, nonce)))
  {
    hide LoadSequence, SaveSequence, CanReach, Run, CarefulRun, WireDistinct, AlwaysDistinct, Stamped, Stored;
    var sid, n := s.pairing.value.sid, s.objects[s.current.value].num + 1;
    var r := Run(derive, s, SendCommand(|s.tasks|, typ, data, nonce));
    if Covers(s, sid, n) {
      StaleSendKeeps(derive, s, typ, data, nonce);
      AlwaysDistinctFrom(derive, r);
    } else {
      SendCommandEffect(derive, s, typ, data, nonce);
      SavedThenLoaded(s.storage, sid, n, sid);
      ReachAfterSave(s, r, to, random, sid, n);
      TaskSessions(s);
      UncoveredRepeats(derive, r, to, random, nonce);
    }
  }

  /** Whatever careful steps follow, no number is repeated on the wire. */
  ghost predicate AlwaysDistinct(derive: Derive, s: State)
    requires Sound(s)
  {
    forall steps: seq<Step> :: CarefulRun(derive, s, steps) ==> WireDistinct(Run(derive, s, steps).wire)
  }

  lemma AlwaysDistinctFrom(derive: Derive, s: State)
    requires NumberingInv(s)
    ensures Sound(s) && AlwaysDistinct(derive, s)
  {
    hide NumberingInv, Run, CarefulRun, WireDistinct;
    NumberingSound(s);
    forall steps: seq<Step> | CarefulRun(derive, s, steps) ensures WireDistinct(Run(derive, s, steps).wire) {
      CarefulRunKeeps(derive, s, steps);
      NumberingMeans(Run(derive, s, steps));
    }
  }

  lemma ReachAfterSave(s: State, r: State, to: Pairing, random: Seed, sid: string, n: nat)
    requires CanReach(s, to, random) && r.storage == SaveSequence(s.storage, sid, n)
    ensures CanReach(r, to, random)
  {
    hide LoadOrCreateSeed, SaveSequence;
    SaveLeavesSeed(s.storage, sid, n, random);
  }

  // A connect that makes a new object for a session while a sendCommand of that session is
  // between seal and save: the late save stores a counter that the new object has passed.

  /** Send until the new object's number is above the old one's, let the old call save,
      restart, and send again. */
  function LateSave(at: nat, nonce: Nonce, n: nat, tasks: nat): seq<Step> {
    Commands(tasks, nonce, n) + [Save(at, true)]
  }

  lemma LateSaveEffect(derive: Derive, s: State, sid: string, nonce: Nonce, at: nat, n: nat)
    requires Sound(s) && Connected(s, sid) && at < |s.tasks| && s.tasks[at].Sealed? && s.tasks[at].sid == sid
    requires s.tasks[at].crypto != s.current.value
    requires n > 0 && s.objects[s.current.value].num + n > s.objects[s.tasks[at].crypto].num
    ensures var steps := LateSave(at, nonce, n, |s.tasks|);
            var r := Run(derive, s, steps);
            && CarefulRun(derive, s, steps)
            && |r.wire| == |s.wire| + n && r.wire[|s.wire| + n - 1].msg.sid == sid
            && r.wire[|s.wire| + n - 1].msg.num > LoadSequence(r.storage, sid)
            && (forall random ::
          LoadOrCreateSeed(s.storage, random, true).Some? ==> LoadOrCreateSeed(r.storage, random, true).Some?)
  {
    hide LoadSequence, SaveSequence, LoadOrCreateSeed, Run, CarefulRun, Commands;
    CommandsSend(derive, s, sid, nonce, n);
    var t := Run(derive, s, Commands(|s.tasks|, nonce, n));
    var save := Save(at, true);
    CarefulOne(derive, t, save);
    RunConcat(derive, s, Commands(|s.tasks|, nonce, n), [save]);
    CarefulConcat(derive, s, Commands(|s.tasks|, nonce, n), [save]);
    var late := s.objects[s.tasks[at].crypto].num;
    SaveEffect(derive, t, at);
    SavedThenLoaded(t.storage, sid, late, sid);
    forall random ensures LoadOrCreateSeed(t.storage, random, true).Some?
                          <==> LoadOrCreateSeed(SaveSequence(t.storage, sid, late), random, true).Some? {
      SaveLeavesSeed(t.storage, sid, late, random);
    }
    assert t.wire[|s.wire| + (n - 1)].msg.num == s.objects[s.current.value].num + n;
  }

  lemma SaveEffect(derive: Derive, s: State, at: nat)
    requires Sound(s) && at < |s.tasks| && s.tasks[at].Sealed?
    ensures var t, r := s.tasks[at], Next(derive, s, Save(at, true));
            r.wire == s.wire && r.storage == SaveSequence(s.storage, t.sid, s.objects[t.crypto].num)
  {
  }

  /** A connect that succeeds and makes a new object is safe for the numbering, whatever
      careful steps follow, exactly when no sendCommand of its session is between seal and
      save. */
  lemma RenewExactly(derive: Derive, s: State, to: Pairing, random: Seed, nonce: Nonce)
    requires NumberingInv(s) && !CanResume(s, to) && CanReach(s, to, random)
    ensures Sound(Next(derive, s, Connect(to, random, true, true, true)))
    ensures Quiet(s, to.sid) <==> AlwaysDistinct(derive, Next(derive, s, Connect(to, random, true, true, true)))
  {
    hide LoadSequence, CanReach, Run, CarefulRun, NumberingInv, WireDistinct, Next, Commands;
    NumberingSound(s);
    var connect := Connect(to, random, true, true, true);
    var back := Next(derive, s, connect);
    if Quiet(s, to.sid) {
      NumberingKeeps(derive, s, connect);
      AlwaysDistinctFrom(derive, back);
    } else {
      LoudRenewRepeats(derive, s, to, random, nonce);
    }
  }

  lemma LoudRenewRepeats(derive: Derive, s: State, to: Pairing, random: Seed, nonce: Nonce)
    requires Sound(s) && !CanResume(s, to) && CanReach(s, to, random) && !Quiet(s, to.sid)
    ensures Sound(Next(derive, s, Connect(to, random, true, true, true)))
    ensures !AlwaysDistinct(derive, Next(derive, s, Connect(to, random, true, true, true)))
  {
    var t :| t in s.tasks && t.Sealed? && t.sid == to.sid;
    var at :| 0 <= at < |s.tasks| && s.tasks[at] == t;
    hide LoadSequence, CanReach, Next, LoadOrCreateSeed, AlwaysDistinct;
    var connect := Connect(to, random, true, true, true);
    var back := Next(derive, s, connect);
    ConnectEffect(derive, s, to, random);
    NextSound(derive, s, connect);
    ReachAgain(back, s, to, random);
    LateSaveRepeats(derive, back, to, random, nonce, at);
  }

  lemma LateSaveRepeats(derive: Derive, s: State, to: Pairing, random: Seed, nonce: Nonce, at: nat)
    requires Sound(s) && Connected(s, to.sid) && CanReach(s, to, random)
    requires at < |s.tasks| && s.tasks[at].Sealed? && s.tasks[at].sid == to.sid && s.tasks[at].crypto != s.current.value
    ensures !AlwaysDistinct(derive, s)
  {
    hide LoadSequence, CanReach, Run, CarefulRun, WireDistinct, Commands, LateSave, RestartAndSend, LoadOrCreateSeed;
    var n := s.objects[s.tasks[at].crypto].num + 1;
    LateSaveEffect(derive, s, to.sid, nonce, at, n);
    var steps := LateSave(at, nonce, n, |s.tasks|);
    var late := Run(derive, s, steps);
    var i := |s.wire| + n - 1;
    assert CanReach(late, to, random) by { SeedOfReach(s, to, random); ReachAgain(late, s, to, random); }
    RestartRepeats(derive, late, to, random, nonce, i);
    var more := RestartAndSend(to, random, nonce, late.wire[i].msg.num - LoadSequence(late.storage, to.sid));
    Follow(derive, s, steps, more);
  }

  lemma SeedOfReach(s: State, to: Pairing, random: Seed)
    requires CanReach(s, to, random)
    ensures LoadOrCreateSeed(s.storage, random, true).Some?
  {
  }

  lemma SwitchBackFails(derive: Derive, s: State, one: Pairing, two: Pairing, random: Seed)
    requires Sound(s) && s.tasks == [] && s.pairing == Some(one) && one.sid != two.sid
    requires CanReach(s, one, random) && CanReach(s, two, random)
    ensures var steps := [Connect(two, random, true, true, true), Connect(one, random, true, false, true)];
            var r := Run(derive, s, steps);
            && r.tasks == [] && !r.online && CanSend(r) && r.pairing == Some(one) && r.wire == s.wire && !Coherent(r)
            && r.objects[r.current.value].num == LoadSequence(s.storage, two.sid)
            && CanReach(r, one, random)
    ensures CarefulRun(derive, s, [Connect(two, random, true, true, true), Connect(one, random, true, false, true)])
  {
    hide LoadOrCreateSeed, LoadSequence, Base64.UrlNoPadDecode, Run, CarefulRun;
    var there, back := Connect(two, random, true, true, true), Connect(one, random, true, false, true);
    ConnectEffect(derive, s, two, random);
    CarefulOne(derive, s, there);
    var away := Next(derive, s, there);
    CarefulOne(derive, away, back);
    RunConcat(derive, s, [there], [back]);
    CarefulConcat(derive, s, [there], [back]);
    assert [there] + [back] == [there, back];
    SeedStays(away.storage, random);
  }

  lemma FirstConnect(derive: Derive, one: Pairing, random: Seed)
    requires CanReach(Start(map[]), one, random)
    ensures var r := Run(derive, Start(map[]), [Crash, Connect(one, random, true, true, true)]);
            && Connected(r, one.sid) && r.tasks == [] && r.pairing == Some(one) && r.wire == []
            && r.objects[r.current.value].num == 0
            && (forall sid :: LoadSequence(r.storage, sid) == 0)
            && LoadOrCreateSeed(r.storage, random, true).Some?
    ensures CarefulRun(derive, Start(map[]), [Crash, Connect(one, random, true, true, true)])
  {
    hide LoadOrCreateSeed, Base64.UrlNoPadDecode, Run, CarefulRun;
    ReconnectEffect(derive, Start(map[]), one, random);
  }

  /** Two commands to `one`, a switch to `two`, a switch back that fails at the counter and
      one command: the stored counter of `one` is then 1 with 2 on the wire. */
  function StaleRun(one: Pairing, two: Pairing, random: Seed, nonce: Nonce): seq<Step> {
    [Crash, Connect(one, random, true, true, true)] + Commands(0, nonce, 2)
    + [Connect(two, random, true, true, true), Connect(one, random, true, false, true)]
    + SendCommand(0, "ping", "", nonce)
  }

  lemma StaleRunEffect(derive: Derive, one: Pairing, two: Pairing, random: Seed, nonce: Nonce)
    requires one.sid != two.sid
    requires CanReach(Start(map[]), one, random) && CanReach(Start(map[]), two, random)
    ensures var r := Run(derive, Start(map[]), StaleRun(one, two, random, nonce));
            |r.wire| == 2 && r.wire[1].msg.sid == one.sid && r.wire[1].msg.num == 2
            && LoadSequence(r.storage, one.sid) == 1 && CanReach(r, one, random)
  {
    hide CanReach, LoadSequence, SaveSequence, LoadOrCreateSeed, Run, SendCommand, Commands, CarefulRun;
    var s0 := Start(map[]);
    var start := [Crash, Connect(one, random, true, true, true)];
    var switch := [Connect(two, random, true, true, true), Connect(one, random, true, false, true)];
    var two', cmd := Commands(0, nonce, 2), SendCommand(0, "ping", "", nonce);
    FirstConnect(derive, one, random);
    var s1 := Run(derive, s0, start);
    CommandsSend(derive, s1, one.sid, nonce, 2);
    var s2 := Run(derive, s1, two');
    ReachAgain(s2, s0, one, random);
    ReachAgain(s2, s0, two, random);
    assert LoadSequence(s2.storage, two.sid) == 0;
    assert s2.wire[|s1.wire| + 1].msg.num == 2;
    SwitchBackFails(derive, s2, one, two, random);
    var s3 := Run(derive, s2, switch);
    SendCommandEffect(derive, s3, "ping", "", nonce);
    SavedThenLoaded(s3.storage, one.sid, 1, one.sid);
    ReachAfterSave(s3, Run(derive, s3, cmd), one, random, one.sid, 1);
    RunConcat(derive, s0, start, two');
    RunConcat(derive, s0, start + two', switch);
    RunConcat(derive, s0, start + two' + switch, cmd);
  }

  /** A concrete run whose only careless step is one stale send, and which then repeats a
      number on the wire. */
  lemma StaleSendRepeatsANumber(derive: Derive, one: Pairing, two: Pairing, random: Seed, nonce: Nonce)
    requires one.sid != two.sid
    requires CanReach(Start(map[]), one, random) && CanReach(Start(map[]), two, random)
    ensures var steps := StaleRun(one, two, random, nonce) + RestartAndSend(one, random, nonce, 1);
            !WireDistinct(Run(derive, Start(map[]), steps).wire)
  {
    hide CanReach, LoadSequence, Run, StaleRun, RestartAndSend, WireDistinct, CarefulRun;
    StaleRunEffect(derive, one, two, random, nonce);
    var s := Run(derive, Start(map[]), StaleRun(one, two, random, nonce));
    RestartRepeats(derive, s, one, random, nonce, 1);
    RunConcat(derive, Start(map[]), StaleRun(one, two, random, nonce), RestartAndSend(one, random, nonce, 1));
  }

  lemma RepeatedNumber(wire: seq<Sealing>, i: nat, j: nat)
    requires i < j < |wire| && wire[i].msg.sid == wire[j].msg.sid && wire[j].msg.num == wire[i].msg.num
    ensures !WireDistinct(wire)
  {
  }

  // Overlapping calls.

  /** Two calls in flight at once, of which the second finishes first. */
  function Overlapping(nonce: Nonce): seq<Step> {
    [Seal("ping", "", Some(nonce)), Seal("ping", "", Some(nonce)), Save(1, true), Send(1), Save(0, true), Send(0)]
  }

  /** The wire then carries 2 before 1, in a careful run. */
  lemma OverlapSendsOutOfOrder(derive: Derive, to: Pairing, random: Seed, nonce: Nonce)
    requires CanReach(Start(map[]), to, random)
    ensures var steps := [Crash, Connect(to, random, true, true, true)] + Overlapping(nonce);
            var r := Run(derive, Start(map[]), steps);
            && CarefulRun(derive, Start(map[]), steps)
            && |r.wire| == 2 && r.wire[0].msg.sid == r.wire[1].msg.sid == to.sid
            && r.wire[0].msg.num == 2 && r.wire[1].msg.num == 1
            && !WireIncreasing(r.wire)
  {
    hide CanReach, LoadSequence, LoadOrCreateSeed, Run, CarefulRun;
    var s0 := Start(map[]);
    var start := [Crash, Connect(to, random, true, true, true)];
    FirstConnect(derive, to, random);
    OverlapFrom(derive, Run(derive, s0, start), to.sid, nonce);
    Follow(derive, s0, start, Overlapping(nonce));
  }

  lemma OverlapFrom(derive: Derive, s: State, sid: string, nonce: Nonce)
    requires Sound(s) && Connected(s, sid) && s.tasks == [] && s.wire == [] && s.objects[s.current.value].num == 0
    ensures var r := Run(derive, s, Overlapping(nonce));
            && CarefulRun(derive, s, Overlapping(nonce))
            && |r.wire| == 2 && r.wire[0].msg.sid == r.wire[1].msg.sid == sid
            && r.wire[0].msg.num == 2 && r.wire[1].msg.num == 1
  {
    hide Run, CarefulRun, Connected;
    var seal := Seal("ping", "", Some(nonce));
    TwoSeals(derive, s, sid, nonce);
    var both := Run(derive, s, [seal, seal]);
    SecondFirst(derive, both);
    Follow(derive, s, [seal, seal], [Save(1, true), Send(1), Save(0, true), Send(0)]);
    assert [seal, seal] + [Save(1, true), Send(1), Save(0, true), Send(0)] == Overlapping(nonce);
  }

  lemma TwoSeals(derive: Derive, s: State, sid: string, nonce: Nonce)
    requires Sound(s) && Connected(s, sid) && s.tasks == [] && s.objects[s.current.value].num == 0
    ensures var seals := [Seal("ping", "", Some(nonce)), Seal("ping", "", Some(nonce))];
            var r := Run(derive, s, seals);
            && CarefulRun(derive, s, seals) && r.wire == s.wire && r.online
            && |r.tasks| == 2 && r.tasks[0].Sealed? && r.tasks[1].Sealed?
            && r.tasks[0].box.msg.sid == r.tasks[1].box.msg.sid == sid
            && r.tasks[0].box.msg.num == 1 && r.tasks[1].box.msg.num == 2
  {
    hide Run, CarefulRun, Careful;
    var seal := Seal("ping", "", Some(nonce));
    CoherentSealCareful(s, seal);
    var s1 := TakeStep(derive, s, seal);
    SealStep(derive, s, "ping", "", nonce);
    CoherentSealCareful(s1, seal);
    var s2 := TakeStep(derive, s1, seal);
    SealStep(derive, s1, "ping", "", nonce);
    Follow(derive, s, [seal], [seal]);
    assert [seal] + [seal] == [seal, seal];
  }

  lemma SecondFirst(derive: Derive, s: State)
    requires Sound(s) && s.online && |s.tasks| == 2 && s.tasks[0].Sealed? && s.tasks[1].Sealed?
    ensures var steps := [Save(1, true), Send(1), Save(0, true), Send(0)];
            CarefulRun(derive, s, steps) && Run(derive, s, steps).wire == s.wire + [s.tasks[1].box, s.tasks[0].box]
  {
    hide SaveSequence, Run, CarefulRun, Next;
    SaveAndSend(derive, s, 1);
    CarefulTwo(derive, s, Save(1, true), Send(1));
    var t := Run(derive, s, [Save(1, true), Send(1)]);
    assert t.tasks == [s.tasks[0]];
    SaveAndSend(derive, t, 0);
    CarefulTwo(derive, t, Save(0, true), Send(0));
    Follow(derive, s, [Save(1, true), Send(1)], [Save(0, true), Send(0)]);
    assert [Save(1, true), Send(1)] + [Save(0, true), Send(0)] == [Save(1, true), Send(1), Save(0, true), Send(0)];
    assert s.wire + [s.tasks[1].box] + [s.tasks[0].box] == s.wire + [s.tasks[1].box, s.tasks[0].box];
  }

  lemma CoherentSealCareful(s: State, step: Step)
    requires Sound(s) && Coherent(s) && step.Seal?
    ensures Careful(s, step)
  {
  }

  lemma TakeStep(derive: Derive, s: State, step: Step) returns (r: State)
    requires Sound(s) && Careful(s, step)
    ensures Sound(r) && r == Next(derive, s, step) == Run(derive, s, [step]) && CarefulRun(derive, s, [step])
  {
    hide Next, Careful, Run, CarefulRun;
    NextSound(derive, s, step);
    CarefulOne(derive, s, step);
    r := Next(derive, s, step);
  }

  lemma CarefulTwo(derive: Derive, s: State, a: Step, b: Step)
    requires Sound(s) && !a.Seal? && !a.Connect? && !b.Seal? && !b.Connect?
    ensures Sound(Next(derive, s, a))
    ensures CarefulRun(derive, s, [a, b]) && Run(derive, s, [a, b]) == Next(derive, Next(derive, s, a), b)
  {
    hide Next, Run, CarefulRun;
    NextSound(derive, s, a);
    CarefulOne(derive, s, a);
    CarefulOne(derive, Next(derive, s, a), b);
    RunConcat(derive, s, [a], [b]);
    CarefulConcat(derive, s, [a], [b]);
    assert [a] + [b] == [a, b];
  }

  lemma Follow(derive: Derive, s: State, a: seq<Step>, b: seq<Step>)
    requires Sound(s) && CarefulRun(derive, s, a) && CarefulRun(derive, Run(derive, s, a), b)
    ensures CarefulRun(derive, s, a + b) && Run(derive, s, a + b) == Run(derive, Run(derive, s, a), b)
  {
    hide Run, CarefulRun;
    RunConcat(derive, s, a, b);
    CarefulConcat(derive, s, a, b);
  }
}
