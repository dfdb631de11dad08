/** Crash-safe numbering of the phone's frames, with sendCommand calls overlapping each
    other, connects and closes in any way. */
module Numbering {
  import opened Common
  import opened E2ee
  import opened Phone

  /** The object sendCommand would use was created for the session it would send to. */
  ghost predicate Coherent(s: State)
    requires Sound(s)
  {
    s.current.Some? && s.pairing.Some? ==> s.objects[s.current.value].sid == s.pairing.value.sid
  }

  /** No sendCommand of the session has a number that is not yet stored. */
  predicate Quiet(s: State, sid: string) {
    forall t :: t in s.tasks && t.Sealed? ==> t.sid != sid
  }

  /** A sendCommand starts while the object in use belongs to the session (true whenever
      the latest connect returned normally), and a connect that makes a new object for a
      session starts while no sendCommand of that session is between seal and save. */
  ghost predicate Careful(s: State, step: Step)
    requires Sound(s)
  {
    match step
    case Seal(_, _, _) => Coherent(s)
    case Connect(to, _, _, _, _) => CanResume(s, to) || Quiet(s, to.sid)
    case _ => true
  }

  ghost predicate CarefulRun(derive: Derive, s: State, steps: seq<Step>)
    requires Sound(s)
  {
    forall i :: 0 <= i < |steps| ==> Careful(Run(derive, s, steps[..i]), steps[i])
  }

  /** No two frames of a session on the wire share a number. */
  ghost predicate WireDistinct(wire: seq<Sealing>) {
    forall i, j :: 0 <= i < j < |wire| && wire[i].msg.sid == wire[j].msg.sid ==> wire[i].msg.num != wire[j].msg.num
  }

  /** Each frame on the wire has a larger number than every earlier one of its session. */
  ghost predicate WireIncreasing(wire: seq<Sealing>) {
    forall i, j :: 0 <= i < j < |wire| && wire[i].msg.sid == wire[j].msg.sid ==> wire[i].msg.num < wire[j].msg.num
  }

  /** The frames of each session reached the wire in the order they were sealed. */
  ghost predicate SentInSealOrder(s: State)
    requires |s.stamps| == |s.wire|
  {
    forall i, j :: 0 <= i < j < |s.wire| && s.wire[i].msg.sid == s.wire[j].msg.sid ==> s.stamps[i] < s.stamps[j]
  }

  /** No frame of the session carries a number above `n`. */
  ghost predicate WireUpTo(wire: seq<Sealing>, sid: string, n: int) {
    forall x :: x in wire && x.msg.sid == sid ==> x.msg.num <= n
  }

  /** Stamps say which box is which; none is sent twice or sent while in flight. */
  ghost predicate Stamped(s: State) {
    && |s.stamps| == |s.wire|
    && (forall i :: 0 <= i < |s.stamps| ==> s.stamps[i] < |s.made| && s.made[s.stamps[i]] == s.wire[i])
    && (forall t :: t in s.tasks ==> t.stamp < |s.made| && s.made[t.stamp] == t.box && t.box.msg.sid == t.sid)
    && (forall i, j :: 0 <= i < j < |s.stamps| ==> s.stamps[i] != s.stamps[j])
    && (forall i, j :: 0 <= i < j < |s.tasks| ==> s.tasks[i].stamp < s.tasks[j].stamp)
    && (forall t :: t in s.tasks ==> t.stamp !in s.stamps)
  }

  /** Sent, or still in flight. */
  ghost predicate Alive(s: State, stamp: nat) {
    stamp in s.stamps || exists t :: t in s.tasks && t.stamp == stamp
  }

  /** Among these, boxes of a session were numbered in the order they were sealed. */
  ghost predicate NumberedInOrder(s: State) {
    forall a: nat, b: nat ::
      a < b < |s.made| && Alive(s, a) && Alive(s, b) && s.made[a].msg.sid == s.made[b].msg.sid ==>
      s.made[a].msg.num < s.made[b].msg.num
  }

  /** Every frame of the session that is on the wire or whose call has saved has a number up
      to `n`. */
  ghost predicate Covers(s: State, sid: string, n: int) {
    && WireUpTo(s.wire, sid, n)
    && forall t :: t in s.tasks && t.Saved? && t.sid == sid ==> t.box.msg.num <= n
  }

  ghost predicate TaskStored(s: State, t: Task)
    requires Sound(s) && t in s.tasks
  {
    match t
    case Saved(sid, box, _) => box.msg.num <= LoadSequence(s.storage, sid)
    case Sealed(k, sid, box, _) =>
      && s.objects[k].sid == sid && box.msg.num <= s.objects[k].num && Covers(s, sid, s.objects[k].num)
      && (s.current.Some? && s.objects[s.current.value].sid == sid ==> s.current == Some(k))
      && forall u :: u in s.tasks && u.Sealed? && u.sid == sid ==> u.crypto == k
  }

  /** The stored counter covers the wire and every saved call, and so do the counters in
      use. */
  ghost predicate Stored(s: State)
    requires Sound(s)
  {
    && (forall x :: x in s.wire ==> x.msg.num <= LoadSequence(s.storage, x.msg.sid))
    && (s.current.Some? ==> Covers(s, s.objects[s.current.value].sid, s.objects[s.current.value].num))
    && (forall t :: t in s.tasks ==> TaskStored(s, t))
  }

  ghost predicate Linked(s: State)
    requires Sound(s)
  {
    && (s.current.Some? && !s.objects[s.current.value].disposed ==> s.pairing.Some? && Coherent(s))
    && (s.online ==> s.ready)
    && (s.ready ==> s.current.Some? && Coherent(s))
  }

  ghost predicate NumberingInv(s: State) {
    Sound(s) && Stamped(s) && NumberedInOrder(s) && Stored(s) && Linked(s)
  }

  lemma TasksSubset(tasks: seq<Task>, i: nat)
    requires i < |tasks|
    ensures forall t :: t in Without(tasks, i) ==> t in tasks
    ensures (forall j, k :: 0 <= j < k < |tasks| ==> tasks[j].stamp < tasks[k].stamp) ==>
              var rest := Without(tasks, i);
              && (forall j, k :: 0 <= j < k < |rest| ==> rest[j].stamp < rest[k].stamp)
              && (forall t :: t in rest ==> t.stamp != tasks[i].stamp)
  {
    var rest := Without(tasks, i);
    forall j | 0 <= j < |rest| ensures rest[j] == if j < i then tasks[j] else tasks[j + 1] {
    }
  }

  // Each part of the invariant, step by step.

  lemma StampedKept(derive: Derive, s: State, step: Step)
    requires Sound(s) && Stamped(s)
    ensures Stamped(Next(derive, s, step))
  {
    hide ConnectTo, SaveSequence, SetPeerPublicKey, FinishOpen;
    match step
    case Connect(_, _, _, _, _) => ConnectLeaves(derive, s, step);
    case Seal(_, _, _) => SealStamped(derive, s, step);
    case Save(i, works) => SaveStamped(derive, s, i, works);
    case Send(i) => SendStamped(derive, s, i);
    case _ =>
  }

  lemma SealStamped(derive: Derive, s: State, step: Step)
    requires Sound(s) && Stamped(s) && step.Seal?
    ensures Stamped(Next(derive, s, step))
  {
    var r := Next(derive, s, step);
    assert forall t :: t in r.tasks ==> t in s.tasks || t.stamp == |s.made|;
  }

  lemma SaveStamped(derive: Derive, s: State, i: nat, works: bool)
    requires Sound(s) && Stamped(s)
    ensures Stamped(Next(derive, s, Save(i, works)))
  {
    hide SaveSequence;
    if i < |s.tasks| && s.tasks[i].Sealed? {
      TasksSubset(s.tasks, i);
      var r := Next(derive, s, Save(i, works));
      hide Without;
      assert s.tasks[i] in s.tasks;
      if works {
        assert forall t :: t in r.tasks ==> t in s.tasks || t == r.tasks[i];
      }
    }
  }

  lemma SendStamped(derive: Derive, s: State, i: nat)
    requires Sound(s) && Stamped(s)
    ensures Stamped(Next(derive, s, Send(i)))
  {
    if i < |s.tasks| && s.tasks[i].Saved? {
      TasksSubset(s.tasks, i);
      hide Without;
      assert s.tasks[i] in s.tasks;
    }
  }

  /** What is alive after a step was so before, or has just been sealed; and boxes keep
      their places. */
  lemma AliveBefore(derive: Derive, s: State, step: Step, a: nat)
    requires Sound(s) && Stamped(s) && Alive(Next(derive, s, step), a)
    ensures s.made <= Next(derive, s, step).made
    ensures Alive(s, a) || (step.Seal? && a == |s.made|)
  {
    hide ConnectTo, SaveSequence, SetPeerPublicKey, FinishOpen, Without;
    match step
    case Connect(_, _, _, _, _) => ConnectLeaves(derive, s, step);
    case Seal(_, _, _) => AliveAfterSeal(derive, s, step, a);
    case Save(i, works) => if i < |s.tasks| { AliveAfterSave(derive, s, i, works, a); }
    case Send(i) => if i < |s.tasks| { AliveAfterSend(derive, s, i, a); }
    case _ =>
  }

  lemma AliveAfterSeal(derive: Derive, s: State, step: Step, a: nat)
    requires Sound(s) && step.Seal? && Alive(Next(derive, s, step), a)
    ensures s.made <= Next(derive, s, step).made && (Alive(s, a) || a == |s.made|)
  {
    var r := Next(derive, s, step);
    if a !in r.stamps {
      var t :| t in r.tasks && t.stamp == a;
    }
  }

  lemma AliveAfterSave(derive: Derive, s: State, i: nat, works: bool, a: nat)
    requires Sound(s) && i < |s.tasks| && Alive(Next(derive, s, Save(i, works)), a)
    ensures s.made == Next(derive, s, Save(i, works)).made && Alive(s, a)
  {
    TasksSubset(s.tasks, i);
    hide SaveSequence, Without;
    var r := Next(derive, s, Save(i, works));
    if a !in r.stamps {
      var t :| t in r.tasks && t.stamp == a;
      assert s.tasks[i] in s.tasks;
      assert t in s.tasks || t.stamp == s.tasks[i].stamp;
    }
  }

  lemma AliveAfterSend(derive: Derive, s: State, i: nat, a: nat)
    requires Sound(s) && i < |s.tasks| && Alive(Next(derive, s, Send(i)), a)
    ensures s.made == Next(derive, s, Send(i)).made && Alive(s, a)
  {
    TasksSubset(s.tasks, i);
    hide Without;
    var r := Next(derive, s, Send(i));
    assert s.tasks[i] in s.tasks;
    if a !in r.stamps {
      var t :| t in r.tasks && t.stamp == a;
    }
  }

  lemma AliveInMade(s: State, a: nat)
    requires Stamped(s) && Alive(s, a)
    ensures a < |s.made|
  {
  }

  /** A coherent seal gives a number above every living one of its session. */
  lemma SealedAbove(s: State, a: nat)
    requires NumberingInv(s) && Coherent(s) && s.current.Some? && s.pairing.Some? && Alive(s, a)
    ensures a < |s.made| && (s.made[a].msg.sid == s.pairing.value.sid ==>
              s.made[a].msg.num <= s.objects[s.current.value].num)
  {
    hide LoadSequence;
    if a in s.stamps {
      var i :| 0 <= i < |s.stamps| && s.stamps[i] == a;
      assert s.wire[i] in s.wire;
    } else {
      var t :| t in s.tasks && t.stamp == a;
      assert TaskStored(s, t);
    }
  }

  lemma OrderKept(derive: Derive, s: State, step: Step)
    requires NumberingInv(s) && (step.Seal? ==> Coherent(s))
    ensures NumberedInOrder(Next(derive, s, step))
  {
    hide Next, Stored, Linked;
    var r := Next(derive, s, step);
    forall a: nat, b: nat | a < b < |r.made| && Alive(r, a) && Alive(r, b) && r.made[a].msg.sid == r.made[b].msg.sid
      ensures r.made[a].msg.num < r.made[b].msg.num
    {
      AliveBefore(derive, s, step, a);
      AliveBefore(derive, s, step, b);
      if Alive(s, b) {
        AliveInMade(s, b);
      } else {
        SealMade(derive, s, step);
        SealedAbove(s, a);
      }
    }
  }

  lemma SealMade(derive: Derive, s: State, step: Step)
    requires Sound(s) && step.Seal? && |Next(derive, s, step).made| > |s.made|
    ensures s.current.Some? && s.pairing.Some?
    ensures var r := Next(derive, s, step);
            && |r.made| == |s.made| + 1 && r.made[|s.made|].msg.sid == s.pairing.value.sid
            && r.made[|s.made|].msg.num == s.objects[s.current.value].num + 1
  {
  }

  lemma DialKeeps(s: State, to: Pairing, dialWorks: bool)
    requires NumberingInv(s) && s.current.Some? && s.pairing == Some(to) && !s.ready
    ensures NumberingInv(Dial(s, to, dialWorks))
  {
    DialEffect(s, to, dialWorks);
    hide LoadSequence, Dial, NumberedInOrder, Stored, Stamped;
    var r := Dial(s, to, dialWorks);
    SameAlive(s, r);
    SameStamped(s, r);
    SameObjectsStored(s, r);
  }

  lemma SameStamped(s: State, r: State)
    requires Stamped(s) && r.tasks == s.tasks && r.made == s.made && r.stamps == s.stamps && r.wire == s.wire
    ensures Stamped(r)
  {
  }

  /** A dial only changes the key of the object in use and whether the phone is online. */
  lemma DialEffect(s: State, to: Pairing, dialWorks: bool)
    requires Sound(s) && s.current.Some?
    ensures var r := Dial(s, to, dialWorks);
            && Sound(r) && r == s.(objects := r.objects, online := r.online, ready := r.ready)
            && |r.objects| == |s.objects|
            && (forall i :: 0 <= i < |s.objects| ==>
                  r.objects[i].num == s.objects[i].num && r.objects[i].sid == s.objects[i].sid
                  && r.objects[i].disposed == s.objects[i].disposed)
            && ((r.online && r.ready) || (r.online == s.online && r.ready == s.ready))
  {
    SetPeerKeepsNumbers(s, to.publicKey);
    hide SetPeerPublicKey;
  }

  lemma SameAlive(s: State, r: State)
    requires NumberedInOrder(s) && r.tasks == s.tasks && r.made == s.made && r.stamps == s.stamps
    ensures NumberedInOrder(r)
  {
    forall a | Alive(r, a) ensures Alive(s, a) {
    }
  }

  /** Changing only keys of objects keeps the counters' part of the invariant. */
  lemma SameObjectsStored(s: State, r: State)
    requires Sound(s) && Stored(s) && Sound(r) && r.tasks == s.tasks && r.wire == s.wire && r.current == s.current
    requires forall sid :: LoadSequence(r.storage, sid) == LoadSequence(s.storage, sid)
    requires |r.objects| == |s.objects|
             && forall i :: 0 <= i < |s.objects| ==>
                  r.objects[i].num == s.objects[i].num && r.objects[i].sid == s.objects[i].sid
    ensures Stored(r)
  {
    hide LoadSequence;
    forall t | t in r.tasks ensures TaskStored(r, t) {
      assert TaskStored(s, t);
    }
  }

  lemma ConnectKeeps(derive: Derive, s: State, step: Step)
    requires NumberingInv(s) && step.Connect? && Careful(s, step)
    ensures NumberingInv(ConnectTo(derive, s, step))
  {
    hide LoadSequence, LoadOrCreateSeed, Dial;
    var left := s.(online := false, ready := false, pairing := Some(step.to));
    SameAlive(s, left);
    if CanResume(s, step.to) {
      SameObjectsStored(s, left);
      DialKeeps(left, step.to, step.dialWorks);
    } else {
      RenewKeeps(derive, s, step, left);
    }
  }

  lemma DisposedKeepsNumbers(objects: seq<Crypto>, current: Option<nat>)
    requires current.Some? ==> current.value < |objects|
    ensures forall i :: 0 <= i < |objects| ==>
              Disposed(objects, current)[i].num == objects[i].num && Disposed(objects, current)[i].sid == objects[i].sid
    ensures current.Some? ==> Disposed(objects, current)[current.value].disposed
  {
  }

  lemma RenewKeeps(derive: Derive, s: State, step: Step, left: State)
    requires NumberingInv(s) && step.Connect? && !CanResume(s, step.to) && Quiet(s, step.to.sid)
    requires left == s.(online := false, ready := false, pairing := Some(step.to)) && NumberedInOrder(left)
    ensures NumberingInv(ConnectTo(derive, s, step))
  {
    hide LoadSequence, LoadOrCreateSeed, Dial, Disposed;
    DisposedKeepsNumbers(s.objects, s.current);
    var gone := left.(objects := Disposed(s.objects, s.current));
    SameAlive(s, gone);
    SameObjectsStored(s, gone);
    if LoadOrCreateSeed(s.storage, step.random, step.seedWorks).Some? {
      var (storage, seed) := LoadOrCreateSeed(s.storage, step.random, step.seedWorks).value;
      forall sid ensures LoadSequence(storage, sid) == LoadSequence(s.storage, sid) {
        SeedLeavesCounters(s.storage, step.random, step.seedWorks, sid);
      }
      var seeded := gone.(storage := storage);
      SameAlive(s, seeded);
      SameObjectsStored(gone, seeded);
      if step.counterWorks {
        var c := NewCrypto(KeyPair(derive(seed)), LoadSequence(storage, step.to.sid), step.to.sid);
        var made := seeded.(objects := seeded.objects + [c], current := Some(|seeded.objects|));
        SameAlive(s, made);
        NewObjectStored(seeded, made, c);
        DialKeeps(made, step.to, step.dialWorks);
      }
    }
  }

  lemma NewObjectStored(s: State, r: State, c: Crypto)
    requires Sound(s) && Stored(s) && Quiet(s, c.sid) && c.num == LoadSequence(s.storage, c.sid)
    requires r == s.(objects := s.objects + [c], current := Some(|s.objects|))
    ensures Sound(r) && Stored(r)
  {
    hide LoadSequence;
    forall t | t in r.tasks ensures TaskStored(r, t) {
      assert TaskStored(s, t);
    }
  }

  /** Saving stores the counter of the object the call used, which covers everything. */
  lemma SaveKeeps(derive: Derive, s: State, i: nat, works: bool)
    requires NumberingInv(s)
    ensures Stored(Next(derive, s, Save(i, works)))
  {
    hide LoadSequence, SaveSequence;
    if i < |s.tasks| && s.tasks[i].Sealed? {
      TasksSubset(s.tasks, i);
      hide Without;
      if works {
        SavedStored(derive, s, i);
      } else {
        FewerTasksStored(s, Next(derive, s, Save(i, works)));
      }
    }
  }

  lemma SavedStored(derive: Derive, s: State, i: nat)
    requires Sound(s) && Stamped(s) && Stored(s) && i < |s.tasks| && s.tasks[i].Sealed?
    ensures Stored(Next(derive, s, Save(i, true)))
  {
    hide LoadSequence, SaveSequence;
    var r, task := Next(derive, s, Save(i, true)), s.tasks[i];
    assert task in s.tasks && TaskStored(s, task);
    forall other ensures LoadSequence(r.storage, other)
                         == if other == task.sid then s.objects[task.crypto].num else LoadSequence(s.storage, other) {
      SavedThenLoaded(s.storage, task.sid, s.objects[task.crypto].num, other);
    }
    forall t | t in r.tasks ensures TaskStored(r, t) {
      if t in s.tasks {
        assert TaskStored(s, t);
      } else {
        assert t == r.tasks[i];
      }
    }
  }

  lemma SealKeeps(derive: Derive, s: State, step: Step)
    requires Sound(s) && Stored(s) && step.Seal? && Coherent(s)
    ensures Sound(Next(derive, s, step)) && Stored(Next(derive, s, step))
  {
    hide LoadSequence, CanSeal, TaskStored, WireUpTo, Covers;
    var r := Next(derive, s, step);
    NextSound(derive, s, step);
    SealCovers(s, r);
    forall t | t in r.tasks ensures TaskStored(r, t) {
      SealTaskStored(derive, s, step, t);
    }
  }

  lemma SealTaskStored(derive: Derive, s: State, step: Step, t: Task)
    requires Sound(s) && Stored(s) && step.Seal? && Coherent(s)
    requires Sound(Next(derive, s, step)) && t in Next(derive, s, step).tasks
    ensures TaskStored(Next(derive, s, step), t)
  {
    hide LoadSequence, CanSeal, WireUpTo, Covers, TaskStored, Stored, ConnectTo, SaveSequence, Without, Disposed;
    hide FinishOpen, SetPeerPublicKey;
    if t in s.tasks {
      EarlierTaskStored(s, Next(derive, s, step), t);
    } else {
      NewTaskStored(derive, s, step, t);
    }
  }

  lemma EarlierTaskStored(s: State, r: State, t: Task)
    requires Sound(s) && Stored(s) && Sound(r) && t in s.tasks && t in r.tasks
    requires r.wire == s.wire && r.storage == s.storage && r.current == s.current && |s.objects| <= |r.objects|
    requires forall k :: 0 <= k < |s.objects| ==>
               r.objects[k].sid == s.objects[k].sid && s.objects[k].num <= r.objects[k].num
    requires forall u :: u in r.tasks && u !in s.tasks ==>
               u.Sealed? && s.current == Some(u.crypto) && u.sid == s.objects[u.crypto].sid
    ensures TaskStored(r, t)
  {
    hide LoadSequence, WireUpTo, Covers;
    SealCovers(s, r);
    assert TaskStored(s, t);
  }

  lemma NewTaskStored(derive: Derive, s: State, step: Step, t: Task)
    requires Sound(s) && Stored(s) && step.Seal? && Coherent(s)
    requires Sound(Next(derive, s, step)) && t in Next(derive, s, step).tasks && t !in s.tasks
    ensures TaskStored(Next(derive, s, step), t)
  {
    hide LoadSequence, CanSeal, WireUpTo, Covers, ConnectTo, SaveSequence, Without, Disposed, FinishOpen;
    hide SetPeerPublicKey;
    SealCovers(s, Next(derive, s, step));
    forall u | u in s.tasks && u.Sealed? && u.sid == t.sid ensures u.crypto == t.crypto {
      assert TaskStored(s, u);
    }
  }

  /** Calls that have not saved and higher numbers leave what is covered covered. */
  lemma SealCovers(s: State, r: State)
    requires r.wire == s.wire && forall t :: t in r.tasks && t.Saved? ==> t in s.tasks
    ensures forall sid, n, m :: Covers(s, sid, n) && n <= m ==> Covers(r, sid, m)
  {
  }

  lemma FewerTasksStored(s: State, r: State)
    requires Sound(s) && Stored(s) && Sound(r) && r.objects == s.objects && r.storage == s.storage
    requires forall t :: t in r.tasks ==> t in s.tasks
    requires forall x :: x in r.wire ==> x in s.wire || x.msg.num <= LoadSequence(s.storage, x.msg.sid)
    requires forall sid, n :: Covers(s, sid, n) ==> Covers(r, sid, n)
    requires r.current == s.current || r.current.None?
    ensures Stored(r)
  {
    hide LoadSequence, Covers;
    forall t | t in r.tasks ensures TaskStored(r, t) {
      assert TaskStored(s, t);
    }
  }

  lemma SendKeeps(derive: Derive, s: State, i: nat)
    requires NumberingInv(s)
    ensures Stored(Next(derive, s, Send(i)))
  {
    hide LoadSequence;
    if i < |s.tasks| && s.tasks[i].Saved? {
      TasksSubset(s.tasks, i);
      assert TaskStored(s, s.tasks[i]);
      FewerTasksStored(s, Next(derive, s, Send(i)));
    }
  }

  lemma CloseKeeps(derive: Derive, s: State)
    requires NumberingInv(s)
    ensures Stored(Next(derive, s, Close))
  {
    hide LoadSequence, Disposed;
    DisposedKeepsNumbers(s.objects, s.current);
    SameObjectsStored(s, s.(objects := Disposed(s.objects, s.current)));
    FewerTasksStored(s.(objects := Disposed(s.objects, s.current)), Next(derive, s, Close));
  }

  lemma StoredKept(derive: Derive, s: State, step: Step)
    requires NumberingInv(s) && Careful(s, step) && !step.Connect?
    ensures Sound(Next(derive, s, step)) && Stored(Next(derive, s, step))
  {
    hide LoadSequence, SaveSequence, SetPeerPublicKey, FinishOpen, Stamped, NumberedInOrder, Linked;
    NextSound(derive, s, step);
    match step
    case Seal(_, _, _) => SealKeeps(derive, s, step);
    case Save(i, works) => SaveKeeps(derive, s, i, works);
    case Send(i) => SendKeeps(derive, s, i);
    case Close => CloseKeeps(derive, s);
    case Crash => FewerTasksStored(s, Next(derive, s, step));
    case PeerKey(encoded) =>
      SetPeerKeepsNumbers(s, encoded);
      SameObjectsStored(s, Next(derive, s, step));
    case StartOpen(_) => SameObjectsStored(s, Next(derive, s, step));
    case EndOpen(i) =>
      if i < |s.opening| {
        FinishOpenKeepsNumbers(s.objects[s.opening[i].crypto], s.opening[i].key, s.opening[i].env);
      }
      SameObjectsStored(s, Next(derive, s, step));
  }

  lemma LinkedKept(derive: Derive, s: State, step: Step)
    requires Sound(s) && Linked(s) && !step.Connect?
    ensures Sound(Next(derive, s, step)) && Linked(Next(derive, s, step))
  {
    hide LoadSequence, SaveSequence, SetPeerPublicKey, FinishOpen;
    NextSound(derive, s, step);
    match step
    case PeerKey(encoded) => SetPeerKeepsNumbers(s, encoded);
    case EndOpen(i) =>
      if i < |s.opening| {
        FinishOpenKeepsNumbers(s.objects[s.opening[i].crypto], s.opening[i].key, s.opening[i].env);
      }
    case _ =>
  }

  /** The invariant behind crash-safe numbering is kept by every careful step. */
  lemma NumberingKeeps(derive: Derive, s: State, step: Step)
    requires NumberingInv(s) && Careful(s, step)
    ensures NumberingInv(Next(derive, s, step))
  {
    hide Stamped, NumberedInOrder, Stored, Linked, Careful, ConnectTo;
    if step.Connect? {
      ConnectKeeps(derive, s, step);
    } else {
      StampedKept(derive, s, step);
      CarefulSeal(s, step);
      OrderKept(derive, s, step);
      StoredKept(derive, s, step);
      LinkedKept(derive, s, step);
    }
  }

  lemma CarefulSeal(s: State, step: Step)
    requires Sound(s) && Careful(s, step)
    ensures step.Seal? ==> Coherent(s)
  {
  }

  lemma {:induction false} CarefulRunKeeps(derive: Derive, s: State, steps: seq<Step>)
    requires NumberingInv(s) && CarefulRun(derive, s, steps)
    ensures NumberingInv(Run(derive, s, steps))
  {
    hide NumberingInv, Next, Careful;
    NumberingSound(s);
    if steps != [] {
      var front, last := steps[..|steps| - 1], steps[|steps| - 1];
      forall i | 0 <= i < |front| ensures Careful(Run(derive, s, front[..i]), front[i]) {
        assert front[..i] == steps[..i];
      }
      CarefulRunKeeps(derive, s, front);
      assert steps[..|steps| - 1] == front;
      NumberingKeeps(derive, Run(derive, s, front), last);
    }
  }

  lemma NumberingSound(s: State)
    requires NumberingInv(s)
    ensures Sound(s)
  {
  }

  lemma StartNumbering(storage: map<string, string>)
    ensures NumberingInv(Start(storage))
  {
  }

  /** On the wire, numbers of a session are in order exactly as far as sealing was. */
  lemma WireNumbers(s: State, i: nat, j: nat)
    requires NumberingInv(s) && i < j < |s.wire| && s.wire[i].msg.sid == s.wire[j].msg.sid
    ensures |s.stamps| == |s.wire| && s.stamps[i] != s.stamps[j]
    ensures s.wire[i].msg.num < s.wire[j].msg.num <==> s.stamps[i] < s.stamps[j]
    ensures s.wire[i].msg.num != s.wire[j].msg.num
  {
    hide Stored, Linked;
    assert Alive(s, s.stamps[i]) && Alive(s, s.stamps[j]);
  }

  /** What a state of a careful run promises. */
  lemma NumberingMeans(s: State)
    requires NumberingInv(s)
    ensures |s.stamps| == |s.wire| && WireDistinct(s.wire)
    ensures forall x :: x in s.wire ==> x.msg.num <= LoadSequence(s.storage, x.msg.sid)
    ensures WireIncreasing(s.wire) <==> SentInSealOrder(s)
  {
    hide LoadSequence, NumberedInOrder, Linked;
    forall i, j | 0 <= i < j < |s.wire| && s.wire[i].msg.sid == s.wire[j].msg.sid
      ensures s.wire[i].msg.num < s.wire[j].msg.num <==> s.stamps[i] < s.stamps[j]
      ensures s.wire[i].msg.num != s.wire[j].msg.num
    {
      WireNumbers(s, i, j);
    }
  }

  /** Crash-safe numbering: in any careful run of connects, closes, crashes, restarts and
      sendCommand calls that overlap in any way, the frames of a session on the wire carry
      pairwise distinct numbers, none above the stored counter; and they are in increasing
      order exactly when they were sent in the order they were sealed. */
  lemma NumberingIsCrashSafe(derive: Derive, storage: map<string, string>, steps: seq<Step>)
    requires CarefulRun(derive, Start(storage), steps)
    ensures var r := Run(derive, Start(storage), steps);
            && |r.stamps| == |r.wire| && WireDistinct(r.wire)
            && (forall x :: x in r.wire ==> x.msg.num <= LoadSequence(r.storage, x.msg.sid))
            && (WireIncreasing(r.wire) <==> SentInSealOrder(r))
  {
    hide NumberingInv, Run, CarefulRun, LoadSequence;
    StartNumbering(storage);
    CarefulRunKeeps(derive, Start(storage), steps);
    NumberingMeans(Run(derive, Start(storage), steps));
  }

  // Sending in turn.

  /** A send takes the earliest call of its session still in flight. Calls that are awaited
      one after the other always do. */
  predicate InTurn(s: State, step: Step) {
    step.Send? && step.at < |s.tasks| ==> forall j :: 0 <= j < step.at ==> s.tasks[j].sid != s.tasks[step.at].sid
  }

  ghost predicate TurnRun(derive: Derive, s: State, steps: seq<Step>)
    requires Sound(s)
  {
    forall i :: 0 <= i < |steps| ==> InTurn(Run(derive, s, steps[..i]), steps[i])
  }

  /** What is in flight was sealed after everything of its session that was sent. */
  ghost predicate TurnInv(s: State) {
    && |s.stamps| == |s.wire| && SentInSealOrder(s)
    && forall t, i :: t in s.tasks && 0 <= i < |s.wire| && s.wire[i].msg.sid == t.sid ==> s.stamps[i] < t.stamp
  }

  lemma TurnKeeps(derive: Derive, s: State, step: Step)
    requires Sound(s) && Stamped(s) && TurnInv(s) && InTurn(s, step)
    ensures TurnInv(Next(derive, s, step))
  {
    hide ConnectTo, SaveSequence, SetPeerPublicKey, FinishOpen, Without;
    match step
    case Connect(_, _, _, _, _) => ConnectLeaves(derive, s, step);
    case Seal(_, _, _) =>
      var r := Next(derive, s, step);
      assert forall t :: t in r.tasks ==> t in s.tasks || t.stamp == |s.made|;
    case Save(i, works) => if i < |s.tasks| { TurnSave(derive, s, i, works); }
    case Send(i) => if i < |s.tasks| && s.tasks[i].Saved? { TurnSend(derive, s, i); }
    case _ =>
  }

  lemma TurnSave(derive: Derive, s: State, i: nat, works: bool)
    requires Sound(s) && TurnInv(s) && i < |s.tasks|
    ensures TurnInv(Next(derive, s, Save(i, works)))
  {
    TasksSubset(s.tasks, i);
    hide SaveSequence, Without;
    var r := Next(derive, s, Save(i, works));
    assert s.tasks[i] in s.tasks;
    if works {
      assert forall t :: t in r.tasks ==> t in s.tasks || (t.sid == s.tasks[i].sid && t.stamp == s.tasks[i].stamp);
    }
  }

  lemma TurnSend(derive: Derive, s: State, i: nat)
    requires Sound(s) && Stamped(s) && TurnInv(s) && i < |s.tasks| && s.tasks[i].Saved?
    requires forall j :: 0 <= j < i ==> s.tasks[j].sid != s.tasks[i].sid
    ensures TurnInv(Next(derive, s, Send(i)))
  {
    TasksSubset(s.tasks, i);
    SentNext(s, i);
    hide Without;
    assert s.tasks[i] in s.tasks;
  }

  /** After the earliest call of a session, the remaining ones were sealed later. */
  lemma SentNext(s: State, i: nat)
    requires Stamped(s) && i < |s.tasks|
    requires forall j :: 0 <= j < i ==> s.tasks[j].sid != s.tasks[i].sid
    ensures forall t :: t in Without(s.tasks, i) && t.sid == s.tasks[i].sid ==> s.tasks[i].stamp < t.stamp
  {
    var rest := Without(s.tasks, i);
    assert forall j :: 0 <= j < |rest| ==> rest[j] == if j < i then s.tasks[j] else s.tasks[j + 1];
    hide Without;
    forall t | t in rest && t.sid == s.tasks[i].sid ensures s.tasks[i].stamp < t.stamp {
      var j :| 0 <= j < |rest| && rest[j] == t;
    }
  }

  lemma {:induction false} TurnRunKeeps(derive: Derive, s: State, steps: seq<Step>)
    requires Sound(s) && Stamped(s) && TurnInv(s) && TurnRun(derive, s, steps)
    ensures Stamped(Run(derive, s, steps)) && TurnInv(Run(derive, s, steps))
  {
    hide Stamped, TurnInv, Next, InTurn;
    if steps != [] {
      var front, last := steps[..|steps| - 1], steps[|steps| - 1];
      forall i | 0 <= i < |front| ensures InTurn(Run(derive, s, front[..i]), front[i]) {
        assert front[..i] == steps[..i];
      }
      TurnRunKeeps(derive, s, front);
      assert steps[..|steps| - 1] == front;
      StampedKept(derive, Run(derive, s, front), last);
      TurnKeeps(derive, Run(derive, s, front), last);
    }
  }

  /** Calls that send in turn put increasing numbers on the wire. */
  lemma InTurnIncreases(derive: Derive, storage: map<string, string>, steps: seq<Step>)
    requires CarefulRun(derive, Start(storage), steps) && TurnRun(derive, Start(storage), steps)
    ensures WireIncreasing(Run(derive, Start(storage), steps).wire)
  {
    hide Run, CarefulRun, TurnRun, NumberingInv, WireIncreasing;
    NumberingIsCrashSafe(derive, storage, steps);
    assert Stamped(Start(storage)) && TurnInv(Start(storage));
    TurnRunKeeps(derive, Start(storage), steps);
  }

  // The boxes of the wire in the order they were sealed.

  function SentUpTo(s: State, n: nat): seq<Sealing>
    requires n <= |s.made|
  {
    if n == 0 then [] else SentUpTo(s, n - 1) + (if n - 1 in s.stamps then [s.made[n - 1]] else [])
  }

  function SentAsSealed(s: State): seq<Sealing> {
    SentUpTo(s, |s.made|)
  }

  lemma {:induction false} SentMembers(s: State, n: nat, x: Sealing)
    requires n <= |s.made|
    ensures x in SentUpTo(s, n) <==> exists a: nat :: a < n && a in s.stamps && s.made[a] == x
  {
    if n > 0 { SentMembers(s, n - 1, x); }
  }

  /** They are the wire's boxes, no more and no fewer. */
  lemma SentIsWire(s: State, x: Sealing)
    requires NumberingInv(s)
    ensures x in SentAsSealed(s) <==> x in s.wire
  {
    SentMembers(s, |s.made|, x);
    if x in s.wire {
      var i :| 0 <= i < |s.wire| && s.wire[i] == x;
      assert s.stamps[i] in s.stamps;
    }
    if a: nat :| a < |s.made| && a in s.stamps && s.made[a] == x {
      var i :| 0 <= i < |s.stamps| && s.stamps[i] == a;
      assert s.wire[i] == x;
    }
  }

  /** And those of one session carry increasing numbers. */
  lemma {:induction false} SentIncreasing(s: State, n: nat, keep: Sealing -> bool, sid: string)
    requires NumberingInv(s) && n <= |s.made| && forall x :: keep(x) ==> x.msg.sid == sid
    ensures Increasing(Filter(SentUpTo(s, n), keep), SealingNum)
  {
    hide Stored, Linked, Stamped;
    if n > 0 {
      SentIncreasing(s, n - 1, keep, sid);
      var front, x := SentUpTo(s, n - 1), s.made[n - 1];
      if n - 1 in s.stamps {
        FilterAppend(front, x, keep);
        if keep(x) {
          forall y | y in Filter(front, keep) ensures y.msg.num < x.msg.num {
            FilterMembers(front, keep, y);
            SentMembers(s, n - 1, y);
            var a: nat :| a < n - 1 && a in s.stamps && s.made[a] == y;
            assert Alive(s, a) && Alive(s, n - 1);
          }
          IncreasingAppend(Filter(front, keep), x, SealingNum);
        }
      } else {
        assert front + [] == front;
      }
    }
  }
}
