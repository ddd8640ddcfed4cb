/** What the pool promises over every run. */
module PoolTheorems {
  import opened Bytes
  import opened Pool
  import PoolProofs

  function After(es: seq<Event>): State { Run(INIT, es) }

  lemma Reached(es: seq<Event>)
    ensures Inv(After(es))
  {
    PoolProofs.RunKeeps(INIT, es);
  }

  /** At most one connection per device key is live, and it is the registered one. */
  lemma OneConnectionPerDevice(es: seq<Event>, e: EntryId, d: EntryId)
    requires e in After(es).live && d in After(es).live
    ensures e in After(es).all && d in After(es).all
    ensures After(es).all[e].key == After(es).all[d].key ==> e == d
    ensures Registered(After(es).entries, After(es).all[e].key, e)
  {
    Reached(es);
    assert EntryAt(After(es), e) && EntryAt(After(es), d);
  }

  /** For an entry with an owner that is not closing, refs is the number of unreleased
      leases and is positive. */
  lemma RefsCountLeases(es: seq<Event>, key: string)
    requires key in After(es).entries
    ensures After(es).entries[key] in After(es).all
    ensures var x := After(es).all[After(es).entries[key]];
      x.owner.Some? && !x.closing ==> x.refs == |Holders(After(es).leases, x.owner)| && x.refs >= 1
  {
    Reached(es);
    assert EntryAt(After(es), After(es).entries[key]);
  }

  /** The device and the two broadcast channels of an entry are closed at most once, and
      an entry that left the pool has closed both channels. */
  lemma ClosedAtMostOnce(es: seq<Event>, e: EntryId)
    requires e in After(es).all
    ensures var x := After(es).all[e];
      && x.deviceCloses <= 1 && x.openingCloses <= 1 && x.closedCloses <= 1
      && (!Registered(After(es).entries, x.key, e) ==> x.openingCloses == 1 && x.closedCloses == 1 && e !in After(es).live)
      && (x.deviceCloses == 1 ==> e !in After(es).live)
  {
    Reached(es);
    assert EntryAt(After(es), e);
  }

  /** A release changes the entry of its own owner or none; if that entry was discarded
      or is being closed it changes none at all, so a replacement is never touched. */
  lemma ReleaseTouchesOwnEntry(es: seq<Event>, t: ThreadId, l: LeaseId)
    requires t !in After(es).threads && l in After(es).leases && !After(es).leases[l].released
    ensures var s, s' := After(es), Apply(After(es), Release(t, l));
      var o := s.leases[l].owner;
      && s'.entries == s.entries && s'.live == s.live && s'.all.Keys == s.all.Keys
      && o in s.owners && s.owners[o] in s.all
      && (forall d :: d in s.all && d != s.owners[o] ==> s'.all[d] == s.all[d])
      && (s.all[s.owners[o]].stage != Open ==> s'.all == s.all && At(s', t, Done))
  {
    var s := After(es);
    Reached(es);
    assert LeaseAt(s, l);
    var e := s.owners[s.leases[l].owner];
    if s.all[e].stage == Open {
      PoolProofs.CountedRelease(s, t, l, e);
    } else {
      PoolProofs.LateRelease(s, t, l);
    }
  }

  /** The steps by which the thread in charge of a stage reaches its broadcasts. */
  function Duties(stage: Stage): seq<Event> {
    match stage
    case Opening(u) => [DialSucceeds(u)]
    case DialFailed(u) => [DropFailed(u)]
    case Closing(u) => [CloseDevice(u), RemoveEntry(u)]
    case DeviceGone(u) => [RemoveEntry(u)]
    case _ => []
  }

  /** A thread waiting on either channel is woken once the thread in charge of the entry,
      if there is one, has taken its own remaining steps. */
  lemma NobodyStranded(es: seq<Event>, t: ThreadId, e: EntryId)
    requires At(After(es), t, AwaitOpen(e)) || At(After(es), t, AwaitClosed(e))
    ensures e in After(es).all
    ensures var s := After(es);
      At(Apply(Run(s, if Broadcast(s, t, e) then [] else Duties(s.all[e].stage)), Wake(t)), t, Ready(s.all[e].key))
  {
    var s := After(es);
    Reached(es);
    assert ThreadAt(s, t);
    assert EntryAt(s, e);
    if !Broadcast(s, t, e) {
      DutiesBroadcast(s, t, e);
    }
  }

  /** The channel the thread waits on is closed already. */
  predicate Broadcast(s: State, t: ThreadId, e: EntryId)
    requires t in s.threads && e in s.all
  {
    if s.threads[t].AwaitOpen? then s.all[e].openingCloses > 0 else s.all[e].closedCloses > 0
  }

  lemma DutiesBroadcast(s: State, t: ThreadId, e: EntryId)
    requires ThreadAt(s, t) && EntryAt(s, e) && (s.threads[t] == AwaitOpen(e) || s.threads[t] == AwaitClosed(e))
    requires !Broadcast(s, t, e)
    ensures var s' := Run(s, Duties(s.all[e].stage));
      t in s'.threads && s'.threads[t] == s.threads[t] && e in s'.all && s'.all[e].key == s.all[e].key && Broadcast(s', t, e)
  {
    hide Holders;
    match s.all[e].stage
    case Closing(u) =>
      var s1 := Apply(s, CloseDevice(u));
      assert s1 == CloseDeviceAt(s, u, e, s.threads[u].retry);
      var s2 := Apply(s1, RemoveEntry(u));
      assert Run(s, [CloseDevice(u), RemoveEntry(u)]) == Run(s1, [RemoveEntry(u)]) by {
        assert [CloseDevice(u), RemoveEntry(u)][1..] == [RemoveEntry(u)];
      }
      OneStep(s1, RemoveEntry(u));
      assert s2 == RemoveAt(s1, u, e, s.threads[u].retry);
    case DeviceGone(u) => OneStep(s, RemoveEntry(u));
    case Opening(u) => OneStep(s, DialSucceeds(u));
    case DialFailed(u) => OneStep(s, DropFailed(u));
    case _ =>
  }

  lemma OneStep(s: State, ev: Event)
    ensures Run(s, [ev]) == Apply(s, ev)
  {
    assert [ev][1..] == [];
  }

  lemma LookSparesGone(s: State, e: EntryId, t: ThreadId, key: string)
    requires e in s.all && e != s.nextEntry && !Registered(s.entries, key, e)
    ensures e in LookAt(s, t, key).all && LookAt(s, t, key).all[e] == s.all[e]
  {
  }

  lemma ReleaseSparesGone(s: State, e: EntryId, t: ThreadId, key: string, o: OwnerId)
    requires e in s.all && !Registered(s.entries, key, e)
    ensures e in ReleaseAt(s, t, key, o).all && ReleaseAt(s, t, key, o).all[e] == s.all[e]
  {
  }

  lemma NobodyWorksOnGone(s: State, e: EntryId, t: ThreadId)
    requires Inv(s) && e in s.all && s.all[e].stage == Gone
    ensures PoolProofs.Task(s.threads, t) != Some(e)
  {
    if t in s.threads { assert ThreadAt(s, t); }
  }

  lemma WorkSparesGone(s: State, e: EntryId, t: ThreadId)
    requires Inv(s) && e in s.all && s.all[e].stage == Gone
    ensures PoolProofs.Task(s.threads, t).Some? && PoolProofs.Task(s.threads, t).value in s.all ==>
      var d := PoolProofs.Task(s.threads, t).value;
      SparedBy(s, e, FinishDial(s, t, d)) && SparedBy(s, e, FailDial(s, t, d))
      && (forall retry :: SparedBy(s, e, CloseDeviceAt(s, t, d, retry)) && SparedBy(s, e, RemoveAt(s, t, d, retry)))
  {
    NobodyWorksOnGone(s, e, t);
    hide Inv;
  }

  ghost predicate SparedBy(s: State, e: EntryId, s': State)
    requires e in s.all
  {
    e in s'.all && s'.all[e] == s.all[e]
  }

  lemma GoneIsUnlisted(s: State, e: EntryId)
    requires Inv(s) && e in s.all && s.all[e].stage == Gone
    ensures e != s.nextEntry && forall key :: !Registered(s.entries, key, e)
  {
    assert EntryAt(s, e) && Keyed(s);
    hide EntriesOk, ThreadsOk, OwnersOk, LeasesOk, Holders;
  }

  /** An entry that left the pool never changes again and never comes back. */
  lemma GoneStays(s: State, e: EntryId, ev: Event)
    requires Inv(s) && e in s.all && s.all[e].stage == Gone
    ensures e in Apply(s, ev).all && Apply(s, ev).all[e] == s.all[e]
  {
    GoneIsUnlisted(s, e);
    if ev.Look? {
      hide Inv, LookAt;
      if ev.t in s.threads && s.threads[ev.t].Ready? { LookSparesGone(s, e, ev.t, s.threads[ev.t].key); }
    } else if ev.Release? {
      hide Inv, ReleaseAt;
      if !(ev.t in s.threads || ev.lease !in s.leases || s.leases[ev.lease].released) {
        ReleaseSparesGone(PoolProofs.Given(s, ev.lease), e, ev.t, s.leases[ev.lease].key, s.leases[ev.lease].owner);
      }
    } else if Actor(ev).Some? {
      WorkSparesGone(s, e, Actor(ev).value);
      NobodyWorksOnGone(s, e, Actor(ev).value);
      hide Inv, FinishDial, FailDial, CloseDeviceAt, RemoveAt;
    } else {
      hide Inv;
    }
  }

  lemma {:induction false} GoneForever(s: State, e: EntryId, es: seq<Event>)
    requires Inv(s) && e in s.all && s.all[e].stage == Gone
    ensures e in Run(s, es).all && Run(s, es).all[e] == s.all[e] && e !in Run(s, es).live
    ensures !Registered(Run(s, es).entries, s.all[e].key, e)
    decreases es
  {
    if es == [] {
      assert EntryAt(s, e);
    } else {
      GoneStays(s, e, es[0]);
      PoolProofs.ApplyKeeps(s, es[0]);
      GoneForever(Apply(s, es[0]), e, es[1..]);
    }
  }

  // ---- what becomes of a thread ----

  /** The thread whose step this is. */
  function Actor(ev: Event): Option<ThreadId> {
    match ev
    case OwnerDies(_) => None
    case Enter(t, _) => Some(t)
    case Look(t) => Some(t)
    case DialSucceeds(t) => Some(t)
    case DialFails(t) => Some(t)
    case DropFailed(t) => Some(t)
    case Wake(t) => Some(t)
    case GiveUp(t) => Some(t)
    case Release(t, _) => Some(t)
    case CloseDevice(t) => Some(t)
    case RemoveEntry(t) => Some(t)
  }

  /** The thread takes no step in the run. */
  ghost predicate Rests(t: ThreadId, es: seq<Event>) {
    forall i :: 0 <= i < |es| ==> Actor(es[i]) != Some(t)
  }

  lemma {:induction false} RunAppend(s: State, a: seq<Event>, b: seq<Event>)
    ensures Run(s, a + b) == Run(Run(s, a), b)
    decreases a
  {
    hide Apply;
    if a == [] {
      assert a + b == b;
    } else {
      assert (a + b)[1..] == a[1..] + b;
      RunAppend(Apply(s, a[0]), a[1..], b);
    }
  }

  lemma ThenStep(s: State, a: seq<Event>, ev: Event)
    ensures Run(s, a + [ev]) == Apply(Run(s, a), ev)
  {
    hide Apply;
    RunAppend(s, a, [ev]);
    OneStep(Run(s, a), ev);
  }

  lemma OthersLeave(s: State, t: ThreadId, p: Phase, ev: Event)
    requires At(s, t, p) && Actor(ev) != Some(t)
    ensures At(Apply(s, ev), t, p)
  {
  }

  lemma KeyStays(s: State, e: EntryId, ev: Event)
    requires e in s.all && e != s.nextEntry
    ensures e in Apply(s, ev).all && Apply(s, ev).all[e].key == s.all[e].key
  {
    hide LookAt, ReleaseAt, RemoveAt;
    match ev
    case Look(t) => if t in s.threads && s.threads[t].Ready? { LookKeepsKey(s, t, s.threads[t].key, e); }
    case Release(t, l) =>
      if !(t in s.threads || l !in s.leases || s.leases[l].released) {
        ReleaseKeepsKey(PoolProofs.Given(s, l), t, s.leases[l].key, s.leases[l].owner, e);
      }
    case RemoveEntry(t) =>
      if t in s.threads && s.threads[t].RemovingEntry? && s.threads[t].entry in s.all {
        RemoveKeepsKey(s, t, s.threads[t].entry, s.threads[t].retry, e);
      }
    case _ =>
  }

  lemma LookKeepsKey(s: State, t: ThreadId, key: string, e: EntryId)
    requires e in s.all && e != s.nextEntry
    ensures e in LookAt(s, t, key).all && LookAt(s, t, key).all[e].key == s.all[e].key
  {
  }

  lemma ReleaseKeepsKey(s: State, t: ThreadId, key: string, o: OwnerId, e: EntryId)
    requires e in s.all
    ensures e in ReleaseAt(s, t, key, o).all && ReleaseAt(s, t, key, o).all[e].key == s.all[e].key
  {
  }

  lemma RemoveKeepsKey(s: State, t: ThreadId, d: EntryId, retry: bool, e: EntryId)
    requires e in s.all && d in s.all
    ensures e in RemoveAt(s, t, d, retry).all && RemoveAt(s, t, d, retry).all[e].key == s.all[e].key
  {
  }

  /** While a thread rests its phase stays, and the key of an entry stays anyway. */
  lemma {:induction false} Resting(s: State, t: ThreadId, p: Phase, e: EntryId, es: seq<Event>)
    requires Inv(s) && At(s, t, p) && Rests(t, es) && e in s.all
    ensures var s' := Run(s, es); Inv(s') && At(s', t, p) && e in s'.all && s'.all[e].key == s.all[e].key
    decreases es
  {
    hide Inv, Apply;
    if es != [] {
      assert Actor(es[0]) != Some(t);
      OthersLeave(s, t, p, es[0]);
      PoolProofs.FreshIds(s);
      KeyStays(s, e, es[0]);
      PoolProofs.ApplyKeeps(s, es[0]);
      Resting(Apply(s, es[0]), t, p, e, es[1..]);
    }
  }

  lemma DeviceClosed(s: State, t: ThreadId, e: EntryId, retry: bool)
    requires Inv(s) && At(s, t, ClosingDevice(e, retry))
    ensures var s' := Apply(s, CloseDevice(t));
      At(s', t, RemovingEntry(e, retry)) && e in s.all && e in s'.all && s'.all[e].key == s.all[e].key && e !in s'.live
  {
    assert ThreadAt(s, t);
    hide Inv;
  }

  lemma EntryRemoved(s: State, t: ThreadId, e: EntryId, retry: bool)
    requires Inv(s) && At(s, t, RemovingEntry(e, retry))
    ensures e in s.all
    ensures var s', key := Apply(s, RemoveEntry(t)), s.all[e].key;
      && At(s', t, if retry then Ready(key) else Done) && key !in s'.entries
      && e in s'.all && s'.all[e].stage == Gone && s'.all[e].closedCloses == 1 && s'.all[e].deviceCloses == 1
  {
    assert ThreadAt(s, t);
    assert EntryAt(s, e);
    hide Inv, Holders;
  }

  /** The run in which a thread closes the device of its entry and takes the entry out,
      with any steps of others in between. */
  function CloseRun(t: ThreadId, a: seq<Event>, b: seq<Event>): seq<Event> {
    a + [CloseDevice(t)] + b + [RemoveEntry(t)]
  }

  lemma ClosePath(s: State, t: ThreadId, e: EntryId, retry: bool, a: seq<Event>, b: seq<Event>)
    requires Inv(s) && At(s, t, ClosingDevice(e, retry)) && Rests(t, a) && Rests(t, b)
    ensures e in s.all
    ensures var s', key := Run(s, CloseRun(t, a, b)), s.all[e].key;
      && Inv(s') && At(s', t, if retry then Ready(key) else Done) && key !in s'.entries
      && e in s'.all && s'.all[e].stage == Gone && s'.all[e].closedCloses == 1 && s'.all[e].deviceCloses == 1
  {
    assert ThreadAt(s, t);
    hide Inv, Apply, At;
    ThenStep(s, a, CloseDevice(t));
    RunAppend(s, a + [CloseDevice(t)], b);
    ThenStep(s, a + [CloseDevice(t)] + b, RemoveEntry(t));
    hide Run;
    Resting(s, t, ClosingDevice(e, retry), e, a);
    var s1 := Run(s, a);
    DeviceClosed(s1, t, e, retry);
    PoolProofs.ApplyKeeps(s1, CloseDevice(t));
    var s2 := Apply(s1, CloseDevice(t));
    Resting(s2, t, RemovingEntry(e, retry), e, b);
    EntryRemoved(Run(s2, b), t, e, retry);
    PoolProofs.ApplyKeeps(Run(s2, b), RemoveEntry(t));
  }

  /** acquire with a dead owner under its key: whatever others do meanwhile, once it has
      closed the device and taken the entry out the key is free, the thread is back at
      the top of its loop, and its next look at a free key dials a new connection. */
  lemma StaleIsReplaced(before: seq<Event>, t: ThreadId, key: string, a: seq<Event>, b: seq<Event>, c: seq<Event>)
    requires At(After(before), t, Ready(key)) && key in After(before).entries && After(before).entries[key] in After(before).all
    requires var x := After(before).all[After(before).entries[key]];
      !x.closing && x.owner.Some? && x.owner.value in After(before).dead
    requires Rests(t, a) && Rests(t, b) && Rests(t, c)
    ensures var s := After(before + [Look(t)] + CloseRun(t, a, b)); At(s, t, Ready(key)) && key !in s.entries
    ensures var s := After(before + [Look(t)] + CloseRun(t, a, b) + c);
      && At(s, t, Ready(key))
      && (key !in s.entries ==>
            var s' := Apply(s, Look(t));
            key in s'.entries && At(s', t, Dialing(s'.entries[key])) && s'.entries[key] in s'.live && s'.entries[key] !in s.all)
  {
    var s0 := After(before);
    Reached(before);
    var e := s0.entries[key];
    StaleLook(s0, t, key);
    var s1 := Apply(s0, Look(t));
    hide Inv, Apply, At, CloseRun;
    PoolProofs.ApplyKeeps(s0, Look(t));
    ThenStep(INIT, before, Look(t));
    RunAppend(INIT, before + [Look(t)], CloseRun(t, a, b));
    RunAppend(INIT, before + [Look(t)] + CloseRun(t, a, b), c);
    hide Run;
    ClosePath(s1, t, e, true, a, b);
    var s2 := Run(s1, CloseRun(t, a, b));
    Resting(s2, t, Ready(key), e, c);
    if key !in Run(s2, c).entries { FreeKeyDials(Run(s2, c), t, key); }
  }

  lemma StaleLook(s: State, t: ThreadId, key: string)
    requires Inv(s) && At(s, t, Ready(key)) && key in s.entries && s.entries[key] in s.all
    requires var x := s.all[s.entries[key]]; !x.closing && x.owner.Some? && x.owner.value in s.dead
    ensures var s', e := Apply(s, Look(t)), s.entries[key];
      At(s', t, ClosingDevice(e, true)) && e in s'.all && s'.all[e].key == key
  {
    hide EntriesOk, ThreadsOk, OwnersOk, LeasesOk;
  }

  /** A look at a free key puts a new entry there, which this thread dials. */
  lemma FreeKeyDials(s: State, t: ThreadId, key: string)
    requires Inv(s) && At(s, t, Ready(key)) && key !in s.entries
    ensures var s' := Apply(s, Look(t));
      key in s'.entries && At(s', t, Dialing(s'.entries[key])) && s'.entries[key] in s'.live && s'.entries[key] !in s.all
  {
    PoolProofs.FreshIds(s);
    hide Inv;
  }

  /** The release of the only lease an open entry has left: whatever others do meanwhile,
      once the thread has closed the device and taken the entry out it returns, and the
      key is free. */
  lemma LastReleaseCloses(before: seq<Event>, t: ThreadId, l: LeaseId, e: EntryId, a: seq<Event>, b: seq<Event>)
    requires t !in After(before).threads && l in After(before).leases && !After(before).leases[l].released
    requires After(before).leases[l].owner in After(before).owners && After(before).owners[After(before).leases[l].owner] == e
    requires e in After(before).all && After(before).all[e].stage == Open
    requires Holders(After(before).leases, Some(After(before).leases[l].owner)) == {l}
    requires Rests(t, a) && Rests(t, b)
    ensures var s := After(before + [Release(t, l)] + CloseRun(t, a, b));
      && At(s, t, Done) && After(before).leases[l].key !in s.entries
      && e in s.all && s.all[e].stage == Gone && s.all[e].deviceCloses == 1
  {
    var s0 := After(before);
    Reached(before);
    var s1 := Apply(s0, Release(t, l));
    var key := s0.leases[l].key;
    LastRelease(s0, t, l, e);
    hide Inv, Apply, At, CloseRun, Holders;
    PoolProofs.ApplyKeeps(s0, Release(t, l));
    ThenStep(INIT, before, Release(t, l));
    RunAppend(INIT, before + [Release(t, l)], CloseRun(t, a, b));
    hide Run;
    ClosePath(s1, t, e, false, a, b);
  }

  lemma LastRelease(s: State, t: ThreadId, l: LeaseId, e: EntryId)
    requires Inv(s) && t !in s.threads && l in s.leases && !s.leases[l].released
    requires s.leases[l].owner in s.owners && s.owners[s.leases[l].owner] == e && e in s.all && s.all[e].stage == Open
    requires Holders(s.leases, Some(s.leases[l].owner)) == {l}
    ensures var s' := Apply(s, Release(t, l));
      At(s', t, ClosingDevice(e, false)) && e in s'.all && s'.all[e].key == s.leases[l].key
  {
    assert LeaseAt(s, l) && OwnerAt(s, s.leases[l].owner) && EntryAt(s, e);
    assert |Holders(s.leases, Some(s.leases[l].owner))| == 1;
    var key, o := s.leases[l].key, s.leases[l].owner;
    assert Registered(s.entries, key, e) && s.all[e].owner == Some(o) && s.all[e].refs == 1 && !s.all[e].closing && s.all[e].key == key;
    hide Inv, Holders, EntryAt, EntryOk, LeaseAt, OwnerAt;
    PoolProofs.ReleaseIs(s, t, l);
    hide Apply;
    LastLeft(PoolProofs.Given(s, l), t, key, o, e);
  }

  lemma LastLeft(s: State, t: ThreadId, key: string, o: OwnerId, e: EntryId)
    requires e in s.all && Registered(s.entries, key, e) && s.all[e].owner == Some(o) && s.all[e].refs == 1 && !s.all[e].closing
    ensures var s' := ReleaseAt(s, t, key, o); At(s', t, ClosingDevice(e, false)) && e in s'.all && s'.all[e].key == s.all[e].key
  {
  }

  /** A dial that works: the thread returns with a new lease, counted by its entry, and
      those waiting for the dial are woken. */
  lemma DialedIsLeased(es: seq<Event>, t: ThreadId, e: EntryId)
    requires At(After(es), t, Dialing(e))
    ensures e in After(es).all
    ensures var s, s' := After(es), Apply(After(es), DialSucceeds(t));
      var key := s.all[e].key;
      && At(s', t, Done) && Registered(s'.entries, key, e) && e in s'.live && s'.all[e].stage == Open
      && s'.all[e].openingCloses == 1 && s'.all[e].refs == 1 && s'.all[e].owner.Some?
      && s.nextLease in s'.leases && s'.leases[s.nextLease] == Lease(key, s'.all[e].owner.value, false)
      && Holders(s'.leases, s'.all[e].owner) == {s.nextLease}
  {
    var s := After(es);
    Reached(es);
    assert ThreadAt(s, t);
    assert EntryAt(s, e);
    NobodyHolds(s, s.nextOwner);
    hide Inv;
  }

  lemma NobodyHolds(s: State, o: OwnerId)
    requires Inv(s) && o >= s.nextOwner
    ensures Holders(s.leases, Some(o)) == {} && s.nextLease !in s.leases
  {
    assert forall l :: l in s.leases ==> LeaseAt(s, l);
    assert forall p :: p in s.owners ==> OwnerAt(s, p);
    hide Inv;
  }

  /** A dial that fails: whatever others do before the thread cleans up, it returns, the
      key is free again, nothing is live and everyone waiting on the entry is woken. */
  lemma FailedDialFrees(before: seq<Event>, t: ThreadId, e: EntryId, a: seq<Event>)
    requires At(After(before), t, Dialing(e)) && Rests(t, a)
    ensures e in After(before).all
    ensures var s, key := After(before + [DialFails(t)] + a + [DropFailed(t)]), After(before).all[e].key;
      && At(s, t, Done) && key !in s.entries && e !in s.live && e in s.all
      && s.all[e].openingCloses == 1 && s.all[e].closedCloses == 1 && s.all[e].deviceCloses == 0
  {
    var s0 := After(before);
    Reached(before);
    assert ThreadAt(s0, t);
    var s1 := Apply(s0, DialFails(t));
    assert At(s1, t, CleaningUp(e)) && e in s1.all && s1.all[e].key == s0.all[e].key;
    hide Inv, Apply, At;
    PoolProofs.ApplyKeeps(s0, DialFails(t));
    ThenStep(INIT, before, DialFails(t));
    RunAppend(INIT, before + [DialFails(t)], a);
    ThenStep(INIT, before + [DialFails(t)] + a, DropFailed(t));
    hide Run;
    Resting(s1, t, CleaningUp(e), e, a);
    Dropped(Run(s1, a), t, e);
  }

  lemma Dropped(s: State, t: ThreadId, e: EntryId)
    requires Inv(s) && At(s, t, CleaningUp(e))
    ensures e in s.all
    ensures var s', key := Apply(s, DropFailed(t)), s.all[e].key;
      && At(s', t, Done) && key !in s'.entries && e !in s'.live && e in s'.all
      && s'.all[e].openingCloses == 1 && s'.all[e].closedCloses == 1 && s'.all[e].deviceCloses == 0
  {
    assert ThreadAt(s, t);
    assert EntryAt(s, e);
    hide Inv, Holders;
  }

  /** A new call starts at the top of the loop of acquire; a waiting one whose context is
      cancelled returns, and neither touches an entry or a lease. */
  lemma CallsComeAndGo(s: State, t: ThreadId, key: string)
    ensures t !in s.threads ==> At(Apply(s, Enter(t, key)), t, Ready(key))
    ensures t in s.threads && (s.threads[t].AwaitOpen? || s.threads[t].AwaitClosed?) ==> At(Apply(s, GiveUp(t)), t, Done)
    ensures var u, v := Apply(s, Enter(t, key)), Apply(s, GiveUp(t));
      u == s.(threads := u.threads) && v == s.(threads := v.threads)
  {
  }

  /** Every lease of the owner that s' has was in s. */
  ghost predicate NoNewLease(s: State, s': State, o: OwnerId) {
    forall l :: l in s'.leases && s'.leases[l].owner == o ==> l in s.leases && s.leases[l].owner == o
  }

  lemma DeadStep(s: State, o: OwnerId, ev: Event)
    requires o in s.owners && o < s.nextOwner && o in s.dead
    ensures var s' := Apply(s, ev); o in s'.owners && o in s'.dead && NoNewLease(s, s', o)
  {
    hide LookAt, ReleaseAt, RemoveAt, NoNewLease;
    SameLeases(s, o);
    match ev
    case Look(t) => if t in s.threads && s.threads[t].Ready? { DeadLook(s, t, s.threads[t].key, o); }
    case Release(t, l) =>
      if !(t in s.threads || l !in s.leases || s.leases[l].released) {
        DeadRelease(s, l, t, o);
      }
    case DialSucceeds(t) =>
      if t in s.threads && s.threads[t].Dialing? && s.threads[t].entry in s.all { DeadDial(s, t, s.threads[t].entry, o); }
    case RemoveEntry(t) =>
      if t in s.threads && s.threads[t].RemovingEntry? && s.threads[t].entry in s.all {
        DeadRemove(s, t, s.threads[t].entry, s.threads[t].retry);
      }
    case _ => SameLeases(Apply(s, ev), o);
  }

  lemma SameLeases(s: State, o: OwnerId)
    ensures forall s': State :: s'.leases == s.leases ==> NoNewLease(s, s', o)
  {
  }

  lemma DeadLook(s: State, t: ThreadId, key: string, o: OwnerId)
    requires o in s.owners && o in s.dead
    ensures var s' := LookAt(s, t, key); s'.owners == s.owners && s'.dead == s.dead && NoNewLease(s, s', o)
  {
  }

  lemma DeadRelease(s: State, l: LeaseId, t: ThreadId, o: OwnerId)
    requires l in s.leases
    ensures var s' := ReleaseAt(PoolProofs.Given(s, l), t, s.leases[l].key, s.leases[l].owner);
      s'.owners == s.owners && s'.dead == s.dead && NoNewLease(s, s', o)
  {
  }

  lemma DeadDial(s: State, t: ThreadId, e: EntryId, o: OwnerId)
    requires e in s.all && o in s.owners && o < s.nextOwner
    ensures var s' := FinishDial(s, t, e); o in s'.owners && s'.dead == s.dead && NoNewLease(s, s', o)
  {
  }

  lemma DeadRemove(s: State, t: ThreadId, e: EntryId, retry: bool)
    requires e in s.all
    ensures var s' := RemoveAt(s, t, e, retry); s'.owners == s.owners && s'.dead == s.dead && s'.leases == s.leases
  {
  }

  /** No lease of an owner is given out once the owner has died. */
  lemma {:induction false} DeadIsNotLeased(s: State, o: OwnerId, es: seq<Event>, l: LeaseId)
    requires Inv(s) && o in s.owners && l in Run(Apply(s, OwnerDies(o)), es).leases
    requires Run(Apply(s, OwnerDies(o)), es).leases[l].owner == o
    ensures l in s.leases && s.leases[l].owner == o
    decreases es
  {
    if es != [] {
      var d := Apply(s, OwnerDies(o));
      PoolProofs.ApplyKeeps(s, OwnerDies(o));
      assert OwnerAt(d, o);
      DeadStep(d, o, es[0]);
      var s' := Apply(d, es[0]);
      PoolProofs.ApplyKeeps(d, es[0]);
      assert Apply(s', OwnerDies(o)) == s' by {
        assert s'.dead + {o} == s'.dead;
      }
      hide Inv, Apply;
      DeadIsNotLeased(s', o, es[1..], l);
    }
  }
}
