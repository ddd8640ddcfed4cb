/** Every step of the pool keeps its invariant. */
module PoolProofs {
  import opened Bytes
  import opened Pool

  /** The thread an unfinished stage names. */
  function Worker(stage: Stage): Option<ThreadId> {
    match stage
    case Opening(t) => Some(t)
    case DialFailed(t) => Some(t)
    case Closing(t) => Some(t)
    case DeviceGone(t) => Some(t)
    case _ => None
  }

  /** The entry a phase works on. */
  function Task(threads: map<ThreadId, Phase>, t: ThreadId): Option<EntryId> {
    if t !in threads then None
    else
      match threads[t]
      case Dialing(e) => Some(e)
      case CleaningUp(e) => Some(e)
      case ClosingDevice(e, _) => Some(e)
      case RemovingEntry(e, _) => Some(e)
      case _ => None
  }

  /** How one step may change an entry without breaking a promise to waiting threads. */
  ghost predicate Later(x: Entry, y: Entry) {
    && y.key == x.key
    && (x.owner.Some? ==> y.owner == x.owner)
    && (x.openingCloses > 0 || x.stage.Opening? || x.stage.DialFailed? ==>
          y.openingCloses > 0 || y.stage.Opening? || y.stage.DialFailed?)
    && (x.closedCloses > 0 || x.stage.Closing? || x.stage.DeviceGone? ==>
          y.closedCloses > 0 || y.stage.Closing? || y.stage.DeviceGone?)
  }

  /** Thread t moves entry e: nothing else that another entry depends on changes. */
  ghost predicate OnlyEntry(s: State, s': State, e: EntryId) {
    && s.nextEntry <= s'.nextEntry
    && (forall d :: d in s'.all && d != e ==> d in s.all)
    && (forall d :: d in s.all && d != e ==> d in s'.all && s'.all[d] == s.all[d])
    && (forall d :: d != e ==> (d in s'.live <==> d in s.live))
    && (forall k, d :: d != e ==> (Registered(s'.entries, k, d) <==> Registered(s.entries, k, d)))
    && (forall o :: o in s.owners ==> o in s'.owners && s'.owners[o] == s.owners[o])
    && (forall d :: d in s.all && d != e ==> Holders(s'.leases, s.all[d].owner) == Holders(s.leases, s.all[d].owner))
  }

  ghost predicate OnlyThread(s: State, s': State, t: ThreadId) {
    forall u :: u != t ==> (u in s'.threads <==> u in s.threads) && (u in s.threads ==> s'.threads[u] == s.threads[u])
  }

  /** The thread that moves worked for this entry or for none. */
  ghost predicate Free(s: State, t: ThreadId, e: EntryId) {
    Task(s.threads, t) == None || Task(s.threads, t) == Some(e)
  }

  lemma WorkerUndisturbed(s: State, s': State, t: ThreadId, e: EntryId, d: EntryId, stage: Stage)
    requires WorkerOk(s.threads, d, stage) && d != e && Free(s, t, e) && OnlyThread(s, s', t)
    ensures WorkerOk(s'.threads, d, stage)
  {
  }

  lemma OthersKeep(s: State, s': State, t: ThreadId, e: EntryId)
    requires EntriesOk(s) && OnlyEntry(s, s', e) && OnlyThread(s, s', t) && Free(s, t, e)
    requires e in s'.all ==> EntryAt(s', e)
    ensures EntriesOk(s')
  {
    forall d | d in s'.all ensures EntryAt(s', d) {
      if d != e {
        assert EntryAt(s, d);
        OtherKeeps(s, s', t, e, d);
      }
    }
  }

  lemma OtherKeeps(s: State, s': State, t: ThreadId, e: EntryId, d: EntryId)
    requires EntryAt(s, d) && d != e && d in s'.all && OnlyEntry(s, s', e) && OnlyThread(s, s', t) && Free(s, t, e)
    ensures EntryAt(s', d)
  {
    WorkerUndisturbed(s, s', t, e, d, s.all[d].stage);
    hide WorkerOk, EntryOk, Holders, OnlyThread, Free;
    assert s'.all[d] == s.all[d];
  }

  /** Threads other than the one that moves keep their footing. */
  lemma ThreadsKeep(s: State, s': State, t: ThreadId, e: EntryId)
    requires ThreadsOk(s) && OnlyThread(s, s', t)
    requires forall d :: d in s.all && d != e ==> d in s'.all && s'.all[d] == s.all[d]
    requires e in s.all ==> e in s'.all && Later(s.all[e], s'.all[e])
    requires e in s.all ==> Worker(s.all[e].stage) in {None, Some(t)} || s'.all[e].stage == s.all[e].stage
    requires t in s'.threads ==> ThreadAt(s', t)
    ensures ThreadsOk(s')
  {
    forall u | u in s'.threads ensures ThreadAt(s', u) {
      if u != t {
        assert ThreadAt(s, u);
      }
    }
  }

  /** A step of thread t on the present entry e keeps the invariant if it treats e and
      t correctly and stays within them. */
  lemma StepKeeps(s: State, s': State, t: ThreadId, e: EntryId)
    requires Inv(s) && e in s.all && OnlyEntry(s, s', e) && OnlyThread(s, s', t) && Free(s, t, e)
    requires EntryAt(s', e) && ThreadAt(s', t) && Later(s.all[e], s'.all[e])
    requires Worker(s.all[e].stage) in {None, Some(t)} || s'.all[e].stage == s.all[e].stage
    requires Keyed(s') && OwnersOk(s') && LeasesOk(s')
    ensures Inv(s')
  {
    OthersKeep(s, s', t, e);
    ThreadsKeep(s, s', t, e);
  }

  /** The shape of a step: entry e becomes y, thread t goes to p, e may leave the pool's
      table or the live connections, other owners' leases stay. */
  ghost predicate Shape(s: State, s': State, e: EntryId, y: Entry, t: ThreadId, p: Phase) {
    && e in s.all && s'.all == s.all[e := y] && s'.threads == s.threads[t := p]
    && s'.nextEntry == s.nextEntry && y.key == s.all[e].key
    && (s'.live == s.live || s'.live == s.live - {e})
    && (s'.entries == s.entries || (Registered(s.entries, y.key, e) && s'.entries == s.entries - {y.key}))
    && (forall o :: o in s.owners ==> o in s'.owners && s'.owners[o] == s.owners[o])
    && (forall d :: d in s.all && d != e ==> Holders(s'.leases, s.all[d].owner) == Holders(s.leases, s.all[d].owner))
  }

  lemma ShapeFrame(s: State, s': State, e: EntryId, y: Entry, t: ThreadId, p: Phase)
    requires Shape(s, s', e, y, t, p)
    ensures OnlyEntry(s, s', e) && OnlyThread(s, s', t)
  {
    hide Holders;
  }

  lemma ShapeKeyed(s: State, s': State, e: EntryId, y: Entry, t: ThreadId, p: Phase)
    requires Shape(s, s', e, y, t, p) && Keyed(s)
    ensures Keyed(s')
  {
    hide Holders;
  }

  /** Thread t, busy with nothing or with e, takes e from x to y and goes on to p:
      either it alone was in charge of e, or it leaves the stage as it found it. */
  ghost predicate Handover(x: Entry, y: Entry, task: Option<EntryId>, e: EntryId, t: ThreadId, p: Phase) {
    && (task == None || task == Some(e))
    && Later(x, y)
    && (if y.stage == x.stage then task == None && p.Done? else Worker(x.stage) in {None, Some(t)} && Does(y.stage, e, t, p))
  }

  ghost predicate Does(stage: Stage, e: EntryId, t: ThreadId, p: Phase) {
    match stage
    case Opening(u) => u == t && p == Dialing(e)
    case DialFailed(u) => u == t && p == CleaningUp(e)
    case Open => p.Done?
    case Closing(u) => u == t && p.ClosingDevice? && p.entry == e
    case DeviceGone(u) => u == t && p.RemovingEntry? && p.entry == e
    case Gone => p.Done? || p.Ready?
  }

  lemma HandoverOk(s: State, e: EntryId, y: Entry, t: ThreadId, p: Phase)
    requires e in s.all && WorkerOk(s.threads, e, s.all[e].stage)
    requires Handover(s.all[e], y, Task(s.threads, t), e, t, p)
    ensures WorkerOk(s.threads[t := p], e, y.stage) && ThreadOk(s.all[e := y], t, p)
  {
  }

  ghost predicate NewEntryOk(s': State, e: EntryId, y: Entry) {
    && EntryOk(y, Registered(s'.entries, y.key, e), e in s'.live, |Holders(s'.leases, y.owner)|)
    && OwnerOk(s'.owners, e, y.owner)
  }

  lemma ShapeKeeps(s: State, s': State, e: EntryId, y: Entry, t: ThreadId, p: Phase)
    requires Inv(s) && Shape(s, s', e, y, t, p) && Handover(s.all[e], y, Task(s.threads, t), e, t, p)
    requires NewEntryOk(s', e, y) && OwnersOk(s') && LeasesOk(s')
    ensures Inv(s')
  {
    ShapeFrame(s, s', e, y, t, p);
    ShapeKeyed(s, s', e, y, t, p);
    Facts(s, t, e);
    HandoverOk(s, e, y, t, p);
    hide OnlyEntry, OnlyThread, Keyed, OwnersOk, LeasesOk, EntriesOk, ThreadsOk, EntryOk, OwnerOk, WorkerOk, ThreadOk, Later, Holders, Registered;
    StepKeeps(s, s', t, e);
  }

  lemma PlainTies(s: State, s': State, e: EntryId, y: Entry, t: ThreadId, p: Phase)
    requires OwnersOk(s) && LeasesOk(s) && Shape(s, s', e, y, t, p) && Later(s.all[e], y)
    requires s'.owners == s.owners && s'.nextOwner == s.nextOwner && s'.leases == s.leases && s'.nextLease == s.nextLease
    ensures OwnersOk(s') && LeasesOk(s')
  {
    hide OwnersOk, LeasesOk, Later, Holders;
    TiesKeep(s, s', e);
  }

  /** The same for a step that touches neither owners nor leases. */
  lemma PlainKeeps(s: State, s': State, e: EntryId, y: Entry, t: ThreadId, p: Phase)
    requires Inv(s) && Shape(s, s', e, y, t, p) && Handover(s.all[e], y, Task(s.threads, t), e, t, p)
    requires s'.owners == s.owners && s'.nextOwner == s.nextOwner && s'.leases == s.leases && s'.nextLease == s.nextLease
    requires y.owner == s.all[e].owner
    requires EntryOk(y, Registered(s'.entries, y.key, e), e in s'.live, |Holders(s.leases, y.owner)|)
    ensures Inv(s')
  {
    Facts(s, t, e);
    PlainTies(s, s', e, y, t, p);
    hide Keyed, OwnersOk, LeasesOk, EntriesOk, ThreadsOk, EntryOk, Handover, Shape, Holders, Registered, WorkerOk;
    ShapeKeeps(s, s', e, y, t, p);
  }

  /** What the invariant says of one entry and one thread. */
  lemma Facts(s: State, t: ThreadId, e: EntryId)
    requires Inv(s) && e in s.all
    ensures EntryAt(s, e) && Keyed(s) && (t in s.threads ==> ThreadAt(s, t))
  {
  }

  lemma FreshIds(s: State)
    requires Inv(s)
    ensures s.nextEntry !in s.all && s.nextOwner !in s.owners && s.nextLease !in s.leases
  {
    assert forall e :: e in s.all ==> EntryAt(s, e) && e < s.nextEntry;
    assert forall o :: o in s.owners ==> OwnerAt(s, o) && o < s.nextOwner;
    assert forall l :: l in s.leases ==> LeaseAt(s, l) && l < s.nextLease;
  }

  lemma MoveKeeps(s: State, t: ThreadId, p: Phase)
    requires Inv(s) && Task(s.threads, t) == None
    requires p.Ready? || p.Done? || ((p.AwaitOpen? || p.AwaitClosed?) && ThreadOk(s.all, t, p))
    ensures Inv(Move(s, t, p))
  {
    var s' := Move(s, t, p);
    FreshIds(s);
    OthersKeep(s, s', t, s.nextEntry);
    ThreadsKeep(s, s', t, s.nextEntry);
    assert OwnersOk(s') by { forall o | o in s'.owners ensures OwnerAt(s', o) { assert OwnerAt(s, o); } }
    assert LeasesOk(s') by { forall l | l in s'.leases ensures LeaseAt(s', l) { assert LeaseAt(s, l); } }
  }

  /** Owners and leases survive an entry's move that keeps its key and its owner. */
  lemma TiesKeep(s: State, s': State, e: EntryId)
    requires OwnersOk(s) && LeasesOk(s) && s'.owners == s.owners && s'.nextOwner == s.nextOwner
    requires s'.leases == s.leases && s'.nextLease == s.nextLease
    requires forall d :: d in s.all && d != e ==> d in s'.all && s'.all[d] == s.all[d]
    requires e in s.all ==> e in s'.all && Later(s.all[e], s'.all[e])
    ensures OwnersOk(s') && LeasesOk(s')
  {
    forall o | o in s'.owners ensures OwnerAt(s', o) { assert OwnerAt(s, o); }
    forall l | l in s'.leases ensures LeaseAt(s', l) { assert LeaseAt(s, l); }
  }

  lemma OpenNewEntry(s: State, t: ThreadId, key: string)
    requires key !in s.entries
    ensures EntryAt(LookAt(s, t, key), s.nextEntry)
  {
  }

  lemma OpenNewFrame(s: State, t: ThreadId, key: string)
    requires key !in s.entries && s.nextEntry !in s.all && Keyed(s)
    ensures OnlyEntry(s, LookAt(s, t, key), s.nextEntry) && OnlyThread(s, LookAt(s, t, key), t)
    ensures Keyed(LookAt(s, t, key))
  {
    hide Holders;
  }

  lemma OpenNew(s: State, t: ThreadId, key: string)
    requires Inv(s) && Task(s.threads, t) == None && key !in s.entries
    ensures Inv(LookAt(s, t, key))
  {
    var e, s' := s.nextEntry, LookAt(s, t, key);
    FreshIds(s);
    TiesKeep(s, s', e);
    OpenNewEntry(s, t, key);
    OpenNewFrame(s, t, key);
    hide EntriesOk, OwnersOk, LeasesOk, ThreadsOk, EntryAt, OnlyEntry, OnlyThread, Keyed;
    OthersKeep(s, s', t, e);
    ThreadsKeep(s, s', t, e);
  }

  lemma HoldersAdd(leases: map<LeaseId, Lease>, l: LeaseId, x: Lease, o: Option<OwnerId>)
    requires l !in leases && !x.released
    ensures Holders(leases[l := x], o) == if Some(x.owner) == o then Holders(leases, o) + {l} else Holders(leases, o)
  {
  }

  lemma HoldersDrop(leases: map<LeaseId, Lease>, l: LeaseId, o: Option<OwnerId>)
    requires l in leases && !leases[l].released
    ensures Holders(leases[l := leases[l].(released := true)], o) == Holders(leases, o) - {l}
    ensures (l in Holders(leases, o)) <==> Some(leases[l].owner) == o
  {
  }

  lemma LookKeeps(s: State, t: ThreadId, key: string)
    requires Inv(s) && Task(s.threads, t) == None
    ensures Inv(LookAt(s, t, key))
  {
    if key !in s.entries {
      OpenNew(s, t, key);
    } else {
      var e := s.entries[key];
      assert EntryAt(s, e);
      var x := s.all[e];
      if x.closing {
        MoveKeeps(s, t, AwaitClosed(e));
      } else if x.owner == None {
        MoveKeeps(s, t, AwaitOpen(e));
      } else if x.owner.value in s.dead {
        StartCloseKeeps(s, t, e, x.(closing := true, stage := Closing(t)), true);
      } else {
        JoinKeeps(s, t, e);
      }
    }
  }

  /** The count follows a lease gained, a lease lost, and the end of the count. */
  lemma Recount(x: Entry, registered: bool, live: bool, n: nat, closer: ThreadId)
    requires EntryOk(x, registered, live, n) && x.stage == Open
    ensures EntryOk(x.(refs := x.refs + 1), registered, live, n + 1)
    ensures n > 1 ==> EntryOk(x.(refs := x.refs - 1), registered, live, n - 1)
    ensures forall r, m :: EntryOk(x.(refs := r, closing := true, stage := Closing(closer)), registered, live, m)
  {
  }

  lemma StartCloseKeeps(s: State, t: ThreadId, e: EntryId, y: Entry, retry: bool)
    requires Inv(s) && Task(s.threads, t) == None && e in s.all && s.all[e].stage == Open
    requires y == s.all[e].(refs := y.refs, closing := true, stage := Closing(t))
    ensures Inv(Update(s, e, y, t, ClosingDevice(e, retry)))
  {
    var s', p := Update(s, e, y, t, ClosingDevice(e, retry)), ClosingDevice(e, retry);
    Facts(s, t, e);
    hide Inv, EntriesOk, ThreadsOk, OwnersOk, LeasesOk, Keyed, Holders;
    Recount(s.all[e], Registered(s.entries, y.key, e), e in s.live, |Holders(s.leases, y.owner)|, t);
    assert Handover(s.all[e], y, Task(s.threads, t), e, t, p);
    hide EntryOk, Handover;
    assert Shape(s, s', e, y, t, p);
    hide Shape, Registered;
    PlainKeeps(s, s', e, y, t, p);
  }

  /** A new lease counts for its own owner's entry and for no other. */
  lemma NewHolder(s: State, l: LeaseId, x: Lease, e: EntryId)
    requires EntriesOk(s) && l !in s.leases && !x.released && e < s.nextEntry
    requires x.owner in s.owners ==> s.owners[x.owner] == e
    ensures forall d :: d in s.all && d != e ==> Holders(s.leases[l := x], s.all[d].owner) == Holders(s.leases, s.all[d].owner)
    ensures Holders(s.leases[l := x], Some(x.owner)) == Holders(s.leases, Some(x.owner)) + {l}
  {
    forall d | d in s.all && d != e ensures Holders(s.leases[l := x], s.all[d].owner) == Holders(s.leases, s.all[d].owner) {
      HoldersAdd(s.leases, l, x, s.all[d].owner);
      assert EntryAt(s, d);
    }
    HoldersAdd(s.leases, l, x, Some(x.owner));
  }

  function OneMore(x: Entry): Entry {
    x.(refs := x.refs + 1)
  }

  function Joined(s: State, t: ThreadId, e: EntryId): State
    requires e in s.all && s.all[e].owner.Some?
  {
    NewLease(Update(s, e, OneMore(s.all[e]), t, Done), s.all[e].key, s.all[e].owner.value)
  }

  lemma JoinTies(s: State, t: ThreadId, e: EntryId)
    requires Inv(s) && e in s.all && s.all[e].owner.Some?
    ensures OwnersOk(Joined(s, t, e)) && LeasesOk(Joined(s, t, e))
  {
    var s', l := Joined(s, t, e), s.nextLease;
    Facts(s, t, e);
    forall o | o in s'.owners ensures OwnerAt(s', o) { assert OwnerAt(s, o); }
    forall m | m in s'.leases ensures LeaseAt(s', m) {
      if m != l { assert LeaseAt(s, m); }
    }
  }

  lemma JoinHolders(s: State, e: EntryId, x: Lease)
    requires Inv(s) && e in s.all && s.all[e].owner == Some(x.owner) && !x.released
    ensures forall d :: d in s.all && d != e ==> Holders(s.leases[s.nextLease := x], s.all[d].owner) == Holders(s.leases, s.all[d].owner)
    ensures |Holders(s.leases[s.nextLease := x], s.all[e].owner)| == |Holders(s.leases, s.all[e].owner)| + 1
  {
    assert EntryAt(s, e);
    FreshIds(s);
    NewHolder(s, s.nextLease, x, e);
    hide EntriesOk, ThreadsOk, OwnersOk, LeasesOk, Keyed, Inv, EntryAt;
    assert s.nextLease !in Holders(s.leases, s.all[e].owner);
  }

  lemma JoinShape(s: State, t: ThreadId, e: EntryId)
    requires Inv(s) && e in s.all && s.all[e].owner.Some?
    ensures Shape(s, Joined(s, t, e), e, OneMore(s.all[e]), t, Done)
  {
    JoinHolders(s, e, Lease(s.all[e].key, s.all[e].owner.value, false));
    hide EntriesOk, ThreadsOk, OwnersOk, LeasesOk, Keyed, Inv, Holders;
  }

  lemma JoinEntry(s: State, t: ThreadId, e: EntryId)
    requires Inv(s) && Task(s.threads, t) == None && e in s.all && s.all[e].stage == Open && s.all[e].owner.Some?
    ensures NewEntryOk(Joined(s, t, e), e, OneMore(s.all[e]))
  {
    var x := s.all[e];
    Facts(s, t, e);
    JoinHolders(s, e, Lease(x.key, x.owner.value, false));
    hide EntriesOk, ThreadsOk, OwnersOk, LeasesOk, Keyed, Inv, Holders;
    Recount(x, Registered(s.entries, x.key, e), e in s.live, |Holders(s.leases, x.owner)|, t);
    hide EntryOk;
  }

  lemma OneMoreHandover(x: Entry, t: ThreadId, e: EntryId)
    ensures Handover(x, OneMore(x), None, e, t, Done)
  {
  }

  lemma JoinKeeps(s: State, t: ThreadId, e: EntryId)
    requires Inv(s) && Task(s.threads, t) == None && e in s.all && s.all[e].stage == Open && s.all[e].owner.Some?
    ensures Inv(Joined(s, t, e))
  {
    JoinTies(s, t, e);
    JoinShape(s, t, e);
    JoinEntry(s, t, e);
    hide Inv, OwnersOk, LeasesOk, Shape, NewEntryOk, Handover;
    OneMoreHandover(s.all[e], t, e);
    ShapeKeeps(s, Joined(s, t, e), e, OneMore(s.all[e]), t, Done);
  }

  lemma FinishDialTies(s: State, t: ThreadId, e: EntryId)
    requires Inv(s) && e in s.all && s.all[e].owner == None
    ensures OwnersOk(FinishDial(s, t, e)) && LeasesOk(FinishDial(s, t, e))
  {
    var s', l, o := FinishDial(s, t, e), s.nextLease, s.nextOwner;
    FreshIds(s);
    forall p | p in s'.owners ensures OwnerAt(s', p) {
      if p != o { assert OwnerAt(s, p); }
    }
    forall m | m in s'.leases ensures LeaseAt(s', m) {
      if m != l { assert LeaseAt(s, m); }
    }
  }

  lemma FinishDialKeeps(s: State, t: ThreadId, e: EntryId)
    requires Inv(s) && t in s.threads && s.threads[t] == Dialing(e) && e in s.all
    ensures Inv(FinishDial(s, t, e))
  {
    var x, s', l, o := s.all[e], FinishDial(s, t, e), s.nextLease, s.nextOwner;
    var y := s'.all[e];
    Facts(s, t, e);
    FreshIds(s);
    NoHolders(s, o);
    FinishDialTies(s, t, e);
    NewHolder(s, l, Lease(x.key, o, false), e);
    hide EntriesOk, ThreadsOk, OwnersOk, LeasesOk, Keyed, Inv, Holders;
    assert Handover(x, y, Task(s.threads, t), e, t, Done);
    assert NewEntryOk(s', e, y);
    hide EntryOk, Handover, NewEntryOk;
    ShapeKeeps(s, s', e, y, t, Done);
  }

  lemma NoHolders(s: State, o: OwnerId)
    requires LeasesOk(s) && o !in s.owners
    ensures Holders(s.leases, Some(o)) == {}
  {
    assert forall l :: l in s.leases ==> LeaseAt(s, l) && s.leases[l].owner != o;
  }

  lemma DialFailsKeeps(s: State, t: ThreadId, e: EntryId)
    requires Inv(s) && t in s.threads && s.threads[t] == Dialing(e) && e in s.all
    ensures Inv(Update(s, e, s.all[e].(stage := DialFailed(t)), t, CleaningUp(e)).(live := s.live - {e}))
  {
    var s', p := Update(s, e, s.all[e].(stage := DialFailed(t)), t, CleaningUp(e)).(live := s.live - {e}), CleaningUp(e);
    var y := s'.all[e];
    Facts(s, t, e);
    hide Inv, EntriesOk, ThreadsOk, OwnersOk, LeasesOk, Keyed, Holders;
    assert Handover(s.all[e], y, Task(s.threads, t), e, t, p);
    assert EntryOk(y, Registered(s'.entries, y.key, e), e in s'.live, |Holders(s.leases, y.owner)|);
    hide EntryOk, Handover;
    assert Shape(s, s', e, y, t, p);
    hide Shape, Registered;
    PlainKeeps(s, s', e, y, t, p);
  }

  lemma FailDialKeeps(s: State, t: ThreadId, e: EntryId)
    requires Inv(s) && t in s.threads && s.threads[t] == CleaningUp(e) && e in s.all
    ensures Inv(FailDial(s, t, e))
  {
    var s', p := FailDial(s, t, e), Done;
    var y := s'.all[e];
    Facts(s, t, e);
    hide Inv, EntriesOk, ThreadsOk, OwnersOk, LeasesOk, Keyed, Holders;
    assert Handover(s.all[e], y, Task(s.threads, t), e, t, p);
    assert EntryOk(y, Registered(s'.entries, y.key, e), e in s'.live, |Holders(s.leases, y.owner)|);
    hide EntryOk, Handover;
    assert Shape(s, s', e, y, t, p);
    hide Shape, Registered;
    PlainKeeps(s, s', e, y, t, p);
  }

  lemma CloseDeviceKeeps(s: State, t: ThreadId, e: EntryId, retry: bool)
    requires Inv(s) && t in s.threads && s.threads[t] == ClosingDevice(e, retry) && e in s.all
    ensures Inv(CloseDeviceAt(s, t, e, retry))
  {
    var s', p := CloseDeviceAt(s, t, e, retry), RemovingEntry(e, retry);
    var y := s'.all[e];
    Facts(s, t, e);
    hide Inv, EntriesOk, ThreadsOk, OwnersOk, LeasesOk, Keyed, Holders;
    assert Handover(s.all[e], y, Task(s.threads, t), e, t, p);
    assert EntryOk(y, Registered(s'.entries, y.key, e), e in s'.live, |Holders(s.leases, y.owner)|);
    hide EntryOk, Handover;
    assert Shape(s, s', e, y, t, p);
    hide Shape, Registered;
    PlainKeeps(s, s', e, y, t, p);
  }

  function Removed(x: Entry): Entry {
    x.(closedCloses := x.closedCloses + 1, stage := Gone)
  }

  lemma RemoveShape(s: State, t: ThreadId, e: EntryId, retry: bool)
    requires e in s.all && Registered(s.entries, s.all[e].key, e)
    ensures var s' := RemoveAt(s, t, e, retry); Shape(s, s', e, Removed(s.all[e]), t, s'.threads[t])
    ensures !Registered(RemoveAt(s, t, e, retry).entries, s.all[e].key, e)
  {
    hide Holders;
  }

  lemma RemoveKeeps(s: State, t: ThreadId, e: EntryId, retry: bool)
    requires Inv(s) && t in s.threads && s.threads[t] == RemovingEntry(e, retry) && e in s.all
    ensures Inv(RemoveAt(s, t, e, retry))
  {
    var s', y := RemoveAt(s, t, e, retry), Removed(s.all[e]);
    Facts(s, t, e);
    RemoveShape(s, t, e, retry);
    hide Inv, EntriesOk, ThreadsOk, OwnersOk, LeasesOk, Keyed, Holders, Shape, Registered;
    assert Handover(s.all[e], y, Task(s.threads, t), e, t, s'.threads[t]);
    assert EntryOk(y, Registered(s'.entries, y.key, e), e in s'.live, |Holders(s.leases, y.owner)|);
    hide EntryOk, Handover;
    PlainKeeps(s, s', e, y, t, s'.threads[t]);
  }

  /** The lease being given back, if its owner's entry is not counting, costs nothing. */
  lemma ReleaseKeeps(s: State, t: ThreadId, l: LeaseId)
    requires Inv(s) && t !in s.threads && l in s.leases && !s.leases[l].released
    ensures Inv(Apply(s, Release(t, l)))
  {
    var x := s.leases[l];
    assert LeaseAt(s, l);
    var e := s.owners[x.owner];
    assert EntryAt(s, e) && OwnerAt(s, x.owner);
    if s.all[e].stage == Open {
      CountedReleaseKeeps(s, t, l, e);
    } else {
      LateReleaseKeeps(s, t, l, e);
    }
  }

  function Given(s: State, l: LeaseId): State
    requires l in s.leases
  {
    s.(leases := s.leases[l := s.leases[l].(released := true)])
  }

  lemma GivenLeases(s: State, s': State, l: LeaseId)
    requires Inv(s) && l in s.leases && s'.leases == Given(s, l).leases && s'.nextLease == s.nextLease
    requires s'.owners == s.owners && s'.nextOwner == s.nextOwner
    requires forall d :: d in s.all ==> d in s'.all && s'.all[d].key == s.all[d].key && s'.all[d].owner == s.all[d].owner
    ensures OwnersOk(s') && LeasesOk(s')
  {
    forall o | o in s'.owners ensures OwnerAt(s', o) { assert OwnerAt(s, o); }
    forall m | m in s'.leases ensures LeaseAt(s', m) { assert LeaseAt(s, m); }
  }

  lemma GivenHolders(s: State, l: LeaseId, e: EntryId, d: EntryId)
    requires Inv(s) && l in s.leases && !s.leases[l].released && s.leases[l].owner in s.owners
    requires s.owners[s.leases[l].owner] == e && d in s.all && d != e
    ensures Holders(Given(s, l).leases, s.all[d].owner) == Holders(s.leases, s.all[d].owner)
  {
    HoldersDrop(s.leases, l, s.all[d].owner);
    assert EntryAt(s, d);
  }

  /** A lease of an entry that no longer counts touches no entry. */
  lemma LateRelease(s: State, t: ThreadId, l: LeaseId)
    requires Inv(s) && t !in s.threads && l in s.leases && !s.leases[l].released
    requires s.leases[l].owner in s.owners && s.owners[s.leases[l].owner] in s.all
    requires s.all[s.owners[s.leases[l].owner]].stage != Open
    ensures Apply(s, Release(t, l)) == Move(Given(s, l), t, Done)
  {
    var x := s.leases[l];
    Facts(s, t, s.owners[x.owner]);
    assert OwnerAt(s, x.owner) && LeaseAt(s, l);
    if x.key in s.entries { Facts(s, t, s.entries[x.key]); }
    hide Inv, EntriesOk, ThreadsOk, OwnersOk, LeasesOk, Keyed, Holders;
    ReleaseIs(s, t, l);
    assert x.key !in s.entries || (s.entries[x.key] in s.all
      && (s.all[s.entries[x.key]].owner != Some(x.owner) || s.all[s.entries[x.key]].closing));
    hide Apply;
  }

  lemma ReleaseIs(s: State, t: ThreadId, l: LeaseId)
    requires t !in s.threads && l in s.leases && !s.leases[l].released
    ensures Apply(s, Release(t, l)) == ReleaseAt(Given(s, l), t, s.leases[l].key, s.leases[l].owner)
  {
    hide ReleaseAt;
  }

  lemma LateShape(s: State, t: ThreadId, l: LeaseId, e: EntryId)
    requires Inv(s) && l in s.leases && !s.leases[l].released
    requires s.leases[l].owner in s.owners && s.owners[s.leases[l].owner] == e && e in s.all && s.all[e].stage != Open
    ensures Shape(s, Move(Given(s, l), t, Done), e, s.all[e], t, Done) && NewEntryOk(Given(s, l), e, s.all[e])
  {
    CountedHolders(s, l, e);
    Facts(s, t, e);
    hide Inv, EntriesOk, ThreadsOk, OwnersOk, LeasesOk, Keyed, Holders;
    assert s.all == s.all[e := s.all[e]];
  }

  lemma LateReleaseKeeps(s: State, t: ThreadId, l: LeaseId, e: EntryId)
    requires Inv(s) && t !in s.threads && l in s.leases && !s.leases[l].released
    requires s.leases[l].owner in s.owners && s.owners[s.leases[l].owner] == e && e in s.all && s.all[e].stage != Open
    ensures Inv(Apply(s, Release(t, l)))
  {
    var s', x := Move(Given(s, l), t, Done), s.all[e];
    LateRelease(s, t, l);
    LateShape(s, t, l, e);
    GivenLeases(s, s', l);
    hide Inv, OwnersOk, LeasesOk, EntryOk, Holders, Apply, Shape;
    ShapeKeeps(s, s', e, x, t, Done);
  }

  function Counted(s: State, t: ThreadId, l: LeaseId, e: EntryId): State
    requires l in s.leases && e in s.all
  {
    Update(Given(s, l), e, LessOne(s.all[e], t), t, AfterRelease(s.all[e], e))
  }

  function LessOne(x: Entry, t: ThreadId): Entry {
    if x.refs > 1 then x.(refs := x.refs - 1) else x.(refs := x.refs - 1, closing := true, stage := Closing(t))
  }

  function AfterRelease(x: Entry, e: EntryId): Phase {
    if x.refs > 1 then Done else ClosingDevice(e, false)
  }

  lemma LessOneHandover(x: Entry, t: ThreadId, e: EntryId)
    requires x.stage == Open && x.openingCloses == 1 && x.closedCloses == 0
    ensures Handover(x, LessOne(x, t), None, e, t, AfterRelease(x, e))
  {
  }

  /** A lease of an open entry reaches exactly that entry. */
  lemma CountedRelease(s: State, t: ThreadId, l: LeaseId, e: EntryId)
    requires Inv(s) && t !in s.threads && l in s.leases && !s.leases[l].released
    requires s.leases[l].owner in s.owners && s.owners[s.leases[l].owner] == e && e in s.all && s.all[e].stage == Open
    ensures Apply(s, Release(t, l)) == Counted(s, t, l, e)
  {
    Facts(s, t, e);
    assert OwnerAt(s, s.leases[l].owner) && LeaseAt(s, l);
    hide Inv, EntriesOk, ThreadsOk, OwnersOk, LeasesOk, Keyed, Holders;
    assert Registered(s.entries, s.leases[l].key, e);
    ReleaseIs(s, t, l);
    hide Apply;
  }

  /** What a release does to the holders of each entry. */
  lemma CountedHolders(s: State, l: LeaseId, e: EntryId)
    requires Inv(s) && l in s.leases && !s.leases[l].released && e in s.all
    requires s.leases[l].owner in s.owners && s.owners[s.leases[l].owner] == e
    ensures forall d :: d in s.all && d != e ==> Holders(Given(s, l).leases, s.all[d].owner) == Holders(s.leases, s.all[d].owner)
    ensures s.all[e].owner == Some(s.leases[l].owner)
    ensures |Holders(Given(s, l).leases, s.all[e].owner)| == |Holders(s.leases, s.all[e].owner)| - 1
  {
    assert OwnerAt(s, s.leases[l].owner);
    HoldersDrop(s.leases, l, s.all[e].owner);
    forall d | d in s.all && d != e ensures Holders(Given(s, l).leases, s.all[d].owner) == Holders(s.leases, s.all[d].owner) {
      GivenHolders(s, l, e, d);
    }
  }

  lemma CountedShape(s: State, t: ThreadId, l: LeaseId, e: EntryId)
    requires Inv(s) && l in s.leases && !s.leases[l].released && e in s.all
    requires s.leases[l].owner in s.owners && s.owners[s.leases[l].owner] == e
    ensures Shape(s, Counted(s, t, l, e), e, LessOne(s.all[e], t), t, AfterRelease(s.all[e], e))
  {
    CountedHolders(s, l, e);
    hide Inv, Holders;
  }

  lemma CountedEntry(s: State, t: ThreadId, l: LeaseId, e: EntryId)
    requires Inv(s) && t !in s.threads && l in s.leases && !s.leases[l].released && e in s.all && s.all[e].stage == Open
    requires s.leases[l].owner in s.owners && s.owners[s.leases[l].owner] == e
    ensures NewEntryOk(Counted(s, t, l, e), e, LessOne(s.all[e], t))
  {
    var s', x := Counted(s, t, l, e), s.all[e];
    CountedHolders(s, l, e);
    Facts(s, t, e);
    hide Inv, EntriesOk, ThreadsOk, OwnersOk, LeasesOk, Keyed, Holders;
    Recount(x, Registered(s.entries, x.key, e), e in s.live, |Holders(s.leases, x.owner)|, t);
    assert x.refs == |Holders(s.leases, x.owner)|;
    hide EntryOk;
  }

  lemma CountedTies(s: State, t: ThreadId, l: LeaseId, e: EntryId)
    requires Inv(s) && l in s.leases && e in s.all
    ensures OwnersOk(Counted(s, t, l, e)) && LeasesOk(Counted(s, t, l, e))
  {
    hide OwnersOk, LeasesOk, EntriesOk, ThreadsOk, Keyed;
    var s' := Counted(s, t, l, e);
    assert forall d :: d in s.all ==> d in s'.all && s'.all[d].key == s.all[d].key && s'.all[d].owner == s.all[d].owner;
    GivenLeases(s, s', l);
  }

  lemma CountedReleaseKeeps(s: State, t: ThreadId, l: LeaseId, e: EntryId)
    requires Inv(s) && t !in s.threads && l in s.leases && !s.leases[l].released
    requires s.leases[l].owner in s.owners && s.owners[s.leases[l].owner] == e && e in s.all && s.all[e].stage == Open
    ensures Inv(Apply(s, Release(t, l)))
  {
    var s', x := Counted(s, t, l, e), s.all[e];
    CountedRelease(s, t, l, e);
    CountedEntry(s, t, l, e);
    CountedShape(s, t, l, e);
    CountedTies(s, t, l, e);
    Facts(s, t, e);
    hide Inv, OwnersOk, LeasesOk, NewEntryOk, Apply, Shape, Handover, Keyed;
    LessOneHandover(x, t, e);
    hide EntryAt;
    ShapeKeeps(s, s', e, LessOne(x, t), t, AfterRelease(x, e));
  }

  lemma ApplyKeeps(s: State, ev: Event)
    requires Inv(s)
    ensures Inv(Apply(s, ev))
  {
    match ev
    case Enter(t, key) => if t !in s.threads { MoveKeeps(s, t, Ready(key)); }
    case Look(t) => if t in s.threads && s.threads[t].Ready? { LookKeeps(s, t, s.threads[t].key); }
    case DialSucceeds(t) => if t in s.threads && s.threads[t].Dialing? && s.threads[t].entry in s.all { FinishDialKeeps(s, t, s.threads[t].entry); }
    case DialFails(t) => if t in s.threads && s.threads[t].Dialing? && s.threads[t].entry in s.all { DialFailsKeeps(s, t, s.threads[t].entry); }
    case DropFailed(t) => if t in s.threads && s.threads[t].CleaningUp? && s.threads[t].entry in s.all { FailDialKeeps(s, t, s.threads[t].entry); }
    case Wake(t) => WakeKeeps(s, t);
    case GiveUp(t) => if t in s.threads && (s.threads[t].AwaitOpen? || s.threads[t].AwaitClosed?) { MoveKeeps(s, t, Done); }
    case OwnerDies(o) => DeathKeeps(s, o);
    case Release(t, l) => if !(t in s.threads || l !in s.leases || s.leases[l].released) { ReleaseKeeps(s, t, l); }
    case CloseDevice(t) => if t in s.threads && s.threads[t].ClosingDevice? && s.threads[t].entry in s.all { CloseDeviceKeeps(s, t, s.threads[t].entry, s.threads[t].retry); }
    case RemoveEntry(t) => if t in s.threads && s.threads[t].RemovingEntry? && s.threads[t].entry in s.all { RemoveKeeps(s, t, s.threads[t].entry, s.threads[t].retry); }
  }

  lemma WakeKeeps(s: State, t: ThreadId)
    requires Inv(s)
    ensures Inv(Apply(s, Wake(t)))
  {
    if t in s.threads {
      match s.threads[t]
      case AwaitOpen(e) => if e in s.all { MoveKeeps(s, t, Ready(s.all[e].key)); }
      case AwaitClosed(e) => if e in s.all { MoveKeeps(s, t, Ready(s.all[e].key)); }
      case _ =>
    }
  }

  lemma DeathKeeps(s: State, o: OwnerId)
    requires Inv(s)
    ensures Inv(s.(dead := s.dead + {o}))
  {
    var s' := s.(dead := s.dead + {o});
    forall e | e in s'.all ensures EntryAt(s', e) { assert EntryAt(s, e); }
    forall t | t in s'.threads ensures ThreadAt(s', t) { assert ThreadAt(s, t); }
    TiesKeep(s, s', s.nextEntry);
  }

  lemma {:induction false} RunKeeps(s: State, es: seq<Event>)
    requires Inv(s)
    ensures Inv(Run(s, es))
    decreases es
  {
    if es != [] {
      ApplyKeeps(s, es[0]);
      RunKeeps(Apply(s, es[0]), es[1..]);
    }
  }
}
