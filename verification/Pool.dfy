/** The pool of shared direct clients: one reference-counted entry per device key,
    opened by the first acquirer, closed by the last release or when its owner died. */
module Pool {
  import opened Bytes

  type EntryId = nat
  type OwnerId = nat
  type ThreadId = nat
  type LeaseId = nat

  /** How far the life of an entry has got and which thread has to take it on. */
  datatype Stage =
    | Opening(dialer: ThreadId)
    | DialFailed(dialer: ThreadId)
    | Open
    | Closing(closer: ThreadId)
    | DeviceGone(closer: ThreadId)
    | Gone

  /** directClientEntry. The counts say how often its two broadcast channels and its
      device have been closed. */
  datatype Entry = Entry(
    key: string, owner: Option<OwnerId>, refs: int, closing: bool,
    openingCloses: nat, closedCloses: nat, deviceCloses: nat, stage: Stage)

  datatype Lease = Lease(key: string, owner: OwnerId, released: bool)

  /** Where a thread is in acquire, release or closeEntry. */
  datatype Phase =
    | Ready(key: string)
    | Dialing(entry: EntryId)
    | CleaningUp(entry: EntryId)
    | AwaitOpen(entry: EntryId)
    | AwaitClosed(entry: EntryId)
    | ClosingDevice(entry: EntryId, retry: bool)
    | RemovingEntry(entry: EntryId, retry: bool)
    | Done

  /** live holds the entries whose connection may be open: from the start of the dial
      to the return of the close. dead holds the owners that stopped working. */
  datatype State = State(
    entries: map<string, EntryId>,
    all: map<EntryId, Entry>,
    owners: map<OwnerId, EntryId>,
    leases: map<LeaseId, Lease>,
    threads: map<ThreadId, Phase>,
    live: set<EntryId>,
    dead: set<OwnerId>,
    nextEntry: EntryId, nextOwner: OwnerId, nextLease: LeaseId)

  const INIT: State := State(map[], map[], map[], map[], map[], {}, {}, 0, 0, 0)

  datatype Event =
    | Enter(t: ThreadId, key: string)
    | Look(t: ThreadId)
    | DialSucceeds(t: ThreadId)
    | DialFails(t: ThreadId)
    | DropFailed(t: ThreadId)
    | Wake(t: ThreadId)
    | GiveUp(t: ThreadId)
    | OwnerDies(o: OwnerId)
    | Release(t: ThreadId, lease: LeaseId)
    | CloseDevice(t: ThreadId)
    | RemoveEntry(t: ThreadId)

  predicate At(s: State, t: ThreadId, p: Phase) {
    t in s.threads && s.threads[t] == p
  }

  function Update(s: State, e: EntryId, x: Entry, t: ThreadId, p: Phase): State {
    s.(all := s.all[e := x], threads := s.threads[t := p])
  }

  function NewLease(s: State, key: string, owner: OwnerId): State {
    s.(leases := s.leases[s.nextLease := Lease(key, owner, false)], nextLease := s.nextLease + 1)
  }

  function Move(s: State, t: ThreadId, p: Phase): State {
    s.(threads := s.threads[t := p])
  }

  /** One pass of acquire's loop under the mutex. */
  function LookAt(s: State, t: ThreadId, key: string): State {
    if key !in s.entries then
      var e := s.nextEntry;
      Update(s, e, Entry(key, None, 0, false, 0, 0, 0, Opening(t)), t, Dialing(e)).
        (entries := s.entries[key := e], live := s.live + {e}, nextEntry := e + 1)
    else
      var e := s.entries[key];
      if e !in s.all then s
      else
        var x := s.all[e];
        if x.closing then Move(s, t, AwaitClosed(e))
        else if x.owner == None then Move(s, t, AwaitOpen(e))
        else if x.owner.value in s.dead then Update(s, e, x.(closing := true, stage := Closing(t)), t, ClosingDevice(e, true))
        else NewLease(Update(s, e, x.(refs := x.refs + 1), t, Done), key, x.owner.value)
  }

  function FinishDial(s: State, t: ThreadId, e: EntryId): State
    requires e in s.all
  {
    var x := s.all[e];
    var o := s.nextOwner;
    NewLease(
      Update(s, e, x.(owner := Some(o), refs := 1, openingCloses := x.openingCloses + 1, stage := Open), t, Done).
        (owners := s.owners[o := e], nextOwner := o + 1),
      x.key, o)
  }

  function FailDial(s: State, t: ThreadId, e: EntryId): State
    requires e in s.all
  {
    var x := s.all[e];
    Update(s, e, x.(openingCloses := x.openingCloses + 1, closedCloses := x.closedCloses + 1, stage := Gone), t, Done).
      (entries := s.entries - {x.key})
  }

  /** The critical section of release. */
  function ReleaseAt(s: State, t: ThreadId, key: string, owner: OwnerId): State {
    if key !in s.entries || s.entries[key] !in s.all then Move(s, t, Done)
    else
      var e := s.entries[key];
      var x := s.all[e];
      if x.owner != Some(owner) || x.closing then Move(s, t, Done)
      else if x.refs - 1 > 0 then Update(s, e, x.(refs := x.refs - 1), t, Done)
      else Update(s, e, x.(refs := x.refs - 1, closing := true, stage := Closing(t)), t, ClosingDevice(e, false))
  }

  /** The device close of closeEntry, outside the mutex. */
  function CloseDeviceAt(s: State, t: ThreadId, e: EntryId, retry: bool): State
    requires e in s.all
  {
    var x := s.all[e];
    Update(s, e, x.(deviceCloses := x.deviceCloses + 1, stage := DeviceGone(t)), t, RemovingEntry(e, retry)).
      (live := s.live - {e})
  }

  /** The critical section at the end of closeEntry. */
  function RemoveAt(s: State, t: ThreadId, e: EntryId, retry: bool): State
    requires e in s.all
  {
    var x := s.all[e];
    var p := if retry then Ready(x.key) else Done;
    if x.key in s.entries && s.entries[x.key] == e
    then Update(s, e, x.(closedCloses := x.closedCloses + 1, stage := Gone), t, p).(entries := s.entries - {x.key})
    else Move(s, t, p)
  }

  function WakeUp(s: State, t: ThreadId): State
    requires t in s.threads
  {
    match s.threads[t]
    case AwaitOpen(e) => if e in s.all && s.all[e].openingCloses > 0 then Move(s, t, Ready(s.all[e].key)) else s
    case AwaitClosed(e) => if e in s.all && s.all[e].closedCloses > 0 then Move(s, t, Ready(s.all[e].key)) else s
    case _ => s
  }

  function Apply(s: State, ev: Event): State {
    match ev
    case Enter(t, key) => if t in s.threads then s else Move(s, t, Ready(key))
    case Look(t) => if t in s.threads && s.threads[t].Ready? then LookAt(s, t, s.threads[t].key) else s
    case DialSucceeds(t) =>
      if t in s.threads && s.threads[t].Dialing? && s.threads[t].entry in s.all then FinishDial(s, t, s.threads[t].entry) else s
    case DialFails(t) =>
      if t in s.threads && s.threads[t].Dialing? && s.threads[t].entry in s.all then
        var e := s.threads[t].entry;
        Update(s, e, s.all[e].(stage := DialFailed(t)), t, CleaningUp(e)).(live := s.live - {e})
      else s
    case DropFailed(t) =>
      if t in s.threads && s.threads[t].CleaningUp? && s.threads[t].entry in s.all then FailDial(s, t, s.threads[t].entry) else s
    case Wake(t) => if t in s.threads then WakeUp(s, t) else s
    case GiveUp(t) =>
      if t in s.threads && (s.threads[t].AwaitOpen? || s.threads[t].AwaitClosed?) then Move(s, t, Done) else s
    case OwnerDies(o) => s.(dead := s.dead + {o})
    case Release(t, l) =>
      if t in s.threads || l !in s.leases || s.leases[l].released then s
      else
        var lease := s.leases[l];
        ReleaseAt(s.(leases := s.leases[l := lease.(released := true)]), t, lease.key, lease.owner)
    case CloseDevice(t) =>
      if t in s.threads && s.threads[t].ClosingDevice? && s.threads[t].entry in s.all then
        CloseDeviceAt(s, t, s.threads[t].entry, s.threads[t].retry)
      else s
    case RemoveEntry(t) =>
      if t in s.threads && s.threads[t].RemovingEntry? && s.threads[t].entry in s.all
      then RemoveAt(s, t, s.threads[t].entry, s.threads[t].retry) else s
  }

  function Run(s: State, es: seq<Event>): State
    decreases es
  {
    if es == [] then s else Run(Apply(s, es[0]), es[1..])
  }

  // ---- invariant ----

  /** The unreleased leases of an owner. */
  function Holders(leases: map<LeaseId, Lease>, o: Option<OwnerId>): set<LeaseId> {
    set l | l in leases && !leases[l].released && Some(leases[l].owner) == o
  }

  /** What the fields of an entry are at each stage of its life. */
  ghost predicate EntryOk(x: Entry, registered: bool, live: bool, holders: nat) {
    && (x.owner == None <==> x.openingCloses == 0 || (x.stage == Gone && x.deviceCloses == 0))
    && (registered <==> x.stage != Gone)
    && (x.closing <==> x.stage.Closing? || x.stage.DeviceGone? || (x.stage == Gone && x.deviceCloses == 1))
    && match x.stage
       case Opening(_) => live && x.openingCloses == 0 && x.closedCloses == 0 && x.deviceCloses == 0
       case DialFailed(_) => !live && x.openingCloses == 0 && x.closedCloses == 0 && x.deviceCloses == 0
       case Open => live && x.openingCloses == 1 && x.closedCloses == 0 && x.deviceCloses == 0 && x.refs == holders >= 1
       case Closing(_) => live && x.openingCloses == 1 && x.closedCloses == 0 && x.deviceCloses == 0
       case DeviceGone(_) => !live && x.openingCloses == 1 && x.closedCloses == 0 && x.deviceCloses == 1
       case Gone => !live && x.openingCloses == 1 && x.closedCloses == 1 && x.deviceCloses <= 1
  }

  ghost predicate Registered(entries: map<string, EntryId>, key: string, e: EntryId) {
    key in entries && entries[key] == e
  }

  /** The thread a stage names is at the matching point of the code. */
  ghost predicate WorkerOk(threads: map<ThreadId, Phase>, e: EntryId, stage: Stage) {
    match stage
    case Opening(t) => t in threads && threads[t] == Dialing(e)
    case DialFailed(t) => t in threads && threads[t] == CleaningUp(e)
    case Closing(t) => t in threads && threads[t].ClosingDevice? && threads[t].entry == e
    case DeviceGone(t) => t in threads && threads[t].RemovingEntry? && threads[t].entry == e
    case _ => true
  }

  ghost predicate OwnerOk(owners: map<OwnerId, EntryId>, e: EntryId, owner: Option<OwnerId>) {
    owner.Some? ==> owner.value in owners && owners[owner.value] == e
  }

  ghost predicate EntryAt(s: State, e: EntryId) {
    && e in s.all
    && e < s.nextEntry
    && EntryOk(s.all[e], Registered(s.entries, s.all[e].key, e), e in s.live, |Holders(s.leases, s.all[e].owner)|)
    && OwnerOk(s.owners, e, s.all[e].owner)
    && WorkerOk(s.threads, e, s.all[e].stage)
  }

  /** A working thread is named by its entry; a waiting thread waits on an entry that
      has broadcast already or whose stage obliges a thread to broadcast. */
  ghost predicate ThreadOk(all: map<EntryId, Entry>, t: ThreadId, p: Phase) {
    match p
    case Dialing(e) => e in all && all[e].stage == Opening(t)
    case CleaningUp(e) => e in all && all[e].stage == DialFailed(t)
    case ClosingDevice(e, _) => e in all && all[e].stage == Closing(t)
    case RemovingEntry(e, _) => e in all && all[e].stage == DeviceGone(t)
    case AwaitOpen(e) => e in all && (all[e].openingCloses > 0 || all[e].stage.Opening? || all[e].stage.DialFailed?)
    case AwaitClosed(e) => e in all && (all[e].closedCloses > 0 || all[e].stage.Closing? || all[e].stage.DeviceGone?)
    case _ => true
  }

  ghost predicate ThreadAt(s: State, t: ThreadId) {
    t in s.threads && ThreadOk(s.all, t, s.threads[t])
  }

  ghost predicate OwnerAt(s: State, o: OwnerId) {
    o in s.owners && o < s.nextOwner && s.owners[o] in s.all && s.all[s.owners[o]].owner == Some(o)
  }

  ghost predicate LeaseAt(s: State, l: LeaseId) {
    l in s.leases && l < s.nextLease && var x := s.leases[l];
    x.owner in s.owners && s.owners[x.owner] in s.all && s.all[s.owners[x.owner]].key == x.key
  }

  ghost predicate Keyed(s: State) {
    && (forall k :: k in s.entries ==> s.entries[k] in s.all && s.all[s.entries[k]].key == k)
    && (forall e :: e in s.live ==> e in s.all)
  }

  ghost predicate EntriesOk(s: State) { forall e :: e in s.all ==> EntryAt(s, e) }
  ghost predicate ThreadsOk(s: State) { forall t :: t in s.threads ==> ThreadAt(s, t) }
  ghost predicate OwnersOk(s: State) { forall o :: o in s.owners ==> OwnerAt(s, o) }
  ghost predicate LeasesOk(s: State) { forall l :: l in s.leases ==> LeaseAt(s, l) }

  ghost predicate Inv(s: State) {
    Keyed(s) && EntriesOk(s) && ThreadsOk(s) && OwnersOk(s) && LeasesOk(s)
  }
}
