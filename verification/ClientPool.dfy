/** directClientPool as an object: the table of entries and the critical sections that
    read and change it, each proved to be one step of the pool machine. */
module ClientPool {
  import opened Bytes
  import opened Pool
  import Proofs = PoolProofs
  import Theorems = PoolTheorems

  /** directClientEntry. The counters stand for the two channels: a channel is closed
      once its counter is positive. */
  class DirectClientEntry {
    var owner: Option<OwnerId>
    var refs: int
    var closing: bool
    var openingCloses: nat
    var closedCloses: nat
    ghost const id: EntryId

    constructor (ghost id: EntryId)
      ensures this.id == id && owner == None && refs == 0 && !closing && openingCloses == 0 && closedCloses == 0
    {
      owner, refs, closing, openingCloses, closedCloses := None, 0, false, 0, 0;
      this.id := id;
    }

    /** The object shows what the machine records of the entry. */
    ghost predicate Shows(x: Entry)
      reads this
    {
      && owner == x.owner && refs == x.refs && closing == x.closing
      && openingCloses == x.openingCloses && closedCloses == x.closedCloses
    }
  }

  /** What one pass of acquire decides under the mutex. */
  datatype Pass =
    | WaitClosed(entry: DirectClientEntry)
    | WaitOpen(entry: DirectClientEntry)
    | Leased(owner: OwnerId)
    | CloseStale(entry: DirectClientEntry)
    | Dial(entry: DirectClientEntry)

  // What each critical section does to the parts of the machine that the pool object shows.

  lemma LookJoin(s: State, t: ThreadId, key: string)
    requires At(s, t, Ready(key)) && key in s.entries && s.entries[key] in s.all
    requires var x := s.all[s.entries[key]]; !x.closing && x.owner.Some? && x.owner.value !in s.dead
    ensures var e, s' := s.entries[key], Apply(s, Look(t));
      && s'.entries == s.entries && At(s', t, Done)
      && s'.all == s.all[e := s.all[e].(refs := s.all[e].refs + 1)]
      && s.nextLease in s'.leases && s'.leases[s.nextLease] == Lease(key, s.all[e].owner.value, false)
  {
  }

  lemma LookStale(s: State, t: ThreadId, key: string)
    requires At(s, t, Ready(key)) && key in s.entries && s.entries[key] in s.all
    requires var x := s.all[s.entries[key]]; !x.closing && x.owner.Some? && x.owner.value in s.dead
    ensures var e, s' := s.entries[key], Apply(s, Look(t));
      && s'.entries == s.entries && At(s', t, ClosingDevice(e, true))
      && s'.all == s.all[e := s.all[e].(closing := true, stage := Closing(t))]
  {
  }

  lemma LookNew(s: State, t: ThreadId, key: string)
    requires At(s, t, Ready(key)) && key !in s.entries
    ensures var e, s' := s.nextEntry, Apply(s, Look(t));
      && s'.entries == s.entries[key := e] && At(s', t, Dialing(e))
      && s'.all == s.all[e := Entry(key, None, 0, false, 0, 0, 0, Opening(t))]
  {
  }

  lemma LookWaits(s: State, t: ThreadId, key: string)
    requires At(s, t, Ready(key)) && key in s.entries && s.entries[key] in s.all
    requires s.all[s.entries[key]].closing || s.all[s.entries[key]].owner == None
    ensures var e, s' := s.entries[key], Apply(s, Look(t));
      && s'.entries == s.entries && s'.all == s.all
      && At(s', t, if s.all[e].closing then AwaitClosed(e) else AwaitOpen(e))
  {
  }

  lemma DialSteps(s: State, t: ThreadId, e: EntryId)
    requires e in s.all && At(s, t, Dialing(e))
    ensures var s' := Apply(s, DialSucceeds(t));
      && s'.entries == s.entries && At(s', t, Done)
      && s.nextLease in s'.leases && s'.leases[s.nextLease] == Lease(s.all[e].key, s.nextOwner, false)
      && s'.all == s.all[e := s.all[e].(owner := Some(s.nextOwner), refs := 1, openingCloses := s.all[e].openingCloses + 1, stage := Open)]
  {
  }

  lemma DropSteps(s: State, t: ThreadId, e: EntryId)
    requires e in s.all && At(s, t, CleaningUp(e))
    ensures var s' := Apply(s, DropFailed(t));
      && s'.entries == s.entries - {s.all[e].key} && At(s', t, Done)
      && s'.all == s.all[e := s.all[e].(openingCloses := s.all[e].openingCloses + 1, closedCloses := s.all[e].closedCloses + 1, stage := Gone)]
  {
  }

  lemma RemoveSteps(s: State, t: ThreadId, e: EntryId, retry: bool)
    requires e in s.all && At(s, t, RemovingEntry(e, retry))
    ensures var x, s' := s.all[e], Apply(s, RemoveEntry(t));
      At(s', t, if retry then Ready(x.key) else Done) &&
      if Registered(s.entries, x.key, e) then
        s'.entries == s.entries - {x.key} && s'.all == s.all[e := x.(closedCloses := x.closedCloses + 1, stage := Gone)]
      else s'.entries == s.entries && s'.all == s.all
  {
  }

  /** A lease whose entry counts no more, and one that is not the last. */
  ghost predicate Ignored(s: State, key: string, owner: OwnerId) {
    key !in s.entries || s.entries[key] !in s.all || s.all[s.entries[key]].owner != Some(owner) || s.all[s.entries[key]].closing
  }

  lemma ReleaseSteps(s: State, t: ThreadId, l: LeaseId, key: string, owner: OwnerId)
    requires t !in s.threads && l in s.leases && s.leases[l] == Lease(key, owner, false)
    ensures var s' := Apply(s, Event.Release(t, l));
      && s'.entries == s.entries && l in s'.leases && s'.leases[l].released
      && (Ignored(s, key, owner) ==> s'.all == s.all && At(s', t, Done))
  {
  }

  lemma ReleaseCounts(s: State, t: ThreadId, l: LeaseId, key: string, owner: OwnerId)
    requires t !in s.threads && l in s.leases && s.leases[l] == Lease(key, owner, false) && !Ignored(s, key, owner)
    ensures var e, s' := s.entries[key], Apply(s, Event.Release(t, l));
      var x := s.all[e];
      && (x.refs > 1 ==> At(s', t, Done) && s'.all == s.all[e := x.(refs := x.refs - 1)])
      && (x.refs <= 1 ==> At(s', t, ClosingDevice(e, false)) && s'.all == s.all[e := x.(refs := x.refs - 1, closing := true, stage := Closing(t))])
  {
  }

  /** The fields of an entry that the mutex guards. */
  ghost predicate SameShown(x: Entry, y: Entry) {
    y.key == x.key && y.owner == x.owner && y.refs == x.refs && y.closing == x.closing
    && y.openingCloses == x.openingCloses && y.closedCloses == x.closedCloses
  }

  lemma ElsewhereShows(s: State, ev: Event)
    requires ev.Enter? || ev.DialFails? || ev.Wake? || ev.GiveUp? || ev.OwnerDies? || ev.CloseDevice?
    ensures Apply(s, ev).entries == s.entries
    ensures forall e :: e in s.all ==> e in Apply(s, ev).all && SameShown(s.all[e], Apply(s, ev).all[e])
  {
  }

  class DirectClientPool {
    var entries: map<string, DirectClientEntry>
    ghost var s: State

    /** The object under a key shows the machine's entry under that key. */
    ghost predicate Listed(key: string)
      reads this, entries.Values
    {
      && key in entries && key in s.entries && s.entries[key] in s.all
      && entries[key].id == s.entries[key] && s.all[s.entries[key]].key == key
      && entries[key].Shows(s.all[s.entries[key]])
    }

    ghost predicate Shown()
      reads this, entries.Values
    {
      && (forall key :: key in entries ==> Listed(key))
      && (forall key :: key in s.entries ==> key in entries)
    }

    /** The table shows a state of the machine that satisfies its invariant. */
    ghost predicate Valid()
      reads this, entries.Values
    {
      Shown() && Inv(s)
    }

    /** An entry a thread still points to, whether or not it is listed. */
    ghost predicate Held(key: string, entry: DirectClientEntry)
      reads this, entry, entries.Values
    {
      && entry.id in s.all && s.all[entry.id].key == key && entry.Shows(s.all[entry.id])
      && (key in entries && entries[key].id == entry.id ==> entries[key] == entry)
      && (forall k :: k in entries && entries[k] == entry ==> k == key)
    }

    constructor ()
      ensures Valid() && s == INIT
    {
      entries, s := map[], INIT;
    }

    /** A step of a thread, a dial or a device that touches nothing the mutex guards. */
    ghost method Elsewhere(ev: Event)
      requires Valid() && (ev.Enter? || ev.DialFails? || ev.Wake? || ev.GiveUp? || ev.OwnerDies? || ev.CloseDevice?)
      modifies this`s
      ensures Valid() && s == Apply(old(s), ev)
    {
      hide Inv, Apply;
      Proofs.ApplyKeeps(s, ev);
      ElsewhereShows(s, ev);
      s := Apply(s, ev);
    }

    /** The branch of acquire that joins a usable owner. */
    method Join(ghost t: ThreadId, key: string, entry: DirectClientEntry) returns (owner: OwnerId)
      requires Valid() && At(s, t, Ready(key)) && key in entries && entries[key] == entry
      requires !entry.closing && entry.owner.Some? && entry.owner.value !in s.dead
      modifies this`s, entry`refs
      ensures Valid() && s == Apply(old(s), Look(t)) && At(s, t, Done) && old(s.nextLease) in s.leases
      ensures s.leases[old(s.nextLease)] == Lease(key, owner, false)
    {
      hide Inv, Apply, At;
      Proofs.ApplyKeeps(s, Look(t));
      assert Listed(key);
      LookJoin(s, t, key);
      owner := entry.owner.value;
      entry.refs := entry.refs + 1;
      s := Apply(s, Look(t));
    }

    /** The branch of acquire that gives up on a dead owner. */
    method MarkStale(ghost t: ThreadId, key: string, entry: DirectClientEntry)
      requires Valid() && At(s, t, Ready(key)) && key in entries && entries[key] == entry
      requires !entry.closing && entry.owner.Some? && entry.owner.value in s.dead
      modifies this`s, entry`closing
      ensures Valid() && s == Apply(old(s), Look(t)) && At(s, t, ClosingDevice(entry.id, true))
    {
      hide Inv, Apply, At;
      Proofs.ApplyKeeps(s, Look(t));
      assert Listed(key);
      LookStale(s, t, key);
      entry.closing := true;
      s := Apply(s, Look(t));
    }

    /** The branch of acquire that finds nothing under the key. */
    method AddEntry(ghost t: ThreadId, key: string) returns (entry: DirectClientEntry)
      requires Valid() && At(s, t, Ready(key)) && key !in entries
      modifies this
      ensures Valid() && s == Apply(old(s), Look(t)) && fresh(entry) && At(s, t, Dialing(entry.id))
      ensures entries == old(entries)[key := entry]
    {
      hide Inv, Apply, At;
      Proofs.ApplyKeeps(s, Look(t));
      Proofs.FreshIds(s);
      LookNew(s, t, key);
      entry := new DirectClientEntry(s.nextEntry);
      entries := entries[key := entry];
      s := Apply(s, Look(t));
    }

    /** The branches of acquire that wait: nothing changes but the thread. */
    ghost method Await(t: ThreadId, key: string)
      requires Valid() && At(s, t, Ready(key)) && key in entries
      requires entries[key].closing || entries[key].owner == None
      modifies this`s
      ensures Valid() && s == Apply(old(s), Look(t))
      ensures At(s, t, if entries[key].closing then AwaitClosed(entries[key].id) else AwaitOpen(entries[key].id))
    {
      hide Inv, Apply, At;
      Proofs.ApplyKeeps(s, Look(t));
      assert Listed(key);
      LookWaits(s, t, key);
      s := Apply(s, Look(t));
    }

    /** One pass of the loop of acquire. */
    method AcquirePass(ghost t: ThreadId, key: string, dead: set<OwnerId>) returns (r: Pass)
      requires Valid() && At(s, t, Ready(key)) && dead == s.dead
      modifies this, entries.Values
      ensures Valid() && s == Apply(old(s), Look(t))
      ensures PassMatches(r, t, key, old(s.nextLease))
    {
      hide Inv, Apply, At;
      if key in entries {
        var entry := entries[key];
        if entry.closing {
          Await(t, key);
          return WaitClosed(entry);
        }
        if entry.owner.Some? {
          if entry.owner.value !in dead {
            var owner := Join(t, key, entry);
            return Leased(owner);
          }
          MarkStale(t, key, entry);
          return CloseStale(entry);
        }
        Await(t, key);
        return WaitOpen(entry);
      }
      var entry := AddEntry(t, key);
      return Dial(entry);
    }

    /** The answer of a pass is where the machine's thread went. */
    ghost predicate PassMatches(r: Pass, t: ThreadId, key: string, lease: LeaseId)
      reads this
    {
      match r
      case WaitClosed(entry) => At(s, t, Phase.AwaitClosed(entry.id))
      case WaitOpen(entry) => At(s, t, Phase.AwaitOpen(entry.id))
      case CloseStale(entry) => At(s, t, ClosingDevice(entry.id, true))
      case Dial(entry) => At(s, t, Dialing(entry.id))
      case Leased(owner) => At(s, t, Done) && lease in s.leases && s.leases[lease] == Lease(key, owner, false)
    }

    /** The critical section after a dial that worked. */
    method PublishOwner(ghost t: ThreadId, key: string, entry: DirectClientEntry, owner: OwnerId)
      requires Valid() && At(s, t, Dialing(entry.id)) && Held(key, entry) && owner == s.nextOwner
      modifies this`s, entry
      ensures Valid() && s == Apply(old(s), DialSucceeds(t)) && At(s, t, Done) && old(s.nextLease) in s.leases
      ensures s.leases[old(s.nextLease)] == Lease(key, owner, false)
    {
      hide Inv, Apply, At;
      Proofs.ApplyKeeps(s, DialSucceeds(t));
      DialSteps(s, t, entry.id);
      entry.owner := Some(owner);
      entry.refs := 1;
      entry.openingCloses := entry.openingCloses + 1;
      s := Apply(s, DialSucceeds(t));
    }

    /** The critical section after a dial that failed. */
    method DropEntry(ghost t: ThreadId, key: string, entry: DirectClientEntry)
      requires Valid() && At(s, t, CleaningUp(entry.id)) && Held(key, entry)
      modifies this, entry
      ensures Valid() && s == Apply(old(s), DropFailed(t)) && At(s, t, Done) && key !in entries
    {
      hide Inv, Apply, At;
      Proofs.ApplyKeeps(s, DropFailed(t));
      DropSteps(s, t, entry.id);
      entries := entries - {key};
      entry.openingCloses := entry.openingCloses + 1;
      entry.closedCloses := entry.closedCloses + 1;
      s := Apply(s, DropFailed(t));
    }

    /** release: the lease is given back, and the entry to close is returned if this was
        the last one that counts. */
    method Release(ghost t: ThreadId, ghost l: LeaseId, key: string, owner: OwnerId) returns (last: Option<DirectClientEntry>)
      requires Valid() && t !in s.threads
      requires l in s.leases && s.leases[l] == Lease(key, owner, false)
      modifies this, entries.Values
      ensures Valid() && s == Apply(old(s), Event.Release(t, l))
      ensures l in s.leases && s.leases[l].released
      ensures if last.Some? then At(s, t, ClosingDevice(last.value.id, false)) else At(s, t, Done)
    {
      hide Inv, Apply, At;
      Proofs.ApplyKeeps(s, Event.Release(t, l));
      ReleaseSteps(s, t, l, key, owner);
      if key !in entries {
        s := Apply(s, Event.Release(t, l));
        return None;
      }
      var entry := entries[key];
      assert Listed(key);
      if entry.owner != Some(owner) || entry.closing {
        s := Apply(s, Event.Release(t, l));
        return None;
      }
      ReleaseCounts(s, t, l, key, owner);
      entry.refs := entry.refs - 1;
      if entry.refs > 0 {
        s := Apply(s, Event.Release(t, l));
        return None;
      }
      entry.closing := true;
      s := Apply(s, Event.Release(t, l));
      return Some(entry);
    }

    /** The critical section at the end of closeEntry: the key is free, and the thread
        looks again if it is in acquire and returns if it is in release. */
    method FinishCloseEntry(ghost t: ThreadId, key: string, entry: DirectClientEntry, ghost retry: bool)
      requires Valid() && At(s, t, RemovingEntry(entry.id, retry)) && Held(key, entry)
      modifies this, entry
      ensures Valid() && s == Apply(old(s), RemoveEntry(t))
      ensures At(s, t, if retry then Ready(key) else Done) && key !in entries && key !in s.entries
    {
      hide Inv, Apply, At;
      Proofs.ApplyKeeps(s, RemoveEntry(t));
      Theorems.EntryRemoved(s, t, entry.id, retry);
      RemoveSteps(s, t, entry.id, retry);
      if key in entries && entries[key] == entry {
        entries := entries - {key};
        entry.closedCloses := entry.closedCloses + 1;
      }
      s := Apply(s, RemoveEntry(t));
    }
  }
}
