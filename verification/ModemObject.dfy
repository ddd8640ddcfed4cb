/** Modem and its bearers as an object: the critical sections of Connect, Disconnect,
    closeOwned, removeBearer and Close, each proved to be one step of the machine. */
module ModemObject {
  import opened Bytes
  import opened Bearers
  import Proofs = BearerProofs

  class Modem {
    var closed: bool
    var bearers: map<nat, Obj>
    var nextID: nat
    /** The bearer objects, by reference number. */
    var heap: seq<Bearer>
    ghost var owner: seq<Owner>
    ghost var disposals: seq<nat>
    ghost var modemLock: Option<Thread>
    ghost var bearerLocks: map<Obj, Thread>
    ghost var threads: map<Thread, Phase>
    ghost var closer: Option<Thread>
    ghost var todo: set<Obj>

    ghost function View(): State
      reads this
    {
      State(closed, bearers, nextID, heap, owner, disposals, modemLock, bearerLocks, threads, closer, todo)
    }

    /** The invariant of the machine, which every step keeps. */
    ghost predicate Valid()
      reads this
    {
      Inv(View())
    }

    constructor ()
      ensures View() == INIT && Valid()
    {
      closed, bearers, nextID, heap := false, map[], 0, [];
      owner, disposals, modemLock, bearerLocks, threads, closer, todo := [], [], None, map[], map[], None, {};
    }

    /** The end of Connect, with the modem's lock held: a bearer, or the session to close. */
    method Adopt(ghost t: Thread, session: Session) returns (bearer: Option<Obj>)
      requires Valid() && t in threads && threads[t] == Registering(session)
      modifies this
      ensures Valid() && forall outcome, pick :: View() == Apply(old(View()), Go(t, outcome, pick))
      ensures bearer == if old(closed) then None else Some(|old(heap)|)
      ensures bearer.Some? ==> |heap| == |old(heap)| + 1 && heap[bearer.value] == Bearer(nextID, session, false)
      ensures bearer.Some? ==> bearers == old(bearers)[nextID := bearer.value]
      ensures bearer == None ==> heap == old(heap) && bearers == old(bearers) && threads[t] == Rejecting(session)
    {
      hide Inv, Apply;
      Proofs.ApplyKeeps(View(), Go(t, Worked, 0));
      AdoptSteps(View(), t, session);
      modemLock := None;
      if closed {
        threads := threads[t := Rejecting(session)];
        return None;
      }
      nextID := nextID + 1;
      var o := |heap|;
      heap := heap + [Bearer(nextID, session, false)];
      bearers := bearers[nextID := o];
      owner := owner[session := OfBearer(o)];
      threads := threads[t := Done];
      return Some(o);
    }

    /** The session answered; the bearer's lock is held. */
    method FinishSession(ghost t: Thread, o: Obj, op: Op, ghost next: Next, outcome: Outcome) returns (removed: bool)
      requires Valid() && t in threads && threads[t] == InBearer(o, op, next)
      modifies this
      ensures Valid() && forall pick :: View() == Apply(old(View()), Go(t, outcome, pick))
      ensures o < |old(heap)| == |heap|
      ensures removed <==> !old(heap)[o].closed && !(op == Disconnecting && outcome == FailedUp)
      ensures if removed then heap[o].closed && threads[t].WantModem? && threads[t].o == o else heap == old(heap)
      ensures !removed && next == Return ==> threads[t] == Done
      ensures !removed && next == ThenOwned && !heap[o].closed ==> threads[t] == WantBearer(o, ClosingOwned, Return)
    {
      hide Inv, Apply;
      Proofs.ApplyKeeps(View(), Go(t, outcome, 0));
      WorkSteps(View(), t, o, op, next, outcome);
      var b := heap[o];
      if b.closed {
        threads := threads[t := if next == ThenOwned then Done else Onward(o, next)];
        bearerLocks := bearerLocks - {o};
        return false;
      }
      if op == Disconnecting && outcome == FailedUp {
        threads := threads[t := Onward(o, next)];
        bearerLocks := bearerLocks - {o};
        return false;
      }
      threads := threads[t := WantModem(o, if next == ThenOwned && outcome == Worked then Return else next)];
      disposals := disposals[b.session := disposals[b.session] + 1];
      heap := heap[o := b.(closed := true)];
      return true;
    }

    /** removeBearer, with both locks held. */
    method RemoveBearer(ghost t: Thread, o: Obj, ghost next: Next)
      requires Valid() && t in threads && threads[t] == Removing(o, next)
      modifies this
      ensures Valid() && forall outcome, pick :: View() == Apply(old(View()), Go(t, outcome, pick))
      ensures o < |heap| && heap == old(heap) && bearers == old(bearers) - {heap[o].id} && o !in bearerLocks
    {
      hide Inv, Apply;
      Proofs.ApplyKeeps(View(), Go(t, Worked, 0));
      RemoveSteps(View(), t, o, next);
      var id := heap[o].id;
      if id in bearers {
        bearers := bearers - {id};
      } else {
        assert bearers - {id} == bearers;
      }
      modemLock := None;
      bearerLocks := bearerLocks - {o};
      threads := threads[t := Onward(o, next)];
    }

    /** The loop of Close over the table: every bearer once. */
    method Registered() returns (list: seq<Obj>)
      requires Distinct(bearers)
      ensures forall o :: o in list <==> o in bearers.Values
      ensures forall i, j :: 0 <= i < j < |list| ==> list[i] != list[j]
    {
      list := [];
      var rest := bearers.Keys;
      while rest != {}
        invariant rest <= bearers.Keys
        invariant forall o :: o in list <==> Met(bearers, rest, o)
        invariant forall i, j :: 0 <= i < j < |list| ==> list[i] != list[j]
        decreases |rest|
      {
        var k: nat :| k in rest;
        MeetsNext(bearers, rest, k);
        hide Met, Distinct;
        list := list + [bearers[k]];
        rest := rest - {k};
      }
    }

    /** The critical section of Close: the bearers to sweep, each once. */
    method BeginClose(ghost t: Thread) returns (list: seq<Obj>)
      requires Valid() && t in threads && threads[t] == InClose
      modifies this
      ensures Valid() && forall outcome, pick :: View() == Apply(old(View()), Go(t, outcome, pick))
      ensures forall o :: o in list <==> o in todo
      ensures closed && bearers == map[] && todo == old(bearers).Values
      ensures forall i, j :: 0 <= i < j < |list| ==> list[i] != list[j]
    {
      hide Inv, Apply, Distinct;
      Proofs.ApplyKeeps(View(), Go(t, Worked, 0));
      ShutSteps(View(), t);
      DistinctTable(View());
      closed := true;
      list := Registered();
      todo := bearers.Values;
      bearers := map[];
      modemLock := None;
      threads := threads[t := Sweeping];
    }
  }

  /** No bearer is in the table under two numbers. */
  ghost predicate Distinct(bearers: map<nat, Obj>) {
    forall j, k :: j in bearers && k in bearers && bearers[j] == bearers[k] ==> j == k
  }

  lemma DistinctTable(s: State)
    requires Inv(s)
    ensures Distinct(s.bearers)
  {
    hide LocksOk, ThreadsOk, ObjsOk, SessionsOk;
  }

  /** The loop has met the bearer. */
  ghost predicate Met(bearers: map<nat, Obj>, rest: set<nat>, o: Obj) {
    exists k :: k in bearers && k !in rest && bearers[k] == o
  }

  lemma MeetsNext(bearers: map<nat, Obj>, rest: set<nat>, k: nat)
    requires Distinct(bearers) && k in rest && rest <= bearers.Keys
    ensures !Met(bearers, rest, bearers[k])
    ensures forall o :: Met(bearers, rest - {k}, o) <==> Met(bearers, rest, o) || o == bearers[k]
  {
    forall o ensures Met(bearers, rest - {k}, o) <==> Met(bearers, rest, o) || o == bearers[k] {
      if Met(bearers, rest, o) {
        var j :| j in bearers && j !in rest && bearers[j] == o;
        assert j !in rest - {k};
      }
      if o == bearers[k] { assert k in bearers && k !in rest - {k}; }
    }
  }

  // In the phase that takes it, a step of the machine is the critical section.

  lemma AdoptSteps(s: State, t: Thread, x: Session)
    requires Inv(s) && t in s.threads && s.threads[t] == Registering(x)
    ensures x < |s.owner| && forall outcome, pick :: Apply(s, Go(t, outcome, pick)) == Register(s, t, x)
  {
    assert ThreadOk(s, t);
    hide LocksOk, ThreadsOk, ObjsOk, SessionsOk, TableOk, Register;
  }

  lemma WorkSteps(s: State, t: Thread, o: Obj, op: Op, next: Next, outcome: Outcome)
    requires Inv(s) && t in s.threads && s.threads[t] == InBearer(o, op, next)
    ensures o < |s.objs| && s.objs[o].session < |s.disposals|
    ensures forall pick :: Apply(s, Go(t, outcome, pick)) == Work(s, t, o, op, next, outcome)
  {
    assert ThreadOk(s, t);
    assert ObjOk(s, o);
    hide LocksOk, ThreadsOk, ObjsOk, SessionsOk, TableOk, Work;
  }

  lemma RemoveSteps(s: State, t: Thread, o: Obj, next: Next)
    requires Inv(s) && t in s.threads && s.threads[t] == Removing(o, next)
    ensures o < |s.objs| && forall outcome, pick :: Apply(s, Go(t, outcome, pick)) == Remove(s, t, o, next)
  {
    assert ThreadOk(s, t);
    hide LocksOk, ThreadsOk, ObjsOk, SessionsOk, TableOk, Remove;
  }

  lemma ShutSteps(s: State, t: Thread)
    requires t in s.threads && s.threads[t] == InClose
    ensures forall outcome, pick :: Apply(s, Go(t, outcome, pick)) == Shut(s, t)
  {
    hide Shut;
  }
}
