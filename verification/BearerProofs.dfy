/** Every step of connecting, disconnecting and closing keeps the invariant. */
module BearerProofs {
  import opened Bytes
  import opened Bearers

  /** A step of thread t as every other thread sees it. */
  ghost predicate ThreadFrame(s: State, s': State, t: Thread) {
    && (forall u :: u != t ==> (u in s'.threads <==> u in s.threads) && (u in s.threads ==> s'.threads[u] == s.threads[u]))
    && (forall u :: u != t ==> (s'.modemLock == Some(u) <==> s.modemLock == Some(u)))
    && (forall o :: o in s.bearerLocks && s.bearerLocks[o] != t ==> o in s'.bearerLocks && s'.bearerLocks[o] == s.bearerLocks[o])
    && |s.owner| <= |s'.owner| && |s.objs| <= |s'.objs|
    && (forall x :: 0 <= x < |s.owner| && s.owner[x] != OfThread(t) ==> s'.owner[x] == s.owner[x])
    && (forall o :: 0 <= o < |s.objs| && s.objs[o].closed ==> s'.objs[o].closed)
    && (s.closer.Some? ==> s'.closer == s.closer) && (s'.closer == s.closer || s'.closer == Some(t))
    && (s.closer != Some(t) ==> s'.closed == s.closed && s'.todo == s.todo)
  }

  lemma OthersKeep(s: State, s': State, t: Thread)
    requires ThreadsOk(s) && ThreadFrame(s, s', t) && TableOk(s) && (t in s'.threads ==> ThreadOk(s', t))
    ensures ThreadsOk(s')
  {
    forall u | u in s'.threads ensures ThreadOk(s', u) {
      if u != t {
        assert ThreadOk(s, u);
        OtherKeeps(s, s', t, u);
      }
    }
  }

  lemma OtherKeeps(s: State, s': State, t: Thread, u: Thread)
    requires ThreadOk(s, u) && u != t && ThreadFrame(s, s', t) && TableOk(s)
    ensures ThreadOk(s', u)
  {
  }

  /** What stays the same for a bearer no step has touched. */
  ghost predicate ObjFrame(s: State, s': State, o: Obj)
    requires ObjOk(s, o)
  {
    var b := s.objs[o];
    && o < |s'.objs| && s'.objs[o] == b && s.nextID <= s'.nextID
    && b.session < |s'.owner| && s'.owner[b.session] == s.owner[b.session]
    && b.session < |s'.disposals| && s'.disposals[b.session] == s.disposals[b.session]
  }

  ghost predicate Tracked(s: State, o: Obj, id: nat) {
    (id in s.bearers && s.bearers[id] == o) || (s.closed && (o in s.todo || InHand(s, o)))
  }

  lemma ObjKeeps(s: State, s': State, o: Obj)
    requires ObjOk(s, o) && ObjFrame(s, s', o)
    requires !s.objs[o].closed && Tracked(s, o, s.objs[o].id) ==> Tracked(s', o, s.objs[o].id)
    ensures ObjOk(s', o)
  {
  }

  // ---- steps that change nothing but a thread and a lock ----

  /** Thread t, carrying the same session as before, moves on. */
  ghost predicate PlainMove(s: State, s': State, t: Thread) {
    && s'.bearers == s.bearers && s'.nextID == s.nextID && s'.objs == s.objs && s'.owner == s.owner
    && s'.disposals == s.disposals && s'.closed == s.closed && s'.todo == s.todo
    && t in s'.threads
    && (forall u :: u != t ==> (u in s'.threads <==> u in s.threads) && (u in s.threads ==> s'.threads[u] == s.threads[u]))
    && (t in s.threads ==> Carries(s'.threads[t]) == Carries(s.threads[t]))
  }

  lemma PlainSessions(s: State, s': State, t: Thread)
    requires SessionsOk(s) && PlainMove(s, s', t)
    ensures SessionsOk(s')
  {
    forall x | 0 <= x < |s'.owner| ensures SessionOk(s', x) {
      assert SessionOk(s, x);
    }
  }

  lemma PlainObjs(s: State, s': State, t: Thread)
    requires ObjsOk(s) && PlainMove(s, s', t) && (s.closer.Some? ==> s'.closer == s.closer)
    requires s.closer == Some(t) && t in s.threads ==> forall o :: InHand(s, o) ==> InHand(s', o)
    requires s.closer.Some? ==> s.closer.value in s.threads
    ensures ObjsOk(s')
  {
    forall o | 0 <= o < |s'.objs| ensures ObjOk(s', o) {
      assert ObjOk(s, o);
      if InHand(s, o) { assert InHand(s', o); }
      ObjKeeps(s, s', o);
    }
  }

  lemma PlainKeeps(s: State, s': State, t: Thread)
    requires Inv(s) && ThreadFrame(s, s', t) && PlainMove(s, s', t) && ThreadOk(s', t) && LocksOk(s')
    requires s.closer == Some(t) && t in s.threads ==> forall o :: InHand(s, o) ==> InHand(s', o)
    ensures Inv(s')
  {
    assert TableOk(s') by { hide ThreadsOk, SessionsOk, ObjsOk, LocksOk; }
    hide ThreadOk, ObjOk, SessionOk;
    OthersKeep(s, s', t);
    PlainSessions(s, s', t);
    PlainObjs(s, s', t);
  }

  lemma StartKeeps(s: State, t: Thread, p: Phase, closer: Option<Thread>)
    requires Inv(s) && t !in s.threads
    requires p == Dialing || p == WantClose || (p.WantBearer? && p.op == Disconnecting && p.o < |s.objs| && p.next != Sweep)
    requires if p == WantClose then s.closer == None && closer == Some(t) else closer == s.closer
    ensures Inv(Move(s, t, p).(closer := closer))
  {
    var s' := Move(s, t, p).(closer := closer);
    StartFrame(s, t, p, closer);
    StartThread(s, t, p, closer);
    hide ThreadsOk, SessionsOk, ObjsOk, ThreadOk, TableOk, LocksOk, ThreadFrame, PlainMove;
    PlainKeeps(s, s', t);
  }

  lemma StartFrame(s: State, t: Thread, p: Phase, closer: Option<Thread>)
    requires LocksOk(s) && TableOk(s) && t !in s.threads
    requires if p == WantClose then s.closer == None && closer == Some(t) else closer == s.closer
    ensures s.modemLock != Some(t) && s.closer != Some(t)
    ensures var s' := Move(s, t, p).(closer := closer); LocksOk(s') && ThreadFrame(s, s', t) && PlainMove(s, s', t)
  {
  }

  lemma StartThread(s: State, t: Thread, p: Phase, closer: Option<Thread>)
    requires TableOk(s) && t !in s.threads && s.modemLock != Some(t) && s.closer != Some(t)
    requires p == Dialing || p == WantClose || (p.WantBearer? && p.op == Disconnecting && p.o < |s.objs| && p.next != Sweep)
    requires if p == WantClose then s.closer == None && closer == Some(t) else closer == s.closer
    ensures ThreadOk(Move(s, t, p).(closer := closer), t)
  {
  }

  lemma LockModemLocks(s: State, t: Thread, p: Phase)
    requires LocksOk(s) && t in s.threads && s.modemLock == None && HoldsModem(p) && HoldsBearer(p) == HoldsBearer(s.threads[t])
    ensures LocksOk(LockModem(s, t, p))
  {
  }

  lemma LockModemFrame(s: State, t: Thread, p: Phase)
    requires s.modemLock == None && t in s.threads && Carries(p) == Carries(s.threads[t])
    ensures ThreadFrame(s, LockModem(s, t, p), t) && PlainMove(s, LockModem(s, t, p), t)
  {
  }

  lemma LockModemThread(s: State, t: Thread, p: Phase)
    requires ThreadOk(s, t) && s.modemLock == None
    requires match s.threads[t]
      case HasSession(x) => p == Registering(x)
      case WantModem(o, next) => p == Removing(o, next)
      case WantClose => p == InClose
      case _ => false
    ensures ThreadOk(LockModem(s, t, p), t)
  {
  }

  lemma LockModemKeeps(s: State, t: Thread, p: Phase)
    requires Inv(s) && t in s.threads
    requires match s.threads[t]
      case HasSession(x) => p == Registering(x)
      case WantModem(o, next) => p == Removing(o, next)
      case WantClose => p == InClose
      case _ => false
    ensures Inv(LockModem(s, t, p))
  {
    if s.modemLock == None {
      assert ThreadOk(s, t);
      hide ThreadsOk, SessionsOk, ObjsOk, TableOk, ThreadOk, ThreadFrame, PlainMove, LocksOk;
      LockModemFrame(s, t, p);
      LockModemThread(s, t, p);
      LockModemLocks(s, t, p);
      PlainKeeps(s, LockModem(s, t, p), t);
    }
  }

  lemma LockBearerFacts(s: State, t: Thread, o: Obj, op: Op, next: Next)
    requires ThreadOk(s, t) && LocksOk(s) && s.threads[t] == WantBearer(o, op, next) && o !in s.bearerLocks
    ensures var s' := LockBearer(s, t, o, InBearer(o, op, next));
      ThreadOk(s', t) && LocksOk(s') && ThreadFrame(s, s', t) && PlainMove(s, s', t)
  {
  }

  lemma LockBearerKeeps(s: State, t: Thread, o: Obj, op: Op, next: Next)
    requires Inv(s) && t in s.threads && s.threads[t] == WantBearer(o, op, next)
    ensures Inv(LockBearer(s, t, o, InBearer(o, op, next)))
  {
    var s' := LockBearer(s, t, o, InBearer(o, op, next));
    if o !in s.bearerLocks {
      assert ThreadOk(s, t);
      LockBearerFacts(s, t, o, op, next);
      hide ThreadsOk, SessionsOk, ObjsOk, TableOk, ThreadOk, LocksOk, ThreadFrame, PlainMove;
      PlainKeeps(s, s', t);
    }
  }

  /** Dialing, and a step of the sweep that finds nothing left. */
  lemma DoneKeeps(s: State, t: Thread)
    requires Inv(s) && t in s.threads && (s.threads[t] == Dialing || (s.threads[t] == Sweeping && s.todo == {}))
    ensures Inv(Move(s, t, Done))
  {
    var s' := Move(s, t, Done);
    assert ThreadOk(s, t);
    DoneFacts(s, t);
    hide ThreadsOk, SessionsOk, ObjsOk, TableOk, ThreadOk, LocksOk, ThreadFrame, PlainMove;
    PlainKeeps(s, s', t);
  }

  lemma DoneFacts(s: State, t: Thread)
    requires ThreadOk(s, t) && LocksOk(s) && (s.threads[t] == Dialing || (s.threads[t] == Sweeping && s.todo == {}))
    ensures var s' := Move(s, t, Done); ThreadOk(s', t) && LocksOk(s') && ThreadFrame(s, s', t) && PlainMove(s, s', t)
  {
  }

  // ---- dialing ----

  lemma DialKeeps(s: State, t: Thread)
    requires Inv(s) && t in s.threads && s.threads[t] == Dialing
    ensures Inv(Dial(s, t, Worked))
  {
    var s' := Dial(s, t, Worked);
    assert ThreadOk(s, t);
    assert SessionsOk(s') by {
      hide ThreadsOk, ObjsOk, LocksOk;
      forall x | 0 <= x < |s'.owner| ensures SessionOk(s', x) {
        if x < |s.owner| { assert SessionOk(s, x); }
      }
    }
    assert ObjsOk(s') by {
      hide ThreadsOk, SessionsOk, TableOk;
      forall o | 0 <= o < |s'.objs| ensures ObjOk(s', o) {
        assert ObjOk(s, o);
        if InHand(s, o) { assert InHand(s', o); }
        ObjKeeps(s, s', o);
      }
    }
    DialFacts(s, t);
    hide SessionsOk, ObjsOk, TableOk, LocksOk, ThreadOk, ThreadFrame, Dial;
    OthersKeep(s, s', t);
  }

  lemma DialFacts(s: State, t: Thread)
    requires ThreadOk(s, t) && LocksOk(s) && TableOk(s) && s.threads[t] == Dialing
    ensures var s' := Dial(s, t, Worked); ThreadOk(s', t) && LocksOk(s') && TableOk(s') && ThreadFrame(s, s', t)
  {
  }

  // ---- the end of Connect ----

  lemma RejectingKeeps(s: State, t: Thread, x: Session)
    requires Inv(s) && t in s.threads && s.threads[t] == Registering(x) && s.closed && x < |s.owner|
    ensures Inv(Register(s, t, x))
  {
    var s' := Register(s, t, x);
    assert ThreadOk(s, t);
    hide ThreadsOk, SessionsOk, ObjsOk, TableOk;
    assert ThreadOk(s', t);
    hide ThreadOk;
    assert LocksOk(s');
    hide LocksOk;
    PlainKeeps(s, s', t);
  }

  lemma RegisterObjs(s: State, t: Thread, x: Session)
    requires Inv(s) && t in s.threads && s.threads[t] == Registering(x) && !s.closed && x < |s.owner| && s.owner[x] == OfThread(t)
    ensures ObjsOk(Register(s, t, x))
  {
    var s' := Register(s, t, x);
    assert SessionOk(s, x);
    hide ThreadsOk, SessionsOk, LocksOk;
    forall o | 0 <= o < |s'.objs| ensures ObjOk(s', o) {
      if o < |s.objs| {
        assert ObjOk(s, o);
        ObjKeeps(s, s', o);
      }
    }
  }

  lemma RegisterSessions(s: State, t: Thread, x: Session)
    requires Inv(s) && t in s.threads && s.threads[t] == Registering(x) && !s.closed && x < |s.owner| && s.owner[x] == OfThread(t)
    ensures SessionsOk(Register(s, t, x))
  {
    var s' := Register(s, t, x);
    hide ThreadsOk, ObjsOk, LocksOk;
    forall y | 0 <= y < |s'.owner| ensures SessionOk(s', y) {
      assert SessionOk(s, y);
    }
  }

  lemma RegisterTable(s: State, t: Thread, x: Session)
    requires Inv(s) && t in s.threads && s.threads[t] == Registering(x) && !s.closed && x < |s.owner|
    ensures TableOk(Register(s, t, x)) && LocksOk(Register(s, t, x))
  {
    assert ThreadOk(s, t);
    forall o | 0 <= o < |s.objs| ensures s.objs[o].id <= s.nextID { assert ObjOk(s, o); }
    hide ThreadsOk, ObjsOk, SessionsOk;
  }

  lemma RegisterKeeps(s: State, t: Thread, x: Session)
    requires Inv(s) && t in s.threads && s.threads[t] == Registering(x) && x < |s.owner|
    ensures Inv(Register(s, t, x))
  {
    if s.closed {
      RejectingKeeps(s, t, x);
    } else {
      var s' := Register(s, t, x);
      assert ThreadOk(s, t);
      RegisterObjs(s, t, x);
      RegisterSessions(s, t, x);
      RegisterTable(s, t, x);
      hide ObjsOk, SessionsOk, LocksOk;
      assert ThreadOk(s', t);
      OthersKeep(s, s', t);
    }
  }

  lemma RejectKeeps(s: State, t: Thread, x: Session)
    requires Inv(s) && t in s.threads && s.threads[t] == Rejecting(x) && x < |s.owner| && x < |s.disposals|
    ensures Inv(Reject(s, t, x))
  {
    var s' := Reject(s, t, x);
    assert ThreadOk(s, t);
    assert SessionsOk(s') by {
      hide ThreadsOk, ObjsOk, LocksOk;
      forall y | 0 <= y < |s'.owner| ensures SessionOk(s', y) { assert SessionOk(s, y); }
    }
    assert ObjsOk(s') by {
      hide ThreadsOk, SessionsOk, TableOk;
      forall o | 0 <= o < |s'.objs| ensures ObjOk(s', o) {
        assert ObjOk(s, o);
        if InHand(s, o) { assert InHand(s', o); }
        ObjKeeps(s, s', o);
      }
    }
    RejectFacts(s, t, x);
    hide SessionsOk, ObjsOk, TableOk, LocksOk, ThreadOk, ThreadFrame, Reject;
    OthersKeep(s, s', t);
  }

  lemma RejectFacts(s: State, t: Thread, x: Session)
    requires ThreadOk(s, t) && LocksOk(s) && TableOk(s) && s.threads[t] == Rejecting(x) && x < |s.owner| && x < |s.disposals|
    ensures var s' := Reject(s, t, x); ThreadOk(s', t) && LocksOk(s') && TableOk(s') && ThreadFrame(s, s', t)
  {
  }

  // ---- working on a bearer ----

  /** The bearer is closed already, or its session is still up after a failed attempt. */
  lemma LeaveKeeps(s: State, t: Thread, o: Obj, op: Op, next: Next, p: Phase)
    requires Inv(s) && t in s.threads && s.threads[t] == InBearer(o, op, next) && o < |s.objs|
    requires s.objs[o].closed || op == Disconnecting
    requires p == Onward(o, next) || (p == Done && next == ThenOwned)
    ensures Inv(Move(s, t, p).(bearerLocks := s.bearerLocks - {o}))
  {
    var s' := Move(s, t, p).(bearerLocks := s.bearerLocks - {o});
    assert ThreadOk(s, t);
    LeaveFacts(s, t, o, op, next, p);
    LeaveObjs(s, t, o, op, next, p);
    hide ThreadOk, ObjsOk, LocksOk;
    PlainSessions(s, s', t);
    hide SessionsOk;
    OthersKeep(s, s', t);
  }

  lemma LeaveFacts(s: State, t: Thread, o: Obj, op: Op, next: Next, p: Phase)
    requires ThreadOk(s, t) && LocksOk(s) && TableOk(s) && s.threads[t] == InBearer(o, op, next)
    requires p == Onward(o, next) || (p == Done && next == ThenOwned)
    ensures var s' := Move(s, t, p).(bearerLocks := s.bearerLocks - {o});
      ThreadOk(s', t) && LocksOk(s') && TableOk(s') && ThreadFrame(s, s', t) && PlainMove(s, s', t)
  {
  }

  lemma LeaveObjs(s: State, t: Thread, o: Obj, op: Op, next: Next, p: Phase)
    requires Inv(s) && t in s.threads && s.threads[t] == InBearer(o, op, next) && o < |s.objs|
    requires s.objs[o].closed || op == Disconnecting
    ensures ObjsOk(Move(s, t, p).(bearerLocks := s.bearerLocks - {o}))
  {
    var s' := Move(s, t, p).(bearerLocks := s.bearerLocks - {o});
    assert ThreadOk(s, t);
    hide ThreadsOk, SessionsOk, TableOk;
    forall q | 0 <= q < |s'.objs| ensures ObjOk(s', q) {
      assert ObjOk(s, q);
      if InHand(s, q) && q != o { assert InHand(s', q); }
      ObjKeeps(s, s', q);
    }
  }

  /** The state after the session of bearer o was disposed of. */
  function Disposed(s: State, t: Thread, o: Obj, next: Next): State
    requires o < |s.objs| && s.objs[o].session < |s.disposals|
  {
    Dispose(Move(s, t, WantModem(o, next)), s.objs[o].session).(objs := s.objs[o := s.objs[o].(closed := true)])
  }

  lemma DisposedObjs(s: State, t: Thread, o: Obj, op: Op, next: Next, after: Next)
    requires Inv(s) && t in s.threads && s.threads[t] == InBearer(o, op, next) && o < |s.objs| && !s.objs[o].closed
    ensures s.objs[o].session < |s.disposals| && ObjsOk(Disposed(s, t, o, after))
  {
    assert ObjOk(s, o) && ThreadOk(s, t);
    var s' := Disposed(s, t, o, after);
    hide ThreadsOk, SessionsOk, TableOk;
    forall q | 0 <= q < |s'.objs| ensures ObjOk(s', q) {
      assert ObjOk(s, q);
      if q != o {
        if InHand(s, q) { assert InHand(s', q); }
        ObjKeeps(s, s', q);
      }
    }
  }

  lemma DisposedSessions(s: State, t: Thread, o: Obj, op: Op, next: Next, after: Next)
    requires Inv(s) && t in s.threads && s.threads[t] == InBearer(o, op, next) && o < |s.objs| && !s.objs[o].closed
    requires s.objs[o].session < |s.disposals|
    ensures SessionsOk(Disposed(s, t, o, after))
  {
    assert ObjOk(s, o);
    var s' := Disposed(s, t, o, after);
    hide ThreadsOk, ObjsOk, LocksOk;
    forall x | 0 <= x < |s'.owner| ensures SessionOk(s', x) {
      assert SessionOk(s, x);
    }
  }

  lemma DisposedFacts(s: State, t: Thread, o: Obj, op: Op, next: Next, after: Next)
    requires ThreadOk(s, t) && LocksOk(s) && TableOk(s) && s.threads[t] == InBearer(o, op, next)
    requires after == next || (next == ThenOwned && after == Return)
    requires s.objs[o].session < |s.disposals|
    ensures var s' := Disposed(s, t, o, after);
      ThreadOk(s', t) && LocksOk(s') && TableOk(s') && ThreadFrame(s, s', t)
  {
  }

  lemma DisposedKeeps(s: State, t: Thread, o: Obj, op: Op, next: Next, after: Next)
    requires Inv(s) && t in s.threads && s.threads[t] == InBearer(o, op, next) && o < |s.objs| && !s.objs[o].closed
    requires after == next || (next == ThenOwned && after == Return)
    requires s.objs[o].session < |s.disposals|
    ensures Inv(Disposed(s, t, o, after))
  {
    assert ThreadOk(s, t);
    DisposedObjs(s, t, o, op, next, after);
    DisposedSessions(s, t, o, op, next, after);
    DisposedFacts(s, t, o, op, next, after);
    hide ThreadOk, ObjsOk, SessionsOk, LocksOk, TableOk, ThreadFrame;
    OthersKeep(s, Disposed(s, t, o, after), t);
  }

  lemma WorkKeeps(s: State, t: Thread, o: Obj, op: Op, next: Next, outcome: Outcome)
    requires Inv(s) && t in s.threads && s.threads[t] == InBearer(o, op, next)
    requires o < |s.objs| && s.objs[o].session < |s.disposals|
    ensures Inv(Work(s, t, o, op, next, outcome))
  {
    hide Inv;
    if s.objs[o].closed {
      LeaveKeeps(s, t, o, op, next, if next == ThenOwned then Done else Onward(o, next));
    } else if op == Disconnecting && outcome == FailedUp {
      LeaveKeeps(s, t, o, op, next, Onward(o, next));
    } else {
      DisposedKeeps(s, t, o, op, next, if next == ThenOwned && outcome == Worked then Return else next);
    }
  }

  // ---- removing a bearer from the table ----

  lemma RemoveFacts(s: State, t: Thread, o: Obj, next: Next)
    requires ThreadOk(s, t) && LocksOk(s) && TableOk(s) && s.threads[t] == Removing(o, next)
    ensures var s' := Remove(s, t, o, next);
      ThreadOk(s', t) && LocksOk(s') && TableOk(s') && ThreadFrame(s, s', t)
  {
  }

  lemma RemoveObjs(s: State, t: Thread, o: Obj, next: Next)
    requires Inv(s) && t in s.threads && s.threads[t] == Removing(o, next) && o < |s.objs|
    ensures ObjsOk(Remove(s, t, o, next))
  {
    var s' := Remove(s, t, o, next);
    assert ThreadOk(s, t) && ObjOk(s, o);
    hide ThreadsOk, SessionsOk;
    forall q | 0 <= q < |s'.objs| ensures ObjOk(s', q) {
      assert ObjOk(s, q);
      if InHand(s, q) { assert InHand(s', q); }
      ObjKeeps(s, s', q);
    }
  }

  lemma RemoveKeeps(s: State, t: Thread, o: Obj, next: Next)
    requires Inv(s) && t in s.threads && s.threads[t] == Removing(o, next) && o < |s.objs|
    ensures Inv(Remove(s, t, o, next))
  {
    var s' := Remove(s, t, o, next);
    assert ThreadOk(s, t);
    RemoveFacts(s, t, o, next);
    RemoveObjs(s, t, o, next);
    hide ThreadOk, ObjsOk, LocksOk, TableOk, ThreadFrame;
    OthersKeep(s, s', t);
    hide ThreadsOk;
    forall x | 0 <= x < |s'.owner| ensures SessionOk(s', x) { assert SessionOk(s, x); }
  }

  // ---- closing the modem ----

  lemma ShutFacts(s: State, t: Thread)
    requires ThreadOk(s, t) && LocksOk(s) && TableOk(s) && s.threads[t] == InClose
    ensures var s' := Shut(s, t); ThreadOk(s', t) && LocksOk(s') && TableOk(s') && ThreadFrame(s, s', t)
  {
  }

  lemma ShutObjs(s: State, t: Thread)
    requires Inv(s) && t in s.threads && s.threads[t] == InClose
    ensures ObjsOk(Shut(s, t))
  {
    var s' := Shut(s, t);
    assert ThreadOk(s, t);
    hide ThreadsOk, SessionsOk;
    forall q | 0 <= q < |s'.objs| ensures ObjOk(s', q) {
      assert ObjOk(s, q);
      if !s.objs[q].closed { assert s.bearers[s.objs[q].id] == q && q in s.bearers.Values; }
      ObjKeeps(s, s', q);
    }
  }

  lemma ShutKeeps(s: State, t: Thread)
    requires Inv(s) && t in s.threads && s.threads[t] == InClose
    ensures Inv(Shut(s, t))
  {
    var s' := Shut(s, t);
    assert ThreadOk(s, t);
    ShutFacts(s, t);
    ShutObjs(s, t);
    hide ThreadOk, ObjsOk, LocksOk, TableOk, ThreadFrame;
    OthersKeep(s, s', t);
    hide ThreadsOk;
    forall x | 0 <= x < |s'.owner| ensures SessionOk(s', x) { assert SessionOk(s, x); }
  }

  lemma SweepOneFacts(s: State, t: Thread, pick: Obj)
    requires ThreadOk(s, t) && LocksOk(s) && TableOk(s) && s.threads[t] == Sweeping && pick in s.todo
    ensures var s' := SweepOne(s, t, pick); ThreadOk(s', t) && LocksOk(s') && TableOk(s') && ThreadFrame(s, s', t)
  {
  }

  lemma SweepOneKeeps(s: State, t: Thread, pick: Obj)
    requires Inv(s) && t in s.threads && s.threads[t] == Sweeping && pick in s.todo
    ensures Inv(SweepOne(s, t, pick))
  {
    var s' := SweepOne(s, t, pick);
    assert ThreadOk(s, t);
    SweepOneFacts(s, t, pick);
    assert ObjsOk(s') by {
      hide ThreadsOk, SessionsOk, TableOk, ThreadFrame, LocksOk;
      forall q | 0 <= q < |s'.objs| ensures ObjOk(s', q) {
        assert ObjOk(s, q);
        if q == pick { assert InHand(s', q); }
        ObjKeeps(s, s', q);
      }
    }
    hide ThreadOk, ObjsOk, LocksOk, TableOk, ThreadFrame;
    OthersKeep(s, s', t);
    hide ThreadsOk;
    forall x | 0 <= x < |s'.owner| ensures SessionOk(s', x) { assert SessionOk(s, x); }
  }

  // ---- runs ----

  lemma AdvanceKeeps(s: State, t: Thread, outcome: Outcome, pick: Obj)
    requires Inv(s) && t in s.threads
    ensures Inv(Advance(s, t, outcome, pick))
  {
    hide Inv;
    match s.threads[t]
    case Dialing => if outcome == Worked { DialKeeps(s, t); } else { DoneKeeps(s, t); }
    case HasSession(x) => LockModemKeeps(s, t, Registering(x));
    case Registering(x) => if x < |s.owner| { RegisterKeeps(s, t, x); }
    case Rejecting(x) => if x < |s.owner| && x < |s.disposals| { RejectKeeps(s, t, x); }
    case WantBearer(o, op, next) => LockBearerKeeps(s, t, o, op, next);
    case InBearer(o, op, next) =>
      if o < |s.objs| && s.objs[o].session < |s.disposals| { WorkKeeps(s, t, o, op, next, outcome); }
    case WantModem(o, next) => LockModemKeeps(s, t, Removing(o, next));
    case Removing(o, next) => if o < |s.objs| { RemoveKeeps(s, t, o, next); }
    case WantClose => LockModemKeeps(s, t, InClose);
    case InClose => ShutKeeps(s, t);
    case Sweeping => if s.todo == {} { DoneKeeps(s, t); } else if pick in s.todo { SweepOneKeeps(s, t, pick); }
    case Done =>
  }

  lemma ApplyKeeps(s: State, e: Event)
    requires Inv(s)
    ensures Inv(Apply(s, e))
  {
    hide Inv;
    match e
    case Connect(t) => if t !in s.threads { StartKeeps(s, t, Dialing, s.closer); }
    case Disconnect(t, o) =>
      if t !in s.threads && o < |s.objs| { StartKeeps(s, t, WantBearer(o, Disconnecting, Return), s.closer); }
    case CloseBearer(t, o) =>
      if t !in s.threads && o < |s.objs| { StartKeeps(s, t, WantBearer(o, Disconnecting, ThenOwned), s.closer); }
    case CloseModem(t) => if t !in s.threads && s.closer == None { StartKeeps(s, t, WantClose, Some(t)); }
    case Go(t, outcome, pick) => if t in s.threads { AdvanceKeeps(s, t, outcome, pick); }
  }

  lemma {:induction false} RunKeeps(s: State, es: seq<Event>)
    requires Inv(s)
    ensures Inv(Run(s, es))
    decreases es
  {
    if es != [] {
      ApplyKeeps(s, es[0]);
      RunKeeps(Apply(s, es[0]), es[1..]);
    }
  }

  // ---- theorems ----

  function After(es: seq<Event>): State { Run(INIT, es) }

  lemma Reached(es: seq<Event>)
    ensures Inv(After(es))
  {
    RunKeeps(INIT, es);
  }

  /** Every session is disposed of at most once, in every run. */
  lemma DisposedAtMostOnce(es: seq<Event>, x: Session)
    requires x < |After(es).disposals|
    ensures After(es).disposals[x] <= 1
  {
    var s := After(es);
    Reached(es);
    assert SessionOk(s, x);
    if s.owner[x].OfBearer? { assert ObjOk(s, s.owner[x].o); }
  }

  /** Modem.Close has returned. */
  ghost predicate ModemCloseReturned(s: State) {
    s.closer.Some? && s.closer.value in s.threads && s.threads[s.closer.value] == Done
  }

  /** Every Connect has returned. */
  ghost predicate NoConnectInFlight(s: State) {
    forall t :: t in s.threads ==> Carries(s.threads[t]) == None
  }

  /** Once Modem.Close and every Connect have returned, no session is left live. */
  lemma NothingLeftLive(es: seq<Event>, x: Session)
    requires ModemCloseReturned(After(es)) && NoConnectInFlight(After(es)) && x < |After(es).disposals|
    ensures After(es).disposals[x] == 1
  {
    var s := After(es);
    Reached(es);
    assert ThreadOk(s, s.closer.value);
    assert SessionOk(s, x);
    if s.owner[x].OfBearer? { assert ObjOk(s, s.owner[x].o); }
  }

  /** Bearer IDs match their key in the table and are never given out twice. */
  lemma UniqueIDs(es: seq<Event>)
    ensures forall k :: k in After(es).bearers ==> After(es).bearers[k] < |After(es).objs| && After(es).objs[After(es).bearers[k]].id == k
    ensures forall i, j :: 0 <= i < j < |After(es).objs| ==> After(es).objs[i].id != After(es).objs[j].id
  {
    Reached(es);
  }

  /** Who holds the lock a thread waits for. */
  function WaitsFor(s: State, t: Thread): Option<Thread>
    requires t in s.threads
  {
    match s.threads[t]
    case HasSession(_) => s.modemLock
    case WantModem(_, _) => s.modemLock
    case WantClose => s.modemLock
    case WantBearer(o, _, _) => if o in s.bearerLocks then Some(s.bearerLocks[o]) else None
    case _ => None
  }

  predicate Blocked(s: State, t: Thread)
    requires t in s.threads
  {
    WaitsFor(s, t).Some?
  }

  /** A thread that is neither blocked nor finished. */
  predicate CanGoOn(s: State, t: Thread) {
    t in s.threads && s.threads[t] != Done && !Blocked(s, t)
  }

  /** The lock order is never inverted: who holds the modem's lock waits for nothing, who
      waits for a bearer's lock holds nothing. */
  lemma LockOrder(es: seq<Event>, t: Thread)
    requires t in After(es).threads
    ensures After(es).modemLock == Some(t) ==> !Blocked(After(es), t)
    ensures After(es).threads[t].WantBearer? ==>
      After(es).modemLock != Some(t) && forall o :: o in After(es).bearerLocks ==> After(es).bearerLocks[o] != t
  {
    Reached(es);
    assert ThreadOk(After(es), t);
  }

  /** Hence threads never deadlock: the holder of the lock a thread waits for can go on,
      or it waits for the modem's lock, whose holder can. */
  lemma NoDeadlock(es: seq<Event>, t: Thread)
    requires t in After(es).threads && Blocked(After(es), t)
    ensures var s := After(es);
      var u := WaitsFor(s, t).value;
      CanGoOn(s, u) || (u in s.threads && s.threads[u].WantModem? && s.modemLock.Some? && CanGoOn(s, s.modemLock.value))
  {
    var s := After(es);
    Reached(es);
    hide ObjsOk, SessionsOk, TableOk, ThreadsOk;
    var u := WaitsFor(s, t).value;
    if s.threads[t].WantBearer? {
      assert HoldsBearer(s.threads[u]) == Some(s.threads[t].o);
    } else {
      assert HoldsModem(s.threads[u]);
    }
  }
}
