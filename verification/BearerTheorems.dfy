/** What becomes of each call on a modem and its bearers, in every run. */
module BearerTheorems {
  import opened Bytes
  import opened Bearers
  import opened BearerProofs

  lemma {:induction false} RunAppend(s: State, a: seq<Event>, b: seq<Event>)
    ensures Run(s, a + b) == Run(Run(s, a), b)
    decreases a
  {
    hide Apply;
    if a == [] {
      assert a + b == b;
    } else {
      assert (a + b)[1..] == a[1..] + b;
      RunAppend(Apply(s, a[0]), a[1..], b);
    }
  }

  lemma ThenRun(s: State, a: seq<Event>, e: Event, b: seq<Event>)
    ensures Run(s, a + [e] + b) == Run(Apply(Run(s, a), e), b)
  {
    hide Apply;
    RunAppend(s, a + [e], b);
    RunAppend(s, a, [e]);
    assert [e][1..] == [];
    assert Run(Run(s, a), [e]) == Apply(Run(s, a), e);
  }

  // ---- a closed bearer leaves the table before its lock is free ----

  predicate Leaving(p: Phase, o: Obj) { (p.WantModem? || p.Removing?) && p.o == o }

  /** A closed bearer still in the table is locked by the thread that takes it out. */
  ghost predicate TidyAt(s: State, o: Obj) {
    o < |s.objs| && (s.objs[o].closed && s.objs[o].id in s.bearers ==>
      o in s.bearerLocks && s.bearerLocks[o] in s.threads && Leaving(s.threads[s.bearerLocks[o]], o))
  }

  ghost predicate Tidy(s: State) { forall o :: 0 <= o < |s.objs| ==> TidyAt(s, o) }

  /** The parts of the invariant that locks and table need. */
  ghost predicate Core(s: State, t: Thread) {
    ThreadOk(s, t) && LocksOk(s) && TableOk(s)
  }

  lemma PlainTidy(s: State, t: Thread, p: Phase, d: Obj)
    requires TidyAt(s, d) && (t in s.threads && Leaving(s.threads[t], d) ==> Leaving(p, d))
    ensures TidyAt(Move(s, t, p), d)
  {
  }

  lemma WorkTidy(s: State, t: Thread, o: Obj, op: Op, next: Next, outcome: Outcome, d: Obj)
    requires Core(s, t) && s.threads[t] == InBearer(o, op, next) && TidyAt(s, d)
    requires o < |s.objs| && s.objs[o].session < |s.disposals|
    ensures TidyAt(Work(s, t, o, op, next, outcome), d)
  {
    hide TableOk;
  }

  lemma RemoveTidy(s: State, t: Thread, o: Obj, next: Next, d: Obj)
    requires Core(s, t) && s.threads[t] == Removing(o, next) && TidyAt(s, d)
    ensures TidyAt(Remove(s, t, o, next), d)
  {
    hide TableOk;
  }

  lemma RegisterTidy(s: State, t: Thread, x: Session, d: Obj)
    requires Core(s, t) && s.threads[t] == Registering(x) && TidyAt(s, d) && ObjOk(s, d)
    ensures TidyAt(Register(s, t, x), d)
  {
    hide TableOk;
  }

  lemma AdvanceTidy(s: State, t: Thread, outcome: Outcome, pick: Obj, d: Obj)
    requires Core(s, t) && TidyAt(s, d) && ObjOk(s, d)
    ensures TidyAt(Advance(s, t, outcome, pick), d)
  {
    match s.threads[t]
    case Registering(x) => if x < |s.owner| { RegisterTidy(s, t, x, d); }
    case InBearer(o, op, next) =>
      if o < |s.objs| && s.objs[o].session < |s.disposals| { WorkTidy(s, t, o, op, next, outcome, d); }
    case Removing(o, next) => if o < |s.objs| { RemoveTidy(s, t, o, next, d); }
    case _ => hide Core;
  }

  lemma NewIsOpen(s: State, e: Event, d: Obj)
    requires |s.objs| <= d < |Apply(s, e).objs|
    ensures !Apply(s, e).objs[d].closed
  {
    hide Work;
    if e.Go? && e.t in s.threads && s.threads[e.t].InBearer? {
      var p := s.threads[e.t];
      if p.o < |s.objs| && s.objs[p.o].session < |s.disposals| { WorkAddsNone(s, e.t, p.o, p.op, p.next, e.outcome); }
    }
  }

  lemma WorkAddsNone(s: State, t: Thread, o: Obj, op: Op, next: Next, outcome: Outcome)
    requires o < |s.objs| && s.objs[o].session < |s.disposals|
    ensures |Work(s, t, o, op, next, outcome).objs| == |s.objs|
  {
  }

  lemma TidyStep(s: State, e: Event)
    requires Inv(s) && Tidy(s)
    ensures Tidy(Apply(s, e))
  {
    var s' := Apply(s, e);
    forall d | 0 <= d < |s'.objs| ensures TidyAt(s', d) {
      if d >= |s.objs| {
        NewIsOpen(s, e, d);
      } else {
        assert TidyAt(s, d) && ObjOk(s, d);
        if e.Go? && e.t in s.threads {
          assert ThreadOk(s, e.t);
          AdvanceTidy(s, e.t, e.outcome, e.pick, d);
        } else {
          hide Inv;
        }
      }
    }
  }

  lemma {:induction false} TidyRun(s: State, es: seq<Event>)
    requires Inv(s) && Tidy(s)
    ensures Inv(Run(s, es)) && Tidy(Run(s, es))
    decreases es
  {
    hide Inv, Tidy, Apply;
    if es != [] {
      ApplyKeeps(s, es[0]);
      TidyStep(s, es[0]);
      TidyRun(Apply(s, es[0]), es[1..]);
    }
  }

  lemma ReachedTidy(es: seq<Event>)
    ensures Inv(After(es)) && Tidy(After(es))
  {
    TidyRun(INIT, es);
  }

  // ---- the fate of Disconnect and of Bearer.Close ----

  /** The bearer is closed, its session was disposed of once, and it is not registered. */
  ghost predicate Ended(s: State, o: Obj) {
    && o < |s.objs| && s.objs[o].closed && s.objs[o].id !in s.bearers
    && s.objs[o].session < |s.disposals| && s.disposals[s.objs[o].session] == 1
  }

  datatype Call = PlainDisconnect | FullClose

  /** What the call does next with the lock of its bearer: Disconnect only disconnects,
      Close disconnects first and closes the session itself if that failed. */
  predicate Works(call: Call, op: Op, next: Next) {
    if call == PlainDisconnect then op == Disconnecting && next == Return
    else (op == Disconnecting && next == ThenOwned) || (op == ClosingOwned && next == Return)
  }

  /** Where the thread of such a call on bearer o can be. */
  ghost predicate OnRoute(s: State, t: Thread, o: Obj, call: Call) {
    t in s.threads && o < |s.objs| &&
    match s.threads[t]
    case WantBearer(p, op, next) => p == o && Works(call, op, next)
    case InBearer(p, op, next) => p == o && Works(call, op, next)
    case WantModem(p, next) => p == o && (next == Return || (call == FullClose && next == ThenOwned))
    case Removing(p, next) => p == o && (next == Return || (call == FullClose && next == ThenOwned))
    case Done => s.objs[o].closed && s.objs[o].id !in s.bearers
    case _ => false
  }

  /** What any step can do to a bearer: close it and take it out, nothing else. */
  ghost predicate BearerStays(s: State, s': State, o: Obj)
    requires o < |s.objs|
  {
    && o < |s'.objs| && s'.objs[o].id == s.objs[o].id && s'.objs[o].session == s.objs[o].session
    && (s.objs[o].closed ==> s'.objs[o].closed) && (s.objs[o].id !in s.bearers ==> s.objs[o].id !in s'.bearers)
  }

  lemma WorkStays(s: State, t: Thread, p: Obj, op: Op, next: Next, outcome: Outcome, o: Obj)
    requires p < |s.objs| && s.objs[p].session < |s.disposals| && o < |s.objs|
    ensures BearerStays(s, Work(s, t, p, op, next, outcome), o)
  {
  }

  lemma RegisterStays(s: State, t: Thread, x: Session, o: Obj)
    requires x < |s.owner| && o < |s.objs| && 1 <= s.objs[o].id <= s.nextID
    ensures BearerStays(s, Register(s, t, x), o)
  {
  }

  lemma RemoveStays(s: State, t: Thread, p: Obj, next: Next, o: Obj)
    requires p < |s.objs| && o < |s.objs|
    ensures BearerStays(s, Remove(s, t, p, next), o) && BearerStays(s, Shut(s, t), o)
  {
  }

  lemma BearerKeeps(s: State, e: Event, o: Obj)
    requires o < |s.objs| && 1 <= s.objs[o].id <= s.nextID
    ensures BearerStays(s, Apply(s, e), o)
  {
    hide Work, Register, Remove, Shut;
    if e.Go? && e.t in s.threads {
      match s.threads[e.t]
      case Registering(x) => if x < |s.owner| { RegisterStays(s, e.t, x, o); }
      case InBearer(p, op, next) =>
        if p < |s.objs| && s.objs[p].session < |s.disposals| { WorkStays(s, e.t, p, op, next, e.outcome, o); }
      case Removing(p, next) => if p < |s.objs| { RemoveStays(s, e.t, p, next, o); }
      case InClose => RemoveStays(s, e.t, o, Return, o);
      case _ =>
    }
  }

  /** No thread moves but the one whose step it is. */
  ghost predicate OnlyMoves(s: State, s': State, t: Thread) {
    forall u :: u != t && u in s.threads ==> u in s'.threads && s'.threads[u] == s.threads[u]
  }

  lemma MovesOnly(s: State, t: Thread, p: Phase)
    ensures OnlyMoves(s, Move(s, t, p), t)
  {
  }

  lemma WorkMoves(s: State, t: Thread, o: Obj, op: Op, next: Next, outcome: Outcome)
    requires o < |s.objs| && s.objs[o].session < |s.disposals|
    ensures OnlyMoves(s, Work(s, t, o, op, next, outcome), t)
  {
  }

  lemma RegisterMoves(s: State, t: Thread, x: Session)
    requires x < |s.owner|
    ensures OnlyMoves(s, Register(s, t, x), t)
  {
  }

  lemma RemoveMoves(s: State, t: Thread, o: Obj, next: Next)
    requires o < |s.objs|
    ensures OnlyMoves(s, Remove(s, t, o, next), t)
  {
  }

  lemma AdvanceMoves(s: State, t: Thread, outcome: Outcome, pick: Obj)
    requires t in s.threads
    ensures OnlyMoves(s, Advance(s, t, outcome, pick), t)
  {
    hide Work, Register, Remove;
    match s.threads[t]
    case Registering(x) => if x < |s.owner| { RegisterMoves(s, t, x); }
    case InBearer(p, op, next) =>
      if p < |s.objs| && s.objs[p].session < |s.disposals| { WorkMoves(s, t, p, op, next, outcome); }
    case Removing(p, next) => if p < |s.objs| { RemoveMoves(s, t, p, next); }
    case _ =>
  }

  lemma OthersLeave(s: State, t: Thread, e: Event)
    requires t in s.threads && e.t != t
    ensures t in Apply(s, e).threads && Apply(s, e).threads[t] == s.threads[t]
  {
    hide Advance;
    if e.Go? && e.t in s.threads { AdvanceMoves(s, e.t, e.outcome, e.pick); }
  }

  lemma WorkOnRoute(s: State, t: Thread, o: Obj, call: Call, op: Op, next: Next, outcome: Outcome)
    requires t in s.threads && s.threads[t] == InBearer(o, op, next) && Works(call, op, next) && TidyAt(s, o)
    requires o in s.bearerLocks && s.bearerLocks[o] == t && s.objs[o].session < |s.disposals|
    requires call == PlainDisconnect ==> outcome != FailedUp
    ensures OnRoute(Work(s, t, o, op, next, outcome), t, o, call)
  {
  }

  lemma RemoveOnRoute(s: State, t: Thread, o: Obj, call: Call, next: Next)
    requires o < |s.objs| && s.objs[o].closed && (next == Return || (call == FullClose && next == ThenOwned))
    ensures OnRoute(Remove(s, t, o, next), t, o, call)
  {
  }

  lemma OwnStep(s: State, t: Thread, o: Obj, call: Call, outcome: Outcome, pick: Obj)
    requires OnRoute(s, t, o, call) && TidyAt(s, o) && ThreadOk(s, t) && ObjOk(s, o)
    requires call == PlainDisconnect ==> outcome != FailedUp
    ensures OnRoute(Advance(s, t, outcome, pick), t, o, call)
  {
    hide Work, Remove;
    match s.threads[t]
    case InBearer(_, op, next) => WorkOnRoute(s, t, o, call, op, next, outcome);
    case Removing(_, next) => RemoveOnRoute(s, t, o, call, next);
    case _ => hide ThreadOk, ObjOk, TidyAt;
  }

  lemma RouteStep(s: State, t: Thread, o: Obj, call: Call, e: Event)
    requires Inv(s) && Tidy(s) && OnRoute(s, t, o, call)
    requires call == PlainDisconnect ==> !(e.Go? && e.t == t && e.outcome == FailedUp)
    ensures OnRoute(Apply(s, e), t, o, call)
  {
    assert ThreadOk(s, t) && ObjOk(s, o) && TidyAt(s, o);
    if e.t == t {
      if e.Go? { OwnStep(s, t, o, call, e.outcome, e.pick); }
    } else {
      hide Inv, Tidy, TidyAt, Apply;
      BearerKeeps(s, e, o);
      OthersLeave(s, t, e);
    }
  }

  /** The session of a bearer never told this thread that it failed and is still up. */
  ghost predicate NeverRefused(t: Thread, es: seq<Event>) {
    forall i :: 0 <= i < |es| && es[i].Go? && es[i].t == t ==> es[i].outcome != FailedUp
  }

  lemma {:induction false} RouteRun(s: State, t: Thread, o: Obj, call: Call, es: seq<Event>)
    requires Inv(s) && Tidy(s) && OnRoute(s, t, o, call)
    requires call == PlainDisconnect ==> NeverRefused(t, es)
    ensures OnRoute(Run(s, es), t, o, call)
    decreases es
  {
    hide Inv, Tidy, Apply, OnRoute;
    if es != [] {
      if call == PlainDisconnect {
        assert NeverRefused(t, [es[0]]) && NeverRefused(t, es[1..]);
        assert [es[0]][0] == es[0];
      }
      RouteStep(s, t, o, call, es[0]);
      ApplyKeeps(s, es[0]);
      TidyStep(s, es[0]);
      RouteRun(Apply(s, es[0]), t, o, call, es[1..]);
    }
  }

  lemma RouteEnds(s: State, t: Thread, o: Obj, call: Call)
    requires Inv(s) && OnRoute(s, t, o, call) && s.threads[t] == Done
    ensures Ended(s, o)
  {
    assert ObjOk(s, o);
    hide Inv;
  }

  /** Bearer.Close: the thread tries Disconnect first, goes on to close the session itself
      if that failed with the session up, and when it is done the bearer is closed, its
      session has been disposed of exactly once and its number is out of the table. */
  lemma CloseBearerCloses(before: seq<Event>, t: Thread, o: Obj, after: seq<Event>)
    requires t !in After(before).threads && o < |After(before).objs|
    ensures var s := After(before + [CloseBearer(t, o)] + after);
      && OnRoute(s, t, o, FullClose)
      && (s.threads[t] == Done ==> Ended(s, o))
  {
    var s0 := After(before);
    var s1 := Apply(s0, CloseBearer(t, o));
    assert OnRoute(s1, t, o, FullClose);
    hide OnRoute, Apply, Inv, Tidy, Ended;
    ReachedTidy(before);
    ApplyKeeps(s0, CloseBearer(t, o));
    TidyStep(s0, CloseBearer(t, o));
    RouteRun(s1, t, o, FullClose, after);
    ThenRun(INIT, before, CloseBearer(t, o), after);
    Reached(before + [CloseBearer(t, o)] + after);
    var s := Run(s1, after);
    if t in s.threads && s.threads[t] == Done { RouteEnds(s, t, o, FullClose); }
    assert t in s.threads && o < |s.objs| by { RouteKnown(s, t, o, FullClose); }
  }

  lemma RouteKnown(s: State, t: Thread, o: Obj, call: Call)
    requires OnRoute(s, t, o, call)
    ensures t in s.threads && o < |s.objs|
  {
  }

  /** Bearer.Disconnect: unless its session fails and stays up, the same holds when it is
      done. */
  lemma DisconnectCloses(before: seq<Event>, t: Thread, o: Obj, after: seq<Event>)
    requires t !in After(before).threads && o < |After(before).objs| && NeverRefused(t, after)
    ensures var s := After(before + [Disconnect(t, o)] + after);
      && OnRoute(s, t, o, PlainDisconnect)
      && (s.threads[t] == Done ==> Ended(s, o))
  {
    var s0 := After(before);
    var s1 := Apply(s0, Disconnect(t, o));
    assert OnRoute(s1, t, o, PlainDisconnect);
    hide OnRoute, Apply, Inv, Tidy, Ended;
    ReachedTidy(before);
    ApplyKeeps(s0, Disconnect(t, o));
    TidyStep(s0, Disconnect(t, o));
    RouteRun(s1, t, o, PlainDisconnect, after);
    ThenRun(INIT, before, Disconnect(t, o), after);
    Reached(before + [Disconnect(t, o)] + after);
    var s := Run(s1, after);
    RouteKnown(s, t, o, PlainDisconnect);
    if s.threads[t] == Done { RouteEnds(s, t, o, PlainDisconnect); }
  }

  /** A session that fails and stays up leaves its bearer open, registered and not
      disposed of; Disconnect returns and Close goes on to close the session itself.
      Every other answer disposes of the session, once, and closes the bearer. */
  lemma AnswerDecides(es: seq<Event>, t: Thread, o: Obj, op: Op, next: Next, outcome: Outcome, pick: Obj)
    requires t in After(es).threads && After(es).threads[t] == InBearer(o, op, next)
    requires o < |After(es).objs| && !After(es).objs[o].closed
    ensures var s, s' := After(es), Apply(After(es), Go(t, outcome, pick));
      && s.objs[o].session < |s.disposals| && |s'.disposals| == |s.disposals| && |s'.objs| == |s.objs|
      && t in s'.threads && s'.bearers == s.bearers
      && if op == Disconnecting && outcome == FailedUp then
           && s'.objs == s.objs && s'.disposals == s.disposals && o !in s'.bearerLocks
           && (next == Return ==> s'.threads[t] == Done)
           && (next == ThenOwned ==> s'.threads[t] == WantBearer(o, ClosingOwned, Return))
         else
           && s.disposals[s.objs[o].session] == 0 && s'.disposals[s.objs[o].session] == 1
           && s'.objs[o].closed && Leaving(s'.threads[t], o)
  {
    Reached(es);
    var s := After(es);
    assert ThreadOk(s, t) && ObjOk(s, o);
    hide Inv, After;
  }

  // ---- the fate of Connect ----

  /** A dial that works brings a new session, which the thread carries; one that fails
      brings none and Connect returns. */
  lemma DialDecides(es: seq<Event>, t: Thread, outcome: Outcome, pick: Obj)
    requires t in After(es).threads && After(es).threads[t] == Dialing
    ensures var s, s' := After(es), Apply(After(es), Go(t, outcome, pick));
      if outcome == Worked then
        && t in s'.threads && s'.threads[t] == HasSession(|s.disposals|)
        && s'.disposals == s.disposals + [0] && s'.objs == s.objs && s'.bearers == s.bearers
      else s' == s.(threads := s.threads[t := Done])
  {
    Reached(es);
    hide ThreadsOk, ObjsOk, SessionsOk, LocksOk;
  }

  /** Connect on an open modem: the session becomes an open bearer, registered under a
      number no bearer ever had. */
  lemma ConnectRegisters(es: seq<Event>, t: Thread, x: Session, outcome: Outcome, pick: Obj)
    requires t in After(es).threads && After(es).threads[t] == Registering(x) && !After(es).closed
    ensures var s, s' := After(es), Apply(After(es), Go(t, outcome, pick));
      var o := |s.objs|;
      && t in s'.threads && s'.threads[t] == Done && s'.modemLock == None && s'.disposals == s.disposals
      && |s'.objs| == o + 1 && s'.objs[..o] == s.objs && s'.objs[o].session == x && !s'.objs[o].closed
      && s'.bearers == s.bearers[s'.objs[o].id := o]
      && forall i :: 0 <= i < o ==> s.objs[i].id != s'.objs[o].id
  {
    Reached(es);
    var s := After(es);
    assert ThreadOk(s, t);
    assert x < |s.owner|;
    forall i | 0 <= i < |s.objs| ensures s.objs[i].id <= s.nextID { assert ObjOk(s, i); }
    hide Inv, After, ThreadOk;
    assert (s.objs + [Bearer(s.nextID + 1, x, false)])[..|s.objs|] == s.objs;
  }

  /** Connect that finds the modem closed disposes of the session itself, once, with its
      next step, registers nothing and returns. */
  lemma ConnectRejects(before: seq<Event>, t: Thread, x: Session, during: seq<Event>, outcome: Outcome, pick: Obj)
    requires t in After(before).threads && After(before).threads[t] == Registering(x) && After(before).closed
    requires forall i :: 0 <= i < |during| ==> during[i].t != t
    ensures var s1 := Apply(After(before), Go(t, outcome, pick));
      var s, s' := Run(s1, during), Apply(Run(s1, during), Go(t, outcome, pick));
      && s1.objs == After(before).objs && s1.bearers == After(before).bearers && s1.modemLock == None
      && x < |s.disposals| && s.disposals[x] == 0 && t in s'.threads && s'.threads[t] == Done
      && x < |s'.disposals| && s'.disposals[x] == 1 && s'.objs == s.objs && s'.bearers == s.bearers
  {
    var s0 := After(before);
    Reached(before);
    assert ThreadOk(s0, t);
    var s1 := Apply(s0, Go(t, outcome, pick));
    assert s1.threads[t] == Rejecting(x) && s1.objs == s0.objs && s1.bearers == s0.bearers && s1.modemLock == None;
    ApplyKeeps(s0, Go(t, outcome, pick));
    RunKeeps(s1, during);
    hide Inv, Apply, After;
    Waits(s1, t, during);
    Rejected(Run(s1, during), t, x, outcome, pick);
  }

  lemma {:induction false} Waits(s: State, t: Thread, es: seq<Event>)
    requires t in s.threads && forall i :: 0 <= i < |es| ==> es[i].t != t
    ensures t in Run(s, es).threads && Run(s, es).threads[t] == s.threads[t]
    decreases es
  {
    hide Apply;
    if es != [] {
      assert es[0].t != t;
      OthersLeave(s, t, es[0]);
      Waits(Apply(s, es[0]), t, es[1..]);
    }
  }

  lemma Rejected(s: State, t: Thread, x: Session, outcome: Outcome, pick: Obj)
    requires Inv(s) && t in s.threads && s.threads[t] == Rejecting(x)
    ensures var s' := Apply(s, Go(t, outcome, pick));
      && x < |s.disposals| && s.disposals[x] == 0 && t in s'.threads && s'.threads[t] == Done
      && x < |s'.disposals| && s'.disposals[x] == 1 && s'.objs == s.objs && s'.bearers == s.bearers
  {
    assert ThreadOk(s, t);
    assert SessionOk(s, x);
    hide Inv;
  }

  /** A call starts at its first step; Modem.Close is begun by one thread only. */
  lemma CallsStart(s: State, t: Thread, o: Obj)
    requires t !in s.threads
    ensures Apply(s, Connect(t)) == s.(threads := s.threads[t := Dialing])
    ensures o < |s.objs| ==> Apply(s, Disconnect(t, o)) == s.(threads := s.threads[t := WantBearer(o, Disconnecting, Return)])
    ensures o < |s.objs| ==> Apply(s, CloseBearer(t, o)) == s.(threads := s.threads[t := WantBearer(o, Disconnecting, ThenOwned)])
    ensures Apply(s, CloseModem(t)) == if s.closer.Some? then s else s.(threads := s.threads[t := WantClose], closer := Some(t))
  {
  }

  // ---- every call comes to an end ----

  /** How many of its own steps a thread has left at most. */
  function Left(s: State, p: Phase): nat {
    match p
    case Dialing => 4
    case HasSession(_) => 3
    case Registering(_) => 2
    case Rejecting(_) => 1
    case WantBearer(_, _, next) => 4 + LeftAfter(s, next)
    case InBearer(_, _, next) => 3 + LeftAfter(s, next)
    case WantModem(_, next) => 2 + LeftAfter(s, next)
    case Removing(_, next) => 1 + LeftAfter(s, next)
    case WantClose => 3 + 5 * |s.bearers.Values|
    case InClose => 2 + 5 * |s.bearers.Values|
    case Sweeping => 1 + 5 * |s.todo|
    case Done => 0
  }

  function LeftAfter(s: State, next: Next): nat {
    match next
    case Return => 0
    case ThenOwned => 4
    case Sweep => 1 + 5 * |s.todo|
  }

  lemma WorkRunsOut(s: State, t: Thread, o: Obj, op: Op, next: Next, outcome: Outcome)
    requires o < |s.objs| && s.objs[o].session < |s.disposals|
    ensures var s' := Work(s, t, o, op, next, outcome);
      t in s'.threads && Left(s', s'.threads[t]) < Left(s, InBearer(o, op, next))
  {
    hide Left;
    var s' := Work(s, t, o, op, next, outcome);
    assert s'.todo == s.todo && t in s'.threads;
    var p := s'.threads[t];
    assert p == Onward(o, next) || (p == Done && next == ThenOwned) || p == WantModem(o, next) || (p == WantModem(o, Return) && next == ThenOwned);
    hide Work;
    OnwardIsLess(s, s', o, op, next, p);
  }

  lemma OnwardIsLess(s: State, s': State, o: Obj, op: Op, next: Next, p: Phase)
    requires s'.todo == s.todo
    requires p == Onward(o, next) || (p == Done && next == ThenOwned) || p == WantModem(o, next) || (p == WantModem(o, Return) && next == ThenOwned)
    ensures Left(s', p) < Left(s, InBearer(o, op, next)) && (p == Onward(o, next) ==> Left(s', p) < Left(s, Removing(o, next)))
  {
  }

  lemma ShutRunsOut(s: State, t: Thread)
    ensures var s' := Shut(s, t); t in s'.threads && Left(s', s'.threads[t]) < Left(s, InClose)
  {
  }

  lemma SweepRunsOut(s: State, t: Thread, pick: Obj)
    ensures var s' := SweepOne(s, t, pick);
      pick in s.todo || s.todo == {} ==> t in s'.threads && Left(s', s'.threads[t]) < Left(s, Sweeping)
  {
    var s' := SweepOne(s, t, pick);
    SweepLeft(s, pick);
    SweepLeft(s', pick);
    hide Left, LeftAfter;
    if pick in s.todo { assert |s.todo - {pick}| == |s.todo| - 1; }
  }

  lemma SweepLeft(s: State, pick: Obj)
    ensures Left(s, Sweeping) == 1 + 5 * |s.todo| && Left(s, WantBearer(pick, ClosingOwned, Sweep)) == 5 + 5 * |s.todo| && Left(s, Done) == 0
  {
  }

  lemma LockRunsOut(s: State, t: Thread)
    requires t in s.threads && s.threads[t] != Done && !Blocked(s, t)
    requires s.threads[t].HasSession? || s.threads[t].WantModem? || s.threads[t].WantClose? || s.threads[t].WantBearer?
    ensures forall outcome, pick :: var s' := Advance(s, t, outcome, pick);
      t in s'.threads && Left(s', s'.threads[t]) < Left(s, s.threads[t])
  {
  }

  lemma RegisterRunsOut(s: State, t: Thread, x: Session)
    requires x < |s.owner|
    ensures var s' := Register(s, t, x); t in s'.threads && Left(s', s'.threads[t]) < Left(s, Registering(x))
  {
  }

  lemma RemoveRunsOut(s: State, t: Thread, o: Obj, next: Next)
    requires o < |s.objs|
    ensures var s' := Remove(s, t, o, next); t in s'.threads && Left(s', s'.threads[t]) < Left(s, Removing(o, next))
  {
    hide Left;
    OnwardIsLess(s, Remove(s, t, o, next), o, Disconnecting, next, Onward(o, next));
  }

  lemma AdvanceRunsOut(s: State, t: Thread, outcome: Outcome, pick: Obj)
    requires CanGoOn(s, t) && (s.threads[t] == Sweeping && s.todo != {} ==> pick in s.todo)
    requires Carries(s.threads[t]).Some? ==> Carries(s.threads[t]).value < |s.owner| == |s.disposals|
    requires HoldsBearer(s.threads[t]).Some? ==>
      HoldsBearer(s.threads[t]).value < |s.objs| && s.objs[HoldsBearer(s.threads[t]).value].session < |s.disposals|
    ensures var s' := Advance(s, t, outcome, pick);
      t in s'.threads && Left(s', s'.threads[t]) < Left(s, s.threads[t])
  {
    hide Work, Register, Remove, Shut, SweepOne, LockModem, LockBearer;
    match s.threads[t]
    case Registering(x) => RegisterRunsOut(s, t, x);
    case InBearer(o, op, next) => WorkRunsOut(s, t, o, op, next, outcome);
    case Removing(o, next) => RemoveRunsOut(s, t, o, next);
    case InClose => ShutRunsOut(s, t);
    case Sweeping => SweepRunsOut(s, t, pick);
    case Dialing =>
    case Rejecting(x) =>
    case _ => LockRunsOut(s, t);
  }

  /** A thread that waits for no lock always has a step to take, and each step of its own
      brings it nearer to its end. */
  lemma StepsRunOut(es: seq<Event>, t: Thread, outcome: Outcome, pick: Obj)
    requires CanGoOn(After(es), t) && (After(es).threads[t] == Sweeping && After(es).todo != {} ==> pick in After(es).todo)
    ensures var s, s' := After(es), Apply(After(es), Go(t, outcome, pick));
      t in s'.threads && Left(s', s'.threads[t]) < Left(s, s.threads[t])
  {
    Reached(es);
    var s := After(es);
    assert ThreadOk(s, t);
    if HoldsBearer(s.threads[t]).Some? { assert ObjOk(s, HoldsBearer(s.threads[t]).value); }
    hide Advance, Left, After, LocksOk, ThreadsOk, ObjsOk, SessionsOk;
    StepFacts(s, t);
    hide ThreadOk, ObjOk, TableOk;
    AdvanceRunsOut(s, t, outcome, pick);
  }

  lemma StepFacts(s: State, t: Thread)
    requires ThreadOk(s, t) && TableOk(s)
    requires HoldsBearer(s.threads[t]).Some? ==> ObjOk(s, HoldsBearer(s.threads[t]).value)
    ensures Carries(s.threads[t]).Some? ==> Carries(s.threads[t]).value < |s.owner| == |s.disposals|
    ensures HoldsBearer(s.threads[t]).Some? ==>
      HoldsBearer(s.threads[t]).value < |s.objs| && s.objs[HoldsBearer(s.threads[t]).value].session < |s.disposals|
  {
  }

  /** Steps of other threads add nothing to it, except that a bearer registered before
      Modem.Close takes the table is one more to close. */
  lemma OthersAddNothing(s: State, t: Thread, e: Event)
    requires Inv(s) && t in s.threads && e.t != t && !s.threads[t].WantClose? && !s.threads[t].InClose?
    ensures t in Apply(s, e).threads && Left(Apply(s, e), Apply(s, e).threads[t]) == Left(s, s.threads[t])
  {
    assert ThreadOk(s, t);
    if e.t in s.threads { assert ThreadOk(s, e.t); }
    OthersLeave(s, t, e);
    hide Inv, Left, Apply;
    var p := s.threads[t];
    if Sweeps(p) {
      assert s.closer == Some(t);
      assert e.t in s.threads ==> !s.threads[e.t].InClose? && !s.threads[e.t].Sweeping?;
      OthersSpareSweep(s, t, e);
    }
    hide ThreadOk;
    SameLeft(s, Apply(s, e), p);
  }

  /** The phases of Modem.Close after it has taken the table. */
  predicate Sweeps(p: Phase) {
    p.Sweeping? || ((p.WantBearer? || p.InBearer? || p.WantModem? || p.Removing?) && p.next == Sweep)
  }

  lemma WorkSparesSweep(s: State, t: Thread, o: Obj, op: Op, next: Next, outcome: Outcome)
    requires o < |s.objs| && s.objs[o].session < |s.disposals|
    ensures Work(s, t, o, op, next, outcome).todo == s.todo
  {
  }

  /** No thread but the one that closes the modem changes what it has left to close. */
  lemma OthersSpareSweep(s: State, t: Thread, e: Event)
    requires s.closer == Some(t) && e.t != t
    requires e.t in s.threads ==> !s.threads[e.t].InClose? && !s.threads[e.t].Sweeping?
    ensures Apply(s, e).todo == s.todo
  {
    hide Work;
    if e.Go? && e.t in s.threads && s.threads[e.t].InBearer? {
      var p := s.threads[e.t];
      if p.o < |s.objs| && s.objs[p.o].session < |s.disposals| { WorkSparesSweep(s, e.t, p.o, p.op, p.next, e.outcome); }
    }
  }

  lemma SameLeft(s: State, s': State, p: Phase)
    requires (Sweeps(p) ==> s'.todo == s.todo) && !p.WantClose? && !p.InClose?
    ensures Left(s', p) == Left(s, p)
  {
  }
}
