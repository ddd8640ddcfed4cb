/** Lifetime of the descriptors of a cdc-wdm connection under concurrent reads, writes,
    ioctls and closes. Each critical section and each system call is one step. */
module Conn {
  import opened Bytes
  import opened Channels

  type Thread = nat

  /** The device, the read wake-up and the write wake-up descriptor. */
  datatype FD = Device | ReadWake | WriteWake

  datatype Kind = Reading | Writing | Control

  /** Where a thread is: between operations, using the descriptors, or in Close asleep on
      the condition, awake again, about to close its next descriptor, or finished. */
  datatype Phase =
    | Idle
    | Using(kind: Kind)
    | Asleep
    | Awake
    | Closing(left: seq<FD>)
    | Finished

  datatype State = State(
    activeOps: int, fdValid: bool, threads: map<Thread, Phase>, closer: Option<Thread>,
    closes: map<FD, nat>, misuse: bool)

  const INIT: State := State(0, true, map[], None, map[Device := 0, ReadWake := 0, WriteWake := 0], false)

  datatype Event =
    | Acquire(t: Thread, kind: Kind)
    | Syscall(t: Thread)
    | Release(t: Thread)
    | BeginClose(t: Thread, notified: bool)
    | Recheck(t: Thread)
    | CloseNext(t: Thread)

  /** The descriptors an operation of this kind works on. */
  function Touches(kind: Kind): set<FD> {
    match kind
    case Reading => {Device, ReadWake}
    case Writing => {Device, WriteWake}
    case Control => {Device}
  }

  predicate IsIdle(s: State, t: Thread) { t !in s.threads || s.threads[t] == Idle }

  function Move(s: State, t: Thread, p: Phase): State { s.(threads := s.threads[t := p]) }

  /** Broadcast wakes every sleeper. */
  function WakeAll(threads: map<Thread, Phase>): (woken: map<Thread, Phase>)
    ensures forall t :: t in woken <==> t in threads
    ensures forall t :: t in threads ==> woken[t] == if threads[t] == Asleep then Awake else threads[t]
  {
    threads + Fill(Sleepers(threads), Awake)
  }

  function Sleepers(threads: map<Thread, Phase>): set<Thread> {
    set t | t in threads && threads[t] == Asleep
  }

  /** acquireIO and acquireFD. */
  function AcquireAt(s: State, t: Thread, kind: Kind): State {
    if !s.fdValid then s else Move(s.(activeOps := s.activeOps + 1), t, Using(kind))
  }

  /** releaseFD. */
  function ReleaseAt(s: State, t: Thread): State {
    var s' := Move(s.(activeOps := s.activeOps - 1), t, Idle);
    if s'.activeOps == 0 then s'.(threads := WakeAll(s'.threads)) else s'
  }

  /** The loop of Close around the condition: sleep again or go on to the descriptors. */
  function Gate(s: State, t: Thread): State {
    Move(s, t, if s.activeOps > 0 then Asleep else Closing([Device, ReadWake, WriteWake]))
  }

  /** Close up to its first sleep; a wake-up descriptor may refuse to be notified. */
  function BeginCloseAt(s: State, t: Thread, notified: bool): State {
    if !s.fdValid || !notified then s else Gate(s.(fdValid := false, closer := Some(t)), t)
  }

  function Apply(s: State, e: Event): State {
    match e
    case Acquire(t, kind) => if IsIdle(s, t) then AcquireAt(s, t, kind) else s
    case Syscall(t) =>
      if t in s.threads && s.threads[t].Using? then
        s.(misuse := s.misuse || exists fd :: fd in Touches(s.threads[t].kind) && fd in s.closes && s.closes[fd] > 0)
      else s
    case Release(t) => if t in s.threads && s.threads[t].Using? then ReleaseAt(s, t) else s
    case BeginClose(t, notified) => if IsIdle(s, t) then BeginCloseAt(s, t, notified) else s
    case Recheck(t) => if t in s.threads && s.threads[t] == Awake then Gate(s, t) else s
    case CloseNext(t) =>
      if t in s.threads && s.threads[t].Closing? then
        var left := s.threads[t].left;
        if left == [] then Move(s, t, Finished)
        else if left[0] in s.closes then Move(s, t, Closing(left[1..])).(closes := s.closes[left[0] := s.closes[left[0]] + 1])
        else s
      else s
  }

  function Run(s: State, es: seq<Event>): State
    decreases es
  {
    if es == [] then s else Run(Apply(s, es[0]), es[1..])
  }

  // ---- invariant ----

  /** The threads with an operation outstanding. */
  function Users(threads: map<Thread, Phase>): set<Thread> {
    set t | t in threads && threads[t].Using?
  }

  /** The tail of the descriptors still to close. */
  predicate Rest(left: seq<FD>) {
    left == [Device, ReadWake, WriteWake] || left == [ReadWake, WriteWake] || left == [WriteWake] || left == []
  }

  /** What the phase of the closing thread says about the descriptors. */
  ghost predicate CloserOk(p: Phase, users: nat, closes: map<FD, nat>) {
    match p
    case Asleep => users > 0 && forall fd :: fd in closes ==> closes[fd] == 0
    case Awake => forall fd :: fd in closes ==> closes[fd] == 0
    case Closing(left) => users == 0 && Rest(left) && forall fd :: fd in closes ==> closes[fd] == if fd in left then 0 else 1
    case Finished => users == 0 && forall fd :: fd in closes ==> closes[fd] == 1
    case _ => false
  }

  ghost predicate Inv(s: State) {
    && s.activeOps == |Users(s.threads)|
    && (s.fdValid <==> s.closer == None)
    && (s.closer == None ==> forall fd :: fd in s.closes ==> s.closes[fd] == 0)
    && (s.closer.Some? ==> s.closer.value in s.threads && CloserOk(s.threads[s.closer.value], |Users(s.threads)|, s.closes))
    && OthersWork(s.threads, s.closer)
    && (forall fd: FD :: fd in s.closes)
    && !s.misuse
  }

  lemma EveryFD()
    ensures forall fd: FD :: fd in [Device, ReadWake, WriteWake]
    ensures forall fd: FD :: fd in INIT.closes
  {
    forall fd: FD ensures fd in [Device, ReadWake, WriteWake] && fd in INIT.closes {
      match fd
      case Device => assert [Device, ReadWake, WriteWake][0] == fd;
      case ReadWake => assert [Device, ReadWake, WriteWake][1] == fd;
      case WriteWake => assert [Device, ReadWake, WriteWake][2] == fd;
    }
  }

  lemma UsersAdd(threads: map<Thread, Phase>, t: Thread, kind: Kind)
    requires t !in Users(threads)
    ensures |Users(threads[t := Using(kind)])| == |Users(threads)| + 1
  {
    assert Users(threads[t := Using(kind)]) == Users(threads) + {t};
  }

  lemma UsersDrop(threads: map<Thread, Phase>, t: Thread, p: Phase)
    requires t in Users(threads) && !p.Using?
    ensures |Users(threads[t := p])| == |Users(threads)| - 1
  {
    assert Users(threads[t := p]) == Users(threads) - {t};
  }

  lemma UsersSame(threads: map<Thread, Phase>, t: Thread, p: Phase)
    requires t !in Users(threads) && !p.Using?
    ensures Users(threads[t := p]) == Users(threads)
  {
  }

  lemma UsersWake(threads: map<Thread, Phase>)
    ensures Users(WakeAll(threads)) == Users(threads)
  {
  }

  lemma AcquireKeeps(s: State, t: Thread, kind: Kind)
    requires Inv(s) && IsIdle(s, t)
    ensures Inv(AcquireAt(s, t, kind))
  {
    if s.fdValid { UsersAdd(s.threads, t, kind); }
    hide Users;
  }

  lemma ReleaseOthersUse(s: State, t: Thread)
    requires Inv(s) && t in s.threads && s.threads[t].Using? && s.activeOps > 1
    ensures Inv(ReleaseAt(s, t))
  {
    UsersDrop(s.threads, t, Idle);
    hide Users, WakeAll;
  }

  lemma CloserWaits(p: Phase, closes: map<FD, nat>)
    requires CloserOk(p, 1, closes)
    ensures (p == Asleep || p == Awake) && CloserOk(Awake, 0, closes)
  {
  }

  lemma ReleaseLastIs(s: State, t: Thread)
    requires s.activeOps == 1
    ensures ReleaseAt(s, t) == s.(activeOps := 0, threads := WakeAll(s.threads[t := Idle]))
  {
    hide WakeAll;
  }

  ghost predicate OthersWork(threads: map<Thread, Phase>, closer: Option<Thread>) {
    forall t :: t in threads && Some(t) != closer ==> threads[t].Idle? || threads[t].Using?
  }

  lemma WokenThreads(threads: map<Thread, Phase>, closer: Option<Thread>, t: Thread)
    requires OthersWork(threads, closer) && t in threads && closer != Some(t)
    requires closer.Some? ==> closer.value in threads && (threads[closer.value] == Asleep || threads[closer.value] == Awake)
    ensures var w := WakeAll(threads[t := Idle]);
      OthersWork(w, closer) && (closer.Some? ==> closer.value in w && w[closer.value] == Awake)
  {
    var m := threads[t := Idle];
    var w := WakeAll(m);
    hide WakeAll;
    forall u | u in w && Some(u) != closer ensures w[u].Idle? || w[u].Using? {
      assert u in m;
    }
  }

  lemma ReleaseLast(s: State, t: Thread)
    requires Inv(s) && t in s.threads && s.threads[t].Using? && s.activeOps == 1
    ensures Inv(ReleaseAt(s, t))
  {
    UsersDrop(s.threads, t, Idle);
    UsersWake(s.threads[t := Idle]);
    if s.closer.Some? { CloserWaits(s.threads[s.closer.value], s.closes); }
    WokenThreads(s.threads, s.closer, t);
    ReleaseLastIs(s, t);
    hide Users, WakeAll, CloserOk, ReleaseAt;
  }

  lemma ReleaseKeeps(s: State, t: Thread)
    requires Inv(s) && t in s.threads && s.threads[t].Using?
    ensures Inv(ReleaseAt(s, t))
  {
    assert t in Users(s.threads);
    assert |Users(s.threads)| > 0;
    hide Users, ReleaseAt;
    if s.activeOps == 1 {
      ReleaseLast(s, t);
    } else {
      ReleaseOthersUse(s, t);
    }
  }

  lemma BeginCloseKeeps(s: State, t: Thread, notified: bool)
    requires Inv(s) && IsIdle(s, t)
    ensures Inv(BeginCloseAt(s, t, notified))
  {
    UsersSame(s.threads, t, Asleep);
    UsersSame(s.threads, t, Closing([Device, ReadWake, WriteWake]));
    EveryFD();
    hide Users;
  }

  lemma RecheckKeeps(s: State, t: Thread)
    requires Inv(s) && t in s.threads && s.threads[t] == Awake
    ensures Inv(Gate(s, t))
  {
    UsersSame(s.threads, t, Asleep);
    UsersSame(s.threads, t, Closing([Device, ReadWake, WriteWake]));
    EveryFD();
    hide Users;
    assert s.closer == Some(t);
  }

  lemma CloseNextKeeps(s: State, t: Thread)
    requires Inv(s) && t in s.threads && s.threads[t].Closing?
    ensures Inv(Apply(s, CloseNext(t)))
  {
    var left := s.threads[t].left;
    UsersSame(s.threads, t, Finished);
    if left != [] { UsersSame(s.threads, t, Closing(left[1..])); }
    hide Users;
    assert s.closer == Some(t);
  }

  lemma SyscallKeeps(s: State, t: Thread)
    requires Inv(s)
    ensures Inv(Apply(s, Syscall(t)))
  {
    if t in s.threads && s.threads[t].Using? {
      assert t in Users(s.threads);
      assert |Users(s.threads)| > 0;
      hide Users;
      assert forall fd :: fd in s.closes ==> s.closes[fd] == 0;
    }
  }

  lemma ApplyKeeps(s: State, e: Event)
    requires Inv(s)
    ensures Inv(Apply(s, e))
  {
    match e
    case Acquire(t, kind) => if IsIdle(s, t) { AcquireKeeps(s, t, kind); }
    case Syscall(t) => SyscallKeeps(s, t);
    case Release(t) => if t in s.threads && s.threads[t].Using? { ReleaseKeeps(s, t); }
    case BeginClose(t, notified) => if IsIdle(s, t) { BeginCloseKeeps(s, t, notified); }
    case Recheck(t) => if t in s.threads && s.threads[t] == Awake { RecheckKeeps(s, t); }
    case CloseNext(t) => if t in s.threads && s.threads[t].Closing? { CloseNextKeeps(s, t); }
  }

  lemma {:induction false} RunKeeps(s: State, es: seq<Event>)
    requires Inv(s)
    ensures Inv(Run(s, es))
    decreases es
  {
    if es != [] {
      ApplyKeeps(s, es[0]);
      RunKeeps(Apply(s, es[0]), es[1..]);
    }
  }

  // ---- theorems ----

  function After(es: seq<Event>): State { Run(INIT, es) }

  lemma Reached(es: seq<Event>)
    ensures Inv(After(es))
  {
    assert Users(map[]) == {};
    EveryFD();
    RunKeeps(INIT, es);
  }

  /** activeOps is the number of outstanding acquisitions, in every run. */
  lemma ActiveOpsCounts(es: seq<Event>)
    ensures After(es).activeOps == |Users(After(es).threads)|
  {
    Reached(es);
  }

  /** Each descriptor is closed at most once, only after invalidation and only while no
      operation holds it, and no system call ever works on a closed one. */
  lemma ClosedOnceUnheld(es: seq<Event>, fd: FD)
    ensures fd in After(es).closes && After(es).closes[fd] <= 1 && !After(es).misuse
    ensures After(es).closes[fd] > 0 ==> !After(es).fdValid && Users(After(es).threads) == {}
  {
    Reached(es);
    var s := After(es);
    if s.closes[fd] > 0 { assert |Users(s.threads)| == 0; }
  }

  /** Once invalidated, the connection stays so and no acquisition succeeds again. */
  lemma {:induction false} NoAcquireAfterClose(s: State, es: seq<Event>)
    requires Inv(s) && !s.fdValid
    ensures !Run(s, es).fdValid && Users(Run(s, es).threads) <= Users(s.threads)
    decreases es
  {
    if es != [] {
      var s' := Apply(s, es[0]);
      StepUsers(s, es[0]);
      ApplyKeeps(s, es[0]);
      NoAcquireAfterClose(s', es[1..]);
    }
  }

  lemma StepUsers(s: State, e: Event)
    requires !s.fdValid
    ensures !Apply(s, e).fdValid && Users(Apply(s, e).threads) <= Users(s.threads)
  {
  }

  /** A closer that sleeps has an operation to wait for, whose last release wakes it. */
  lemma CloserIsWoken(es: seq<Event>, t: Thread)
    requires t in After(es).threads && After(es).threads[t] == Asleep
    ensures Users(After(es).threads) != {}
    ensures forall u :: Users(After(es).threads) == {u} ==>
      t in Apply(After(es), Release(u)).threads && Apply(After(es), Release(u)).threads[t] == Awake
  {
    Reached(es);
    var s := After(es);
    assert s.closer == Some(t);
    forall u | Users(s.threads) == {u}
      ensures t in Apply(s, Release(u)).threads && Apply(s, Release(u)).threads[t] == Awake
    {
      assert u in Users(s.threads);
      assert s.activeOps == 1;
    }
  }

  // ---- what the operations do ----

  lemma {:induction false} RunAppend(s: State, a: seq<Event>, b: seq<Event>)
    ensures Run(s, a + b) == Run(Run(s, a), b)
    decreases a
  {
    hide Apply;
    if a == [] {
      assert a + b == b;
    } else {
      assert (a + b)[1..] == a[1..] + b;
      RunAppend(Apply(s, a[0]), a[1..], b);
    }
  }

  lemma OneStep(s: State, e: Event)
    ensures Run(s, [e]) == Apply(s, e)
  {
    hide Apply;
    assert [e][1..] == [];
  }

  /** On a connection that is still valid an idle thread gets its operation, and it is
      counted; on one that is not, nothing happens. */
  lemma AcquireCounts(es: seq<Event>, t: Thread, kind: Kind)
    requires IsIdle(After(es), t)
    ensures var s, s' := After(es), Apply(After(es), Acquire(t, kind));
      if s.fdValid then
        && t in s'.threads && s'.threads[t] == Using(kind) && Users(s'.threads) == Users(s.threads) + {t}
        && s'.activeOps == s.activeOps + 1 == |Users(s'.threads)| && s'.fdValid
      else s' == s
  {
    Reached(es);
    ApplyKeeps(After(es), Acquire(t, kind));
  }

  /** A release ends the operation of its own thread and uncounts it. */
  lemma ReleaseUncounts(es: seq<Event>, t: Thread)
    requires t in Users(After(es).threads)
    ensures var s, s' := After(es), Apply(After(es), Release(t));
      && t in s'.threads && s'.threads[t] == Idle && Users(s'.threads) == Users(s.threads) - {t}
      && s'.activeOps == s.activeOps - 1 && s'.fdValid == s.fdValid && s'.closes == s.closes
  {
    var s := After(es);
    hide After;
    UsersWake(s.threads[t := Idle]);
  }

  lemma {:induction false} StaysInUse(s: State, t: Thread, kind: Kind, es: seq<Event>)
    requires t in s.threads && s.threads[t] == Using(kind)
    requires forall i :: 0 <= i < |es| ==> es[i] != Release(t)
    ensures t in Run(s, es).threads && Run(s, es).threads[t] == Using(kind)
    decreases es
  {
    if es != [] {
      assert es[0] != Release(t);
      UseStep(s, t, kind, es[0]);
      hide Apply;
      StaysInUse(Apply(s, es[0]), t, kind, es[1..]);
    }
  }

  lemma UseStep(s: State, t: Thread, kind: Kind, e: Event)
    requires t in s.threads && s.threads[t] == Using(kind) && e != Release(t)
    ensures t in Apply(s, e).threads && Apply(s, e).threads[t] == Using(kind)
  {
    hide Sleepers;
  }

  /** From a successful acquisition until its own release, whatever any thread does,
      closing included, the operation is counted and no descriptor is closed. */
  lemma HeldUntilRelease(before: seq<Event>, t: Thread, kind: Kind, after: seq<Event>, fd: FD)
    requires IsIdle(After(before), t) && After(before).fdValid
    requires forall i :: 0 <= i < |after| ==> after[i] != Release(t)
    ensures var s := After(before + [Acquire(t, kind)] + after);
      t in Users(s.threads) && s.activeOps > 0 && fd in s.closes && s.closes[fd] == 0
  {
    var s := After(before);
    AcquireCounts(before, t, kind);
    RunAppend(INIT, before + [Acquire(t, kind)], after);
    RunAppend(INIT, before, [Acquire(t, kind)]);
    OneStep(s, Acquire(t, kind));
    StaysInUse(Apply(s, Acquire(t, kind)), t, kind, after);
    var all := before + [Acquire(t, kind)] + after;
    Reached(all);
    ClosedOnceUnheld(all, fd);
    assert t in Users(After(all).threads);
  }

  /** Close of a valid connection invalidates it at once and then sleeps exactly if an
      operation is outstanding; a second Close, and one that cannot notify, change nothing. */
  lemma CloseInvalidates(es: seq<Event>, t: Thread, notified: bool)
    requires IsIdle(After(es), t)
    ensures var s, s' := After(es), Apply(After(es), BeginClose(t, notified));
      if s.fdValid && notified then
        && !s'.fdValid && t in s'.threads && s'.activeOps == s.activeOps && Users(s'.threads) == Users(s.threads)
        && (s'.threads[t] == Asleep <==> Users(s.threads) != {})
      else s' == s
  {
    Reached(es);
    var s := After(es);
    UsersSame(s.threads, t, Asleep);
    UsersSame(s.threads, t, Closing([Device, ReadWake, WriteWake]));
    hide After;
    assert |Users(s.threads)| == 0 <==> Users(s.threads) == {};
  }

  /** Once no operation is outstanding, the closer's own remaining steps close every
      descriptor, each exactly once in all, and end its Close. */
  lemma CloseFinishes(es: seq<Event>, t: Thread, fd: FD)
    requires After(es).closer == Some(t) && Users(After(es).threads) == {}
    ensures var s := Run(After(es), [Recheck(t), CloseNext(t), CloseNext(t), CloseNext(t), CloseNext(t)]);
      t in s.threads && s.threads[t] == Finished && fd in s.closes && s.closes[fd] == 1
  {
    Reached(es);
    var s := After(es);
    var c := CloseNext(t);
    var s1 := Apply(s, Recheck(t));
    ApplyKeeps(s, Recheck(t));
    Rechecked(s, t);
    Closes(s1, t);
    hide After, Apply, Inv;
    FiveSteps(s, Recheck(t), c, c, c, c);
    var s5 := Apply(Apply(Apply(Apply(s1, c), c), c), c);
    ApplyKeeps(s1, c);
    ApplyKeeps(Apply(s1, c), c);
    ApplyKeeps(Apply(Apply(s1, c), c), c);
    ApplyKeeps(Apply(Apply(Apply(s1, c), c), c), c);
    FinishedClosed(s5, t, fd);
  }

  lemma Rechecked(s: State, t: Thread)
    requires Inv(s) && s.closer == Some(t) && Users(s.threads) == {}
    ensures Left(Apply(s, Recheck(t)), t, 3)
  {
    hide Users;
  }

  /** The closer has at most n descriptors left to close. */
  ghost predicate Left(s: State, t: Thread, n: nat) {
    && s.closer == Some(t) && t in s.threads && (forall fd: FD :: fd in s.closes)
    && (s.threads[t] == Finished || (s.threads[t].Closing? && Rest(s.threads[t].left) && |s.threads[t].left| <= n))
  }

  lemma ClosesOne(s: State, t: Thread, n: nat)
    requires Left(s, t, n)
    ensures n > 0 ==> Left(Apply(s, CloseNext(t)), t, n - 1)
    ensures n == 0 ==> t in Apply(s, CloseNext(t)).threads && Apply(s, CloseNext(t)).threads[t] == Finished && Apply(s, CloseNext(t)).closer == Some(t)
  {
  }

  lemma Closes(s: State, t: Thread)
    requires Left(s, t, 3)
    ensures var c := CloseNext(t);
      var s' := Apply(Apply(Apply(Apply(s, c), c), c), c);
      t in s'.threads && s'.threads[t] == Finished && s'.closer == Some(t)
  {
    hide Left, Apply;
    var c := CloseNext(t);
    ClosesOne(s, t, 3);
    ClosesOne(Apply(s, c), t, 2);
    ClosesOne(Apply(Apply(s, c), c), t, 1);
    ClosesOne(Apply(Apply(Apply(s, c), c), c), t, 0);
  }

  lemma FinishedClosed(s: State, t: Thread, fd: FD)
    requires Inv(s) && s.closer == Some(t) && t in s.threads && s.threads[t] == Finished
    ensures fd in s.closes && s.closes[fd] == 1
  {
    hide Users;
  }

  lemma FiveSteps(s: State, a: Event, b: Event, c: Event, d: Event, e: Event)
    ensures Run(s, [a, b, c, d, e]) == Apply(Apply(Apply(Apply(Apply(s, a), b), c), d), e)
  {
    hide Apply;
    assert [a, b, c, d, e] == [a] + [b] + [c] + [d] + [e];
    RunAppend(s, [a] + [b] + [c] + [d], [e]);
    RunAppend(s, [a] + [b] + [c], [d]);
    RunAppend(s, [a] + [b], [c]);
    RunAppend(s, [a], [b]);
    OneStep(s, a);
    OneStep(Apply(s, a), b);
    OneStep(Apply(Apply(s, a), b), c);
    OneStep(Apply(Apply(Apply(s, a), b), c), d);
    OneStep(Apply(Apply(Apply(Apply(s, a), b), c), d), e);
  }

  /** The descriptor is one an operation of this kind works on. */
  predicate WorksOn(kind: Kind, fd: FD) {
    fd == Device || (kind == Reading && fd == ReadWake) || (kind == Writing && fd == WriteWake)
  }

  /** misuse records a system call on a closed descriptor: exactly then it is set. */
  lemma MisuseIsSeen(s: State, t: Thread)
    requires t in s.threads && s.threads[t].Using? && !s.misuse
    ensures Apply(s, Syscall(t)).misuse <==> exists fd :: fd in s.closes && WorksOn(s.threads[t].kind, fd) && s.closes[fd] > 0
  {
    var kind := s.threads[t].kind;
    assert forall fd :: fd in Touches(kind) <==> WorksOn(kind, fd);
  }

  // ---- the connection object ----

  class Connection {
    var activeOps: int
    var fdValid: bool
    ghost var threads: map<Thread, Phase>
    ghost var closer: Option<Thread>
    ghost var closes: map<FD, nat>
    ghost var misuse: bool

    ghost function View(): State
      reads this
    {
      State(activeOps, fdValid, threads, closer, closes, misuse)
    }

    constructor ()
      ensures View() == INIT
    {
      activeOps, fdValid := 0, true;
      threads, closer, closes, misuse := map[], None, map[Device := 0, ReadWake := 0, WriteWake := 0], false;
    }

    /** acquireIO and acquireFD: net.ErrClosed once the descriptors are invalid. */
    method AcquireFD(ghost t: Thread, ghost kind: Kind) returns (ok: bool)
      requires IsIdle(View(), t)
      modifies this
      ensures View() == Apply(old(View()), Acquire(t, kind)) && ok == old(fdValid)
      ensures ok <==> t in Users(threads)
      ensures activeOps == old(activeOps) + (if ok then 1 else 0)
    {
      if !fdValid { return false; }
      activeOps := activeOps + 1;
      threads := threads[t := Using(kind)];
      return true;
    }

    method ReleaseFD(ghost t: Thread) returns (broadcast: bool)
      requires t in threads && threads[t].Using?
      modifies this
      ensures View() == Apply(old(View()), Event.Release(t)) && broadcast == (activeOps == 0)
      ensures t !in Users(threads) && activeOps == old(activeOps) - 1
    {
      activeOps := activeOps - 1;
      threads := threads[t := Idle];
      broadcast := activeOps == 0;
      if broadcast { threads := WakeAll(threads); }
    }

    /** Close up to its first test of activeOps. */
    method StartClose(ghost t: Thread, notified: bool) returns (closing: bool)
      requires IsIdle(View(), t)
      modifies this
      ensures View() == Apply(old(View()), BeginClose(t, notified)) && closing == (old(fdValid) && notified)
      ensures fdValid == (old(fdValid) && !closing)
    {
      if !fdValid { return false; }
      if !notified { return false; }
      fdValid := false;
      closer := Some(t);
      threads := threads[t := if activeOps > 0 then Asleep else Closing([Device, ReadWake, WriteWake])];
      return true;
    }
  }
}
