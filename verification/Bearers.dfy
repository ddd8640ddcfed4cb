/** Data bearers and the modem that owns them: connecting, disconnecting and closing from
    any number of threads. Taking a lock is a step of its own. */
module Bearers {
  import opened Bytes

  type Thread = nat
  type Session = nat
  type Obj = nat

  /** A bearer object: its number in the modem's table, its session, its closed flag. */
  datatype Bearer = Bearer(id: nat, session: Session, closed: bool)

  /** Who has to dispose of a session. */
  datatype Owner = OfThread(t: Thread) | OfBearer(o: Obj) | Dropped

  datatype Op = Disconnecting | ClosingOwned

  /** What a thread does once it is done with a bearer: return, go on to closeOwned as
      Bearer.Close does after an error, or go on sweeping as Modem.Close does. */
  datatype Next = Return | ThenOwned | Sweep

  datatype Phase =
    | Dialing
    | HasSession(x: Session)
    | Registering(x: Session)
    | Rejecting(x: Session)
    | WantBearer(o: Obj, op: Op, next: Next)
    | InBearer(o: Obj, op: Op, next: Next)
    | WantModem(o: Obj, next: Next)
    | Removing(o: Obj, next: Next)
    | WantClose
    | InClose
    | Sweeping
    | Done

  datatype State = State(
    closed: bool, bearers: map<nat, Obj>, nextID: nat, objs: seq<Bearer>,
    owner: seq<Owner>, disposals: seq<nat>,
    modemLock: Option<Thread>, bearerLocks: map<Obj, Thread>, threads: map<Thread, Phase>,
    closer: Option<Thread>, todo: set<Obj>)

  const INIT: State := State(false, map[], 0, [], [], [], None, map[], map[], None, {})

  /** How a session answers: it worked, it failed and is still up, it failed and is gone. */
  datatype Outcome = Worked | FailedUp | FailedGone

  datatype Event =
    | Connect(t: Thread)
    | Disconnect(t: Thread, o: Obj)
    | CloseBearer(t: Thread, o: Obj)
    | CloseModem(t: Thread)
    | Go(t: Thread, outcome: Outcome, pick: Obj)

  function HoldsModem(p: Phase): bool { p.Registering? || p.Removing? || p.InClose? }

  function HoldsBearer(p: Phase): Option<Obj> {
    match p
    case InBearer(o, _, _) => Some(o)
    case WantModem(o, _) => Some(o)
    case Removing(o, _) => Some(o)
    case _ => None
  }

  function Carries(p: Phase): Option<Session> {
    match p
    case HasSession(x) => Some(x)
    case Registering(x) => Some(x)
    case Rejecting(x) => Some(x)
    case _ => None
  }

  function Move(s: State, t: Thread, p: Phase): State { s.(threads := s.threads[t := p]) }

  function Dispose(s: State, x: Session): State
    requires x < |s.disposals|
  {
    s.(disposals := s.disposals[x := s.disposals[x] + 1])
  }

  /** Where a thread goes when it lets go of a bearer. */
  function Onward(o: Obj, next: Next): Phase {
    match next
    case Return => Done
    case ThenOwned => WantBearer(o, ClosingOwned, Return)
    case Sweep => Sweeping
  }

  // ---- the steps ----

  function Dial(s: State, t: Thread, outcome: Outcome): State {
    if outcome != Worked then Move(s, t, Done)
    else
      var x := |s.owner|;
      Move(s, t, HasSession(x)).(owner := s.owner + [OfThread(t)], disposals := s.disposals + [0])
  }

  /** The critical section at the end of Connect. */
  function Register(s: State, t: Thread, x: Session): State
    requires x < |s.owner|
  {
    if s.closed then Move(s, t, Rejecting(x)).(modemLock := None)
    else
      var o, id := |s.objs|, s.nextID + 1;
      Move(s, t, Done).(
        modemLock := None, nextID := id, objs := s.objs + [Bearer(id, x, false)],
        bearers := s.bearers[id := o], owner := s.owner[x := OfBearer(o)])
  }

  function Reject(s: State, t: Thread, x: Session): State
    requires x < |s.owner| && x < |s.disposals|
  {
    Dispose(Move(s, t, Done), x).(owner := s.owner[x := Dropped])
  }

  /** Disconnect or closeOwned with the bearer's lock held. */
  function Work(s: State, t: Thread, o: Obj, op: Op, next: Next, outcome: Outcome): State
    requires o < |s.objs| && s.objs[o].session < |s.disposals|
  {
    var b := s.objs[o];
    if b.closed then Move(s, t, if next == ThenOwned then Done else Onward(o, next)).(bearerLocks := s.bearerLocks - {o})
    else if op == Disconnecting && outcome == FailedUp then Move(s, t, Onward(o, next)).(bearerLocks := s.bearerLocks - {o})
    else
      var after := if next == ThenOwned && outcome == Worked then Return else next;
      Dispose(Move(s, t, WantModem(o, after)), b.session).(objs := s.objs[o := b.(closed := true)])
  }

  /** removeBearer, and the release of both locks. */
  function Remove(s: State, t: Thread, o: Obj, next: Next): State
    requires o < |s.objs|
  {
    Move(s, t, Onward(o, next)).(
      modemLock := None, bearerLocks := s.bearerLocks - {o}, bearers := s.bearers - {s.objs[o].id})
  }

  /** The critical section of Modem.Close. */
  function Shut(s: State, t: Thread): State {
    Move(s, t, Sweeping).(modemLock := None, closed := true, todo := s.bearers.Values, bearers := map[])
  }

  function SweepOne(s: State, t: Thread, pick: Obj): State {
    if s.todo == {} then Move(s, t, Done)
    else if pick in s.todo then Move(s, t, WantBearer(pick, ClosingOwned, Sweep)).(todo := s.todo - {pick})
    else s
  }

  function LockModem(s: State, t: Thread, p: Phase): State {
    if s.modemLock == None then Move(s, t, p).(modemLock := Some(t)) else s
  }

  function LockBearer(s: State, t: Thread, o: Obj, p: Phase): State {
    if o !in s.bearerLocks then Move(s, t, p).(bearerLocks := s.bearerLocks[o := t]) else s
  }

  function Advance(s: State, t: Thread, outcome: Outcome, pick: Obj): State
    requires t in s.threads
  {
    match s.threads[t]
    case Dialing => Dial(s, t, outcome)
    case HasSession(x) => LockModem(s, t, Registering(x))
    case Registering(x) => if x < |s.owner| then Register(s, t, x) else s
    case Rejecting(x) => if x < |s.owner| && x < |s.disposals| then Reject(s, t, x) else s
    case WantBearer(o, op, next) => LockBearer(s, t, o, InBearer(o, op, next))
    case InBearer(o, op, next) =>
      if o < |s.objs| && s.objs[o].session < |s.disposals| then Work(s, t, o, op, next, outcome) else s
    case WantModem(o, next) => LockModem(s, t, Removing(o, next))
    case Removing(o, next) => if o < |s.objs| then Remove(s, t, o, next) else s
    case WantClose => LockModem(s, t, InClose)
    case InClose => Shut(s, t)
    case Sweeping => SweepOne(s, t, pick)
    case Done => s
  }

  function Apply(s: State, e: Event): State {
    match e
    case Connect(t) => if t in s.threads then s else Move(s, t, Dialing)
    case Disconnect(t, o) => if t in s.threads || o >= |s.objs| then s else Move(s, t, WantBearer(o, Disconnecting, Return))
    case CloseBearer(t, o) => if t in s.threads || o >= |s.objs| then s else Move(s, t, WantBearer(o, Disconnecting, ThenOwned))
    case CloseModem(t) => if t in s.threads || s.closer.Some? then s else Move(s, t, WantClose).(closer := Some(t))
    case Go(t, outcome, pick) => if t in s.threads then Advance(s, t, outcome, pick) else s
  }

  function Run(s: State, es: seq<Event>): State
    decreases es
  {
    if es == [] then s else Run(Apply(s, es[0]), es[1..])
  }

  // ---- invariant ----

  /** What holds of a thread whatever the locks are. */
  ghost predicate ThreadOk(s: State, t: Thread) {
    t in s.threads && var p := s.threads[t];
    && (HoldsModem(p) <==> s.modemLock == Some(t))
    && (HoldsBearer(p).Some? ==> HoldsBearer(p).value in s.bearerLocks && s.bearerLocks[HoldsBearer(p).value] == t)
    && (Carries(p).Some? ==> Carries(p).value < |s.owner| && s.owner[Carries(p).value] == OfThread(t))
    && ((p.WantBearer? || p.InBearer? || p.WantModem? || p.Removing?) ==> p.o < |s.objs|)
    && ((p.WantModem? || p.Removing?) ==> s.objs[p.o].closed)
    && ((p.WantBearer? || p.InBearer?) && p.next == Sweep ==> p.op == ClosingOwned && s.closer == Some(t) && s.closed)
    && ((p.WantModem? || p.Removing?) && p.next == Sweep ==> s.closer == Some(t) && s.closed)
    && (p == Sweeping ==> s.closer == Some(t) && s.closed)
    && (p.WantClose? || p.InClose? ==> s.closer == Some(t) && !s.closed)
    && (s.closer == Some(t) ==> Closes(p))
    && (p == Done && s.closer == Some(t) ==> s.closed && s.todo == {})
  }

  /** The phases of Modem.Close. */
  predicate Closes(p: Phase) {
    p.WantClose? || p.InClose? || p.Sweeping? || p.Done?
    || ((p.WantBearer? || p.InBearer? || p.WantModem? || p.Removing?) && p.next == Sweep)
  }

  /** The sweep has this bearer in hand. */
  ghost predicate InHand(s: State, o: Obj) {
    s.closer.Some? && s.closer.value in s.threads && var p := s.threads[s.closer.value];
    (p.WantBearer? || p.InBearer?) && p.o == o && p.next == Sweep
  }

  ghost predicate ObjOk(s: State, o: Obj) {
    o < |s.objs| && var b := s.objs[o];
    && b.session < |s.owner| && s.owner[b.session] == OfBearer(o)
    && b.session < |s.disposals| && s.disposals[b.session] == (if b.closed then 1 else 0)
    && 1 <= b.id <= s.nextID
    && (!b.closed ==> (b.id in s.bearers && s.bearers[b.id] == o) || (s.closed && (o in s.todo || InHand(s, o))))
  }

  ghost predicate SessionOk(s: State, x: Session) {
    x < |s.owner| && x < |s.disposals| &&
    match s.owner[x]
    case OfThread(t) => s.disposals[x] == 0 && t in s.threads && Carries(s.threads[t]) == Some(x)
    case OfBearer(o) => o < |s.objs| && s.objs[o].session == x
    case Dropped => s.disposals[x] == 1
  }

  ghost predicate TableOk(s: State) {
    && (forall k :: k in s.bearers ==> s.bearers[k] < |s.objs| && s.objs[s.bearers[k]].id == k)
    && (forall i, j :: 0 <= i < j < |s.objs| ==> s.objs[i].id < s.objs[j].id)
    && (s.closed ==> s.bearers == map[] && s.closer.Some?)
    && (!s.closed ==> s.todo == {})
    && (forall o :: o in s.todo ==> o < |s.objs|)
    && |s.owner| == |s.disposals|
  }

  ghost predicate LocksOk(s: State) {
    && (s.modemLock.Some? ==> s.modemLock.value in s.threads && HoldsModem(s.threads[s.modemLock.value]))
    && (forall o :: o in s.bearerLocks ==> s.bearerLocks[o] in s.threads && HoldsBearer(s.threads[s.bearerLocks[o]]) == Some(o))
    && (s.closer.Some? ==> s.closer.value in s.threads)
  }

  ghost predicate ThreadsOk(s: State) { forall t :: t in s.threads ==> ThreadOk(s, t) }
  ghost predicate ObjsOk(s: State) { forall o :: 0 <= o < |s.objs| ==> ObjOk(s, o) }
  ghost predicate SessionsOk(s: State) { forall x :: 0 <= x < |s.owner| ==> SessionOk(s, x) }

  ghost predicate Inv(s: State) {
    TableOk(s) && LocksOk(s) && ThreadsOk(s) && ObjsOk(s) && SessionsOk(s)
  }
}
