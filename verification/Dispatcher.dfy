/** The MBIM client dispatcher as a machine: every critical section of the shared
    mutex and every channel operation outside it is one step, in any order. */
module Dispatcher {
  import opened Bytes
  import opened Channels
  import R = Responses
  import I = Indications

  datatype Flags = Flags(
    hasConn: bool, closed: bool, closing: bool, started: bool, failure: Option<Error>, leasesClosed: set<LeaseId>)

  /** sweeping holds the leases whose closed flag is set and whose critical section
      is still to come; swept those whose section is over. */
  datatype State = State(
    flags: Flags, table: R.Table, hub: I.Hub, sweeping: set<LeaseId>, swept: set<LeaseId>)

  datatype Event =
    | Register(owner: Owner, txn: R.Txn, requestType: int, serviceID: bytes, commandID: int, expectCommand: bool, allowClosing: bool)
    | Unregister(txn: R.Txn, ch: ChanId)
    | Fail(txn: R.Txn, error: Error)
    | Deliver(messageType: int, data: bytes)
    | SendResponse(ch: ChanId)
    | TakeResponse(ch: ChanId)
    | Next(owner: Owner, key: I.Key)
    | Wake(ch: ChanId)
    | Cancel(ch: ChanId)
    | Poll(ch: ChanId)
    | Subscribe(owner: Owner, key: I.Key)
    | Unsubscribe(key: I.Key, ch: ChanId)
    | TakeStream(ch: ChanId)
    | Publish(indication: I.Indication, env: map<ChanId, I.Meanwhile>)
    | PayCall(ch: ChanId)
    | PayStream(ch: ChanId)
    | StopReceiver(error: Error)
    | CloseFlag(lease: LeaseId)
    | Sweep(lease: LeaseId)
    | BeginClose
    | FinishClose
    | ClearQueues

  function Init(hasConn: bool): State {
    State(Flags(hasConn, false, false, false, None, {}), R.EMPTY, I.EMPTY, {}, {})
  }

  predicate LeaseIsClosed(f: Flags, owner: Owner) {
    owner.Some? && owner.value in f.leasesClosed
  }

  /** ensureReceiverLocked: the reason to refuse, if any. */
  function Refusal(f: Flags, owner: Owner, allowClosing: bool): Option<Error> {
    if LeaseIsClosed(f, owner) then Some(LeaseClosed)
    else if f.closed || (f.closing && !allowClosing) then Some(ClientClosed)
    else if f.failure.Some? then f.failure
    else if !f.started && !f.hasConn then Some(ConnNil)
    else None
  }

  function ApplyRegister(s: State, e: Event): State
    requires e.Register?
  {
    var kind := R.ResponseType(e.requestType);
    if kind == None || Refusal(s.flags, e.owner, e.allowClosing).Some? then s
    else if e.txn in s.table.pending then s.(flags := s.flags.(started := true))
    else s.(flags := s.flags.(started := true),
            table := R.Register(s.table, e.txn, kind.value, e.serviceID, e.commandID, e.expectCommand, e.owner))
  }

  function ApplyNext(s: State, owner: Owner, k: I.Key): State {
    if LeaseIsClosed(s.flags, owner) || s.flags.closed || s.flags.closing then s
    else if I.At(s.hub.queue, k) != [] then s.(hub := I.Pop(s.hub, k, owner))
    else if Refusal(s.flags, owner, false).Some? then s
    else s.(flags := s.flags.(started := true), hub := I.Await(s.hub, k, owner))
  }

  function ApplySubscribe(s: State, owner: Owner, k: I.Key): State {
    if LeaseIsClosed(s.flags, owner) || s.flags.closed || s.flags.closing then s
    else if s.flags.failure.Some? then
      if I.At(s.hub.queue, k) == [] then s else s.(hub := I.Drain(s.hub, k, owner, s.flags.failure.value))
    else if Refusal(s.flags, owner, false).Some? then s
    else s.(flags := s.flags.(started := true), hub := I.Subscribe(s.hub, k, owner))
  }

  function Failed(f: Flags, error: Error): Flags {
    f.(started := false, failure := if f.failure.Some? then f.failure else Some(error))
  }

  function ApplyStop(s: State, error: Error): State {
    s.(flags := Failed(s.flags, error),
       table := R.Stop(s.table, error),
       hub := I.Stop(s.hub, error))
  }

  ghost function ApplySweep(s: State, lease: LeaseId): State {
    if lease !in s.sweeping then s
    else s.(table := R.CloseLease(s.table, lease), hub := I.CloseLease(s.hub, lease),
            sweeping := s.sweeping - {lease}, swept := s.swept + {lease})
  }

  predicate InPhase(h: I.Hub, ch: ChanId, p: I.Phase) {
    ch in h.calls && h.calls[ch].phase == p
  }

  function ApplyHub(h: I.Hub, e: Event): I.Hub {
    match e
    case Wake(ch) => if InPhase(h, ch, I.Blocked) then I.Wake(h, ch) else h
    case Cancel(ch) => if InPhase(h, ch, I.Blocked) then I.CancelCall(h, ch) else h
    case Poll(ch) => if InPhase(h, ch, I.Polling) then I.Poll(h, ch) else h
    case Unsubscribe(k, ch) => I.Unsubscribe(h, k, ch)
    case TakeStream(ch) => if ch in h.streams then I.TakeStream(h, ch) else h
    case Publish(ind, env) => I.Publish(h, ind, env)
    case PayCall(ch) => if ch in h.callDebts && ch in h.calls then I.StepCallDebt(h, ch) else h
    case PayStream(ch) => if ch in h.streamDebts && ch in h.streams then I.StepStreamDebt(h, ch) else h
    case ClearQueues => I.ClearQueues(h)
    case _ => h
  }

  function ApplyTable(t: R.Table, e: Event): R.Table {
    match e
    case Unregister(txn, ch) => R.Unregister(t, txn, ch)
    case Fail(txn, error) => R.Fail(t, txn, error)
    case Deliver(messageType, data) => if |data| >= 12 then R.Deliver(t, messageType, data) else t
    case SendResponse(ch) => R.SendOwed(t, ch)
    case TakeResponse(ch) => R.TakeResult(t, ch)
    case _ => t
  }

  ghost function Apply(s: State, e: Event): State {
    match e
    case Register(_, _, _, _, _, _, _) => ApplyRegister(s, e)
    case Next(owner, k) => ApplyNext(s, owner, k)
    case Subscribe(owner, k) => ApplySubscribe(s, owner, k)
    case StopReceiver(error) => ApplyStop(s, error)
    case CloseFlag(lease) =>
      if lease in s.flags.leasesClosed then s
      else s.(flags := s.flags.(leasesClosed := s.flags.leasesClosed + {lease}), sweeping := s.sweeping + {lease})
    case Sweep(lease) => ApplySweep(s, lease)
    case BeginClose => s.(flags := s.flags.(closing := s.flags.closing || !s.flags.closed))
    case FinishClose => s.(flags := s.flags.(closed := true))
    case _ => s.(table := ApplyTable(s.table, e), hub := ApplyHub(s.hub, e))
  }

  ghost function Run(s: State, es: seq<Event>): State
    decreases es
  {
    if es == [] then s else Run(Apply(s, es[0]), es[1..])
  }
}
