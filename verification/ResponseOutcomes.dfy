/** What becomes of a request: when it is registered, which message answers it, and that
    the answer, once taken in, reaches the caller. Stated over all runs. */
module ResponseOutcomes {
  import opened Bytes
  import opened Channels
  import opened Dispatcher
  import opened DispatcherProofs
  import opened DispatcherTheorems
  import R = Responses
  import I = Indications
  import P = IndicationProofs

  // ---- registering ----

  /** A lease, the client and the receiver are all willing to register something. */
  ghost predicate Willing(f: Flags, owner: Owner, allowClosing: bool) {
    && (owner.Some? ==> owner.value !in f.leasesClosed)
    && !f.closed && (f.closing ==> allowClosing)
    && f.failure == None && (f.started || f.hasConn)
  }

  /** A request is registered exactly when it is an open, close or command request, all
      are willing, and its transaction is not pending. The waiter then expects the done
      message of its type, on a channel of its own that nothing was ever sent on. */
  lemma RegisteredIff(hasConn: bool, es: seq<Event>, owner: Owner, txn: R.Txn, requestType: int, serviceID: bytes,
                      commandID: int, expectCommand: bool, allowClosing: bool)
    ensures var s := Run(Init(hasConn), es);
      var s' := Apply(s, Register(owner, txn, requestType, serviceID, commandID, expectCommand, allowClosing));
      && s'.hub == s.hub
      && if 1 <= requestType <= 3 && Willing(s.flags, owner, allowClosing) && txn !in s.table.pending then
           && txn in s'.table.pending && s'.table.pending - {txn} == s.table.pending
           && var w := s'.table.pending[txn];
           && w.messageType == 0x8000_0000 + requestType && w.serviceID == serviceID && w.commandID == commandID
           && w.expectCommand == expectCommand && w.owner == owner
           && w.ch !in s.table.slots && w.ch in s'.table.slots && s'.table.slots[w.ch].sent == [] && CanSend(s'.table.slots[w.ch])
           && s'.table.slots - {w.ch} == s.table.slots && s'.table.owed == s.table.owed && s'.flags.started
         else s'.table == s.table
  {
    Reached(hasConn, es);
    hide Run, Inv, P.Inv;
    var t := Run(Init(hasConn), es).table;
    assert t.next !in t.slots;
    hide R.Inv;
    WillingIff(Run(Init(hasConn), es).flags, owner, allowClosing);
    hide Refusal, Willing;
    if txn !in t.pending && R.ResponseType(requestType).Some? {
      Registers(t, txn, R.ResponseType(requestType).value, serviceID, commandID, expectCommand, owner);
    }
  }

  lemma WillingIff(f: Flags, owner: Owner, allowClosing: bool)
    ensures Refusal(f, owner, allowClosing) == None <==> Willing(f, owner, allowClosing)
  {
  }

  lemma Registers(t: R.Table, txn: R.Txn, messageType: int, serviceID: bytes, commandID: int, expectCommand: bool, owner: Owner)
    requires txn !in t.pending && t.next !in t.slots
    ensures var u := R.Register(t, txn, messageType, serviceID, commandID, expectCommand, owner);
      && u.pending[txn] == R.Waiter(messageType, serviceID, commandID, expectCommand, t.next, owner)
      && u.pending - {txn} == t.pending && u.slots - {t.next} == t.slots && u.owed == t.owed
      && t.next in u.slots && u.slots[t.next].sent == [] && CanSend(u.slots[t.next])
  {
  }

  /** The reasons to refuse, in the order in which the first that holds is given. */
  function Reasons(f: Flags, owner: Owner, allowClosing: bool): seq<(bool, Error)> {
    [(owner.Some? && owner.value in f.leasesClosed, LeaseClosed),
     (f.closed, ClientClosed),
     (f.closing && !allowClosing, ClientClosed),
     (f.failure.Some?, if f.failure.Some? then f.failure.value else ReceiverStopped),
     (!f.started && !f.hasConn, ConnNil)]
  }

  lemma FirstReasonIsGiven(f: Flags, owner: Owner, allowClosing: bool, i: nat)
    requires i < |Reasons(f, owner, allowClosing)|
    requires Reasons(f, owner, allowClosing)[i].0 && forall j :: 0 <= j < i ==> !Reasons(f, owner, allowClosing)[j].0
    ensures Refusal(f, owner, allowClosing) == Some(Reasons(f, owner, allowClosing)[i].1)
  {
    assert i > 0 ==> !Reasons(f, owner, allowClosing)[0].0;
    assert i > 1 ==> !Reasons(f, owner, allowClosing)[1].0;
    assert i > 2 ==> !Reasons(f, owner, allowClosing)[2].0;
    assert i > 3 ==> !Reasons(f, owner, allowClosing)[3].0;
  }

  // ---- closing ----

  lemma FlagsStick(s: State, e: Event)
    ensures var f, g := s.flags, Apply(s, e).flags;
      (f.closed ==> g.closed) && (f.closing ==> g.closing) && f.leasesClosed <= g.leasesClosed
  {
    hide ApplyHub, ApplyTable, R.Register, R.Stop, I.Stop, I.Pop, I.Await, I.Subscribe, I.Drain, R.CloseLease, I.CloseLease;
  }

  lemma {:induction false} FlagsStay(s: State, es: seq<Event>)
    ensures var f, g := s.flags, Run(s, es).flags;
      (f.closed ==> g.closed) && (f.closing ==> g.closing) && f.leasesClosed <= g.leasesClosed
    decreases es
  {
    hide Apply;
    if es != [] {
      FlagsStick(s, es[0]);
      FlagsStay(Apply(s, es[0]), es[1..]);
    }
  }

  lemma ThenRun(s: State, a: seq<Event>, e: Event, b: seq<Event>)
    ensures Run(s, a + [e] + b) == Run(Apply(Run(s, a), e), b)
  {
    hide Apply;
    RunAppend(s, a + [e], b);
    RunAppend(s, a, [e]);
    assert [e][1..] == [];
    assert Run(Run(s, a), [e]) == Apply(Run(s, a), e);
  }

  /** A request to listen or to register a response for the owner. */
  predicate Asks(e: Event, owner: Owner) {
    (e.Register? && e.owner == owner) || (e.Next? && e.owner == owner) || (e.Subscribe? && e.owner == owner)
  }

  /** Once closing has begun nobody gets a listener, a queued indication or a pending
      response, except for the messages of the close itself; once it has finished these
      are refused too. */
  lemma ClosingRefuses(hasConn: bool, before: seq<Event>, after: seq<Event>, e: Event, owner: Owner)
    requires Asks(e, owner)
    ensures var s := Run(Init(hasConn), before + [BeginClose] + after);
      !(e.Register? && e.allowClosing) ==> Apply(s, e) == s
    ensures var s := Run(Init(hasConn), before + [FinishClose] + after); Apply(s, e) == s
  {
    hide Run;
    ThenRun(Init(hasConn), before, BeginClose, after);
    ThenRun(Init(hasConn), before, FinishClose, after);
    FlagsStay(Apply(Run(Init(hasConn), before), BeginClose), after);
    FlagsStay(Apply(Run(Init(hasConn), before), FinishClose), after);
  }

  /** From the moment the flag of a lease is set, inside or outside its own critical
      section, nothing is registered or handed out for it. */
  lemma ClosedLeaseRefuses(hasConn: bool, before: seq<Event>, lease: LeaseId, after: seq<Event>, e: Event)
    requires Asks(e, Some(lease))
    ensures var s := Run(Init(hasConn), before + [CloseFlag(lease)] + after); Apply(s, e) == s
  {
    hide Run;
    ThenRun(Init(hasConn), before, CloseFlag(lease), after);
    FlagsStay(Apply(Run(Init(hasConn), before), CloseFlag(lease)), after);
  }

  /** The flag is set once, and its own critical section is then still to come. */
  lemma FlagThenSweep(s: State, lease: LeaseId)
    requires lease !in s.flags.leasesClosed
    ensures var s' := Apply(s, CloseFlag(lease));
      && lease in s'.sweeping && s'.table == s.table && s'.hub == s.hub && Apply(s', CloseFlag(lease)) == s'
      && lease in Apply(s', Sweep(lease)).swept && lease !in Apply(s', Sweep(lease)).sweeping
  {
    hide R.CloseLease, I.CloseLease;
  }

  // ---- answering ----

  /** A message of this type is taken for the response of transaction Get32(data, 8)
      exactly when that is pending and the message answers its waiter. The waiter then
      leaves the table and its channel, which nobody owed anything, is owed the message;
      otherwise nothing changes. */
  lemma DeliveredIff(hasConn: bool, es: seq<Event>, messageType: int, data: bytes)
    requires |data| >= 12
    ensures var s, txn := Run(Init(hasConn), es), Get32(data, 8);
      var s' := Apply(s, Deliver(messageType, data));
      && s'.hub == s.hub && s'.flags == s.flags
      && if txn in s.table.pending && Answers(s.table.pending[txn], messageType, data) then
           Settled(s.table, s'.table, txn, R.Data(messageType, data))
         else s'.table == s.table
  {
    Reached(hasConn, es);
    hide Run, Inv, P.Inv, R.Inv, Get32, Settled;
    var t, txn := Run(Init(hasConn), es).table, Get32(data, 8);
    if txn in t.pending {
      AnswersIff(t.pending[txn], messageType, data);
      SettleSettles(t, txn, R.Data(messageType, data));
    }
    hide R.Matches, Answers, R.Settle;
  }

  /** The waiter of the transaction left, and its channel is owed the result. */
  ghost predicate Settled(t: R.Table, u: R.Table, txn: R.Txn, result: R.Result) {
    && txn in t.pending && t.pending[txn].ch !in t.owed
    && u.pending == t.pending - {txn} && u.owed == t.owed[t.pending[txn].ch := result] && u.slots == t.slots
  }

  lemma SettleSettles(t: R.Table, txn: R.Txn, result: R.Result)
    requires R.Inv(t) && txn in t.pending
    ensures Settled(t, R.Settle(t, txn, result), txn, result)
  {
    var ch := t.pending[txn].ch;
    assert R.SlotAt(t, ch);
    R.WaitsAlone(t.made[ch].waiter, t.slots[ch], R.Owed(t, ch), ch in t.withdrawn);
  }

  /** A failed transaction leaves the table, if it is pending, and is owed the error. */
  lemma FailedIsOwed(hasConn: bool, es: seq<Event>, txn: R.Txn, error: Error)
    ensures var s := Run(Init(hasConn), es);
      var s' := Apply(s, Fail(txn, error));
      && s'.hub == s.hub && s'.flags == s.flags
      && if txn in s.table.pending then Settled(s.table, s'.table, txn, R.Failed(error)) else s'.table == s.table
  {
    Reached(hasConn, es);
    hide Run, Inv, P.Inv, R.Inv, Settled, R.Settle;
    var t := Run(Init(hasConn), es).table;
    if txn in t.pending { SettleSettles(t, txn, R.Failed(error)); }
  }

  // ---- the result reaches its caller ----

  /** The result is still owed to the channel, or is the one value it was sent and is in
      its buffer or received. */
  ghost predicate OnItsWay(t: R.Table, ch: ChanId, result: R.Result) {
    && ch in t.made && ch in t.slots
    && ((ch in t.owed && t.owed[ch] == result)
        || (t.slots[ch].sent == [result] && (t.slots[ch].buf == [result] || t.slots[ch].taken == [result])))
  }

  /** A waiter that is settled has its result on its way. */
  lemma SettledGoes(t: R.Table, u: R.Table, txn: R.Txn, result: R.Result)
    requires R.Inv(t) && Settled(t, u, txn, result) && u.made == t.made
    ensures OnItsWay(u, t.pending[txn].ch, result)
  {
    hide R.SlotAt;
  }

  /** A channel that was settled is in neither table. */
  lemma SettledAlone(t: R.Table, ch: ChanId, result: R.Result)
    requires R.Inv(t) && OnItsWay(t, ch, result)
    ensures forall txn :: txn in t.pending ==> t.pending[txn].ch != ch
    ensures ch in t.owed ==> CanSend(t.slots[ch]) && t.slots[ch].sent == [] && t.slots[ch].buf == []
    ensures ch !in t.owed ==> t.slots[ch].sent == t.slots[ch].taken + t.slots[ch].buf
    ensures ch < t.next
  {
    assert R.SlotAt(t, ch);
  }

  lemma KeepsGoing(t: R.Table, ch: ChanId, result: R.Result, u: R.Table)
    requires OnItsWay(t, ch, result) && ch in u.made && ch in u.slots && u.slots[ch] == t.slots[ch]
    requires ch in t.owed ==> ch in u.owed && u.owed[ch] == t.owed[ch]
    ensures OnItsWay(u, ch, result)
  {
  }

  lemma SendGoes(t: R.Table, ch: ChanId, result: R.Result, c: ChanId)
    requires R.Inv(t) && OnItsWay(t, ch, result)
    ensures OnItsWay(R.SendOwed(t, c), ch, result)
  {
    SettledAlone(t, ch, result);
    hide R.Inv;
  }

  lemma TakeGoes(t: R.Table, ch: ChanId, result: R.Result, c: ChanId)
    requires R.Inv(t) && OnItsWay(t, ch, result)
    ensures OnItsWay(R.TakeResult(t, c), ch, result)
  {
    SettledAlone(t, ch, result);
    hide R.Inv;
  }

  lemma EvictGoes(t: R.Table, txns: set<R.Txn>, error: Error, ch: ChanId, result: R.Result)
    requires R.Inv(t) && OnItsWay(t, ch, result) && txns <= t.pending.Keys
    ensures OnItsWay(R.Evict(t, txns, error), ch, result)
  {
    SettledAlone(t, ch, result);
    hide R.Inv;
    KeepsGoing(t, ch, result, R.Evict(t, txns, error));
  }

  lemma LeaveGoes(t: R.Table, ch: ChanId, result: R.Result, txn: R.Txn, other: R.Result, c: ChanId)
    requires R.Inv(t) && OnItsWay(t, ch, result)
    ensures txn in t.pending ==> OnItsWay(R.Settle(t, txn, other), ch, result)
    ensures OnItsWay(R.Unregister(t, txn, c), ch, result)
  {
    SettledAlone(t, ch, result);
    hide R.Inv, OnItsWay;
    if txn in t.pending { KeepsGoing(t, ch, result, R.Settle(t, txn, other)) by { KnownSlot(t, ch, result); } }
    KeepsGoing(t, ch, result, R.Unregister(t, txn, c)) by { KnownSlot(t, ch, result); }
  }

  lemma KnownSlot(t: R.Table, ch: ChanId, result: R.Result)
    requires OnItsWay(t, ch, result)
    ensures ch in t.made && ch in t.slots
  {
  }

  lemma TableGoes(t: R.Table, ch: ChanId, result: R.Result, e: Event)
    requires R.Inv(t) && OnItsWay(t, ch, result)
    ensures OnItsWay(ApplyTable(t, e), ch, result)
  {
    hide R.Inv, OnItsWay, R.SendOwed, R.TakeResult, R.Matches, R.Settle, R.Unregister, Get32;
    match e
    case SendResponse(c) => SendGoes(t, ch, result, c);
    case TakeResponse(c) => TakeGoes(t, ch, result, c);
    case Unregister(txn, c) => LeaveGoes(t, ch, result, txn, result, c);
    case Fail(txn, error) => LeaveGoes(t, ch, result, txn, R.Failed(error), 0);
    case Deliver(messageType, data) =>
      if |data| >= 12 { LeaveGoes(t, ch, result, Get32(data, 8), R.Data(messageType, data), 0); }
    case _ =>
  }

  lemma RegisterGoes(s: State, e: Event, ch: ChanId, result: R.Result)
    requires R.Inv(s.table) && OnItsWay(s.table, ch, result) && e.Register?
    ensures OnItsWay(ApplyRegister(s, e).table, ch, result)
  {
    SettledAlone(s.table, ch, result);
    hide R.Inv, Refusal, R.ResponseType;
    KeepsGoing(s.table, ch, result, ApplyRegister(s, e).table);
  }

  lemma StepGoes(s: State, e: Event, ch: ChanId, result: R.Result)
    requires R.Inv(s.table) && OnItsWay(s.table, ch, result)
    ensures OnItsWay(Apply(s, e).table, ch, result)
  {
    hide R.Inv, OnItsWay, ApplyTable, ApplyHub, ApplyRegister, R.Evict, Refusal, I.CloseLease, I.Stop, I.Pop, I.Await, I.Drain, I.Subscribe;
    match e
    case Register(_, _, _, _, _, _, _) => RegisterGoes(s, e, ch, result);
    case StopReceiver(error) => EvictGoes(s.table, s.table.pending.Keys, error, ch, result);
    case Sweep(lease) => EvictGoes(s.table, R.Owned(s.table.pending, lease), LeaseClosed, ch, result);
    case _ => TableGoes(s.table, ch, result, e);
  }

  lemma {:induction false} RunGoes(s: State, es: seq<Event>, ch: ChanId, result: R.Result)
    requires Inv(s) && OnItsWay(s.table, ch, result)
    ensures OnItsWay(Run(s, es).table, ch, result)
    decreases es
  {
    if es != [] {
      ApplyKeeps(s, es[0]);
      hide R.Inv, P.Inv, Gone, Quiet, OnItsWay, Apply;
      StepGoes(s, es[0], ch, result);
      RunGoes(Apply(s, es[0]), es[1..], ch, result);
    }
  }

  lemma SentArrives(t: R.Table, ch: ChanId, result: R.Result)
    requires R.Inv(t) && OnItsWay(t, ch, result)
    ensures var u := R.SendOwed(t, ch);
      ch in u.slots && u.slots[ch].sent == [result] && (u.slots[ch].buf == [result] || u.slots[ch].taken == [result])
    ensures var u := R.TakeResult(R.SendOwed(t, ch), ch); ch in u.slots && u.slots[ch].taken == [result]
  {
    SettledAlone(t, ch, result);
    hide R.Inv;
  }

  /** The response to a request is not lost: a message that answers a pending request is,
      whatever happens afterwards (closes, failures, other responses, a reused
      transaction), owed to its caller or in its channel; the send of the goroutine that
      took it puts it there, and the caller's receive gets that message and no other. */
  lemma ResponseArrives(hasConn: bool, before: seq<Event>, messageType: int, data: bytes, after: seq<Event>)
    requires |data| >= 12 && Get32(data, 8) in Run(Init(hasConn), before).table.pending
    requires Answers(Run(Init(hasConn), before).table.pending[Get32(data, 8)], messageType, data)
    ensures var ch, result := Run(Init(hasConn), before).table.pending[Get32(data, 8)].ch, R.Data(messageType, data);
      var s := Run(Init(hasConn), before + [Deliver(messageType, data)] + after);
      && OnItsWay(s.table, ch, result)
      && var u := Apply(Apply(s, SendResponse(ch)), TakeResponse(ch)).table;
         ch in u.slots && u.slots[ch].sent == [result] && u.slots[ch].taken == [result]
  {
    var e, result := Deliver(messageType, data), R.Data(messageType, data);
    var s := Run(Init(hasConn), before);
    DeliveredIff(hasConn, before, messageType, data);
    assert Apply(s, e).table.made == s.table.made by { hide R.Matches, Get32; }
    hide Get32, Answers;
    ResultArrives(hasConn, before, e, Get32(data, 8), result, after);
  }

  /** The same for the error of a failed transaction. */
  lemma FailureArrives(hasConn: bool, before: seq<Event>, txn: R.Txn, error: Error, after: seq<Event>)
    requires txn in Run(Init(hasConn), before).table.pending
    ensures var ch, result := Run(Init(hasConn), before).table.pending[txn].ch, R.Failed(error);
      var s := Run(Init(hasConn), before + [Fail(txn, error)] + after);
      && OnItsWay(s.table, ch, result)
      && var u := Apply(Apply(s, SendResponse(ch)), TakeResponse(ch)).table;
         ch in u.slots && u.slots[ch].sent == [result] && u.slots[ch].taken == [result]
  {
    var e := Fail(txn, error);
    var s := Run(Init(hasConn), before);
    FailedIsOwed(hasConn, before, txn, error);
    assert Apply(s, e).table.made == s.table.made;
    ResultArrives(hasConn, before, e, txn, R.Failed(error), after);
  }

  lemma ResultArrives(hasConn: bool, before: seq<Event>, e: Event, txn: R.Txn, result: R.Result, after: seq<Event>)
    requires var s := Run(Init(hasConn), before);
      Settled(s.table, Apply(s, e).table, txn, result) && Apply(s, e).table.made == s.table.made
    ensures txn in Run(Init(hasConn), before).table.pending
    ensures var ch := Run(Init(hasConn), before).table.pending[txn].ch;
      var s := Run(Init(hasConn), before + [e] + after);
      && OnItsWay(s.table, ch, result)
      && var u := Apply(Apply(s, SendResponse(ch)), TakeResponse(ch)).table;
         ch in u.slots && u.slots[ch].sent == [result] && u.slots[ch].taken == [result]
  {
    var s := Run(Init(hasConn), before);
    var s1 := Apply(s, e);
    var ch := s.table.pending[txn].ch;
    Reached(hasConn, before);
    SettledGoes(s.table, s1.table, txn, result);
    ApplyKeeps(s, e);
    hide Inv, R.Inv, P.Inv, OnItsWay, Apply, Settled;
    ThenRun(Init(hasConn), before, e, after);
    Reached(hasConn, before + [e] + after);
    hide Run;
    RunGoes(s1, after, ch, result);
    var s2 := Run(s1, after);
    SentArrives(s2.table, ch, result);
    ByTable(s2, ch);
    TakenIsSent(R.SendOwed(s2.table, ch), ch, result);
  }

  lemma ByTable(s: State, ch: ChanId)
    ensures Apply(Apply(s, SendResponse(ch)), TakeResponse(ch)).table == R.TakeResult(R.SendOwed(s.table, ch), ch)
  {
    hide R.TakeResult, R.SendOwed;
  }

  lemma TakenIsSent(t: R.Table, ch: ChanId, result: R.Result)
    requires ch in t.slots && t.slots[ch].sent == [result]
    ensures ch in R.TakeResult(t, ch).slots && R.TakeResult(t, ch).slots[ch].sent == [result]
  {
  }
}
