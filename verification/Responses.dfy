/** Pending command responses of one MBIM connection: who waits for which
    transaction, which results are still owed to a channel after the mutex was
    released, and what every response channel has been given. */
module Responses {
  import opened Bytes
  import opened Channels

  type Txn = nat

  const OPEN: int := 0x0000_0001
  const CLOSE: int := 0x0000_0002
  const COMMAND: int := 0x0000_0003
  const HOST_ERROR: int := 0x0000_0004
  const OPEN_DONE: int := 0x8000_0001
  const CLOSE_DONE: int := 0x8000_0002
  const COMMAND_DONE: int := 0x8000_0003
  const FUNCTION_ERROR: int := 0x8000_0004
  const INDICATE_STATUS: int := 0x8000_0007

  datatype Waiter = Waiter(
    messageType: int, serviceID: bytes, commandID: int, expectCommand: bool, ch: ChanId, owner: Owner)

  datatype Result = Data(messageType: int, data: bytes) | Failed(error: Error)

  datatype Registration = Registration(txn: Txn, waiter: Waiter)

  /** made and slots remember every waiter and its one-slot channel; owed holds
      the sends that some goroutine has still to do outside the mutex; withdrawn
      holds the channels whose caller unregistered them. */
  datatype Table = Table(
    pending: map<Txn, Waiter>,
    owed: map<ChanId, Result>,
    withdrawn: set<ChanId>,
    made: map<ChanId, Registration>,
    slots: map<ChanId, Chan<Result>>,
    next: ChanId)

  const EMPTY: Table := Table(map[], map[], {}, map[], map[], 0)

  function ResponseType(requestType: int): Option<int> {
    if requestType == OPEN then Some(OPEN_DONE)
    else if requestType == CLOSE then Some(CLOSE_DONE)
    else if requestType == COMMAND then Some(COMMAND_DONE)
    else None
  }

  /** The service and command of a command-done message, when its header parses. */
  function CommandDoneHeader(data: bytes): Option<(bytes, int)> {
    if |data| < 48 || Get32(data, 0) != COMMAND_DONE || Get32(data, 4) != |data| % TWO_32 then None
    else Some((data[20..36], Get32(data, 36)))
  }

  predicate Matches(w: Waiter, messageType: int, data: bytes) {
    if messageType != w.messageType && messageType != FUNCTION_ERROR then false
    else if messageType != COMMAND_DONE || !w.expectCommand then true
    else match CommandDoneHeader(data)
      case None => true
      case Some((service, command)) => service == w.serviceID && command == w.commandID
  }

  function Register(t: Table, txn: Txn, messageType: int, serviceID: bytes, commandID: int,
                    expectCommand: bool, owner: Owner): Table
    requires txn !in t.pending
  {
    var w := Waiter(messageType, serviceID, commandID, expectCommand, t.next, owner);
    t.(pending := t.pending[txn := w],
       made := t.made[t.next := Registration(txn, w)],
       slots := t.slots[t.next := Make(1)],
       next := t.next + 1)
  }

  function Unregister(t: Table, txn: Txn, ch: ChanId): Table {
    if txn in t.pending && t.pending[txn].ch == ch
    then t.(pending := t.pending - {txn}, withdrawn := t.withdrawn + {ch})
    else t
  }

  /** The critical sections of failResponse and deliverResponse. */
  function Settle(t: Table, txn: Txn, result: Result): Table
    requires txn in t.pending
  {
    t.(pending := t.pending - {txn}, owed := t.owed[t.pending[txn].ch := result])
  }

  function Fail(t: Table, txn: Txn, error: Error): Table {
    if txn in t.pending then Settle(t, txn, Failed(error)) else t
  }

  function Deliver(t: Table, messageType: int, data: bytes): Table
    requires |data| >= 12
  {
    var txn := Get32(data, 8);
    if txn in t.pending && Matches(t.pending[txn], messageType, data)
    then Settle(t, txn, Data(messageType, data))
    else t
  }

  /** Takes out the waiters of the given transactions and owes each the error. */
  function Evict(t: Table, txns: set<Txn>, error: Error): Table
    requires txns <= t.pending.Keys
  {
    t.(pending := t.pending - txns, owed := t.owed + OwedTo(t.pending, txns, error))
  }

  function OwedTo(pending: map<Txn, Waiter>, txns: set<Txn>, error: Error): map<ChanId, Result>
    requires txns <= pending.Keys
  {
    Fill(ChannelsOf(pending, txns), Failed(error))
  }

  function ChannelsOf(pending: map<Txn, Waiter>, txns: set<Txn>): set<ChanId>
    requires txns <= pending.Keys
  {
    set txn | txn in txns :: pending[txn].ch
  }

  function CloseLease(t: Table, lease: LeaseId): Table {
    Evict(t, Owned(t.pending, lease), LeaseClosed)
  }

  function Owned(pending: map<Txn, Waiter>, lease: LeaseId): set<Txn> {
    set txn | txn in pending && pending[txn].owner == Some(lease)
  }

  function Stop(t: Table, error: Error): Table {
    Evict(t, t.pending.Keys, error)
  }

  /** One of the sends outside the mutex; a blocking send leaves the table as it is. */
  function SendOwed(t: Table, ch: ChanId): Table {
    if ch in t.owed && ch in t.slots && CanSend(t.slots[ch])
    then t.(owed := t.owed - {ch}, slots := t.slots[ch := Send(t.slots[ch], t.owed[ch])])
    else t
  }

  function TakeResult(t: Table, ch: ChanId): Table {
    if ch in t.slots && t.slots[ch].buf != [] then t.(slots := t.slots[ch := Take(t.slots[ch])]) else t
  }

  function Owed(t: Table, ch: ChanId): Option<Result> {
    if ch in t.owed then Some(t.owed[ch]) else None
  }

  ghost predicate Waiting(pending: map<Txn, Waiter>, r: Registration) {
    r.txn in pending && pending[r.txn] == r.waiter
  }

  ghost predicate Fits(w: Waiter, r: Result) {
    r.Data? ==> Matches(w, r.messageType, r.data)
  }

  /** Exactly one party accounts for a response channel: the pending table, a
      goroutine that owes it a result, the caller that withdrew, or the one result
      it was sent. The channel is never closed and never discards. */
  ghost predicate SlotOk(w: Waiter, c: Chan<Result>, waiting: bool, owed: Option<Result>, withdrawn: bool) {
    && c.capacity == 1 && !c.closed && |c.sent| <= 1 && c.sent == c.taken + c.buf
    && (forall r :: r in c.sent ==> Fits(w, r))
    && (owed.Some? ==> Fits(w, owed.value))
    && (waiting || owed.Some? || withdrawn || c.sent != [])
    && (waiting ==> owed == None && !withdrawn && c.sent == [])
    && (owed.Some? ==> !withdrawn && c.sent == [])
    && (withdrawn ==> c.sent == [])
  }

  ghost predicate SlotAt(t: Table, ch: ChanId)
    requires ch in t.made && ch in t.slots
  {
    SlotOk(t.made[ch].waiter, t.slots[ch], Waiting(t.pending, t.made[ch]), Owed(t, ch), ch in t.withdrawn)
  }

  ghost predicate Inv(t: Table) {
    && t.made.Keys == t.slots.Keys
    && t.owed.Keys <= t.made.Keys && t.withdrawn <= t.made.Keys
    && (forall ch :: ch in t.made ==> ch < t.next && t.made[ch].waiter.ch == ch)
    && (forall txn :: txn in t.pending ==>
          t.pending[txn].ch in t.made && t.made[t.pending[txn].ch] == Registration(txn, t.pending[txn]))
    && (forall ch :: ch in t.made ==> SlotAt(t, ch))
  }

  lemma Fresh(w: Waiter)
    ensures SlotOk(w, Make(1), true, None, false)
  {
  }

  lemma RegisterKeeps(t: Table, txn: Txn, messageType: int, serviceID: bytes, commandID: int,
                      expectCommand: bool, owner: Owner)
    requires Inv(t) && txn !in t.pending
    ensures Inv(Register(t, txn, messageType, serviceID, commandID, expectCommand, owner))
  {
    hide SlotOk;
    var u := Register(t, txn, messageType, serviceID, commandID, expectCommand, owner);
    Fresh(u.pending[txn]);
    forall ch | ch in u.made ensures SlotAt(u, ch) {
      if ch != t.next {
        assert SlotAt(t, ch);
      }
    }
  }

  /** A waiter leaves the table by withdrawing or by being owed a fitting result. */
  lemma Leaves(w: Waiter, c: Chan<Result>, r: Result)
    requires SlotOk(w, c, true, None, false)
    ensures SlotOk(w, c, false, None, true)
    ensures Fits(w, r) ==> SlotOk(w, c, false, Some(r), false)
  {
  }

  lemma WaitsAlone(w: Waiter, c: Chan<Result>, owed: Option<Result>, withdrawn: bool)
    requires SlotOk(w, c, true, owed, withdrawn)
    ensures owed == None && !withdrawn
  {
  }

  lemma UnregisterKeeps(t: Table, txn: Txn, ch: ChanId)
    requires Inv(t)
    ensures Inv(Unregister(t, txn, ch))
  {
    hide SlotOk;
    var u := Unregister(t, txn, ch);
    forall c | c in u.made ensures SlotAt(u, c) {
      assert SlotAt(t, c);
      if u != t && c == ch {
        WaitsAlone(t.made[c].waiter, t.slots[c], Owed(t, c), c in t.withdrawn);
        Leaves(t.made[c].waiter, t.slots[c], Failed(LeaseClosed));
      }
    }
  }

  lemma EvictAt(t: Table, txns: set<Txn>, error: Error, c: ChanId)
    requires Inv(t) && txns <= t.pending.Keys && c in t.made
    ensures SlotAt(Evict(t, txns, error), c)
  {
    hide SlotOk;
    var u := Evict(t, txns, error);
    assert SlotAt(t, c);
    if Waiting(t.pending, t.made[c]) && t.made[c].txn in txns {
      assert t.pending[t.made[c].txn].ch == c;
      WaitsAlone(t.made[c].waiter, t.slots[c], Owed(t, c), c in t.withdrawn);
      Leaves(t.made[c].waiter, t.slots[c], Failed(error));
      assert Owed(u, c) == Some(Failed(error));
    } else {
      assert forall txn :: txn in txns ==> t.pending[txn].ch != c;
      assert Owed(u, c) == Owed(t, c);
    }
  }

  lemma EvictKeeps(t: Table, txns: set<Txn>, error: Error)
    requires Inv(t) && txns <= t.pending.Keys
    ensures Inv(Evict(t, txns, error))
  {
    hide SlotAt;
    var u := Evict(t, txns, error);
    forall c | c in u.made ensures SlotAt(u, c) {
      EvictAt(t, txns, error, c);
    }
  }

  lemma SettleKeeps(t: Table, txn: Txn, result: Result)
    requires Inv(t) && txn in t.pending && Fits(t.pending[txn], result)
    ensures Inv(Settle(t, txn, result))
  {
    hide SlotOk, Fits;
    var u := Settle(t, txn, result);
    forall c | c in u.made ensures SlotAt(u, c) {
      assert SlotAt(t, c);
      if c == t.pending[txn].ch {
        WaitsAlone(t.made[c].waiter, t.slots[c], Owed(t, c), c in t.withdrawn);
        Leaves(t.made[c].waiter, t.slots[c], result);
      }
    }
  }

  /** The send of an owed result finds an open channel with an empty buffer. */
  lemma Pays(w: Waiter, c: Chan<Result>, waiting: bool, r: Result, withdrawn: bool)
    requires SlotOk(w, c, waiting, Some(r), withdrawn)
    ensures CanSend(c) && SlotOk(w, Send(c, r), waiting, None, withdrawn) && Send(c, r).sent == [r]
  {
  }

  lemma SendOwedKeeps(t: Table, ch: ChanId)
    requires Inv(t)
    ensures Inv(SendOwed(t, ch))
    ensures ch in t.owed ==> ch in t.slots && CanSend(t.slots[ch]) && SendOwed(t, ch).slots[ch].sent == [t.owed[ch]]
  {
    hide SlotOk, Fits;
    var u := SendOwed(t, ch);
    if ch in t.owed {
      assert SlotAt(t, ch);
      Pays(t.made[ch].waiter, t.slots[ch], Waiting(t.pending, t.made[ch]), t.owed[ch], ch in t.withdrawn);
    }
    forall c | c in u.made ensures SlotAt(u, c) {
      assert SlotAt(t, c);
    }
  }

  lemma Takes(w: Waiter, c: Chan<Result>, waiting: bool, owed: Option<Result>, withdrawn: bool)
    requires SlotOk(w, c, waiting, owed, withdrawn) && c.buf != []
    ensures SlotOk(w, Take(c), waiting, owed, withdrawn)
  {
    assert c.taken + [c.buf[0]] + c.buf[1..] == c.taken + c.buf;
  }

  lemma TakeResultKeeps(t: Table, ch: ChanId)
    requires Inv(t)
    ensures Inv(TakeResult(t, ch))
  {
    hide SlotOk;
    var u := TakeResult(t, ch);
    forall c | c in u.made ensures SlotAt(u, c) {
      assert SlotAt(t, c);
      if c == ch && t.slots[c].buf != [] {
        Takes(t.made[c].waiter, t.slots[c], Waiting(t.pending, t.made[c]), Owed(t, c), c in t.withdrawn);
      }
    }
  }
}
