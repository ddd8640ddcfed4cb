/** The shared client state as the methods of the dispatcher update it in place.
    Each method is one critical section and is proved to be one step of the machine
    in module Dispatcher. */
module Client {
  import opened Bytes
  import opened Channels
  import R = Responses
  import I = Indications
  import D = Dispatcher
  import P = IndicationProofs
  import K = DispatcherProofs

  /** Splits the waiters of one key into those that stay and those of the lease. */
  method SplitWaiters(set_: seq<I.Listener>, lease: LeaseId) returns (remaining: seq<I.Listener>, mine: set<ChanId>)
    ensures remaining == I.NotOwnedBy(set_, lease)
    ensures mine == set i | 0 <= i < |set_| && set_[i].owner == Some(lease) :: set_[i].ch
  {
    remaining, mine := [], {};
    for n := 0 to |set_|
      invariant remaining == I.NotOwnedBy(set_[..n], lease)
      invariant mine == set i | 0 <= i < n && set_[i].owner == Some(lease) :: set_[i].ch
    {
      NotOwnedSnoc(set_[..n], set_[n], lease);
      assert set_[..n + 1] == set_[..n] + [set_[n]];
      if set_[n].owner == Some(lease) {
        mine := mine + {set_[n].ch};
      } else {
        remaining := remaining + [set_[n]];
      }
    }
    assert set_[..|set_|] == set_;
  }

  lemma {:induction false} NotOwnedSnoc(s: seq<I.Listener>, w: I.Listener, lease: LeaseId)
    ensures I.NotOwnedBy(s + [w], lease) == I.NotOwnedBy(s, lease) + (if w.owner == Some(lease) then [] else [w])
  {
    if s == [] {
      assert s + [w] == [w] && [w][1..] == [];
    } else {
      assert (s + [w])[1..] == s[1..] + [w];
      NotOwnedSnoc(s[1..], w, lease);
    }
  }

  /** Takes the pending responses of a lease out of the table. */
  method TakeOwned(pending: map<R.Txn, R.Waiter>, lease: LeaseId) returns (left: map<R.Txn, R.Waiter>, out: set<R.Txn>)
    ensures out == R.Owned(pending, lease)
    ensures left == pending - out
  {
    left, out := pending, {};
    var rest := pending.Keys;
    while rest != {}
      invariant rest <= pending.Keys
      invariant forall txn :: txn in out <==> txn in pending && txn !in rest && pending[txn].owner == Some(lease)
      invariant left == pending - out
      decreases rest
    {
      var txn: R.Txn :| txn in rest;
      rest := rest - {txn};
      if pending[txn].owner == Some(lease) {
        out := out + {txn};
        left := left - {txn};
      }
    }
  }

  /** Looks for the waiter with the given channel and takes it out of the line. */
  method RemoveWaiter(waiters: seq<I.Listener>, ch: ChanId) returns (found: bool, left: seq<I.Listener>)
    ensures found <==> exists i :: 0 <= i < |waiters| && waiters[i].ch == ch
    ensures left == I.Without(waiters, ch)
  {
    for i := 0 to |waiters|
      invariant forall j :: 0 <= j < i ==> waiters[j].ch != ch
    {
      if waiters[i].ch == ch {
        WithoutAt(waiters, ch, i);
        return true, waiters[..i] + waiters[i + 1..];
      }
    }
    WithoutAt(waiters, ch, |waiters|);
    return false, waiters;
  }

  lemma {:induction false} WithoutAt(s: seq<I.Listener>, ch: ChanId, i: nat)
    requires i <= |s| && (forall j :: 0 <= j < i ==> s[j].ch != ch) && (i < |s| ==> s[i].ch == ch)
    ensures I.Without(s, ch) == if i < |s| then s[..i] + s[i + 1..] else s
  {
    if i == 0 {
      if s != [] {
        assert s[..0] + s[1..] == s[1..];
      }
    } else {
      WithoutAt(s[1..], ch, i - 1);
      if i < |s| {
        assert s[1..][..i - 1] == s[1..i] && s[1..][i..] == s[i + 1..];
        assert [s[0]] + (s[1..i] + s[i + 1..]) == s[..i] + s[i + 1..];
      }
    }
  }

  /** The three selects of deliverWatchResult; the consumer takes m.first values
      before the second and m.second before the third. */
  method DeliverWatchResult(c: Chan<I.WatchResult>, v: I.WatchResult, m: I.Meanwhile) returns (d: Chan<I.WatchResult>)
    ensures d == I.DeliverWatch(c, v, m)
  {
    if CanSend(c) {
      return Send(c, v);
    }
    d := Drop(TakeMany(c, m.first));
    d := TakeMany(d, m.second);
    if CanSend(d) {
      d := Send(d, v);
    }
  }

  /** Delivers an indication to every subscriber of its key. */
  method FanOut(streams: map<ChanId, I.Stream>, subs: set<ChanId>, ind: I.Indication, env: map<ChanId, I.Meanwhile>)
    returns (r: map<ChanId, I.Stream>)
    requires subs <= streams.Keys
    ensures r == I.FanOver(streams, subs, ind, env)
  {
    hide I.DeliverWatch;
    r := streams;
    var rest := subs;
    while rest != {}
      invariant rest <= subs && r.Keys == streams.Keys
      invariant forall c :: c in streams && c in subs && c !in rest ==>
                  r[c] == streams[c].(chan := I.DeliverWatch(streams[c].chan, I.Value(ind), I.Pace(env, c)))
      invariant forall c :: c in streams && (c !in subs || c in rest) ==> r[c] == streams[c]
      decreases rest
    {
      var c :| c in rest;
      rest := rest - {c};
      var d := DeliverWatchResult(r[c].chan, I.Value(ind), I.Pace(env, c));
      r := r[c := r[c].(chan := d)];
    }
  }

  /** Fills the channel of a new subscriber with the queue of its key. */
  method Preload(queued: seq<I.Indication>) returns (c: Chan<I.WatchResult>)
    requires |queued| <= I.MAX_QUEUED
    ensures c == Chan(I.MAX_QUEUED, I.Values(queued), false, I.Values(queued), [])
  {
    c := Make(I.MAX_QUEUED);
    for i := 0 to |queued|
      invariant c == Chan(I.MAX_QUEUED, I.Values(queued[..i]), false, I.Values(queued[..i]), [])
    {
      assert I.Values(queued[..i + 1]) == I.Values(queued[..i]) + [I.Value(queued[i])];
      c := Send(c, I.Value(queued[i]));
    }
    assert queued[..|queued|] == queued;
  }

  lemma StepsByName(s: D.State, owner: Owner, key: I.Key, error: Error, lease: LeaseId)
    ensures D.Apply(s, D.Next(owner, key)) == D.ApplyNext(s, owner, key)
    ensures D.Apply(s, D.Subscribe(owner, key)) == D.ApplySubscribe(s, owner, key)
    ensures D.Apply(s, D.StopReceiver(error)) == D.ApplyStop(s, error)
    ensures D.Apply(s, D.Sweep(lease)) == D.ApplySweep(s, lease)
  {
    hide D.ApplyNext, D.ApplySubscribe, D.ApplyStop, D.ApplySweep, D.ApplyRegister, D.ApplyHub, D.ApplyTable;
  }

  lemma PublishCases(h: I.Hub, ind: I.Indication, env: map<ChanId, I.Meanwhile>)
    ensures var line, subscribed := I.At(h.waiters, ind.key), (if ind.key in h.subs then h.subs[ind.key] else {});
      && (line == [] && subscribed == {} ==> I.Publish(h, ind, env) == I.Enqueue(h, ind))
      && (line == [] && subscribed != {} ==> I.Publish(h, ind, env) == I.Fan(h, ind, env))
      && I.At(I.Fan(h, ind, env).waiters, ind.key) == line
      && (line != [] ==> I.Publish(h, ind, env) == I.Hand(I.Fan(h, ind, env), ind))
  {
    FanKeepsLines(h, ind, env);
    hide I.Enqueue, I.Hand, I.Fan, I.At;
  }

  lemma FanKeepsLines(h: I.Hub, ind: I.Indication, env: map<ChanId, I.Meanwhile>)
    ensures I.Fan(h, ind, env).waiters == h.waiters
  {
    hide I.FanOver, I.At;
  }

  lemma PublishByName(s: D.State, ind: I.Indication, env: map<ChanId, I.Meanwhile>)
    ensures D.Apply(s, D.Publish(ind, env)) == s.(hub := I.Publish(s.hub, ind, env))
  {
  }

  /** Why a listener is refused, if it is: its lease and the client come first, and a
      receiver that cannot run matters only if there is nothing queued to give out. */
  ghost function ListenRefusal(f: D.Flags, owner: Owner, served: bool): Option<Error> {
    if owner.Some? && owner.value in f.leasesClosed then Some(LeaseClosed)
    else if f.closed || f.closing then Some(ClientClosed)
    else if served then None
    else if f.failure.Some? then f.failure
    else if f.started || f.hasConn then None else Some(ConnNil)
  }

  lemma RefusalIs(f: D.Flags, owner: Owner)
    ensures D.Refusal(f, owner, false) == ListenRefusal(f, owner, false)
  {
  }

  datatype Outcome<+T> = Granted(value: T) | Refused(error: Error)

  /** clientState, with the channels it hands out and what is still owed to them. */
  class ClientState {
    const hasConn: bool
    var closed: bool
    var closing: bool
    var receiverStarted: bool
    var receiverErr: Option<Error>
    var leasesClosed: set<LeaseId>

    var pending: map<R.Txn, R.Waiter>
    var responses: R.Table

    var subs: map<I.Key, set<ChanId>>
    var waiters: map<I.Key, seq<I.Listener>>
    var indications: map<I.Key, seq<I.Indication>>
    var channels: I.Hub

    var sweeping: set<LeaseId>
    var swept: set<LeaseId>

    ghost function View(): D.State
      reads this
    {
      D.State(
        D.Flags(hasConn, closed, closing, receiverStarted, receiverErr, leasesClosed),
        responses.(pending := pending),
        channels.(subs := subs, waiters := waiters, queue := indications),
        sweeping, swept)
    }

    /** The invariant of the machine, which every step keeps. */
    ghost predicate Valid()
      reads this
    {
      K.Inv(View())
    }

    constructor (hasConn: bool)
      ensures View() == D.Init(hasConn) && Valid()
    {
      this.hasConn := hasConn;
      closed, closing, receiverStarted, receiverErr, leasesClosed := false, false, false, None, {};
      pending, responses := map[], R.EMPTY;
      subs, waiters, indications, channels := map[], map[], map[], I.EMPTY;
      sweeping, swept := {}, {};
    }

    function LeaseIsClosed(owner: Owner): bool
      reads this
    {
      owner.Some? && owner.value in leasesClosed
    }

    method EnsureReceiver(owner: Owner, allowClosing: bool) returns (refusal: Option<Error>)
      modifies this`receiverStarted
      ensures refusal == D.Refusal(old(View()).flags, owner, allowClosing)
      ensures refusal == None ==> View() == old(View()).(flags := old(View()).flags.(started := true))
      ensures refusal.Some? ==> View() == old(View())
    {
      if LeaseIsClosed(owner) {
        return Some(LeaseClosed);
      }
      if closed || (closing && !allowClosing) {
        return Some(ClientClosed);
      }
      if receiverErr.Some? {
        return receiverErr;
      }
      if receiverStarted {
        return None;
      }
      if !hasConn {
        return Some(ConnNil);
      }
      receiverStarted := true;
      return None;
    }

    method RegisterResponse(owner: Owner, txn: R.Txn, requestType: int, serviceID: bytes, commandID: int,
                            expectCommand: bool, allowClosing: bool) returns (r: Outcome<ChanId>)
      requires Valid()
      modifies this`receiverStarted, this`pending, this`responses
      ensures Valid() && View() == D.Apply(old(View()), D.Register(owner, txn, requestType, serviceID, commandID, expectCommand, allowClosing))
      ensures r.Granted? <==> R.ResponseType(requestType).Some?
                              && D.Refusal(old(View()).flags, owner, allowClosing) == None && txn !in old(pending)
      ensures r.Granted? ==> r.value == old(responses.next) && txn in pending && pending[txn].ch == r.value
      ensures r.Refused? ==> r.error == if !(1 <= requestType <= 3) then UnsupportedRequest
                                        else if D.Refusal(old(View()).flags, owner, allowClosing).Some?
                                        then D.Refusal(old(View()).flags, owner, allowClosing).value else AlreadyPending
    {
      K.ApplyKeeps(View(), D.Register(owner, txn, requestType, serviceID, commandID, expectCommand, allowClosing));
      hide K.Inv, R.Register, D.Refusal;
      var kind := R.ResponseType(requestType);
      if kind == None {
        return Refused(UnsupportedRequest);
      }
      var refusal := EnsureReceiver(owner, allowClosing);
      if refusal.Some? {
        return Refused(refusal.value);
      }
      if txn in pending {
        return Refused(AlreadyPending);
      }
      var ch := AddPending(txn, kind.value, serviceID, commandID, expectCommand, owner);
      return Granted(ch);
    }

    method AddPending(txn: R.Txn, messageType: int, serviceID: bytes, commandID: int, expectCommand: bool, owner: Owner)
        returns (ch: ChanId)
      requires txn !in pending
      modifies this`pending, this`responses
      ensures View() == old(View()).(table := R.Register(old(View()).table, txn, messageType, serviceID, commandID, expectCommand, owner))
      ensures ch == old(responses.next) && txn in pending && pending[txn].ch == ch
    {
      ch := responses.next;
      var w := R.Waiter(messageType, serviceID, commandID, expectCommand, ch, owner);
      pending := pending[txn := w];
      responses := responses.(made := responses.made[ch := R.Registration(txn, w)],
                              slots := responses.slots[ch := Make(1)],
                              next := ch + 1);
    }

    method UnregisterResponse(txn: R.Txn, ch: ChanId)
      requires Valid()
      modifies this`pending, this`responses
      ensures Valid() && View() == D.Apply(old(View()), D.Unregister(txn, ch))
    {
      K.ApplyKeeps(View(), D.Unregister(txn, ch));
      hide K.Inv;
      if txn in pending && pending[txn].ch == ch {
        pending := pending - {txn};
        responses := responses.(withdrawn := responses.withdrawn + {ch});
      }
    }

    method FailResponse(txn: R.Txn, error: Error)
      requires Valid()
      modifies this`pending, this`responses
      ensures Valid() && View() == D.Apply(old(View()), D.Fail(txn, error))
    {
      K.ApplyKeeps(View(), D.Fail(txn, error));
      hide K.Inv;
      if txn in pending {
        TakeOut(txn, R.Failed(error));
      }
    }

    method DeliverResponse(messageType: int, data: bytes)
      requires |data| >= 12
      requires Valid()
      modifies this`pending, this`responses
      ensures Valid() && View() == D.Apply(old(View()), D.Deliver(messageType, data))
    {
      K.ApplyKeeps(View(), D.Deliver(messageType, data));
      DeliverByName(View(), messageType, data);
      hide K.Inv, Get32, R.Matches, D.Apply, R.Settle;
      var txn := Get32(data, 8);
      if txn !in pending || !R.Matches(pending[txn], messageType, data) {
        return;
      }
      TakeOut(txn, R.Data(messageType, data));
    }

    /** Takes the waiter of a transaction out of the table and owes it the result. */
    method TakeOut(txn: R.Txn, result: R.Result)
      requires txn in pending
      modifies this`pending, this`responses
      ensures View() == old(View()).(table := R.Settle(old(View()).table, txn, result))
    {
      responses := responses.(owed := responses.owed[pending[txn].ch := result]);
      pending := pending - {txn};
    }

    method EvictListeners(error: Error)
      modifies this`subs, this`waiters, this`channels
      ensures View() == old(View()).(hub := I.Stop(old(View()).hub, error))
    {
      hide Fill, I.AllCalls, I.AllStreams;
      channels := channels.(
        callDebts := channels.callDebts + Fill(I.AllCalls(waiters), I.CallDebt(error, true, false)),
        streamDebts := channels.streamDebts + Fill(I.AllStreams(subs), I.StreamDebt(I.Try, error, true)));
      subs, waiters := map[], map[];
    }

    method EvictPending(error: Error)
      modifies this`pending, this`responses
      ensures View() == old(View()).(table := R.Stop(old(View()).table, error))
    {
      hide R.OwedTo;
      responses := responses.(owed := responses.owed + R.OwedTo(pending, pending.Keys, error));
      NoneLeft(pending);
      pending := map[];
    }

    method MarkFailed(error: Error)
      modifies this`receiverErr, this`receiverStarted
      ensures View() == old(View()).(flags := D.Failed(old(View()).flags, error))
    {
      if receiverErr == None {
        receiverErr := Some(error);
      }
      receiverStarted := false;
    }

    method StopReceiver(error: Error)
      requires Valid()
      modifies this
      ensures Valid() && View() == D.Apply(old(View()), D.StopReceiver(error))
    {
      K.ApplyKeeps(View(), D.StopReceiver(error));
      hide K.Inv;
      StepsByName(View(), None, I.Key([], 0), error, 0);
      hide D.Apply, R.Stop, I.Stop, D.Failed;
      MarkFailed(error);
      EvictPending(error);
      EvictListeners(error);
    }

    method BeginClose() returns (first: bool)
      requires Valid()
      modifies this`closing
      ensures Valid() && View() == D.Apply(old(View()), D.BeginClose)
      ensures first <==> !old(closed) && !old(closing)
    {
      K.ApplyKeeps(View(), D.BeginClose);
      hide K.Inv;
      if closed || closing {
        return false;
      }
      closing := true;
      return true;
    }

    method FinishClose()
      requires Valid()
      modifies this`closed
      ensures Valid() && View() == D.Apply(old(View()), D.FinishClose)
    {
      K.ApplyKeeps(View(), D.FinishClose);
      hide K.Inv;
      closed := true;
    }

    /** The compare-and-swap of closeLease, outside the mutex. */
    method SetLeaseClosed(lease: LeaseId) returns (first: bool)
      requires Valid()
      modifies this`leasesClosed, this`sweeping
      ensures Valid() && View() == D.Apply(old(View()), D.CloseFlag(lease))
      ensures first <==> lease !in old(leasesClosed)
    {
      K.ApplyKeeps(View(), D.CloseFlag(lease));
      hide K.Inv;
      if lease in leasesClosed {
        return false;
      }
      leasesClosed, sweeping := leasesClosed + {lease}, sweeping + {lease};
      return true;
    }

    method EvictOwnedPending(lease: LeaseId)
      modifies this`pending, this`responses
      ensures View() == old(View()).(table := R.CloseLease(old(View()).table, lease))
    {
      hide R.OwedTo;
      var left, out := TakeOwned(pending, lease);
      responses := responses.(owed := responses.owed + R.OwedTo(pending, out, LeaseClosed));
      pending := left;
    }

    method EvictOwnedListeners(lease: LeaseId)
      modifies this`subs, this`waiters, this`channels
      ensures View() == old(View()).(hub := I.CloseLease(old(View()).hub, lease))
    {
      hide Fill, I.OwnedStreams, I.OwnedCalls, I.KeepWaiters, I.KeepSubscribers;
      var keptSubs := KeepOtherSubscribers(channels.streams, subs, lease);
      var keptWaiters, mine := KeepOtherWaiters(waiters, lease);
      channels := channels.(
        callDebts := channels.callDebts + Fill(mine, I.CallDebt(LeaseClosed, false, false)),
        streamDebts := channels.streamDebts
                       + Fill(I.OwnedStreams(channels.streams, subs, lease), I.StreamDebt(I.Try, LeaseClosed, false)));
      subs, waiters := keptSubs, keptWaiters;
    }

    /** The critical section of closeLease. */
    method CloseLease(lease: LeaseId)
      requires lease in sweeping
      requires Valid()
      modifies this
      ensures Valid() && View() == D.Apply(old(View()), D.Sweep(lease))
    {
      K.ApplyKeeps(View(), D.Sweep(lease));
      StepsByName(View(), None, I.Key([], 0), LeaseClosed, lease);
      hide K.Inv, D.Apply, R.CloseLease, I.CloseLease;
      SweepLease(lease);
    }

    method SweepLease(lease: LeaseId)
      requires lease in sweeping
      modifies this
      ensures View() == D.ApplySweep(old(View()), lease)
    {
      hide R.CloseLease, I.CloseLease;
      EvictOwnedPending(lease);
      EvictOwnedListeners(lease);
      sweeping, swept := sweeping - {lease}, swept + {lease};
    }

    /** The call is recorded as having returned the indication. */
    ghost predicate Returns(ch: ChanId, key: I.Key, ind: I.Indication)
      reads this
    {
      ch in channels.calls && channels.calls[ch].key == key && channels.calls[ch].phase == I.Returned(I.Value(ind))
    }

    /** Takes the oldest queued indication of a key. */
    method PopQueued(owner: Owner, key: I.Key) returns (ind: I.Indication)
      requires I.At(indications, key) != []
      modifies this`indications, this`channels
      ensures View() == old(View()).(hub := I.Pop(old(View()).hub, key, owner))
      ensures ind == old(indications)[key][0]
      ensures Returns(old(channels.nextCall), key, ind)
    {
      hide I.Max, I.Passed;
      var queue := indications[key];
      var ch, v := channels.nextCall, I.Value(queue[0]);
      channels := channels.(calls := channels.calls[ch := I.Call(key, owner, I.Passed(v), I.Returned(v))],
                            handed := channels.handed[key :=
                              I.At(channels.handed, key) + [I.Max(0, |I.At(channels.arrived, key)| - |queue|)]],
                            takers := channels.takers[key := I.At(channels.takers, key) + [ch]],
                            nextCall := ch + 1);
      indications := I.Store(indications, key, queue[1..]);
      return queue[0];
    }

    /** Puts a new caller at the end of the line of a key. */
    method AddWaiter(owner: Owner, key: I.Key) returns (ch: ChanId)
      modifies this`waiters, this`channels
      ensures View() == old(View()).(hub := I.Await(old(View()).hub, key, owner))
      ensures ch == old(channels.nextCall) && channels.calls == old(channels.calls)[ch := I.Call(key, owner, Make(1), I.Blocked)]
    {
      ch := channels.nextCall;
      waiters := waiters[key := I.At(waiters, key) + [I.Listener(ch, owner)]];
      channels := channels.(calls := channels.calls[ch := I.Call(key, owner, Make(1), I.Blocked)], nextCall := ch + 1);
    }

    /** The critical section of nextIndication: an indication, or a place in line. */
    method NextIndication(owner: Owner, key: I.Key) returns (r: Outcome<Option<I.Indication>>)
      requires Valid()
      modifies this
      ensures Valid() && View() == D.Apply(old(View()), D.Next(owner, key))
      ensures r.Granted? && r.value.Some? ==> I.At(old(indications), key) != [] && r.value.value == old(indications)[key][0]
      ensures r.Granted? && r.value.Some? ==> Returns(old(channels.nextCall), key, r.value.value)
      ensures r.Granted? <==> ListenRefusal(old(View()).flags, owner, I.At(old(indications), key) != []) == None
      ensures r.Refused? ==> ListenRefusal(old(View()).flags, owner, I.At(old(indications), key) != []) == Some(r.error)
      ensures r.Granted? ==> (r.value.Some? <==> I.At(old(indications), key) != [])
      ensures r.Granted? && r.value == None ==> channels.calls == old(channels.calls)[old(channels.nextCall) := I.Call(key, owner, Make(1), I.Blocked)]
    {
      K.ApplyKeeps(View(), D.Next(owner, key));
      hide K.Inv;
      StepsByName(View(), owner, key, LeaseClosed, 0);
      RefusalIs(View().flags, owner);
      hide D.Apply, D.Refusal, I.Pop, I.Await;
      if LeaseIsClosed(owner) {
        return Refused(LeaseClosed);
      }
      if closed || closing {
        return Refused(ClientClosed);
      }
      if I.At(indications, key) != [] {
        var ind := PopQueued(owner, key);
        return Granted(Some(ind));
      }
      var refusal := EnsureReceiver(owner, false);
      if refusal.Some? {
        return Refused(refusal.value);
      }
      var _ := AddWaiter(owner, key);
      return Granted(None);
    }

    method LeaveLine(ch: ChanId, call: I.Call, left: seq<I.Listener>)
      modifies this`waiters, this`channels
      ensures View() == old(View()).(hub := I.LeaveLine(old(View()).hub, ch, call, left))
      ensures ch in channels.calls && channels.calls[ch].phase == I.Returned(I.Err(Cancelled))
    {
      hide I.Store;
      waiters := I.Store(waiters, call.key, left);
      channels := channels.(calls := channels.calls[ch := call.(phase := I.Returned(I.Err(Cancelled)))]);
    }

    /** The critical section of cancelIndicationWaiter. */
    method CancelIndicationWaiter(ch: ChanId) returns (found: bool)
      requires ch in channels.calls && channels.calls[ch].phase == I.Blocked
      requires Valid()
      modifies this`waiters, this`channels
      ensures Valid() && View() == D.Apply(old(View()), D.Cancel(ch))
      ensures found <==> I.Listener(ch, old(channels.calls[ch].owner)) in I.At(old(waiters), old(channels.calls[ch].key))
      ensures ch in channels.calls && channels.calls[ch].phase == if found then I.Returned(I.Err(Cancelled)) else I.Polling
    {
      P.KnownListeners(View().hub, channels.calls[ch].key);
      K.ApplyKeeps(View(), D.Cancel(ch));
      CancelByName(View(), ch);
      hide I.Without, I.LeaveLine, P.Inv, K.Inv, D.Apply, I.CancelCall, I.GoPolling, I.At, D.InPhase;
      var call := channels.calls[ch];
      var left;
      found, left := RemoveWaiter(I.At(waiters, call.key), ch);
      InLine(I.At(waiters, call.key), ch, call.owner);
      if found {
        LeaveLine(ch, call, left);
      } else {
        StartPolling(ch, call);
      }
    }

    method StartPolling(ch: ChanId, call: I.Call)
      modifies this`channels
      ensures View() == old(View()).(hub := I.GoPolling(old(View()).hub, ch, call))
      ensures ch in channels.calls && channels.calls[ch].phase == I.Polling
    {
      channels := channels.(calls := channels.calls[ch := call.(phase := I.Polling)]);
    }

    /** A stream that is already over: the queue, the error, the close. */
    method AddFailedStream(owner: Owner, key: I.Key, error: Error) returns (ch: ChanId)
      modifies this`indications, this`channels
      ensures View() == old(View()).(hub := I.Drain(old(View()).hub, key, owner, error))
      ensures ch == old(channels.nextStream)
    {
      hide I.Values, I.Max;
      ch := channels.nextStream;
      var queued := I.At(indications, key);
      var all := I.Values(queued) + [I.Err(error)];
      var start := I.Max(0, |I.At(channels.arrived, key)| - |I.Values(queued)|);
      channels := channels.(streams := channels.streams[ch := I.Stream(key, owner, start, Chan(|all|, all, true, all, []))],
                            nextStream := ch + 1);
      indications := indications - {key};
    }

    method AddStream(owner: Owner, key: I.Key) returns (ch: ChanId)
      requires |I.At(indications, key)| <= I.MAX_QUEUED
      modifies this`subs, this`indications, this`channels
      ensures View() == old(View()).(hub := I.Subscribe(old(View()).hub, key, owner))
      ensures ch == old(channels.nextStream)
    {
      hide I.Values, I.Max, I.AddSubscriber;
      ch := channels.nextStream;
      var queued := I.At(indications, key);
      var start := I.Max(0, |I.At(channels.arrived, key)| - |I.Values(queued)|);
      var chan := Preload(queued);
      subs := I.AddSubscriber(subs, key, ch);
      channels := channels.(streams := channels.streams[ch := I.Stream(key, owner, start, chan)], nextStream := ch + 1);
      indications := indications - {key};
    }

    method SubscribeIndication(owner: Owner, key: I.Key) returns (r: Outcome<ChanId>)
      requires Valid()
      modifies this
      ensures Valid() && View() == D.Apply(old(View()), D.Subscribe(owner, key))
      ensures var served := I.At(old(indications), key) != [] && old(receiverErr).Some?;
        var refusal := ListenRefusal(old(View()).flags, owner, served);
        if refusal == None then r == Granted(old(channels.nextStream)) else r == Refused(refusal.value)
    {
      StepsByName(View(), owner, key, LeaseClosed, 0);
      P.KnownListeners(View().hub, key);
      K.ApplyKeeps(View(), D.Subscribe(owner, key));
      RefusalIs(View().flags, owner);
      hide D.Apply, D.Refusal, I.Drain, I.Subscribe, K.Inv;
      if LeaseIsClosed(owner) {
        return Refused(LeaseClosed);
      }
      if closed || closing {
        return Refused(ClientClosed);
      }
      if receiverErr.Some? {
        if I.At(indications, key) == [] {
          return Refused(receiverErr.value);
        }
        var over := AddFailedStream(owner, key, receiverErr.value);
        return Granted(over);
      }
      var refusal := EnsureReceiver(owner, false);
      if refusal.Some? {
        return Refused(refusal.value);
      }
      var ch := AddStream(owner, key);
      return Granted(ch);
    }

    method UnsubscribeIndication(key: I.Key, ch: ChanId)
      requires Valid()
      modifies this`subs
      ensures Valid() && View() == D.Apply(old(View()), D.Unsubscribe(key, ch))
    {
      K.ApplyKeeps(View(), D.Unsubscribe(key, ch));
      hide K.Inv;
      if key !in subs {
        return;
      }
      var left := subs[key] - {ch};
      if left == {} {
        subs := subs - {key};
      } else {
        subs := subs[key := left];
      }
    }

    /** queueIndicationLocked. */
    method Enqueue(ind: I.Indication)
      modifies this`indications, this`channels
      ensures View() == old(View()).(hub := I.Enqueue(old(View()).hub, ind))
    {
      hide I.LastQueued;
      indications := indications[ind.key := I.LastQueued(I.At(indications, ind.key) + [ind])];
      channels := channels.(arrived := channels.arrived[ind.key := I.At(channels.arrived, ind.key) + [ind]]);
    }

    /** Sends the indication to every subscriber of its key. */
    method SendToAll(ind: I.Indication, env: map<ChanId, I.Meanwhile>)
      requires (if ind.key in subs then subs[ind.key] else {}) <= channels.streams.Keys
      modifies this`channels
      ensures View() == old(View()).(hub := I.Fan(old(View()).hub, ind, env))
      ensures channels.calls == old(channels.calls)
    {
      hide I.DeliverWatch, I.Pace;
      var subscribed := if ind.key in subs then subs[ind.key] else {};
      var arrived := channels.arrived[ind.key := I.At(channels.arrived, ind.key) + [ind]];
      var streams := FanOut(channels.streams, subscribed, ind, env);
      channels := channels.(streams := streams, arrived := arrived);
    }

    /** The branches of publishIndication. */
    method Distribute(ind: I.Indication, env: map<ChanId, I.Meanwhile>)
      requires (if ind.key in subs then subs[ind.key] else {}) <= channels.streams.Keys
      requires forall w :: w in I.At(waiters, ind.key) ==> w.ch in channels.calls
      modifies this`indications, this`waiters, this`channels
      ensures View() == old(View()).(hub := I.Publish(old(View()).hub, ind, env))
    {
      PublishCases(View().hub, ind, env);
      assert I.At(waiters, ind.key) != [] ==> ind.key in waiters && I.At(waiters, ind.key) == waiters[ind.key];
      hide I.Fan, I.Enqueue, I.Hand, I.Publish, I.Subscribers, I.At;
      var subscribed := if ind.key in subs then subs[ind.key] else {};
      var line := I.At(waiters, ind.key);
      if |line| == 0 && subscribed == {} {
        Enqueue(ind);
        return;
      }
      SendToAll(ind, env);
      if |line| > 0 {
        assert line[0] in line;
        HandToFirst(ind);
      }
    }

    method PublishIndication(ind: I.Indication, env: map<ChanId, I.Meanwhile>)
      requires Valid()
      modifies this
      ensures Valid() && View() == D.Apply(old(View()), D.Publish(ind, env))
    {
      PublishByName(View(), ind, env);
      P.KnownListeners(View().hub, ind.key);
      K.ApplyKeeps(View(), D.Publish(ind, env));
      hide D.Apply, K.Inv, I.Publish, I.At;
      Distribute(ind, env);
    }

    /** Gives the indication just published to the first waiter in line. */
    method HandToFirst(ind: I.Indication)
      requires I.At(waiters, ind.key) != [] && waiters[ind.key][0].ch in channels.calls
      modifies this`waiters, this`channels
      ensures View() == old(View()).(hub := I.Hand(old(View()).hub, ind))
    {
      hide I.SendIfRoom, I.Max;
      var line := waiters[ind.key];
      var ch := line[0].ch;
      waiters := I.Store(waiters, ind.key, line[1..]);
      channels := channels.(
        calls := channels.calls[ch := channels.calls[ch].(slot := I.SendIfRoom(channels.calls[ch].slot, I.Value(ind)))],
        handed := channels.handed[ind.key :=
                    I.At(channels.handed, ind.key) + [I.Max(0, |I.At(channels.arrived, ind.key)| - 1)]],
        takers := channels.takers[ind.key := I.At(channels.takers, ind.key) + [ch]]);
    }
  }

  lemma InLine(s: seq<I.Listener>, ch: ChanId, owner: Owner)
    requires forall w :: w in s && w.ch == ch ==> w.owner == owner
    ensures (exists i :: 0 <= i < |s| && s[i].ch == ch) <==> I.Listener(ch, owner) in s
  {
    if i :| 0 <= i < |s| && s[i].ch == ch {
      assert s[i] in s;
    }
  }

  lemma DeliverByName(s: D.State, messageType: int, data: bytes)
    requires |data| >= 12
    ensures D.Apply(s, D.Deliver(messageType, data)) == s.(table := R.Deliver(s.table, messageType, data))
  {
    hide R.Deliver;
  }

  lemma CancelByName(s: D.State, ch: ChanId)
    requires D.InPhase(s.hub, ch, I.Blocked)
    ensures var c := s.hub.calls[ch];
      D.Apply(s, D.Cancel(ch)) == s.(hub :=
        if I.Listener(ch, c.owner) in I.At(s.hub.waiters, c.key)
        then I.LeaveLine(s.hub, ch, c, I.Without(I.At(s.hub.waiters, c.key), ch)) else I.GoPolling(s.hub, ch, c))
  {
    hide I.LeaveLine, I.GoPolling, I.Without, I.At;
  }

  lemma NoneLeft(pending: map<R.Txn, R.Waiter>)
    ensures pending - pending.Keys == map[]
  {
  }

  /** Filters the line of every key, dropping the keys left without waiters. */
  method KeepOtherWaiters(waiters: map<I.Key, seq<I.Listener>>, lease: LeaseId)
    returns (kept: map<I.Key, seq<I.Listener>>, mine: set<ChanId>)
    ensures kept == I.KeepWaiters(waiters, lease)
    ensures mine == I.OwnedCalls(waiters, lease)
  {
    hide I.NotOwnedBy;
    kept, mine := map[], {};
    var rest := waiters.Keys;
    while rest != {}
      invariant rest <= waiters.Keys
      invariant forall k :: k in kept <==> k in waiters && k !in rest && I.NotOwnedBy(waiters[k], lease) != []
      invariant forall k :: k in kept ==> kept[k] == I.NotOwnedBy(waiters[k], lease)
      invariant mine == set k, i | k in waiters && k !in rest && 0 <= i < |waiters[k]| && waiters[k][i].owner == Some(lease)
                          :: waiters[k][i].ch
      decreases rest
    {
      var key: I.Key :| key in rest;
      rest := rest - {key};
      var remaining, owned := SplitWaiters(waiters[key], lease);
      mine := mine + owned;
      if |remaining| > 0 {
        kept := kept[key := remaining];
      }
    }
  }

  /** Filters the subscribers of every key, dropping the keys left without any. */
  method KeepOtherSubscribers(streams: map<ChanId, I.Stream>, subs: map<I.Key, set<ChanId>>, lease: LeaseId)
    returns (kept: map<I.Key, set<ChanId>>)
    ensures kept == I.KeepSubscribers(streams, subs, lease)
  {
    hide I.OwnedBy;
    kept := map[];
    var rest := subs.Keys;
    while rest != {}
      invariant rest <= subs.Keys
      invariant forall k :: k in kept <==> k in subs && k !in rest && I.KeepSubs(streams, subs[k], lease) != {}
      invariant forall k :: k in kept ==> kept[k] == I.KeepSubs(streams, subs[k], lease)
      decreases rest
    {
      var key: I.Key :| key in rest;
      rest := rest - {key};
      var remaining := subs[key];
      var todo := subs[key];
      while todo != {}
        invariant todo <= subs[key]
        invariant forall c :: c in remaining <==> c in subs[key] && (c in todo || !I.OwnedBy(streams, c, lease))
        decreases todo
      {
        var c: ChanId :| c in todo;
        todo := todo - {c};
        if I.OwnedBy(streams, c, lease) {
          remaining := remaining - {c};
        }
      }
      assert remaining == I.KeepSubs(streams, subs[key], lease);
      if remaining != {} {
        kept := kept[key := remaining];
      }
    }
  }
}
