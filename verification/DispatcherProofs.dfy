/** Safety of the dispatcher over every run. */
module DispatcherProofs {
  import opened Bytes
  import opened Channels
  import opened Dispatcher
  import R = Responses
  import I = Indications
  import P = IndicationProofs

  /** Nothing registered in the shared state belongs to the lease. */
  ghost predicate Gone(s: State, lease: LeaseId) {
    && (forall txn :: txn in s.table.pending ==> s.table.pending[txn].owner != Some(lease))
    && (forall k, w :: w in I.At(s.hub.waiters, k) ==> w.owner != Some(lease))
    && (forall k, c :: P.Has(s.hub.subs, k, c) ==> !I.OwnedBy(s.hub.streams, c, lease))
  }

  ghost predicate Quiet(s: State) {
    s.table.pending == map[] && s.hub.waiters == map[] && s.hub.subs == map[]
  }

  ghost predicate Inv(s: State) {
    && R.Inv(s.table)
    && P.Inv(s.hub)
    && (s.flags.failure.Some? ==> Quiet(s))
    && s.sweeping <= s.flags.leasesClosed && s.swept <= s.flags.leasesClosed
    && (forall lease :: lease in s.swept ==> Gone(s, lease))
  }

  lemma TableKeeps(t: R.Table, e: Event)
    requires R.Inv(t)
    ensures R.Inv(ApplyTable(t, e))
    ensures forall txn :: txn in ApplyTable(t, e).pending ==> txn in t.pending && ApplyTable(t, e).pending[txn] == t.pending[txn]
  {
    hide R.Inv;
    match e
    case Unregister(txn, ch) => R.UnregisterKeeps(t, txn, ch);
    case Fail(txn, error) => if txn in t.pending { R.SettleKeeps(t, txn, R.Failed(error)); }
    case Deliver(messageType, data) =>
      if |data| >= 12 {
        var txn := Get32(data, 8);
        if txn in t.pending && R.Matches(t.pending[txn], messageType, data) {
          R.SettleKeeps(t, txn, R.Data(messageType, data));
        }
      }
    case SendResponse(ch) => R.SendOwedKeeps(t, ch);
    case TakeResponse(ch) => R.TakeResultKeeps(t, ch);
    case _ =>
  }

  lemma HubKeeps(h: I.Hub, e: Event)
    requires P.Inv(h)
    ensures P.Inv(ApplyHub(h, e))
  {
    hide P.Inv;
    match e
    case Wake(ch) => if InPhase(h, ch, I.Blocked) { P.WakeKeeps(h, ch); }
    case Cancel(ch) => if InPhase(h, ch, I.Blocked) { P.CancelKeeps(h, ch); }
    case Poll(ch) => if InPhase(h, ch, I.Polling) { P.PollKeeps(h, ch); }
    case Unsubscribe(k, ch) => P.UnsubscribeKeeps(h, k, ch);
    case TakeStream(ch) => if ch in h.streams { P.TakeStreamKeeps(h, ch); }
    case Publish(ind, env) => P.PublishKeeps(h, ind, env);
    case PayCall(ch) => if ch in h.callDebts && ch in h.calls { P.StepCallDebtKeeps(h, ch); }
    case PayStream(ch) => if ch in h.streamDebts && ch in h.streams { P.StepStreamDebtKeeps(h, ch); }
    case ClearQueues => P.ClearKeeps(h);
    case _ =>
  }

  /** Listeners that are in u are in h, with the same owners. */
  ghost predicate NoNewListeners(h: I.Hub, u: I.Hub) {
    && (forall k, w :: w in I.At(u.waiters, k) ==> w in I.At(h.waiters, k))
    && (forall k, c :: P.Has(u.subs, k, c) ==> P.Has(h.subs, k, c))
    && (forall c :: c in h.streams ==> c in u.streams && u.streams[c].owner == h.streams[c].owner)
  }

  lemma {:induction false} WithoutSubset(s: seq<I.Listener>, ch: ChanId)
    ensures forall w :: w in I.Without(s, ch) ==> w in s
  {
    if s != [] {
      WithoutSubset(s[1..], ch);
      assert forall w :: w in s <==> w == s[0] || w in s[1..];
    }
  }

  lemma LeaveShrinks(h: I.Hub, ch: ChanId, c: I.Call, left: seq<I.Listener>)
    requires forall w :: w in left ==> w in I.At(h.waiters, c.key)
    ensures NoNewListeners(h, I.LeaveLine(h, ch, c, left)) && NoNewListeners(h, I.GoPolling(h, ch, c))
  {
  }

  lemma CancelShrinks(h: I.Hub, ch: ChanId)
    requires InPhase(h, ch, I.Blocked)
    ensures NoNewListeners(h, I.CancelCall(h, ch))
  {
    hide I.Without, I.LeaveLine, I.GoPolling, I.Listed, NoNewListeners;
    var c := h.calls[ch];
    WithoutSubset(I.At(h.waiters, c.key), ch);
    LeaveShrinks(h, ch, c, I.Without(I.At(h.waiters, c.key), ch));
  }

  lemma UnsubscribeShrinks(h: I.Hub, k: I.Key, ch: ChanId)
    ensures NoNewListeners(h, I.Unsubscribe(h, k, ch))
  {
  }

  lemma PublishShrinks(h: I.Hub, ind: I.Indication, env: map<ChanId, I.Meanwhile>)
    ensures NoNewListeners(h, I.Publish(h, ind, env))
  {
    hide I.Fan, I.Hand, I.Enqueue, I.Subscribers, NoNewListeners;
    FanShrinks(h, ind, env);
    if I.At(h.waiters, ind.key) != [] {
      var f := I.Fan(h, ind, env);
      HandShrinks(f, ind);
      ShrinksTwice(h, f, I.Hand(f, ind));
    }
  }

  lemma FanShrinks(h: I.Hub, ind: I.Indication, env: map<ChanId, I.Meanwhile>)
    ensures NoNewListeners(h, I.Fan(h, ind, env)) && NoNewListeners(h, I.Enqueue(h, ind))
    ensures I.Fan(h, ind, env).waiters == h.waiters
  {
    hide I.DeliverWatch, I.LastQueued;
  }

  lemma HandShrinks(h: I.Hub, ind: I.Indication)
    requires I.At(h.waiters, ind.key) != []
    ensures NoNewListeners(h, I.Hand(h, ind))
  {
    var s := h.waiters[ind.key];
    assert forall w :: w in s[1..] ==> w in s;
    StoreShrinks(h.waiters, ind.key, s[1..]);
    hide I.SendIfRoom, I.Store, I.At, I.Max;
  }

  lemma StoreShrinks(waiters: map<I.Key, seq<I.Listener>>, k: I.Key, left: seq<I.Listener>)
    requires forall w :: w in left ==> w in I.At(waiters, k)
    ensures forall j, w :: w in I.At(I.Store(waiters, k, left), j) ==> w in I.At(waiters, j)
  {
  }

  lemma ShrinksTwice(h: I.Hub, f: I.Hub, u: I.Hub)
    requires NoNewListeners(h, f) && NoNewListeners(f, u)
    ensures NoNewListeners(h, u)
  {
  }

  lemma SameListeners(h: I.Hub, u: I.Hub)
    requires u.waiters == h.waiters && u.subs == h.subs
    requires forall c :: c in h.streams ==> c in u.streams && u.streams[c].owner == h.streams[c].owner
    ensures NoNewListeners(h, u)
  {
  }

  lemma SetShrinks(h: I.Hub, ch: ChanId, c: I.Call, d: Option<I.CallDebt>)
    ensures NoNewListeners(h, I.SetCall(h, ch, c, d))
  {
    SameListeners(h, I.SetCall(h, ch, c, d));
  }

  lemma SetStreamShrinks(h: I.Hub, ch: ChanId, st: I.Stream, d: Option<I.StreamDebt>)
    requires ch in h.streams && st.owner == h.streams[ch].owner
    ensures NoNewListeners(h, I.SetStream(h, ch, st, d))
  {
    SameListeners(h, I.SetStream(h, ch, st, d));
  }

  lemma HubOnlyShrinks(h: I.Hub, e: Event)
    ensures NoNewListeners(h, ApplyHub(h, e))
  {
    SameListeners(h, h);
    SameListeners(h, I.ClearQueues(h));
    hide NoNewListeners, I.SetCall, I.SetStream, I.PollCall, I.WakeCall, I.PayCall, I.Publish, I.CancelCall, I.Unsubscribe, I.ClearQueues;
    match e
    case Publish(ind, env) => PublishShrinks(h, ind, env);
    case Cancel(ch) => if InPhase(h, ch, I.Blocked) { CancelShrinks(h, ch); }
    case Unsubscribe(k, ch) => UnsubscribeShrinks(h, k, ch);
    case Wake(ch) => if InPhase(h, ch, I.Blocked) { SetShrinks(h, ch, I.WakeCall(h.calls[ch]), I.Debt(h.callDebts, ch)); }
    case Poll(ch) => if InPhase(h, ch, I.Polling) { SetShrinks(h, ch, I.PollCall(h.calls[ch]), I.Debt(h.callDebts, ch)); }
    case PayCall(ch) =>
      if ch in h.callDebts && ch in h.calls {
        var r := I.PayCall(h.calls[ch], h.callDebts[ch]);
        SetShrinks(h, ch, r.0, r.1);
      }
    case PayStream(ch) =>
      if ch in h.streamDebts && ch in h.streams {
        var r := I.PayStream(h.streams[ch], h.streamDebts[ch]);
        SetStreamShrinks(h, ch, r.0, r.1);
      }
    case TakeStream(ch) =>
      if ch in h.streams {
        var st := h.streams[ch];
        SetStreamShrinks(h, ch, if st.chan.buf == [] then st else st.(chan := Take(st.chan)), I.Debt(h.streamDebts, ch));
      }
    case _ =>
  }

  lemma EvictedLease(t: R.Table, lease: LeaseId)
    ensures var u := R.CloseLease(t, lease);
      forall txn :: txn in u.pending <==> txn in t.pending && t.pending[txn].owner != Some(lease)
    ensures forall txn :: txn in R.CloseLease(t, lease).pending ==> R.CloseLease(t, lease).pending[txn] == t.pending[txn]
  {
  }

  /** closeLease takes every waiter and subscriber of its lease, leaves those of all
      other leases, and keeps the order of the waiters that stay. */
  lemma SweptListeners(h: I.Hub, lease: LeaseId)
    ensures var u := I.CloseLease(h, lease);
      && (forall k :: I.At(u.waiters, k) == I.NotOwnedBy(I.At(h.waiters, k), lease))
      && (forall k, c :: P.Has(u.subs, k, c) <==> P.Has(h.subs, k, c) && !I.OwnedBy(h.streams, c, lease))
      && u.streams == h.streams && u.calls == h.calls && u.queue == h.queue
  {
    hide I.NotOwnedBy, I.OwnedBy;
    var u := I.CloseLease(h, lease);
    P.NotOwnedEmpty(lease);
    forall k, c ensures P.Has(u.subs, k, c) <==> P.Has(h.subs, k, c) && !I.OwnedBy(h.streams, c, lease) {
      if P.Has(h.subs, k, c) && !I.OwnedBy(h.streams, c, lease) {
        assert c in I.KeepSubs(h.streams, h.subs[k], lease);
      }
    }
  }

  lemma SweepNoNew(h: I.Hub, lease: LeaseId)
    ensures NoNewListeners(h, I.CloseLease(h, lease))
    ensures forall k, w :: w in I.At(I.CloseLease(h, lease).waiters, k) ==> w.owner != Some(lease)
  {
    hide I.CloseLease, I.NotOwnedBy;
    SweptListeners(h, lease);
    forall k ensures forall w :: w in I.At(I.CloseLease(h, lease).waiters, k) ==> w in I.At(h.waiters, k) && w.owner != Some(lease) {
      P.NotOwnedFacts(I.At(h.waiters, k), lease);
    }
  }

  /** With no new registration a swept lease stays gone. */
  lemma GoneShrinks(s: State, u: State, lease: LeaseId)
    requires Gone(s, lease) && NoNewListeners(s.hub, u.hub) && P.SubsOk(s.hub.streams, s.hub.subs)
    requires forall txn :: txn in u.table.pending ==> txn in s.table.pending && u.table.pending[txn] == s.table.pending[txn]
    ensures Gone(u, lease)
  {
    forall k, c | P.Has(u.hub.subs, k, c) ensures !I.OwnedBy(u.hub.streams, c, lease) {
      assert P.Has(s.hub.subs, k, c);
    }
  }

  lemma SubsKnown(h: I.Hub)
    requires P.Inv(h)
    ensures P.SubsOk(h.streams, h.subs)
  {
    hide P.QueuesOk, P.CallsOk, P.StreamAt, P.SubsOk;
  }

  ghost predicate NoNewPending(t: R.Table, u: R.Table) {
    forall txn :: txn in u.pending ==> txn in t.pending && u.pending[txn] == t.pending[txn]
  }

  /** A step that registers nothing keeps what is empty empty and what is gone gone. */
  lemma Shrinks(s: State, u: State)
    requires Inv(s) && R.Inv(u.table) && P.Inv(u.hub)
    requires NoNewPending(s.table, u.table) && NoNewListeners(s.hub, u.hub)
    requires u.flags.failure.Some? ==> s.flags.failure.Some? || Quiet(u)
    requires s.flags.leasesClosed <= u.flags.leasesClosed && u.sweeping <= u.flags.leasesClosed
    requires u.swept == s.swept
    ensures Inv(u)
  {
    hide R.Inv, P.Inv, Gone;
    if s.flags.failure.Some? {
      QuietShrinks(s, u);
    }
    SubsKnown(s.hub);
    forall lease | lease in u.swept ensures Gone(u, lease) {
      GoneShrinks(s, u, lease);
    }
  }

  lemma SomeListener(h: I.Hub, k: I.Key)
    requires P.Inv(h)
    ensures k in h.waiters ==> exists w :: w in I.At(h.waiters, k)
    ensures k in h.subs ==> exists c :: P.Has(h.subs, k, c)
  {
    hide P.QueuesOk, P.CallAt, P.StreamAt;
    if k in h.waiters {
      assert P.ListOk(h.calls, k, h.waiters[k]);
      assert h.waiters[k][0] in I.At(h.waiters, k);
    }
    if k in h.subs {
      var c :| c in h.subs[k];
      assert P.Has(h.subs, k, c);
    }
  }

  lemma QuietShrinks(s: State, u: State)
    requires Quiet(s) && NoNewPending(s.table, u.table) && NoNewListeners(s.hub, u.hub) && P.Inv(u.hub)
    ensures Quiet(u)
  {
    hide P.Inv;
    assert forall txn :: txn !in s.table.pending;
    forall k ensures k !in u.hub.waiters.Keys && k !in u.hub.subs.Keys {
      SomeListener(u.hub, k);
    }
    forall txn ensures txn !in u.table.pending.Keys {
    }
    assert u.table.pending.Keys == {} && u.hub.waiters.Keys == {} && u.hub.subs.Keys == {};
    assert u.table.pending == map[] && u.hub.waiters == map[] && u.hub.subs == map[];
  }

  /** Registering for a lease whose flag is clear leaves the swept leases gone. */
  lemma RegisterKeeps(s: State, e: Event)
    requires Inv(s) && e.Register?
    ensures Inv(ApplyRegister(s, e))
  {
    var kind := R.ResponseType(e.requestType);
    var u := ApplyRegister(s, e);
    if kind == None || Refusal(s.flags, e.owner, e.allowClosing).Some? {
    } else {
      assert s.flags.failure == None;
      forall lease | lease in u.swept ensures Gone(u, lease) {
        assert Gone(s, lease);
      }
      if e.txn !in s.table.pending {
        hide R.Inv, P.Inv;
        R.RegisterKeeps(s.table, e.txn, kind.value, e.serviceID, e.commandID, e.expectCommand, e.owner);
      }
    }
  }

  lemma AwaitGone(s: State, k: I.Key, owner: Owner, lease: LeaseId)
    requires Gone(s, lease) && owner != Some(lease)
    ensures Gone(s.(hub := I.Await(s.hub, k, owner)), lease)
  {
    var u := I.Await(s.hub, k, owner);
    forall j, w | w in I.At(u.waiters, j) ensures w.owner != Some(lease) {
      assert w in I.At(s.hub.waiters, j) || w == I.Listener(s.hub.nextCall, owner);
    }
    forall j, c | P.Has(u.subs, j, c) ensures !I.OwnedBy(u.streams, c, lease) {
      assert P.Has(s.hub.subs, j, c);
    }
  }

  lemma NextKeeps(s: State, owner: Owner, k: I.Key)
    requires Inv(s)
    ensures Inv(ApplyNext(s, owner, k))
  {
    hide R.Inv, P.Inv, Gone;
    var u := ApplyNext(s, owner, k);
    if LeaseIsClosed(s.flags, owner) || s.flags.closed || s.flags.closing {
    } else if I.At(s.hub.queue, k) != [] {
      P.PopKeeps(s.hub, k, owner);
      SameListeners(s.hub, u.hub);
      Shrinks(s, u);
    } else if Refusal(s.flags, owner, false).Some? {
    } else {
      P.AwaitKeeps(s.hub, k, owner);
      forall lease | lease in u.swept ensures Gone(u, lease) {
        AwaitGone(s, k, owner, lease);
        SameGone(s.(hub := u.hub), u, lease);
      }
    }
  }

  lemma SameGone(s: State, u: State, lease: LeaseId)
    requires Gone(s, lease) && u.table == s.table && u.hub == s.hub
    ensures Gone(u, lease)
  {
  }

  lemma SubscribeGone(s: State, k: I.Key, owner: Owner, lease: LeaseId)
    requires Gone(s, lease) && owner != Some(lease) && P.SubsOk(s.hub.streams, s.hub.subs)
    requires s.hub.nextStream !in s.hub.streams
    ensures Gone(s.(hub := I.Subscribe(s.hub, k, owner)), lease)
  {
    hide I.Values, I.Max, P.SubsOk;
    var u := I.Subscribe(s.hub, k, owner);
    P.SubscribeSubs(s.hub, k, owner);
    forall j, c | P.Has(u.subs, j, c) ensures !I.OwnedBy(u.streams, c, lease) {
      if c != s.hub.nextStream {
        assert P.Has(s.hub.subs, j, c);
      }
    }
  }

  lemma FreshStream(h: I.Hub)
    requires P.Inv(h)
    ensures h.nextStream !in h.streams
  {
    hide P.QueuesOk, P.CallsOk, P.StreamAt, P.SubsOk;
  }

  lemma SubscribeKeeps(s: State, owner: Owner, k: I.Key)
    requires Inv(s)
    ensures Inv(ApplySubscribe(s, owner, k))
  {
    hide R.Inv, P.Inv, Gone;
    var u := ApplySubscribe(s, owner, k);
    FreshStream(s.hub);
    SubsKnown(s.hub);
    if LeaseIsClosed(s.flags, owner) || s.flags.closed || s.flags.closing {
    } else if s.flags.failure.Some? {
      if I.At(s.hub.queue, k) != [] {
        P.DrainKeeps(s.hub, k, owner, s.flags.failure.value);
        SameListeners(s.hub, u.hub);
        Shrinks(s, u);
      }
    } else if Refusal(s.flags, owner, false).Some? {
    } else {
      P.SubscribeKeeps(s.hub, k, owner);
      forall lease | lease in u.swept ensures Gone(u, lease) {
        SubscribeGone(s, k, owner, lease);
        SameGone(s.(hub := u.hub), u, lease);
      }
    }
  }

  lemma StopKeeps(s: State, error: Error)
    requires Inv(s)
    ensures Inv(ApplyStop(s, error)) && Quiet(ApplyStop(s, error))
  {
    hide R.Inv, P.Inv;
    R.EvictKeeps(s.table, s.table.pending.Keys, error);
    P.StopKeeps(s.hub, error);
    assert s.table.pending - s.table.pending.Keys == map[];
  }

  lemma SweepParts(s: State, lease: LeaseId)
    requires Inv(s)
    ensures R.Inv(R.CloseLease(s.table, lease)) && P.Inv(I.CloseLease(s.hub, lease))
    ensures NoNewPending(s.table, R.CloseLease(s.table, lease)) && NoNewListeners(s.hub, I.CloseLease(s.hub, lease))
  {
    hide R.Inv, P.Inv, Gone, NoNewListeners, I.CloseLease;
    R.EvictKeeps(s.table, R.Owned(s.table.pending, lease), LeaseClosed);
    P.CloseLeaseKeeps(s.hub, lease);
    SweepNoNew(s.hub, lease);
    EvictedLease(s.table, lease);
  }

  lemma AddSwept(s: State, lease: LeaseId)
    requires Inv(s) && Gone(s, lease) && lease in s.flags.leasesClosed
    ensures Inv(s.(swept := s.swept + {lease}))
  {
    hide R.Inv, P.Inv, Gone;
    var u := s.(swept := s.swept + {lease});
    forall l | l in u.swept ensures Gone(u, l) {
      SameGone(s, u, l);
    }
  }

  lemma SweepKeeps(s: State, lease: LeaseId)
    requires Inv(s)
    ensures Inv(ApplySweep(s, lease))
  {
    if lease in s.sweeping {
      SweptGone(s, lease);
      SweepParts(s, lease);
      hide R.Inv, P.Inv, Gone, R.CloseLease, I.CloseLease, NoNewPending, NoNewListeners, Quiet;
      var v := s.(table := R.CloseLease(s.table, lease), hub := I.CloseLease(s.hub, lease), sweeping := s.sweeping - {lease});
      SameGone(ApplySweep(s, lease), v, lease);
      assert s.sweeping - {lease} <= s.flags.leasesClosed;
      Shrinks(s, v);
      hide Inv;
      AddSwept(v, lease);
    }
  }

  lemma SweptGone(s: State, lease: LeaseId)
    requires lease in s.sweeping
    ensures Gone(ApplySweep(s, lease), lease)
  {
    hide I.CloseLease;
    EvictedLease(s.table, lease);
    SweptListeners(s.hub, lease);
    SweepNoNew(s.hub, lease);
  }

  lemma OtherKeeps(s: State, e: Event)
    requires Inv(s)
    ensures Inv(s.(table := ApplyTable(s.table, e), hub := ApplyHub(s.hub, e)))
  {
    hide R.Inv, P.Inv, Gone, Quiet, ApplyTable, ApplyHub, NoNewListeners;
    TableKeeps(s.table, e);
    HubKeeps(s.hub, e);
    HubOnlyShrinks(s.hub, e);
    Shrinks(s, s.(table := ApplyTable(s.table, e), hub := ApplyHub(s.hub, e)));
  }

  lemma FlagKeeps(s: State, f: Flags, sweeping: set<LeaseId>)
    requires Inv(s) && f.failure == s.flags.failure && s.flags.leasesClosed <= f.leasesClosed && sweeping <= f.leasesClosed
    ensures Inv(s.(flags := f, sweeping := sweeping))
  {
    hide R.Inv, P.Inv, Gone, Quiet;
    SameListeners(s.hub, s.hub);
    hide NoNewListeners;
    Shrinks(s, s.(flags := f, sweeping := sweeping));
  }

  lemma SweepingKnown(s: State)
    requires Inv(s)
    ensures s.sweeping <= s.flags.leasesClosed
  {
    hide R.Inv, P.Inv, Gone, Quiet;
  }

  lemma CloseFlagKeeps(s: State, lease: LeaseId)
    requires Inv(s)
    ensures Inv(Apply(s, CloseFlag(lease)))
  {
    SweepingKnown(s);
    hide Inv;
    if lease !in s.flags.leasesClosed {
      FlagKeeps(s, s.flags.(leasesClosed := s.flags.leasesClosed + {lease}), s.sweeping + {lease});
    }
  }

  lemma CloseKeeps(s: State)
    requires Inv(s)
    ensures Inv(Apply(s, BeginClose)) && Inv(Apply(s, FinishClose))
  {
    SweepingKnown(s);
    hide Inv;
    FlagKeeps(s, s.flags.(closing := s.flags.closing || !s.flags.closed), s.sweeping);
    FlagKeeps(s, s.flags.(closed := true), s.sweeping);
  }

  lemma ApplyKeeps(s: State, e: Event)
    requires Inv(s)
    ensures Inv(Apply(s, e))
  {
    hide Inv, ApplyRegister, ApplyNext, ApplySubscribe, ApplyStop, ApplySweep, ApplyTable, ApplyHub;
    match e
    case Register(_, _, _, _, _, _, _) => RegisterKeeps(s, e);
    case Next(owner, k) => NextKeeps(s, owner, k);
    case Subscribe(owner, k) => SubscribeKeeps(s, owner, k);
    case StopReceiver(error) => StopKeeps(s, error);
    case Sweep(lease) => SweepKeeps(s, lease);
    case CloseFlag(lease) => CloseFlagKeeps(s, lease);
    case BeginClose => CloseKeeps(s);
    case FinishClose => CloseKeeps(s);
    case _ => OtherKeeps(s, e);
  }

  lemma InitInv(hasConn: bool)
    ensures Inv(Init(hasConn))
  {
  }

  /** The invariant holds in every state a run can reach. */
  lemma {:induction false} RunKeeps(s: State, es: seq<Event>)
    requires Inv(s)
    ensures Inv(Run(s, es))
    decreases es
  {
    hide Inv, Apply;
    if es != [] {
      ApplyKeeps(s, es[0]);
      RunKeeps(Apply(s, es[0]), es[1..]);
    }
  }
}
