/** Who is owed an error when the receiver stops or a lease closes, and that every error
    owed is delivered. Stated over all runs. */
module FailureOutcomes {
  import opened Bytes
  import opened Channels
  import opened Dispatcher
  import opened DispatcherProofs
  import opened DispatcherTheorems
  import R = Responses
  import I = Indications
  import P = IndicationProofs

  // ---- who is owed what ----

  /** The channels of the pending responses, of the calls in line, of the subscribers. */
  ghost function Pending(t: R.Table): set<ChanId> { set txn | txn in t.pending :: t.pending[txn].ch }

  ghost function InLine(h: I.Hub): set<ChanId> {
    set k, i | k in h.waiters && 0 <= i < |h.waiters[k]| :: h.waiters[k][i].ch
  }

  ghost function Subscribed(h: I.Hub): set<ChanId> { set k, c | k in h.subs && c in h.subs[k] :: c }

  /** The same, of those that belong to a lease. */
  ghost function PendingOf(t: R.Table, lease: LeaseId): set<ChanId> {
    set txn | txn in t.pending && t.pending[txn].owner == Some(lease) :: t.pending[txn].ch
  }

  ghost function InLineOf(h: I.Hub, lease: LeaseId): set<ChanId> {
    set k, i | k in h.waiters && 0 <= i < |h.waiters[k]| && h.waiters[k][i].owner == Some(lease) :: h.waiters[k][i].ch
  }

  ghost function SubscribedOf(h: I.Hub, lease: LeaseId): set<ChanId> {
    set c | c in Subscribed(h) && c in h.streams && h.streams[c].owner == Some(lease)
  }

  /** What was owed stays owed, and the channels of the set are owed d in addition. */
  ghost predicate OwesMore<T>(before: map<ChanId, T>, after: map<ChanId, T>, more: set<ChanId>, d: T) {
    && (forall ch :: ch in after <==> ch in before || ch in more)
    && (forall ch :: ch in before ==> ch in after && after[ch] == before[ch])
    && (forall ch :: ch in more ==> ch in after && after[ch] == d)
  }

  lemma Adds<T>(before: map<ChanId, T>, more: set<ChanId>, d: T)
    requires forall ch :: ch in more ==> ch !in before
    ensures OwesMore(before, before + Fill(more, d), more, d)
  {
  }

  /** A channel that is registered is owed nothing. */
  lemma PendingOwedNothing(t: R.Table, ch: ChanId)
    requires R.Inv(t) && ch in Pending(t)
    ensures ch !in t.owed
  {
    var txn :| txn in t.pending && t.pending[txn].ch == ch;
    assert R.SlotAt(t, ch);
    R.WaitsAlone(t.made[ch].waiter, t.slots[ch], R.Owed(t, ch), ch in t.withdrawn);
  }

  lemma InLineOwedNothing(h: I.Hub, ch: ChanId)
    requires P.Inv(h) && ch in InLine(h)
    ensures ch !in h.callDebts
  {
    var k, i :| k in h.waiters && 0 <= i < |h.waiters[k]| && h.waiters[k][i].ch == ch;
    hide P.QueuesOk, P.StreamsOk;
    assert P.ListOk(h.calls, k, h.waiters[k]) && h.waiters[k][i] in h.waiters[k];
    assert P.CallAt(h.calls, h.waiters, h.callDebts, ch);
  }

  lemma SubscribedOwedNothing(h: I.Hub, ch: ChanId)
    requires P.Inv(h) && ch in Subscribed(h)
    ensures ch in h.streams && ch !in h.streamDebts && !P.Terminal(h.streams[ch].chan)
  {
    var k :| k in h.subs && ch in h.subs[k];
    assert P.Has(h.subs, k, ch);
    hide P.QueuesOk, P.CallsOk;
    assert P.StreamAt(h.streams, h.subs, h.streamDebts, h.arrived, ch);
  }

  /** stopReceiver: the first error stands; every pending response, every call in line and
      every subscriber is taken out and owed this error, calls and streams with the close
      after it; what was owed before, and everything already delivered, stays. */
  lemma StopFrame(hasConn: bool, es: seq<Event>, error: Error)
    ensures var s := Run(Init(hasConn), es);
      var u := Apply(s, StopReceiver(error));
      && u.flags == s.flags.(started := false, failure := if s.flags.failure == None then Some(error) else s.flags.failure)
      && u.table.pending == map[] && u.hub.waiters == map[] && u.hub.subs == map[]
      && OwesMore(s.table.owed, u.table.owed, Pending(s.table), R.Failed(error))
      && OwesMore(s.hub.callDebts, u.hub.callDebts, InLine(s.hub), I.CallDebt(error, true, false))
      && OwesMore(s.hub.streamDebts, u.hub.streamDebts, Subscribed(s.hub), I.StreamDebt(I.Try, error, true))
      && u.table.slots == s.table.slots && u.hub.queue == s.hub.queue && u.hub.calls == s.hub.calls && u.hub.streams == s.hub.streams
  {
    Reached(hasConn, es);
    hide Run, Inv, R.Inv, P.Inv, OwesMore, Fill, Pending, InLine, Subscribed, R.ChannelsOf, I.AllCalls, I.AllStreams;
    var s := Run(Init(hasConn), es);
    StopTable(s.table, error);
    StopCalls(s.hub, error);
    StopStreams(s.hub, error);
    assert s.table.pending - s.table.pending.Keys == map[];
  }

  lemma StopTable(t: R.Table, error: Error)
    requires R.Inv(t)
    ensures OwesMore(t.owed, R.Stop(t, error).owed, Pending(t), R.Failed(error))
  {
    hide R.Inv, OwesMore, Fill;
    assert R.ChannelsOf(t.pending, t.pending.Keys) == Pending(t);
    hide R.ChannelsOf, Pending;
    forall ch | ch in Pending(t) ensures ch !in t.owed { PendingOwedNothing(t, ch); }
    Adds(t.owed, Pending(t), R.Failed(error));
  }

  lemma StopCalls(h: I.Hub, error: Error)
    requires P.Inv(h)
    ensures OwesMore(h.callDebts, I.Stop(h, error).callDebts, InLine(h), I.CallDebt(error, true, false))
  {
    hide P.Inv, OwesMore, Fill, I.AllStreams;
    assert I.AllCalls(h.waiters) == InLine(h);
    hide I.AllCalls, InLine;
    forall ch | ch in InLine(h) ensures ch !in h.callDebts { InLineOwedNothing(h, ch); }
    Adds(h.callDebts, InLine(h), I.CallDebt(error, true, false));
  }

  lemma StopStreams(h: I.Hub, error: Error)
    requires P.Inv(h)
    ensures OwesMore(h.streamDebts, I.Stop(h, error).streamDebts, Subscribed(h), I.StreamDebt(I.Try, error, true))
  {
    hide P.Inv, OwesMore, Fill, I.AllCalls;
    assert I.AllStreams(h.subs) == Subscribed(h);
    hide I.AllStreams, Subscribed;
    forall ch | ch in Subscribed(h) ensures ch !in h.streamDebts { SubscribedOwedNothing(h, ch); }
    Adds(h.streamDebts, Subscribed(h), I.StreamDebt(I.Try, error, true));
  }

  /** closeLease: exactly what belongs to the lease is taken out and owed the error of a
      closed lease, streams without being closed; what was owed before stays, and the
      lines of the others keep their order. */
  lemma LeaseFrame(hasConn: bool, es: seq<Event>, lease: LeaseId)
    requires lease in Run(Init(hasConn), es).sweeping
    ensures var s := Run(Init(hasConn), es);
      var u := Apply(s, Sweep(lease));
      && OwesMore(s.table.owed, u.table.owed, PendingOf(s.table, lease), R.Failed(LeaseClosed))
      && OwesMore(s.hub.callDebts, u.hub.callDebts, InLineOf(s.hub, lease), I.CallDebt(LeaseClosed, false, false))
      && OwesMore(s.hub.streamDebts, u.hub.streamDebts, SubscribedOf(s.hub, lease), I.StreamDebt(I.Try, LeaseClosed, false))
      && (forall k :: Subsequence(I.At(u.hub.waiters, k), I.At(s.hub.waiters, k)))
      && (forall k, w :: w in I.At(u.hub.waiters, k) <==> w in I.At(s.hub.waiters, k) && w.owner != Some(lease))
  {
    Reached(hasConn, es);
    hide Run, Inv, R.Inv, P.Inv, OwesMore, I.CloseLease, R.CloseLease, Subsequence, I.At, InLineOf, PendingOf, SubscribedOf;
    var s := Run(Init(hasConn), es);
    LeaseTable(s.table, lease);
    LeaseCalls(s.hub, lease);
    LeaseStreams(s.hub, lease);
    SweptListeners(s.hub, lease);
    forall k
      ensures Subsequence(I.At(I.CloseLease(s.hub, lease).waiters, k), I.At(s.hub.waiters, k))
      ensures forall w :: w in I.At(I.CloseLease(s.hub, lease).waiters, k) <==> w in I.At(s.hub.waiters, k) && w.owner != Some(lease)
    {
      P.NotOwnedFacts(I.At(s.hub.waiters, k), lease);
      KeptInOrder(I.At(s.hub.waiters, k), lease);
    }
  }

  lemma {:induction false} KeptSnoc(s: seq<I.Listener>, w: I.Listener, lease: LeaseId)
    ensures I.NotOwnedBy(s + [w], lease) == I.NotOwnedBy(s, lease) + (if w.owner == Some(lease) then [] else [w])
  {
    if s == [] {
      assert s + [w] == [w] && [w][1..] == [];
    } else {
      assert (s + [w])[1..] == s[1..] + [w];
      KeptSnoc(s[1..], w, lease);
    }
  }

  lemma {:induction false} KeptInOrder(s: seq<I.Listener>, lease: LeaseId)
    ensures Subsequence(I.NotOwnedBy(s, lease), s)
    decreases |s|
  {
    if s != [] {
      var n := |s| - 1;
      KeptInOrder(s[..n], lease);
      KeptSnoc(s[..n], s[n], lease);
      assert s == s[..n] + [s[n]];
      hide I.NotOwnedBy;
      var kept := I.NotOwnedBy(s[..n], lease);
      SubsequenceSnoc(kept, s[..n], s[n]);
      assert kept + [] == kept;
    }
  }

  lemma LeaseTable(t: R.Table, lease: LeaseId)
    requires R.Inv(t)
    ensures OwesMore(t.owed, R.CloseLease(t, lease).owed, PendingOf(t, lease), R.Failed(LeaseClosed))
  {
    hide R.Inv, OwesMore, Fill;
    assert R.ChannelsOf(t.pending, R.Owned(t.pending, lease)) == PendingOf(t, lease);
    assert PendingOf(t, lease) <= Pending(t);
    hide R.ChannelsOf, PendingOf, Pending;
    forall ch | ch in PendingOf(t, lease) ensures ch !in t.owed { PendingOwedNothing(t, ch); }
    Adds(t.owed, PendingOf(t, lease), R.Failed(LeaseClosed));
  }

  lemma LeaseCalls(h: I.Hub, lease: LeaseId)
    requires P.Inv(h)
    ensures OwesMore(h.callDebts, I.CloseLease(h, lease).callDebts, InLineOf(h, lease), I.CallDebt(LeaseClosed, false, false))
  {
    hide P.Inv, OwesMore, Fill, I.OwnedStreams, I.KeepWaiters, I.KeepSubscribers;
    assert I.OwnedCalls(h.waiters, lease) == InLineOf(h, lease);
    assert InLineOf(h, lease) <= InLine(h);
    hide I.OwnedCalls, InLineOf, InLine;
    forall ch | ch in InLineOf(h, lease) ensures ch !in h.callDebts { InLineOwedNothing(h, ch); }
    Adds(h.callDebts, InLineOf(h, lease), I.CallDebt(LeaseClosed, false, false));
  }

  lemma OwnedAre(h: I.Hub, lease: LeaseId)
    ensures I.OwnedStreams(h.streams, h.subs, lease) == SubscribedOf(h, lease)
  {
    var a, b := I.OwnedStreams(h.streams, h.subs, lease), SubscribedOf(h, lease);
    forall c ensures c in a <==> c in b {
      if c in a {
        var k :| k in h.subs && c in h.subs[k] && I.OwnedBy(h.streams, c, lease);
        assert c in Subscribed(h);
      }
      if c in b {
        var k :| k in h.subs && c in h.subs[k];
        assert I.OwnedBy(h.streams, c, lease);
      }
    }
  }

  lemma LeaseStreams(h: I.Hub, lease: LeaseId)
    requires P.Inv(h)
    ensures OwesMore(h.streamDebts, I.CloseLease(h, lease).streamDebts, SubscribedOf(h, lease), I.StreamDebt(I.Try, LeaseClosed, false))
  {
    hide P.Inv, OwesMore, Fill, I.OwnedCalls, I.KeepWaiters, I.KeepSubscribers;
    OwnedAre(h, lease);
    hide I.OwnedStreams, Subscribed;
    forall ch | ch in SubscribedOf(h, lease) ensures ch !in h.streamDebts { SubscribedOwedNothing(h, ch); }
    Adds(h.streamDebts, SubscribedOf(h, lease), I.StreamDebt(I.Try, LeaseClosed, false));
  }

  // ---- every error owed is delivered ----

  function Steps(es: seq<Event>, e: Event): nat {
    if es == [] then 0 else (if es[0] == e then 1 else 0) + Steps(es[1..], e)
  }

  /** The last value the stream was sent is this error. */
  ghost predicate LastIs(c: Chan<I.WatchResult>, error: Error) {
    c.sent != [] && c.sent[|c.sent| - 1] == I.Err(error)
  }

  /** The error is on its way to the stream: still owed, or sent last, and then, if the
      debt said so, the channel is closed. */
  ghost predicate StreamDue(h: I.Hub, ch: ChanId, error: Error, thenClose: bool) {
    ch in h.streams &&
    var c := h.streams[ch].chan;
    if ch in h.streamDebts then
      var d := h.streamDebts[ch];
      d.error == error && d.thenClose == thenClose && (d.stage == I.Shut ==> LastIs(c, error))
    else LastIs(c, error) && (thenClose ==> c.closed)
  }

  /** How many more steps the goroutine that owes it takes. */
  function StreamRank(h: I.Hub, ch: ChanId): nat {
    if ch !in h.streamDebts then 0
    else match h.streamDebts[ch].stage
      case Try => 4
      case Discard => 3
      case Retry => 2
      case Shut => 1
  }

  lemma StreamUnchanged(h: I.Hub, u: I.Hub, ch: ChanId, error: Error, thenClose: bool)
    requires StreamDue(h, ch, error, thenClose) && ch in u.streams
    requires u.streams[ch].chan.sent == h.streams[ch].chan.sent && u.streams[ch].chan.closed == h.streams[ch].chan.closed
    requires I.Debt(u.streamDebts, ch) == I.Debt(h.streamDebts, ch)
    ensures StreamDue(u, ch, error, thenClose) && StreamRank(u, ch) == StreamRank(h, ch)
  {
  }

  /** A stream that is owed or was sent its error is not subscribed. */
  lemma DueIsAlone(h: I.Hub, ch: ChanId, error: Error, thenClose: bool)
    requires P.Inv(h) && StreamDue(h, ch, error, thenClose)
    ensures ch !in Subscribed(h) && ch < h.nextStream
  {
    if ch in Subscribed(h) { SubscribedOwedNothing(h, ch); }
    hide P.QueuesOk, P.CallsOk, P.StreamAt;
  }

  lemma PaysStream(st: I.Stream, arrived: seq<I.Indication>, subscribed: bool, d: I.StreamDebt)
    requires P.StreamOk(st, arrived, subscribed, Some(d))
    ensures var (st', d') := I.PayStream(st, d);
      && (d'.Some? ==> d'.value.error == d.error && d'.value.thenClose == d.thenClose)
      && match d.stage
         case Try => if CanSend(st.chan) then LastIs(st'.chan, d.error) && SentOff(d, d') else st' == st && d' == Some(d.(stage := I.Discard))
         case Discard => st'.chan.sent == st.chan.sent && d' == Some(d.(stage := I.Retry))
         case Retry => LastIs(st'.chan, d.error) && SentOff(d, d')
         case Shut => st'.chan.sent == st.chan.sent && st'.chan.closed && d' == None
  {
  }

  /** After the send there is the close, if there is to be one. */
  ghost predicate SentOff(d: I.StreamDebt, after: Option<I.StreamDebt>) {
    after == if d.thenClose then Some(d.(stage := I.Shut)) else None
  }

  /** The stream and what it is owed after one step of its goroutine. */
  ghost predicate Stepped(st: I.Stream, d: I.StreamDebt, st': I.Stream, d': Option<I.StreamDebt>) {
    && (d'.Some? ==> d'.value.error == d.error && d'.value.thenClose == d.thenClose)
    && match d.stage
       case Try => (LastIs(st'.chan, d.error) && SentOff(d, d')) || d' == Some(d.(stage := I.Discard))
       case Discard => d' == Some(d.(stage := I.Retry))
       case Retry => LastIs(st'.chan, d.error) && SentOff(d, d')
       case Shut => st'.chan.sent == st.chan.sent && st'.chan.closed && d' == None
  }

  lemma SteppedDue(h: I.Hub, u: I.Hub, ch: ChanId, error: Error, thenClose: bool)
    requires StreamDue(h, ch, error, thenClose) && ch in h.streamDebts && ch in u.streams
    requires Stepped(h.streams[ch], h.streamDebts[ch], u.streams[ch], I.Debt(u.streamDebts, ch))
    ensures StreamDue(u, ch, error, thenClose) && StreamRank(u, ch) < StreamRank(h, ch)
  {
  }

  lemma PayStreamDue(h: I.Hub, ch: ChanId, error: Error, thenClose: bool)
    requires P.Inv(h) && StreamDue(h, ch, error, thenClose) && ch in h.streamDebts
    ensures StreamDue(I.StepStreamDebt(h, ch), ch, error, thenClose)
    ensures StreamRank(I.StepStreamDebt(h, ch), ch) < StreamRank(h, ch)
  {
    assert ch in h.streams;
    hide P.Inv, P.StreamOk, I.PayStream, Stepped, StreamDue, StreamRank, P.Has, I.At;
    P.StreamAlone(h, ch);
    var st, d := h.streams[ch], h.streamDebts[ch];
    IsStepped(st, I.At(h.arrived, st.key), P.Has(h.subs, st.key, ch), d);
    SteppedDue(h, I.StepStreamDebt(h, ch), ch, error, thenClose);
  }

  lemma IsStepped(st: I.Stream, arrived: seq<I.Indication>, subscribed: bool, d: I.StreamDebt)
    requires P.StreamOk(st, arrived, subscribed, Some(d))
    ensures var r := I.PayStream(st, d); Stepped(st, d, r.0, r.1)
  {
    hide P.StreamOk, I.PayStream;
    PaysStream(st, arrived, subscribed, d);
  }

  /** Streams and what they are owed are the same. */
  ghost predicate SameStreams(h: I.Hub, u: I.Hub) { u.streams == h.streams && u.streamDebts == h.streamDebts }

  lemma CallsOnly(h: I.Hub, ch: ChanId)
    ensures ch in h.calls ==>
      (forall c: I.Call, d: Option<I.CallDebt> :: SameStreams(h, I.SetCall(h, ch, c, d)))
      && (forall c: I.Call :: SameStreams(h, I.GoPolling(h, ch, c)))
      && (forall c: I.Call, left: seq<I.Listener> :: SameStreams(h, I.LeaveLine(h, ch, c, left)))
  {
    hide I.SetDebt, I.Store;
  }

  lemma LinesOnly(h: I.Hub, k: I.Key, owner: Owner, ind: I.Indication)
    ensures SameStreams(h, I.Await(h, k, owner)) && SameStreams(h, I.ClearQueues(h)) && SameStreams(h, I.Enqueue(h, ind))
    ensures I.At(h.queue, k) != [] ==> SameStreams(h, I.Pop(h, k, owner))
    ensures I.At(h.waiters, ind.key) != [] ==> SameStreams(h, I.Hand(h, ind))
  {
    hide I.Store, I.LastQueued, I.SendIfRoom, I.Max;
  }

  lemma SubsOnly(h: I.Hub, k: I.Key, ch: ChanId)
    ensures SameStreams(h, I.Unsubscribe(h, k, ch))
  {
  }

  lemma FanDue(h: I.Hub, ind: I.Indication, env: map<ChanId, I.Meanwhile>, ch: ChanId)
    requires ch in h.streams && ch !in I.Subscribers(h, ind.key)
    ensures var u := I.Fan(h, ind, env); ch in u.streams && u.streams[ch] == h.streams[ch] && u.streamDebts == h.streamDebts
  {
    hide I.Delivered, I.Pace, I.Subscribers;
  }

  lemma PublishDue(h: I.Hub, ind: I.Indication, env: map<ChanId, I.Meanwhile>, ch: ChanId)
    requires ch in h.streams && ch !in I.Subscribers(h, ind.key)
    ensures var u := I.Publish(h, ind, env); ch in u.streams && u.streams[ch] == h.streams[ch] && u.streamDebts == h.streamDebts
  {
    FanDue(h, ind, env, ch);
    LinesOnly(h, ind.key, None, ind);
    LinesOnly(I.Fan(h, ind, env), ind.key, None, ind);
    assert I.Fan(h, ind, env).waiters == h.waiters;
    hide I.Fan, I.Hand, I.Enqueue, I.Subscribers;
  }

  lemma TakeDue(h: I.Hub, c: ChanId, ch: ChanId)
    requires c in h.streams && ch in h.streams
    ensures var u := I.TakeStream(h, c);
      ch in u.streams && u.streams[ch].chan.sent == h.streams[ch].chan.sent && u.streams[ch].chan.closed == h.streams[ch].chan.closed
      && u.streamDebts == h.streamDebts
  {
  }

  lemma OtherPays(h: I.Hub, c: ChanId, ch: ChanId)
    requires c != ch && ch in h.streams && c in h.streams && c in h.streamDebts
    ensures var u := I.StepStreamDebt(h, c);
      ch in u.streams && u.streams[ch] == h.streams[ch] && I.Debt(u.streamDebts, ch) == I.Debt(h.streamDebts, ch)
  {
    hide I.PayStream;
  }

  lemma CallSteps(h: I.Hub, e: Event)
    requires e.Wake? || e.Cancel? || e.Poll? || e.PayCall?
    ensures SameStreams(h, ApplyHub(h, e))
  {
    CallsOnly(h, e.ch);
    hide SameStreams, I.SetCall, I.GoPolling, I.LeaveLine, I.PayCall, I.WakeCall, I.PollCall, I.Without, I.Listed, I.At;
    assert SameStreams(h, h) by { SameAsItself(h); }
  }

  lemma SameAsItself(h: I.Hub)
    ensures SameStreams(h, h)
  {
  }

  /** Still due, and nearer by one step if this was a step of the goroutine that owes it. */
  ghost predicate Nearer(h: I.Hub, u: I.Hub, ch: ChanId, error: Error, thenClose: bool, paid: bool) {
    && StreamDue(u, ch, error, thenClose) && StreamRank(u, ch) <= StreamRank(h, ch)
    && (paid && StreamRank(h, ch) > 0 ==> StreamRank(u, ch) < StreamRank(h, ch))
  }

  lemma AsNear(h: I.Hub, u: I.Hub, ch: ChanId, error: Error, thenClose: bool, paid: bool)
    requires StreamDue(h, ch, error, thenClose) && ch in u.streams
    requires u.streams[ch].chan.sent == h.streams[ch].chan.sent && u.streams[ch].chan.closed == h.streams[ch].chan.closed
    requires I.Debt(u.streamDebts, ch) == I.Debt(h.streamDebts, ch)
    requires paid ==> ch !in h.streamDebts
    ensures Nearer(h, u, ch, error, thenClose, paid)
  {
    Idle(h, ch);
    hide StreamDue, StreamRank;
    StreamUnchanged(h, u, ch, error, thenClose);
  }

  lemma PublishNear(h: I.Hub, ind: I.Indication, env: map<ChanId, I.Meanwhile>, ch: ChanId, error: Error, thenClose: bool)
    requires StreamDue(h, ch, error, thenClose) && ch !in Subscribed(h)
    ensures Nearer(h, I.Publish(h, ind, env), ch, error, thenClose, false)
  {
    assert ch in h.streams && ch !in I.Subscribers(h, ind.key);
    hide I.Publish, I.Subscribers, Subscribed, StreamDue, Nearer;
    PublishDue(h, ind, env, ch);
    AsNear(h, I.Publish(h, ind, env), ch, error, thenClose, false);
  }

  lemma PayNear(h: I.Hub, c: ChanId, ch: ChanId, error: Error, thenClose: bool)
    requires P.Inv(h) && StreamDue(h, ch, error, thenClose) && c in h.streamDebts && c in h.streams
    ensures Nearer(h, I.StepStreamDebt(h, c), ch, error, thenClose, c == ch)
  {
    assert ch in h.streams;
    hide P.Inv, I.StepStreamDebt, StreamDue, StreamRank;
    if c == ch {
      PayStreamDue(h, ch, error, thenClose);
    } else {
      OtherPays(h, c, ch);
      AsNear(h, I.StepStreamDebt(h, c), ch, error, thenClose, false);
    }
  }

  lemma TakeNear(h: I.Hub, c: ChanId, ch: ChanId, error: Error, thenClose: bool)
    requires StreamDue(h, ch, error, thenClose) && c in h.streams
    ensures Nearer(h, I.TakeStream(h, c), ch, error, thenClose, false)
  {
    assert ch in h.streams;
    hide I.TakeStream, StreamDue, Nearer;
    TakeDue(h, c, ch);
    AsNear(h, I.TakeStream(h, c), ch, error, thenClose, false);
  }

  lemma SameNear(h: I.Hub, u: I.Hub, ch: ChanId, error: Error, thenClose: bool)
    requires StreamDue(h, ch, error, thenClose) && SameStreams(h, u)
    ensures Nearer(h, u, ch, error, thenClose, false)
    ensures ch !in h.streamDebts ==> Nearer(h, u, ch, error, thenClose, true)
  {
    assert ch in h.streams;
    hide StreamDue, Nearer;
    AsNear(h, u, ch, error, thenClose, false);
    if ch !in h.streamDebts { AsNear(h, u, ch, error, thenClose, true); }
  }

  lemma QuietSteps(h: I.Hub, e: Event)
    requires !e.Publish? && !e.PayStream? && !e.TakeStream?
    ensures SameStreams(h, ApplyHub(h, e))
  {
    SameAsItself(h);
    if e.Wake? || e.Cancel? || e.Poll? || e.PayCall? { CallSteps(h, e); }
    if e.Unsubscribe? { SubsOnly(h, e.key, e.ch); }
    LinesOnly(h, I.Key([], 0), None, I.Indication(I.Key([], 0), []));
    hide SameStreams, I.Unsubscribe, I.ClearQueues, InPhase, I.Wake, I.Poll, I.CancelCall, I.StepCallDebt, I.At;
  }

  /** The steps that reach streams, one by one. */
  lemma HubSteps(h: I.Hub, e: Event)
    ensures e.Publish? ==> ApplyHub(h, e) == I.Publish(h, e.indication, e.env)
    ensures e.PayStream? ==> ApplyHub(h, e) == if e.ch in h.streamDebts && e.ch in h.streams then I.StepStreamDebt(h, e.ch) else h
    ensures e.TakeStream? ==> ApplyHub(h, e) == if e.ch in h.streams then I.TakeStream(h, e.ch) else h
  {
    hide I.Publish, I.StepStreamDebt, I.TakeStream;
  }

  lemma HubDue(h: I.Hub, e: Event, ch: ChanId, error: Error, thenClose: bool)
    requires P.Inv(h) && StreamDue(h, ch, error, thenClose) && ch !in Subscribed(h)
    ensures Nearer(h, ApplyHub(h, e), ch, error, thenClose, e == PayStream(ch))
  {
    assert ch in h.streams;
    SameAsItself(h);
    HubSteps(h, e);
    hide P.Inv, StreamDue, Nearer, Subscribed, SameStreams, ApplyHub, I.Publish, I.StepStreamDebt, I.TakeStream;
    SameNear(h, h, ch, error, thenClose);
    if e.Publish? {
      PublishNear(h, e.indication, e.env, ch, error, thenClose);
    } else if e.PayStream? {
      if e.ch in h.streamDebts && e.ch in h.streams { PayNear(h, e.ch, ch, error, thenClose); }
    } else if e.TakeStream? {
      if e.ch in h.streams { TakeNear(h, e.ch, ch, error, thenClose); }
    } else {
      QuietSteps(h, e);
      SameNear(h, ApplyHub(h, e), ch, error, thenClose);
    }
  }

  lemma Idle(h: I.Hub, ch: ChanId)
    ensures ch !in h.streamDebts ==> StreamRank(h, ch) == 0
  {
  }

  lemma EvictDue(h: I.Hub, u: I.Hub, more: set<ChanId>, d: I.StreamDebt, ch: ChanId, error: Error, thenClose: bool)
    requires StreamDue(h, ch, error, thenClose) && ch !in more
    requires u.streams == h.streams && u.streamDebts == h.streamDebts + Fill(more, d)
    ensures StreamDue(u, ch, error, thenClose) && StreamRank(u, ch) == StreamRank(h, ch)
  {
    StreamUnchanged(h, u, ch, error, thenClose);
  }

  lemma OpenDue(h: I.Hub, owner: Owner, k: I.Key, err: Error, ch: ChanId)
    requires ch in h.streams && ch < h.nextStream
    ensures var u := I.Subscribe(h, k, owner); ch in u.streams && u.streams[ch] == h.streams[ch] && u.streamDebts == h.streamDebts
    ensures var u := I.Drain(h, k, owner, err); ch in u.streams && u.streams[ch] == h.streams[ch] && u.streamDebts == h.streamDebts
  {
    hide I.Values, I.At, I.Max, I.AddSubscriber;
  }

  lemma SubscribeDue(s: State, owner: Owner, k: I.Key, ch: ChanId)
    requires ch in s.hub.streams && ch < s.hub.nextStream
    ensures var u := ApplySubscribe(s, owner, k).hub; ch in u.streams && u.streams[ch] == s.hub.streams[ch] && u.streamDebts == s.hub.streamDebts
  {
    OpenDue(s.hub, owner, k, if s.flags.failure.Some? then s.flags.failure.value else ConnNil, ch);
    hide I.Subscribe, I.Drain, Refusal, I.At, LeaseIsClosed;
  }

  lemma NextDue(s: State, owner: Owner, k: I.Key)
    ensures SameStreams(s.hub, ApplyNext(s, owner, k).hub)
  {
    LinesOnly(s.hub, k, owner, I.Indication(k, []));
    SameAsItself(s.hub);
    hide I.Pop, I.Await, Refusal, I.At, LeaseIsClosed, SameStreams;
  }

  lemma StopDue(h: I.Hub, err: Error, ch: ChanId, error: Error, thenClose: bool)
    requires StreamDue(h, ch, error, thenClose) && ch !in Subscribed(h)
    ensures StreamDue(I.Stop(h, err), ch, error, thenClose) && StreamRank(I.Stop(h, err), ch) == StreamRank(h, ch)
  {
    assert I.AllStreams(h.subs) == Subscribed(h);
    hide I.AllStreams, I.AllCalls, Fill, StreamDue, StreamRank, Subscribed;
    EvictDue(h, I.Stop(h, err), I.AllStreams(h.subs), I.StreamDebt(I.Try, err, true), ch, error, thenClose);
  }

  lemma LeaseDue(h: I.Hub, lease: LeaseId, ch: ChanId, error: Error, thenClose: bool)
    requires StreamDue(h, ch, error, thenClose) && ch !in Subscribed(h)
    ensures StreamDue(I.CloseLease(h, lease), ch, error, thenClose) && StreamRank(I.CloseLease(h, lease), ch) == StreamRank(h, ch)
  {
    OwnedAre(h, lease);
    assert ch !in SubscribedOf(h, lease);
    hide I.OwnedStreams, I.OwnedCalls, I.KeepWaiters, I.KeepSubscribers, Fill, StreamDue, StreamRank, Subscribed;
    EvictDue(h, I.CloseLease(h, lease), I.OwnedStreams(h.streams, h.subs, lease), I.StreamDebt(I.Try, LeaseClosed, false), ch, error, thenClose);
  }

  lemma StepHub(s: State, e: Event)
    ensures e.StopReceiver? ==> Apply(s, e).hub == I.Stop(s.hub, e.error)
    ensures e.Sweep? ==> Apply(s, e).hub == if e.lease in s.sweeping then I.CloseLease(s.hub, e.lease) else s.hub
    ensures e.Register? || e.CloseFlag? || e.BeginClose? || e.FinishClose? ==> Apply(s, e).hub == s.hub && ApplyHub(s.hub, e) == s.hub
    ensures !e.StopReceiver? && !e.Sweep? && !e.Subscribe? && !e.Next? ==> Apply(s, e).hub == ApplyHub(s.hub, e)
  {
    hide I.Stop, I.CloseLease, R.Stop, R.CloseLease, R.Register, Refusal, ApplyTable, I.Publish, I.StepStreamDebt, I.TakeStream,
      I.Unsubscribe, I.Wake, I.Poll, I.CancelCall, I.StepCallDebt, ApplySubscribe, ApplyNext, InPhase;
  }

  lemma StepDue(s: State, e: Event, ch: ChanId, error: Error, thenClose: bool)
    requires P.Inv(s.hub) && StreamDue(s.hub, ch, error, thenClose)
    ensures Nearer(s.hub, Apply(s, e).hub, ch, error, thenClose, e == PayStream(ch))
  {
    var h := s.hub;
    DueIsAlone(h, ch, error, thenClose);
    StepHub(s, e);
    SameAsItself(h);
    hide P.Inv, Subscribed, StreamDue, StreamRank, Apply, I.Stop, I.CloseLease, ApplyHub, SameStreams;
    SameNear(h, h, ch, error, thenClose);
    if e.StopReceiver? {
      StopDue(h, e.error, ch, error, thenClose);
    } else if e.Sweep? {
      LeaseDue(h, e.lease, ch, error, thenClose);
    } else if e.Subscribe? || e.Next? {
      OpenNear(s, e, ch, error, thenClose);
    } else {
      HubDue(h, e, ch, error, thenClose);
    }
  }

  lemma OpenNear(s: State, e: Event, ch: ChanId, error: Error, thenClose: bool)
    requires StreamDue(s.hub, ch, error, thenClose) && ch < s.hub.nextStream && (e.Subscribe? || e.Next?)
    ensures Nearer(s.hub, Apply(s, e).hub, ch, error, thenClose, false)
  {
    assert ch in s.hub.streams;
    hide StreamDue, Nearer, ApplySubscribe, ApplyNext;
    if e.Subscribe? {
      SubscribeDue(s, e.owner, e.key, ch);
      AsNear(s.hub, ApplySubscribe(s, e.owner, e.key).hub, ch, error, thenClose, false);
    } else {
      NextDue(s, e.owner, e.key);
      SameNear(s.hub, ApplyNext(s, e.owner, e.key).hub, ch, error, thenClose);
    }
  }

  lemma {:induction false} RunDue(s: State, es: seq<Event>, ch: ChanId, error: Error, thenClose: bool)
    requires Inv(s) && StreamDue(s.hub, ch, error, thenClose)
    ensures var u := Run(s, es).hub;
      StreamDue(u, ch, error, thenClose) && (StreamRank(u, ch) == 0 || StreamRank(u, ch) + Steps(es, PayStream(ch)) <= StreamRank(s.hub, ch))
    decreases es
  {
    if es != [] {
      assert P.Inv(s.hub);
      ApplyKeeps(s, es[0]);
      hide Inv, P.Inv, StreamDue, StreamRank, Apply;
      StepDue(s, es[0], ch, error, thenClose);
      RunDue(Apply(s, es[0]), es[1..], ch, error, thenClose);
    }
  }

  /** Nothing is owed to the stream any more: the error is the last value it was sent, is
      still to be received or was received last, and a stopped receiver's stream is closed. */
  ghost predicate Paid(h: I.Hub, ch: ChanId, error: Error, thenClose: bool) {
    && ch in h.streams && ch !in h.streamDebts && LastIs(h.streams[ch].chan, error) && (thenClose ==> h.streams[ch].chan.closed)
    && var seen := h.streams[ch].chan.taken + h.streams[ch].chan.buf;
       seen != [] && seen[|seen| - 1] == I.Err(error)
  }

  /** Whatever else happens, the error owed to a stream stays owed until it is sent, and
      after at most four steps of the goroutine that owes it, it is paid. */
  lemma StreamGetsItsError(hasConn: bool, before: seq<Event>, ch: ChanId, after: seq<Event>)
    requires ch in Run(Init(hasConn), before).hub.streamDebts
    requires Run(Init(hasConn), before).hub.streamDebts[ch].stage == I.Try
    ensures var d, h := Run(Init(hasConn), before).hub.streamDebts[ch], Run(Init(hasConn), before + after).hub;
      && StreamDue(h, ch, d.error, d.thenClose)
      && (Steps(after, PayStream(ch)) >= 4 ==> Paid(h, ch, d.error, d.thenClose))
  {
    hide Run, Inv, R.Inv, P.Inv, StreamDue, Steps, Paid;
    RunAppend(Init(hasConn), before, after);
    Reached(hasConn, before);
    FromHereOn(Run(Init(hasConn), before), ch, after);
  }

  lemma FromHereOn(s: State, ch: ChanId, after: seq<Event>)
    requires Inv(s) && ch in s.hub.streamDebts && s.hub.streamDebts[ch].stage == I.Try
    ensures var d, h := s.hub.streamDebts[ch], Run(s, after).hub;
      StreamDue(h, ch, d.error, d.thenClose) && (Steps(after, PayStream(ch)) >= 4 ==> Paid(h, ch, d.error, d.thenClose))
  {
    var d := s.hub.streamDebts[ch];
    assert P.Inv(s.hub);
    RunKeeps(s, after);
    assert P.Inv(Run(s, after).hub);
    hide Run, Inv, P.Inv, StreamDue, StreamRank, Steps, Paid;
    OwedKnown(s.hub, ch);
    TryIsDue(s.hub, ch);
    RunDue(s, after, ch, d.error, d.thenClose);
    if Steps(after, PayStream(ch)) >= 4 { DueIsPaid(Run(s, after).hub, ch, d.error, d.thenClose); }
  }

  lemma TryIsDue(h: I.Hub, ch: ChanId)
    requires ch in h.streamDebts && ch in h.streams && h.streamDebts[ch].stage == I.Try
    ensures StreamDue(h, ch, h.streamDebts[ch].error, h.streamDebts[ch].thenClose) && StreamRank(h, ch) == 4
  {
  }

  lemma DueIsPaid(h: I.Hub, ch: ChanId, error: Error, thenClose: bool)
    requires P.Inv(h) && StreamDue(h, ch, error, thenClose) && StreamRank(h, ch) == 0
    ensures Paid(h, ch, error, thenClose)
  {
    P.StreamAlone(h, ch);
    hide P.Inv, DropOldest, P.Arrivals;
  }

  // ---- the same for calls ----

  /** The error is on its way to the call: still owed, or the one value its slot was sent,
      and then, if the debt said so, the slot is closed. */
  ghost predicate CallDue(h: I.Hub, ch: ChanId, error: Error, thenClose: bool) {
    ch in h.calls &&
    var c := h.calls[ch].slot;
    if ch in h.callDebts then
      var d := h.callDebts[ch];
      d.error == error && d.thenClose == thenClose && (d.done ==> c.sent == [I.Err(error)])
    else c.sent == [I.Err(error)] && (thenClose ==> c.closed)
  }

  function CallRank(h: I.Hub, ch: ChanId): nat {
    if ch !in h.callDebts then 0 else if h.callDebts[ch].done then 1 else 2
  }

  ghost predicate CallNearer(h: I.Hub, u: I.Hub, ch: ChanId, error: Error, thenClose: bool, paid: bool) {
    && CallDue(u, ch, error, thenClose) && CallRank(u, ch) <= CallRank(h, ch)
    && (paid && CallRank(h, ch) > 0 ==> CallRank(u, ch) < CallRank(h, ch))
  }

  lemma CallAsNear(h: I.Hub, u: I.Hub, ch: ChanId, error: Error, thenClose: bool, paid: bool)
    requires CallDue(h, ch, error, thenClose) && ch in u.calls
    requires u.calls[ch].slot.sent == h.calls[ch].slot.sent && u.calls[ch].slot.closed == h.calls[ch].slot.closed
    requires I.Debt(u.callDebts, ch) == I.Debt(h.callDebts, ch)
    requires paid ==> ch !in h.callDebts
    ensures CallNearer(h, u, ch, error, thenClose, paid)
  {
  }

  /** A call that is owed or was sent its error is in no line. */
  lemma CallDueAlone(h: I.Hub, ch: ChanId, error: Error, thenClose: bool)
    requires P.Inv(h) && CallDue(h, ch, error, thenClose)
    ensures ch !in InLine(h) && ch < h.nextCall
  {
    if ch in InLine(h) { InLineUnsent(h, ch); }
    hide P.QueuesOk, P.StreamsOk, P.CallAt, P.ListOk;
  }

  lemma InLineUnsent(h: I.Hub, ch: ChanId)
    requires P.Inv(h) && ch in InLine(h)
    ensures ch in h.calls && ch !in h.callDebts && h.calls[ch].slot.sent == []
  {
    var k, i :| k in h.waiters && 0 <= i < |h.waiters[k]| && h.waiters[k][i].ch == ch;
    hide P.QueuesOk, P.StreamsOk;
    assert P.ListOk(h.calls, k, h.waiters[k]) && h.waiters[k][i] in h.waiters[k];
    assert P.CallAt(h.calls, h.waiters, h.callDebts, ch);
  }

  lemma PaysCall(c: I.Call, listed: bool, d: I.CallDebt)
    requires P.CallOk(c, listed, Some(d))
    ensures var (c', d') := I.PayCall(c, d);
      if d.done then c'.slot.sent == c.slot.sent && c'.slot.closed && d' == None
      else c'.slot.sent == [I.Err(d.error)] && d' == if d.thenClose then Some(d.(done := true)) else None
  {
    assert c.slot.taken + c.slot.buf == [] ==> c.slot.buf == [];
  }

  lemma SteppedCallDue(h: I.Hub, u: I.Hub, ch: ChanId, error: Error, thenClose: bool)
    requires CallDue(h, ch, error, thenClose) && ch in h.callDebts && ch in u.calls
    requires var d, d' := h.callDebts[ch], I.Debt(u.callDebts, ch);
      if d.done then u.calls[ch].slot.sent == h.calls[ch].slot.sent && u.calls[ch].slot.closed && d' == None
      else u.calls[ch].slot.sent == [I.Err(d.error)] && d' == if d.thenClose then Some(d.(done := true)) else None
    ensures CallNearer(h, u, ch, error, thenClose, true)
  {
  }

  lemma PayCallDue(h: I.Hub, ch: ChanId, error: Error, thenClose: bool)
    requires P.Inv(h) && CallDue(h, ch, error, thenClose) && ch in h.callDebts
    ensures CallNearer(h, I.StepCallDebt(h, ch), ch, error, thenClose, true)
  {
    assert ch in h.calls;
    P.CallAlone(h, ch);
    PaysCall(h.calls[ch], I.Listed(h.waiters, ch, h.calls[ch]), h.callDebts[ch]);
    hide P.Inv, P.CallOk, I.PayCall, I.Listed, CallDue, CallNearer;
    SteppedCallDue(h, I.StepCallDebt(h, ch), ch, error, thenClose);
  }

  lemma OtherPaysCall(h: I.Hub, c: ChanId, ch: ChanId)
    requires c != ch && ch in h.calls && c in h.calls
    ensures c in h.callDebts ==>
      var u := I.StepCallDebt(h, c); ch in u.calls && u.calls[ch] == h.calls[ch] && I.Debt(u.callDebts, ch) == I.Debt(h.callDebts, ch)
  {
    hide I.PayCall;
  }

  /** What waking, polling and cancelling do to slots and debts: a value may be received. */
  ghost predicate SlotsStay(h: I.Hub, u: I.Hub) {
    && u.callDebts == h.callDebts
    && forall c :: c in h.calls ==>
         c in u.calls && u.calls[c].slot.sent == h.calls[c].slot.sent && u.calls[c].slot.closed == h.calls[c].slot.closed
  }

  lemma SlotsStayAsIs(h: I.Hub, u: I.Hub)
    requires u.calls == h.calls && u.callDebts == h.callDebts
    ensures SlotsStay(h, u)
  {
  }

  lemma ReceiveSlots(h: I.Hub, c: ChanId)
    requires c in h.calls
    ensures h.calls[c].phase == I.Blocked ==> SlotsStay(h, I.Wake(h, c))
    ensures h.calls[c].phase == I.Polling ==> SlotsStay(h, I.Poll(h, c))
  {
  }

  lemma CancelSlots(h: I.Hub, c: ChanId)
    requires c in h.calls && h.calls[c].phase == I.Blocked
    ensures SlotsStay(h, I.CancelCall(h, c))
  {
    LeaveSlots(h, c, I.Without(I.At(h.waiters, h.calls[c].key), c));
    hide I.Without, I.Listed, I.LeaveLine, I.GoPolling, SlotsStay, I.At;
  }

  lemma LeaveSlots(h: I.Hub, c: ChanId, left: seq<I.Listener>)
    requires c in h.calls
    ensures SlotsStay(h, I.LeaveLine(h, c, h.calls[c], left)) && SlotsStay(h, I.GoPolling(h, c, h.calls[c]))
  {
    hide I.Store;
  }

  lemma NewCallSlots(h: I.Hub, k: I.Key, owner: Owner)
    requires h.nextCall !in h.calls
    ensures SlotsStay(h, I.Await(h, k, owner))
    ensures I.At(h.queue, k) != [] ==> SlotsStay(h, I.Pop(h, k, owner))
  {
    hide I.Store, I.Max;
  }

  lemma SlotsNear(h: I.Hub, u: I.Hub, ch: ChanId, error: Error, thenClose: bool)
    requires CallDue(h, ch, error, thenClose) && SlotsStay(h, u)
    ensures CallNearer(h, u, ch, error, thenClose, false)
    ensures ch !in h.callDebts ==> CallNearer(h, u, ch, error, thenClose, true)
  {
    CallAsNear(h, u, ch, error, thenClose, false);
    if ch !in h.callDebts { CallAsNear(h, u, ch, error, thenClose, true); }
  }

  lemma HandSlots(h: I.Hub, ind: I.Indication, ch: ChanId)
    requires I.At(h.waiters, ind.key) != [] && I.At(h.waiters, ind.key)[0].ch != ch && ch in h.calls
    ensures var u := I.Hand(h, ind); ch in u.calls && u.calls[ch] == h.calls[ch] && u.callDebts == h.callDebts
  {
    hide I.SendIfRoom, I.Store, I.Max;
  }

  lemma FanCalls(h: I.Hub, ind: I.Indication, env: map<ChanId, I.Meanwhile>)
    ensures var u := I.Fan(h, ind, env); u.calls == h.calls && u.callDebts == h.callDebts && u.waiters == h.waiters
    ensures var u := I.Enqueue(h, ind); u.calls == h.calls && u.callDebts == h.callDebts
  {
    hide I.LastQueued;
  }

  lemma PublishCallNear(h: I.Hub, ind: I.Indication, env: map<ChanId, I.Meanwhile>, ch: ChanId, error: Error, thenClose: bool)
    requires CallDue(h, ch, error, thenClose) && ch !in InLine(h)
    ensures CallNearer(h, I.Publish(h, ind, env), ch, error, thenClose, false)
  {
    assert ch in h.calls;
    assert I.At(h.waiters, ind.key) != [] ==> I.At(h.waiters, ind.key)[0].ch in InLine(h);
    FanCalls(h, ind, env);
    hide CallDue, CallNearer, InLine, I.Fan, I.Enqueue, I.Hand, I.At;
    var f := I.Fan(h, ind, env);
    if I.At(h.waiters, ind.key) != [] {
      HandSlots(f, ind, ch);
    }
    CallAsNear(h, I.Publish(h, ind, env), ch, error, thenClose, false);
  }

  lemma OtherHub(h: I.Hub, e: Event)
    requires !e.Publish? && !e.PayCall?
    ensures SlotsStay(h, ApplyHub(h, e))
  {
    SlotsStayAsIs(h, h);
    match e
    case Wake(ch) => if InPhase(h, ch, I.Blocked) { ReceiveSlots(h, ch); } hide SlotsStay, I.Wake;
    case Poll(ch) => if InPhase(h, ch, I.Polling) { ReceiveSlots(h, ch); } hide SlotsStay, I.Poll;
    case Cancel(ch) => if InPhase(h, ch, I.Blocked) { CancelSlots(h, ch); } hide SlotsStay, I.CancelCall;
    case Unsubscribe(k, ch) => SlotsStayAsIs(h, I.Unsubscribe(h, k, ch)); hide SlotsStay;
    case TakeStream(ch) => if ch in h.streams { SlotsStayAsIs(h, I.TakeStream(h, ch)); } hide SlotsStay, I.TakeStream;
    case PayStream(ch) => StreamStepCalls(h, ch); hide SlotsStay, I.StepStreamDebt;
    case ClearQueues => SlotsStayAsIs(h, I.ClearQueues(h)); hide SlotsStay;
    case _ => hide SlotsStay;
  }

  lemma StreamStepCalls(h: I.Hub, ch: ChanId)
    ensures ch in h.streamDebts && ch in h.streams ==> SlotsStay(h, I.StepStreamDebt(h, ch))
  {
    hide I.PayStream, I.SetDebt;
  }

  lemma HubCallSteps(h: I.Hub, e: Event)
    ensures e.Publish? ==> ApplyHub(h, e) == I.Publish(h, e.indication, e.env)
    ensures e.PayCall? ==> ApplyHub(h, e) == if e.ch in h.callDebts && e.ch in h.calls then I.StepCallDebt(h, e.ch) else h
  {
    hide I.Publish, I.StepCallDebt;
  }

  lemma HubCallDue(h: I.Hub, e: Event, ch: ChanId, error: Error, thenClose: bool)
    requires P.Inv(h) && CallDue(h, ch, error, thenClose) && ch !in InLine(h)
    ensures CallNearer(h, ApplyHub(h, e), ch, error, thenClose, e == PayCall(ch))
  {
    assert ch in h.calls;
    HubCallSteps(h, e);
    SlotsStayAsIs(h, h);
    hide P.Inv, CallDue, CallNearer, InLine, SlotsStay, ApplyHub, I.Publish, I.StepCallDebt;
    SlotsNear(h, h, ch, error, thenClose);
    if e.Publish? {
      PublishCallNear(h, e.indication, e.env, ch, error, thenClose);
    } else if e.PayCall? {
      if e.ch in h.callDebts && e.ch in h.calls {
        if e.ch == ch {
          PayCallDue(h, ch, error, thenClose);
        } else {
          OtherPaysCall(h, e.ch, ch);
          CallAsNear(h, I.StepCallDebt(h, e.ch), ch, error, thenClose, false);
        }
      }
    } else {
      OtherHub(h, e);
      SlotsNear(h, ApplyHub(h, e), ch, error, thenClose);
    }
  }

  lemma EvictCallNear(h: I.Hub, u: I.Hub, more: set<ChanId>, d: I.CallDebt, ch: ChanId, error: Error, thenClose: bool)
    requires CallDue(h, ch, error, thenClose) && ch !in more
    requires u.calls == h.calls && u.callDebts == h.callDebts + Fill(more, d)
    ensures CallNearer(h, u, ch, error, thenClose, false)
  {
    CallAsNear(h, u, ch, error, thenClose, false);
  }

  lemma StopCallNear(h: I.Hub, err: Error, ch: ChanId, error: Error, thenClose: bool)
    requires CallDue(h, ch, error, thenClose) && ch !in InLine(h)
    ensures CallNearer(h, I.Stop(h, err), ch, error, thenClose, false)
  {
    assert I.AllCalls(h.waiters) == InLine(h);
    hide I.AllStreams, I.AllCalls, Fill, CallDue, CallNearer, InLine;
    EvictCallNear(h, I.Stop(h, err), I.AllCalls(h.waiters), I.CallDebt(err, true, false), ch, error, thenClose);
  }

  lemma LeaseCallNear(h: I.Hub, lease: LeaseId, ch: ChanId, error: Error, thenClose: bool)
    requires CallDue(h, ch, error, thenClose) && ch !in InLine(h)
    ensures CallNearer(h, I.CloseLease(h, lease), ch, error, thenClose, false)
  {
    assert I.OwnedCalls(h.waiters, lease) <= InLine(h);
    hide I.OwnedStreams, I.OwnedCalls, I.KeepWaiters, I.KeepSubscribers, Fill, CallDue, CallNearer, InLine;
    EvictCallNear(h, I.CloseLease(h, lease), I.OwnedCalls(h.waiters, lease), I.CallDebt(LeaseClosed, false, false), ch, error, thenClose);
  }

  lemma NextSlots(s: State, owner: Owner, k: I.Key)
    requires s.hub.nextCall !in s.hub.calls
    ensures SlotsStay(s.hub, ApplyNext(s, owner, k).hub)
  {
    NewCallSlots(s.hub, k, owner);
    SlotsStayAsIs(s.hub, s.hub);
    hide I.Pop, I.Await, Refusal, I.At, LeaseIsClosed, SlotsStay;
  }

  lemma OpenCalls(h: I.Hub, k: I.Key, owner: Owner, error: Error)
    ensures SlotsStay(h, I.Subscribe(h, k, owner)) && SlotsStay(h, I.Drain(h, k, owner, error))
  {
    hide I.Values, I.At, I.Max, I.AddSubscriber;
  }

  lemma SubscribeSlots(s: State, owner: Owner, k: I.Key)
    ensures SlotsStay(s.hub, ApplySubscribe(s, owner, k).hub)
  {
    OpenCalls(s.hub, k, owner, if s.flags.failure.Some? then s.flags.failure.value else ConnNil);
    SlotsStayAsIs(s.hub, s.hub);
    hide I.Subscribe, I.Drain, Refusal, I.At, LeaseIsClosed, SlotsStay;
  }

  lemma OpenSlots(s: State, e: Event)
    requires s.hub.nextCall !in s.hub.calls && (e.Subscribe? || e.Next?)
    ensures SlotsStay(s.hub, Apply(s, e).hub)
  {
    hide ApplySubscribe, ApplyNext, SlotsStay;
    if e.Next? { NextSlots(s, e.owner, e.key); } else { SubscribeSlots(s, e.owner, e.key); }
  }

  lemma FreshCall(h: I.Hub)
    requires P.Inv(h)
    ensures h.nextCall !in h.calls
  {
    hide P.QueuesOk, P.StreamsOk, P.CallAt, P.ListOk;
  }

  lemma StepCallDue(s: State, e: Event, ch: ChanId, error: Error, thenClose: bool)
    requires P.Inv(s.hub) && CallDue(s.hub, ch, error, thenClose)
    ensures CallNearer(s.hub, Apply(s, e).hub, ch, error, thenClose, e == PayCall(ch))
  {
    var h := s.hub;
    CallDueAlone(h, ch, error, thenClose);
    FreshCall(h);
    StepHub(s, e);
    SlotsStayAsIs(h, h);
    hide P.Inv, InLine, CallDue, CallNearer, Apply, I.Stop, I.CloseLease, ApplyHub, SlotsStay;
    SlotsNear(h, h, ch, error, thenClose);
    if e.StopReceiver? {
      StopCallNear(h, e.error, ch, error, thenClose);
    } else if e.Sweep? {
      LeaseCallNear(h, e.lease, ch, error, thenClose);
    } else if e.Subscribe? || e.Next? {
      OpenSlots(s, e);
      SlotsNear(h, Apply(s, e).hub, ch, error, thenClose);
    } else {
      HubCallDue(h, e, ch, error, thenClose);
    }
  }

  lemma {:induction false} RunCallDue(s: State, es: seq<Event>, ch: ChanId, error: Error, thenClose: bool)
    requires Inv(s) && CallDue(s.hub, ch, error, thenClose)
    ensures var u := Run(s, es).hub;
      CallDue(u, ch, error, thenClose) && (CallRank(u, ch) == 0 || CallRank(u, ch) + Steps(es, PayCall(ch)) <= CallRank(s.hub, ch))
    decreases es
  {
    if es != [] {
      assert P.Inv(s.hub);
      ApplyKeeps(s, es[0]);
      hide Inv, P.Inv, CallDue, CallRank, Apply;
      StepCallDue(s, es[0], ch, error, thenClose);
      RunCallDue(Apply(s, es[0]), es[1..], ch, error, thenClose);
    }
  }

  /** Whatever else happens, the error owed to a call stays owed until it is sent; after at
      most two steps of the goroutine that owes it, it is the one value its slot was ever
      sent, and the slot of a stopped receiver is closed. */
  lemma CallGetsItsError(hasConn: bool, before: seq<Event>, ch: ChanId, after: seq<Event>)
    requires ch in Run(Init(hasConn), before).hub.callDebts && !Run(Init(hasConn), before).hub.callDebts[ch].done
    ensures var d, h := Run(Init(hasConn), before).hub.callDebts[ch], Run(Init(hasConn), before + after).hub;
      && CallDue(h, ch, d.error, d.thenClose)
      && (Steps(after, PayCall(ch)) >= 2 ==>
            ch in h.calls && ch !in h.callDebts && h.calls[ch].slot.sent == [I.Err(d.error)] && (d.thenClose ==> h.calls[ch].slot.closed))
  {
    var s := Run(Init(hasConn), before);
    var d := s.hub.callDebts[ch];
    hide Inv, R.Inv, P.Inv, Apply, CallDue, CallRank, Steps;
    RunAppend(Init(hasConn), before, after);
    hide Run;
    Reached(hasConn, before);
    CallOwed(s.hub, ch);
    RunCallDue(s, after, ch, d.error, d.thenClose);
    if Steps(after, PayCall(ch)) >= 2 { CallPaid(Run(s, after).hub, ch, d.error, d.thenClose); }
  }

  lemma CallOwed(h: I.Hub, ch: ChanId)
    requires P.Inv(h) && ch in h.callDebts && !h.callDebts[ch].done
    ensures CallDue(h, ch, h.callDebts[ch].error, h.callDebts[ch].thenClose) && CallRank(h, ch) == 2
  {
    hide P.QueuesOk, P.StreamsOk, P.CallAt, P.ListOk;
  }

  lemma CallPaid(h: I.Hub, ch: ChanId, error: Error, thenClose: bool)
    requires CallDue(h, ch, error, thenClose) && CallRank(h, ch) == 0
    ensures ch in h.calls && ch !in h.callDebts && h.calls[ch].slot.sent == [I.Err(error)] && (thenClose ==> h.calls[ch].slot.closed)
  {
  }
}
