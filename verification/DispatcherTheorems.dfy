/** What the dispatcher promises, stated over all runs from the initial state. */
module DispatcherTheorems {
  import opened Bytes
  import opened Channels
  import opened Dispatcher
  import opened DispatcherProofs
  import R = Responses
  import I = Indications
  import P = IndicationProofs
  import O = IndicationOrder

  lemma Reached(hasConn: bool, es: seq<Event>)
    ensures var s := Run(Init(hasConn), es); Inv(s) && R.Inv(s.table) && P.Inv(s.hub)
  {
    hide R.Inv, P.Inv, Gone;
    InitInv(hasConn);
    RunKeeps(Init(hasConn), es);
  }

  lemma {:induction false} RunAppend(s: State, a: seq<Event>, b: seq<Event>)
    ensures Run(s, a + b) == Run(Run(s, a), b)
    decreases a
  {
    hide Apply;
    if a == [] {
      assert a + b == b;
    } else {
      assert (a + b)[1..] == a[1..] + b;
      RunAppend(Apply(s, a[0]), a[1..], b);
    }
  }

  function Count(b: bool): nat { if b then 1 else 0 }

  /** A message of this type is an answer for the waiter: it has the type the waiter
      expects or reports a function error, and a command-done message whose header fits,
      for a waiter that expects a command, names that service and command. */
  ghost predicate Answers(w: R.Waiter, messageType: int, data: bytes) {
    && (messageType == w.messageType || messageType == 0x8000_0004)
    && (messageType == 0x8000_0003 && w.expectCommand && |data| >= 48
        && Get32(data, 0) == 0x8000_0003 && Get32(data, 4) == |data| % 0x1_0000_0000 ==>
          data[20..36] == w.serviceID && Get32(data, 36) == w.commandID)
  }

  lemma AnswersIff(w: R.Waiter, messageType: int, data: bytes)
    ensures R.Matches(w, messageType, data) <==> Answers(w, messageType, data)
  {
    hide Get32;
  }

  /** In every reachable state exactly one party accounts for each response waiter:
      the pending table, one goroutine that owes it a result, its own caller that
      withdrew it, or the single result its channel was sent. That result, if it is
      data, is one the waiter asked for. */
  lemma OnePartyPerWaiter(hasConn: bool, es: seq<Event>, ch: ChanId)
    requires ch in Run(Init(hasConn), es).table.made
    ensures var t := Run(Init(hasConn), es).table;
      && ch in t.slots && |t.slots[ch].sent| <= 1
      && Count(R.Waiting(t.pending, t.made[ch])) + Count(ch in t.owed) + Count(ch in t.withdrawn) + |t.slots[ch].sent| == 1
      && (forall r :: r in t.slots[ch].sent && r.Data? ==> Answers(t.made[ch].waiter, r.messageType, r.data))
  {
    Reached(hasConn, es);
    hide Run, Inv, P.Inv;
    var t := Run(Init(hasConn), es).table;
    assert R.SlotAt(t, ch);
    forall r | r in t.slots[ch].sent && r.Data? ensures Answers(t.made[ch].waiter, r.messageType, r.data) {
      AnswersIff(t.made[ch].waiter, r.messageType, r.data);
    }
  }

  /** No goroutine that owes a response, and none that owes a caller or a stream its
      error, can block or send on a closed channel; nor can the sends made while the
      mutex is held, to the first waiter of a key and into a new stream. */
  lemma NoSendBlocks(hasConn: bool, es: seq<Event>)
    ensures var s := Run(Init(hasConn), es);
      && (forall ch :: ch in s.table.owed ==> ch in s.table.slots && CanSend(s.table.slots[ch]))
      && (forall ch :: ch in s.hub.callDebts ==>
            ch in s.hub.calls && (s.hub.callDebts[ch].done || CanSend(s.hub.calls[ch].slot)))
      && (forall ch :: ch in s.hub.streamDebts ==>
            ch in s.hub.streams && !s.hub.streams[ch].chan.closed
            && (s.hub.streamDebts[ch].stage == I.Retry ==> CanSend(s.hub.streams[ch].chan)))
      && (forall k, i :: k in s.hub.waiters && 0 <= i < |s.hub.waiters[k]| ==>
            s.hub.waiters[k][i].ch in s.hub.calls && CanSend(s.hub.calls[s.hub.waiters[k][i].ch].slot))
      && (forall k, c :: P.Has(s.hub.subs, k, c) ==> c in s.hub.streams && !s.hub.streams[c].chan.closed)
      && (forall k :: |I.At(s.hub.queue, k)| <= I.MAX_QUEUED)
  {
    Reached(hasConn, es);
    hide Run, Inv;
    var s := Run(Init(hasConn), es);
    forall ch | ch in s.table.owed ensures ch in s.table.slots && CanSend(s.table.slots[ch]) {
      hide P.Inv;
      R.SendOwedKeeps(s.table, ch);
    }
    hide R.Inv;
    HubSends(s.hub);
  }

  lemma HubSends(h: I.Hub)
    requires P.Inv(h)
    ensures forall ch :: ch in h.callDebts ==> ch in h.calls && (h.callDebts[ch].done || CanSend(h.calls[ch].slot))
    ensures forall ch :: ch in h.streamDebts ==>
              ch in h.streams && !h.streams[ch].chan.closed
              && (h.streamDebts[ch].stage == I.Retry ==> CanSend(h.streams[ch].chan))
    ensures forall k, i :: k in h.waiters && 0 <= i < |h.waiters[k]| ==>
              h.waiters[k][i].ch in h.calls && CanSend(h.calls[h.waiters[k][i].ch].slot)
    ensures forall k, c :: P.Has(h.subs, k, c) ==> c in h.streams && !h.streams[c].chan.closed
    ensures forall k :: |I.At(h.queue, k)| <= I.MAX_QUEUED
  {
    forall ch | ch in h.callDebts ensures ch in h.calls && (h.callDebts[ch].done || CanSend(h.calls[ch].slot)) {
      hide P.QueuesOk, P.StreamsOk;
      assert P.CallAt(h.calls, h.waiters, h.callDebts, ch);
    }
    forall ch | ch in h.streamDebts
      ensures ch in h.streams && !h.streams[ch].chan.closed
      ensures h.streamDebts[ch].stage == I.Retry ==> CanSend(h.streams[ch].chan)
    {
      hide P.QueuesOk, P.CallsOk;
      assert P.StreamAt(h.streams, h.subs, h.streamDebts, h.arrived, ch);
    }
    forall k, i | k in h.waiters && 0 <= i < |h.waiters[k]|
      ensures h.waiters[k][i].ch in h.calls && CanSend(h.calls[h.waiters[k][i].ch].slot)
    {
      hide P.QueuesOk, P.StreamsOk;
      assert P.ListOk(h.calls, k, h.waiters[k]) && h.waiters[k][i] in h.waiters[k];
      assert P.CallAt(h.calls, h.waiters, h.callDebts, h.waiters[k][i].ch);
    }
    forall k, c | P.Has(h.subs, k, c) ensures c in h.streams && !h.streams[c].chan.closed {
      hide P.QueuesOk, P.CallsOk;
      assert P.StreamAt(h.streams, h.subs, h.streamDebts, h.arrived, c);
    }
    forall k ensures |I.At(h.queue, k)| <= I.MAX_QUEUED {
      hide P.CallsOk, P.StreamsOk;
      assert P.QueueAt(h.queue, h.arrived, h.handed, h.waiters.Keys + h.subs.Keys, k);
    }
  }

  /** Unregistering with the channel of one registration takes out that registration
      or nothing: never a later one that reuses the transaction ID. */
  lemma UnregisterTakesOwn(hasConn: bool, es: seq<Event>, ch: ChanId)
    requires ch in Run(Init(hasConn), es).table.made
    ensures var t := Run(Init(hasConn), es).table;
      var txn := t.made[ch].txn;
      var u := Apply(Run(Init(hasConn), es), Unregister(txn, ch)).table;
      && !R.Waiting(u.pending, t.made[ch]) && u.owed == t.owed && u.slots == t.slots
      && (forall c :: c in t.made && c != ch ==> (R.Waiting(u.pending, t.made[c]) <==> R.Waiting(t.pending, t.made[c])))
  {
    Reached(hasConn, es);
    hide Run, Inv, P.Inv, R.SlotAt;
    var t := Run(Init(hasConn), es).table;
    assert t.made[ch].waiter.ch == ch;
  }

  lemma {:induction false} FailureSticks(s: State, es: seq<Event>)
    requires s.flags.failure.Some?
    ensures Run(s, es).flags.failure == s.flags.failure
    decreases es
  {
    if es != [] {
      FailureStep(s, es[0]);
      hide Apply;
      FailureSticks(Apply(s, es[0]), es[1..]);
    }
  }

  lemma FailureStep(s: State, e: Event)
    requires s.flags.failure.Some?
    ensures Apply(s, e).flags.failure == s.flags.failure
  {
    hide ApplyTable, ApplyHub;
  }

  /** Once the receiver has failed, its error never changes and no response waiter,
      indication waiter or subscriber is ever registered again. */
  lemma StoppedForever(hasConn: bool, before: seq<Event>, after: seq<Event>)
    requires Run(Init(hasConn), before).flags.failure.Some?
    ensures var t := Run(Init(hasConn), before + after);
      && t.flags.failure == Run(Init(hasConn), before).flags.failure
      && t.table.pending == map[] && t.hub.waiters == map[] && t.hub.subs == map[]
  {
    hide Apply;
    RunAppend(Init(hasConn), before, after);
    FailureSticks(Run(Init(hasConn), before), after);
    Reached(hasConn, before + after);
    hide Run, R.Inv, P.Inv, Gone;
  }

  lemma {:induction false} SweptSticks(s: State, es: seq<Event>, lease: LeaseId)
    requires lease in s.swept
    ensures lease in Run(s, es).swept
    decreases es
  {
    if es != [] {
      SweptStep(s, es[0], lease);
      hide Apply;
      SweptSticks(Apply(s, es[0]), es[1..], lease);
    }
  }

  lemma SweptStep(s: State, e: Event, lease: LeaseId)
    requires lease in s.swept
    ensures lease in Apply(s, e).swept
  {
    hide ApplyTable, ApplyHub;
  }

  /** After the critical section of closeLease nothing that belongs to the lease is
      registered, in any later state, although its flag is set outside the mutex. */
  lemma SweptForever(hasConn: bool, before: seq<Event>, lease: LeaseId, after: seq<Event>)
    requires lease in Run(Init(hasConn), before).sweeping
    ensures Gone(Run(Init(hasConn), before + [Sweep(lease)] + after), lease)
  {
    var s := Run(Init(hasConn), before);
    RunAppend(Init(hasConn), before, [Sweep(lease)]);
    assert Run(s, [Sweep(lease)]) == Apply(s, Sweep(lease)) by {
      assert [Sweep(lease)][1..] == [];
      assert Run(Apply(s, Sweep(lease)), []) == Apply(s, Sweep(lease));
    }
    assert lease in Apply(s, Sweep(lease)).swept;
    hide Apply;
    RunAppend(Init(hasConn), before + [Sweep(lease)], after);
    SweptSticks(Apply(s, Sweep(lease)), after, lease);
    Reached(hasConn, before + [Sweep(lease)] + after);
    hide Run, R.Inv, P.Inv, Gone;
  }

  /** closeLease takes from the shared state exactly what belongs to its lease, keeps
      the order of the waiters that stay, and owes an error to each one it took. */
  lemma SweepFrame(hasConn: bool, es: seq<Event>, lease: LeaseId)
    requires lease in Run(Init(hasConn), es).sweeping
    ensures var s := Run(Init(hasConn), es);
      var u := Apply(s, Sweep(lease));
      && (forall txn :: txn in u.table.pending <==> txn in s.table.pending && s.table.pending[txn].owner != Some(lease))
      && (forall txn :: txn in u.table.pending ==> u.table.pending[txn] == s.table.pending[txn])
      && (forall txn :: txn in s.table.pending && s.table.pending[txn].owner == Some(lease) ==>
            s.table.pending[txn].ch in u.table.owed && u.table.owed[s.table.pending[txn].ch] == R.Failed(LeaseClosed))
      && (forall k :: I.At(u.hub.waiters, k) == I.NotOwnedBy(I.At(s.hub.waiters, k), lease))
      && (forall k, c :: P.Has(u.hub.subs, k, c) <==> P.Has(s.hub.subs, k, c) && !I.OwnedBy(s.hub.streams, c, lease))
      && u.flags == s.flags && u.hub.queue == s.hub.queue && u.hub.streams == s.hub.streams && u.hub.calls == s.hub.calls
  {
    hide Run, I.CloseLease, R.CloseLease, I.NotOwnedBy, I.OwnedBy, P.Has, I.At;
    var s := Run(Init(hasConn), es);
    EvictedLease(s.table, lease);
    EvictedOwed(s.table, lease);
    SweptListeners(s.hub, lease);
  }

  lemma EvictedOwed(t: R.Table, lease: LeaseId)
    ensures forall txn :: txn in t.pending && t.pending[txn].owner == Some(lease) ==>
      t.pending[txn].ch in R.CloseLease(t, lease).owed && R.CloseLease(t, lease).owed[t.pending[txn].ch] == R.Failed(LeaseClosed)
  {
  }

  /** The indication went to the back of the queue of its key and nowhere else. */
  ghost predicate Queued(h: I.Hub, u: I.Hub, ind: I.Indication) {
    && u.queue == h.queue[ind.key := I.LastQueued(I.At(h.queue, ind.key) + [ind])]
    && u.calls == h.calls && u.streams == h.streams && u.waiters == h.waiters
  }

  /** Every subscriber of the key was sent the indication. */
  ghost predicate Streamed(h: I.Hub, u: I.Hub, ind: I.Indication) {
    forall c :: P.Has(h.subs, ind.key, c) ==>
      c in h.streams && c in u.streams && u.streams[c].chan.sent == h.streams[c].chan.sent + [I.Value(ind)]
  }

  /** The first waiter of the key, if there is one, has the indication and left the line. */
  ghost predicate Handed(h: I.Hub, u: I.Hub, ind: I.Indication) {
    var s := I.At(h.waiters, ind.key);
    && I.At(u.waiters, ind.key) == (if s == [] then [] else s[1..])
    && (s != [] ==> s[0].ch in u.calls && u.calls[s[0].ch].slot.buf == [I.Value(ind)])
  }

  /** An indication is queued exactly when its key has neither a waiter nor a
      subscriber; otherwise every subscriber is sent it, the first waiter in line gets
      it and leaves the line, and the queue of the key, which is empty, stays so. */
  lemma QueuedIffNobodyListens(hasConn: bool, es: seq<Event>, ind: I.Indication, env: map<ChanId, I.Meanwhile>)
    ensures var h := Run(Init(hasConn), es).hub;
      var u := Apply(Run(Init(hasConn), es), Publish(ind, env)).hub;
      if ind.key !in h.waiters && ind.key !in h.subs then Queued(h, u, ind)
      else Streamed(h, u, ind) && Handed(h, u, ind) && u.queue == h.queue && ind.key !in u.queue
  {
    Reached(hasConn, es);
    hide Run, Inv, R.Inv, P.Inv, Queued, Streamed, Handed;
    var h := Run(Init(hasConn), es).hub;
    P.NobodyListens(h, ind.key);
    if ind.key !in h.waiters && ind.key !in h.subs {
      Enqueued(h, ind);
    } else {
      QuietKey(h, ind.key);
      FanStreamed(h, ind, env);
      if ind.key in h.waiters {
        HandedOn(h, ind, env);
      } else {
        NobodyWaits(h, I.Fan(h, ind, env), ind);
      }
    }
  }

  lemma Enqueued(h: I.Hub, ind: I.Indication)
    ensures Queued(h, I.Enqueue(h, ind), ind)
  {
  }

  lemma NobodyWaits(h: I.Hub, u: I.Hub, ind: I.Indication)
    requires ind.key !in h.waiters && u.waiters == h.waiters
    ensures Handed(h, u, ind)
  {
  }

  lemma FanStreamed(h: I.Hub, ind: I.Indication, env: map<ChanId, I.Meanwhile>)
    requires P.Inv(h)
    ensures Streamed(h, I.Fan(h, ind, env), ind)
    ensures I.At(h.waiters, ind.key) != [] ==> Streamed(h, I.Hand(I.Fan(h, ind, env), ind), ind)
  {
    hide P.Inv, I.DeliverWatch, I.Pace;
    forall c | P.Has(h.subs, ind.key, c)
      ensures c in h.streams && I.Fan(h, ind, env).streams[c].chan.sent == h.streams[c].chan.sent + [I.Value(ind)]
    {
      GivenToStream(h, ind, env, c);
    }
  }

  lemma HandedOn(h: I.Hub, ind: I.Indication, env: map<ChanId, I.Meanwhile>)
    requires P.Inv(h) && ind.key in h.waiters
    ensures |h.waiters[ind.key]| > 0 && Handed(h, I.Hand(I.Fan(h, ind, env), ind), ind)
  {
    hide P.Inv, I.DeliverWatch, I.Pace, I.SendIfRoom;
    GivenToWaiter(h, ind.key, ind);
  }

  lemma QuietKey(h: I.Hub, k: I.Key)
    requires P.Inv(h) && (k in h.waiters || k in h.subs)
    ensures k !in h.queue
  {
    hide P.CallsOk, P.StreamsOk;
    assert P.QueueAt(h.queue, h.arrived, h.handed, h.waiters.Keys + h.subs.Keys, k);
  }

  lemma GivenToStream(h: I.Hub, ind: I.Indication, env: map<ChanId, I.Meanwhile>, c: ChanId)
    requires P.Inv(h) && P.Has(h.subs, ind.key, c)
    ensures c in h.streams && I.DeliverWatch(h.streams[c].chan, I.Value(ind), I.Pace(env, c)).sent == h.streams[c].chan.sent + [I.Value(ind)]
  {
    hide P.QueuesOk, P.CallsOk, I.DeliverWatch, I.Pace;
    assert P.StreamAt(h.streams, h.subs, h.streamDebts, h.arrived, c);
    P.DeliverKeeps(h.streams[c].chan, ind, I.Pace(env, c));
  }

  lemma GivenToWaiter(h: I.Hub, k: I.Key, ind: I.Indication)
    requires P.Inv(h) && k in h.waiters
    ensures |h.waiters[k]| > 0
    ensures var ch := h.waiters[k][0].ch;
      ch in h.calls && I.SendIfRoom(h.calls[ch].slot, I.Value(ind)).buf == [I.Value(ind)]
  {
    hide P.QueuesOk, P.StreamsOk;
    assert P.ListOk(h.calls, k, h.waiters[k]) && h.waiters[k][0] in h.waiters[k];
    assert P.CallAt(h.calls, h.waiters, h.callDebts, h.waiters[k][0].ch);
  }

  lemma HubExits(h: I.Hub, e: Event)
    requires P.Inv(h) && O.Exits(h)
    ensures O.Exits(ApplyHub(h, e))
  {
    hide P.Inv, O.Exits, I.StepCallDebt, I.Wake, I.Poll, I.CancelCall, I.Publish, I.StepStreamDebt, I.TakeStream, I.Unsubscribe;
    match e
    case Wake(ch) => if InPhase(h, ch, I.Blocked) { O.CallStepExits(h, ch); }
    case Cancel(ch) => if InPhase(h, ch, I.Blocked) { O.CancelExits(h, ch); }
    case Poll(ch) => if InPhase(h, ch, I.Polling) { O.CallStepExits(h, ch); }
    case PayCall(ch) => if ch in h.callDebts && ch in h.calls { O.CallStepExits(h, ch); }
    case Publish(ind, env) => O.PublishExits(h, ind, env);
    case _ => QuietExits(h, e);
  }

  lemma QuietExits(h: I.Hub, e: Event)
    requires O.Exits(h)
    requires !e.Wake? && !e.Cancel? && !e.Poll? && !e.PayCall? && !e.Publish?
    ensures O.Exits(ApplyHub(h, e))
  {
    hide O.Exits, I.PayStream, I.SetDebt;
    SameExits(h, ApplyHub(h, e));
  }

  lemma SameExits(h: I.Hub, u: I.Hub)
    requires O.Exits(h) && u.calls == h.calls && u.arrived == h.arrived && u.handed == h.handed && u.takers == h.takers
    ensures O.Exits(u)
  {
    hide O.Exits;
    O.ArrivedExits(h, u, I.Indication(I.Key([], 0), []));
  }

  lemma StepExits(s: State, e: Event)
    requires Inv(s) && O.Exits(s.hub)
    ensures O.Exits(Apply(s, e).hub)
  {
    hide R.Inv, P.Inv, O.Exits, I.Pop, I.Await, ApplyHub, ApplyTable, Refusal, Gone;
    match e
    case Next(owner, k) =>
      O.FreshCall(s.hub);
      if I.At(s.hub.queue, k) != [] { O.PopExits(s.hub, k, owner); }
      O.AwaitExits(s.hub, k, owner);
    case Subscribe(owner, k) => SubscribeExits(s, owner, k);
    case StopReceiver(error) => SameExits(s.hub, I.Stop(s.hub, error));
    case Sweep(lease) => SameExits(s.hub, I.CloseLease(s.hub, lease));
    case _ => HubExits(s.hub, e);
  }

  lemma SubscribeExits(s: State, owner: Owner, k: I.Key)
    requires O.Exits(s.hub)
    ensures O.Exits(ApplySubscribe(s, owner, k).hub)
  {
    hide O.Exits, Refusal;
    SameExits(s.hub, I.Subscribe(s.hub, k, owner));
    if s.flags.failure.Some? { SameExits(s.hub, I.Drain(s.hub, k, owner, s.flags.failure.value)); }
  }

  lemma {:induction false} RunExits(s: State, es: seq<Event>)
    requires Inv(s) && O.Exits(s.hub)
    ensures O.Exits(Run(s, es).hub)
    decreases es
  {
    hide Inv, O.Exits, Apply;
    if es != [] {
      StepExits(s, es[0]);
      ApplyKeeps(s, es[0]);
      RunExits(Apply(s, es[0]), es[1..]);
    }
  }

  /** Call i of the key to leave with an indication was given the arrival of its number
      and, if it has returned, returned exactly that indication. */
  ghost predicate LeftWith(h: I.Hub, k: I.Key, i: nat)
    requires i < |I.At(h.handed, k)| && |I.At(h.takers, k)| == |I.At(h.handed, k)|
  {
    var ch, n := I.At(h.takers, k)[i], I.At(h.handed, k)[i];
    && ch in h.calls && h.calls[ch].key == k && n < |I.At(h.arrived, k)|
    && h.calls[ch].slot.sent == [I.Value(I.At(h.arrived, k)[n])]
    && (h.calls[ch].phase.Returned? ==> h.calls[ch].phase.result == I.Value(I.At(h.arrived, k)[n]))
  }

  /** The indications that left through NextIndication left in arrival order: the calls
      that were given one, each listed once and none left out, were given arrivals of
      rising number, all of them before what is still queued; the queue is the latest
      arrivals, at most 32. */
  lemma ArrivalOrder(hasConn: bool, es: seq<Event>, k: I.Key)
    ensures var h := Run(Init(hasConn), es).hub;
      var arrived := I.At(h.arrived, k);
      var queue := I.At(h.queue, k);
      var handed := I.At(h.handed, k);
      var takers := I.At(h.takers, k);
      && |takers| == |handed| && (forall i :: 0 <= i < |handed| ==> LeftWith(h, k, i))
      && (forall i, j :: 0 <= i < j < |takers| ==> takers[i] != takers[j])
      && (forall ch :: ch in h.calls && h.calls[ch].key == k && O.Given(h.calls[ch]).Some? ==> ch in takers)
      && (forall i, j :: 0 <= i < j < |handed| ==> handed[i] < handed[j])
      && (forall i :: 0 <= i < |handed| ==> handed[i] + |queue| < |arrived|)
      && SuffixOf(queue, arrived) && |queue| <= 32
      && (queue != [] ==> k !in h.waiters && k !in h.subs)
  {
    Reached(hasConn, es);
    InitInv(hasConn);
    RunExits(Init(hasConn), es);
    hide Run, Inv, R.Inv, P.CallsOk, P.StreamsOk;
    var h := Run(Init(hasConn), es).hub;
    assert P.QueueAt(h.queue, h.arrived, h.handed, h.waiters.Keys + h.subs.Keys, k);
    assert O.KeyExits(h, k);
    hide O.Exits, P.QueuesOk, P.QueueOk;
    forall i | 0 <= i < |I.At(h.handed, k)| ensures LeftWith(h, k, i) {
      ExitLeft(h, k, i);
    }
  }

  lemma ExitLeft(h: I.Hub, k: I.Key, i: nat)
    requires P.Inv(h) && O.KeyExits(h, k) && i < |I.At(h.handed, k)|
    ensures |I.At(h.takers, k)| == |I.At(h.handed, k)| && LeftWith(h, k, i)
  {
    hide P.Inv;
    var ch, n := I.At(h.takers, k)[i], I.At(h.handed, k)[i];
    assert O.Exit(h.calls, I.At(h.arrived, k), k, ch, n);
    P.CallAlone(h, ch);
  }

  /** A NextIndication call that was handed an indication returns that indication,
      even when its context is cancelled at the same moment; it returns no other, and
      until it returns the indication is in its slot. A call that is still blocked is
      in line, owed an error, or has its result waiting. */
  lemma HandedIsReturned(hasConn: bool, es: seq<Event>, ch: ChanId)
    requires ch in Run(Init(hasConn), es).hub.calls
    ensures var h := Run(Init(hasConn), es).hub;
      var c := h.calls[ch];
      && |c.slot.sent| <= 1
      && (c.slot.sent != [] && c.slot.sent[0].Value? ==>
            if c.phase.Returned? then c.phase.result == c.slot.sent[0] else c.slot.buf == c.slot.sent)
      && (c.phase.Returned? && c.phase.result.Value? ==> c.slot.sent == [c.phase.result])
      && (c.phase == I.Blocked ==> I.Listed(h.waiters, ch, c) || ch in h.callDebts || c.slot.buf != [])
  {
    Reached(hasConn, es);
    hide Run, Inv, R.Inv, P.Inv;
    P.CallAlone(Run(Init(hasConn), es).hub, ch);
  }

  /** A stream is a drop-oldest buffer over a contiguous run of its key's arrivals:
      its buffer is the tail of what it was sent, what its consumer received and will
      receive is an in-order selection of it, a subscribed stream has been sent every
      arrival since its start, and an error, once sent, is the last value of all and
      is received last. */
  lemma StreamsDropOldest(hasConn: bool, es: seq<Event>, ch: ChanId)
    requires ch in Run(Init(hasConn), es).hub.streams
    ensures var h := Run(Init(hasConn), es).hub;
      var st := h.streams[ch];
      var c := st.chan;
      var arrived := I.At(h.arrived, st.key);
      && |c.buf| <= c.capacity && SuffixOf(c.buf, c.sent) && Subsequence(c.taken + c.buf, c.sent)
      && P.Arrivals(P.Body(c), arrived, st.start)
      && (P.Has(h.subs, st.key, ch) ==> c.sent == P.Body(c) && st.start + |c.sent| == |arrived|)
      && (c.sent != P.Body(c) ==>
            c.sent[|c.sent| - 1].Err? && c.taken + c.buf != []
            && (c.taken + c.buf)[|c.taken + c.buf| - 1] == c.sent[|c.sent| - 1])
      && (c.closed ==> c.sent != P.Body(c) && !P.Has(h.subs, st.key, ch) && ch !in h.streamDebts)
  {
    Reached(hasConn, es);
    hide Run, Inv, R.Inv, P.Inv, Subsequence, SuffixOf;
    P.StreamAlone(Run(Init(hasConn), es).hub, ch);
  }

  /** Paying what is owed to a stream always ends with the error in its buffer: after
      at most three steps, whatever the consumer takes in between. */
  lemma ErrorLands(hasConn: bool, es: seq<Event>, ch: ChanId, a: nat, b: nat)
    requires ch in Run(Init(hasConn), es).hub.streamDebts
    requires Run(Init(hasConn), es).hub.streamDebts[ch].stage == I.Try
    ensures var s := Run(Init(hasConn), es);
      var e := s.hub.streamDebts[ch].error;
      ch in s.hub.streams &&
      var (st1, d1) := I.PayStream(s.hub.streams[ch], s.hub.streamDebts[ch]);
      if CanSend(s.hub.streams[ch].chan) then SentLast(st1.chan, e)
      else d1.Some? && var (st2, d2) := I.PayStream(st1.(chan := TakeMany(st1.chan, a)), d1.value);
        d2.Some? && var (st3, d3) := I.PayStream(st2.(chan := TakeMany(st2.chan, b)), d2.value);
        SentLast(st3.chan, e)
  {
    Reached(hasConn, es);
    hide Run, Inv, R.Inv, P.Inv;
    var h := Run(Init(hasConn), es).hub;
    OwedKnown(h, ch);
    P.StreamAlone(h, ch);
    Lands(h.streams[ch], I.At(h.arrived, h.streams[ch].key), P.Has(h.subs, h.streams[ch].key, ch), h.streamDebts[ch], a, b);
  }

  lemma Lands(st: I.Stream, arrived: seq<I.Indication>, subscribed: bool, d: I.StreamDebt, a: nat, b: nat)
    requires P.StreamOk(st, arrived, subscribed, Some(d)) && d.stage == I.Try
    ensures var (st1, d1) := I.PayStream(st, d);
      if CanSend(st.chan) then SentLast(st1.chan, d.error)
      else d1.Some? && var (st2, d2) := I.PayStream(st1.(chan := TakeMany(st1.chan, a)), d1.value);
        d2.Some? && var (st3, d3) := I.PayStream(st2.(chan := TakeMany(st2.chan, b)), d2.value);
        SentLast(st3.chan, d.error)
  {
    hide Subsequence, SuffixOf;
    var c := st.chan;
    if !CanSend(c) {
      TakeManyKeeps(c, a);
      DropKeeps(TakeMany(c, a));
      TakeManyKeeps(Drop(TakeMany(c, a)), b);
    }
  }

  lemma OwedKnown(h: I.Hub, ch: ChanId)
    requires P.Inv(h) && ch in h.streamDebts
    ensures ch in h.streams
  {
    hide P.QueuesOk, P.CallsOk, P.StreamAt, P.SubsOk;
  }

  ghost predicate SentLast(c: Chan<I.WatchResult>, e: Error) {
    c.buf != [] && c.buf[|c.buf| - 1] == I.Err(e) && c.sent != [] && c.sent[|c.sent| - 1] == I.Err(e)
  }
}
