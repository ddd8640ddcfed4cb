/** What every step on the indication hub keeps. */
module IndicationProofs {
  import opened Bytes
  import opened Channels
  import opened Indications

  // ---- queues ----

  /** The queue of a key is the tail of its arrivals, and exists only while
      nobody listens; what left through NextIndication left in arrival order. */
  ghost predicate QueueOk(q: seq<Indication>, arrived: seq<Indication>, out: seq<nat>, listened: bool) {
    && |q| <= MAX_QUEUED
    && SuffixOf(q, arrived)
    && (q != [] ==> !listened)
    && (forall i :: 0 <= i < |out| ==> out[i] + |q| < |arrived|)
    && (forall i, j :: 0 <= i < j < |out| ==> out[i] < out[j])
  }

  ghost predicate QueuesOk(queue: map<Key, seq<Indication>>, arrived: map<Key, seq<Indication>>,
                           handed: map<Key, seq<nat>>, listened: set<Key>) {
    && (forall k :: k in queue ==> queue[k] != [])
    && (forall k :: QueueAt(queue, arrived, handed, listened, k))
  }

  ghost predicate QueueAt(queue: map<Key, seq<Indication>>, arrived: map<Key, seq<Indication>>,
                          handed: map<Key, seq<nat>>, listened: set<Key>, k: Key) {
    QueueOk(At(queue, k), At(arrived, k), At(handed, k), k in listened)
  }

  // ---- callers ----

  /** A caller gets at most one result; an indication sent to it is either in its
      slot or is what it returned; while it is blocked it is registered, owed a
      result, or has one in its slot. */
  ghost predicate CallOk(c: Call, listed: bool, debt: Option<CallDebt>) {
    && c.slot.capacity == 1 && |c.slot.sent| <= 1 && c.slot.sent == c.slot.taken + c.slot.buf
    && (listed ==> c.slot.sent == [] && !c.slot.closed && c.phase == Blocked && debt == None)
    && (debt.Some? ==> !c.slot.closed && (debt.value.done <==> c.slot.sent != []))
    && (debt.Some? && debt.value.done ==> debt.value.thenClose && c.slot.sent[0].Err?)
    && (c.slot.closed ==> |c.slot.sent| == 1 && c.slot.sent[0].Err?)
    && (!c.phase.Returned? ==> c.slot.taken == [])
    && (c.slot.taken != [] ==> c.phase == Returned(c.slot.taken[0]))
    && (c.phase == Blocked ==> listed || debt.Some? || c.slot.buf != [])
    && (c.phase.Returned? ==> (c.phase.result.Value? <==> c.slot.sent != [] && c.slot.sent[0].Value?))
    && (c.phase.Returned? && c.phase.result.Value? ==> c.slot.sent == [c.phase.result])
  }

  ghost predicate DistinctChannels(s: seq<Listener>) {
    forall i, j :: 0 <= i < j < |s| ==> s[i].ch != s[j].ch
  }

  ghost predicate ListOk(calls: map<ChanId, Call>, k: Key, s: seq<Listener>) {
    && s != [] && DistinctChannels(s)
    && forall w :: w in s ==> w.ch in calls && calls[w.ch].key == k && calls[w.ch].owner == w.owner
  }

  ghost predicate CallsOk(calls: map<ChanId, Call>, waiters: map<Key, seq<Listener>>,
                          debts: map<ChanId, CallDebt>, next: ChanId) {
    && debts.Keys <= calls.Keys
    && (forall ch :: ch in calls ==> ch < next)
    && (forall k :: k in waiters ==> ListOk(calls, k, waiters[k]))
    && (forall ch :: ch in calls ==> CallAt(calls, waiters, debts, ch))
  }

  ghost predicate CallAt(calls: map<ChanId, Call>, waiters: map<Key, seq<Listener>>,
                         debts: map<ChanId, CallDebt>, ch: ChanId)
    requires ch in calls
  {
    CallOk(calls[ch], Listed(waiters, ch, calls[ch]), Debt(debts, ch))
  }

  // ---- streams ----

  ghost predicate Terminal(c: Chan<WatchResult>) {
    c.sent != [] && c.sent[|c.sent| - 1].Err?
  }

  /** The indications given to a stream, without the final error. */
  ghost function Body(c: Chan<WatchResult>): seq<WatchResult> {
    if Terminal(c) then c.sent[..|c.sent| - 1] else c.sent
  }

  ghost predicate Arrivals(body: seq<WatchResult>, arrived: seq<Indication>, start: nat) {
    && start + |body| <= |arrived|
    && forall i :: 0 <= i < |body| ==> body[i] == Value(arrived[start + i])
  }

  /** The final error, once sent, is what the consumer receives last. */
  ghost predicate EndsWithError(c: Chan<WatchResult>) {
    Terminal(c) ==> var seen := c.taken + c.buf; seen != [] && seen[|seen| - 1] == c.sent[|c.sent| - 1]
  }

  /** A stream is given a contiguous run of the arrivals of its key, up to the
      latest one while it is subscribed, and after them at most one error, which is
      still there to be received and after which nothing is sent. */
  ghost predicate StreamOk(st: Stream, arrived: seq<Indication>, subscribed: bool, debt: Option<StreamDebt>) {
    var c := st.chan;
    && DropOldest(c)
    && Arrivals(Body(c), arrived, st.start)
    && EndsWithError(c)
    && (c.closed ==> Terminal(c))
    && (subscribed ==> !Terminal(c) && debt == None && c.capacity == MAX_QUEUED && st.start + |c.sent| == |arrived|)
    && (debt.Some? ==> !c.closed && (Terminal(c) <==> debt.value.stage == Shut))
    && (debt.Some? && debt.value.stage == Retry ==> |c.buf| < c.capacity)
  }

  ghost predicate StreamsOk(streams: map<ChanId, Stream>, subs: map<Key, set<ChanId>>,
                            debts: map<ChanId, StreamDebt>, arrived: map<Key, seq<Indication>>, next: ChanId) {
    && debts.Keys <= streams.Keys
    && (forall ch :: ch in streams ==> ch < next)
    && SubsOk(streams, subs)
    && (forall ch :: ch in streams ==> StreamAt(streams, subs, debts, arrived, ch))
  }

  ghost predicate SubsOk(streams: map<ChanId, Stream>, subs: map<Key, set<ChanId>>) {
    && (forall k :: k in subs ==> subs[k] != {})
    && (forall k, c :: Has(subs, k, c) ==> c in streams && streams[c].key == k)
  }

  ghost predicate StreamAt(streams: map<ChanId, Stream>, subs: map<Key, set<ChanId>>,
                           debts: map<ChanId, StreamDebt>, arrived: map<Key, seq<Indication>>, ch: ChanId)
    requires ch in streams
  {
    StreamOk(streams[ch], At(arrived, streams[ch].key), Has(subs, streams[ch].key, ch), Debt(debts, ch))
  }

  predicate Has(subs: map<Key, set<ChanId>>, k: Key, ch: ChanId) {
    k in subs && ch in subs[k]
  }

  ghost predicate Inv(h: Hub) {
    && QueuesOk(h.queue, h.arrived, h.handed, h.waiters.Keys + h.subs.Keys)
    && CallsOk(h.calls, h.waiters, h.callDebts, h.nextCall)
    && StreamsOk(h.streams, h.subs, h.streamDebts, h.arrived, h.nextStream)
  }

  // ---- list facts ----

  lemma {:induction false} WithoutFacts(s: seq<Listener>, ch: ChanId)
    requires DistinctChannels(s)
    ensures DistinctChannels(Without(s, ch))
    ensures forall w :: w in Without(s, ch) <==> w in s && w.ch != ch
  {
    if s != [] {
      WithoutFacts(s[1..], ch);
      assert forall w :: w in s <==> w == s[0] || w in s[1..];
      if s[0].ch != ch {
        var r := Without(s[1..], ch);
        forall i | 0 <= i < |r| ensures s[0].ch != r[i].ch {
          assert r[i] in s[1..];
        }
      }
    }
  }

  lemma {:induction false} NotOwnedFacts(s: seq<Listener>, lease: LeaseId)
    ensures forall w :: w in NotOwnedBy(s, lease) <==> w in s && w.owner != Some(lease)
    ensures DistinctChannels(s) ==> DistinctChannels(NotOwnedBy(s, lease))
  {
    if s != [] {
      NotOwnedFacts(s[1..], lease);
      assert forall w :: w in s <==> w == s[0] || w in s[1..];
      if DistinctChannels(s) && s[0].owner != Some(lease) {
        var r := NotOwnedBy(s[1..], lease);
        forall i | 0 <= i < |r| ensures s[0].ch != r[i].ch {
          assert r[i] in s[1..];
        }
      }
    }
  }

  // ---- publishing ----

  lemma QueueGrows(q: seq<Indication>, arrived: seq<Indication>, out: seq<nat>, ind: Indication)
    requires QueueOk(q, arrived, out, false)
    ensures QueueOk(LastQueued(q + [ind]), arrived + [ind], out, false)
  {
  }

  lemma EnqueueQueues(h: Hub, ind: Indication, listened: set<Key>)
    requires QueuesOk(h.queue, h.arrived, h.handed, listened) && ind.key !in listened
    ensures var u := Enqueue(h, ind); QueuesOk(u.queue, u.arrived, u.handed, listened)
  {
    hide QueueOk;
    var u := Enqueue(h, ind);
    forall k ensures QueueAt(u.queue, u.arrived, u.handed, listened, k) {
      assert QueueAt(h.queue, h.arrived, h.handed, listened, k);
      if k == ind.key {
        QueueGrows(At(h.queue, k), At(h.arrived, k), At(h.handed, k), ind);
      }
    }
  }

  lemma EnqueueStreams(h: Hub, ind: Indication)
    requires StreamsOk(h.streams, h.subs, h.streamDebts, h.arrived, h.nextStream) && ind.key !in h.subs
    ensures StreamsOk(h.streams, h.subs, h.streamDebts, Enqueue(h, ind).arrived, h.nextStream)
  {
    hide StreamOk;
    var arrived := Enqueue(h, ind).arrived;
    forall ch | ch in h.streams
      ensures StreamAt(h.streams, h.subs, h.streamDebts, arrived, ch)
    {
      assert StreamAt(h.streams, h.subs, h.streamDebts, h.arrived, ch);
      if h.streams[ch].key == ind.key {
        StreamMore(h.streams[ch], At(h.arrived, ind.key), Debt(h.streamDebts, ch), ind);
      }
    }
  }

  lemma EnqueueKeeps(h: Hub, ind: Indication)
    requires Inv(h) && ind.key !in h.waiters && ind.key !in h.subs
    ensures Inv(Enqueue(h, ind))
  {
    hide CallsOk, StreamsOk, QueuesOk;
    EnqueueQueues(h, ind, h.waiters.Keys + h.subs.Keys);
    EnqueueStreams(h, ind);
  }

  /** An arrival that a stream does not get leaves it as it is. */
  lemma StreamMore(st: Stream, arrived: seq<Indication>, debt: Option<StreamDebt>, ind: Indication)
    requires StreamOk(st, arrived, false, debt)
    ensures StreamOk(st, arrived + [ind], false, debt)
  {
  }

  lemma StreamGets(st: Stream, arrived: seq<Indication>, debt: Option<StreamDebt>, ind: Indication, m: Meanwhile)
    requires StreamOk(st, arrived, true, debt)
    ensures StreamOk(st.(chan := DeliverWatch(st.chan, Value(ind), m)), arrived + [ind], true, debt)
  {
    DeliverKeeps(st.chan, ind, m);
  }

  lemma DeliverKeeps(c: Chan<WatchResult>, ind: Indication, m: Meanwhile)
    requires DropOldest(c) && !c.closed
    ensures var d := DeliverWatch(c, Value(ind), m);
      DropOldest(d) && !d.closed && d.sent == c.sent + [Value(ind)] && d.capacity == c.capacity
  {
    if CanSend(c) {
      SendKeeps(c, Value(ind));
    } else {
      var c1 := TakeMany(c, m.first);
      TakeManyKeeps(c, m.first);
      DropKeeps(c1);
      var c2 := Drop(c1);
      TakeManyKeeps(c2, m.second);
      SendKeeps(TakeMany(c2, m.second), Value(ind));
    }
  }

  lemma FanQueues(h: Hub, ind: Indication, env: map<ChanId, Meanwhile>, listened: set<Key>)
    requires QueuesOk(h.queue, h.arrived, h.handed, listened) && ind.key in listened
    ensures var u := Fan(h, ind, env); QueuesOk(u.queue, u.arrived, u.handed, listened)
    ensures forall i :: 0 <= i < |At(h.handed, ind.key)| ==> At(h.handed, ind.key)[i] < |At(h.arrived, ind.key)|
  {
    assert QueueAt(h.queue, h.arrived, h.handed, listened, ind.key);
    var arrived := Fan(h, ind, env).arrived;
    forall k ensures QueueAt(h.queue, arrived, h.handed, listened, k) {
      assert QueueAt(h.queue, h.arrived, h.handed, listened, k);
    }
  }

  lemma SubsSame(streams: map<ChanId, Stream>, more: map<ChanId, Stream>, subs: map<Key, set<ChanId>>)
    requires SubsOk(streams, subs)
    requires forall c :: c in streams ==> c in more && more[c].key == streams[c].key
    ensures SubsOk(more, subs)
  {
  }

  lemma FanAt(h: Hub, ind: Indication, env: map<ChanId, Meanwhile>, ch: ChanId)
    requires ch in h.streams && SubsOk(h.streams, h.subs) && StreamAt(h.streams, h.subs, h.streamDebts, h.arrived, ch)
    ensures var u := Fan(h, ind, env); StreamAt(u.streams, u.subs, u.streamDebts, u.arrived, ch)
  {
    SubscribedKey(h, ind.key, ch);
    hide StreamOk, SubsOk, DeliverWatch, Pace;
    var u := Fan(h, ind, env);
    assert u.streams[ch].key == h.streams[ch].key;
    if h.streams[ch].key == ind.key {
      if ch in Subscribers(h, ind.key) {
        StreamGets(h.streams[ch], At(h.arrived, ind.key), Debt(h.streamDebts, ch), ind, Pace(env, ch));
      } else {
        StreamMore(h.streams[ch], At(h.arrived, ind.key), Debt(h.streamDebts, ch), ind);
      }
    }
  }

  lemma FanStreams(h: Hub, ind: Indication, env: map<ChanId, Meanwhile>)
    requires StreamsOk(h.streams, h.subs, h.streamDebts, h.arrived, h.nextStream)
    ensures var u := Fan(h, ind, env); StreamsOk(u.streams, u.subs, u.streamDebts, u.arrived, u.nextStream)
  {
    hide StreamAt, SubsOk, DeliverWatch, Pace;
    var u := Fan(h, ind, env);
    SubsSame(h.streams, u.streams, h.subs);
    forall ch | ch in u.streams ensures StreamAt(u.streams, u.subs, u.streamDebts, u.arrived, ch) {
      FanAt(h, ind, env, ch);
    }
  }

  lemma SubscribedKey(h: Hub, k: Key, ch: ChanId)
    requires SubsOk(h.streams, h.subs)
    ensures ch in Subscribers(h, k) <==> Has(h.subs, k, ch)
    ensures Has(h.subs, k, ch) ==> ch in h.streams && h.streams[ch].key == k
  {
  }

  lemma FanKeeps(h: Hub, ind: Indication, env: map<ChanId, Meanwhile>)
    requires Inv(h) && (ind.key in h.waiters || ind.key in h.subs)
    ensures Inv(Fan(h, ind, env))
  {
    hide CallsOk, StreamsOk, QueuesOk;
    FanQueues(h, ind, env, h.waiters.Keys + h.subs.Keys);
    FanStreams(h, ind, env);
  }

  lemma HandQueues(h: Hub, ind: Indication, listened: set<Key>, still: set<Key>)
    requires QueuesOk(h.queue, h.arrived, h.handed, listened) && still <= listened && listened - still <= {ind.key}
    requires At(h.waiters, ind.key) != [] && At(h.arrived, ind.key) != [] && ind.key in listened
    requires forall i :: 0 <= i < |At(h.handed, ind.key)| ==> At(h.handed, ind.key)[i] < |At(h.arrived, ind.key)| - 1
    ensures var u := Hand(h, ind); QueuesOk(u.queue, u.arrived, u.handed, still)
  {
    var u := Hand(h, ind);
    forall k ensures QueueAt(u.queue, u.arrived, u.handed, still, k) {
      assert QueueAt(h.queue, h.arrived, h.handed, listened, k);
    }
  }

  lemma CallGets(c: Call, debt: Option<CallDebt>, ind: Indication)
    requires CallOk(c, true, debt)
    ensures CallOk(c.(slot := SendIfRoom(c.slot, Value(ind))), false, debt)
  {
  }

  lemma HandLists(h: Hub, ind: Indication)
    requires CallsOk(h.calls, h.waiters, h.callDebts, h.nextCall) && At(h.waiters, ind.key) != []
    ensures var u := Hand(h, ind);
      var ch := h.waiters[ind.key][0].ch;
      && (forall j :: j in u.waiters ==> ListOk(h.calls, j, u.waiters[j]))
      && ch in h.calls && Listed(h.waiters, ch, h.calls[ch]) && !Listed(u.waiters, ch, h.calls[ch])
      && (forall c :: c in h.calls && c != ch ==> (Listed(u.waiters, c, h.calls[c]) <==> Listed(h.waiters, c, h.calls[c])))
  {
    hide CallAt;
    var u := Hand(h, ind);
    var s := h.waiters[ind.key];
    assert ListOk(h.calls, ind.key, s) && s[0] in s;
    assert forall w :: w in s <==> w == s[0] || w in s[1..];
    assert forall w :: w in s[1..] ==> w.ch != s[0].ch;
    forall k | k in u.waiters ensures ListOk(h.calls, k, u.waiters[k]) {
      assert ListOk(h.calls, k, h.waiters[k]);
    }
  }

  lemma HandCalls(h: Hub, ind: Indication)
    requires CallsOk(h.calls, h.waiters, h.callDebts, h.nextCall) && At(h.waiters, ind.key) != []
    ensures var u := Hand(h, ind); CallsOk(u.calls, u.waiters, u.callDebts, u.nextCall)
  {
    hide CallOk, ListOk, Store;
    var u := Hand(h, ind);
    var ch := h.waiters[ind.key][0].ch;
    HandLists(h, ind);
    SameLists(h.calls, u.waiters, ch, u.calls[ch]);
    forall c | c in u.calls ensures CallAt(u.calls, u.waiters, u.callDebts, c) {
      assert CallAt(h.calls, h.waiters, h.callDebts, c);
      if c == ch {
        CallGets(h.calls[ch], Debt(h.callDebts, ch), ind);
        assert !Listed(u.waiters, ch, u.calls[ch]);
      }
    }
  }

  lemma NobodyListens(h: Hub, k: Key)
    requires Inv(h)
    ensures At(h.waiters, k) == [] <==> k !in h.waiters
    ensures Subscribers(h, k) == {} <==> k !in h.subs
  {
    hide CallAt, StreamAt, QueueAt;
    assert k in h.waiters ==> ListOk(h.calls, k, h.waiters[k]);
  }

  lemma PublishKeeps(h: Hub, ind: Indication, env: map<ChanId, Meanwhile>)
    requires Inv(h)
    ensures Inv(Publish(h, ind, env))
  {
    hide CallsOk, StreamsOk, QueuesOk;
    NobodyListens(h, ind.key);
    if At(h.waiters, ind.key) != [] {
      var f := Fan(h, ind, env);
      var u := Hand(f, ind);
      FanQueues(h, ind, env, h.waiters.Keys + h.subs.Keys);
      FanKeeps(h, ind, env);
      HandQueues(f, ind, f.waiters.Keys + f.subs.Keys, u.waiters.Keys + u.subs.Keys);
      HandCalls(f, ind);
    } else if Subscribers(h, ind.key) == {} {
      EnqueueKeeps(h, ind);
    } else {
      FanKeeps(h, ind, env);
    }
  }

  // ---- waiting and subscribing ----

  lemma PopQueue(q: seq<Indication>, arrived: seq<Indication>, out: seq<nat>)
    requires QueueOk(q, arrived, out, false) && q != []
    ensures QueueOk(q[1..], arrived, out + [Max(0, |arrived| - |q|)], false)
  {
  }

  lemma OverCall(k: Key, owner: Owner, v: WatchResult)
    requires v.Value?
    ensures CallOk(Call(k, owner, Passed(v), Returned(v)), false, None)
  {
  }

  lemma PopCalls(h: Hub, k: Key, owner: Owner)
    requires CallsOk(h.calls, h.waiters, h.callDebts, h.nextCall) && At(h.queue, k) != []
    ensures var u := Pop(h, k, owner); CallsOk(u.calls, u.waiters, u.callDebts, u.nextCall)
  {
    var v := Value(h.queue[k][0]);
    OverCall(k, owner, v);
    hide CallOk, Passed;
    AddCall(h.calls, h.waiters, h.callDebts, h.nextCall, Call(k, owner, Passed(v), Returned(v)));
    hide CallsOk, Store, Max;
  }

  /** A new call in no line and without debts. */
  lemma AddCall(calls: map<ChanId, Call>, waiters: map<Key, seq<Listener>>, debts: map<ChanId, CallDebt>, next: ChanId, call: Call)
    requires CallsOk(calls, waiters, debts, next) && CallOk(call, false, None)
    ensures CallsOk(calls[next := call], waiters, debts, next + 1)
  {
    hide CallOk;
    var more := calls[next := call];
    forall j | j in waiters ensures ListOk(more, j, waiters[j]) {
      assert ListOk(calls, j, waiters[j]);
    }
    forall c | c in more ensures CallAt(more, waiters, debts, c) {
      if c != next {
        assert CallAt(calls, waiters, debts, c);
      } else if call.key in waiters {
        assert ListOk(calls, call.key, waiters[call.key]);
      }
    }
  }

  lemma PopKeeps(h: Hub, k: Key, owner: Owner)
    requires Inv(h) && At(h.queue, k) != []
    ensures Inv(Pop(h, k, owner))
  {
    PopCalls(h, k, owner);
    PopQueues(h.queue, h.arrived, h.handed, h.waiters.Keys + h.subs.Keys, k);
    hide QueuesOk, CallsOk, StreamsOk, Store, Max;
  }

  lemma PopQueues(queue: map<Key, seq<Indication>>, arrived: map<Key, seq<Indication>>, handed: map<Key, seq<nat>>, listened: set<Key>, k: Key)
    requires QueuesOk(queue, arrived, handed, listened) && At(queue, k) != []
    ensures QueuesOk(Store(queue, k, queue[k][1..]), arrived,
                     handed[k := At(handed, k) + [Max(0, |At(arrived, k)| - |queue[k]|)]], listened)
  {
    hide QueueOk;
    var left, out := Store(queue, k, queue[k][1..]), handed[k := At(handed, k) + [Max(0, |At(arrived, k)| - |queue[k]|)]];
    forall j ensures QueueAt(left, arrived, out, listened, j) {
      assert QueueAt(queue, arrived, handed, listened, j);
      if j == k {
        QuietQueue(queue[k], At(arrived, k), At(handed, k), k in listened);
        PopQueue(queue[k], At(arrived, k), At(handed, k));
      }
    }
  }

  lemma QuietQueue(q: seq<Indication>, arrived: seq<Indication>, out: seq<nat>, listened: bool)
    requires QueueOk(q, arrived, out, listened) && q != []
    ensures !listened
  {
  }

  lemma QueueEmptied(q: seq<Indication>, arrived: seq<Indication>, out: seq<nat>, before: bool, after: bool)
    requires QueueOk(q, arrived, out, before)
    ensures QueueOk([], arrived, out, after)
    ensures (after ==> before) ==> QueueOk(q, arrived, out, after)
  {
  }

  lemma MoreListened(h: Hub, k: Key, listened: set<Key>, more: set<Key>)
    requires QueuesOk(h.queue, h.arrived, h.handed, listened) && more <= listened + {k}
    ensures QueuesOk(h.queue - {k}, h.arrived, h.handed, more)
  {
    hide QueueOk;
    forall j ensures QueueAt(h.queue - {k}, h.arrived, h.handed, more, j) {
      assert QueueAt(h.queue, h.arrived, h.handed, listened, j);
      QueueEmptied(At(h.queue, j), At(h.arrived, j), At(h.handed, j), j in listened, j in more);
    }
  }

  lemma NewCall(k: Key, owner: Owner)
    ensures CallOk(Call(k, owner, Make(1), Blocked), true, None)
  {
  }

  lemma AwaitLists(h: Hub, k: Key, owner: Owner)
    requires CallsOk(h.calls, h.waiters, h.callDebts, h.nextCall)
    ensures var u := Await(h, k, owner);
      && (forall j :: j in u.waiters ==> ListOk(u.calls, j, u.waiters[j]))
      && (forall c :: c in h.calls ==> Listed(u.waiters, c, u.calls[c]) == Listed(h.waiters, c, h.calls[c]))
      && Listed(u.waiters, h.nextCall, u.calls[h.nextCall])
  {
    hide CallAt;
    var u := Await(h, k, owner);
    var s := At(h.waiters, k);
    var me := Listener(h.nextCall, owner);
    assert k in h.waiters ==> ListOk(h.calls, k, s);
    assert forall w :: w in s + [me] <==> w in s || w == me;
    forall j | j in u.waiters ensures ListOk(u.calls, j, u.waiters[j]) {
      if j != k {
        assert ListOk(h.calls, j, h.waiters[j]);
      } else {
        forall i | 0 <= i < |s| ensures s[i].ch != me.ch {
          assert s[i] in s;
        }
      }
    }
  }

  lemma AwaitCalls(h: Hub, k: Key, owner: Owner)
    requires CallsOk(h.calls, h.waiters, h.callDebts, h.nextCall)
    ensures var u := Await(h, k, owner); CallsOk(u.calls, u.waiters, u.callDebts, u.nextCall)
  {
    hide CallOk, ListOk;
    var u := Await(h, k, owner);
    AwaitLists(h, k, owner);
    NewCall(k, owner);
    forall c | c in u.calls ensures CallAt(u.calls, u.waiters, u.callDebts, c) {
      if c != h.nextCall {
        assert CallAt(h.calls, h.waiters, h.callDebts, c);
      }
    }
  }

  lemma AwaitKeeps(h: Hub, k: Key, owner: Owner)
    requires Inv(h) && At(h.queue, k) == []
    ensures Inv(Await(h, k, owner))
  {
    hide CallsOk, StreamsOk;
    AwaitCalls(h, k, owner);
    var u := Await(h, k, owner);
    MoreListened(h, k, h.waiters.Keys + h.subs.Keys, u.waiters.Keys + u.subs.Keys);
    assert h.queue - {k} == h.queue;
  }

  /** A stream that starts with the queue of its key. */
  lemma Preload(q: seq<Indication>, arrived: seq<Indication>, out: seq<nat>, listened: bool, k: Key, owner: Owner)
    requires QueueOk(q, arrived, out, listened)
    ensures var start := Max(0, |arrived| - |Values(q)|);
      StreamOk(Stream(k, owner, start, Chan(MAX_QUEUED, Values(q), false, Values(q), [])), arrived, true, None)
  {
    hide Subsequence, QueueOk;
    QueueTail(q, arrived, out, listened);
    SubsequenceRefl(Values(q));
    assert [] + Values(q) == Values(q);
  }

  lemma PreloadFailed(q: seq<Indication>, arrived: seq<Indication>, out: seq<nat>, listened: bool, k: Key, owner: Owner, error: Error)
    requires QueueOk(q, arrived, out, listened)
    ensures var start := Max(0, |arrived| - |Values(q)|);
      var all := Values(q) + [Err(error)];
      StreamOk(Stream(k, owner, start, Chan(|all|, all, true, all, [])), arrived, false, None)
  {
    hide Subsequence, QueueOk;
    QueueTail(q, arrived, out, listened);
    var all := Values(q) + [Err(error)];
    var c := Chan(|all|, all, true, all, []);
    SubsequenceRefl(all);
    assert [] + all == all;
    assert Terminal(c) && Body(c) == Values(q);
  }

  lemma QueueTail(q: seq<Indication>, arrived: seq<Indication>, out: seq<nat>, listened: bool)
    requires QueueOk(q, arrived, out, listened)
    ensures Arrivals(Values(q), arrived, Max(0, |arrived| - |Values(q)|))
    ensures |q| <= |arrived| && |q| <= MAX_QUEUED
  {
  }

  lemma SubscribeSubs(h: Hub, k: Key, owner: Owner)
    requires SubsOk(h.streams, h.subs) && h.nextStream !in h.streams
    ensures var u := Subscribe(h, k, owner); SubsOk(u.streams, u.subs)
    ensures forall j, c :: Has(Subscribe(h, k, owner).subs, j, c) <==> Has(h.subs, j, c) || (j == k && c == h.nextStream)
  {
    hide Values, Max, At;
    var u := Subscribe(h, k, owner);
    assert h.nextStream in u.subs[k];
    assert forall j, c :: Has(u.subs, j, c) <==> Has(h.subs, j, c) || (j == k && c == h.nextStream);
  }

  lemma SubscribeStreams(h: Hub, k: Key, owner: Owner, listened: bool)
    requires StreamsOk(h.streams, h.subs, h.streamDebts, h.arrived, h.nextStream)
    requires QueueOk(At(h.queue, k), At(h.arrived, k), At(h.handed, k), listened)
    ensures var u := Subscribe(h, k, owner); StreamsOk(u.streams, u.subs, u.streamDebts, u.arrived, u.nextStream)
  {
    hide StreamOk, SubsOk, QueueOk, Values, Max, AddSubscriber;
    var u := Subscribe(h, k, owner);
    Preload(At(h.queue, k), At(h.arrived, k), At(h.handed, k), listened, k, owner);
    SubscribeSubs(h, k, owner);
    assert Has(u.subs, k, h.nextStream);
    forall c | c in u.streams ensures StreamAt(u.streams, u.subs, u.streamDebts, u.arrived, c) {
      if c != h.nextStream {
        assert StreamAt(h.streams, h.subs, h.streamDebts, h.arrived, c);
      }
    }
  }

  lemma SubscribeKeeps(h: Hub, k: Key, owner: Owner)
    requires Inv(h)
    ensures Inv(Subscribe(h, k, owner))
  {
    hide CallsOk, StreamsOk;
    var u := Subscribe(h, k, owner);
    var listened := h.waiters.Keys + h.subs.Keys;
    assert QueueAt(h.queue, h.arrived, h.handed, listened, k);
    SubscribeStreams(h, k, owner, k in listened);
    MoreListened(h, k, listened, u.waiters.Keys + u.subs.Keys);
  }

  lemma DrainStreams(h: Hub, k: Key, owner: Owner, error: Error, listened: bool)
    requires StreamsOk(h.streams, h.subs, h.streamDebts, h.arrived, h.nextStream)
    requires QueueOk(At(h.queue, k), At(h.arrived, k), At(h.handed, k), listened)
    ensures var u := Drain(h, k, owner, error); StreamsOk(u.streams, u.subs, u.streamDebts, u.arrived, u.nextStream)
  {
    hide StreamOk, Values, Max, QueueOk;
    var u := Drain(h, k, owner, error);
    PreloadFailed(At(h.queue, k), At(h.arrived, k), At(h.handed, k), listened, k, owner, error);
    assert !Has(h.subs, k, h.nextStream);
    SubsSame(h.streams, u.streams, h.subs);
    forall c | c in u.streams ensures StreamAt(u.streams, u.subs, u.streamDebts, u.arrived, c) {
      if c != h.nextStream {
        assert StreamAt(h.streams, h.subs, h.streamDebts, h.arrived, c);
      }
    }
  }

  lemma DrainKeeps(h: Hub, k: Key, owner: Owner, error: Error)
    requires Inv(h)
    ensures Inv(Drain(h, k, owner, error))
  {
    hide CallsOk, StreamsOk;
    var listened := h.waiters.Keys + h.subs.Keys;
    assert QueueAt(h.queue, h.arrived, h.handed, listened, k);
    DrainStreams(h, k, owner, error, k in listened);
    MoreListened(h, k, listened, listened);
  }

  lemma FewerListened(h: Hub, listened: set<Key>, fewer: set<Key>)
    requires QueuesOk(h.queue, h.arrived, h.handed, listened) && fewer <= listened
    ensures QueuesOk(h.queue, h.arrived, h.handed, fewer)
  {
    hide QueueOk;
    forall j ensures QueueAt(h.queue, h.arrived, h.handed, fewer, j) {
      assert QueueAt(h.queue, h.arrived, h.handed, listened, j);
      QueueEmptied(At(h.queue, j), At(h.arrived, j), At(h.handed, j), j in listened, j in fewer);
    }
  }

  lemma StreamUnsubscribed(st: Stream, arrived: seq<Indication>, subscribed: bool, debt: Option<StreamDebt>)
    requires StreamOk(st, arrived, subscribed, debt)
    ensures StreamOk(st, arrived, false, debt)
  {
  }

  lemma UnsubscribeSubs(h: Hub, k: Key, ch: ChanId)
    requires SubsOk(h.streams, h.subs)
    ensures var subs := Unsubscribe(h, k, ch).subs;
      SubsOk(h.streams, subs) && forall j, c :: Has(subs, j, c) ==> Has(h.subs, j, c)
  {
    if k in h.subs {
      var left := h.subs[k] - {ch};
      FewerSubs(h.streams, h.subs, if left == {} then h.subs - {k} else h.subs[k := left]);
    }
    hide SubsOk;
  }

  lemma FewerSubs(streams: map<ChanId, Stream>, subs: map<Key, set<ChanId>>, fewer: map<Key, set<ChanId>>)
    requires SubsOk(streams, subs) && forall k :: k in fewer ==> k in subs && fewer[k] <= subs[k] && fewer[k] != {}
    ensures SubsOk(streams, fewer) && forall k, c :: Has(fewer, k, c) ==> Has(subs, k, c)
  {
    forall k, c | Has(fewer, k, c) ensures Has(subs, k, c) && c in streams && streams[c].key == k {
      assert c in subs[k];
      assert Has(subs, k, c);
    }
  }

  lemma UnsubscribeStreams(h: Hub, k: Key, ch: ChanId)
    requires StreamsOk(h.streams, h.subs, h.streamDebts, h.arrived, h.nextStream)
    ensures StreamsOk(h.streams, Unsubscribe(h, k, ch).subs, h.streamDebts, h.arrived, h.nextStream)
  {
    hide StreamOk;
    var subs := Unsubscribe(h, k, ch).subs;
    UnsubscribeSubs(h, k, ch);
    hide Unsubscribe, SubsOk;
    forall c | c in h.streams ensures StreamAt(h.streams, subs, h.streamDebts, h.arrived, c) {
      var st := h.streams[c];
      assert StreamAt(h.streams, h.subs, h.streamDebts, h.arrived, c);
      StreamUnsubscribed(st, At(h.arrived, st.key), Has(h.subs, st.key, c), Debt(h.streamDebts, c));
    }
  }

  lemma UnsubscribeKeeps(h: Hub, k: Key, ch: ChanId)
    requires Inv(h)
    ensures Inv(Unsubscribe(h, k, ch))
  {
    hide StreamsOk, QueuesOk;
    var u := Unsubscribe(h, k, ch);
    FewerListened(h, h.waiters.Keys + h.subs.Keys, u.waiters.Keys + u.subs.Keys);
    UnsubscribeStreams(h, k, ch);
  }

  // ---- steps of one caller or one stream ----

  lemma SameLists(calls: map<ChanId, Call>, waiters: map<Key, seq<Listener>>, ch: ChanId, call: Call)
    requires ch in calls && call.key == calls[ch].key && call.owner == calls[ch].owner
    requires forall k :: k in waiters ==> ListOk(calls, k, waiters[k])
    ensures forall k :: k in waiters ==> ListOk(calls[ch := call], k, waiters[k])
  {
    forall k | k in waiters ensures ListOk(calls[ch := call], k, waiters[k]) {
      assert ListOk(calls, k, waiters[k]);
    }
  }

  /** A step of one caller keeps the table when it keeps that caller. */
  lemma CallsMove(h: Hub, ch: ChanId, call: Call, d: Option<CallDebt>)
    requires CallsOk(h.calls, h.waiters, h.callDebts, h.nextCall)
    requires ch in h.calls && call.key == h.calls[ch].key && call.owner == h.calls[ch].owner
    requires CallOk(call, Listed(h.waiters, ch, call), d)
    ensures var u := SetCall(h, ch, call, d); CallsOk(u.calls, u.waiters, u.callDebts, u.nextCall)
  {
    hide CallOk, ListOk;
    var u := SetCall(h, ch, call, d);
    SameLists(h.calls, h.waiters, ch, call);
    forall c | c in u.calls ensures CallAt(u.calls, u.waiters, u.callDebts, c) {
      assert CallAt(h.calls, h.waiters, h.callDebts, c);
    }
  }

  lemma CallMoves(h: Hub, ch: ChanId, call: Call, d: Option<CallDebt>)
    requires Inv(h) && ch in h.calls && call.key == h.calls[ch].key && call.owner == h.calls[ch].owner
    requires CallOk(call, Listed(h.waiters, ch, call), d)
    ensures Inv(SetCall(h, ch, call, d))
  {
    hide QueuesOk, StreamsOk, CallsOk, CallOk, Listed;
    CallsMove(h, ch, call, d);
  }

  lemma CallAlone(h: Hub, ch: ChanId)
    requires Inv(h) && ch in h.calls
    ensures CallOk(h.calls[ch], Listed(h.waiters, ch, h.calls[ch]), Debt(h.callDebts, ch))
  {
    hide QueuesOk, StreamsOk, ListOk, Listed, CallOk;
    assert CallAt(h.calls, h.waiters, h.callDebts, ch);
  }

  lemma CallPolls(c: Call, listed: bool, d: Option<CallDebt>)
    requires CallOk(c, listed, d) && c.phase == Polling
    ensures CallOk(PollCall(c), listed, d)
  {
  }

  lemma CallWakes(c: Call, listed: bool, d: Option<CallDebt>)
    requires CallOk(c, listed, d) && c.phase == Blocked
    ensures CallOk(WakeCall(c), listed, d)
  {
  }

  /** What is owed to a caller never blocks, and paying it leaves the caller sound. */
  lemma CallPaid(c: Call, listed: bool, d: CallDebt)
    requires CallOk(c, listed, Some(d))
    ensures !d.done ==> CanSend(c.slot)
    ensures CallOk(PayCall(c, d).0, listed, PayCall(c, d).1)
  {
  }

  lemma SameKey(c: Call, d: CallDebt)
    ensures PollCall(c).key == WakeCall(c).key == PayCall(c, d).0.key == c.key
    ensures PollCall(c).owner == WakeCall(c).owner == PayCall(c, d).0.owner == c.owner
  {
  }

  lemma PollKeeps(h: Hub, ch: ChanId)
    requires Inv(h) && ch in h.calls && h.calls[ch].phase == Polling
    ensures Inv(Poll(h, ch))
  {
    hide Inv, CallOk, PollCall, SetCall;
    CallAlone(h, ch);
    CallPolls(h.calls[ch], Listed(h.waiters, ch, h.calls[ch]), Debt(h.callDebts, ch));
    SameKey(h.calls[ch], CallDebt(Cancelled, false, false));
    CallMoves(h, ch, PollCall(h.calls[ch]), Debt(h.callDebts, ch));
  }

  lemma WakeKeeps(h: Hub, ch: ChanId)
    requires Inv(h) && ch in h.calls && h.calls[ch].phase == Blocked
    ensures Inv(Wake(h, ch))
  {
    hide Inv, CallOk, WakeCall, SetCall;
    CallAlone(h, ch);
    CallWakes(h.calls[ch], Listed(h.waiters, ch, h.calls[ch]), Debt(h.callDebts, ch));
    SameKey(h.calls[ch], CallDebt(Cancelled, false, false));
    CallMoves(h, ch, WakeCall(h.calls[ch]), Debt(h.callDebts, ch));
  }

  lemma StepCallDebtKeeps(h: Hub, ch: ChanId)
    requires Inv(h) && ch in h.callDebts && ch in h.calls
    ensures Inv(StepCallDebt(h, ch))
  {
    hide Inv, CallOk, PayCall, SetCall;
    CallAlone(h, ch);
    CallPaid(h.calls[ch], Listed(h.waiters, ch, h.calls[ch]), h.callDebts[ch]);
    SameKey(h.calls[ch], h.callDebts[ch]);
    CallMoves(h, ch, PayCall(h.calls[ch], h.callDebts[ch]).0, PayCall(h.calls[ch], h.callDebts[ch]).1);
  }

  lemma StreamMoves(h: Hub, ch: ChanId, st: Stream, d: Option<StreamDebt>)
    requires Inv(h) && ch in h.streams && st.key == h.streams[ch].key
    requires StreamOk(st, At(h.arrived, st.key), Has(h.subs, st.key, ch), d)
    ensures Inv(SetStream(h, ch, st, d))
  {
    hide QueuesOk, CallsOk, StreamOk, SubsOk, At, Has;
    var u := SetStream(h, ch, st, d);
    SubsSame(h.streams, u.streams, h.subs);
    forall c | c in u.streams ensures StreamAt(u.streams, u.subs, u.streamDebts, u.arrived, c) {
      assert StreamAt(h.streams, h.subs, h.streamDebts, h.arrived, c);
    }
  }

  lemma StreamAlone(h: Hub, ch: ChanId)
    requires Inv(h) && ch in h.streams
    ensures var st := h.streams[ch];
      StreamOk(st, At(h.arrived, st.key), Has(h.subs, st.key, ch), Debt(h.streamDebts, ch))
  {
    hide QueuesOk, CallsOk, StreamOk, SubsOk;
    assert StreamAt(h.streams, h.subs, h.streamDebts, h.arrived, ch);
  }

  /** The final error is the last value a stream is sent, and it stays to be received. */
  lemma ErrorSent(st: Stream, arrived: seq<Indication>, e: Error)
    requires StreamOk(st, arrived, false, None) && !Terminal(st.chan) && CanSend(st.chan)
    ensures StreamOk(st.(chan := Send(st.chan, Err(e))), arrived, false, None)
    ensures Terminal(Send(st.chan, Err(e)))
  {
    hide Subsequence, SuffixOf;
    SendKeeps(st.chan, Err(e));
    var d := Send(st.chan, Err(e));
    assert d.taken + d.buf == st.chan.taken + st.chan.buf + [Err(e)];
    assert Body(d) == Body(st.chan);
  }

  lemma StreamDebtFree(st: Stream, arrived: seq<Indication>, d: StreamDebt)
    requires StreamOk(st, arrived, false, Some(d))
    ensures StreamOk(st, arrived, false, None)
  {
  }

  lemma StreamOwes(st: Stream, arrived: seq<Indication>, d: StreamDebt)
    requires StreamOk(st, arrived, false, None) && !st.chan.closed
    requires Terminal(st.chan) <==> d.stage == Shut
    requires d.stage == Retry ==> |st.chan.buf| < st.chan.capacity
    ensures StreamOk(st, arrived, false, Some(d))
  {
  }

  lemma Discarded(st: Stream, arrived: seq<Indication>)
    requires StreamOk(st, arrived, false, None) && !Terminal(st.chan)
    ensures StreamOk(st.(chan := Drop(st.chan)), arrived, false, None)
    ensures |Drop(st.chan).buf| < st.chan.capacity
  {
    DropKeeps(st.chan);
  }

  lemma Shuts(st: Stream, arrived: seq<Indication>)
    requires StreamOk(st, arrived, false, None) && Terminal(st.chan)
    ensures StreamOk(st.(chan := Close(st.chan)), arrived, false, None)
  {
    assert Body(Close(st.chan)) == Body(st.chan);
  }

  /** What is owed to a stream is never sent on a closed channel, and its second
      send attempt always finds room. */
  lemma OwedStream(st: Stream, arrived: seq<Indication>, subscribed: bool, d: StreamDebt)
    requires StreamOk(st, arrived, subscribed, Some(d))
    ensures !subscribed && !st.chan.closed && (Terminal(st.chan) <==> d.stage == Shut)
    ensures d.stage == Retry ==> CanSend(st.chan)
  {
  }

  lemma StreamPaid(st: Stream, arrived: seq<Indication>, subscribed: bool, d: StreamDebt)
    requires StreamOk(st, arrived, subscribed, Some(d))
    ensures StreamOk(PayStream(st, d).0, arrived, subscribed, PayStream(st, d).1)
  {
    OwedStream(st, arrived, subscribed, d);
    StreamDebtFree(st, arrived, d);
    hide StreamOk, Terminal;
    var (st', d') := PayStream(st, d);
    if d.stage == Shut {
      Shuts(st, arrived);
    } else if d.stage == Discard {
      Discarded(st, arrived);
      SameTerminal(st.chan);
      StreamOwes(st', arrived, d'.value);
    } else if CanSend(st.chan) {
      ErrorSent(st, arrived, d.error);
      if d'.Some? {
        StreamOwes(st', arrived, d'.value);
      }
    } else {
      StreamOwes(st', arrived, d'.value);
    }
  }

  lemma SameTerminal(c: Chan<WatchResult>)
    ensures Terminal(Drop(c)) == Terminal(c) && Drop(c).closed == c.closed && Drop(c).capacity == c.capacity
  {
  }

  lemma StepStreamDebtKeeps(h: Hub, ch: ChanId)
    requires Inv(h) && ch in h.streamDebts && ch in h.streams
    ensures Inv(StepStreamDebt(h, ch))
  {
    hide Inv, StreamOk, SetStream;
    var st := h.streams[ch];
    StreamAlone(h, ch);
    StreamPaid(st, At(h.arrived, st.key), Has(h.subs, st.key, ch), h.streamDebts[ch]);
    StreamMoves(h, ch, PayStream(st, h.streamDebts[ch]).0, PayStream(st, h.streamDebts[ch]).1);
  }

  lemma StreamTakes(st: Stream, arrived: seq<Indication>, subscribed: bool, d: Option<StreamDebt>)
    requires StreamOk(st, arrived, subscribed, d) && st.chan.buf != []
    ensures StreamOk(st.(chan := Take(st.chan)), arrived, subscribed, d)
  {
    hide Subsequence, SuffixOf;
    TakeKeeps(st.chan);
    assert Body(Take(st.chan)) == Body(st.chan);
  }

  lemma TakeStreamKeeps(h: Hub, ch: ChanId)
    requires Inv(h) && ch in h.streams
    ensures Inv(TakeStream(h, ch))
  {
    hide Inv, StreamOk, SetStream;
    var st := h.streams[ch];
    StreamAlone(h, ch);
    if st.chan.buf != [] {
      StreamTakes(st, At(h.arrived, st.key), Has(h.subs, st.key, ch), Debt(h.streamDebts, ch));
      StreamMoves(h, ch, st.(chan := Take(st.chan)), Debt(h.streamDebts, ch));
    } else {
      StreamMoves(h, ch, st, Debt(h.streamDebts, ch));
    }
  }

  // ---- cancelling, closing a lease, stopping ----

  lemma CallLeaves(c: Call, debt: Option<CallDebt>)
    requires CallOk(c, true, debt)
    ensures CallOk(c.(phase := Returned(Err(Cancelled))), false, debt)
    ensures CallOk(c, false, Some(CallDebt(LeaseClosed, false, false))) && debt == None
    ensures forall e :: CallOk(c, false, Some(CallDebt(e, true, false)))
  {
  }

  lemma CallGoesPolling(c: Call, debt: Option<CallDebt>)
    requires CallOk(c, false, debt) && c.phase == Blocked
    ensures CallOk(c.(phase := Polling), false, debt)
  {
  }

  lemma CancelLists(h: Hub, ch: ChanId)
    requires CallsOk(h.calls, h.waiters, h.callDebts, h.nextCall)
    requires ch in h.calls && h.calls[ch].phase == Blocked && Listed(h.waiters, ch, h.calls[ch])
    ensures var u := CancelCall(h, ch);
      && (forall j :: j in u.waiters ==> ListOk(h.calls, j, u.waiters[j]))
      && (forall c :: c in h.calls ==> (Listed(u.waiters, c, h.calls[c]) <==> Listed(h.waiters, c, h.calls[c]) && c != ch))
  {
    hide CallAt;
    var u := CancelCall(h, ch);
    var k := h.calls[ch].key;
    assert ListOk(h.calls, k, h.waiters[k]);
    WithoutFacts(h.waiters[k], ch);
    forall j | j in u.waiters ensures ListOk(h.calls, j, u.waiters[j]) {
      assert ListOk(h.calls, j, h.waiters[j]);
    }
  }

  lemma CancelListed(h: Hub, ch: ChanId)
    requires CallsOk(h.calls, h.waiters, h.callDebts, h.nextCall)
    requires ch in h.calls && h.calls[ch].phase == Blocked && Listed(h.waiters, ch, h.calls[ch])
    ensures var u := CancelCall(h, ch); CallsOk(u.calls, u.waiters, u.callDebts, u.nextCall)
  {
    hide CallOk, ListOk, Without, Store;
    var u := CancelCall(h, ch);
    CancelLists(h, ch);
    assert CallAt(h.calls, h.waiters, h.callDebts, ch);
    CallLeaves(h.calls[ch], Debt(h.callDebts, ch));
    SameLists(h.calls, u.waiters, ch, u.calls[ch]);
    forall c | c in u.calls ensures CallAt(u.calls, u.waiters, u.callDebts, c) {
      assert CallAt(h.calls, h.waiters, h.callDebts, c);
      if c == ch {
        assert !Listed(u.waiters, ch, u.calls[ch]);
      }
    }
  }

  lemma CancelMissed(h: Hub, ch: ChanId)
    requires Inv(h) && ch in h.calls && h.calls[ch].phase == Blocked && !Listed(h.waiters, ch, h.calls[ch])
    ensures Inv(CancelCall(h, ch))
  {
    hide Inv, CallOk;
    CallAlone(h, ch);
    CallGoesPolling(h.calls[ch], Debt(h.callDebts, ch));
    CallMoves(h, ch, h.calls[ch].(phase := Polling), Debt(h.callDebts, ch));
    assert SetDebt(h.callDebts, ch, Debt(h.callDebts, ch)) == h.callDebts;
  }

  lemma CancelKeeps(h: Hub, ch: ChanId)
    requires Inv(h) && ch in h.calls && h.calls[ch].phase == Blocked
    ensures Inv(CancelCall(h, ch))
  {
    if Listed(h.waiters, ch, h.calls[ch]) {
      hide CallsOk, QueuesOk, StreamsOk, Without;
      var u := CancelCall(h, ch);
      FewerListened(h, h.waiters.Keys + h.subs.Keys, u.waiters.Keys + u.subs.Keys);
      CancelListed(h, ch);
    } else {
      hide Inv;
      CancelMissed(h, ch);
    }
  }

  /** Taking listed callers out of the lists and owing each of them an error. */
  lemma EvictCalls(h: Hub, waiters: map<Key, seq<Listener>>, out: set<ChanId>, d: CallDebt)
    requires CallsOk(h.calls, h.waiters, h.callDebts, h.nextCall)
    requires d == CallDebt(LeaseClosed, false, false) || d == CallDebt(d.error, true, false)
    requires forall j :: j in waiters ==> ListOk(h.calls, j, waiters[j])
    requires forall c :: c in out ==> c in h.calls && Listed(h.waiters, c, h.calls[c])
    requires forall c :: c in h.calls ==> (Listed(waiters, c, h.calls[c]) <==> Listed(h.waiters, c, h.calls[c]) && c !in out)
    ensures CallsOk(h.calls, waiters, h.callDebts + Fill(out, d), h.nextCall)
  {
    hide CallOk, ListOk, Listed;
    var debts := h.callDebts + Fill(out, d);
    forall c | c in h.calls ensures CallAt(h.calls, waiters, debts, c) {
      assert CallAt(h.calls, h.waiters, h.callDebts, c);
      if c in out {
        CallLeaves(h.calls[c], Debt(h.callDebts, c));
      }
    }
  }

  lemma StreamEvicted(st: Stream, arrived: seq<Indication>, debt: Option<StreamDebt>, e: Error, thenClose: bool)
    requires StreamOk(st, arrived, true, debt)
    ensures StreamOk(st, arrived, false, Some(StreamDebt(Try, e, thenClose))) && debt == None
  {
  }

  lemma EvictStreams(h: Hub, subs: map<Key, set<ChanId>>, out: set<ChanId>, e: Error, thenClose: bool)
    requires StreamsOk(h.streams, h.subs, h.streamDebts, h.arrived, h.nextStream)
    requires forall k :: k in subs ==> subs[k] != {}
    requires forall c :: c in out ==> c in h.streams && Has(h.subs, h.streams[c].key, c)
    requires forall k, c :: Has(subs, k, c) <==> Has(h.subs, k, c) && c !in out
    ensures StreamsOk(h.streams, subs, h.streamDebts + Fill(out, StreamDebt(Try, e, thenClose)), h.arrived, h.nextStream)
  {
    hide StreamOk;
    var debts := h.streamDebts + Fill(out, StreamDebt(Try, e, thenClose));
    forall c | c in h.streams ensures StreamAt(h.streams, subs, debts, h.arrived, c) {
      assert StreamAt(h.streams, h.subs, h.streamDebts, h.arrived, c);
      if c in out {
        StreamEvicted(h.streams[c], At(h.arrived, h.streams[c].key), Debt(h.streamDebts, c), e, thenClose);
      }
    }
  }

  lemma NotOwnedEmpty(lease: LeaseId)
    ensures NotOwnedBy([], lease) == []
  {
  }

  lemma LeaseLists(h: Hub, lease: LeaseId)
    requires CallsOk(h.calls, h.waiters, h.callDebts, h.nextCall)
    ensures var u := CloseLease(h, lease);
      && (forall j :: j in u.waiters ==> ListOk(h.calls, j, u.waiters[j]))
      && (forall j :: At(u.waiters, j) == NotOwnedBy(At(h.waiters, j), lease))
  {
    hide CallAt, NotOwnedBy;
    var u := CloseLease(h, lease);
    forall j ensures At(u.waiters, j) == NotOwnedBy(At(h.waiters, j), lease) {
      NotOwnedFacts(At(h.waiters, j), lease);
      NotOwnedEmpty(lease);
    }
    forall j | j in u.waiters ensures ListOk(h.calls, j, u.waiters[j]) {
      assert ListOk(h.calls, j, h.waiters[j]);
      NotOwnedFacts(h.waiters[j], lease);
    }
  }

  lemma LeaseCalls(h: Hub, lease: LeaseId)
    requires CallsOk(h.calls, h.waiters, h.callDebts, h.nextCall)
    ensures forall c :: c in OwnedCalls(h.waiters, lease) <==>
              c in h.calls && Listed(h.waiters, c, h.calls[c]) && h.calls[c].owner == Some(lease)
  {
    hide CallAt;
    forall c | c in OwnedCalls(h.waiters, lease)
      ensures c in h.calls && Listed(h.waiters, c, h.calls[c]) && h.calls[c].owner == Some(lease)
    {
      var k, i :| k in h.waiters && 0 <= i < |h.waiters[k]| && h.waiters[k][i].owner == Some(lease) && h.waiters[k][i].ch == c;
      assert ListOk(h.calls, k, h.waiters[k]) && h.waiters[k][i] in h.waiters[k];
    }
    forall c | c in h.calls && Listed(h.waiters, c, h.calls[c]) && h.calls[c].owner == Some(lease)
      ensures c in OwnedCalls(h.waiters, lease)
    {
      var k := h.calls[c].key;
      var i :| 0 <= i < |h.waiters[k]| && h.waiters[k][i] == Listener(c, h.calls[c].owner);
    }
  }

  lemma CloseLeaseCalls(h: Hub, lease: LeaseId)
    requires CallsOk(h.calls, h.waiters, h.callDebts, h.nextCall)
    ensures var u := CloseLease(h, lease); CallsOk(u.calls, u.waiters, u.callDebts, u.nextCall)
  {
    hide CallAt, ListOk, OwnedCalls, NotOwnedBy;
    var u := CloseLease(h, lease);
    LeaseLists(h, lease);
    LeaseCalls(h, lease);
    forall c | c in h.calls
      ensures Listed(u.waiters, c, h.calls[c]) <==> Listed(h.waiters, c, h.calls[c]) && c !in OwnedCalls(h.waiters, lease)
    {
      NotOwnedFacts(At(h.waiters, h.calls[c].key), lease);
    }
    EvictCalls(h, u.waiters, OwnedCalls(h.waiters, lease), CallDebt(LeaseClosed, false, false));
  }

  lemma CloseLeaseStreams(h: Hub, lease: LeaseId)
    requires StreamsOk(h.streams, h.subs, h.streamDebts, h.arrived, h.nextStream)
    ensures var u := CloseLease(h, lease); StreamsOk(u.streams, u.subs, u.streamDebts, u.arrived, u.nextStream)
  {
    hide StreamAt;
    var u := CloseLease(h, lease);
    forall c | c in OwnedStreams(h.streams, h.subs, lease) ensures c in h.streams && Has(h.subs, h.streams[c].key, c) {
      var k :| k in h.subs && c in h.subs[k] && OwnedBy(h.streams, c, lease);
      assert Has(h.subs, k, c);
    }
    forall k, c ensures Has(u.subs, k, c) <==> Has(h.subs, k, c) && c !in OwnedStreams(h.streams, h.subs, lease) {
      if Has(h.subs, k, c) && !OwnedBy(h.streams, c, lease) {
        assert c in KeepSubs(h.streams, h.subs[k], lease);
      }
    }
    EvictStreams(h, u.subs, OwnedStreams(h.streams, h.subs, lease), LeaseClosed, false);
  }

  lemma CloseLeaseKeeps(h: Hub, lease: LeaseId)
    requires Inv(h)
    ensures Inv(CloseLease(h, lease))
  {
    hide CallsOk, QueuesOk, StreamsOk, KeepSubs, NotOwnedBy, OwnedCalls, OwnedStreams, Fill;
    var u := CloseLease(h, lease);
    FewerListened(h, h.waiters.Keys + h.subs.Keys, u.waiters.Keys + u.subs.Keys);
    CloseLeaseCalls(h, lease);
    CloseLeaseStreams(h, lease);
  }

  lemma StopCalls(h: Hub, error: Error)
    requires CallsOk(h.calls, h.waiters, h.callDebts, h.nextCall)
    ensures var u := Stop(h, error); CallsOk(u.calls, u.waiters, u.callDebts, u.nextCall)
  {
    hide CallAt;
    forall c | c in AllCalls(h.waiters) ensures c in h.calls && Listed(h.waiters, c, h.calls[c]) {
      var k, i :| k in h.waiters && 0 <= i < |h.waiters[k]| && h.waiters[k][i].ch == c;
      assert ListOk(h.calls, k, h.waiters[k]) && h.waiters[k][i] in h.waiters[k];
    }
    forall c | c in h.calls && Listed(h.waiters, c, h.calls[c]) ensures c in AllCalls(h.waiters) {
      var k := h.calls[c].key;
      var i :| 0 <= i < |h.waiters[k]| && h.waiters[k][i] == Listener(c, h.calls[c].owner);
    }
    EvictCalls(h, map[], AllCalls(h.waiters), CallDebt(error, true, false));
  }

  lemma StopStreams(h: Hub, error: Error)
    requires StreamsOk(h.streams, h.subs, h.streamDebts, h.arrived, h.nextStream)
    ensures var u := Stop(h, error); StreamsOk(u.streams, u.subs, u.streamDebts, u.arrived, u.nextStream)
  {
    hide StreamAt;
    forall c | c in AllStreams(h.subs) ensures c in h.streams && Has(h.subs, h.streams[c].key, c) {
      var k :| k in h.subs && c in h.subs[k];
      assert Has(h.subs, k, c);
    }
    EvictStreams(h, map[], AllStreams(h.subs), error, true);
  }

  lemma StopKeeps(h: Hub, error: Error)
    requires Inv(h)
    ensures Inv(Stop(h, error))
  {
    hide CallsOk, QueuesOk, StreamsOk;
    FewerListened(h, h.waiters.Keys + h.subs.Keys, {});
    StopCalls(h, error);
    StopStreams(h, error);
    assert Stop(h, error).waiters.Keys + Stop(h, error).subs.Keys == {};
  }

  lemma ClearKeeps(h: Hub)
    requires Inv(h)
    ensures Inv(ClearQueues(h))
  {
    hide CallsOk, StreamsOk;
    var u := ClearQueues(h);
    var listened := h.waiters.Keys + h.subs.Keys;
    forall k ensures QueueAt(u.queue, u.arrived, u.handed, listened, k) {
      assert QueueAt(h.queue, h.arrived, h.handed, listened, k);
    }
  }

  /** What the critical sections rely on about the listeners of one key. */
  lemma KnownListeners(h: Hub, k: Key)
    requires Inv(h)
    ensures forall w :: w in At(h.waiters, k) ==> w.ch in h.calls && h.calls[w.ch].owner == w.owner
    ensures Subscribers(h, k) <= h.streams.Keys
    ensures |At(h.queue, k)| <= MAX_QUEUED
  {
    hide CallAt, StreamAt;
    assert k in h.waiters ==> ListOk(h.calls, k, h.waiters[k]);
    assert QueueAt(h.queue, h.arrived, h.handed, h.waiters.Keys + h.subs.Keys, k);
    forall c | c in Subscribers(h, k) ensures c in h.streams {
      assert Has(h.subs, k, c);
    }
  }
}
