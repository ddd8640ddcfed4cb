/** What becomes of those who listen for indications: who is registered, what each is
    given, and that every one that is turned away gets its error. Over all runs. */
module ListenerOutcomes {
  import opened Bytes
  import opened Channels
  import opened Dispatcher
  import opened DispatcherProofs
  import opened DispatcherTheorems
  import R = Responses
  import I = Indications
  import P = IndicationProofs

  // ---- NextIndication ----

  predicate Refused(f: Flags, owner: Owner) {
    (owner.Some? && owner.value in f.leasesClosed) || f.closed || f.closing
  }

  /** The oldest queued indication of the key went to a new call, which is over. */
  ghost predicate Popped(h: I.Hub, u: I.Hub, k: I.Key, owner: Owner) {
    var queue := I.At(h.queue, k);
    && queue != [] && I.At(u.queue, k) == queue[1..] && (forall j :: j != k ==> I.At(u.queue, j) == I.At(h.queue, j))
    && h.nextCall !in h.calls && h.nextCall in u.calls && u.calls[h.nextCall].key == k
    && u.calls[h.nextCall].phase == I.Returned(I.Value(queue[0]))
    && (forall c :: c in h.calls ==> c in u.calls && u.calls[c] == h.calls[c])
    && u.waiters == h.waiters && u.subs == h.subs && u.streams == h.streams
  }

  /** A new call waits at the end of the line of the key. */
  ghost predicate Queues(h: I.Hub, u: I.Hub, k: I.Key, owner: Owner) {
    && I.At(u.waiters, k) == I.At(h.waiters, k) + [I.Listener(h.nextCall, owner)]
    && (forall j :: j != k ==> I.At(u.waiters, j) == I.At(h.waiters, j))
    && h.nextCall !in h.calls && h.nextCall in u.calls
    && u.calls[h.nextCall].key == k && u.calls[h.nextCall].owner == owner && u.calls[h.nextCall].phase == I.Blocked
    && u.calls[h.nextCall].slot.sent == [] && CanSend(u.calls[h.nextCall].slot)
    && (forall c :: c in h.calls ==> c in u.calls && u.calls[c] == h.calls[c])
    && u.queue == h.queue && u.subs == h.subs && u.streams == h.streams
  }

  /** NextIndication of a willing client takes the oldest queued indication of the key,
      even after the receiver failed; with nothing queued it joins the end of the line if
      the receiver runs or can be started, and otherwise changes nothing. */
  lemma NextDecides(hasConn: bool, es: seq<Event>, owner: Owner, k: I.Key)
    ensures var s := Run(Init(hasConn), es);
      var s' := Apply(s, Next(owner, k));
      && s'.table == s.table
      && if Refused(s.flags, owner) then s' == s
         else if I.At(s.hub.queue, k) != [] then s'.flags == s.flags && Popped(s.hub, s'.hub, k, owner)
         else if s.flags.failure.Some? || !(s.flags.started || s.flags.hasConn) then s' == s
         else s'.flags == s.flags.(started := true) && Queues(s.hub, s'.hub, k, owner)
  {
    Reached(hasConn, es);
    hide Run, Inv, R.Inv;
    var s := Run(Init(hasConn), es);
    FreshIds(s.hub);
    NextCases(s, owner, k);
    hide P.Inv, Popped, Queues, I.Pop, I.Await, Apply, I.At, Refused;
    if I.At(s.hub.queue, k) != [] {
      Pops(s.hub, k, owner);
    } else {
      Awaits(s.hub, k, owner);
    }
  }

  lemma NextCases(s: State, owner: Owner, k: I.Key)
    ensures Apply(s, Next(owner, k)) ==
      if Refused(s.flags, owner) then s
      else if I.At(s.hub.queue, k) != [] then s.(hub := I.Pop(s.hub, k, owner))
      else if s.flags.failure.Some? || !(s.flags.started || s.flags.hasConn) then s
      else s.(flags := s.flags.(started := true), hub := I.Await(s.hub, k, owner))
  {
    hide I.Pop, I.Await, I.At;
  }

  lemma FreshIds(h: I.Hub)
    requires P.Inv(h)
    ensures h.nextCall !in h.calls && h.nextStream !in h.streams
  {
    hide P.QueuesOk, P.CallAt, P.StreamAt, P.ListOk, P.SubsOk;
  }

  lemma Pops(h: I.Hub, k: I.Key, owner: Owner)
    requires I.At(h.queue, k) != [] && h.nextCall !in h.calls
    ensures Popped(h, I.Pop(h, k, owner), k, owner)
  {
  }

  lemma Awaits(h: I.Hub, k: I.Key, owner: Owner)
    requires h.nextCall !in h.calls
    ensures Queues(h, I.Await(h, k, owner), k, owner)
  {
  }

  /** Nothing changed but this call, which is now in the given phase. */
  ghost predicate OnlyCall(h: I.Hub, u: I.Hub, ch: ChanId, phase: I.Phase) {
    && ch in u.calls && u.calls[ch].phase == phase
    && (forall c :: c in h.calls && c != ch ==> c in u.calls && u.calls[c] == h.calls[c])
    && u.waiters == h.waiters && u.queue == h.queue && u.subs == h.subs && u.streams == h.streams
    && u.callDebts == h.callDebts
  }

  /** A blocked call returns with what is in its slot, or with an error once the slot is
      closed and empty; a call past its cancellation returns what is there, or the
      cancellation if nothing is. */
  lemma CallReturns(hasConn: bool, es: seq<Event>, ch: ChanId)
    requires ch in Run(Init(hasConn), es).hub.calls
    ensures var s := Run(Init(hasConn), es);
      var c := s.hub.calls[ch];
      && (c.phase == I.Blocked ==>
            var u := Apply(s, Wake(ch)).hub;
            if c.slot.buf != [] then OnlyCall(s.hub, u, ch, I.Returned(c.slot.buf[0]))
            else if c.slot.closed then OnlyCall(s.hub, u, ch, I.Returned(I.Err(ReceiverStopped)))
            else OnlyCall(s.hub, u, ch, I.Blocked))
      && (c.phase == I.Polling ==>
            OnlyCall(s.hub, Apply(s, Poll(ch)).hub, ch, I.Returned(if c.slot.buf != [] then c.slot.buf[0] else I.Err(Cancelled))))
  {
    hide Run;
    DebtBack(Run(Init(hasConn), es).hub, ch);
  }

  lemma DebtBack(h: I.Hub, ch: ChanId)
    ensures I.SetDebt(h.callDebts, ch, I.Debt(h.callDebts, ch)) == h.callDebts
    ensures I.SetDebt(h.streamDebts, ch, I.Debt(h.streamDebts, ch)) == h.streamDebts
  {
  }

  /** A cancelled call that still stands in line leaves it, the others keeping their
      order, and returns the cancellation. One that does not goes on to look into its slot,
      so that what it was handed is returned after all. */
  lemma CancelDecides(s: State, ch: ChanId)
    requires ch in s.hub.calls && s.hub.calls[ch].phase == I.Blocked
    ensures var c, u := s.hub.calls[ch], Apply(s, Cancel(ch)).hub;
      if I.Listener(ch, c.owner) in I.At(s.hub.waiters, c.key) then
        && ch in u.calls && u.calls[ch].phase == I.Returned(I.Err(Cancelled))
        && LeftLine(I.At(s.hub.waiters, c.key), I.At(u.waiters, c.key), ch)
        && (forall j :: j != c.key ==> I.At(u.waiters, j) == I.At(s.hub.waiters, j))
      else
        && OnlyCall(s.hub, u, ch, I.Polling)
        && (c.slot.buf != [] ==>
              var v := Apply(Apply(s, Cancel(ch)), Poll(ch)).hub; ch in v.calls && v.calls[ch].phase == I.Returned(c.slot.buf[0]))
  {
    hide LeftLine;
    var c := s.hub.calls[ch];
    var line := I.At(s.hub.waiters, c.key);
    if I.Listener(ch, c.owner) in line {
      WithoutLeaves(line, ch, c.owner);
      StoredAt(s.hub.waiters, c.key, I.Without(line, ch));
      hide I.Without, I.At, I.Store;
    } else {
      CancelMissed(s, ch);
      hide I.Without, I.At, I.Store, Apply, OnlyCall;
    }
  }

  lemma CancelMissed(s: State, ch: ChanId)
    requires ch in s.hub.calls && s.hub.calls[ch].phase == I.Blocked
    requires I.Listener(ch, s.hub.calls[ch].owner) !in I.At(s.hub.waiters, s.hub.calls[ch].key)
    ensures var c, s' := s.hub.calls[ch], Apply(s, Cancel(ch));
      && OnlyCall(s.hub, s'.hub, ch, I.Polling)
      && (c.slot.buf != [] ==> var v := Apply(s', Poll(ch)).hub; ch in v.calls && v.calls[ch].phase == I.Returned(c.slot.buf[0]))
  {
    hide I.Without, I.At, I.Store;
  }

  /** after is line without the one entry of that channel. */
  ghost predicate LeftLine(line: seq<I.Listener>, after: seq<I.Listener>, ch: ChanId) {
    exists i :: 0 <= i < |line| && line[i].ch == ch && after == line[..i] + line[i + 1..]
  }

  lemma {:induction false} WithoutAt(line: seq<I.Listener>, ch: ChanId) returns (i: nat)
    requires exists w :: w in line && w.ch == ch
    ensures i < |line| && line[i].ch == ch && I.Without(line, ch) == line[..i] + line[i + 1..]
  {
    if line[0].ch == ch {
      i := 0;
    } else {
      var rest := line[1..];
      assert line == [line[0]] + rest;
      var j := WithoutAt(rest, ch);
      i := j + 1;
      assert line[..i] == [line[0]] + rest[..j] && line[i + 1..] == rest[j + 1..];
    }
  }

  lemma WithoutLeaves(line: seq<I.Listener>, ch: ChanId, owner: Owner)
    requires I.Listener(ch, owner) in line
    ensures LeftLine(line, I.Without(line, ch), ch)
  {
    hide I.Without;
    var i := WithoutAt(line, ch);
  }

  lemma StoredAt(m: map<I.Key, seq<I.Listener>>, k: I.Key, s: seq<I.Listener>)
    ensures I.At(I.Store(m, k, s), k) == s && forall j :: j != k ==> I.At(I.Store(m, k, s), j) == I.At(m, j)
  {
  }

  // ---- subscribing ----

  /** A new stream, with nothing received from it yet, holds exactly these values; the
      queue of its key is empty and all else is as it was. */
  ghost predicate Opened(h: I.Hub, u: I.Hub, k: I.Key, owner: Owner, values: seq<I.WatchResult>) {
    && h.nextStream !in h.streams && h.nextStream in u.streams
    && u.streams[h.nextStream].key == k && u.streams[h.nextStream].owner == owner
    && u.streams[h.nextStream].chan.buf == values && u.streams[h.nextStream].chan.taken == []
    && (forall c :: c in h.streams ==> c in u.streams && u.streams[c] == h.streams[c])
    && I.At(u.queue, k) == [] && (forall j :: j != k ==> I.At(u.queue, j) == I.At(h.queue, j))
    && u.waiters == h.waiters && u.calls == h.calls
  }

  ghost predicate Listening(h: I.Hub, u: I.Hub, k: I.Key) {
    forall j, c :: P.Has(u.subs, j, c) <==> P.Has(h.subs, j, c) || (j == k && c == h.nextStream)
  }

  /** Subscribing gives a willing client a stream that starts with everything queued under
      the key, in order. If the receiver runs or can be started the stream has room for 32
      and is registered; if it failed and something is queued the stream ends with the
      failure and is closed; if it failed with nothing queued nothing changes. */
  lemma SubscribeDecides(hasConn: bool, es: seq<Event>, owner: Owner, k: I.Key)
    ensures var s := Run(Init(hasConn), es);
      var s' := Apply(s, Subscribe(owner, k));
      var queued, ch := I.At(s.hub.queue, k), s.hub.nextStream;
      && s'.table == s.table
      && if Refused(s.flags, owner) then s' == s
         else if s.flags.failure.Some? then
           if queued == [] then s' == s
           else Opened(s.hub, s'.hub, k, owner, AsValues(queued) + [I.Err(s.flags.failure.value)])
                && s'.hub.streams[ch].chan.closed && s'.hub.subs == s.hub.subs && s'.flags == s.flags
         else if !(s.flags.started || s.flags.hasConn) then s' == s
         else Opened(s.hub, s'.hub, k, owner, AsValues(queued)) && Listening(s.hub, s'.hub, k)
              && s'.hub.streams[ch].chan.capacity == 32 && !s'.hub.streams[ch].chan.closed
              && s'.flags == s.flags.(started := true)
  {
    Reached(hasConn, es);
    hide Run, Inv, R.Inv;
    var s := Run(Init(hasConn), es);
    FreshIds(s.hub);
    SubscribeCases(s, owner, k);
    hide P.Inv, Opened, Listening, I.Subscribe, I.Drain, Apply, I.At, Refused, AsValues;
    if s.flags.failure.Some? {
      Drains(s.hub, k, owner, s.flags.failure.value);
    } else {
      Subscribes(s.hub, k, owner);
    }
  }

  lemma SubscribeCases(s: State, owner: Owner, k: I.Key)
    ensures Apply(s, Subscribe(owner, k)) ==
      if Refused(s.flags, owner) then s
      else if s.flags.failure.Some? then
        if I.At(s.hub.queue, k) == [] then s else s.(hub := I.Drain(s.hub, k, owner, s.flags.failure.value))
      else if !(s.flags.started || s.flags.hasConn) then s
      else s.(flags := s.flags.(started := true), hub := I.Subscribe(s.hub, k, owner))
  {
    hide I.Drain, I.Subscribe, I.At;
  }

  /** Each indication as a value of a stream, in order. */
  function AsValues(s: seq<I.Indication>): seq<I.WatchResult> {
    if s == [] then [] else AsValues(s[..|s| - 1]) + [I.Value(s[|s| - 1])]
  }

  lemma {:induction false} ValuesAre(s: seq<I.Indication>)
    ensures AsValues(s) == I.Values(s)
    decreases |s|
  {
    if s != [] {
      var n := |s| - 1;
      ValuesAre(s[..n]);
      assert I.Values(s) == I.Values(s[..n]) + [I.Value(s[n])];
    }
  }

  lemma Subscribes(h: I.Hub, k: I.Key, owner: Owner)
    requires h.nextStream !in h.streams
    ensures var u := I.Subscribe(h, k, owner);
      && Opened(h, u, k, owner, AsValues(I.At(h.queue, k))) && Listening(h, u, k)
      && h.nextStream in u.streams && u.streams[h.nextStream].chan.capacity == 32 && !u.streams[h.nextStream].chan.closed
  {
    ValuesAre(I.At(h.queue, k));
    hide I.Values, AsValues;
  }

  lemma Drains(h: I.Hub, k: I.Key, owner: Owner, error: Error)
    requires h.nextStream !in h.streams
    ensures var u := I.Drain(h, k, owner, error);
      && Opened(h, u, k, owner, AsValues(I.At(h.queue, k)) + [I.Err(error)])
      && h.nextStream in u.streams && u.streams[h.nextStream].chan.closed && u.subs == h.subs
  {
    ValuesAre(I.At(h.queue, k));
    hide I.Values, AsValues;
  }

  /** Unsubscribing takes exactly that stream from that key and touches no other. */
  lemma UnsubscribeDecides(s: State, k: I.Key, ch: ChanId)
    ensures var u := Apply(s, Unsubscribe(k, ch)).hub;
      && (forall j, c :: P.Has(u.subs, j, c) <==> P.Has(s.hub.subs, j, c) && !(j == k && c == ch))
      && u == s.hub.(subs := u.subs)
  {
    var u := Apply(s, Unsubscribe(k, ch)).hub;
    if k in s.hub.subs && s.hub.subs[k] - {ch} == {} {
      assert forall c :: c in s.hub.subs[k] ==> c == ch by {
        assert s.hub.subs[k] <= {ch};
      }
    }
  }

  /** A receive from a stream gets the oldest buffered value; from an empty one, nothing. */
  lemma StreamGives(s: State, ch: ChanId)
    requires ch in s.hub.streams
    ensures var c, u := s.hub.streams[ch].chan, Apply(s, TakeStream(ch)).hub;
      && ch in u.streams && (forall d :: d in s.hub.streams && d != ch ==> d in u.streams && u.streams[d] == s.hub.streams[d])
      && if c.buf == [] then u.streams[ch] == s.hub.streams[ch]
         else u.streams[ch].chan.taken == c.taken + [c.buf[0]] && u.streams[ch].chan.buf == c.buf[1..]
  {
  }

  /** Clearing the queues drops what is queued and nothing else. */
  lemma ClearDrops(s: State)
    ensures Apply(s, ClearQueues).hub == s.hub.(queue := map[])
  {
  }

  // ---- what a delivery drops ----

  /** While its buffer has room a stream gains the value and loses nothing. A full stream
      whose consumer takes a values before the oldest is dropped, and b after, loses at
      most that one: none at all if the consumer took everything. */
  lemma DeliveryDropsOne(c: Chan<I.WatchResult>, v: I.WatchResult, a: nat, b: nat)
    requires DropOldest(c) && !c.closed
    ensures var d := I.DeliverWatch(c, v, I.Meanwhile(a, b));
      var all, all' := c.taken + c.buf, d.taken + d.buf;
      if |c.buf| < c.capacity then d.buf == c.buf + [v] && d.taken == c.taken
      else if a >= |c.buf| then all' == all + [v]
      else all' == all[..|c.taken| + a] + all[|c.taken| + a + 1..] + [v]
  {
    if !CanSend(c) {
      Receives(c, a);
      var e := TakeMany(c, a);
      TakeManyKeeps(c, a);
      DropKeeps(e);
      TakeManyKeeps(Drop(e), b);
      var f := TakeMany(Drop(e), b);
      assert f.taken + f.buf == Drop(e).taken + Drop(e).buf;
      assert f.taken + (f.buf + [v]) == f.taken + f.buf + [v];
    }
  }

  lemma {:induction false} Receives(c: Chan<I.WatchResult>, n: nat)
    ensures var d := TakeMany(c, n);
      if n >= |c.buf| then d.buf == [] && d.taken == c.taken + c.buf
      else d.buf == c.buf[n..] && d.taken == c.taken + c.buf[..n]
    decreases n
  {
    if n != 0 && c.buf != [] {
      Receives(Take(c), n - 1);
    }
  }

  /** The stream after one delivery of the indication. */
  function GivenTo(st: I.Stream, ind: I.Indication, m: I.Meanwhile): I.Stream {
    st.(chan := I.DeliverWatch(st.chan, I.Value(ind), m))
  }

  /** Exactly the subscribers of the key were given the indication. */
  ghost predicate OnlySubscribers(h: I.Hub, u: I.Hub, ind: I.Indication, env: map<ChanId, I.Meanwhile>) {
    forall c :: c in h.streams ==>
      c in u.streams && u.streams[c] == if P.Has(h.subs, ind.key, c) then GivenTo(h.streams[c], ind, I.Pace(env, c)) else h.streams[c]
  }

  /** No call changed but that of the first in the line of the key. */
  ghost predicate OnlyFirst(h: I.Hub, u: I.Hub, k: I.Key) {
    var line := I.At(h.waiters, k);
    forall c :: c in h.calls && !(line != [] && line[0].ch == c) ==> c in u.calls && u.calls[c] == h.calls[c]
  }

  ghost predicate OtherKeysStay(h: I.Hub, u: I.Hub, k: I.Key) {
    && (forall j :: j != k ==> I.At(u.queue, j) == I.At(h.queue, j) && I.At(u.waiters, j) == I.At(h.waiters, j))
    && u.subs == h.subs && u.callDebts == h.callDebts && u.streamDebts == h.streamDebts
  }

  /** A published indication changes the streams of its key's subscribers, each by one
      such delivery, and no other stream; it changes the call of the first waiter and no
      other; and it is queued behind the last 31 if nobody listens. */
  lemma PublishFrame(hasConn: bool, es: seq<Event>, ind: I.Indication, env: map<ChanId, I.Meanwhile>)
    ensures var h := Run(Init(hasConn), es).hub;
      var u, q := Apply(Run(Init(hasConn), es), Publish(ind, env)).hub, I.At(h.queue, ind.key);
      && OnlySubscribers(h, u, ind, env) && OnlyFirst(h, u, ind.key) && OtherKeysStay(h, u, ind.key)
      && (ind.key !in h.waiters && ind.key !in h.subs ==> I.At(u.queue, ind.key) == (if |q| < 32 then q else q[1..]) + [ind])
  {
    Reached(hasConn, es);
    hide Run, Inv, R.Inv;
    var h := Run(Init(hasConn), es).hub;
    PublishHub(Run(Init(hasConn), es), ind, env);
    hide Apply;
    P.NobodyListens(h, ind.key);
    HubSends(h);
    hide P.Inv, I.Fan, I.Hand, I.Enqueue, OnlySubscribers, OnlyFirst, OtherKeysStay;
    var f := I.Fan(h, ind, env);
    FanFrame(h, ind, env);
    if I.At(h.waiters, ind.key) != [] {
      HandFrame(h, f, ind, env);
    } else if I.Subscribers(h, ind.key) == {} {
      EnqueueFrame(h, ind, env);
    }
  }

  lemma PublishHub(s: State, ind: I.Indication, env: map<ChanId, I.Meanwhile>)
    ensures Apply(s, Publish(ind, env)).hub == I.Publish(s.hub, ind, env)
  {
    hide I.Publish;
  }

  lemma FanFrame(h: I.Hub, ind: I.Indication, env: map<ChanId, I.Meanwhile>)
    ensures var u := I.Fan(h, ind, env);
      u == h.(streams := u.streams, arrived := u.arrived)
      && OnlySubscribers(h, u, ind, env) && OnlyFirst(h, u, ind.key) && OtherKeysStay(h, u, ind.key)
  {
    hide I.DeliverWatch, I.Pace;
  }

  lemma HandFrame(h: I.Hub, f: I.Hub, ind: I.Indication, env: map<ChanId, I.Meanwhile>)
    requires f == h.(streams := f.streams, arrived := f.arrived) && OnlySubscribers(h, f, ind, env)
    requires I.At(h.waiters, ind.key) != []
    ensures var u := I.Hand(f, ind); OnlySubscribers(h, u, ind, env) && OnlyFirst(h, u, ind.key) && OtherKeysStay(h, u, ind.key)
  {
    hide I.SendIfRoom, GivenTo, I.Pace, P.Has;
  }

  lemma EnqueueFrame(h: I.Hub, ind: I.Indication, env: map<ChanId, I.Meanwhile>)
    requires |I.At(h.queue, ind.key)| <= 32 && I.Subscribers(h, ind.key) == {}
    ensures var u, q := I.Enqueue(h, ind), I.At(h.queue, ind.key);
      && OnlySubscribers(h, u, ind, env) && OnlyFirst(h, u, ind.key) && OtherKeysStay(h, u, ind.key)
      && I.At(u.queue, ind.key) == (if |q| < 32 then q else q[1..]) + [ind]
  {
    hide GivenTo, I.Pace;
    var q := I.At(h.queue, ind.key);
    assert |q| == 32 ==> (q + [ind])[1..] == q[1..] + [ind];
  }
}
