/** Unsolicited indications: one-shot waiters, subscriber streams and the bounded
    queue that holds indications nobody was listening for. */
module Indications {
  import opened Bytes
  import opened Channels

  const MAX_QUEUED: nat := 32

  datatype Key = Key(serviceID: bytes, commandID: int)
  datatype Indication = Indication(key: Key, information: bytes)
  datatype WatchResult = Value(indication: Indication) | Err(error: Error)

  datatype Listener = Listener(ch: ChanId, owner: Owner)

  /** Where a NextIndication caller is: blocked in its select, past the section of
      cancelIndicationWaiter that did not find it, or back with a result. */
  datatype Phase = Blocked | Polling | Returned(result: WatchResult)
  datatype Call = Call(key: Key, owner: Owner, slot: Chan<WatchResult>, phase: Phase)

  /** A send to a caller, and for a stopped receiver the close after it, that are
      still to happen outside the mutex. */
  datatype CallDebt = CallDebt(error: Error, thenClose: bool, done: bool)

  /** A subscriber's channel, with the lease it was opened under; start is the
      arrival number of the first indication given to the stream. */
  datatype Stream = Stream(key: Key, owner: Owner, start: nat, chan: Chan<WatchResult>)

  /** The three selects of deliverWatchResult, then the close of a stopped receiver. */
  datatype Stage = Try | Discard | Retry | Shut
  datatype StreamDebt = StreamDebt(stage: Stage, error: Error, thenClose: bool)

  /** How many values the consumer of a full stream takes before the discard and
      before the second send. */
  datatype Meanwhile = Meanwhile(first: nat, second: nat)

  /** arrived numbers every published indication of a key; handed lists the
      numbers that left through NextIndication, in the order they left, and takers
      the calls they went to. */
  datatype Hub = Hub(
    subs: map<Key, set<ChanId>>,
    waiters: map<Key, seq<Listener>>,
    queue: map<Key, seq<Indication>>,
    calls: map<ChanId, Call>,
    callDebts: map<ChanId, CallDebt>,
    streams: map<ChanId, Stream>,
    streamDebts: map<ChanId, StreamDebt>,
    arrived: map<Key, seq<Indication>>,
    handed: map<Key, seq<nat>>,
    takers: map<Key, seq<ChanId>>,
    nextCall: ChanId,
    nextStream: ChanId)

  const EMPTY: Hub := Hub(map[], map[], map[], map[], map[], map[], map[], map[], map[], map[], 0, 0)

  function At<T>(m: map<Key, seq<T>>, k: Key): seq<T> {
    if k in m then m[k] else []
  }

  function Subscribers(h: Hub, k: Key): set<ChanId> {
    if k in h.subs then h.subs[k] else {}
  }

  function Store<T>(m: map<Key, seq<T>>, k: Key, s: seq<T>): map<Key, seq<T>> {
    if s == [] then m - {k} else m[k := s]
  }

  function Without(s: seq<Listener>, ch: ChanId): seq<Listener> {
    if s == [] then [] else if s[0].ch == ch then s[1..] else [s[0]] + Without(s[1..], ch)
  }

  function NotOwnedBy(s: seq<Listener>, lease: LeaseId): seq<Listener> {
    if s == [] then []
    else if s[0].owner == Some(lease) then NotOwnedBy(s[1..], lease)
    else [s[0]] + NotOwnedBy(s[1..], lease)
  }

  function Values(s: seq<Indication>): (r: seq<WatchResult>)
    ensures |r| == |s| && forall i :: 0 <= i < |s| ==> r[i] == Value(s[i])
  {
    seq(|s|, i requires 0 <= i < |s| => Value(s[i]))
  }

  /** A plain channel send: it goes through, or it blocks and nothing changes. */
  function SendIfRoom(c: Chan<WatchResult>, v: WatchResult): Chan<WatchResult> {
    if CanSend(c) then Send(c, v) else c
  }

  /** deliverWatchResult while the consumer goes on receiving. */
  function DeliverWatch(c: Chan<WatchResult>, v: WatchResult, m: Meanwhile): Chan<WatchResult> {
    if CanSend(c) then Send(c, v)
    else SendIfRoom(TakeMany(Drop(TakeMany(c, m.first)), m.second), v)
  }

  function LastQueued(s: seq<Indication>): seq<Indication> {
    if |s| > MAX_QUEUED then s[|s| - MAX_QUEUED..] else s
  }

  // ---- critical sections ----

  /** queueIndicationLocked. */
  function Enqueue(h: Hub, ind: Indication): Hub {
    h.(queue := h.queue[ind.key := LastQueued(At(h.queue, ind.key) + [ind])],
       arrived := h.arrived[ind.key := At(h.arrived, ind.key) + [ind]])
  }

  function Pace(env: map<ChanId, Meanwhile>, ch: ChanId): Meanwhile {
    if ch in env then env[ch] else Meanwhile(0, 0)
  }

  function Delivered(st: Stream, ind: Indication, m: Meanwhile): Stream {
    st.(chan := DeliverWatch(st.chan, Value(ind), m))
  }

  /** The streams after those of a set were sent the indication. */
  function FanOver(streams: map<ChanId, Stream>, subs: set<ChanId>, ind: Indication, env: map<ChanId, Meanwhile>): (r: map<ChanId, Stream>)
    ensures r.Keys == streams.Keys
    ensures forall c :: c in streams ==> r[c] == if c in subs then Delivered(streams[c], ind, Pace(env, c)) else streams[c]
    decreases |subs|
  {
    if subs == {} then streams
    else
      var c := Least(subs);
      var rest := FanOver(streams, subs - {c}, ind, env);
      if c in streams then rest[c := Delivered(streams[c], ind, Pace(env, c))] else rest
  }

  /** Gives the indication to every subscriber of its key. */
  function Fan(h: Hub, ind: Indication, env: map<ChanId, Meanwhile>): Hub {
    h.(streams := FanOver(h.streams, Subscribers(h, ind.key), ind, env),
       arrived := h.arrived[ind.key := At(h.arrived, ind.key) + [ind]])
  }

  /** Gives the latest arrival to the first waiter of its key. */
  function Hand(h: Hub, ind: Indication): Hub
    requires At(h.waiters, ind.key) != []
  {
    var s := h.waiters[ind.key];
    var ch := s[0].ch;
    h.(waiters := Store(h.waiters, ind.key, s[1..]),
       calls := if ch in h.calls then h.calls[ch := h.calls[ch].(slot := SendIfRoom(h.calls[ch].slot, Value(ind)))] else h.calls,
       handed := h.handed[ind.key := At(h.handed, ind.key) + [Max(0, |At(h.arrived, ind.key)| - 1)]],
       takers := h.takers[ind.key := At(h.takers, ind.key) + [ch]])
  }

  function Publish(h: Hub, ind: Indication, env: map<ChanId, Meanwhile>): Hub {
    if At(h.waiters, ind.key) == [] then
      if Subscribers(h, ind.key) == {} then Enqueue(h, ind) else Fan(h, ind, env)
    else Hand(Fan(h, ind, env), ind)
  }

  /** A slot that a value has passed through. */
  function Passed(v: WatchResult): Chan<WatchResult> { Chan(1, [], false, [v], [v]) }

  /** NextIndication with something in the queue: the call is over with the oldest, and
      is recorded like one whose slot the indication passed through. */
  function Pop(h: Hub, k: Key, owner: Owner): Hub
    requires At(h.queue, k) != []
  {
    var v := Value(h.queue[k][0]);
    h.(queue := Store(h.queue, k, h.queue[k][1..]),
       calls := h.calls[h.nextCall := Call(k, owner, Passed(v), Returned(v))],
       handed := h.handed[k := At(h.handed, k) + [Max(0, |At(h.arrived, k)| - |h.queue[k]|)]],
       takers := h.takers[k := At(h.takers, k) + [h.nextCall]],
       nextCall := h.nextCall + 1)
  }

  function Max(a: int, b: int): (m: int)
    ensures m >= a && m >= b
  {
    if a >= b then a else b
  }

  /** NextIndication with an empty queue. */
  function Await(h: Hub, k: Key, owner: Owner): Hub {
    h.(waiters := h.waiters[k := At(h.waiters, k) + [Listener(h.nextCall, owner)]],
       calls := h.calls[h.nextCall := Call(k, owner, Make(1), Blocked)],
       nextCall := h.nextCall + 1)
  }

  function AddSubscriber(subs: map<Key, set<ChanId>>, k: Key, ch: ChanId): map<Key, set<ChanId>> {
    subs[k := (if k in subs then subs[k] else {}) + {ch}]
  }

  function Subscribe(h: Hub, k: Key, owner: Owner): Hub {
    var queued := Values(At(h.queue, k));
    var start := Max(0, |At(h.arrived, k)| - |queued|);
    h.(subs := AddSubscriber(h.subs, k, h.nextStream),
       streams := h.streams[h.nextStream := Stream(k, owner, start, Chan(MAX_QUEUED, queued, false, queued, []))],
       queue := h.queue - {k},
       nextStream := h.nextStream + 1)
  }

  /** subscribeIndication after the receiver failed: the queue, the error, the close. */
  function Drain(h: Hub, k: Key, owner: Owner, error: Error): Hub {
    var queued := Values(At(h.queue, k));
    var all := queued + [Err(error)];
    var start := Max(0, |At(h.arrived, k)| - |queued|);
    h.(streams := h.streams[h.nextStream := Stream(k, owner, start, Chan(|all|, all, true, all, []))],
       queue := h.queue - {k},
       nextStream := h.nextStream + 1)
  }

  function Unsubscribe(h: Hub, k: Key, ch: ChanId): Hub {
    if k !in h.subs then h
    else
      var left := h.subs[k] - {ch};
      h.(subs := if left == {} then h.subs - {k} else h.subs[k := left])
  }

  function LeaveLine(h: Hub, ch: ChanId, c: Call, left: seq<Listener>): Hub {
    h.(waiters := Store(h.waiters, c.key, left), calls := h.calls[ch := c.(phase := Returned(Err(Cancelled)))])
  }

  /** The call still stands in the line of its key. */
  predicate Listed(waiters: map<Key, seq<Listener>>, ch: ChanId, c: Call) {
    Listener(ch, c.owner) in At(waiters, c.key)
  }

  function CancelCall(h: Hub, ch: ChanId): Hub
    requires ch in h.calls && h.calls[ch].phase == Blocked
  {
    var c := h.calls[ch];
    if Listed(h.waiters, ch, c) then LeaveLine(h, ch, c, Without(At(h.waiters, c.key), ch))
    else GoPolling(h, ch, c)
  }

  function GoPolling(h: Hub, ch: ChanId, c: Call): Hub {
    h.(calls := h.calls[ch := c.(phase := Polling)])
  }

  function OwnedCalls(waiters: map<Key, seq<Listener>>, lease: LeaseId): set<ChanId> {
    set k, i | k in waiters && 0 <= i < |waiters[k]| && waiters[k][i].owner == Some(lease) :: waiters[k][i].ch
  }

  function OwnedStreams(streams: map<ChanId, Stream>, subs: map<Key, set<ChanId>>, lease: LeaseId): set<ChanId> {
    set k, c | k in subs && c in subs[k] && OwnedBy(streams, c, lease) :: c
  }

  predicate OwnedBy(streams: map<ChanId, Stream>, ch: ChanId, lease: LeaseId) {
    ch in streams && streams[ch].owner == Some(lease)
  }

  function KeepSubs(streams: map<ChanId, Stream>, s: set<ChanId>, lease: LeaseId): set<ChanId> {
    set c | c in s && !OwnedBy(streams, c, lease)
  }

  /** The lines of all keys without the waiters of a lease, and without empty lines. */
  ghost function KeepWaiters(waiters: map<Key, seq<Listener>>, lease: LeaseId): (kept: map<Key, seq<Listener>>)
    ensures forall k :: k in kept <==> k in waiters && NotOwnedBy(waiters[k], lease) != []
    ensures forall k :: k in kept ==> kept[k] == NotOwnedBy(waiters[k], lease)
    decreases |waiters|
  {
    if waiters == map[] then map[]
    else
      var k: Key :| k in waiters;
      var rest := KeepWaiters(waiters - {k}, lease);
      if NotOwnedBy(waiters[k], lease) == [] then rest else rest[k := NotOwnedBy(waiters[k], lease)]
  }

  /** The same for the subscribers. */
  ghost function KeepSubscribers(streams: map<ChanId, Stream>, subs: map<Key, set<ChanId>>, lease: LeaseId): (kept: map<Key, set<ChanId>>)
    ensures forall k :: k in kept <==> k in subs && KeepSubs(streams, subs[k], lease) != {}
    ensures forall k :: k in kept ==> kept[k] == KeepSubs(streams, subs[k], lease)
    decreases |subs|
  {
    if subs == map[] then map[]
    else
      var k: Key :| k in subs;
      var rest := KeepSubscribers(streams, subs - {k}, lease);
      if KeepSubs(streams, subs[k], lease) == {} then rest else rest[k := KeepSubs(streams, subs[k], lease)]
  }

  ghost function CloseLease(h: Hub, lease: LeaseId): Hub {
    h.(waiters := KeepWaiters(h.waiters, lease),
       subs := KeepSubscribers(h.streams, h.subs, lease),
       callDebts := h.callDebts + Fill(OwnedCalls(h.waiters, lease), CallDebt(LeaseClosed, false, false)),
       streamDebts := h.streamDebts + Fill(OwnedStreams(h.streams, h.subs, lease), StreamDebt(Try, LeaseClosed, false)))
  }

  function AllCalls(waiters: map<Key, seq<Listener>>): set<ChanId> {
    set k, i | k in waiters && 0 <= i < |waiters[k]| :: waiters[k][i].ch
  }

  function AllStreams(subs: map<Key, set<ChanId>>): set<ChanId> {
    set k, c | k in subs && c in subs[k] :: c
  }

  function Stop(h: Hub, error: Error): Hub {
    h.(waiters := map[], subs := map[],
       callDebts := h.callDebts + Fill(AllCalls(h.waiters), CallDebt(error, true, false)),
       streamDebts := h.streamDebts + Fill(AllStreams(h.subs), StreamDebt(Try, error, true)))
  }

  function ClearQueues(h: Hub): Hub { h.(queue := map[]) }

  // ---- steps outside the mutex ----

  function SetDebt<T>(m: map<ChanId, T>, ch: ChanId, d: Option<T>): map<ChanId, T> {
    if d == None then m - {ch} else m[ch := d.value]
  }

  /** One step of what is owed to a caller: the send, then the close. */
  function PayCall(c: Call, d: CallDebt): (Call, Option<CallDebt>) {
    if d.done then (c.(slot := Close(c.slot)), None)
    else if d.thenClose then (c.(slot := SendIfRoom(c.slot, Err(d.error))), Some(d.(done := true)))
    else if CanSend(c.slot) then (c.(slot := Send(c.slot, Err(d.error))), None)
    else (c, Some(d))
  }

  /** One select of deliverWatchResult, or the close after it. */
  function PayStream(st: Stream, d: StreamDebt): (Stream, Option<StreamDebt>) {
    var after := if d.thenClose then Some(d.(stage := Shut)) else None;
    match d.stage
    case Try =>
      if CanSend(st.chan) then (st.(chan := Send(st.chan, Err(d.error))), after)
      else (st, Some(d.(stage := Discard)))
    case Discard => (st.(chan := Drop(st.chan)), Some(d.(stage := Retry)))
    case Retry => (st.(chan := SendIfRoom(st.chan, Err(d.error))), after)
    case Shut => (st.(chan := Close(st.chan)), None)
  }

  /** The receive branch of a caller's select. */
  function WakeCall(c: Call): Call {
    if c.slot.buf != [] then c.(slot := Take(c.slot), phase := Returned(c.slot.buf[0]))
    else if c.slot.closed then c.(phase := Returned(Err(ReceiverStopped)))
    else c
  }

  /** The non-blocking receive at the end of cancelIndicationWaiter. */
  function PollCall(c: Call): Call {
    if c.slot.buf != [] then c.(slot := Take(c.slot), phase := Returned(c.slot.buf[0]))
    else c.(phase := Returned(Err(Cancelled)))
  }

  function SetCall(h: Hub, ch: ChanId, c: Call, d: Option<CallDebt>): Hub {
    h.(calls := h.calls[ch := c], callDebts := SetDebt(h.callDebts, ch, d))
  }

  function SetStream(h: Hub, ch: ChanId, st: Stream, d: Option<StreamDebt>): Hub {
    h.(streams := h.streams[ch := st], streamDebts := SetDebt(h.streamDebts, ch, d))
  }

  function Debt<T>(m: map<ChanId, T>, ch: ChanId): Option<T> {
    if ch in m then Some(m[ch]) else None
  }

  function StepCallDebt(h: Hub, ch: ChanId): Hub
    requires ch in h.callDebts && ch in h.calls
  {
    var r := PayCall(h.calls[ch], h.callDebts[ch]);
    SetCall(h, ch, r.0, r.1)
  }

  function StepStreamDebt(h: Hub, ch: ChanId): Hub
    requires ch in h.streamDebts && ch in h.streams
  {
    var r := PayStream(h.streams[ch], h.streamDebts[ch]);
    SetStream(h, ch, r.0, r.1)
  }

  function Wake(h: Hub, ch: ChanId): Hub
    requires ch in h.calls && h.calls[ch].phase == Blocked
  {
    SetCall(h, ch, WakeCall(h.calls[ch]), Debt(h.callDebts, ch))
  }

  function Poll(h: Hub, ch: ChanId): Hub
    requires ch in h.calls && h.calls[ch].phase == Polling
  {
    SetCall(h, ch, PollCall(h.calls[ch]), Debt(h.callDebts, ch))
  }

  function TakeStream(h: Hub, ch: ChanId): Hub
    requires ch in h.streams
  {
    var st := h.streams[ch];
    SetStream(h, ch, if st.chan.buf == [] then st else st.(chan := Take(st.chan)), Debt(h.streamDebts, ch))
  }
}
