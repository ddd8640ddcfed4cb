/** Which call every indication went to: the record of what left through NextIndication
    agrees with what the calls were given. */
module IndicationOrder {
  import opened Bytes
  import opened Channels
  import opened Indications
  import P = IndicationProofs

  /** The indication a call was given, if any. */
  function Given(c: Call): Option<Indication> {
    if c.slot.sent != [] && c.slot.sent[0].Value? then Some(c.slot.sent[0].indication) else None
  }

  /** A record: this call of the key was given the arrival of that number. */
  ghost predicate Exit(calls: map<ChanId, Call>, arrived: seq<Indication>, k: Key, ch: ChanId, n: nat) {
    ch in calls && calls[ch].key == k && n < |arrived| && Given(calls[ch]) == Some(arrived[n])
  }

  ghost predicate ExitsAt(calls: map<ChanId, Call>, arrived: seq<Indication>, handed: seq<nat>, takers: seq<ChanId>, k: Key) {
    && |takers| == |handed|
    && (forall i :: 0 <= i < |takers| ==> Exit(calls, arrived, k, takers[i], handed[i]))
    && (forall i, j :: 0 <= i < j < |takers| ==> takers[i] != takers[j])
  }

  /** Every record is right, and every call that was given an indication is on record. */
  ghost predicate Exits(h: Hub) {
    && (forall k :: KeyExits(h, k))
    && (forall ch :: ch in h.calls && Given(h.calls[ch]).Some? ==> ch in At(h.takers, h.calls[ch].key))
  }

  ghost predicate KeyExits(h: Hub, k: Key) {
    ExitsAt(h.calls, At(h.arrived, k), At(h.handed, k), At(h.takers, k), k)
  }

  // ---- steps that give nothing out ----

  /** No call is given anything and the arrivals only grow. */
  ghost predicate NothingGiven(h: Hub, u: Hub) {
    && u.handed == h.handed && u.takers == h.takers
    && (forall k :: At(h.arrived, k) <= At(u.arrived, k))
    && (forall ch :: ch in h.calls ==> ch in u.calls && SameCall(h.calls[ch], u.calls[ch]))
    && (forall ch :: ch in u.calls && ch !in h.calls ==> Given(u.calls[ch]) == None)
  }

  ghost predicate SameCall(c: Call, d: Call) { d.key == c.key && Given(d) == Given(c) }

  lemma NothingKeeps(h: Hub, u: Hub)
    requires Exits(h) && NothingGiven(h, u)
    ensures Exits(u)
  {
    hide Given, At;
    forall k ensures KeyExits(u, k) {
      assert KeyExits(h, k) && At(h.arrived, k) <= At(u.arrived, k);
      KeyKeeps(h, u, k);
    }
    forall ch | ch in u.calls && Given(u.calls[ch]).Some? ensures ch in At(u.takers, u.calls[ch].key) {
      assert ch in h.calls && SameCall(h.calls[ch], u.calls[ch]);
    }
  }

  lemma KeyKeeps(h: Hub, u: Hub, k: Key)
    requires KeyExits(h, k) && NothingGiven(h, u)
    ensures KeyExits(u, k)
  {
    hide Given, At;
    var takers, handed := At(h.takers, k), At(h.handed, k);
    assert At(h.arrived, k) <= At(u.arrived, k);
    forall i | 0 <= i < |takers| ensures Exit(u.calls, At(u.arrived, k), k, takers[i], handed[i]) {
      assert Exit(h.calls, At(h.arrived, k), k, takers[i], handed[i]);
      assert SameCall(h.calls[takers[i]], u.calls[takers[i]]);
    }
  }

  /** One call moves on without being given anything. */
  lemma CallMoves(h: Hub, u: Hub, ch: ChanId, c: Call)
    requires Exits(h) && ch in h.calls && SameCall(h.calls[ch], c) && u.calls == h.calls[ch := c]
    requires u.handed == h.handed && u.takers == h.takers && u.arrived == h.arrived
    ensures Exits(u)
  {
    hide Exits, Given;
    NothingKeeps(h, u);
  }

  lemma CallSteps(c: Call, d: CallDebt)
    ensures SameCall(c, PayCall(c, d).0) && SameCall(c, WakeCall(c)) && SameCall(c, PollCall(c))
  {
  }

  lemma LeaveExits(h: Hub, ch: ChanId, left: seq<Listener>)
    requires Exits(h) && ch in h.calls
    ensures Exits(LeaveLine(h, ch, h.calls[ch], left)) && Exits(GoPolling(h, ch, h.calls[ch]))
  {
    hide Exits, Store;
    CallMoves(h, LeaveLine(h, ch, h.calls[ch], left), ch, h.calls[ch].(phase := Returned(Err(Cancelled))));
    CallMoves(h, GoPolling(h, ch, h.calls[ch]), ch, h.calls[ch].(phase := Polling));
  }

  lemma CancelExits(h: Hub, ch: ChanId)
    requires Exits(h) && ch in h.calls && h.calls[ch].phase == Blocked
    ensures Exits(CancelCall(h, ch))
  {
    hide Exits, Listed, Without, LeaveLine, GoPolling;
    LeaveExits(h, ch, Without(At(h.waiters, h.calls[ch].key), ch));
  }

  lemma AwaitExits(h: Hub, k: Key, owner: Owner)
    requires Exits(h) && h.nextCall !in h.calls
    ensures Exits(Await(h, k, owner))
  {
    hide Exits;
    NothingKeeps(h, Await(h, k, owner));
  }

  /** The steps of what a call is owed, and of its own receive. */
  lemma CallStepExits(h: Hub, ch: ChanId)
    requires Exits(h) && ch in h.calls
    ensures ch in h.callDebts ==> Exits(StepCallDebt(h, ch))
    ensures h.calls[ch].phase == Blocked ==> Exits(Wake(h, ch))
    ensures h.calls[ch].phase == Polling ==> Exits(Poll(h, ch))
  {
    hide Exits, SameCall, SetCall, PayCall, WakeCall, PollCall;
    var c := h.calls[ch];
    if ch in h.callDebts {
      CallSteps(c, h.callDebts[ch]);
      SetExits(h, ch, PayCall(c, h.callDebts[ch]).0, PayCall(c, h.callDebts[ch]).1);
    }
    CallSteps(c, CallDebt(Cancelled, false, false));
    SetExits(h, ch, WakeCall(c), Debt(h.callDebts, ch));
    SetExits(h, ch, PollCall(c), Debt(h.callDebts, ch));
  }

  lemma SetExits(h: Hub, ch: ChanId, c: Call, d: Option<CallDebt>)
    requires Exits(h) && ch in h.calls && SameCall(h.calls[ch], c)
    ensures Exits(SetCall(h, ch, c, d))
  {
    hide Exits, SameCall, SetDebt;
    CallMoves(h, SetCall(h, ch, c, d), ch, c);
  }

  lemma ArrivedExits(h: Hub, u: Hub, ind: Indication)
    requires Exits(h) && u.handed == h.handed && u.takers == h.takers && u.calls == h.calls
    requires u.arrived == h.arrived || u.arrived == h.arrived[ind.key := At(h.arrived, ind.key) + [ind]]
    ensures Exits(u)
  {
    hide Exits;
    NothingKeeps(h, u);
  }

  // ---- steps that give an indication out ----

  /** Call ch of key k, on record for nothing so far, was given arrival n. */
  ghost predicate Gives(h: Hub, u: Hub, k: Key, ch: ChanId, n: nat) {
    && u.arrived == h.arrived
    && u.handed == h.handed[k := At(h.handed, k) + [n]] && u.takers == h.takers[k := At(h.takers, k) + [ch]]
    && Exit(u.calls, At(u.arrived, k), k, ch, n)
    && (ch in h.calls ==> Given(h.calls[ch]) == None)
    && (forall c :: c in h.calls && c != ch ==> c in u.calls && u.calls[c] == h.calls[c])
    && (forall c :: c in u.calls && c != ch ==> c in h.calls)
  }

  lemma GivenKey(h: Hub, u: Hub, k: Key, ch: ChanId, n: nat, j: Key)
    requires KeyExits(h, j) && Gives(h, u, k, ch, n)
    ensures KeyExits(u, j)
  {
    hide Given, At;
    var takers, handed := At(h.takers, j), At(h.handed, j);
    assert At(u.takers, j) == if j == k then takers + [ch] else takers by { TakerAt(h.takers, k, At(h.takers, k) + [ch], j); }
    assert At(u.handed, j) == if j == k then handed + [n] else handed by { NumberAt(h.handed, k, At(h.handed, k) + [n], j); }
    forall i | 0 <= i < |takers| ensures takers[i] != ch && Exit(u.calls, At(u.arrived, j), j, takers[i], handed[i]) {
      assert Exit(h.calls, At(h.arrived, j), j, takers[i], handed[i]);
    }
  }

  lemma TakerAt(m: map<Key, seq<ChanId>>, k: Key, s: seq<ChanId>, j: Key)
    ensures At(m[k := s], j) == if j == k then s else At(m, j)
  {
  }

  lemma NumberAt(m: map<Key, seq<nat>>, k: Key, s: seq<nat>, j: Key)
    ensures At(m[k := s], j) == if j == k then s else At(m, j)
  {
  }

  lemma GivesKeeps(h: Hub, u: Hub, k: Key, ch: ChanId, n: nat)
    requires Exits(h) && Gives(h, u, k, ch, n)
    ensures Exits(u)
  {
    hide Given, At;
    forall j ensures KeyExits(u, j) {
      assert KeyExits(h, j);
      GivenKey(h, u, k, ch, n, j);
    }
    forall c | c in u.calls && Given(u.calls[c]).Some? ensures c in At(u.takers, u.calls[c].key) {
      var j := u.calls[c].key;
      TakerAt(h.takers, k, At(h.takers, k) + [ch], j);
      if c == ch {
        assert (At(h.takers, k) + [ch])[|At(h.takers, k)|] == ch;
      } else {
        assert c in At(h.takers, j);
      }
    }
  }

  /** A call in line has been given nothing and has room. */
  lemma SlotGets(c: Call, debt: Option<CallDebt>, ind: Indication)
    requires P.CallOk(c, true, debt)
    ensures Given(c) == None && Given(c.(slot := SendIfRoom(c.slot, Value(ind)))) == Some(ind)
  {
  }

  lemma FirstInLine(h: Hub, k: Key)
    requires P.CallsOk(h.calls, h.waiters, h.callDebts, h.nextCall) && At(h.waiters, k) != []
    ensures var ch := h.waiters[k][0].ch;
      ch in h.calls && h.calls[ch].key == k && P.CallOk(h.calls[ch], true, Debt(h.callDebts, ch))
  {
    hide P.CallOk;
    var w := h.waiters[k][0];
    assert P.ListOk(h.calls, k, h.waiters[k]) && w in h.waiters[k];
    assert P.CallAt(h.calls, h.waiters, h.callDebts, w.ch);
    assert Listed(h.waiters, w.ch, h.calls[w.ch]);
  }

  lemma HandGives(h: Hub, ind: Indication)
    requires P.CallsOk(h.calls, h.waiters, h.callDebts, h.nextCall) && At(h.waiters, ind.key) != []
    requires At(h.arrived, ind.key) != [] && At(h.arrived, ind.key)[|At(h.arrived, ind.key)| - 1] == ind
    ensures Gives(h, Hand(h, ind), ind.key, h.waiters[ind.key][0].ch, |At(h.arrived, ind.key)| - 1)
  {
    hide P.CallsOk, P.CallOk, Given, SendIfRoom, Store;
    FirstInLine(h, ind.key);
    var ch := h.waiters[ind.key][0].ch;
    SlotGets(h.calls[ch], Debt(h.callDebts, ch), ind);
  }

  lemma PopGives(h: Hub, k: Key, owner: Owner, listened: bool)
    requires P.QueueOk(At(h.queue, k), At(h.arrived, k), At(h.handed, k), listened)
    requires At(h.queue, k) != [] && h.nextCall !in h.calls
    ensures |h.queue[k]| <= |At(h.arrived, k)|
    ensures Gives(h, Pop(h, k, owner), k, h.nextCall, |At(h.arrived, k)| - |h.queue[k]|)
  {
    var q, arrived := h.queue[k], At(h.arrived, k);
    assert q[0] == arrived[|arrived| - |q|..][0];
  }

  lemma PopExits(h: Hub, k: Key, owner: Owner)
    requires P.Inv(h) && Exits(h) && At(h.queue, k) != []
    ensures Exits(Pop(h, k, owner))
  {
    var listened := h.waiters.Keys + h.subs.Keys;
    assert P.QueueAt(h.queue, h.arrived, h.handed, listened, k);
    FreshCall(h);
    hide P.Inv, Exits, P.QueueOk, Gives, Pop;
    PopGives(h, k, owner, k in listened);
    GivesKeeps(h, Pop(h, k, owner), k, h.nextCall, |At(h.arrived, k)| - |h.queue[k]|);
  }

  lemma FreshCall(h: Hub)
    requires P.Inv(h)
    ensures h.nextCall !in h.calls
  {
    hide P.QueuesOk, P.StreamsOk, P.CallAt, P.ListOk;
  }

  lemma PublishExits(h: Hub, ind: Indication, env: map<ChanId, Meanwhile>)
    requires P.Inv(h) && Exits(h)
    ensures Exits(Publish(h, ind, env))
  {
    hide P.QueuesOk, P.CallsOk, P.StreamsOk, Exits, DeliverWatch;
    if At(h.waiters, ind.key) == [] {
      if Subscribers(h, ind.key) == {} {
        ArrivedExits(h, Enqueue(h, ind), ind);
      } else {
        ArrivedExits(h, Fan(h, ind, env), ind);
      }
    } else {
      var f := Fan(h, ind, env);
      ArrivedExits(h, f, ind);
      hide Gives, Hand;
      HandGives(f, ind);
      GivesKeeps(f, Hand(f, ind), ind.key, f.waiters[ind.key][0].ch, |At(f.arrived, ind.key)| - 1);
    }
  }
}
