/** Reassembly of received fragments: the collectors keyed by message type and
    transaction, their deadlines, and what comes out of any sequence of frames. */
module Reassembly {
  import opened Bytes
  import opened Fragment
  import R = Responses

  datatype Key = Key(messageType: int, txn: R.Txn)

  /** fragmentCollector with the deadline of its collection. */
  datatype Collector = Collector(messageType: int, txn: R.Txn, total: nat, current: nat, payload: bytes, deadline: nat)

  datatype Outcome = Waiting | Complete(data: bytes) | Fault(txn: R.Txn)

  type Collectors = map<Key, Collector>

  function KeyOf(frame: bytes): Key
    requires |frame| >= 12
  {
    Key(Get32(frame, 0), Get32(frame, 8))
  }

  function Start(f: Fragment, now: nat): Collector {
    Collector(f.messageType, f.txn, f.total, f.current, f.payload, now + FRAGMENT_TIMEOUT)
  }

  predicate Follows(c: Collector, f: Fragment) {
    f.messageType == c.messageType && f.txn == c.txn && f.total == c.total && f.current == (c.current + 1) % TWO_32
  }

  function Extend(c: Collector, f: Fragment, now: nat): Collector {
    c.(current := f.current, payload := c.payload + f.payload, deadline := now + FRAGMENT_TIMEOUT)
  }

  predicate IsComplete(c: Collector) {
    c.current == (c.total - 1) % TWO_32
  }

  /** fragmentCollector.MarshalBinary: the buffer has uint32(20 + len) octets. */
  function Whole(c: Collector): bytes {
    var length := (HEADER + |c.payload|) % TWO_32;
    if length < HEADER then [] else (Header(c.messageType, length, c.txn, 1, 0) + c.payload)[..length]
  }

  /** What one frame does to the collector of its own key. */
  function Advance(c: Option<Collector>, frame: bytes, now: nat): (r: (Option<Collector>, Outcome))
    requires |frame| >= 12
  {
    var txn := KeyOf(frame).txn;
    match Parse(frame)
    case None => (None, Fault(txn))
    case Some(f) =>
      if f.total == 1 then (c, Complete(frame))
      else if c == None then
        if f.current != 0 then (None, Fault(txn)) else (Some(Start(f, now)), Waiting)
      else if !Follows(c.value, f) then (None, Fault(txn))
      else
        var d := Extend(c.value, f, now);
        if IsComplete(d) then (None, Complete(Whole(d))) else (Some(d), Waiting)
  }

  function Lookup(cs: Collectors, k: Key): Option<Collector> {
    if k in cs then Some(cs[k]) else None
  }

  function Store(cs: Collectors, k: Key, c: Option<Collector>): Collectors {
    if c == None then cs - {k} else cs[k := c.value]
  }

  /** collectReceivedFrame. */
  function Collect(cs: Collectors, frame: bytes, now: nat): (Collectors, Outcome)
    requires |frame| >= 12
  {
    var k := KeyOf(frame);
    var r := Advance(Lookup(cs, k), frame, now);
    (Store(cs, k, r.0), r.1)
  }

  /** expireFragmentCollectors: the collectors that stay. */
  function Unexpired(cs: Collectors, now: nat): Collectors {
    cs - (set k | k in cs && cs[k].deadline <= now)
  }

  function ExpiredTxns(cs: Collectors, now: nat): set<R.Txn> {
    set k | k in cs && cs[k].deadline <= now :: k.txn
  }

  class Receiver {
    var collectors: Collectors

    constructor ()
      ensures collectors == map[]
    {
      collectors := map[];
    }

    method CollectReceivedFrame(buf: bytes, now: nat) returns (outcome: Outcome)
      requires |buf| >= 12
      modifies this
      ensures (collectors, outcome) == Collect(old(collectors), buf, now)
    {
      hide Get32;
      var key := KeyOf(buf);
      var parsed := Parse(buf);
      if parsed == None {
        collectors := collectors - {key};
        return Fault(key.txn);
      }
      var f := parsed.value;
      if f.total == 1 {
        assert Store(collectors, key, Lookup(collectors, key)) == collectors;
        return Complete(buf);
      }
      if key !in collectors {
        if f.current != 0 {
          assert collectors - {key} == collectors;
          return Fault(key.txn);
        }
        collectors := collectors[key := Start(f, now)];
        return Waiting;
      }
      var c := collectors[key];
      if !Follows(c, f) {
        collectors := collectors - {key};
        return Fault(key.txn);
      }
      var d := Extend(c, f, now);
      if !IsComplete(d) {
        collectors := collectors[key := d];
        return Waiting;
      }
      collectors := collectors - {key};
      return Complete(Whole(d));
    }

    /** Drops the overdue collectors and lists their transactions, each once. */
    method ExpireFragmentCollectors(now: nat) returns (txns: seq<R.Txn>)
      modifies this
      ensures collectors == Unexpired(old(collectors), now)
      ensures forall k :: k in collectors <==> k in old(collectors) && old(collectors)[k].deadline > now
      ensures forall k :: k in collectors ==> collectors[k] == old(collectors)[k]
      ensures forall t :: t in txns <==> exists k :: k in old(collectors) && k !in collectors && k.txn == t
      ensures forall i, j :: 0 <= i < j < |txns| ==> txns[i] != txns[j]
    {
      txns := [];
      var all := collectors;
      var rest := collectors.Keys;
      while rest != {}
        invariant rest <= all.Keys
        invariant forall k :: k in collectors <==> k in all && (k in rest || all[k].deadline > now)
        invariant forall k :: k in collectors ==> collectors[k] == all[k]
        invariant forall t :: t in txns <==> exists k :: k in all && k !in rest && all[k].deadline <= now && k.txn == t
        invariant forall i, j :: 0 <= i < j < |txns| ==> txns[i] != txns[j]
        decreases rest
      {
        var key: Key :| key in rest;
        rest := rest - {key};
        if all[key].deadline <= now {
          collectors := collectors - {key};
          if key.txn !in txns {
            txns := txns + [key.txn];
          }
        }
      }
    }

    /** The earliest deadline; the zero time stands for none, so deadlines are positive. */
    method NextFragmentDeadline() returns (deadline: nat, ok: bool)
      requires forall k :: k in collectors ==> collectors[k].deadline > 0
      ensures ok <==> collectors != map[]
      ensures ok ==> exists k :: k in collectors && collectors[k].deadline == deadline
      ensures forall k :: k in collectors ==> deadline <= collectors[k].deadline
    {
      deadline := 0;
      var rest := collectors.Keys;
      while rest != {}
        invariant rest <= collectors.Keys
        invariant deadline == 0 <==> rest == collectors.Keys
        invariant deadline > 0 ==> exists k :: k in collectors && collectors[k].deadline == deadline
        invariant forall k :: k in collectors && k !in rest ==> deadline <= collectors[k].deadline
        decreases rest
      {
        var key: Key :| key in rest;
        rest := rest - {key};
        if deadline == 0 || collectors[key].deadline < deadline {
          deadline := collectors[key].deadline;
        }
      }
      ok := deadline != 0;
    }
  }

  /** At the next deadline at least one collector expires: the timer always makes progress. */
  lemma NextDeadlineExpires(cs: Collectors, deadline: nat, k: Key)
    requires k in cs && cs[k].deadline == deadline
    ensures k !in Unexpired(cs, deadline) && k.txn in ExpiredTxns(cs, deadline)
    ensures |Unexpired(cs, deadline)| < |cs|
  {
    var left := Unexpired(cs, deadline);
    assert left.Keys <= cs.Keys - {k};
    Smaller(left.Keys, cs.Keys - {k});
    assert |cs.Keys - {k}| == |cs.Keys| - 1;
  }

  lemma {:induction false} Smaller(a: set<Key>, b: set<Key>)
    requires a <= b
    ensures |a| <= |b|
  {
    if x: Key :| x in a {
      Smaller(a - {x}, b - {x});
    }
  }
}
