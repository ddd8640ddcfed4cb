/** When collectors expire, which frames are refused, and that messages whose fragments
    follow each other within a second arrive whatever the timer does in between. */
module ReassemblyTiming {
  import opened Bytes
  import opened Fragment
  import opened Reassembly
  import opened FragmentTheorems

  /** One second, in the nanoseconds of the clock. */
  const SECOND: nat := 1_000_000_000

  /** What a frame that leaves something waiting does to the deadline; any other frame
      leaves the collector as it is or takes it away. */
  lemma WaitingRefreshes(c: Option<Collector>, frame: bytes, now: nat)
    requires |frame| >= 12
    ensures var r := Advance(c, frame, now);
      && (r.1 == Waiting ==> r.0.Some? && r.0.value.deadline == now + SECOND && Multi(frame, KeyOf(frame)) != [])
      && (r.1 != Waiting ==> r.0 == None || (r.0 == c && Multi(frame, KeyOf(frame)) == []))
  {
    hide Get32, Whole;
  }

  /** The time of the last fragment of a multi-fragment message of the key. */
  ghost function LastSeen(ins: seq<Input>, k: Key): Option<nat>
    requires Inputs(ins)
  {
    if ins == [] then None
    else
      var n := |ins| - 1;
      if ins[n].Arrival? && Multi(ins[n].frame, k) != [] then Some(ins[n].now) else LastSeen(ins[..n], k)
  }

  /** For any frames and timeouts, a stored collector falls due one second after the last
      fragment of its key arrived. */
  lemma {:induction false} DueOneSecondAfterLast(ins: seq<Input>, k: Key)
    requires Inputs(ins) && k in Reached(ins)
    ensures LastSeen(ins, k).Some? && Reached(ins)[k].deadline == LastSeen(ins, k).value + SECOND
    decreases ins
  {
    var n := |ins| - 1;
    var before := Reached(ins[..n]);
    if k in before {
      DueOneSecondAfterLast(ins[..n], k);
    }
    hide Advance, KeyOf, Multi;
    if ins[n].Arrival? {
      var frame, now := ins[n].frame, ins[n].now;
      CollectKey(before, frame, now, k);
      if KeyOf(frame) == k {
        WaitingRefreshes(Lookup(before, k), frame, now);
      } else {
        OtherKey(frame, k);
      }
      hide Collect;
      assert Reached(ins) == Collect(before, frame, now).0;
    }
  }

  lemma OtherKey(frame: bytes, k: Key)
    requires |frame| >= 12 && KeyOf(frame) != k
    ensures Multi(frame, k) == []
  {
  }

  /** Hence the timer takes a collector away exactly when a second has passed since the
      last fragment of its key, and leaves the others as they are. */
  lemma ExpiresAfterOneSecond(ins: seq<Input>, now: nat, k: Key)
    requires Inputs(ins) && k in Reached(ins)
    ensures Inputs(ins + [Tick(now)])
    ensures var after := Reached(ins + [Tick(now)]);
      && LastSeen(ins, k).Some?
      && (k in after <==> now < LastSeen(ins, k).value + SECOND)
      && (k in after ==> after[k] == Reached(ins)[k])
      && (forall j :: j in after ==> j in Reached(ins))
  {
    DueOneSecondAfterLast(ins, k);
    var all := ins + [Tick(now)];
    assert all[..|all| - 1] == ins;
    assert Reached(all) == Unexpired(Reached(ins), now) by { hide Unexpired; }
  }

  // ---- which frames are refused ----

  /** A fragment header that fits the frame: a fragmentable type, the frame's own length,
      and a number below the total. */
  ghost predicate WellFormed(frame: bytes) {
    && |frame| >= 20
    && (Get32(frame, 0) == 3 || Get32(frame, 0) == 0x8000_0003 || Get32(frame, 0) == 0x8000_0007)
    && Get32(frame, 4) == |frame| % 0x1_0000_0000 && Get32(frame, 16) < Get32(frame, 12)
  }

  /** The number and the total that the next fragment of a key must have. */
  ghost predicate Continues(cs: Collectors, k: Key, total: int, current: int) {
    if k in cs then total == cs[k].total && current == cs[k].current + 1 else current == 0
  }

  /** For any frames and timeouts before it, a frame is refused exactly when its header
      does not fit, or it belongs to a message of several fragments and is not the next
      one; otherwise it completes a message exactly when it is the last fragment. */
  lemma RefusedIff(ins: seq<Input>, frame: bytes, now: nat)
    requires Inputs(ins) && |frame| >= 12
    ensures var cs := Reached(ins);
      var outcome := Collect(cs, frame, now).1;
      if !WellFormed(frame) then outcome == Fault(Get32(frame, 8))
      else
        var total, current := Get32(frame, 12), Get32(frame, 16);
        if total == 1 then outcome == Complete(frame)
        else if !Continues(cs, KeyOf(frame), total, current) then outcome == Fault(Get32(frame, 8))
        else if current + 1 == total then outcome.Complete? else outcome == Waiting
  {
    var cs, k := Reached(ins), KeyOf(frame);
    if k in cs {
      CollectorsBacked(ins, k);
      BackedCounts(cs[k], k, Fragments(ins, k));
    }
    CollectKey(cs, frame, now, k);
    AdvanceAnswers(Lookup(cs, k), frame, now);
  }

  lemma BackedCounts(c: Collector, k: Key, history: seq<Fragment>)
    requires Backed(c, k, history)
    ensures c.current + 1 < c.total < TWO_32 && c.messageType == k.messageType && c.txn == k.txn
  {
  }

  lemma AdvanceAnswers(c: Option<Collector>, frame: bytes, now: nat)
    requires |frame| >= 12
    requires c.Some? ==> c.value.current + 1 < c.value.total < TWO_32
                         && c.value.messageType == Get32(frame, 0) && c.value.txn == Get32(frame, 8)
    ensures var outcome := Advance(c, frame, now).1;
      if !WellFormed(frame) then outcome == Fault(Get32(frame, 8))
      else
        var total, current := Get32(frame, 12), Get32(frame, 16);
        if total == 1 then outcome == Complete(frame)
        else if !(if c.Some? then total == c.value.total && current == c.value.current + 1 else current == 0)
        then outcome == Fault(Get32(frame, 8))
        else if current + 1 == total then outcome.Complete? else outcome == Waiting
  {
    hide Get32, Whole;
  }

  // ---- messages, interleaved with each other and with the timer ----

  function Time(i: Input): nat { i.now }

  ghost function Arrivals(ins: seq<Input>): seq<bytes> {
    if ins == [] then []
    else
      var n := |ins| - 1;
      Arrivals(ins[..n]) + (if ins[n].Arrival? then [ins[n].frame] else [])
  }

  ghost predicate Of(ins: seq<Input>, i: nat, k: Key)
    requires Inputs(ins)
  {
    i < |ins| && ins[i].Arrival? && KeyOf(ins[i].frame) == k
  }

  /** The clock never goes back. */
  ghost predicate Ordered(ins: seq<Input>) {
    forall i, j :: 0 <= i < j < |ins| ==> Time(ins[i]) <= Time(ins[j])
  }

  /** Nothing of the key arrives between i and j. */
  ghost predicate Gap(ins: seq<Input>, i: int, j: nat, k: Key)
    requires Inputs(ins)
  {
    forall m: nat :: i < m < j ==> !Of(ins, m, k)
  }

  /** Frames of one key that follow each other do so in less than a second. */
  ghost predicate Prompt(ins: seq<Input>)
    requires Inputs(ins)
  {
    forall i: nat, j: nat, k :: i < j && Of(ins, i, k) && Of(ins, j, k) && Gap(ins, i, j, k) ==> Time(ins[j]) < Time(ins[i]) + SECOND
  }

  /** The last arrival of the key, or -1. */
  ghost function LastOfKey(ins: seq<Input>, i: nat, k: Key): (l: int)
    requires Inputs(ins) && i <= |ins|
    ensures -1 <= l < i && (l >= 0 ==> Of(ins, l, k)) && Gap(ins, l, i, k)
  {
    if i == 0 then -1 else if Of(ins, i - 1, k) then i - 1 else LastOfKey(ins, i - 1, k)
  }

  lemma {:induction false} ArrivalsPrefix(ins: seq<Input>, i: nat)
    requires i <= |ins|
    ensures var a, b := Arrivals(ins[..i]), Arrivals(ins); |a| <= |b| && b[..|a|] == a
    ensures i < |ins| && ins[i].Arrival? ==>
      |Arrivals(ins[..i])| < |Arrivals(ins)| && Arrivals(ins)[|Arrivals(ins[..i])|] == ins[i].frame
    decreases |ins| - i
  {
    if i == |ins| {
      assert ins[..i] == ins;
    } else {
      assert ins[..i + 1][..i] == ins[..i];
      ArrivalsPrefix(ins, i + 1);
    }
  }

  lemma {:induction false} ArrivalsReadable(ins: seq<Input>)
    requires Inputs(ins)
    ensures Readable(Arrivals(ins))
  {
    if ins != [] { ArrivalsReadable(ins[..|ins| - 1]); }
  }

  /** How many frames of the key are among the first i inputs. */
  ghost function Count(ins: seq<Input>, i: nat, k: Key): nat
    requires Inputs(ins) && i <= |ins|
  {
    ArrivalsReadable(ins[..i]);
    |Project(Arrivals(ins[..i]), k)|
  }

  lemma CountStep(ins: seq<Input>, i: nat, k: Key)
    requires Inputs(ins) && i < |ins|
    ensures Count(ins, i + 1, k) == Count(ins, i, k) + if Of(ins, i, k) then 1 else 0
  {
    hide KeyOf;
    assert ins[..i + 1][..i] == ins[..i];
    ArrivalsReadable(ins[..i]);
    ArrivalsReadable(ins[..i + 1]);
    var a, b := Arrivals(ins[..i]), Arrivals(ins[..i + 1]);
    if ins[i].Arrival? {
      assert b == a + [ins[i].frame];
      assert b[..|b| - 1] == a;
    } else {
      assert b == a;
    }
  }

  /** If some frame of the key is still to come, the first such. */
  lemma {:induction false} NextOfKey(ins: seq<Input>, i: nat, k: Key) returns (j: nat)
    requires Inputs(ins) && i <= |ins| && Count(ins, i, k) < Count(ins, |ins|, k)
    ensures i <= j < |ins| && Of(ins, j, k) && Gap(ins, i - 1, j, k)
    decreases |ins| - i
  {
    hide Count, Of;
    CountStep(ins, i, k);
    if Of(ins, i, k) {
      j := i;
    } else {
      j := NextOfKey(ins, i + 1, k);
    }
  }

  /** A set of messages arrives whole, prompt and in the order of the clock. */
  ghost predicate Timely(msgs: map<Key, bytes>, sizes: map<Key, int>, ins: seq<Input>) {
    && Messages(msgs, sizes) && Inputs(ins) && Ordered(ins) && Prompt(ins)
    && Interleaving(msgs, sizes, Arrivals(ins))
  }

  /** After i inputs the collector of a message holds what has arrived of it, and falls
      due a second after the last of that. */
  ghost predicate OnTime(msgs: map<Key, bytes>, sizes: map<Key, int>, ins: seq<Input>, i: nat, k: Key)
    requires Messages(msgs, sizes) && Inputs(ins) && i <= |ins| && k in msgs
  {
    var c, l := Lookup(Reached(ins[..i]), k), LastOfKey(ins, i, k);
    && InProgress(c, msgs[k], sizes[k], Count(ins, i, k))
    && (c.Some? ==> l >= 0 && c.value.deadline == Time(ins[l]) + SECOND)
  }

  lemma OnTimeStart(msgs: map<Key, bytes>, sizes: map<Key, int>, ins: seq<Input>, k: Key)
    requires Timely(msgs, sizes, ins) && k in msgs
    ensures OnTime(msgs, sizes, ins, 0, k)
  {
    assert ins[..0] == [];
  }

  lemma StepReached(ins: seq<Input>, i: nat)
    requires Inputs(ins) && i < |ins|
    ensures var cs := Reached(ins[..i]);
      Reached(ins[..i + 1]) == match ins[i] case Arrival(frame, now) => Collect(cs, frame, now).0 case Tick(now) => Unexpired(cs, now)
  {
    hide Collect, Unexpired;
    assert ins[..i + 1][..i] == ins[..i];
  }

  /** The frame that arrives is the next frame of its message. */
  lemma ArrivalIsNext(msgs: map<Key, bytes>, sizes: map<Key, int>, ins: seq<Input>, i: nat)
    requires Timely(msgs, sizes, ins) && i < |ins| && ins[i].Arrival?
    ensures var k := KeyOf(ins[i].frame);
      && k in msgs && FramesOf(msgs[k], sizes[k]).Some?
      && Count(ins, i, k) < |FramesOf(msgs[k], sizes[k]).value| && FramesOf(msgs[k], sizes[k]).value[Count(ins, i, k)] == ins[i].frame
  {
    hide KeyOf, FramesOf, Message, Ordered, Prompt;
    var all := Arrivals(ins);
    ArrivalsPrefix(ins, i);
    ArrivalsReadable(ins[..i]);
    FrameIsNext(all, |Arrivals(ins[..i])|);
  }

  lemma AllFrames(msgs: map<Key, bytes>, sizes: map<Key, int>, ins: seq<Input>, k: Key)
    requires Timely(msgs, sizes, ins) && k in msgs
    ensures FramesOf(msgs[k], sizes[k]).Some? && Count(ins, |ins|, k) == |FramesOf(msgs[k], sizes[k]).value|
    ensures |PiecesOf(msgs[k], sizes[k])| == |FramesOf(msgs[k], sizes[k]).value|
  {
    assert ins[..|ins|] == ins;
    PieceCount(msgs[k], sizes[k]);
    hide FramesOf, Message, Ordered, Prompt, PiecesOf;
  }

  lemma LastStep(ins: seq<Input>, i: nat, k: Key)
    requires Inputs(ins) && i < |ins|
    ensures LastOfKey(ins, i + 1, k) == if Of(ins, i, k) then i else LastOfKey(ins, i, k)
  {
    hide Of, Gap;
  }

  lemma OwnArrival(c: Option<Collector>, data: bytes, size: int, p: nat, frame: bytes, now: nat)
    requires Message(data) && size > HEADER && InProgress(c, data, size, p) && |frame| >= 12
    requires FramesOf(data, size).Some? && p < |FramesOf(data, size).value| && FramesOf(data, size).value[p] == frame
    ensures var d := Advance(c, frame, now).0;
      InProgress(d, data, size, p + 1) && (d.Some? ==> d.value.deadline == now + SECOND)
  {
    hide FramesOf, Message, Advance, InProgress;
    NextFrame(c, data, size, p, now);
    WaitingRefreshes(c, frame, now);
    LastCollector(Advance(c, frame, now).0, data, size, p + 1);
  }

  /** The parts of OnTime. */
  ghost predicate Held(c: Option<Collector>, data: bytes, size: int, p: nat, ins: seq<Input>, l: int)
    requires Message(data) && size > HEADER
  {
    InProgress(c, data, size, p) && (c.Some? ==> 0 <= l < |ins| && c.value.deadline == Time(ins[l]) + SECOND)
  }

  lemma OnTimeIff(msgs: map<Key, bytes>, sizes: map<Key, int>, ins: seq<Input>, i: nat, k: Key)
    requires Messages(msgs, sizes) && Inputs(ins) && i <= |ins| && k in msgs
    ensures OnTime(msgs, sizes, ins, i, k) <==>
      Held(Lookup(Reached(ins[..i]), k), msgs[k], sizes[k], Count(ins, i, k), ins, LastOfKey(ins, i, k))
  {
    hide InProgress, Message, Reached, Lookup, Gap, Of;
  }

  lemma HeldNext(c: Option<Collector>, data: bytes, size: int, p: nat, ins: seq<Input>, l: int, i: nat)
    requires Message(data) && size > HEADER && Held(c, data, size, p, ins, l)
    requires i < |ins| && ins[i].Arrival? && |ins[i].frame| >= 12
    requires FramesOf(data, size).Some? && p < |FramesOf(data, size).value| && FramesOf(data, size).value[p] == ins[i].frame
    ensures Held(Advance(c, ins[i].frame, ins[i].now).0, data, size, p + 1, ins, i)
  {
    hide FramesOf, Message, Advance, InProgress;
    OwnArrival(c, data, size, p, ins[i].frame, ins[i].now);
  }

  lemma OnTimeArrival(msgs: map<Key, bytes>, sizes: map<Key, int>, ins: seq<Input>, i: nat, k: Key)
    requires Timely(msgs, sizes, ins) && i < |ins| && ins[i].Arrival? && k in msgs && OnTime(msgs, sizes, ins, i, k)
    ensures OnTime(msgs, sizes, ins, i + 1, k)
  {
    var frame, now, cs := ins[i].frame, ins[i].now, Reached(ins[..i]);
    assert Messages(msgs, sizes) && Inputs(ins);
    assert Message(msgs[k]) && sizes[k] > HEADER;
    assert Of(ins, i, k) <==> KeyOf(frame) == k;
    hide OnTime, KeyOf, FramesOf, Message, Messages, Advance, Held, Collect, Count, LastOfKey, Reached, Lookup, Gap, Of, Timely;
    OnTimeIff(msgs, sizes, ins, i, k);
    OnTimeIff(msgs, sizes, ins, i + 1, k);
    StepReached(ins, i);
    CountStep(ins, i, k);
    LastStep(ins, i, k);
    CollectKey(cs, frame, now, k);
    ArrivalIsNext(msgs, sizes, ins, i);
    if KeyOf(frame) == k {
      HeldNext(Lookup(cs, k), msgs[k], sizes[k], Count(ins, i, k), ins, LastOfKey(ins, i, k), i);
    }
  }

  /** After the last frame of a message no collector is left. */
  lemma LastCollector(c: Option<Collector>, data: bytes, size: int, p: nat)
    requires Message(data) && size > HEADER && InProgress(c, data, size, p)
    ensures FramesOf(data, size).Some? && (c.Some? ==> 0 < p < |FramesOf(data, size).value|)
  {
    FramesOfMessage(data, size);
    PieceCount(data, size);
    hide Message, FramesOf;
  }

  lemma OnTimeTick(msgs: map<Key, bytes>, sizes: map<Key, int>, ins: seq<Input>, i: nat, k: Key)
    requires Timely(msgs, sizes, ins) && i < |ins| && ins[i].Tick? && k in msgs && OnTime(msgs, sizes, ins, i, k)
    ensures OnTime(msgs, sizes, ins, i + 1, k)
  {
    var now, cs := ins[i].now, Reached(ins[..i]);
    StepReached(ins, i);
    CountStep(ins, i, k);
    if k in cs {
      StillDue(msgs, sizes, ins, i, k);
    }
    hide KeyOf, FramesOf, Message, InProgress, Count, Interleaving, Prompt, Ordered, Reached;
  }

  /** A collector with a frame still to come is not due at a tick before that frame. */
  lemma StillDue(msgs: map<Key, bytes>, sizes: map<Key, int>, ins: seq<Input>, i: nat, k: Key)
    requires Timely(msgs, sizes, ins) && i < |ins| && ins[i].Tick? && k in msgs && OnTime(msgs, sizes, ins, i, k)
    requires k in Reached(ins[..i])
    ensures Reached(ins[..i])[k].deadline > ins[i].now
  {
    var l := LastOfKey(ins, i, k);
    LastCollector(Lookup(Reached(ins[..i]), k), msgs[k], sizes[k], Count(ins, i, k));
    AllFrames(msgs, sizes, ins, k);
    hide FramesOf, Message, InProgress, Count, Interleaving, Reached, Messages;
    var j := NextOfKey(ins, i, k);
    hide Of;
    assert Gap(ins, l, j, k);
    assert Time(ins[j]) < Time(ins[l]) + SECOND;
    assert Time(ins[i]) <= Time(ins[j]);
  }

  lemma {:induction false} StaysOnTime(msgs: map<Key, bytes>, sizes: map<Key, int>, ins: seq<Input>, i: nat, k: Key)
    requires Timely(msgs, sizes, ins) && i <= |ins| && k in msgs
    ensures OnTime(msgs, sizes, ins, i, k)
    decreases i
  {
    hide OnTime;
    assert Messages(msgs, sizes) && Inputs(ins);
    hide Timely;
    if i == 0 {
      OnTimeStart(msgs, sizes, ins, k);
    } else {
      StaysOnTime(msgs, sizes, ins, i - 1, k);
      if ins[i - 1].Arrival? {
        OnTimeArrival(msgs, sizes, ins, i - 1, k);
      } else {
        OnTimeTick(msgs, sizes, ins, i - 1, k);
      }
    }
  }

  lemma ArrivalAnswers(msgs: map<Key, bytes>, sizes: map<Key, int>, ins: seq<Input>, i: nat)
    requires Timely(msgs, sizes, ins) && i < |ins| && ins[i].Arrival?
    ensures var k := KeyOf(ins[i].frame);
      && k in msgs
      && Collect(Reached(ins[..i]), ins[i].frame, ins[i].now).1
           == if Count(ins, i + 1, k) < Count(ins, |ins|, k) then Waiting else Complete(msgs[k])
  {
    var frame, now, cs := ins[i].frame, ins[i].now, Reached(ins[..i]);
    var k := KeyOf(frame);
    ArrivalIsNext(msgs, sizes, ins, i);
    StaysOnTime(msgs, sizes, ins, i, k);
    CountStep(ins, i, k);
    AllFrames(msgs, sizes, ins, k);
    CollectKey(cs, frame, now, k);
    hide KeyOf, FramesOf, Message, Advance, InProgress, Collect, Count, Timely, Reached;
    NextFrame(Lookup(cs, k), msgs[k], sizes[k], Count(ins, i, k), now);
  }

  lemma {:induction false} CountRest(ins: seq<Input>, i: nat, k: Key)
    requires Inputs(ins) && i <= |ins|
    ensures Count(ins, i, k) < Count(ins, |ins|, k) <==> exists j: nat :: i <= j && Of(ins, j, k)
    ensures Count(ins, i, k) <= Count(ins, |ins|, k)
    decreases |ins| - i
  {
    hide Count;
    if i < |ins| {
      CountStep(ins, i, k);
      CountRest(ins, i + 1, k);
    }
  }

  /** Messages with distinct keys, split at any sizes and interleaved in any way with each
      other and with the timer: if the clock does not go back and no two fragments of a
      message that follow each other are a second apart, every message comes out byte for
      byte at its own last frame, every other frame yields nothing, and nothing is left. */
  lemma TimelyMessagesArrive(msgs: map<Key, bytes>, sizes: map<Key, int>, ins: seq<Input>)
    requires Timely(msgs, sizes, ins)
    ensures forall i :: 0 <= i < |ins| && ins[i].Arrival? ==>
      && KeyOf(ins[i].frame) in msgs
      && Collect(Reached(ins[..i]), ins[i].frame, ins[i].now).1
           == if exists j: nat :: i < j && Of(ins, j, KeyOf(ins[i].frame)) then Waiting else Complete(msgs[KeyOf(ins[i].frame)])
    ensures Reached(ins) == map[]
  {
    forall i | 0 <= i < |ins| && ins[i].Arrival?
      ensures KeyOf(ins[i].frame) in msgs
      ensures Collect(Reached(ins[..i]), ins[i].frame, ins[i].now).1
           == if exists j: nat :: i < j && Of(ins, j, KeyOf(ins[i].frame)) then Waiting else Complete(msgs[KeyOf(ins[i].frame)])
    {
      hide KeyOf, Collect, Reached, Count, Timely;
      ArrivalAnswers(msgs, sizes, ins, i);
      CountRest(ins, i + 1, KeyOf(ins[i].frame));
    }
    forall k ensures k !in Reached(ins).Keys {
      NothingLeft(msgs, sizes, ins, k);
    }
    hide Reached, Timely;
    assert Reached(ins).Keys == {};
  }

  lemma NothingLeft(msgs: map<Key, bytes>, sizes: map<Key, int>, ins: seq<Input>, k: Key)
    requires Timely(msgs, sizes, ins)
    ensures k !in Reached(ins)
  {
    assert ins[..|ins|] == ins;
    if k in msgs {
      StaysOnTime(msgs, sizes, ins, |ins|, k);
      AllFrames(msgs, sizes, ins, k);
      LastCollector(Lookup(Reached(ins), k), msgs[k], sizes[k], Count(ins, |ins|, k));
    } else if k in Reached(ins) {
      DueOneSecondAfterLast(ins, k);
      Stranger(msgs, sizes, ins, |ins|, k);
    }
  }

  lemma {:induction false} Stranger(msgs: map<Key, bytes>, sizes: map<Key, int>, ins: seq<Input>, i: nat, k: Key)
    requires Timely(msgs, sizes, ins) && i <= |ins| && k !in msgs
    ensures LastSeen(ins[..i], k) == None
    decreases i
  {
    if i > 0 {
      assert ins[..i][..i - 1] == ins[..i - 1];
      Stranger(msgs, sizes, ins, i - 1, k);
      if ins[i - 1].Arrival? {
        ArrivalIsNext(msgs, sizes, ins, i - 1);
        OtherKey(ins[i - 1].frame, k);
      }
    }
  }
}
