/** Splitting, writing, reading and reassembling undo each other under every
    interleaving, and what arbitrary frames and timeouts can produce. */
module FragmentTheorems {
  import opened Bytes
  import opened Fragment
  import opened Reassembly

  // ---- the byte stream ----

  /** readFrame on the octets still to come: the frame and what follows it. */
  function ReadFrame(stream: bytes): Option<(bytes, bytes)> {
    if |stream| < 12 then None
    else
      var length := Get32(stream, 4);
      if length < 12 || length > MAX_FRAME_LENGTH || |stream| < length then None
      else Some((stream[..length], stream[length..]))
  }

  /** A frame is read exactly when its length is 12 octets to 2 MiB and that many follow. */
  lemma ReadIff(stream: bytes)
    ensures ReadFrame(stream).Some? <==> |stream| >= 12 && 12 <= Get32(stream, 4) <= 2097152 && Get32(stream, 4) <= |stream|
    ensures ReadFrame(stream).Some? ==>
      var (frame, rest) := ReadFrame(stream).value; |frame| == Get32(stream, 4) && frame + rest == stream
  {
    hide Get32;
  }

  /** Reads frames until the stream ends; None when a read fails before that. */
  function ReadFrames(stream: bytes): Option<seq<bytes>>
    decreases |stream|
  {
    if stream == [] then Some([])
    else match ReadFrame(stream)
      case None => None
      case Some((frame, rest)) =>
        match ReadFrames(rest)
        case None => None
        case Some(frames) => Some([frame] + frames)
  }

  /** A frame that readFrame accepts: its length field is its length. */
  predicate Intact(frame: bytes) {
    12 <= |frame| <= MAX_FRAME_LENGTH && Get32(frame, 4) == |frame|
  }

  lemma ReadOne(frame: bytes, rest: bytes)
    requires Intact(frame)
    ensures ReadFrame(frame + rest) == Some((frame, rest))
  {
    assert Get32(frame + rest, 4) == Get32(frame, 4);
    assert (frame + rest)[..|frame|] == frame && (frame + rest)[|frame|..] == rest;
  }

  /** Reading the concatenation of any frames gives back exactly those frames. */
  lemma {:induction false} ReadBack(frames: seq<bytes>)
    requires forall i :: 0 <= i < |frames| ==> Intact(frames[i])
    ensures ReadFrames(Concat(frames)) == Some(frames)
  {
    if frames != [] {
      ReadOne(frames[0], Concat(frames[1..]));
      ReadBack(frames[1..]);
      assert [frames[0]] + frames[1..] == frames;
    }
  }

  /** How the connection answers one Write: the count and whether it failed. */
  datatype Reply = Reply(n: int, failed: bool)

  /** The replies take all of n octets: each takes some and does not fail. */
  ghost predicate TakeAll(n: nat, replies: seq<Reply>) {
    n == 0 || (replies != [] && 0 < replies[0].n <= n && !replies[0].failed && TakeAll(n - replies[0].n, replies[1..]))
  }

  /** writeFull against any sequence of replies: what reached the connection is a
      prefix of the data, and no error is returned exactly when the replies take it all. */
  method WriteFull(data: bytes, replies: seq<Reply>) returns (written: nat, sent: bytes, ok: bool)
    ensures written == |sent| && written <= |data| && sent == data[..written]
    ensures ok ==> sent == data
    ensures ok <==> TakeAll(|data|, replies)
  {
    written, sent := 0, [];
    var left := data;
    var i := 0;
    while |left| > 0
      invariant 0 <= i <= |replies|
      invariant written == |sent| <= |data| && sent == data[..written] && left == data[written..]
      invariant TakeAll(|data|, replies) <==> TakeAll(|left|, replies[i..])
      decreases |left|
    {
      if i == |replies| {
        return written, sent, false;
      }
      var r := replies[i];
      assert replies[i..][0] == r && replies[i..][1..] == replies[i + 1..];
      i := i + 1;
      if r.n < 0 || r.n > |left| {
        return written, sent, false;
      }
      assert data[..written + r.n] == data[..written] + left[..r.n];
      written, sent := written + r.n, sent + left[..r.n];
      if r.failed || r.n == 0 {
        return written, sent, false;
      }
      left := left[r.n..];
    }
    return written, sent, true;
  }

  // ---- messages and their frames ----

  /** A complete fragmentable message, as Command.MarshalBinary and Request.MarshalBinary
      make it: fragment 0 of 1, with its own length in the header. */
  ghost predicate Message(data: bytes) {
    && HEADER <= |data| < TWO_32 && IsFragmentMessage(Get32(data, 0)) && Get32(data, 4) == |data|
    && Get32(data, 12) == 1 && Get32(data, 16) == 0
  }

  lemma MessageIsEncoded(data: bytes)
    requires Message(data)
    ensures var f := Fragment(Get32(data, 0), Get32(data, 8), 1, 0, data[20..]);
      Sound(f) && Parse(data) == Some(f) && Encode(f) == data
  {
    EncodeParse(data);
  }

  /** What fits is sent as it is, whatever it is; what does not is split exactly when it has
      a fragment header of its own length, of a fragmentable type, and the limit leaves room
      for a payload. */
  lemma FramesIff(data: bytes, maxFrameSize: int)
    ensures |data| <= maxFrameSize ==> FramesOf(data, maxFrameSize) == Some([data])
    ensures |data| > maxFrameSize ==> (FramesOf(data, maxFrameSize).Some? <==>
      && |data| >= 20 && maxFrameSize > 20 && Get32(data, 4) == |data| % 0x1_0000_0000
      && (Get32(data, 0) == 3 || Get32(data, 0) == 0x8000_0003 || Get32(data, 0) == 0x8000_0007))
  {
    hide Get32;
  }

  /** The frames of a message: one per piece, each at most the size limit and read
      back as fragment i of n with the message's own type and transaction. */
  lemma FramesOfMessage(data: bytes, maxFrameSize: int)
    requires Message(data) && maxFrameSize > HEADER
    ensures FramesOf(data, maxFrameSize).Some?
    ensures var frames := FramesOf(data, maxFrameSize).value;
      && 1 <= |frames| < TWO_32
      && (|frames| == 1 ==> frames == [data])
      && (forall i :: 0 <= i < |frames| ==> HEADER <= |frames[i]| <= maxFrameSize && Get32(frames[i], 4) == |frames[i]|)
      && (forall i :: 0 <= i < |frames| ==> KeyOf(frames[i]) == KeyOf(data))
      && (|frames| > 1 ==> |data| > maxFrameSize
                           && forall i :: 0 <= i < |frames| ==>
                                Parse(frames[i]) == Some(Fragment(Get32(data, 0), Get32(data, 8), |frames|, i,
                                                                  Cut(data[20..], maxFrameSize - HEADER)[i])))
  {
    MessageIsEncoded(data);
    if |data| > maxFrameSize {
      var size: nat := maxFrameSize - HEADER;
      var pieces := Cut(data[20..], size);
      CutFacts(data[20..], size);
      assert |pieces| > 1;
      var frames := FramesOf(data, maxFrameSize).value;
      forall i | 0 <= i < |frames|
        ensures var f := Fragment(Get32(data, 0), Get32(data, 8), |frames|, i, pieces[i]);
          && Parse(frames[i]) == Some(f) && |frames[i]| == HEADER + |pieces[i]|
          && Get32(frames[i], 4) == |frames[i]| && KeyOf(frames[i]) == KeyOf(data)
      {
        FrameFields(Fragment(Get32(data, 0), Get32(data, 8), |frames|, i, pieces[i]));
      }
    }
  }

  lemma FrameFields(f: Fragment)
    requires Sound(f)
    ensures var frame := Encode(f);
      && Parse(frame) == Some(f) && |frame| == HEADER + |f.payload| && Get32(frame, 4) == |frame|
      && KeyOf(frame) == Key(f.messageType, f.txn)
  {
    hide Header, Get32, LE32, Parse;
    ParseEncode(f);
    HeaderFields(f.messageType, HEADER + |f.payload|, f.txn, f.total, f.current, f.payload);
  }

  // ---- interleaving ----

  ghost predicate Readable(frames: seq<bytes>) {
    forall i :: 0 <= i < |frames| ==> |frames[i]| >= 12
  }

  /** The frames of one key, in order. */
  ghost function Project(frames: seq<bytes>, k: Key): seq<bytes>
    requires Readable(frames)
  {
    if frames == [] then []
    else
      var n := |frames| - 1;
      Project(frames[..n], k) + (if KeyOf(frames[n]) == k then [frames[n]] else [])
  }

  /** The collectors after the frames, received at the given times, and the outcome
      of frame i. */
  ghost function After(frames: seq<bytes>, times: seq<nat>): Collectors
    requires Readable(frames) && |times| == |frames|
  {
    if frames == [] then map[]
    else var n := |frames| - 1; Collect(After(frames[..n], times[..n]), frames[n], times[n]).0
  }

  ghost function OutcomeOf(frames: seq<bytes>, times: seq<nat>, i: nat): Outcome
    requires Readable(frames) && |times| == |frames| && i < |frames|
  {
    Collect(After(frames[..i], times[..i]), frames[i], times[i]).1
  }

  /** The collector of a message cut in pieces, after p of them. */
  ghost predicate Partial(c: Option<Collector>, messageType: int, txn: nat, pieces: seq<bytes>, p: nat) {
    if p == 0 || p >= |pieces| then c == None
    else c.Some? && c.value == Collector(messageType, txn, |pieces|, p - 1, Concat(pieces[..p]), c.value.deadline)
  }

  lemma NextPiece(c: Option<Collector>, messageType: int, txn: nat, pieces: seq<bytes>, p: nat, frame: bytes, now: nat)
    requires 2 <= |pieces| < TWO_32 && p < |pieces| && |frame| >= 12
    requires Parse(frame) == Some(Fragment(messageType, txn, |pieces|, p, pieces[p]))
    requires Partial(c, messageType, txn, pieces, p)
    ensures var r := Advance(c, frame, now);
      && Partial(r.0, messageType, txn, pieces, p + 1)
      && r.1 == (if p + 1 < |pieces| then Waiting
                 else Complete(Whole(Collector(messageType, txn, |pieces|, p, Concat(pieces), now + FRAGMENT_TIMEOUT))))
  {
    hide Get32, Parse, Whole, Concat;
    ConcatSnoc(pieces[..p], pieces[p]);
    assert pieces[..p + 1] == pieces[..p] + [pieces[p]];
    assert p + 1 == |pieces| ==> pieces[..p + 1] == pieces;
    assert p == 0 ==> Concat(pieces[..0]) == [] && [] + pieces[0] == pieces[0] by {
      ConcatNone(pieces[..0]);
    }
  }

  lemma ConcatNone(s: seq<bytes>)
    requires s == []
    ensures Concat(s) == []
  {
  }

  lemma WholeMessage(c: Collector, data: bytes)
    requires Message(data) && c.messageType == Get32(data, 0) && c.txn == Get32(data, 8) && c.payload == data[20..]
    ensures Whole(c) == data
  {
    MessageIsEncoded(data);
    hide Header, Get32;
    assert (HEADER + |c.payload|) % TWO_32 == |data|;
  }

  /** The pieces a message is sent in: itself when it fits. */
  ghost function PiecesOf(data: bytes, maxFrameSize: int): seq<bytes>
    requires |data| >= HEADER && maxFrameSize > HEADER
  {
    if |data| <= maxFrameSize then [data[20..]] else Cut(data[20..], maxFrameSize - HEADER)
  }

  ghost predicate InProgress(c: Option<Collector>, data: bytes, maxFrameSize: int, p: nat)
    requires Message(data) && maxFrameSize > HEADER
  {
    Partial(c, Get32(data, 0), Get32(data, 8), PiecesOf(data, maxFrameSize), p)
  }

  lemma SingleFrame(c: Option<Collector>, data: bytes, now: nat)
    requires Message(data)
    ensures Advance(c, data, now) == (c, Complete(data))
  {
    MessageIsEncoded(data);
  }

  /** Each frame of a message moves its collector on by one; the last one delivers
      the message itself and removes the collector. */
  lemma NextFrame(c: Option<Collector>, data: bytes, maxFrameSize: int, p: nat, now: nat)
    requires Message(data) && maxFrameSize > HEADER && InProgress(c, data, maxFrameSize, p)
    requires FramesOf(data, maxFrameSize).Some? && p < |FramesOf(data, maxFrameSize).value|
    ensures var frames := FramesOf(data, maxFrameSize).value;
      && |frames[p]| >= 12
      && (var r := Advance(c, frames[p], now);
          && InProgress(r.0, data, maxFrameSize, p + 1)
          && r.1 == if p + 1 == |frames| then Complete(data) else Waiting)
  {
    FramesOfMessage(data, maxFrameSize);
    var frames := FramesOf(data, maxFrameSize).value;
    if |frames| > 1 {
      CutFacts(data[20..], maxFrameSize - HEADER);
      var pieces := PiecesOf(data, maxFrameSize);
      assert |pieces| == |frames|;
      var last := Collector(Get32(data, 0), Get32(data, 8), |pieces|, p, Concat(pieces), now + FRAGMENT_TIMEOUT);
      hide Get32, Cut, Encode, Advance, Partial, Whole;
      NextPiece(c, Get32(data, 0), Get32(data, 8), pieces, p, frames[p], now);
      WholeMessage(last, data);
    } else {
      SingleFrame(c, data, now);
    }
  }

  lemma {:induction false} ProjectAppend(a: seq<bytes>, b: seq<bytes>, k: Key)
    requires Readable(a) && Readable(b)
    ensures Readable(a + b) && Project(a + b, k) == Project(a, k) + Project(b, k)
    decreases |b|
  {
    hide KeyOf;
    if b == [] {
      assert a + b == a;
    } else {
      var n := |b| - 1;
      ProjectAppend(a, b[..n], k);
      assert (a + b)[..|a + b| - 1] == a + b[..n] && (a + b)[|a + b| - 1] == b[n];
    }
  }

  lemma {:induction false} ProjectEmpty(a: seq<bytes>, k: Key)
    requires Readable(a)
    ensures Project(a, k) == [] <==> forall j :: 0 <= j < |a| ==> KeyOf(a[j]) != k
  {
    hide KeyOf;
    if a != [] {
      ProjectEmpty(a[..|a| - 1], k);
    }
  }

  /** Frame i of the stream is the next frame of its own message. */
  lemma FrameIsNext(frames: seq<bytes>, i: nat)
    requires Readable(frames) && i < |frames|
    ensures var k := KeyOf(frames[i]);
      var p := |Project(frames[..i], k)|;
      && p < |Project(frames, k)| && Project(frames, k)[p] == frames[i]
      && Project(frames[..i + 1], k) == Project(frames[..i], k) + [frames[i]]
      && (p + 1 == |Project(frames, k)| <==> forall j :: i < j < |frames| ==> KeyOf(frames[j]) != k)
  {
    var k := KeyOf(frames[i]);
    assert frames[..i + 1][..i] == frames[..i] && frames[..i + 1] + frames[i + 1..] == frames;
    ProjectAppend(frames[..i + 1], frames[i + 1..], k);
    ProjectEmpty(frames[i + 1..], k);
    hide KeyOf, Project;
    var rest := frames[i + 1..];
    if forall j :: 0 <= j < |rest| ==> KeyOf(rest[j]) != k {
      forall j | i < j < |frames| ensures KeyOf(frames[j]) != k {
        assert rest[j - i - 1] == frames[j];
      }
    }
  }

  /** A set of messages with distinct keys, each with the frame size it is split at. */
  ghost predicate Messages(msgs: map<Key, bytes>, sizes: map<Key, int>) {
    forall k :: k in msgs ==> k in sizes && sizes[k] > HEADER && Message(msgs[k]) && KeyOf(msgs[k]) == k
  }

  /** The frames are an interleaving: every frame belongs to a message, and the frames
      of each message are all there, in order. */
  ghost predicate Interleaving(msgs: map<Key, bytes>, sizes: map<Key, int>, frames: seq<bytes>)
    requires Messages(msgs, sizes)
  {
    && Readable(frames)
    && (forall i :: 0 <= i < |frames| ==> KeyOf(frames[i]) in msgs)
    && (forall k :: k in msgs ==> FramesOf(msgs[k], sizes[k]) == Some(Project(frames, k)))
  }

  lemma CollectKey(cs: Collectors, frame: bytes, now: nat, k: Key)
    requires |frame| >= 12
    ensures var r := Collect(cs, frame, now);
      Lookup(r.0, k) == if KeyOf(frame) == k then Advance(Lookup(cs, k), frame, now).0 else Lookup(cs, k)
    ensures Collect(cs, frame, now).1 == Advance(Lookup(cs, KeyOf(frame)), frame, now).1
  {
    hide Advance;
  }

  lemma TracksStart(frames: seq<bytes>, times: seq<nat>, data: bytes, size: int, k: Key)
    requires Readable(frames) && |times| == |frames| && Message(data) && size > HEADER
    ensures InProgress(Lookup(After(frames[..0], times[..0]), k), data, size, |Project(frames[..0], k)|)
  {
  }

  lemma {:induction false} Tracks(msgs: map<Key, bytes>, sizes: map<Key, int>, frames: seq<bytes>, times: seq<nat>, i: nat, k: Key)
    requires Messages(msgs, sizes) && Interleaving(msgs, sizes, frames) && |times| == |frames| && i <= |frames| && k in msgs
    ensures InProgress(Lookup(After(frames[..i], times[..i]), k), msgs[k], sizes[k], |Project(frames[..i], k)|)
    decreases i
  {
    hide Advance, InProgress, KeyOf, FramesOf, Message, Lookup;
    if i == 0 {
      TracksStart(frames, times, msgs[k], sizes[k], k);
    } else {
      var j := i - 1;
      Tracks(msgs, sizes, frames, times, j, k);
      assert frames[..i][..j] == frames[..j] && times[..i][..j] == times[..j];
      FrameIsNext(frames, j);
      CollectKey(After(frames[..j], times[..j]), frames[j], times[j], k);
      hide Collect;
      if KeyOf(frames[j]) == k {
        NextFrame(Lookup(After(frames[..j], times[..j]), k), msgs[k], sizes[k], |Project(frames[..j], k)|, times[j]);
      }
    }
  }

  lemma {:induction false} Untouched(frames: seq<bytes>, times: seq<nat>, k: Key)
    requires Readable(frames) && |times| == |frames| && forall i :: 0 <= i < |frames| ==> KeyOf(frames[i]) != k
    ensures k !in After(frames, times)
  {
    hide KeyOf, Advance;
    if frames != [] {
      var n := |frames| - 1;
      Untouched(frames[..n], times[..n], k);
      CollectKey(After(frames[..n], times[..n]), frames[n], times[n], k);
    }
  }

  /** Splitting any messages with distinct keys at any frame sizes above the header and
      interleaving the frames in any way: every message comes out byte for byte at its
      own last frame, every other frame yields nothing, there is no fault, and no
      collector is left behind. */
  lemma InterleavedMessagesArrive(msgs: map<Key, bytes>, sizes: map<Key, int>, frames: seq<bytes>, times: seq<nat>)
    requires Messages(msgs, sizes) && Interleaving(msgs, sizes, frames) && |times| == |frames|
    ensures forall i :: 0 <= i < |frames| ==>
              OutcomeOf(frames, times, i) ==
                if exists j :: i < j < |frames| && KeyOf(frames[j]) == KeyOf(frames[i]) then Waiting
                else Complete(msgs[KeyOf(frames[i])])
    ensures After(frames, times) == map[]
  {
    forall i | 0 <= i < |frames|
      ensures OutcomeOf(frames, times, i) ==
                if exists j :: i < j < |frames| && KeyOf(frames[j]) == KeyOf(frames[i]) then Waiting
                else Complete(msgs[KeyOf(frames[i])])
    {
      OneArrives(msgs, sizes, frames, times, i);
    }
    forall k ensures k !in After(frames, times).Keys {
      if k in msgs {
        Tracks(msgs, sizes, frames, times, |frames|, k);
        assert frames[..|frames|] == frames && times[..|frames|] == times;
        FramesOfMessage(msgs[k], sizes[k]);
        PieceCount(msgs[k], sizes[k]);
      } else {
        Untouched(frames, times, k);
      }
    }
    assert After(frames, times).Keys == {};
  }

  lemma PieceCount(data: bytes, maxFrameSize: int)
    requires Message(data) && maxFrameSize > HEADER && FramesOf(data, maxFrameSize).Some?
    ensures |PiecesOf(data, maxFrameSize)| == |FramesOf(data, maxFrameSize).value|
  {
    hide Encode;
  }

  lemma OneArrives(msgs: map<Key, bytes>, sizes: map<Key, int>, frames: seq<bytes>, times: seq<nat>, i: nat)
    requires Messages(msgs, sizes) && Interleaving(msgs, sizes, frames) && |times| == |frames| && i < |frames|
    ensures OutcomeOf(frames, times, i) ==
              if exists j :: i < j < |frames| && KeyOf(frames[j]) == KeyOf(frames[i]) then Waiting
              else Complete(msgs[KeyOf(frames[i])])
  {
    var k := KeyOf(frames[i]);
    Tracks(msgs, sizes, frames, times, i, k);
    FrameIsNext(frames, i);
    CollectKey(After(frames[..i], times[..i]), frames[i], times[i], k);
    hide Advance, InProgress, KeyOf, FramesOf;
    NextFrame(Lookup(After(frames[..i], times[..i]), k), msgs[k], sizes[k], |Project(frames[..i], k)|, times[i]);
  }

  /** End to end: what is written on one side of the stream, frame by frame in any
      interleaving and with no frame above the limit of either side, is what the
      receiver reassembles on the other. */
  lemma StreamDelivers(msgs: map<Key, bytes>, sizes: map<Key, int>, frames: seq<bytes>, times: seq<nat>)
    requires Messages(msgs, sizes) && Interleaving(msgs, sizes, frames) && |times| == |frames|
    requires forall k :: k in msgs ==> sizes[k] <= MAX_FRAME_LENGTH
    ensures ReadFrames(Concat(frames)) == Some(frames)
    ensures forall i :: 0 <= i < |frames| ==> |frames[i]| <= sizes[KeyOf(frames[i])]
    ensures forall k :: k in msgs ==> exists i :: 0 <= i < |frames| && KeyOf(frames[i]) == k && OutcomeOf(frames, times, i) == Complete(msgs[k])
  {
    forall i | 0 <= i < |frames| ensures Intact(frames[i]) && |frames[i]| <= sizes[KeyOf(frames[i])] {
      var k := KeyOf(frames[i]);
      FramesOfMessage(msgs[k], sizes[k]);
      FrameIsNext(frames, i);
    }
    ReadBack(frames);
    forall k | k in msgs
      ensures exists i :: 0 <= i < |frames| && KeyOf(frames[i]) == k && OutcomeOf(frames, times, i) == Complete(msgs[k])
    {
      FramesOfMessage(msgs[k], sizes[k]);
      var i := LastOf(frames, k);
      OneArrives(msgs, sizes, frames, times, i);
    }
  }

  lemma {:induction false} LastOf(frames: seq<bytes>, k: Key) returns (i: nat)
    requires Readable(frames) && Project(frames, k) != []
    ensures i < |frames| && KeyOf(frames[i]) == k && forall j :: i < j < |frames| ==> KeyOf(frames[j]) != k
  {
    hide KeyOf;
    var n := |frames| - 1;
    if KeyOf(frames[n]) == k {
      i := n;
    } else {
      i := LastOf(frames[..n], k);
    }
  }

  // ---- arbitrary frames and timeouts ----

  datatype Input = Arrival(frame: bytes, now: nat) | Tick(now: nat)

  ghost predicate Inputs(ins: seq<Input>) {
    forall i :: 0 <= i < |ins| && ins[i].Arrival? ==> |ins[i].frame| >= 12
  }

  ghost function Reached(ins: seq<Input>): Collectors
    requires Inputs(ins)
  {
    if ins == [] then map[]
    else
      var n := |ins| - 1;
      var cs := Reached(ins[..n]);
      match ins[n]
      case Arrival(frame, now) => Collect(cs, frame, now).0
      case Tick(now) => Unexpired(cs, now)
  }

  /** The well-formed fragments of multi-fragment messages of a key, in arrival order. */
  ghost function Fragments(ins: seq<Input>, k: Key): seq<Fragment>
    requires Inputs(ins)
  {
    if ins == [] then []
    else
      var n := |ins| - 1;
      Fragments(ins[..n], k) + (if ins[n].Arrival? then Multi(ins[n].frame, k) else [])
  }

  ghost function Multi(frame: bytes, k: Key): seq<Fragment>
    requires |frame| >= 12
  {
    if KeyOf(frame) == k && Parse(frame).Some? && Parse(frame).value.total != 1 then [Parse(frame).value] else []
  }

  ghost function Payloads(fs: seq<Fragment>): (r: seq<bytes>)
    ensures |r| == |fs|
  {
    if fs == [] then [] else Payloads(fs[..|fs| - 1]) + [fs[|fs| - 1].payload]
  }

  /** fs are fragments 0, 1, ... of one message of the given total. */
  ghost predicate InSequence(fs: seq<Fragment>, total: nat) {
    forall j :: 0 <= j < |fs| ==> fs[j].total == total && fs[j].current == j
  }

  ghost function Tail(fs: seq<Fragment>, n: nat): seq<Fragment> {
    if n <= |fs| then fs[|fs| - n..] else fs
  }

  /** A stored collector is incomplete, carries the type and transaction of its key, and
      holds the payload of the last fragments of its key, numbered 0 to current. */
  ghost predicate Backed(c: Collector, k: Key, history: seq<Fragment>) {
    && c.messageType == k.messageType && c.txn == k.txn && c.current + 1 < c.total < TWO_32
    && c.current + 1 <= |history|
    && (var last := Tail(history, c.current + 1);
        InSequence(last, c.total) && c.payload == Concat(Payloads(last)))
  }

  lemma TailSnoc(history: seq<Fragment>, f: Fragment, n: nat)
    requires n <= |history|
    ensures Tail(history + [f], n + 1) == Tail(history, n) + [f]
  {
  }

  lemma PayloadsSnoc(fs: seq<Fragment>, f: Fragment)
    ensures Concat(Payloads(fs + [f])) == Concat(Payloads(fs)) + f.payload
  {
    assert (fs + [f])[..|fs|] == fs;
    ConcatSnoc(Payloads(fs), f.payload);
  }

  lemma StartBacked(f: Fragment, now: nat, k: Key, history: seq<Fragment>)
    requires k == Key(f.messageType, f.txn) && f.current == 0 && 1 < f.total < TWO_32
    ensures Backed(Start(f, now), k, history + [f])
  {
    hide Concat, Payloads;
    TailSnoc(history, f, 0);
    PayloadsSnoc([], f);
    assert [] + [f] == [f] && Tail(history, 0) == [];
    NoPayloads();
  }

  lemma ExtendBacked(c: Collector, f: Fragment, now: nat, k: Key, history: seq<Fragment>)
    requires Backed(c, k, history) && Follows(c, f) && f.current < f.total
    ensures var d := Extend(c, f, now);
      var after := history + [f];
      && f.current == c.current + 1
      && (!IsComplete(d) ==> Backed(d, k, after))
      && (IsComplete(d) ==> f.current + 1 == f.total <= |after| && InSequence(Tail(after, f.total), f.total)
                            && d.payload == Concat(Payloads(Tail(after, f.total))))
  {
    hide Concat, Payloads;
    TailSnoc(history, f, c.current + 1);
    PayloadsSnoc(Tail(history, c.current + 1), f);
    var last := Tail(history, c.current + 1);
    assert |last| == c.current + 1;
    assert InSequence(last + [f], f.total);
  }

  /** What a completed message is made of: the frame itself when it is not fragmented,
      or the last total fragments of its key. */
  ghost predicate Delivers(history: seq<Fragment>, frame: bytes, data: bytes)
    requires |frame| >= 12
  {
    Parse(frame).Some? &&
    var k, f := KeyOf(frame), Parse(frame).value;
    if f.total == 1 then data == frame else IsJoined(data, k, Tail(history + Multi(frame, k), f.total), f.total)
  }

  /** data is fragments 0 to total - 1 of one message under a single header. */
  ghost predicate IsJoined(data: bytes, k: Key, fs: seq<Fragment>, total: nat) {
    && |fs| == total && InSequence(fs, total)
    && (var payload := Concat(Payloads(fs));
        HEADER + |payload| < TWO_32 ==> data == Encode(Fragment(k.messageType, k.txn, 1, 0, payload)))
  }

  lemma WholeIsEncoded(d: Collector)
    requires HEADER + |d.payload| < TWO_32
    ensures Whole(d) == Encode(Fragment(d.messageType, d.txn, 1, 0, d.payload))
  {
    hide Header;
  }

  lemma JoinedWhole(d: Collector, k: Key, fs: seq<Fragment>)
    requires InSequence(fs, d.total) && |fs| == d.total && d.payload == Concat(Payloads(fs))
    requires d.messageType == k.messageType && d.txn == k.txn
    ensures IsJoined(Whole(d), k, fs, d.total)
  {
    hide Concat, Payloads, Whole, Encode, InSequence;
    if HEADER + |d.payload| < TWO_32 {
      WholeIsEncoded(d);
    }
  }

  /** One frame on the collector of its key: what is stored stays backed by the
      history, and what completes is the last total fragments of the key in order. */
  lemma AdvanceBacked(c: Option<Collector>, frame: bytes, now: nat, k: Key, history: seq<Fragment>)
    requires |frame| >= 12 && KeyOf(frame) == k && (c.Some? ==> Backed(c.value, k, history))
    ensures var r := Advance(c, frame, now);
      && (r.0.Some? ==> Backed(r.0.value, k, history + Multi(frame, k)))
      && (r.1.Complete? ==> Delivers(history, frame, r.1.data))
  {
    if Parse(frame).Some? {
      var f := Parse(frame).value;
      ParsedKey(frame);
      assert c.Some? ==> c.value.messageType == k.messageType && c.value.txn == k.txn;
      hide Parse, Get32, Concat, Payloads, Header, Backed, InSequence, Whole, IsJoined;
      if f.total == 1 {
        assert history + [] == history;
      } else if c == None {
        if f.current == 0 {
          StartBacked(f, now, k, history);
        }
      } else if Follows(c.value, f) {
        ExtendBacked(c.value, f, now, k, history);
        var d := Extend(c.value, f, now);
        if IsComplete(d) {
          JoinedWhole(d, k, Tail(history + [f], f.total));
        }
      }
    }
  }

  lemma NoPayloads()
    ensures Concat(Payloads([])) == [] && forall b: bytes :: [] + b == b
  {
  }

  lemma ParsedKey(frame: bytes)
    requires |frame| >= 12 && Parse(frame).Some?
    ensures var f := Parse(frame).value;
      KeyOf(frame) == Key(f.messageType, f.txn) && f.current < f.total < TWO_32
  {
  }

  /** For any frames and timeouts, every stored collector is backed by its history. */
  lemma {:induction false} CollectorsBacked(ins: seq<Input>, k: Key)
    requires Inputs(ins) && k in Reached(ins)
    ensures Backed(Reached(ins)[k], k, Fragments(ins, k))
    decreases ins
  {
    var n := |ins| - 1;
    var before := Reached(ins[..n]);
    var history := Fragments(ins[..n], k);
    assert history + [] == history;
    if k in before {
      CollectorsBacked(ins[..n], k);
    }
    hide Backed, Advance, KeyOf;
    if ins[n].Arrival? {
      var frame, now := ins[n].frame, ins[n].now;
      CollectKey(before, frame, now, k);
      if KeyOf(frame) == k {
        AdvanceBacked(Lookup(before, k), frame, now, k, history);
      }
      hide Multi;
      assert Reached(ins) == Collect(before, frame, now).0;
    }
  }

  lemma AdvanceDelivers(ins: seq<Input>, frame: bytes, now: nat)
    requires Inputs(ins) && |frame| >= 12
    ensures var r := Advance(Lookup(Reached(ins), KeyOf(frame)), frame, now);
      r.1.Complete? ==> Delivers(Fragments(ins, KeyOf(frame)), frame, r.1.data)
  {
    hide Advance, Backed, Delivers;
    var k := KeyOf(frame);
    if k in Reached(ins) {
      CollectorsBacked(ins, k);
    }
    AdvanceBacked(Lookup(Reached(ins), k), frame, now, k, Fragments(ins, k));
  }

  /** A message that completes is either the frame itself, unfragmented, or exactly the
      last total multi-fragment frames of its key, in order, under one header; then its
      collector is gone, as it is after a fault, and no other key is ever touched. */
  lemma CompletedIsItsFragments(ins: seq<Input>, frame: bytes, now: nat)
    requires Inputs(ins) && |frame| >= 12
    ensures var cs := Reached(ins);
      var (after, outcome) := Collect(cs, frame, now);
      var k := KeyOf(frame);
      && (forall j :: j != k ==> Lookup(after, j) == Lookup(cs, j))
      && (outcome.Fault? ==> outcome.txn == k.txn && k !in after)
      && (outcome.Complete? ==> Delivers(Fragments(ins, k), frame, outcome.data))
      && (outcome.Complete? && outcome.data != frame ==> k !in after)
  {
    var cs := Reached(ins);
    var k := KeyOf(frame);
    AdvanceDelivers(ins, frame, now);
    Clears(Lookup(cs, k), frame, now);
    forall j ensures j != k ==> Lookup(Collect(cs, frame, now).0, j) == Lookup(cs, j) {
      CollectKey(cs, frame, now, j);
    }
    CollectKey(cs, frame, now, k);
    hide Advance, KeyOf, Reached, Delivers, Collect, Fragments;
  }

  lemma Clears(c: Option<Collector>, frame: bytes, now: nat)
    requires |frame| >= 12
    ensures var r := Advance(c, frame, now);
      && (r.1.Fault? ==> r.0 == None && r.1.txn == KeyOf(frame).txn)
      && (r.1.Complete? && r.1.data != frame ==> r.0 == None)
  {
    hide Get32, Whole;
  }
}
