/** MBIM control-message fragments (section 9 of the USB-IF MBIM 1.0 specification):
    splitting a message into frames, reading frames off a byte stream, and the keyed,
    timed reassembly of interleaved fragments. */
module Fragment {
  import opened Bytes
  import R = Responses

  const HEADER: nat := 20
  const MAX_FRAME_LENGTH: nat := 2 * 1024 * 1024

  /** One second, in the ticks of the model's clock. */
  const FRAGMENT_TIMEOUT: nat := 1_000_000_000

  datatype Fragment = Fragment(messageType: int, txn: R.Txn, total: nat, current: nat, payload: bytes)

  predicate IsFragmentMessage(messageType: int) {
    messageType == R.COMMAND || messageType == R.COMMAND_DONE || messageType == R.INDICATE_STATUS
  }

  function Header(messageType: int, length: int, txn: int, total: int, current: int): (h: bytes)
    ensures |h| == HEADER
  {
    LE32(messageType) + LE32(length) + LE32(txn) + LE32(total) + LE32(current)
  }

  function Encode(f: Fragment): bytes {
    Header(f.messageType, HEADER + |f.payload|, f.txn, f.total, f.current) + f.payload
  }

  /** fragment.UnmarshalBinary. */
  function Parse(frame: bytes): Option<Fragment> {
    if |frame| < HEADER || !IsFragmentMessage(Get32(frame, 0)) || Get32(frame, 4) != |frame| % TWO_32 then None
    else
      var total, current := Get32(frame, 12), Get32(frame, 16);
      if total == 0 || current >= total then None
      else Some(Fragment(Get32(frame, 0), Get32(frame, 8), total, current, frame[20..]))
  }

  /** A fragment whose fields fit their uint32s. */
  ghost predicate Sound(f: Fragment) {
    && IsFragmentMessage(f.messageType) && f.txn < TWO_32 && f.current < f.total < TWO_32
    && HEADER + |f.payload| < TWO_32
  }

  lemma HeaderFields(messageType: int, length: int, txn: int, total: int, current: int, rest: bytes)
    ensures var s := Header(messageType, length, txn, total, current) + rest;
      && Get32(s, 0) == messageType % TWO_32 && Get32(s, 4) == length % TWO_32 && Get32(s, 8) == txn % TWO_32
      && Get32(s, 12) == total % TWO_32 && Get32(s, 16) == current % TWO_32 && s[20..] == rest
  {
    var s := Header(messageType, length, txn, total, current) + rest;
    assert s[0..4] == LE32(messageType) && s[4..8] == LE32(length) && s[8..12] == LE32(txn);
    assert s[12..16] == LE32(total) && s[16..20] == LE32(current);
    hide LE32;
    Get32AfterLE32(messageType, s, 0);
    Get32AfterLE32(length, s, 4);
    Get32AfterLE32(txn, s, 8);
    Get32AfterLE32(total, s, 12);
    Get32AfterLE32(current, s, 16);
  }

  /** A sound fragment reads back as itself, and a parsed frame is the encoding of
      the fragment it holds. */
  lemma ParseEncode(f: Fragment)
    requires Sound(f)
    ensures Parse(Encode(f)) == Some(f) && |Encode(f)| == HEADER + |f.payload|
  {
    hide Header, Get32, LE32;
    HeaderFields(f.messageType, HEADER + |f.payload|, f.txn, f.total, f.current, f.payload);
    assert (Header(f.messageType, HEADER + |f.payload|, f.txn, f.total, f.current) + f.payload)[HEADER..] == f.payload;
  }

  lemma EncodeParse(frame: bytes)
    requires |frame| < TWO_32 && Parse(frame).Some?
    ensures Sound(Parse(frame).value) && Encode(Parse(frame).value) == frame
  {
    LE32AfterGet32(frame, 0);
    LE32AfterGet32(frame, 4);
    LE32AfterGet32(frame, 8);
    LE32AfterGet32(frame, 12);
    LE32AfterGet32(frame, 16);
    hide LE32, Get32;
    assert frame == frame[0..4] + frame[4..8] + frame[8..12] + frame[12..16] + frame[16..20] + frame[20..];
  }

  // ---- splitting ----

  /** The payload in pieces of the given size, the last one shorter if need be. */
  function Cut(payload: bytes, size: nat): seq<bytes>
    requires size > 0
    decreases |payload|
  {
    if payload == [] then []
    else [payload[..Min(size, |payload|)]] + Cut(payload[Min(size, |payload|)..], size)
  }

  lemma {:induction false} CutFacts(payload: bytes, size: nat)
    requires size > 0
    ensures Concat(Cut(payload, size)) == payload
    ensures |Cut(payload, size)| == (|payload| + size - 1) / size <= |payload|
    ensures forall i :: 0 <= i < |Cut(payload, size)| ==> 0 < |Cut(payload, size)[i]| <= size
    decreases |payload|
  {
    if payload == [] {
      SmallQuotient(size);
    } else {
      var n := Min(size, |payload|);
      var rest := payload[n..];
      CutFacts(rest, size);
      if n == size {
        NextQuotient(|rest| + size - 1, size);
      } else {
        SmallQuotient(size);
        NextQuotient(|payload| - 1, size);
        SmallerQuotient(|payload| - 1, size);
      }
      assert payload == payload[..n] + rest;
    }
  }

  lemma SmallQuotient(size: nat)
    requires size > 0
    ensures (size - 1) / size == 0
  {
  }

  lemma SmallerQuotient(x: nat, size: nat)
    requires x < size
    ensures x / size == 0
  {
  }

  lemma NextQuotient(x: nat, size: nat)
    requires size > 0
    ensures (x + size) / size == x / size + 1
  {
    var q, r := x / size, x % size;
    assert x == size * q + r;
    assert size * (q + 1) == size * q + size;
    QuotientUnique(x + size, size, q + 1, r);
  }

  lemma QuotientUnique(a: nat, size: nat, q: nat, r: nat)
    requires r < size && a == size * q + r
    ensures a / size == q
  {
    var p := a / size;
    assert a == size * p + a % size;
    if q > p {
      ProductGap(size, q, p);
    } else if q < p {
      ProductGap(size, p, q);
    }
  }

  lemma ProductGap(size: nat, a: nat, b: nat)
    requires a > b
    ensures size * a >= size * b + size
  {
    OneMore(size, a - 1);
    if a > b + 1 {
      ProductGap(size, a - 1, b);
    }
  }

  lemma OneMore(size: nat, n: nat)
    ensures size * (n + 1) == size * n + size
  {
  }


  /** fragmentedMessage.Frames: the frames, or None for its four error returns. */
  function FramesOf(data: bytes, maxFrameSize: int): Option<seq<bytes>> {
    if |data| <= maxFrameSize then Some([data])
    else if |data| < HEADER || !IsFragmentMessage(Get32(data, 0)) || Get32(data, 4) != |data| % TWO_32 || maxFrameSize <= HEADER
    then None
    else
      var pieces := Cut(data[20..], maxFrameSize - HEADER);
      Some(Framed(Get32(data, 0), Get32(data, 8), pieces))
  }

  /** Piece i of n becomes the frame of fragment i of n. */
  function Framed(messageType: int, txn: nat, pieces: seq<bytes>): (frames: seq<bytes>)
    ensures |frames| == |pieces|
    ensures forall i :: 0 <= i < |pieces| ==> frames[i] == Encode(Fragment(messageType, txn, |pieces|, i, pieces[i]))
  {
    seq(|pieces|, i requires 0 <= i < |pieces| => Encode(Fragment(messageType, txn, |pieces|, i, pieces[i])))
  }

  method Frames(data: bytes, maxFrameSize: int) returns (r: Option<seq<bytes>>)
    ensures r == FramesOf(data, maxFrameSize)
  {
    if |data| <= maxFrameSize {
      return Some([data]);
    }
    if |data| < HEADER || !IsFragmentMessage(Get32(data, 0)) || Get32(data, 4) != |data| % TWO_32 || maxFrameSize <= HEADER {
      return None;
    }
    var messageType, txn := Get32(data, 0), Get32(data, 8);
    var payload := data[20..];
    hide Get32;
    var maxPayloadSize: nat := maxFrameSize - HEADER;
    var total := MaxOne((|payload| + maxPayloadSize - 1) / maxPayloadSize);
    CutFacts(payload, maxPayloadSize);
    var frames := Split(messageType, txn, payload, maxPayloadSize, total);
    return Some(frames);
  }

  function MaxOne(n: nat): nat { if n > 1 then n else 1 }

  /** The loop of Frames. */
  method Split(messageType: int, txn: nat, payload: bytes, maxPayloadSize: nat, total: nat) returns (frames: seq<bytes>)
    requires maxPayloadSize > 0 && total == |Cut(payload, maxPayloadSize)|
    ensures frames == Framed(messageType, txn, Cut(payload, maxPayloadSize))
  {
    hide Encode;
    ghost var pieces := Cut(payload, maxPayloadSize);
    frames := [];
    var current, offset := 0, 0;
    assert payload[0..] == payload && pieces[0..] == pieces;
    while offset < |payload|
      invariant 0 <= offset <= |payload| && 0 <= current <= |pieces|
      invariant pieces[current..] == Cut(payload[offset..], maxPayloadSize)
      invariant |frames| == current
      invariant forall i :: 0 <= i < current ==> frames[i] == Encode(Fragment(messageType, txn, |pieces|, i, pieces[i]))
      decreases |payload| - offset
    {
      var end := Min(offset + maxPayloadSize, |payload|);
      ghost var rest := payload[offset..];
      assert rest[..Min(maxPayloadSize, |rest|)] == payload[offset..end] && rest[Min(maxPayloadSize, |rest|)..] == payload[end..];
      assert pieces[current..] == [payload[offset..end]] + Cut(payload[end..], maxPayloadSize);
      assert pieces[current] == payload[offset..end];
      frames := frames + [Encode(Fragment(messageType, txn, total, current, payload[offset..end]))];
      offset, current := end, current + 1;
    }
    assert payload[offset..] == [] && pieces[current..] == [];
    assert current == |pieces|;
  }
}
