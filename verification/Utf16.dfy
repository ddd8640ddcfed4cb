/** UTF-16 little-endian strings (section 2 of RFC 2781). Strings are sequences of Unicode
    scalar values. */
module Utf16 {
  import opened Bytes

  type Scalar = x: int | 0 <= x < 0xD800 || 0xE000 <= x < 0x110000

  const REPLACEMENT: Scalar := 0xFFFD

  predicate High(u: u16) { 0xD800 <= u < 0xDC00 }

  predicate Low(u: u16) { 0xDC00 <= u < 0xE000 }

  function UnitsOf(c: Scalar): (us: seq<u16>)
    ensures 1 <= |us| <= 2
  {
    if c < 0x10000 then [c] else [0xD800 + (c - 0x10000) / 0x400, 0xDC00 + (c - 0x10000) % 0x400]
  }

  /** utf16.Encode. */
  function EncodeUnits(s: seq<Scalar>): seq<u16> {
    if s == [] then [] else UnitsOf(s[0]) + EncodeUnits(s[1..])
  }

  /** utf16.Decode: a surrogate without its partner becomes U+FFFD. */
  function DecodeUnits(us: seq<u16>): seq<Scalar> {
    if us == [] then []
    else if |us| > 1 && High(us[0]) && Low(us[1]) then
      [0x10000 + (us[0] - 0xD800) * 0x400 + (us[1] - 0xDC00)] + DecodeUnits(us[2..])
    else if High(us[0]) || Low(us[0]) then [REPLACEMENT] + DecodeUnits(us[1..])
    else [us[0]] + DecodeUnits(us[1..])
  }

  /** Every surrogate is half of a pair. */
  predicate WellFormed(us: seq<u16>) {
    us == [] || (
      if |us| > 1 && High(us[0]) && Low(us[1]) then WellFormed(us[2..])
      else !High(us[0]) && !Low(us[0]) && WellFormed(us[1..]))
  }

  lemma {:induction false} UnitsRoundTrip(s: seq<Scalar>)
    ensures DecodeUnits(EncodeUnits(s)) == s && WellFormed(EncodeUnits(s))
    decreases |s|
  {
    if s != [] {
      var us, rest := EncodeUnits(s), EncodeUnits(s[1..]);
      UnitsRoundTrip(s[1..]);
      if s[0] < 0x10000 {
        assert us[1..] == rest;
      } else {
        assert us[2..] == rest;
      }
    }
  }

  /** Decoding loses nothing exactly on well-formed input. */
  lemma {:induction false} UnitsExactIff(us: seq<u16>)
    ensures EncodeUnits(DecodeUnits(us)) == us <==> WellFormed(us)
    decreases |us|
  {
    if us != [] {
      var s := DecodeUnits(us);
      if |us| > 1 && High(us[0]) && Low(us[1]) {
        UnitsExactIff(us[2..]);
        assert UnitsOf(s[0]) == us[..2];
        assert us == us[..2] + us[2..];
        assert s[1..] == DecodeUnits(us[2..]);
        SameTail(us[..2], EncodeUnits(s[1..]), us[2..]);
      } else {
        UnitsExactIff(us[1..]);
        assert s[1..] == DecodeUnits(us[1..]);
        assert us == us[..1] + us[1..];
        if High(us[0]) || Low(us[0]) {
          assert EncodeUnits(s)[0] == REPLACEMENT;
        } else {
          assert UnitsOf(s[0]) == us[..1];
          SameTail(us[..1], EncodeUnits(s[1..]), us[1..]);
        }
      }
    }
  }

  /** Re-encoding what was decoded gives as many units, well-formed or not. */
  lemma {:induction false} SameLength(us: seq<u16>)
    ensures |EncodeUnits(DecodeUnits(us))| == |us|
    decreases |us|
  {
    if us != [] {
      var s := DecodeUnits(us);
      var n := if |us| > 1 && High(us[0]) && Low(us[1]) then 2 else 1;
      SameLength(us[n..]);
      assert s[1..] == DecodeUnits(us[n..]);
    }
  }

  lemma SameTail(a: seq<u16>, b: seq<u16>, c: seq<u16>)
    ensures a + b == a + c <==> b == c
  {
    assert (a + b)[|a|..] == b && (a + c)[|a|..] == c;
  }

  // ---- octets ----

  function Octets(us: seq<u16>): (b: bytes)
    ensures |b| == 2 * |us|
  {
    if us == [] then [] else LE16(us[0]) + Octets(us[1..])
  }

  function UnitsAt(b: bytes): (us: seq<u16>)
    requires |b| % 2 == 0
    ensures 2 * |us| == |b|
  {
    if b == [] then [] else [Get16(b, 0)] + UnitsAt(b[2..])
  }

  lemma {:induction false} OctetsRoundTrip(us: seq<u16>)
    ensures UnitsAt(Octets(us)) == us
    decreases |us|
  {
    if us != [] {
      var b := Octets(us);
      hide LE16, Get16;
      assert b[0..2] == LE16(us[0]) && b[2..] == Octets(us[1..]);
      Get16AfterLE16(us[0], b, 0);
      OctetsRoundTrip(us[1..]);
    }
  }

  lemma {:induction false} OctetsExact(b: bytes)
    requires |b| % 2 == 0
    ensures Octets(UnitsAt(b)) == b
    decreases |b|
  {
    if b != [] {
      LE16AfterGet16(b, 0);
      hide LE16, Get16;
      OctetsExact(b[2..]);
      assert b == b[0..2] + b[2..];
    }
  }

  /** What utf16Bytes writes. */
  function Encode(s: seq<Scalar>): bytes { Octets(EncodeUnits(s)) }

  /** What utf16RawString returns. */
  function Decode(b: bytes): Option<seq<Scalar>> {
    if |b| % 2 != 0 then None else Some(DecodeUnits(UnitsAt(b)))
  }

  lemma RoundTrip(s: seq<Scalar>)
    ensures Decode(Encode(s)) == Some(s)
  {
    UnitsRoundTrip(s);
    OctetsRoundTrip(EncodeUnits(s));
  }

  /** A decoded string encodes to the octets it came from exactly when they were
      well-formed UTF-16. */
  lemma ExactIff(b: bytes)
    requires Decode(b).Some?
    ensures Encode(Decode(b).value) == b <==> WellFormed(UnitsAt(b))
  {
    UnitsExactIff(UnitsAt(b));
    OctetsExact(b);
    OctetsRoundTrip(EncodeUnits(Decode(b).value));
  }

  /** utf16Bytes. */
  method Utf16Bytes(s: seq<Scalar>) returns (buf: bytes)
    ensures buf == Encode(s)
  {
    var encoded := EncodeUnits(s);
    buf := [];
    hide LE16;
    for i := 0 to |encoded|
      invariant buf + Octets(encoded[i..]) == Octets(encoded)
    {
      var rest := encoded[i..];
      assert rest[0] == encoded[i] && rest[1..] == encoded[i + 1..];
      Assoc(buf, LE16(encoded[i]), Octets(encoded[i + 1..]));
      buf := buf + LE16(encoded[i]);
    }
    assert buf + [] == buf;
  }

  /** utf16RawString. */
  method Utf16RawString(raw: bytes) returns (r: Option<seq<Scalar>>)
    ensures r == Decode(raw)
  {
    if |raw| % 2 != 0 { return None; }
    var encoded: seq<u16> := [];
    assert raw[0..] == raw;
    for i := 0 to |raw| / 2
      invariant encoded + UnitsAt(raw[2 * i..]) == UnitsAt(raw)
    {
      var rest := raw[2 * i..];
      assert rest[2..] == raw[2 * (i + 1)..];
      var unit := Get16(raw, i * 2);
      assert Get16(rest, 0) == unit;
      assert encoded + ([unit] + UnitsAt(rest[2..])) == (encoded + [unit]) + UnitsAt(rest[2..]);
      encoded := encoded + [unit];
    }
    assert encoded + [] == encoded;
    return Some(DecodeUnits(encoded));
  }
}
