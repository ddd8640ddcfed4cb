/** Type-length-value records with padding to four octets. */
module Tlv {
  import opened Bytes
  import opened Codec

  const MAX_TYPE := 0xFFF0

  datatype TLV = TLV(typ: u16, data: bytes)

  predicate ValidType(typ: u16) { typ != 0 && typ <= MAX_TYPE }

  predicate ValidTLV(t: TLV) { ValidType(t.typ) && |t.data| < TWO_32 }

  // ---- layout ----

  function Header(typ: u16, length: nat): (h: bytes)
    ensures |h| == 8
  {
    LE16(typ) + [0, Padding(length)] + LE32(length)
  }

  /** What marshalTLV writes. */
  function Encode(t: TLV): (b: bytes)
    ensures |b| == 8 + |t.data| + Padding(|t.data|)
  {
    Header(t.typ, |t.data|) + t.data + Zeros(Padding(|t.data|))
  }

  /** marshalTLV; the loop appends the padding octet by octet. */
  method MarshalTLV(typ: u16, value: bytes) returns (data: bytes)
    ensures data == Encode(TLV(typ, value))
  {
    var paddingLength := (4 - |value| % 4) % 4;
    data := LE16(typ);
    data := data + [0];
    data := data + [paddingLength];
    data := data + LE32(|value|);
    assert data == Header(typ, |value|) by { hide LE16, LE32; }
    data := data + value;
    ghost var start := data;
    hide LE16, LE32, Header;
    for i := 0 to paddingLength
      invariant data == start + Zeros(i)
    {
      assert Zeros(i + 1) == Zeros(i) + [0];
      data := data + [0];
    }
  }

  // ---- decoder ----

  /** What unmarshalTLVPrefix accepts and returns. */
  function Decode(b: bytes): Option<Taken<TLV>> {
    if |b| < 8 then None
    else
      var typ, length := Get16(b, 0), Get32(b, 4);
      if !ValidType(typ) || b[2] != 0 || b[3] != Padding(length) || 8 + length + Padding(length) > |b| then None
      else if b[8 + length..8 + length + Padding(length)] != Zeros(Padding(length)) then None
      else Some(Taken(TLV(typ, b[8..8 + length]), 8 + length + Padding(length)))
  }

  method UnmarshalTLVPrefix(data: bytes) returns (r: Option<Taken<TLV>>)
    ensures r == Decode(data)
  {
    if |data| < 8 { return None; }
    var typ := Get16(data, 0);
    if !ValidType(typ) { return None; }
    if data[2] != 0 { return None; }
    var paddingLength := data[3];
    if paddingLength > 3 { return None; }
    var dataLength := Get32(data, 4);
    if paddingLength != (4 - dataLength % 4) % 4 { return None; }
    assert paddingLength == Padding(dataLength);
    hide Get16, Get32, Padding;
    if 8 + dataLength + paddingLength > |data| { return None; }
    var dataEnd := 8 + dataLength;
    var totalEnd := dataEnd + paddingLength;
    var pad := data[dataEnd..totalEnd];
    for i := 0 to |pad|
      invariant forall j :: 0 <= j < i ==> pad[j] == 0
    {
      if pad[i] != 0 {
        assert pad[i] != Zeros(paddingLength)[i];
        return None;
      }
    }
    assert pad == Zeros(paddingLength);
    return Some(Taken(TLV(typ, data[8..dataEnd]), totalEnd));
  }

  // ---- inverse ----

  lemma HeaderRead(b: bytes, typ: u16, length: nat)
    requires |b| >= 8 && b[..8] == Header(typ, length) && length < TWO_32
    ensures Get16(b, 0) == typ && Get32(b, 4) == length && b[2] == 0 && b[3] == Padding(length)
  {
    var h := b[..8];
    assert b[0..8] == h;
    SubSlice(b, 0, 8, 0, 2);
    SubSlice(b, 0, 8, 4, 8);
    assert h[0..2] == LE16(typ) && h[4..8] == LE32(length) && h[2] == 0 && h[3] == Padding(length) by {
      hide LE16, LE32, Padding;
    }
    hide Get16, Get32, LE16, LE32, Header, Padding;
    Get16AfterLE16(typ, b, 0);
    Get32AfterLE32(length, b, 4);
  }

  lemma HeaderWrite(b: bytes)
    requires |b| >= 8 && b[2] == 0 && b[3] == Padding(Get32(b, 4))
    ensures b[..8] == Header(Get16(b, 0), Get32(b, 4))
  {
    LE16AfterGet16(b, 0);
    LE32AfterGet32(b, 4);
    hide Get16, Get32, LE16, LE32, Padding;
    assert b[..8] == b[0..2] + [b[2], b[3]] + b[4..8];
  }

  lemma EncodedParts(t: TLV, rest: bytes)
    ensures var b, n := Encode(t) + rest, |t.data|;
      && b[..8] == Header(t.typ, n) && b[8..8 + n] == t.data && b[8 + n..8 + n + Padding(n)] == Zeros(Padding(n))
  {
    hide Header, Padding, Zeros;
    var h, n := Header(t.typ, |t.data|), |t.data|;
    var b := h + t.data + Zeros(Padding(n)) + rest;
    assert b[8..8 + n] == t.data;
    assert b[8 + n..8 + n + Padding(n)] == Zeros(Padding(n));
  }

  lemma DecodeEncoded(t: TLV, rest: bytes)
    requires ValidTLV(t)
    ensures Decode(Encode(t) + rest) == Some(Taken(t, |Encode(t)|))
  {
    var b := Encode(t) + rest;
    EncodedParts(t, rest);
    hide Encode, Header, Get16, Get32, Padding;
    HeaderRead(b, t.typ, |t.data|);
  }

  lemma EncodeDecoded(b: bytes)
    requires Decode(b).Some?
    ensures var t := Decode(b).value;
      ValidTLV(t.value) && 0 < t.used <= |b| && b[..t.used] == Encode(t.value)
  {
    var t := Decode(b).value;
    HeaderWrite(b);
    var n := |t.value.data|;
    hide Header, Get16, Get32, Padding;
    assert b[..t.used] == b[..8] + b[8..8 + n] + b[8 + n..t.used];
  }

  lemma TLVCodec()
    ensures Reads(Encode, Decode, ValidTLV, Anything) && Exact(Encode, Decode, ValidTLV) && Progress(Decode)
  {
    forall t: TLV, rest: bytes | ValidTLV(t) ensures Decode(Encode(t) + rest) == Some(Taken(t, |Encode(t)|)) {
      DecodeEncoded(t, rest);
    }
    forall b: bytes | Decode(b).Some?
      ensures var t := Decode(b).value; ValidTLV(t.value) && 0 < t.used <= |b| && b[..t.used] == Encode(t.value)
    {
      EncodeDecoded(b);
    }
    hide Encode, Decode, ValidTLV;
  }

  /** TLVs.MarshalBinary and TLVs.UnmarshalBinary: a list of valid records encodes to b
      exactly when b is accepted and decodes to that list. */
  lemma TLVListBijection(ts: seq<TLV>, b: bytes)
    ensures AllValid(ValidTLV, ts) && EncodeAll(Encode, ts) == b <==> DecodeAll(Decode, b) == Some(ts)
  {
    TLVCodec();
    Bijection(Encode, Decode, ValidTLV, Anything, ts, b);
  }

  /** TLVs.MarshalBinary: an invalid record anywhere is an error. */
  method MarshalTLVs(ts: seq<TLV>) returns (r: Option<bytes>)
    ensures r == if AllValid(ValidTLV, ts) then Some(EncodeAll(Encode, ts)) else None
  {
    var data: bytes := [];
    for i := 0 to |ts|
      invariant forall j :: 0 <= j < i ==> ValidTLV(ts[j])
      invariant data + EncodeAll(Encode, ts[i..]) == EncodeAll(Encode, ts)
    {
      if !ValidTLV(ts[i]) { return None; }
      EncodeAllStep(Encode, ts, i, data);
      data := data + Encode(ts[i]);
    }
    assert data + [] == data;
    return Some(data);
  }

  method UnmarshalTLVs(data: bytes) returns (r: Option<seq<TLV>>)
    ensures r == DecodeAll(Decode, data)
  {
    TLVCodec();
    r := UnmarshalAll(Decode, data);
  }
}
