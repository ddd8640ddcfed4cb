/** S-NSSAI values (section 9.11.2.8 of 3GPP TS 24.501) and the lists the modem carries. */
module Nssai {
  import opened Bytes
  import opened Codec
  import T = Tlv

  type Triple = s: bytes | |s| == 3 witness [0, 0, 0]

  const NO_SD: Triple := [0, 0, 0]

  datatype SNSSAI = SNSSAI(
    sst: byte, sd: Triple, hasSD: bool,
    mappedSST: byte, hasMappedSST: bool, mappedSD: Triple, hasMappedSD: bool)

  /** What MarshalBinary accepts. */
  predicate Encodable(s: SNSSAI) {
    s.hasMappedSD ==> s.hasSD && s.hasMappedSST
  }

  /** Absent fields are zero. */
  predicate Normal(s: SNSSAI) {
    && (!s.hasSD ==> s.sd == NO_SD) && (!s.hasMappedSST ==> s.mappedSST == 0)
    && (!s.hasMappedSD ==> s.mappedSD == NO_SD)
  }

  function Normalise(s: SNSSAI): (n: SNSSAI)
    ensures Normal(n) && (Normal(s) ==> n == s) && (Encodable(s) ==> Encodable(n))
  {
    s.(sd := if s.hasSD then s.sd else NO_SD,
       mappedSST := if s.hasMappedSST then s.mappedSST else 0,
       mappedSD := if s.hasMappedSD then s.mappedSD else NO_SD)
  }

  predicate ValidSNSSAI(s: SNSSAI) { Encodable(s) && Normal(s) }

  /** marshalBinaryUnchecked. */
  function Encode(s: SNSSAI): (b: bytes)
    ensures |b| >= 2 && |b| == b[0] as int + 1 && b[1] == s.sst
    ensures Encodable(s) ==> b[0] == 1 + (if s.hasSD then 3 else 0) + (if s.hasMappedSST then 1 else 0) + (if s.hasMappedSD then 3 else 0)
  {
    var hasSD := s.hasSD || s.hasMappedSD;
    var hasMappedSST := s.hasMappedSST || s.hasMappedSD;
    var length :=
      if s.hasMappedSD then 8
      else if hasSD && hasMappedSST then 5
      else if hasSD then 4
      else if hasMappedSST then 2
      else 1;
    [length, s.sst]
    + (if hasSD then s.sd else [])
    + (if hasMappedSST then [s.mappedSST] else [])
    + (if s.hasMappedSD then s.mappedSD else [])
  }

  /** SNSSAI.UnmarshalBinary on a whole payload. */
  function DecodeWhole(b: bytes): Option<SNSSAI> {
    if |b| < 1 then None
    else if b[0] !in {1, 2, 4, 5, 8} || |b| != b[0] as int + 1 then None
    else
      var length, sst := b[0], b[1];
      var hasSD, hasMappedSST, hasMappedSD := length >= 4, length == 2 || length >= 5, length == 8;
      var at := if hasSD then 5 else 2;
      Some(SNSSAI(
        sst, if hasSD then b[2..5] else NO_SD, hasSD,
        if hasMappedSST then b[at] else 0, hasMappedSST,
        if hasMappedSD then b[6..9] else NO_SD, hasMappedSD))
  }

  lemma DecodeWholeEncoded(s: SNSSAI)
    requires Encodable(s)
    ensures DecodeWhole(Encode(s)) == Some(Normalise(s))
  {
    var b := Encode(s);
    if s.hasSD { assert b[2..5] == s.sd; }
    if s.hasMappedSD { assert b[6..9] == s.mappedSD; }
  }

  lemma EncodeDecodedWhole(b: bytes)
    requires DecodeWhole(b).Some?
    ensures ValidSNSSAI(DecodeWhole(b).value) && Encode(DecodeWhole(b).value) == b
  {
    var s := DecodeWhole(b).value;
    var e := Encode(s);
    assert |e| == |b|;
    if s.hasSD { assert b[2..5] == [b[2], b[3], b[4]]; }
    if s.hasMappedSD { assert b[6..9] == [b[6], b[7], b[8]]; }
  }

  lemma EncodeIgnoresAbsent(s: SNSSAI)
    requires Encodable(s)
    ensures Encode(s) == Encode(Normalise(s))
  {
  }

  /** A value survives the round trip exactly when its absent fields are zero. */
  lemma RoundTripIff(s: SNSSAI)
    requires Encodable(s)
    ensures DecodeWhole(Encode(s)) == Some(s) <==> Normal(s)
  {
    DecodeWholeEncoded(s);
  }

  /** The failing side is real: a differentiator that is not flagged is lost. */
  lemma UnflaggedDifferentiatorIsLost()
    ensures var s := SNSSAI(1, [9, 9, 9], false, 0, false, NO_SD, false);
      Encodable(s) && DecodeWhole(Encode(s)) == Some(s.(sd := NO_SD)) && DecodeWhole(Encode(s)) != Some(s)
  {
    DecodeWholeEncoded(SNSSAI(1, [9, 9, 9], false, 0, false, NO_SD, false));
  }

  // ---- S-NSSAI lists ----

  /** One round of unmarshalSNSSAIList. */
  function Decode(b: bytes): Option<Taken<SNSSAI>> {
    if |b| == 0 || b[0] as int + 1 > |b| then None
    else
      match DecodeWhole(b[..b[0] as int + 1])
      case None => None
      case Some(s) => Some(Taken(s, b[0] as int + 1))
  }

  lemma DecodeEncoded(s: SNSSAI, rest: bytes)
    requires ValidSNSSAI(s)
    ensures Decode(Encode(s) + rest) == Some(Taken(s, |Encode(s)|))
  {
    DecodeWholeEncoded(s);
    var b := Encode(s) + rest;
    hide DecodeWhole;
    assert b[..|Encode(s)|] == Encode(s);
  }

  lemma SNSSAICodec()
    ensures Reads(Encode, Decode, ValidSNSSAI, Anything) && Exact(Encode, Decode, ValidSNSSAI) && Progress(Decode)
  {
    forall s: SNSSAI, rest: bytes | ValidSNSSAI(s) ensures Decode(Encode(s) + rest) == Some(Taken(s, |Encode(s)|)) {
      DecodeEncoded(s, rest);
    }
    forall b: bytes | Decode(b).Some?
      ensures var t := Decode(b).value; ValidSNSSAI(t.value) && 0 < t.used <= |b| && b[..t.used] == Encode(t.value)
    {
      EncodeDecodedWhole(b[..b[0] as int + 1]);
    }
    hide Encode, Decode, ValidSNSSAI;
  }

  lemma SNSSAIListBijection(xs: seq<SNSSAI>, b: bytes)
    ensures AllValid(ValidSNSSAI, xs) && EncodeAll(Encode, xs) == b <==> DecodeAll(Decode, b) == Some(xs)
  {
    SNSSAICodec();
    Bijection(Encode, Decode, ValidSNSSAI, Anything, xs, b);
  }

  /** marshalSNSSAIList. */
  method MarshalSNSSAIList(values: seq<SNSSAI>) returns (r: Option<bytes>)
    ensures r == if AllValid(Encodable, values) then Some(EncodeAll(Encode, values)) else None
  {
    var data: bytes := [];
    hide Encode;
    for i := 0 to |values|
      invariant forall j :: 0 <= j < i ==> Encodable(values[j])
      invariant data + EncodeAll(Encode, values[i..]) == EncodeAll(Encode, values)
    {
      if !Encodable(values[i]) { return None; }
      EncodeAllStep(Encode, values, i, data);
      data := data + Encode(values[i]);
    }
    assert data + [] == data;
    return Some(data);
  }

  method UnmarshalSNSSAIList(data: bytes) returns (r: Option<seq<SNSSAI>>)
    ensures r == DecodeAll(Decode, data)
  {
    SNSSAICodec();
    r := UnmarshalAll(Decode, data);
  }

  // ---- rejected S-NSSAI ----

  datatype Rejected = Rejected(cause: byte, snssai: SNSSAI)

  predicate ValidRejected(r: Rejected) {
    && r.cause <= 1 && 1 <= r.snssai.sst <= 3
    && !r.snssai.hasMappedSST && !r.snssai.hasMappedSD && Normal(r.snssai)
  }

  /** The cause goes between the length and the value. */
  function EncodeRejected(r: Rejected): (b: bytes)
    ensures |b| >= 3
  {
    var e := Encode(r.snssai);
    [e[0], r.cause] + e[1..]
  }

  /** unmarshalRejectedSNSSAIPrefix: the value is put back together without the cause. */
  function DecodeRejected(b: bytes): Option<Taken<Rejected>> {
    if |b| < 3 || b[0] !in {1, 4} || b[0] as int + 2 > |b| || b[1] > 1 then None
    else
      match DecodeWhole([b[0]] + b[2..b[0] as int + 2])
      case None => None
      case Some(s) => if s.sst < 1 || s.sst > 3 then None else Some(Taken(Rejected(b[1], s), b[0] as int + 2))
  }

  lemma DecodeRejectedEncoded(r: Rejected, rest: bytes)
    requires ValidRejected(r)
    ensures DecodeRejected(EncodeRejected(r) + rest) == Some(Taken(r, |EncodeRejected(r)|))
  {
    var e, b := Encode(r.snssai), EncodeRejected(r) + rest;
    DecodeWholeEncoded(r.snssai);
    hide DecodeWhole, Encode;
    assert b[0] == e[0] && b[1] == r.cause && b[2..e[0] as int + 2] == e[1..];
    assert [e[0]] + e[1..] == e;
  }

  lemma EncodeDecodedRejected(b: bytes)
    requires DecodeRejected(b).Some?
    ensures var t := DecodeRejected(b).value;
      ValidRejected(t.value) && 0 < t.used <= |b| && b[..t.used] == EncodeRejected(t.value)
  {
    var w := [b[0]] + b[2..b[0] as int + 2];
    EncodeDecodedWhole(w);
    assert w[1..] == b[2..b[0] as int + 2];
    assert b[..b[0] as int + 2] == [b[0], b[1]] + b[2..b[0] as int + 2];
  }

  lemma RejectedCodec()
    ensures Reads(EncodeRejected, DecodeRejected, ValidRejected, Anything)
    ensures Exact(EncodeRejected, DecodeRejected, ValidRejected) && Progress(DecodeRejected)
  {
    forall r: Rejected, rest: bytes | ValidRejected(r)
      ensures DecodeRejected(EncodeRejected(r) + rest) == Some(Taken(r, |EncodeRejected(r)|))
    {
      DecodeRejectedEncoded(r, rest);
    }
    forall b: bytes | DecodeRejected(b).Some?
      ensures var t := DecodeRejected(b).value;
        ValidRejected(t.value) && 0 < t.used <= |b| && b[..t.used] == EncodeRejected(t.value)
    {
      EncodeDecodedRejected(b);
    }
    hide EncodeRejected, DecodeRejected, ValidRejected;
  }

  lemma RejectedListBijection(rs: seq<Rejected>, b: bytes)
    ensures AllValid(ValidRejected, rs) && EncodeAll(EncodeRejected, rs) == b <==> DecodeAll(DecodeRejected, b) == Some(rs)
  {
    RejectedCodec();
    Bijection(EncodeRejected, DecodeRejected, ValidRejected, Anything, rs, b);
  }

  /** RejectedNSSAIList.UnmarshalTLV on the data of the record. */
  method UnmarshalRejectedList(data: bytes) returns (r: Option<seq<Rejected>>)
    ensures r == if data == [] then None else DecodeAll(DecodeRejected, data)
  {
    if |data| == 0 { return None; }
    RejectedCodec();
    r := UnmarshalAll(DecodeRejected, data);
  }

  // ---- preconfigured default NSSAI ----

  const TYPE_DEFAULT_CONFIGURED: u16 := 5

  datatype Preconfigured = Preconfigured(access: nat, preferred: seq<SNSSAI>)

  predicate Unmapped(s: SNSSAI) { !s.hasMappedSST && !s.hasMappedSD }

  predicate ValidAccess(access: nat) { access == 1 || access == 2 }

  /** What MarshalBinary accepts. */
  predicate EncodablePreconfigured(p: Preconfigured) {
    ValidAccess(p.access) && AllValid(Unmapped, p.preferred) && |EncodeAll(Encode, p.preferred)| < TWO_32
  }

  predicate ValidPreconfigured(p: Preconfigured) {
    EncodablePreconfigured(p) && AllValid(ValidSNSSAI, p.preferred)
  }

  /** The access type, then the list inside a record of its own. */
  function EncodePreconfigured(p: Preconfigured): (b: bytes)
    ensures |b| >= 12
  {
    LE32(p.access) + T.Encode(T.TLV(TYPE_DEFAULT_CONFIGURED, EncodeAll(Encode, p.preferred)))
  }

  /** unmarshalPreconfiguredDefaultNSSAIPrefix. */
  function DecodePreconfigured(b: bytes): Option<Taken<Preconfigured>> {
    if |b| < 4 || !ValidAccess(Get32(b, 0)) then None
    else
      match T.Decode(b[4..])
      case None => None
      case Some(t) =>
        if t.value.typ != TYPE_DEFAULT_CONFIGURED then None
        else
          match DecodeAll(Decode, t.value.data)
          case None => None
          case Some(xs) =>
            if AllValid(Unmapped, xs) then Some(Taken(Preconfigured(Get32(b, 0), xs), 4 + t.used)) else None
  }

  lemma DecodePreconfiguredEncoded(p: Preconfigured, rest: bytes)
    requires ValidPreconfigured(p)
    ensures DecodePreconfigured(EncodePreconfigured(p) + rest) == Some(Taken(p, |EncodePreconfigured(p)|))
  {
    var inner := T.TLV(TYPE_DEFAULT_CONFIGURED, EncodeAll(Encode, p.preferred));
    var b := EncodePreconfigured(p) + rest;
    SNSSAIListBijection(p.preferred, inner.data);
    hide Encode, Decode, LE32, T.Encode, T.Decode, Get32, EncodeAll, DecodeAll;
    assert b[0..4] == LE32(p.access) && b[4..] == T.Encode(inner) + rest;
    Get32AfterLE32(p.access, b, 0);
    T.DecodeEncoded(inner, rest);
  }

  lemma EncodeDecodedPreconfigured(b: bytes)
    requires DecodePreconfigured(b).Some?
    ensures var t := DecodePreconfigured(b).value;
      ValidPreconfigured(t.value) && 0 < t.used <= |b| && b[..t.used] == EncodePreconfigured(t.value)
  {
    var tail := b[4..];
    T.EncodeDecoded(tail);
    var t := T.Decode(tail).value;
    var xs := DecodeAll(Decode, t.value.data).value;
    SNSSAIListBijection(xs, t.value.data);
    LE32AfterGet32(b, 0);
    hide Encode, Decode, LE32, T.Encode, T.Decode, Get32, EncodeAll, DecodeAll;
    assert b[..4 + t.used] == b[0..4] + tail[..t.used];
  }

  lemma PreconfiguredCodec()
    ensures Reads(EncodePreconfigured, DecodePreconfigured, ValidPreconfigured, Anything)
    ensures Exact(EncodePreconfigured, DecodePreconfigured, ValidPreconfigured) && Progress(DecodePreconfigured)
  {
    forall p: Preconfigured, rest: bytes | ValidPreconfigured(p)
      ensures DecodePreconfigured(EncodePreconfigured(p) + rest) == Some(Taken(p, |EncodePreconfigured(p)|))
    {
      DecodePreconfiguredEncoded(p, rest);
    }
    forall b: bytes | DecodePreconfigured(b).Some?
      ensures var t := DecodePreconfigured(b).value;
        ValidPreconfigured(t.value) && 0 < t.used <= |b| && b[..t.used] == EncodePreconfigured(t.value)
    {
      EncodeDecodedPreconfigured(b);
    }
    hide EncodePreconfigured, DecodePreconfigured, ValidPreconfigured;
  }

  /** One or two lists, for different access types. */
  predicate FitList(ps: seq<Preconfigured>) {
    1 <= |ps| <= 2 && forall i, j :: 0 <= i < j < |ps| ==> ps[i].access != ps[j].access
  }

  ghost function DecodePreconfiguredList(b: bytes): Option<seq<Preconfigured>> {
    match DecodeAll(DecodePreconfigured, b)
    case None => None
    case Some(ps) => if FitList(ps) then Some(ps) else None
  }

  lemma PreconfiguredListBijection(ps: seq<Preconfigured>, b: bytes)
    ensures AllValid(ValidPreconfigured, ps) && FitList(ps) && EncodeAll(EncodePreconfigured, ps) == b
       <==> DecodePreconfiguredList(b) == Some(ps)
  {
    PreconfiguredCodec();
    Bijection(EncodePreconfigured, DecodePreconfigured, ValidPreconfigured, Anything, ps, b);
  }

  /** NewPreconfiguredDefaultNSSAITLV, up to the record around the data. */
  method MarshalPreconfiguredList(ps: seq<Preconfigured>) returns (r: Option<bytes>)
    ensures r == if AllValid(EncodablePreconfigured, ps) && FitList(ps) then Some(EncodeAll(EncodePreconfigured, ps)) else None
  {
    if |ps| == 0 || |ps| > 2 { return None; }
    var seen: set<nat> := {};
    var data: bytes := [];
    for i := 0 to |ps|
      invariant forall j :: 0 <= j < i ==> EncodablePreconfigured(ps[j])
      invariant forall a :: a in seen <==> exists j :: 0 <= j < i && ps[j].access == a
      invariant forall j, k :: 0 <= j < k < i ==> ps[j].access != ps[k].access
      invariant data + EncodeAll(EncodePreconfigured, ps[i..]) == EncodeAll(EncodePreconfigured, ps)
    {
      if ps[i].access in seen { return None; }
      seen := seen + {ps[i].access};
      if !EncodablePreconfigured(ps[i]) { return None; }
      EncodeAllStep(EncodePreconfigured, ps, i, data);
      data := data + EncodePreconfigured(ps[i]);
    }
    assert data + [] == data;
    return Some(data);
  }

  /** What the decoder's loop knows of the lists taken so far. */
  ghost predicate Collected(values: seq<Preconfigured>, seen: set<nat>) {
    && |values| <= 2
    && (forall a :: a in seen <==> exists j :: 0 <= j < |values| && values[j].access == a)
    && (forall j, k :: 0 <= j < k < |values| ==> values[j].access != values[k].access)
  }

  lemma CollectedAdd(values: seq<Preconfigured>, seen: set<nat>, v: Preconfigured)
    requires Collected(values, seen) && |values| < 2 && v.access !in seen
    ensures Collected(values + [v], seen + {v.access})
  {
    var all, s := values + [v], seen + {v.access};
    forall a ensures a in s <==> exists j :: 0 <= j < |all| && all[j].access == a {
      if a in seen {
        var j :| 0 <= j < |values| && values[j].access == a;
        assert all[j].access == a;
      }
      if a == v.access { assert all[|values|].access == a; }
    }
  }

  /** PreconfiguredDefaultNSSAIList.UnmarshalTLV: the third list and the repeated access
      type are refused as soon as they are met. */
  method UnmarshalPreconfiguredList(data: bytes) returns (r: Option<seq<Preconfigured>>)
    ensures r == DecodePreconfiguredList(data)
  {
    if |data| == 0 { return None; }
    var values: seq<Preconfigured> := [];
    var seen: set<nat> := {};
    var rest := data;
    PreconfiguredCodec();
    OntoNothing(values, DecodeAll(DecodePreconfigured, data));
    hide DecodePreconfigured, EncodePreconfigured, ValidPreconfigured, Reads, Exact, Onto, DecodeAll;
    assert Collected(values, seen);
    hide Collected;
    while |rest| > 0
      invariant Onto(values, DecodeAll(DecodePreconfigured, rest)) == DecodeAll(DecodePreconfigured, data)
      invariant Collected(values, seen) && (|values| == 0 ==> |rest| > 0)
      decreases |rest|
    {
      if |values| == 2 {
        TooMany(values, rest);
        return None;
      }
      var t := DecodePreconfigured(rest);
      if t == None {
        Stuck(values, rest);
        return None;
      }
      OntoStep(DecodePreconfigured, values, rest);
      var value := t.value.value;
      if value.access in seen {
        Repeated(values, seen, value, DecodeAll(DecodePreconfigured, rest[t.value.used..]));
        return None;
      }
      CollectedSmall(values, seen);
      CollectedAdd(values, seen, value);
      seen := seen + {value.access};
      values := values + [value];
      rest := rest[t.value.used..];
    }
    Finished(values, seen, rest);
    return Some(values);
  }

  lemma CollectedSmall(values: seq<Preconfigured>, seen: set<nat>)
    requires Collected(values, seen)
    ensures |values| <= 2
  {
  }

  lemma Stuck(values: seq<Preconfigured>, rest: bytes)
    requires rest != [] && DecodePreconfigured(rest) == None
    ensures Onto(values, DecodeAll(DecodePreconfigured, rest)) == None
  {
    hide DecodePreconfigured;
  }

  lemma Finished(values: seq<Preconfigured>, seen: set<nat>, rest: bytes)
    requires rest == [] && Collected(values, seen)
    ensures Onto(values, DecodeAll(DecodePreconfigured, rest)) == Some(values)
    ensures |values| > 0 ==> FitList(values)
  {
    OntoNothing(values, None);
  }

  lemma TooMany(values: seq<Preconfigured>, rest: bytes)
    requires |values| == 2 && rest != []
    ensures var r := Onto(values, DecodeAll(DecodePreconfigured, rest)); r.Some? ==> !FitList(r.value)
  {
    hide DecodePreconfigured;
  }

  lemma Repeated(values: seq<Preconfigured>, seen: set<nat>, value: Preconfigured, r: Option<seq<Preconfigured>>)
    requires Collected(values, seen) && value.access in seen
    ensures Onto(values + [value], r).Some? ==> !FitList(Onto(values + [value], r).value)
  {
    if r.Some? {
      var j :| 0 <= j < |values| && values[j].access == value.access;
      var all := values + [value] + r.value;
      assert all[j].access == all[|values|].access;
    }
  }
}
