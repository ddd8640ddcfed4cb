/** Which values the encoders admit and where their fields lie in the octets, without
    reference to the decoders. */
module Layouts {
  import opened Bytes
  import opened Codec
  import T = Tlv
  import N = Nssai
  import Tai
  import Utf16
  import L = Ladn
  import opened Wire
  import W = WireRefs
  import WT = WireTheorems
  import F = PacketFilters
  import P = Providers

  // ---- integers ----

  /** Integers are little-endian: octet i counts for 256 to the power of i. */
  lemma LittleEndian(n: u32)
    ensures var b := LE32(n); n == (b[0] as int) + 0x100 * (b[1] as int) + 0x1_0000 * (b[2] as int) + 0x100_0000 * (b[3] as int)
    ensures n < 0x1_0000 ==> var b := LE16(n); n == (b[0] as int) + 0x100 * (b[1] as int)
  {
  }

  // ---- TLV ----

  /** A record is its type in two octets, a zero, the number of padding octets, the length
      in four octets, the data and the padding, which brings it to a multiple of four. */
  lemma TLVOctets(typ: u16, data: bytes)
    requires |data| < TWO_32
    ensures var b := T.Encode(T.TLV(typ, data));
      && b[..2] == LE16(typ) && b[2] == 0 && b[3] == (4 - |data| % 4) % 4 && b[4..8] == LE32(|data|)
      && b[8..8 + |data|] == data && |b| % 4 == 0 && |b| < 12 + |data|
      && forall i :: 8 + |data| <= i < |b| ==> b[i] == 0
  {
    hide LE16, LE32;
    var h, b := T.Header(typ, |data|), T.Encode(T.TLV(typ, data));
    assert b[..8] == h && b[8..8 + |data|] == data && b[8 + |data|..] == Zeros(Padding(|data|));
    assert b[..2] == h[..2] && h[..2] == LE16(typ);
    assert b[4..8] == h[4..8] && h[4..8] == LE32(|data|);
    assert b[2] == h[2] && b[3] == h[3];
    forall i | 8 + |data| <= i < |b| ensures b[i] == 0 {
      assert b[i] == b[8 + |data|..][i - 8 - |data|];
    }
  }

  /** Types 1 to 0xFFF0 are admitted, with any data. */
  lemma TLVAdmits(typ: u16, data: bytes)
    requires |data| < TWO_32
    ensures T.Decode(T.Encode(T.TLV(typ, data))).Some? <==> 1 <= typ <= 0xFFF0
    ensures T.ValidTLV(T.TLV(typ, data)) <==> 1 <= typ <= 0xFFF0
  {
    var t := T.TLV(typ, data);
    var b := T.Encode(t);
    if 1 <= typ <= 0xFFF0 {
      T.DecodeEncoded(t, []);
      assert b + [] == b;
    } else {
      TLVOctets(typ, data);
      hide LE16, LE32;
      assert b[0..2] == b[..2];
      Get16AfterLE16(typ, b, 0);
    }
  }

  // ---- S-NSSAI ----

  /** The five contents and their octets (section 9.11.2.8 of 3GPP TS 24.501). */
  lemma SNSSAIOctets(sst: byte, sd: N.Triple, mapped: byte, mappedSD: N.Triple)
    ensures N.Encode(N.SNSSAI(sst, N.NO_SD, false, 0, false, N.NO_SD, false)) == [1, sst]
    ensures N.Encode(N.SNSSAI(sst, N.NO_SD, false, mapped, true, N.NO_SD, false)) == [2, sst, mapped]
    ensures N.Encode(N.SNSSAI(sst, sd, true, 0, false, N.NO_SD, false)) == [4, sst] + sd
    ensures N.Encode(N.SNSSAI(sst, sd, true, mapped, true, N.NO_SD, false)) == [5, sst] + sd + [mapped]
    ensures N.Encode(N.SNSSAI(sst, sd, true, mapped, true, mappedSD, true)) == [8, sst] + sd + [mapped] + mappedSD
  {
  }

  /** Exactly the payloads of these lengths, named by their first octet, are accepted. */
  lemma SNSSAIAdmits(b: bytes)
    ensures N.DecodeWhole(b).Some? <==> (|b| == 2 || |b| == 3 || |b| == 5 || |b| == 6 || |b| == 9) && b[0] == |b| - 1
  {
  }

  /** A rejected S-NSSAI has cause 0 or 1 between the length and the rest, a slice type from
      1 to 3, perhaps a differentiator, and nothing mapped. */
  lemma RejectedOctets(cause: byte, sst: byte, sd: N.Triple)
    ensures var r := N.Rejected(cause, N.SNSSAI(sst, N.NO_SD, false, 0, false, N.NO_SD, false));
      N.EncodeRejected(r) == [1, cause, sst] && (N.ValidRejected(r) <==> cause <= 1 && 1 <= sst <= 3)
    ensures var r := N.Rejected(cause, N.SNSSAI(sst, sd, true, 0, false, N.NO_SD, false));
      N.EncodeRejected(r) == [4, cause, sst] + sd && (N.ValidRejected(r) <==> cause <= 1 && 1 <= sst <= 3)
  {
    SNSSAIOctets(sst, sd, 0, sd);
  }

  /** Preconfigured lists: the access type, 1 or 2, before a record of type 5; one or two of
      them, the second for the other access type. */
  lemma PreconfiguredOctets(access: nat, xs: seq<N.SNSSAI>)
    requires access < TWO_32
    ensures var p := N.Preconfigured(access, xs);
      N.EncodePreconfigured(p)[..4] == LE32(access) && N.EncodePreconfigured(p)[4..6] == [5, 0]
    ensures N.EncodablePreconfigured(N.Preconfigured(access, [])) <==> 1 <= access <= 2
  {
    var b := N.EncodePreconfigured(N.Preconfigured(access, xs));
    var t := T.Encode(T.TLV(5, EncodeAll(N.Encode, xs)));
    assert LE16(5) == [5, 0];
    hide LE32, LE16, Padding;
    assert b[..4] == LE32(access) && b[4..6] == t[..2];
    assert t[..2] == LE16(5);
  }

  lemma PreconfiguredFits(p: N.Preconfigured, q: N.Preconfigured, ps: seq<N.Preconfigured>)
    ensures N.FitList([p]) && !N.FitList([]) && (N.FitList([p, q]) <==> p.access != q.access)
    ensures |ps| > 2 ==> !N.FitList(ps)
  {
    var l := [p, q];
    assert l[0] == p && l[1] == q;
  }

  // ---- tracking areas ----

  predicate Digit(n: int) { 0 <= n <= 9 }

  /** The number that decimal digits make, one in each hexadecimal digit. */
  function TwoDigits(a: int, b: int): int { 16 * a + b }

  function ThreeDigits(a: int, b: int, c: int): int { 256 * a + 16 * b + c }

  ghost predicate IsThree(n: int) { exists a, b, c :: Digit(a) && Digit(b) && Digit(c) && n == ThreeDigits(a, b, c) }

  ghost predicate IsTwo(n: int) { exists a, b :: Digit(a) && Digit(b) && n == TwoDigits(a, b) }

  lemma ThreeIff(n: nat)
    ensures IsThree(n) <==> n < 0x1000 && Tai.Decimal(n, 3)
  {
    assert Tai.Decimal(n, 3) <==> n % 16 <= 9 && Tai.Decimal(n / 16, 2);
    assert Tai.Decimal(n / 16, 2) <==> n / 16 % 16 <= 9 && Tai.Decimal(n / 16 / 16, 1);
    assert Tai.Decimal(n / 16 / 16, 1) <==> n / 16 / 16 % 16 <= 9 && Tai.Decimal(n / 16 / 16 / 16, 0);
    hide Tai.Decimal;
    if n < 0x1000 {
      assert n == ThreeDigits(n / 16 / 16, n / 16 % 16, n % 16) && n / 16 / 16 % 16 == n / 16 / 16;
    }
    if IsThree(n) {
      var a, b, c :| Digit(a) && Digit(b) && Digit(c) && n == ThreeDigits(a, b, c);
      assert n == 16 * (16 * a + b) + c;
      DivMod16(16 * a + b, c);
      DivMod16(a, b);
    }
  }

  lemma DivMod16(high: nat, low: nat)
    requires low < 16
    ensures (16 * high + low) / 16 == high && (16 * high + low) % 16 == low
  {
  }

  lemma TwoIff(n: nat)
    requires n < 0x8000
    ensures IsTwo(n) <==> n < 0x100 && Tai.Decimal(0x8000 + n, 2)
  {
    var m := 0x8000 + n;
    assert Tai.Decimal(m, 2) <==> m % 16 <= 9 && Tai.Decimal(m / 16, 1);
    assert Tai.Decimal(m / 16, 1) <==> m / 16 % 16 <= 9 && Tai.Decimal(m / 16 / 16, 0);
    if n < 0x100 && Tai.Decimal(m, 2) {
      assert n == TwoDigits(n / 16, n % 16);
    }
    if IsTwo(n) {
      var a, b :| Digit(a) && Digit(b) && n == TwoDigits(a, b);
      assert m % 16 == b && m / 16 % 16 == a;
    }
  }

  /** A country code is any three decimal digits; a network code is any three, or any two
      with the top bit set. Nothing else is valid. */
  lemma PLMNAdmits(p: Tai.PLMN)
    ensures Tai.ValidPLMN(p) <==> IsThree(p.mcc) && (IsThree(p.mnc) || (p.mnc >= 0x8000 && IsTwo(p.mnc - 0x8000)))
  {
    ThreeIff(p.mcc);
    ThreeIff(p.mnc);
    if p.mnc >= 0x8000 { TwoIff(p.mnc - 0x8000); }
    hide Tai.Decimal, IsThree, IsTwo;
  }

  ghost predicate Codes(tacs: seq<u32>) { 1 <= |tacs| <= 16 && forall i :: 0 <= i < |tacs| ==> tacs[i] <= 0xFF_FFFF }

  /** One to sixteen area codes of three octets: any for type 0, a run of consecutive ones
      for type 1, each with its own network for type 2. */
  lemma TAIListAdmits(plmn: Tai.PLMN, tacs: seq<u32>, tais: seq<Tai.TAI>)
    ensures Tai.ValidList(Tai.TAIList(0, plmn, tacs, [])) <==> Tai.ValidPLMN(plmn) && Codes(tacs)
    ensures Tai.ValidList(Tai.TAIList(1, plmn, tacs, [])) <==>
      Tai.ValidPLMN(plmn) && Codes(tacs) && forall i :: 0 <= i < |tacs| ==> tacs[i] == (tacs[0] as int) + i
    ensures Tai.ValidList(Tai.TAIList(2, Tai.PLMN(0, 0), [], tais)) <==>
      1 <= |tais| <= 16 && forall i :: 0 <= i < |tais| ==> Tai.ValidPLMN(tais[i].plmn) && tais[i].tac <= 0xFF_FFFF
  {
    hide Tai.ValidPLMN;
    if |tacs| > 0 { RunIff(tacs); }
  }

  lemma RunIff(tacs: seq<u32>)
    requires |tacs| > 0
    ensures (forall i :: 0 < i < |tacs| ==> tacs[i] == (tacs[i - 1] as int) + 1) <==> forall i :: 0 <= i < |tacs| ==> tacs[i] == (tacs[0] as int) + i
  {
    if forall i :: 0 < i < |tacs| ==> tacs[i] == (tacs[i - 1] as int) + 1 {
      forall i | 0 <= i < |tacs| ensures tacs[i] == (tacs[0] as int) + i { RunAt(tacs, i); }
    }
  }

  lemma {:induction false} RunAt(tacs: seq<u32>, i: nat)
    requires i < |tacs| && forall j :: 0 < j < |tacs| ==> tacs[j] == (tacs[j - 1] as int) + 1
    ensures tacs[i] == (tacs[0] as int) + i
  {
    if i > 0 { RunAt(tacs, i - 1); }
  }

  /** A list that mixes the contents of two types, or has another type, is invalid. */
  lemma TAIListRefuses(l: Tai.TAIList)
    ensures l.typ > 2 || (l.typ <= 1 && l.tais != []) || (l.typ == 2 && (l.tacs != [] || l.plmn != Tai.PLMN(0, 0))) ==> !Tai.ValidList(l)
  {
    hide Tai.ValidPLMN;
  }

  /** The type, the network, the count and the area codes in turn; for type 2 the count and
      then network and area code in turn. */
  lemma TAIListOctets(typ: byte, plmn: Tai.PLMN, tacs: seq<u32>, tais: seq<Tai.TAI>)
    requires |tacs| <= 16 && |tais| <= 16
    ensures typ <= 1 ==> var b := Tai.Encode(Tai.TAIList(typ, plmn, tacs, []));
      |b| == 6 + 4 * |tacs| && b[..6] == [typ] + LE16(plmn.mcc) + LE16(plmn.mnc) + [|tacs|]
      && forall i :: 0 <= i < |tacs| ==> b[6 + 4 * i..10 + 4 * i] == LE32(tacs[i])
    ensures var b := Tai.Encode(Tai.TAIList(2, Tai.PLMN(0, 0), [], tais));
      |b| == 2 + 8 * |tais| && b[..2] == [2, |tais|]
      && forall i :: 0 <= i < |tais| ==> b[2 + 8 * i..10 + 8 * i] == LE16(tais[i].plmn.mcc) + LE16(tais[i].plmn.mnc) + LE32(tais[i].tac)
  {
    hide LE16, LE32;
    if typ <= 1 {
      var h, b := [typ] + LE16(plmn.mcc) + LE16(plmn.mnc) + [|tacs|], Tai.Encode(Tai.TAIList(typ, plmn, tacs, []));
      assert |tacs| % 256 == |tacs|;
      assert b == h + Tai.TACs(tacs);
      forall i | 0 <= i < |tacs| ensures b[6 + 4 * i..10 + 4 * i] == LE32(tacs[i]) {
        CodeAt(tacs, i);
        Shifted(h, Tai.TACs(tacs), 4 * i, 4 * i + 4);
      }
    }
    var h, b := [2, |tais|], Tai.Encode(Tai.TAIList(2, Tai.PLMN(0, 0), [], tais));
    assert |tais| % 256 == |tais|;
    assert b == h + Tai.TAIs(tais);
    forall i | 0 <= i < |tais|
      ensures b[2 + 8 * i..10 + 8 * i] == LE16(tais[i].plmn.mcc) + LE16(tais[i].plmn.mnc) + LE32(tais[i].tac)
    {
      AreaAt(tais, i);
      Shifted(h, Tai.TAIs(tais), 8 * i, 8 * i + 8);
    }
  }

  lemma Shifted(a: bytes, b: bytes, c: nat, d: nat)
    requires c <= d <= |b|
    ensures (a + b)[|a| + c..|a| + d] == b[c..d]
  {
  }

  lemma {:induction false} CodeAt(tacs: seq<u32>, i: nat)
    requires i < |tacs|
    ensures Tai.TACs(tacs)[4 * i..4 * i + 4] == LE32(tacs[i])
    decreases |tacs|
  {
    hide LE32;
    var a, b := LE32(tacs[0]), Tai.TACs(tacs[1..]);
    if i == 0 {
      assert (a + b)[0..4] == a;
    } else {
      CodeAt(tacs[1..], i - 1);
      Shifted(a, b, 4 * (i - 1), 4 * i);
    }
  }

  lemma {:induction false} AreaAt(tais: seq<Tai.TAI>, i: nat)
    requires i < |tais|
    ensures Tai.TAIs(tais)[8 * i..8 * i + 8] == LE16(tais[i].plmn.mcc) + LE16(tais[i].plmn.mnc) + LE32(tais[i].tac)
    decreases |tais|
  {
    hide LE32, LE16;
    var a, b := Tai.TAIOctets(tais[0]), Tai.TAIs(tais[1..]);
    if i == 0 {
      assert (a + b)[0..8] == a;
    } else {
      AreaAt(tais[1..], i - 1);
      Shifted(a, b, 8 * (i - 1), 8 * i);
    }
  }

  // ---- LADN ----

  /** Before version 4 a name is 3 to 102 octets behind its length, and at least one
      tracking-area list follows it directly. */
  lemma LADNOctets3(dnn: bytes, lists: seq<Tai.TAIList>)
    ensures L.Valid3(L.LADN(dnn, lists)) <==> 3 <= |dnn| <= 102 && |lists| > 0 && AllValid(Tai.ValidList, lists)
    ensures |dnn| <= 102 ==> L.Encode3(L.LADN(dnn, lists)) == [|dnn|] + dnn + EncodeAll(Tai.Encode, lists)
  {
    hide EncodeAll, AllValid;
    assert |dnn| <= 102 ==> |dnn| % 256 == |dnn|;
  }

  /** From version 4 on the name is a record of type 10 with its UTF-16 text. */
  lemma LADNOctets4(name: L.Name4, lists: seq<Tai.TAIList>)
    ensures L.Encode4(L.LADN(name, lists)) == T.Encode(T.TLV(10, Utf16.Encode(name))) + EncodeAll(Tai.Encode, lists)
    ensures |Utf16.Encode(name)| < TWO_32 ==>
      (L.Valid4(L.LADN(name, lists)) <==> |lists| > 0 && AllValid(Tai.ValidList, lists))
  {
    hide T.Encode, Utf16.Encode, EncodeAll, AllValid;
  }

  /** Version 0 stands for 3.0; versions below 3.0 have no such record, those below 4.0 take
      the first layout, all others the second; the record has type 8 and at least one entry. */
  lemma LADNVersions(a: seq<L.LADN<L.Name3>>, b: seq<L.LADN<L.Name4>>, version: u16)
    ensures var r := L.NewLADNTLV(L.V3(a), version);
      && (r.Some? <==> (version == 0 || 0x300 <= version < 0x400) && a != [] && AllValid(L.Valid3, a))
      && (r.Some? ==> r.value.typ == 8)
    ensures var r := L.NewLADNTLV(L.V4(b), version);
      && (r.Some? <==> version >= 0x400 && b != [] && AllValid(L.Valid4, b))
      && (r.Some? ==> r.value.typ == 8)
  {
    hide L.Valid3, L.Valid4, L.Encode3, L.Encode4, EncodeAll;
  }

  // ---- UTF-16 ----

  /** A scalar value below 2^16 is one unit; any other is a high and a low surrogate that
      carry ten bits each of what exceeds 2^16. */
  lemma UnitsCarry(c: Utf16.Scalar)
    ensures var us := Utf16.UnitsOf(c);
      if c < 0x1_0000 then us == [c]
      else |us| == 2 && 0xD800 <= us[0] <= 0xDBFF && 0xDC00 <= us[1] <= 0xDFFF
           && c == 0x1_0000 + 1024 * (us[0] as int - 0xD800) + (us[1] as int - 0xDC00)
  {
  }

  /** Text without surrogates takes two octets for each scalar value. */
  lemma {:induction false} PlainLength(s: seq<Utf16.Scalar>)
    requires forall i :: 0 <= i < |s| ==> s[i] < 0x1_0000
    ensures |Utf16.Encode(s)| == 2 * |s|
    decreases |s|
  {
    hide LE16;
    if s != [] {
      PlainLength(s[1..]);
      var us := Utf16.EncodeUnits(s);
      assert us[1..] == Utf16.EncodeUnits(s[1..]) && us[0] == s[0];
    }
  }

  // ---- packet filters ----

  /** The size of the filter, the offsets of filter and mask, from version 3.0 the
      identifier, and both values where the offsets say. */
  lemma FilterOctets(version: nat, f: F.Filter)
    requires |f.filter| == |f.mask| && |F.Record(version, f)| < TWO_32
    ensures var r, n := F.Record(version, f), |f.filter|;
      && |r| >= (if version >= 0x300 then 16 else 12) && Get32(r, 0) == n && (version >= 0x300 ==> Get32(r, 12) == f.id)
      && (n > 0 ==> Get32(r, 4) + n <= Get32(r, 8) && Get32(r, 8) + n <= |r|
                    && r[Get32(r, 4)..Get32(r, 4) + n] == f.filter && r[Get32(r, 8)..Get32(r, 8) + n] == f.mask)
      && (n == 0 ==> Get32(r, 4) == 0 && Get32(r, 8) == 0)
  {
    var r, n, fixed, vs := F.Record(version, f), |f.filter|, F.Fixed(version), [f.filter, f.mask];
    F.RecordFields(version, f);
    TwoRefs(fixed, f.filter, f.mask);
    hide F.Record, Body, Refs, Get32, Padding, W.InBase, W.ValueOf, W.Tiles, W.LastEnds;
    WT.ListReadBack(r, fixed, vs, true);
    var rs := Refs(fixed, vs, true);
    assert W.ValueOf(rs[0], r) == vs[0] && W.ValueOf(rs[1], r) == vs[1];
    ValueIs(rs[0], r);
    ValueIs(rs[1], r);
  }

  /** The references to two values of the same length: blank, or one before the other. */
  lemma TwoRefs(at: nat, x: bytes, y: bytes)
    requires |x| == |y| && at + |Cell(at, x)| < TWO_32
    ensures var rs := Refs(at, [x, y], true);
      if |x| == 0 then rs == [NO_REF, NO_REF]
      else rs[0].size == |x| && rs[1].size == |x| && rs[0].offset + |x| <= rs[1].offset
  {
    WT.TwoValues(at, x, y);
    hide Refs, Body, Padding;
  }

  // ---- providers ----

  /** The fixed fields of a record, and its two strings where their references say. */
  lemma ProviderOctets(p: P.Provider)
    requires P.ValidProvider(p) && |P.Record(p)| < TWO_32
    ensures var d := P.Record(p);
      && |d| >= 32 && Get32(d, 8) == p.state && Get32(d, 20) == p.cellularClass && Get32(d, 24) == p.rssi && Get32(d, 28) == p.errorRate
      && Get32(d, 0) + Get32(d, 4) <= |d| && Get32(d, 12) + Get32(d, 16) <= |d|
      && d[Get32(d, 0)..Get32(d, 0) + Get32(d, 4)] == Utf16.Encode(p.id)
      && d[Get32(d, 12)..Get32(d, 12) + Get32(d, 16)] == Utf16.Encode(p.name)
  {
    var d := P.Record(p);
    P.RecordRefs(false, p);
    P.RecordFields(p);
    hide P.Record, Get32, Utf16.Encode, P.RefsAccepted, P.ValidProvider, Refs, Body;
    ValueIs(P.IDRef(d), d);
    ValueIs(P.NameRef(d), d);
  }

  lemma ValueIs(r: Ref, data: bytes)
    requires |data| < TWO_32 && W.InBase(r, data)
    ensures r.offset + r.size <= |data| && W.ValueOf(r, data) == data[r.offset..r.offset + r.size]
  {
  }

  /** A provider may have up to six decimal digits, a name of up to twenty units, the six
      state bits and two class bits, a signal of 0 to 31 and an error rate of 0 to 7, both
      of which may be unknown (99). Nothing else is valid. */
  lemma ProviderAdmits(p: P.Provider)
    ensures P.ValidProvider(p) <==>
      && |p.id| <= 6 && (forall i :: 0 <= i < |p.id| ==> '0' as int <= p.id[i] <= '9' as int)
      && |Utf16.EncodeUnits(p.name)| <= 20
      && p.state <= 0x3F && p.cellularClass <= 3
      && (0 <= p.rssi <= 31 || p.rssi == 99) && (0 <= p.errorRate <= 7 || p.errorRate == 99)
  {
    if P.Digits(p.id) { PlainLength(p.id); }
    hide LE16, Utf16.EncodeUnits;
  }
}
