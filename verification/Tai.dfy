/** Tracking-area identity lists: three layouts, each self-delimiting. */
module Tai {
  import opened Bytes
  import opened Codec

  datatype PLMN = PLMN(mcc: u16, mnc: u16)

  datatype TAI = TAI(plmn: PLMN, tac: u32)

  datatype TAIList = TAIList(typ: byte, plmn: PLMN, tacs: seq<u32>, tais: seq<TAI>)

  const NO_PLMN: PLMN := PLMN(0, 0)

  // ---- validation ----

  /** The lowest count hexadecimal digits of a value are decimal. */
  function Decimal(value: nat, count: nat): bool {
    count == 0 || (value % 16 <= 9 && Decimal(value / 16, count - 1))
  }

  /** validBCDNibbles. */
  method ValidBCDNibbles(value: u16, count: nat) returns (ok: bool)
    ensures ok == Decimal(value, count)
  {
    var v: nat := value;
    for i := 0 to count
      invariant Decimal(v, count - i) == Decimal(value, count)
    {
      if v % 16 > 9 { return false; }
      v := v / 16;
    }
    return true;
  }

  /** PLMN.validate: the top bit of the MNC marks two digits. */
  predicate ValidPLMN(p: PLMN) {
    && p.mcc < 0x1000 && Decimal(p.mcc, 3)
    && if p.mnc >= 0x8000 then p.mnc - 0x8000 < 0x100 && Decimal(p.mnc, 2) else p.mnc < 0x1000 && Decimal(p.mnc, 3)
  }

  predicate ValidTAC(tac: u32) { tac <= 0xFFFFFF }

  predicate ValidTAI(t: TAI) { ValidPLMN(t.plmn) && ValidTAC(t.tac) }

  /** TAIList.validate. */
  predicate ValidList(l: TAIList) {
    if l.typ <= 1 then
      && 1 <= |l.tacs| <= 16 && l.tais == [] && ValidPLMN(l.plmn)
      && (forall i :: 0 <= i < |l.tacs| ==> ValidTAC(l.tacs[i]))
      && (l.typ == 1 ==> forall i :: 0 < i < |l.tacs| ==> l.tacs[i] == l.tacs[i - 1] + 1)
    else
      && l.typ == 2 && 1 <= |l.tais| <= 16 && l.plmn == NO_PLMN && l.tacs == []
      && (forall i :: 0 <= i < |l.tais| ==> ValidTAI(l.tais[i]))
  }

  // ---- layout ----

  function PLMNOctets(p: PLMN): (b: bytes)
    ensures |b| == 4
  {
    LE16(p.mcc) + LE16(p.mnc)
  }

  function TAIOctets(t: TAI): (b: bytes)
    ensures |b| == 8
  {
    PLMNOctets(t.plmn) + LE32(t.tac)
  }

  function TACs(tacs: seq<u32>): (b: bytes)
    ensures |b| == 4 * |tacs|
  {
    if tacs == [] then [] else LE32(tacs[0]) + TACs(tacs[1..])
  }

  function TAIs(tais: seq<TAI>): (b: bytes)
    ensures |b| == 8 * |tais|
  {
    if tais == [] then [] else TAIOctets(tais[0]) + TAIs(tais[1..])
  }

  /** What TAIList.MarshalBinary writes for a list that validates. */
  function Encode(l: TAIList): (b: bytes)
    ensures |b| > 0 && b[0] == l.typ
  {
    if l.typ <= 1 then [l.typ] + PLMNOctets(l.plmn) + [|l.tacs| % 256] + TACs(l.tacs)
    else [l.typ] + [|l.tais| % 256] + TAIs(l.tais)
  }

  // ---- decoder ----

  function ReadPLMN(b: bytes, at: nat): PLMN
    requires at + 4 <= |b|
  {
    PLMN(Get16(b, at), Get16(b, at + 2))
  }

  function ReadTACs(b: bytes, at: nat, count: nat): (tacs: seq<u32>)
    requires at + 4 * count <= |b|
    ensures |tacs| == count
    decreases count
  {
    if count == 0 then [] else [Get32(b, at)] + ReadTACs(b, at + 4, count - 1)
  }

  function ReadTAIs(b: bytes, at: nat, count: nat): (tais: seq<TAI>)
    requires at + 8 * count <= |b|
    ensures |tais| == count
    decreases count
  {
    if count == 0 then [] else [TAI(ReadPLMN(b, at), Get32(b, at + 4))] + ReadTAIs(b, at + 8, count - 1)
  }

  /** unmarshalTAIListPrefix. */
  function Decode(b: bytes): Option<Taken<TAIList>> {
    if |b| < 1 then None
    else if b[0] <= 1 then
      if |b| < 6 || 6 + 4 * b[5] as nat > |b| then None
      else Checked(Single(b), 6 + 4 * b[5] as nat)
    else if b[0] == 2 then
      if |b| < 2 || 2 + 8 * b[1] as nat > |b| then None
      else Checked(Multi(b), 2 + 8 * b[1] as nat)
    else None
  }

  function Checked(l: TAIList, used: nat): Option<Taken<TAIList>> {
    if ValidList(l) then Some(Taken(l, used)) else None
  }

  // ---- inverse ----

  lemma PLMNRead(b: bytes, at: nat, p: PLMN)
    requires at + 4 <= |b| && b[at..at + 4] == PLMNOctets(p)
    ensures ReadPLMN(b, at) == p
  {
    SubSlice(b, at, at + 4, 0, 2);
    SubSlice(b, at, at + 4, 2, 4);
    hide LE16, Get16;
    assert b[at..at + 4][0..2] == LE16(p.mcc) && b[at..at + 4][2..4] == LE16(p.mnc);
    Get16AfterLE16(p.mcc, b, at);
    Get16AfterLE16(p.mnc, b, at + 2);
  }

  lemma PLMNWrite(b: bytes, at: nat)
    requires at + 4 <= |b|
    ensures PLMNOctets(ReadPLMN(b, at)) == b[at..at + 4]
  {
    LE16AfterGet16(b, at);
    LE16AfterGet16(b, at + 2);
    hide LE16, Get16;
    assert b[at..at + 4] == b[at..at + 2] + b[at + 2..at + 4];
  }

  lemma TAIRead(b: bytes, at: nat, t: TAI)
    requires at + 8 <= |b| && b[at..at + 8] == TAIOctets(t)
    ensures ReadPLMN(b, at) == t.plmn && Get32(b, at + 4) == t.tac
  {
    SubSlice(b, at, at + 8, 0, 4);
    SubSlice(b, at, at + 8, 4, 8);
    hide LE32, Get32, PLMNOctets, ReadPLMN;
    assert b[at..at + 8][0..4] == PLMNOctets(t.plmn) && b[at..at + 8][4..8] == LE32(t.tac);
    PLMNRead(b, at, t.plmn);
    Get32AfterLE32(t.tac, b, at + 4);
  }

  /** The first element of a table of fixed-size elements and the table behind it. */
  lemma HeadTail(b: bytes, at: nat, x: bytes, xs: bytes)
    requires at + |x| + |xs| <= |b| && b[at..at + |x| + |xs|] == x + xs
    ensures b[at..at + |x|] == x && b[at + |x|..at + |x| + |xs|] == xs
  {
    var n := |x| + |xs|;
    SubSlice(b, at, at + n, 0, |x|);
    SubSlice(b, at, at + n, |x|, n);
    assert (x + xs)[0..|x|] == x && (x + xs)[|x|..n] == xs;
  }

  lemma {:induction false} TACsRead(b: bytes, at: nat, tacs: seq<u32>)
    requires at + 4 * |tacs| <= |b| && b[at..at + 4 * |tacs|] == TACs(tacs)
    ensures ReadTACs(b, at, |tacs|) == tacs
    decreases |tacs|
  {
    if tacs != [] {
      hide LE32, Get32;
      HeadTail(b, at, LE32(tacs[0]), TACs(tacs[1..]));
      Get32AfterLE32(tacs[0], b, at);
      TACsRead(b, at + 4, tacs[1..]);
    }
  }

  lemma {:induction false} TACsWrite(b: bytes, at: nat, count: nat)
    requires at + 4 * count <= |b|
    ensures TACs(ReadTACs(b, at, count)) == b[at..at + 4 * count]
    decreases count
  {
    hide LE32, Get32;
    if count > 0 {
      var end := at + 4 * count;
      LE32AfterGet32(b, at);
      TACsWrite(b, at + 4, count - 1);
      assert b[at..end] == b[at..at + 4] + b[at + 4..end];
    }
  }

  lemma {:induction false} TAIsRead(b: bytes, at: nat, tais: seq<TAI>)
    requires at + 8 * |tais| <= |b| && b[at..at + 8 * |tais|] == TAIs(tais)
    ensures ReadTAIs(b, at, |tais|) == tais
    decreases |tais|
  {
    if tais != [] {
      hide TAIOctets, Get32, ReadPLMN;
      HeadTail(b, at, TAIOctets(tais[0]), TAIs(tais[1..]));
      TAIRead(b, at, tais[0]);
      TAIsRead(b, at + 8, tais[1..]);
    }
  }

  lemma {:induction false} TAIsWrite(b: bytes, at: nat, count: nat)
    requires at + 8 * count <= |b|
    ensures TAIs(ReadTAIs(b, at, count)) == b[at..at + 8 * count]
    decreases count
  {
    hide PLMNOctets, Get32, ReadPLMN, LE32;
    if count > 0 {
      var end := at + 8 * count;
      PLMNWrite(b, at);
      LE32AfterGet32(b, at + 4);
      TAIsWrite(b, at + 8, count - 1);
      assert b[at..end] == (b[at..at + 4] + b[at + 4..at + 8]) + b[at + 8..end];
    }
  }

  lemma DecodeEncoded(l: TAIList, rest: bytes)
    requires ValidList(l)
    ensures Decode(Encode(l) + rest) == Some(Taken(l, |Encode(l)|))
  {
    var b := Encode(l) + rest;
    hide PLMNOctets, TACs, TAIs, ReadPLMN, ReadTACs, ReadTAIs, ValidPLMN, ValidTAI;
    if l.typ <= 1 {
      var n := |l.tacs|;
      assert b[5] == n && b[1..5] == PLMNOctets(l.plmn) && b[6..6 + 4 * n] == TACs(l.tacs);
      PLMNRead(b, 1, l.plmn);
      TACsRead(b, 6, l.tacs);
    } else {
      var n := |l.tais|;
      assert b[1] == n && b[2..2 + 8 * n] == TAIs(l.tais);
      TAIsRead(b, 2, l.tais);
    }
  }

  function Single(b: bytes): TAIList
    requires |b| >= 6 && 6 + 4 * b[5] as nat <= |b|
  {
    TAIList(b[0], ReadPLMN(b, 1), ReadTACs(b, 6, b[5]), [])
  }

  function Multi(b: bytes): TAIList
    requires |b| >= 2 && 2 + 8 * b[1] as nat <= |b|
  {
    TAIList(2, NO_PLMN, [], ReadTAIs(b, 2, b[1]))
  }

  lemma SingleWrite(b: bytes, n: nat)
    requires |b| >= 6 && b[0] <= 1 && n == 6 + 4 * b[5] as nat <= |b|
    ensures b[..n] == Encode(Single(b))
  {
    PLMNWrite(b, 1);
    TACsWrite(b, 6, b[5]);
    hide PLMNOctets, TACs, ReadPLMN, ReadTACs, ReadTAIs, TAIs;
    SingleParts(b, n);
    assert |ReadTACs(b, 6, b[5])| % 256 == b[5];
  }

  lemma SingleParts(b: bytes, n: nat)
    requires 6 <= n <= |b|
    ensures b[..n] == [b[0]] + b[1..5] + [b[5]] + b[6..n]
  {
  }

  lemma MultiWrite(b: bytes, n: nat)
    requires |b| >= 2 && b[0] == 2 && n == 2 + 8 * b[1] as nat <= |b|
    ensures b[..n] == Encode(Multi(b))
  {
    TAIsWrite(b, 2, b[1]);
    hide TAIs, ReadTAIs, TACs, PLMNOctets;
    assert b[..n] == [b[0]] + [b[1]] + b[2..n];
    assert |ReadTAIs(b, 2, b[1])| % 256 == b[1];
  }

  lemma EncodeDecoded(b: bytes)
    requires Decode(b).Some?
    ensures var t := Decode(b).value;
      ValidList(t.value) && 0 < t.used <= |b| && b[..t.used] == Encode(t.value)
  {
    hide Encode, Single, Multi, ValidList;
    if b[0] <= 1 {
      SingleWrite(b, 6 + 4 * b[5] as nat);
    } else {
      MultiWrite(b, 2 + 8 * b[1] as nat);
    }
  }

  lemma TAICodec()
    ensures Reads(Encode, Decode, ValidList, Anything) && Exact(Encode, Decode, ValidList) && Progress(Decode)
  {
    forall l: TAIList, rest: bytes | ValidList(l) ensures Decode(Encode(l) + rest) == Some(Taken(l, |Encode(l)|)) {
      DecodeEncoded(l, rest);
    }
    forall b: bytes | Decode(b).Some?
      ensures var t := Decode(b).value; ValidList(t.value) && 0 < t.used <= |b| && b[..t.used] == Encode(t.value)
    {
      EncodeDecoded(b);
    }
    hide Encode, Decode, ValidList;
  }

  /** NewTAITLV and TAILists.UnmarshalTLV on the data of the record. */
  lemma TAIListBijection(ls: seq<TAIList>, b: bytes)
    ensures AllValid(ValidList, ls) && EncodeAll(Encode, ls) == b <==> DecodeAll(Decode, b) == Some(ls)
  {
    TAICodec();
    Bijection(Encode, Decode, ValidList, Anything, ls, b);
  }

  // ---- the loops ----

  /** TAIList.MarshalBinary. */
  method MarshalTAIList(l: TAIList) returns (r: Option<bytes>)
    ensures r == if ValidList(l) then Some(Encode(l)) else None
  {
    if !ValidList(l) { return None; }
    hide ValidPLMN, ValidTAI, LE16, LE32;
    var data: bytes := [l.typ];
    if l.typ <= 1 {
      data := data + LE16(l.plmn.mcc);
      data := data + LE16(l.plmn.mnc);
      data := data + [|l.tacs|];
      ghost var head := data;
      assert head == [l.typ] + PLMNOctets(l.plmn) + [|l.tacs| % 256];
      for i := 0 to |l.tacs|
        invariant data + TACs(l.tacs[i..]) == head + TACs(l.tacs)
      {
        var rest := l.tacs[i..];
        assert rest[0] == l.tacs[i] && rest[1..] == l.tacs[i + 1..];
        Assoc(data, LE32(l.tacs[i]), TACs(l.tacs[i + 1..]));
        data := data + LE32(l.tacs[i]);
      }
    } else {
      data := data + [|l.tais|];
      ghost var head := data;
      for i := 0 to |l.tais|
        invariant data + TAIs(l.tais[i..]) == head + TAIs(l.tais)
      {
        var rest, t := l.tais[i..], l.tais[i];
        assert rest[0] == t && rest[1..] == l.tais[i + 1..];
        Assoc(data, TAIOctets(t), TAIs(l.tais[i + 1..]));
        assert data + LE16(t.plmn.mcc) + LE16(t.plmn.mnc) + LE32(t.tac) == data + TAIOctets(t);
        data := data + LE16(t.plmn.mcc);
        data := data + LE16(t.plmn.mnc);
        data := data + LE32(t.tac);
      }
    }
    assert data + [] == data;
    return Some(data);
  }

  method UnmarshalTACs(data: bytes, count: nat) returns (tacs: seq<u32>)
    requires 6 + 4 * count <= |data|
    ensures tacs == ReadTACs(data, 6, count)
  {
    tacs := [];
    hide Get32;
    for i := 0 to count
      invariant tacs + ReadTACs(data, 6 + 4 * i, count - i) == ReadTACs(data, 6, count)
    {
      var offset := 6 + i * 4;
      ghost var rest := ReadTACs(data, offset + 4, count - i - 1);
      assert tacs + ([Get32(data, offset)] + rest) == (tacs + [Get32(data, offset)]) + rest;
      tacs := tacs + [Get32(data, offset)];
    }
    assert tacs + [] == tacs;
  }

  method UnmarshalTAIs(data: bytes, count: nat) returns (tais: seq<TAI>)
    requires 2 + 8 * count <= |data|
    ensures tais == ReadTAIs(data, 2, count)
  {
    tais := [];
    hide Get16, Get32;
    for i := 0 to count
      invariant tais + ReadTAIs(data, 2 + 8 * i, count - i) == ReadTAIs(data, 2, count)
    {
      var offset := 2 + i * 8;
      var tai := TAI(PLMN(Get16(data, offset), Get16(data, offset + 2)), Get32(data, offset + 4));
      ghost var rest := ReadTAIs(data, offset + 8, count - i - 1);
      assert tais + ([tai] + rest) == (tais + [tai]) + rest;
      tais := tais + [tai];
    }
    assert tais + [] == tais;
  }

  /** unmarshalTAIListPrefix. */
  method UnmarshalTAIListPrefix(data: bytes) returns (r: Option<Taken<TAIList>>)
    ensures r == Decode(data)
  {
    if |data| < 1 { return None; }
    var list: TAIList;
    var totalLength: nat;
    hide Get16, ReadTACs, ReadTAIs, ValidList;
    if data[0] <= 1 {
      if |data| < 6 { return None; }
      var count: nat := data[5];
      totalLength := 6 + count * 4;
      if totalLength > |data| { return None; }
      var tacs := UnmarshalTACs(data, count);
      list := TAIList(data[0], PLMN(Get16(data, 1), Get16(data, 3)), tacs, []);
      assert list == Single(data);
    } else if data[0] == 2 {
      if |data| < 2 { return None; }
      var count: nat := data[1];
      totalLength := 2 + count * 8;
      if totalLength > |data| { return None; }
      var tais := UnmarshalTAIs(data, count);
      list := TAIList(2, NO_PLMN, [], tais);
      assert list == Multi(data);
    } else {
      return None;
    }
    if !ValidList(list) { return None; }
    return Some(Taken(list, totalLength));
  }
}
