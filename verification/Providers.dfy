/** Network providers: a record with two UTF-16 strings, and the table of such records. */
module Providers {
  import opened Bytes
  import opened Codec
  import opened Wire
  import opened WireRefs
  import opened WireTheorems
  import opened Tables
  import Utf16

  type Text = seq<Utf16.Scalar>

  datatype Provider = Provider(id: Text, state: u32, name: Text, cellularClass: u32, rssi: u32, errorRate: u32)

  // ---- validation ----

  predicate Digits(s: Text) { forall i :: 0 <= i < |s| ==> 48 <= s[i] <= 57 }

  /** Provider.validate: six state bits and two class bits are defined. */
  predicate ValidProvider(p: Provider) {
    && |Utf16.Encode(p.id)| <= 12 && Digits(p.id) && |Utf16.Encode(p.name)| <= 40
    && p.state < 64 && p.cellularClass < 4
    && (p.rssi <= 31 || p.rssi == 99) && (p.errorRate <= 7 || p.errorRate == 99)
  }

  predicate ValidProviders(ps: seq<Provider>) {
    forall i :: 0 <= i < |ps| ==> ValidProvider(ps[i])
  }

  // ---- one record ----

  function Strings(p: Provider): seq<bytes> { [Utf16.Encode(p.id), Utf16.Encode(p.name)] }

  /** The reference to the identifier, the state, the reference to the name, the rest. */
  function Front(r: Ref, state: u32, s: Ref, cellularClass: u32, rssi: u32, errorRate: u32): (b: bytes)
    ensures |b| == 32
  {
    RefOctets(r) + LE32(state) + RefOctets(s) + (LE32(cellularClass) + LE32(rssi) + LE32(errorRate))
  }

  function Record(p: Provider): bytes {
    var rs := Refs(32, Strings(p), true);
    Front(rs[0], p.state, rs[1], p.cellularClass, p.rssi, p.errorRate) + Body(32, Strings(p))
  }

  lemma FrontStart(state: u32, cellularClass: u32, rssi: u32, errorRate: u32)
    ensures Put32(Put32(Put32(Put32(Zeros(32), 8, state), 20, cellularClass), 24, rssi), 28, errorRate)
         == Front(NO_REF, state, NO_REF, cellularClass, rssi, errorRate)
  {
    assert RefOctets(NO_REF) == Zeros(8);
    hide LE32, RefOctets;
  }

  /** Overwriting one reference of a payload. */
  lemma RefReplaced(head: bytes, a: bytes, tail: bytes, r: Ref)
    requires |a| == 8
    ensures WithRef(head + a + tail, |head|, r) == head + RefOctets(r) + tail
  {
    hide LE32;
    var s, n := head + a + tail, |head|;
    assert s[..n] == head && s[n + 8..] == tail;
    var u := Put32(s, n, r.offset);
    assert u[..n + 4] == head + LE32(r.offset);
    assert u[n + 8..] == tail;
  }

  lemma FrontFirst(r: Ref, state: u32, s: Ref, cellularClass: u32, rssi: u32, errorRate: u32, rest: bytes, new_: Ref)
    ensures WithRef(Front(r, state, s, cellularClass, rssi, errorRate) + rest, 0, new_)
         == Front(new_, state, s, cellularClass, rssi, errorRate) + rest
  {
    hide LE32, RefOctets, WithRef;
    var tail := LE32(state) + RefOctets(s) + (LE32(cellularClass) + LE32(rssi) + LE32(errorRate)) + rest;
    RefReplaced([], RefOctets(r), tail, new_);
    assert Front(r, state, s, cellularClass, rssi, errorRate) + rest == [] + RefOctets(r) + tail;
    assert Front(new_, state, s, cellularClass, rssi, errorRate) + rest == [] + RefOctets(new_) + tail;
  }

  lemma FrontSecond(r: Ref, state: u32, s: Ref, cellularClass: u32, rssi: u32, errorRate: u32, rest: bytes, new_: Ref)
    ensures WithRef(Front(r, state, s, cellularClass, rssi, errorRate) + rest, 12, new_)
         == Front(r, state, new_, cellularClass, rssi, errorRate) + rest
  {
    hide LE32, RefOctets, WithRef;
    var head, tail := RefOctets(r) + LE32(state), (LE32(cellularClass) + LE32(rssi) + LE32(errorRate)) + rest;
    RefReplaced(head, RefOctets(s), tail, new_);
    assert Front(r, state, s, cellularClass, rssi, errorRate) + rest == head + RefOctets(s) + tail;
    assert Front(r, state, new_, cellularClass, rssi, errorRate) + rest == head + RefOctets(new_) + tail;
  }

  /** Provider.marshalBinary. */
  method MarshalProvider(p: Provider) returns (data: bytes)
    ensures data == Record(p)
  {
    var providerID := Utf16.Utf16Bytes(p.id);
    var providerName := Utf16.Utf16Bytes(p.name);
    data := Zeros(32);
    data := Put32(data, 8, p.state);
    data := Put32(data, 20, p.cellularClass);
    data := Put32(data, 24, p.rssi);
    data := Put32(data, 28, p.errorRate);
    FrontStart(p.state, p.cellularClass, p.rssi, p.errorRate);
    hide LE32, Put32, WithRef, Record;
    AppendBoth(p);
    data := AppendRefValue(data, 0, providerID);
    data := AppendRefValue(data, 12, providerName);
  }

  /** appendRefValue as a function. */
  function WithValue(data: bytes, at: nat, x: bytes): bytes
    requires at + 8 <= |data|
  {
    if |x| == 0 then data else WithRef(data, at, Ref(U32(|data|), U32(|x|))) + Cell(|data|, x)
  }

  lemma AppendFirst(p: Provider)
    ensures WithValue(Front(NO_REF, p.state, NO_REF, p.cellularClass, p.rssi, p.errorRate), 0, Utf16.Encode(p.id))
         == Front(RefTo(32, Utf16.Encode(p.id), true), p.state, NO_REF, p.cellularClass, p.rssi, p.errorRate) + Cell(32, Utf16.Encode(p.id))
  {
    var x := Utf16.Encode(p.id);
    var f := Front(NO_REF, p.state, NO_REF, p.cellularClass, p.rssi, p.errorRate);
    FrontFirst(NO_REF, p.state, NO_REF, p.cellularClass, p.rssi, p.errorRate, [], Ref(U32(32), U32(|x|)));
    EmptyCell(32);
    hide Front, LE32, Put32, WithRef, Utf16.Encode, U32, Cell;
    assert f + [] == f;
    var g := Front(Ref(U32(32), U32(|x|)), p.state, NO_REF, p.cellularClass, p.rssi, p.errorRate);
    assert g + [] == g;
    if |x| == 0 { assert x == []; }
  }

  lemma AppendSecond(p: Provider, r: Ref, c: bytes)
    requires |c| % 4 == 0
    ensures WithValue(Front(r, p.state, NO_REF, p.cellularClass, p.rssi, p.errorRate) + c, 12, Utf16.Encode(p.name))
         == Front(r, p.state, RefTo(32 + |c|, Utf16.Encode(p.name), true), p.cellularClass, p.rssi, p.errorRate)
            + (c + Cell(32 + |c|, Utf16.Encode(p.name)))
  {
    hide Front, LE32, Put32, WithRef, Utf16.Encode, U32, Cell;
    var x, n := Utf16.Encode(p.name), 32 + |c|;
    if |x| == 0 {
      EmptyCell(n);
      assert x == [] && c + [] == c;
    } else {
      FrontSecond(r, p.state, NO_REF, p.cellularClass, p.rssi, p.errorRate, c, Ref(U32(n), U32(|x|)));
      Assoc(Front(r, p.state, Ref(U32(n), U32(|x|)), p.cellularClass, p.rssi, p.errorRate), c, Cell(n, x));
    }
  }

  lemma AppendBoth(p: Provider)
    ensures var d := WithValue(Front(NO_REF, p.state, NO_REF, p.cellularClass, p.rssi, p.errorRate), 0, Utf16.Encode(p.id));
      |d| >= 32 && WithValue(d, 12, Utf16.Encode(p.name)) == Record(p)
  {
    var x, y := Utf16.Encode(p.id), Utf16.Encode(p.name);
    var c, r := Cell(32, x), RefTo(32, x, true);
    hide Front, WithValue, Utf16.Encode, Refs, Body, RefTo, Padding, Cell;
    assert |c| % 4 == 0 by { PaddingAligns(32 + |x|); }
    AppendFirst(p);
    AppendSecond(p, r, c);
    TwoValues(32, x, y);
  }

  // ---- decoding one record ----

  function IDRef(data: bytes): Ref
    requires |data| >= 32
  {
    Ref(Get32(data, 0), Get32(data, 4))
  }

  function NameRef(data: bytes): Ref
    requires |data| >= 32
  {
    Ref(Get32(data, 12), Get32(data, 16))
  }

  /** What validateUTF16Refs checks, from a given end of the strings seen so far. */
  predicate Utf16Refs(base: bytes, refs: seq<Ref>, previousEnd: nat, sawString: bool)
    requires |base| < TWO_32
    decreases |refs|
  {
    refs == [] || (
      && InBase(refs[0], base) && refs[0].size % 2 == 0
      && if refs[0].offset == 0 then Utf16Refs(base, refs[1..], previousEnd, sawString)
         else !(sawString && refs[0].offset < previousEnd) && Utf16Refs(base, refs[1..], refs[0].offset + refs[0].size, true))
  }

  /** validateUTF16Refs. */
  method ValidateUTF16Refs(base: bytes, refs: seq<Ref>) returns (ok: bool)
    requires |base| < TWO_32
    ensures ok == Utf16Refs(base, refs, 0, false)
  {
    var previousEnd: u32 := 0;
    var sawString := false;
    for i := 0 to |refs|
      invariant Utf16Refs(base, refs[i..], previousEnd, sawString) == Utf16Refs(base, refs, 0, false)
    {
      var ref, rest := refs[i], refs[i..];
      assert rest[0] == ref && rest[1..] == refs[i + 1..];
      if !InBase(ref, base) { return false; }
      if ref.size % 2 != 0 { return false; }
      if ref.offset == 0 { continue; }
      if sawString && ref.offset < previousEnd { return false; }
      previousEnd := ref.offset + ref.size;
      sawString := true;
    }
    return true;
  }

  ghost predicate RefsAccepted(nested: bool, data: bytes)
    requires 32 <= |data| < TWO_32
  {
    var rs := [IDRef(data), NameRef(data)];
    var e := LastEnds(32, Nonempty(rs));
    && IDRef(data).size <= 12 && NameRef(data).size <= 40
    && Tiles(data, 32, rs) && (|data| == e.padded || (nested && |data| == e.payload))
    && Utf16Refs(data, rs, 0, false)
  }

  lemma RefsInBase(nested: bool, data: bytes)
    requires 32 <= |data| < TWO_32 && RefsAccepted(nested, data)
    ensures InBase(IDRef(data), data) && InBase(NameRef(data), data)
  {
    var rs := [IDRef(data), NameRef(data)];
    TiledInBase(data, 32, rs);
    assert InBase(rs[0], data) && InBase(rs[1], data);
  }

  /** utf16String on a reference that was validated. */
  function TextOf(r: Ref, data: bytes): Option<Text>
    requires |data| < TWO_32 && InBase(r, data)
  {
    if r.size == 0 then Some([]) else Utf16.Decode(ValueOf(r, data))
  }

  function Built(id: Text, name: Text, data: bytes): Provider
    requires |data| >= 32
  {
    Provider(id, Get32(data, 8), name, Get32(data, 20), Get32(data, 24), Get32(data, 28))
  }

  ghost function DecodeProvider(nested: bool, data: bytes): Option<Provider>
    requires |data| < TWO_32
  {
    if |data| < 32 || !RefsAccepted(nested, data) then None
    else
      RefsInBase(nested, data);
      var id, name := TextOf(IDRef(data), data), TextOf(NameRef(data), data);
      if id == None || name == None || !ValidProvider(Built(id.value, name.value, data)) then None
      else Some(Built(id.value, name.value, data))
  }

  /** The checks of unmarshalBinary on the two references. */
  method CheckRefs(nested: bool, data: bytes, idRef: Ref, nameRef: Ref) returns (ok: bool)
    requires 32 <= |data| < TWO_32 && idRef == IDRef(data) && nameRef == NameRef(data)
    ensures ok <==> RefsAccepted(nested, data)
  {
    hide IDRef, NameRef, Tiles, LastEnds, Utf16Refs, Nonempty;
    if idRef.size > 12 { return false; }
    if nameRef.size > 40 { return false; }
    if nested {
      ok := ValidateRecordDataBufferRefs(data, 32, [idRef, nameRef]);
    } else {
      ok := ValidateDataBufferRefs(data, 32, [idRef, nameRef]);
    }
    if !ok { return false; }
    ok := ValidateUTF16Refs(data, [idRef, nameRef]);
  }

  /** Provider.unmarshalBinary. */
  method UnmarshalProvider(nested: bool, data: bytes) returns (r: Option<Provider>)
    requires |data| < TWO_32
    ensures r == DecodeProvider(nested, data)
  {
    if |data| < 32 { return None; }
    hide Get32, RefsAccepted, ValidProvider, InBase, Utf16.Decode, TextOf, Built;
    var providerIDRef := ReadOffsetSizeRef(data, 0);
    var providerNameRef := ReadOffsetSizeRef(data, 12);
    var idRef, nameRef := providerIDRef.value, providerNameRef.value;
    var ok := CheckRefs(nested, data, idRef, nameRef);
    if !ok { return None; }
    RefsInBase(nested, data);
    var id, name := TextOf(idRef, data), TextOf(nameRef, data);
    if id == None { return None; }
    if name == None { return None; }
    var provider := Built(id.value, name.value, data);
    if !ValidProvider(provider) { return None; }
    return Some(provider);
  }

  // ---- round trip of one record ----

  lemma FrontReads(r: Ref, state: u32, s: Ref, cellularClass: u32, rssi: u32, errorRate: u32, body: bytes)
    ensures var d := Front(r, state, s, cellularClass, rssi, errorRate) + body;
      && IDRef(d) == r && NameRef(d) == s && Get32(d, 8) == state && Get32(d, 20) == cellularClass
      && Get32(d, 24) == rssi && Get32(d, 28) == errorRate && d[32..] == body
  {
    var a, b, c := RefOctets(r), RefOctets(s), LE32(cellularClass) + LE32(rssi) + LE32(errorRate);
    var d := Front(r, state, s, cellularClass, rssi, errorRate) + body;
    assert d[0..8] == a && d[8..12] == LE32(state) && d[12..20] == b && d[20..32] == c && d[32..] == body by {
      hide RefOctets, LE32;
      FrontSlices(a, LE32(state), b, c, body);
    }
    hide RefOctets, LE32, Get32, Front;
    RefRead(d, 0, r);
    RefRead(d, 12, s);
    Get32AfterLE32(state, d, 8);
    ThreeReads(d, 20, cellularClass, rssi, errorRate);
  }

  lemma ThreeReads(d: bytes, at: nat, x: u32, y: u32, z: u32)
    requires at + 12 <= |d| && d[at..at + 12] == LE32(x) + LE32(y) + LE32(z)
    ensures Get32(d, at) == x && Get32(d, at + 4) == y && Get32(d, at + 8) == z
  {
    hide LE32, Get32;
    var c := d[at..at + 12];
    SubSlice(d, at, at + 12, 0, 4);
    SubSlice(d, at, at + 12, 4, 8);
    SubSlice(d, at, at + 12, 8, 12);
    assert c[0..4] == LE32(x) && c[4..8] == LE32(y) && c[8..12] == LE32(z);
    Get32AfterLE32(x, d, at);
    Get32AfterLE32(y, d, at + 4);
    Get32AfterLE32(z, d, at + 8);
  }

  lemma FrontSlices(a: bytes, x: bytes, b: bytes, c: bytes, body: bytes)
    requires |a| == 8 && |x| == 4 && |b| == 8 && |c| == 12
    ensures var d := a + x + b + c + body;
      d[0..8] == a && d[8..12] == x && d[12..20] == b && d[20..32] == c && d[32..] == body
  {
    var d := a + x + b + c + body;
    assert d[0..8] == a;
    assert d[8..12] == x;
    assert d[12..20] == b;
    assert d[20..32] == c;
    assert d[32..] == body;
  }

  lemma EvenLength(s: Text)
    ensures |Utf16.Encode(s)| % 2 == 0
  {
  }

  lemma PairOrdered(base: bytes, r: Ref, t: Ref)
    requires |base| < TWO_32 && InBase(r, base) && InBase(t, base) && r.size % 2 == 0 && t.size % 2 == 0
    requires r.offset != 0 && t.offset != 0 ==> r.offset + r.size <= t.offset
    ensures Utf16Refs(base, [r, t], 0, false)
  {
    hide InBase;
    var rest := [t];
    assert [r, t][1..] == rest && rest[1..] == [];
    if r.offset == 0 {
      assert Utf16Refs(base, rest, 0, false);
    } else {
      assert Utf16Refs(base, rest, r.offset + r.size, true);
    }
  }

  lemma RefsInOrder(x: bytes, y: bytes)
    requires 32 + |Cell(32, x)| < TWO_32
    ensures var r, t := RefTo(32, x, true), RefTo(32 + |Cell(32, x)|, y, true);
      r.offset != 0 && t.offset != 0 ==> r.offset + r.size <= t.offset
  {
    hide Padding;
  }

  /** The references to two strings laid out one after the other are in order. */
  lemma OrderedRefs(base: bytes, x: bytes, y: bytes)
    requires 32 <= |base| < TWO_32 && |x| % 2 == 0 && |y| % 2 == 0 && base[32..] == Body(32, [x, y])
    ensures Utf16Refs(base, Refs(32, [x, y], true), 0, false)
  {
    hide InBase, Refs, Body, Tiles, LastEnds, Cell, Utf16Refs;
    var rs, vs := Refs(32, [x, y], true), [x, y];
    TwoValues(32, x, y);
    RefsInOrder(x, y);
    ListReadBack(base, 32, vs, true);
    assert ValueOf(rs[0], base) == vs[0] && ValueOf(rs[1], base) == vs[1];
    PairOrdered(base, rs[0], rs[1]);
  }

  lemma TextRead(r: Ref, data: bytes, s: Text)
    requires |data| < TWO_32 && InBase(r, data) && ValueOf(r, data) == Utf16.Encode(s)
    ensures TextOf(r, data) == Some(s)
  {
    Utf16.RoundTrip(s);
    if r.size == 0 {
      assert Utf16.Encode(s) == [];
      assert Utf16.Decode([]) == Some([]);
    }
  }

  lemma RecordFields(p: Provider)
    ensures var d, rs := Record(p), Refs(32, Strings(p), true);
      && |d| >= 32 && IDRef(d) == rs[0] && NameRef(d) == rs[1] && d[32..] == Body(32, Strings(p))
      && Built(p.id, p.name, d) == p
  {
    var rs := Refs(32, Strings(p), true);
    hide Front, Body, Refs, Get32, Strings, IDRef, NameRef;
    FrontReads(rs[0], p.state, rs[1], p.cellularClass, p.rssi, p.errorRate, Body(32, Strings(p)));
  }

  lemma RecordRefs(nested: bool, p: Provider)
    requires ValidProvider(p) && |Record(p)| < TWO_32
    ensures var d := Record(p);
      && |d| >= 32 && RefsAccepted(nested, d) && InBase(IDRef(d), d) && InBase(NameRef(d), d)
      && ValueOf(IDRef(d), d) == Utf16.Encode(p.id) && ValueOf(NameRef(d), d) == Utf16.Encode(p.name)
  {
    var d, rs, vs := Record(p), Refs(32, Strings(p), true), Strings(p);
    RecordFields(p);
    EvenLength(p.id);
    EvenLength(p.name);
    hide Record, Refs, Body, Built, IDRef, NameRef, Utf16.Encode, Tiles, LastEnds, InBase, Utf16Refs, Nonempty;
    ListReadBack(d, 32, vs, true);
    OrderedRefs(d, vs[0], vs[1]);
    assert rs == [rs[0], rs[1]];
    assert ValueOf(rs[0], d) == vs[0] && ValueOf(rs[1], d) == vs[1];
  }

  /** Every provider that validates is decoded to itself, alone or inside a table. */
  lemma ProviderRoundTrip(nested: bool, p: Provider)
    requires ValidProvider(p) && |Record(p)| < TWO_32
    ensures DecodeProvider(nested, Record(p)) == Some(p)
  {
    var d := Record(p);
    RecordRefs(nested, p);
    RecordFields(p);
    hide Record, Refs, Body, Built, IDRef, NameRef, Utf16.Encode, RefsAccepted, InBase, ValidProvider;
    TextRead(IDRef(d), d, p.id);
    TextRead(NameRef(d), d, p.name);
  }

  // ---- the list ----

  function Records(ps: seq<Provider>): (rs: seq<bytes>)
    ensures |rs| == |ps| && forall i :: 0 <= i < |rs| ==> rs[i] == Record(ps[i])
  {
    seq(|ps|, i requires 0 <= i < |ps| => Record(ps[i]))
  }

  function Payload(ps: seq<Provider>): bytes {
    Layout(LE32(|ps|), Records(ps), true)
  }

  /** Providers.MarshalBinary. */
  method MarshalProviders(ps: seq<Provider>) returns (r: Option<bytes>)
    ensures r == if ValidProviders(ps) then Some(Payload(ps)) else None
  {
    if !ValidProviders(ps) { return None; }
    var elements: seq<bytes> := [];
    hide Record, ValidProvider;
    for i := 0 to |ps|
      invariant |elements| == i && forall j :: 0 <= j < i ==> elements[j] == Record(ps[j])
    {
      var data := MarshalProvider(ps[i]);
      elements := elements + [data];
    }
    assert elements == Records(ps);
    var payload := AppendOffsetSizeElements(LE32(|elements|), elements);
    return Some(payload);
  }

  ghost function DecodeRecords(records: seq<bytes>): Option<seq<Provider>> {
    if records == [] then Some([])
    else if |records[0]| >= TWO_32 then None
    else
      match DecodeProvider(true, records[0])
      case None => None
      case Some(p) => Onto([p], DecodeRecords(records[1..]))
  }

  ghost function DecodeProviders(data: bytes): Option<seq<Provider>>
    requires |data| < TWO_32
  {
    if |data| < 4 then None
    else
      match Decoded(data, 4, Get32(data, 0))
      case None => None
      case Some(records) => DecodeRecords(records)
  }

  /** The loop of Providers.UnmarshalBinary over accepted references. */
  method UnmarshalRecords(data: bytes, refs: seq<Ref>) returns (r: Option<seq<Provider>>)
    requires |data| < TWO_32 && forall i :: 0 <= i < |refs| ==> InBase(refs[i], data)
    ensures r == DecodeRecords(Values(data, refs))
  {
    ghost var records := Values(data, refs);
    var providers: seq<Provider> := [];
    OntoNothing(providers, DecodeRecords(records));
    assert records[0..] == records;
    hide DecodeProvider, InBase, Onto;
    for i := 0 to |refs|
      invariant Onto(providers, DecodeRecords(records[i..])) == DecodeRecords(records)
    {
      var record := ValueOf(refs[i], data);
      assert records[i] == record;
      var p := UnmarshalProvider(true, record);
      RecordsStep(records, i, providers);
      if p == None { return None; }
      providers := providers + [p.value];
    }
    OntoNothing(providers, None);
    return Some(providers);
  }

  lemma RecordsStep(records: seq<bytes>, i: nat, providers: seq<Provider>)
    requires i < |records| && |records[i]| < TWO_32
    ensures Onto(providers, DecodeRecords(records[i..])) ==
      match DecodeProvider(true, records[i])
      case None => None
      case Some(p) => Onto(providers + [p], DecodeRecords(records[i + 1..]))
  {
    var rest := records[i..];
    assert rest[0] == records[i] && rest[1..] == records[i + 1..];
    hide DecodeProvider;
    var p, r := DecodeProvider(true, records[i]), DecodeRecords(records[i + 1..]);
    if p.Some? && r.Some? { assert providers + ([p.value] + r.value) == (providers + [p.value]) + r.value; }
  }

  /** Providers.UnmarshalBinary. */
  method UnmarshalProviders(data: bytes) returns (r: Option<seq<Provider>>)
    requires |data| < TWO_32
    ensures r == DecodeProviders(data)
  {
    if |data| < 4 { return None; }
    var count := Get32(data, 0);
    var refs := OffsetSizeRefs(data, 4, count);
    if refs == None { return None; }
    TiledInBase(data, 4 + 8 * count, refs.value);
    assert Decoded(data, 4, count) == Some(Values(data, refs.value));
    hide Decoded, TableRefs, Accepted, DecodeRecords, InBase, Get32;
    r := UnmarshalRecords(data, refs.value);
  }

  lemma {:induction false} RecordsRoundTrip(ps: seq<Provider>)
    requires forall i :: 0 <= i < |ps| ==> ValidProvider(ps[i]) && |Record(ps[i])| < TWO_32
    ensures DecodeRecords(Records(ps)) == Some(ps)
    decreases |ps|
  {
    hide Record, DecodeProvider, ValidProvider;
    if ps != [] {
      var rs := Records(ps);
      assert rs[1..] == Records(ps[1..]);
      ProviderRoundTrip(true, ps[0]);
      RecordsRoundTrip(ps[1..]);
      assert [ps[0]] + ps[1..] == ps;
    }
  }

  /** Every list of providers that validates is decoded to itself. */
  lemma ProvidersRoundTrip(ps: seq<Provider>)
    requires ValidProviders(ps) && |Payload(ps)| < TWO_32
    ensures DecodeProviders(Payload(ps)) == Some(ps)
  {
    var records, data := Records(ps), Payload(ps);
    hide Layout, Get32, LE32, Record, Decoded, DecodeRecords, ReadsAs;
    LayoutReadsBack(LE32(|ps|), records, true);
    LayoutParts(LE32(|ps|), records, true);
    CountRead(|ps|, data, LE32(|ps|));
    forall i | 0 <= i < |ps| ensures |Record(ps[i])| < TWO_32 {
      RecordFits(data, 4, records, i);
    }
    DecodedIs(data, 4, records);
    RecordsRoundTrip(ps);
  }
}
