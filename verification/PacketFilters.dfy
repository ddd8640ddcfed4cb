/** IP packet filters: a table of records, each with a table of its own. */
module PacketFilters {
  import opened Bytes
  import opened Wire
  import opened WireRefs
  import opened WireTheorems
  import opened Tables
  import opened Codec

  datatype Filter = Filter(filter: bytes, mask: bytes, id: u32)

  // ---- validation ----

  ghost predicate ValidFilters(version: nat, fs: seq<Filter>) {
    && (forall i :: 0 <= i < |fs| ==> |fs[i].filter| == |fs[i].mask|)
    && (version >= VERSION_30 ==> forall i, j :: 0 <= i < j < |fs| ==> fs[i].id != fs[j].id)
  }

  /** validateIPPacketFilters. */
  method ValidateIPPacketFilters(version: nat, fs: seq<Filter>) returns (ok: bool)
    ensures ok <==> ValidFilters(version, fs)
  {
    var filterIDs: map<u32, nat> := map[];
    for i := 0 to |fs|
      invariant forall j :: 0 <= j < i ==> |fs[j].filter| == |fs[j].mask|
      invariant version >= VERSION_30 ==> forall j :: 0 <= j < i ==> fs[j].id in filterIDs
      invariant forall id :: id in filterIDs ==> filterIDs[id] < i && fs[filterIDs[id]].id == id
      invariant version >= VERSION_30 ==> forall j, k :: 0 <= j < k < i ==> fs[j].id != fs[k].id
    {
      if |fs[i].filter| != |fs[i].mask| { return false; }
      if version < VERSION_30 { continue; }
      if fs[i].id in filterIDs {
        assert fs[filterIDs[fs[i].id]].id == fs[i].id;
        return false;
      }
      filterIDs := filterIDs[fs[i].id := i];
    }
    return true;
  }

  // ---- one record ----

  function Fixed(version: nat): nat { if version >= VERSION_30 then 16 else 12 }

  /** The last fixed field exists from MBIMEx 3.0 on. */
  function IDField(version: nat, id: u32): (b: bytes)
    ensures |b| == Fixed(version) - 12
  {
    if version >= VERSION_30 then LE32(id) else []
  }

  /** Size once, two offsets, the identifier, then filter and mask. */
  function Record(version: nat, f: Filter): bytes {
    var rs := Refs(Fixed(version), [f.filter, f.mask], true);
    LE32(|f.filter|) + LE32(rs[0].offset) + LE32(rs[1].offset) + IDField(version, f.id) + Body(Fixed(version), [f.filter, f.mask])
  }

  lemma PutPrefix(p: bytes, c: bytes, at: nat, n: int)
    requires at + 4 <= |p|
    ensures Put32(p + c, at, n) == Put32(p, at, n) + c
  {
    hide LE32;
  }

  /** The fixed part of a record whose filter is not empty. */
  function FullFront(version: nat, f: Filter): bytes {
    LE32(|f.filter|) + LE32(Fixed(version)) + LE32(MaskAt(version, f)) + IDField(version, f.id)
  }

  function MaskAt(version: nat, f: Filter): nat { Fixed(version) + |Cell(Fixed(version), f.filter)| }

  lemma FullForm(version: nat, f: Filter)
    requires |f.filter| == |f.mask| && |f.filter| != 0
    ensures Record(version, f) == FullFront(version, f) + (Cell(Fixed(version), f.filter) + Cell(MaskAt(version, f), f.mask))
  {
    var fixed, next := Fixed(version), MaskAt(version, f);
    assert LE32(U32(fixed)) == LE32(fixed) && LE32(U32(next)) == LE32(next);
    TwoValues(fixed, f.filter, f.mask);
    hide LE32, Refs, Body, Cell, IDField, U32;
  }

  lemma FullRecord(version: nat, f: Filter)
    requires |f.filter| == |f.mask| && |f.filter| != 0
    ensures var fixed := Fixed(version);
      var c := Cell(fixed, f.filter);
      var d := WithRef(Start(version, |f.filter|, f.id), 4, Ref(U32(fixed), U32(|f.filter|))) + c;
      Put32(d, 8, |d|) + f.mask + Zeros(Padding(|d| + |f.mask|)) == Record(version, f)
  {
    var n, fixed, next := |f.filter|, Fixed(version), MaskAt(version, f);
    var c, q := Cell(fixed, f.filter), FullFront(version, f);
    var p, z := WithRef(Start(version, n, f.id), 4, Ref(U32(fixed), U32(n))), Zeros(Padding(next + |f.mask|));
    assert Put32(p, 8, next) == q by { FullFields(n, fixed, next, IDField(version, f.id)); hide Put32, LE32, WithRef; }
    FullForm(version, f);
    hide Record, Start, FullFront, Put32, WithRef, LE32, Padding, Zeros;
    assert |p + c| == next;
    PutPrefix(p, c, 8, next);
    Assoc(q + c, f.mask, z);
    Assoc(q, c, f.mask + z);
  }

  /** The fixed part as marshalBinary patches it: appendRefValue leaves the size of the
      filter where the offset of the mask belongs, and the mask overwrites it. */
  lemma FullFields(n: nat, fixed: nat, next: nat, id: bytes)
    requires fixed < TWO_32
    ensures Put32(WithRef(LE32(n) + Zeros(8) + id, 4, Ref(U32(fixed), U32(n))), 8, next) == LE32(n) + LE32(fixed) + LE32(next) + id
  {
    var a, f, z := LE32(n), LE32(fixed), Zeros(4);
    assert U32(fixed) == fixed;
    assert Zeros(8) == z + z;
    hide LE32;
    assert a + Zeros(8) + id == a + z + (z + id);
    PutMiddle(a, z, z + id, fixed);
    assert a + f + (z + id) == (a + f) + z + id;
    PutMiddle(a + f, z, id, U32(n));
    PutMiddle(a + f, LE32(U32(n)), id, next);
  }

  lemma PutMiddle(head: bytes, a: bytes, tail: bytes, n: int)
    requires |a| == 4
    ensures Put32(head + a + tail, |head|, n) == head + LE32(n) + tail
  {
    hide LE32;
    var s := head + a + tail;
    assert s[..|head|] == head && s[|head| + 4..] == tail;
  }

  lemma EmptyRecord(version: nat, f: Filter)
    requires |f.filter| == 0 && |f.mask| == 0
    ensures Start(version, 0, f.id) == Record(version, f)
  {
    var fixed := Fixed(version);
    TwoValues(fixed, f.filter, f.mask);
    EmptyCell(fixed);
    assert LE32(0) + LE32(0) == Zeros(8);
    hide LE32, Refs, Body, Cell;
    assert f.filter == [] && f.mask == [];
    Assoc(LE32(0), LE32(0), LE32(0));
    var h := LE32(0) + LE32(0) + LE32(0) + IDField(version, f.id);
    assert h + ([] + []) == h;
  }

  /** The body of the loop of marshalBinary, for a filter that validates. */
  method MarshalFilter(version: nat, f: Filter) returns (data: bytes)
    requires |f.filter| == |f.mask|
    ensures data == Record(version, f)
  {
    var fixedSize := Fixed(version);
    data := Zeros(fixedSize);
    data := Put32(data, 0, |f.filter|);
    if fixedSize == 16 { data := Put32(data, 12, f.id); }
    StartFields(version, |f.filter|, f.id);
    hide LE32, Put32, Refs, Body, WithRef, Record, Start;
    if |f.filter| == 0 {
      EmptyRecord(version, f);
    } else {
      FullRecord(version, f);
    }
    data := AppendRefValue(data, 4, f.filter);
    if |f.mask| != 0 {
      data := Put32(data, 8, |data|);
      data := data + f.mask;
      data := Pad4(data);
    }
  }

  function Start(version: nat, size: nat, id: u32): (b: bytes)
    ensures |b| == Fixed(version)
  {
    LE32(size) + Zeros(8) + IDField(version, id)
  }

  lemma StartFields(version: nat, size: nat, id: u32)
    ensures var d := Put32(Zeros(Fixed(version)), 0, size);
      (if Fixed(version) == 16 then Put32(d, 12, id) else d) == Start(version, size, id)
  {
    hide LE32;
  }

  // ---- decoding one record ----

  function FilterRef(record: bytes): Ref
    requires |record| >= 12
  {
    Ref(Get32(record, 4), Get32(record, 0))
  }

  function MaskRef(record: bytes): Ref
    requires |record| >= 12
  {
    Ref(Get32(record, 8), Get32(record, 0))
  }

  ghost predicate RecordAccepted(version: nat, record: bytes)
    requires |record| < TWO_32
  {
    && |record| >= Fixed(version)
    && Tiles(record, Fixed(version), [FilterRef(record), MaskRef(record)])
    && var e := LastEnds(Fixed(version), Nonempty([FilterRef(record), MaskRef(record)]));
       (|record| == e.payload || |record| == e.padded)
  }

  lemma RecordInBase(version: nat, record: bytes)
    requires |record| < TWO_32 && RecordAccepted(version, record)
    ensures InBase(FilterRef(record), record) && InBase(MaskRef(record), record)
  {
    var rs := [FilterRef(record), MaskRef(record)];
    TiledInBase(record, Fixed(version), rs);
    assert InBase(rs[0], record) && InBase(rs[1], record);
  }

  ghost function DecodeRecord(version: nat, record: bytes): Option<Filter>
    requires |record| < TWO_32
  {
    if !RecordAccepted(version, record) then None
    else
      RecordInBase(version, record);
      Some(Filter(ValueOf(FilterRef(record), record), ValueOf(MaskRef(record), record),
        if version >= VERSION_30 then Get32(record, 12) else 0))
  }

  /** The body of the loop of UnmarshalBinary. */
  method UnmarshalFilter(version: nat, record: bytes) returns (r: Option<Filter>)
    requires |record| < TWO_32
    ensures r == DecodeRecord(version, record)
  {
    var fixedSize := Fixed(version);
    if |record| < fixedSize { return None; }
    var filterSize, filterOffset, maskOffset := Get32(record, 0), Get32(record, 4), Get32(record, 8);
    var filterRef, maskRef := Ref(filterOffset, filterSize), Ref(maskOffset, filterSize);
    var ok := ValidateRecordDataBufferRefs(record, fixedSize, [filterRef, maskRef]);
    hide Tiles, LastEnds, Get32;
    if !ok { return None; }
    RecordInBase(version, record);
    var id := 0;
    if fixedSize == 16 { id := Get32(record, 12); }
    return Some(Filter(ValueOf(filterRef, record), ValueOf(maskRef, record), id));
  }

  /** Identifiers exist from MBIMEx 3.0 on. */
  function Kept(version: nat, f: Filter): Filter {
    if version >= VERSION_30 then f else f.(id := 0)
  }

  lemma FieldReads(x: nat, y: u32, z: u32, id: bytes, body: bytes)
    requires x < TWO_32
    ensures var r := LE32(x) + LE32(y) + LE32(z) + id + body;
      && Get32(r, 0) == x && Get32(r, 4) == y && Get32(r, 8) == z
      && r[12..12 + |id|] == id && r[12 + |id|..] == body
  {
    var r := LE32(x) + LE32(y) + LE32(z) + id + body;
    FieldSlices(LE32(x), LE32(y), LE32(z), id, body);
    hide LE32, Get32;
    Get32AfterLE32(x, r, 0);
    Get32AfterLE32(y, r, 4);
    Get32AfterLE32(z, r, 8);
  }

  lemma RecordFields(version: nat, f: Filter)
    requires |f.filter| == |f.mask| && |Record(version, f)| < TWO_32
    ensures var record, rs := Record(version, f), Refs(Fixed(version), [f.filter, f.mask], true);
      && |record| >= Fixed(version) && FilterRef(record) == rs[0] && MaskRef(record) == rs[1]
      && (version >= VERSION_30 ==> Get32(record, 12) == f.id)
      && record[Fixed(version)..] == Body(Fixed(version), [f.filter, f.mask])
  {
    var fixed, record := Fixed(version), Record(version, f);
    var rs, b := Refs(fixed, [f.filter, f.mask], true), Body(fixed, [f.filter, f.mask]);
    assert |f.filter| < TWO_32 && rs[0].size == |f.filter| && rs[1].size == |f.filter| by {
      TwoValues(fixed, f.filter, f.mask);
      hide LE32, Refs, Body;
    }
    hide LE32, Get32, Refs, Body;
    FieldReads(|f.filter|, rs[0].offset, rs[1].offset, IDField(version, f.id), b);
    if version >= VERSION_30 { Get32AfterLE32(f.id, record, 12); }
  }

  lemma FieldSlices(a: bytes, b: bytes, c: bytes, id: bytes, body: bytes)
    requires |a| == 4 && |b| == 4 && |c| == 4
    ensures var r := a + b + c + id + body;
      r[0..4] == a && r[4..8] == b && r[8..12] == c && r[12..12 + |id|] == id && r[12 + |id|..] == body
  {
    var r := a + b + c + id + body;
    assert r[0..4] == a;
    assert r[4..8] == b;
    assert r[8..12] == c;
    assert r[12..12 + |id|] == id;
    assert r[12 + |id|..] == body;
  }

  lemma RecordRoundTrip(version: nat, f: Filter)
    requires |f.filter| == |f.mask| && |Record(version, f)| < TWO_32
    ensures DecodeRecord(version, Record(version, f)) == Some(Kept(version, f))
  {
    var record, fixed, values := Record(version, f), Fixed(version), [f.filter, f.mask];
    RecordFields(version, f);
    hide Record, Body, Refs, Get32, FilterRef, MaskRef;
    ListReadBack(record, fixed, values, true);
    var rs := Refs(fixed, values, true);
    assert rs == [rs[0], rs[1]];
    assert ValueOf(rs[0], record) == values[0] && ValueOf(rs[1], record) == values[1];
    hide Tiles, LastEnds;
    assert RecordAccepted(version, record);
  }

  // ---- the list ----

  function Records(version: nat, fs: seq<Filter>): (rs: seq<bytes>)
    ensures |rs| == |fs| && forall i :: 0 <= i < |rs| ==> rs[i] == Record(version, fs[i])
  {
    seq(|fs|, i requires 0 <= i < |fs| => Record(version, fs[i]))
  }

  function Payload(version: nat, session: u32, fs: seq<Filter>): bytes {
    Layout(LE32(session) + LE32(|fs|), Records(version, fs), true)
  }

  /** IPPacketFiltersInfo.MarshalBinary. */
  method MarshalFilters(version: nat, session: u32, fs: seq<Filter>) returns (r: Option<bytes>)
    ensures r.Some? <==> ValidFilters(version, fs)
    ensures r.Some? ==> r.value == Payload(version, session, fs)
  {
    var ok := ValidateIPPacketFilters(version, fs);
    if !ok { return None; }
    var elements: seq<bytes> := [];
    hide Record;
    for i := 0 to |fs|
      invariant |elements| == i && forall j :: 0 <= j < i ==> elements[j] == Record(version, fs[j])
    {
      var data := MarshalFilter(version, fs[i]);
      elements := elements + [data];
    }
    assert elements == Records(version, fs);
    var payload := AppendOffsetSizeElements(LE32(session) + LE32(|elements|), elements);
    return Some(payload);
  }

  ghost function DecodeRecords(version: nat, records: seq<bytes>): Option<seq<Filter>> {
    if records == [] then Some([])
    else if |records[0]| >= TWO_32 then None
    else
      match DecodeRecord(version, records[0])
      case None => None
      case Some(f) => Onto([f], DecodeRecords(version, records[1..]))
  }

  /** What UnmarshalBinary returns. */
  ghost function DecodeFilters(version: nat, data: bytes): Option<(u32, seq<Filter>)>
    requires |data| < TWO_32
  {
    if |data| < 8 then None
    else
      match Decoded(data, 8, Get32(data, 4))
      case None => None
      case Some(records) =>
        match DecodeRecords(version, records)
        case None => None
        case Some(fs) => if ValidFilters(version, fs) then Some((Get32(data, 0), fs)) else None
  }

  /** The loop of UnmarshalBinary over accepted references. */
  method UnmarshalRecords(version: nat, data: bytes, refs: seq<Ref>) returns (r: Option<seq<Filter>>)
    requires |data| < TWO_32 && forall i :: 0 <= i < |refs| ==> InBase(refs[i], data)
    ensures r == DecodeRecords(version, Values(data, refs))
  {
    ghost var records := Values(data, refs);
    var filters: seq<Filter> := [];
    OntoNothing(filters, DecodeRecords(version, records));
    assert records[0..] == records;
    hide DecodeRecord, InBase, Onto;
    for i := 0 to |refs|
      invariant Onto(filters, DecodeRecords(version, records[i..])) == DecodeRecords(version, records)
    {
      var record := ValueOf(refs[i], data);
      assert records[i] == record;
      var f := UnmarshalFilter(version, record);
      RecordsStep(version, records, i, filters);
      if f == None { return None; }
      filters := filters + [f.value];
    }
    OntoNothing(filters, None);
    return Some(filters);
  }

  lemma RecordsStep(version: nat, records: seq<bytes>, i: nat, filters: seq<Filter>)
    requires i < |records| && |records[i]| < TWO_32
    ensures Onto(filters, DecodeRecords(version, records[i..])) ==
      match DecodeRecord(version, records[i])
      case None => None
      case Some(f) => Onto(filters + [f], DecodeRecords(version, records[i + 1..]))
  {
    var rest := records[i..];
    assert rest[0] == records[i] && rest[1..] == records[i + 1..];
    hide DecodeRecord;
    var f, r := DecodeRecord(version, records[i]), DecodeRecords(version, records[i + 1..]);
    if f.Some? && r.Some? { assert filters + ([f.value] + r.value) == (filters + [f.value]) + r.value; }
  }

  /** IPPacketFiltersInfo.UnmarshalBinary. */
  method UnmarshalFilters(version: nat, data: bytes) returns (r: Option<(u32, seq<Filter>)>)
    requires |data| < TWO_32
    ensures r == DecodeFilters(version, data)
  {
    if |data| < 8 { return None; }
    var count := Get32(data, 4);
    var refs := OffsetSizeRefs(data, 8, count);
    if refs == None { return None; }
    TiledInBase(data, 8 + 8 * count, refs.value);
    assert Decoded(data, 8, count) == Some(Values(data, refs.value));
    hide Decoded, TableRefs, Accepted, DecodeRecords, InBase, Get32, ValidFilters;
    var filters := UnmarshalRecords(version, data, refs.value);
    if filters == None { return None; }
    var ok := ValidateIPPacketFilters(version, filters.value);
    if !ok { return None; }
    return Some((Get32(data, 0), filters.value));
  }

  function KeptAll(version: nat, fs: seq<Filter>): (ks: seq<Filter>)
    ensures |ks| == |fs| && forall i :: 0 <= i < |fs| ==> ks[i] == Kept(version, fs[i])
  {
    if fs == [] then [] else [Kept(version, fs[0])] + KeptAll(version, fs[1..])
  }

  lemma {:induction false} RecordsRoundTrip(version: nat, fs: seq<Filter>)
    requires forall i :: 0 <= i < |fs| ==> |fs[i].filter| == |fs[i].mask| && |Record(version, fs[i])| < TWO_32
    ensures DecodeRecords(version, Records(version, fs)) == Some(KeptAll(version, fs))
    decreases |fs|
  {
    hide Record, DecodeRecord, Kept;
    if fs != [] {
      var rs := Records(version, fs);
      assert rs[1..] == Records(version, fs[1..]);
      RecordRoundTrip(version, fs[0]);
      RecordsRoundTrip(version, fs[1..]);
    }
  }

  /** Every list of filters that validates is read back as itself, with identifiers kept
      from MBIMEx 3.0 on. */
  lemma FiltersRoundTrip(version: nat, session: u32, fs: seq<Filter>)
    requires ValidFilters(version, fs) && |Payload(version, session, fs)| < TWO_32
    ensures DecodeFilters(version, Payload(version, session, fs)) == Some((session, KeptAll(version, fs)))
  {
    var records, data := Records(version, fs), Payload(version, session, fs);
    assert ValidFilters(version, KeptAll(version, fs));
    hide Payload, Get32, Record, Decoded, ValidFilters, DecodeRecords;
    PayloadRead(version, session, fs);
    forall i | 0 <= i < |fs| ensures |fs[i].filter| == |fs[i].mask| && |Record(version, fs[i])| < TWO_32 {
      SameLengths(version, fs, i);
      RecordFits(data, 8, records, i);
    }
    DecodedIs(data, 8, records);
    RecordsRoundTrip(version, fs);
  }

  lemma SameLengths(version: nat, fs: seq<Filter>, i: nat)
    requires ValidFilters(version, fs) && i < |fs|
    ensures |fs[i].filter| == |fs[i].mask|
  {
  }

  lemma PayloadRead(version: nat, session: u32, fs: seq<Filter>)
    requires |Payload(version, session, fs)| < TWO_32
    ensures var data := Payload(version, session, fs);
      && 8 <= |data| && Get32(data, 0) == session && Get32(data, 4) == |fs| && ReadsAs(data, 8, Records(version, fs))
  {
    var header, records := LE32(session) + LE32(|fs|), Records(version, fs);
    var data := Payload(version, session, fs);
    hide LE32, Get32, Record, Layout, ReadsAs;
    LayoutParts(header, records, true);
    assert data[..8] == header;
    HeaderWords(data, session, |fs|);
    LayoutReadsBack(header, records, true);
  }

  lemma HeaderWords(data: bytes, x: u32, y: nat)
    requires |data| >= 8 && data[..8] == LE32(x) + LE32(y) && y < TWO_32
    ensures Get32(data, 0) == x && Get32(data, 4) == y
  {
    hide LE32, Get32;
    var h := data[..8];
    assert data[0..4] == h[0..4] == LE32(x);
    assert data[4..8] == h[4..8] == LE32(y);
    Get32AfterLE32(x, data, 0);
    Get32AfterLE32(y, data, 4);
  }
}
