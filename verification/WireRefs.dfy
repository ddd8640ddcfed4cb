/** The validator of offset/size references, the reader built on it, and what both
    promise about every received payload and every written one. */
module WireRefs {
  import opened Bytes
  import opened Wire

  // ---- one reference ----

  function ReadOffsetSizeRef(data: bytes, fieldOffset: u32): (r: Option<Ref>)
    requires |data| < TWO_32
    ensures r.Some? <==> fieldOffset + 8 <= |data|
    ensures r.Some? ==> LE32(r.value.offset) + LE32(r.value.size) == data[fieldOffset..fieldOffset + 8]
  {
    if fieldOffset > |data| || 8 > |data| - fieldOffset then None
    else
      TwoWords(data, fieldOffset);
      Some(Ref(Get32(data, fieldOffset), Get32(data, fieldOffset + 4)))
  }

  lemma TwoWords(data: bytes, at: nat)
    requires at + 8 <= |data|
    ensures LE32(Get32(data, at)) + LE32(Get32(data, at + 4)) == data[at..at + 8]
  {
    LE32AfterGet32(data, at);
    LE32AfterGet32(data, at + 4);
    hide LE32, Get32;
    assert data[at..at + 8] == data[at..at + 4] + data[at + 4..at + 8];
  }

  /** The same field with the size first. */
  function ReadSizeOffsetRef(data: bytes, fieldOffset: u32): (r: Option<Ref>)
    requires |data| < TWO_32
    ensures r.Some? <==> fieldOffset + 8 <= |data|
    ensures r.Some? ==> LE32(r.value.size) + LE32(r.value.offset) == data[fieldOffset..fieldOffset + 8]
  {
    if fieldOffset > |data| || 8 > |data| - fieldOffset then None
    else
      TwoWords(data, fieldOffset);
      Some(Ref(Get32(data, fieldOffset + 4), Get32(data, fieldOffset)))
  }

  /** validate: the uint32 subtraction cannot wrap because of the test before it. */
  predicate InBase(r: Ref, base: bytes)
    requires |base| < TWO_32
  {
    if r.offset == 0 then r.size == 0
    else r.offset <= |base| && r.size <= |base| - r.offset
  }

  predicate ValidateDataBuffer(r: Ref, base: bytes, dataStart: u32)
    requires |base| < TWO_32
  {
    InBase(r, base) && !(r.size != 0 && r.offset < dataStart) && r.offset % 4 == 0
  }

  /** bytes(): the slice bounds hold and their uint32 sum does not wrap. */
  function ValueOf(r: Ref, base: bytes): (x: bytes)
    requires |base| < TWO_32 && InBase(r, base)
    ensures |x| == r.size
  {
    if r.offset == 0 && r.size == 0 then []
    else
      var end: u32 := r.offset + r.size;
      base[r.offset..end]
  }

  // ---- the validator as a function ----

  /** Where the value ends that was seen last, and where the next has to begin. */
  datatype Ends = Ends(payload: nat, padded: nat)

  function EndsFrom(base: bytes, dataStart: u32, ends: Ends, refs: seq<Ref>): Option<Ends>
    requires |base| < TWO_32
    decreases |refs|
  {
    if refs == [] then Some(ends)
    else if !ValidateDataBuffer(refs[0], base, dataStart) then None
    else if refs[0].size == 0 then EndsFrom(base, dataStart, ends, refs[1..])
    else if refs[0].offset != ends.padded then None
    else EndsFrom(base, dataStart, EndsOf(refs[0]), refs[1..])
  }

  function EndsOf(r: Ref): Ends {
    Ends(r.offset + r.size, Align4(r.offset + r.size))
  }

  /** dataBufferEnds. */
  method DataBufferEnds(base: bytes, dataStart: u32, refs: seq<Ref>) returns (r: Option<Ends>)
    requires |base| < TWO_32
    ensures r == if dataStart > |base| then None else EndsFrom(base, dataStart, Ends(dataStart, dataStart), refs)
  {
    if dataStart > |base| { return None; }
    var nextOffset: nat := dataStart;
    var payloadEnd: nat := nextOffset;
    for i := 0 to |refs|
      invariant EndsFrom(base, dataStart, Ends(payloadEnd, nextOffset), refs[i..])
             == EndsFrom(base, dataStart, Ends(dataStart, dataStart), refs)
    {
      var ref := refs[i];
      var rest := refs[i..];
      assert rest[0] == ref && rest[1..] == refs[i + 1..];
      if !ValidateDataBuffer(ref, base, dataStart) { return None; }
      if ref.size == 0 { continue; }
      if ref.offset != nextOffset { return None; }
      payloadEnd := ref.offset + ref.size;
      nextOffset := payloadEnd;
      if nextOffset % 4 != 0 {
        nextOffset := nextOffset + (4 - nextOffset % 4);
      }
    }
    return Some(Ends(payloadEnd, nextOffset));
  }

  // ---- tiling ----

  function Nonempty(refs: seq<Ref>): seq<Ref> {
    if refs == [] then []
    else (if refs[0].size == 0 then [] else [refs[0]]) + Nonempty(refs[1..])
  }

  /** The values lie one after the other, each at the next multiple of four. */
  ghost predicate Consecutive(start: nat, rs: seq<Ref>)
    decreases |rs|
  {
    rs == [] || (rs[0].offset == start && Consecutive(EndsOf(rs[0]).padded, rs[1..]))
  }

  ghost predicate AllValid(base: bytes, dataStart: u32, refs: seq<Ref>)
    requires |base| < TWO_32
  {
    forall i :: 0 <= i < |refs| ==> ValidateDataBuffer(refs[i], base, dataStart)
  }

  function LastEnds(dataStart: nat, rs: seq<Ref>): Ends {
    if rs == [] then Ends(dataStart, dataStart) else EndsOf(rs[|rs| - 1])
  }

  /** The values of a data buffer that begins at dataStart, without gap or overlap. */
  ghost predicate Tiles(base: bytes, dataStart: u32, refs: seq<Ref>)
    requires |base| < TWO_32
  {
    dataStart <= |base| && AllValid(base, dataStart, refs) && Consecutive(dataStart, Nonempty(refs))
  }

  /** Starting anywhere: the loop accepts exactly the consecutive lists and returns the
      ends of the last value. */
  lemma {:induction false} EndsFromIff(base: bytes, dataStart: u32, ends: Ends, refs: seq<Ref>)
    requires |base| < TWO_32
    ensures var e, rs := EndsFrom(base, dataStart, ends, refs), Nonempty(refs);
      && (e.Some? <==> AllValid(base, dataStart, refs) && Consecutive(ends.padded, rs))
      && (e.Some? ==> e.value == if rs == [] then ends else EndsOf(rs[|rs| - 1]))
    decreases |refs|
  {
    if refs != [] {
      var rest := refs[1..];
      assert AllValid(base, dataStart, refs) <==>
             ValidateDataBuffer(refs[0], base, dataStart) && AllValid(base, dataStart, rest) by {
        AllValidSplit(base, dataStart, refs);
      }
      if refs[0].size == 0 {
        EndsFromIff(base, dataStart, ends, rest);
        assert Nonempty(refs) == Nonempty(rest);
      } else {
        EndsFromIff(base, dataStart, EndsOf(refs[0]), rest);
        assert Nonempty(refs)[1..] == Nonempty(rest);
      }
    }
  }

  lemma AllValidSplit(base: bytes, dataStart: u32, refs: seq<Ref>)
    requires |base| < TWO_32 && refs != []
    ensures AllValid(base, dataStart, refs) <==> ValidateDataBuffer(refs[0], base, dataStart) && AllValid(base, dataStart, refs[1..])
  {
    var rest := refs[1..];
    if ValidateDataBuffer(refs[0], base, dataStart) && AllValid(base, dataStart, rest) {
      forall i | 0 <= i < |refs| ensures ValidateDataBuffer(refs[i], base, dataStart) {
        if i > 0 { assert refs[i] == rest[i - 1]; }
      }
    }
    if AllValid(base, dataStart, refs) {
      forall i | 0 <= i < |rest| ensures ValidateDataBuffer(rest[i], base, dataStart) {
        assert rest[i] == refs[i + 1];
      }
    }
  }

  /** validateDataBufferRefs accepts exactly the tilings that end with the payload. */
  method ValidateDataBufferRefs(base: bytes, dataStart: u32, refs: seq<Ref>) returns (ok: bool)
    requires |base| < TWO_32
    ensures ok <==> Tiles(base, dataStart, refs) && LastEnds(dataStart, Nonempty(refs)).padded == |base|
  {
    var ends := DataBufferEnds(base, dataStart, refs);
    EndsFromIff(base, dataStart, Ends(dataStart, dataStart), refs);
    if ends == None { return false; }
    return ends.value.padded == |base|;
  }

  /** A nested record may stop where its last value stops. */
  method ValidateRecordDataBufferRefs(base: bytes, dataStart: u32, refs: seq<Ref>) returns (ok: bool)
    requires |base| < TWO_32
    ensures ok <==> (&& Tiles(base, dataStart, refs)
                     && var e := LastEnds(dataStart, Nonempty(refs)); (|base| == e.payload || |base| == e.padded))
  {
    var ends := DataBufferEnds(base, dataStart, refs);
    EndsFromIff(base, dataStart, Ends(dataStart, dataStart), refs);
    if ends == None { return false; }
    return |base| == ends.value.payload || |base| == ends.value.padded;
  }

  // ---- what acceptance means ----

  lemma {:induction false} NonemptyValid(base: bytes, dataStart: u32, refs: seq<Ref>)
    requires |base| < TWO_32 && AllValid(base, dataStart, refs)
    ensures AllValid(base, dataStart, Nonempty(refs))
    ensures forall j :: 0 <= j < |Nonempty(refs)| ==> Nonempty(refs)[j].size != 0
    decreases |refs|
  {
    if refs != [] {
      AllValidSplit(base, dataStart, refs);
      NonemptyValid(base, dataStart, refs[1..]);
    }
  }

  lemma {:induction false} ConsecutiveAt(start: nat, rs: seq<Ref>, j: nat)
    requires Consecutive(start, rs) && j < |rs|
    ensures rs[j].offset == if j == 0 then start else EndsOf(rs[j - 1]).padded
    decreases |rs|
  {
    if j > 0 { ConsecutiveAt(EndsOf(rs[0]).padded, rs[1..], j - 1); }
  }

  /** Accepted values are aligned, in order and disjoint, at most three octets apart. */
  lemma {:induction false} TilesApart(base: bytes, dataStart: u32, refs: seq<Ref>, i: nat, j: nat)
    requires |base| < TWO_32 && Tiles(base, dataStart, refs)
    requires i < j < |Nonempty(refs)|
    ensures var rs := Nonempty(refs);
      && dataStart <= rs[i].offset && rs[i].offset + rs[i].size <= rs[j].offset && rs[i].offset % 4 == 0
      && (j == i + 1 ==> rs[j].offset < rs[i].offset + rs[i].size + 4)
    decreases j
  {
    var rs := Nonempty(refs);
    NonemptyValid(base, dataStart, refs);
    ConsecutiveAt(dataStart, rs, j);
    assert ValidateDataBuffer(rs[i], base, dataStart);
    if i + 1 < j { TilesApart(base, dataStart, refs, i, j - 1); }
  }

  /** The stretch of the payload a value owns: its octets and its padding, as far as
      the payload goes. */
  function CellOf(base: bytes, r: Ref): (c: bytes)
    requires r.offset + r.size <= |base|
    ensures r.size <= |c| < r.size + 4
  {
    base[r.offset..Min(|base|, EndsOf(r).padded)]
  }

  ghost predicate Inside(base: bytes, rs: seq<Ref>) {
    forall j :: 0 <= j < |rs| ==> rs[j].offset + rs[j].size <= |base|
  }

  function CellsOf(base: bytes, rs: seq<Ref>): bytes
    requires Inside(base, rs)
  {
    if rs == [] then [] else CellOf(base, rs[0]) + CellsOf(base, rs[1..])
  }

  lemma {:induction false} CellsCover(base: bytes, start: nat, rs: seq<Ref>)
    requires Inside(base, rs) && Consecutive(start, rs) && start <= |base|
    requires if rs == [] then |base| == start else (var e := EndsOf(rs[|rs| - 1]); |base| == e.payload || |base| == e.padded)
    ensures base[start..] == CellsOf(base, rs)
    decreases |rs|
  {
    if rs != [] {
      var mid, rest := Min(|base|, EndsOf(rs[0]).padded), rs[1..];
      if rest != [] {
        assert Inside(base, rest);
        assert rest[0].offset == EndsOf(rs[0]).padded && rest[0].offset + rest[0].size <= |base|;
        assert rest[|rest| - 1] == rs[|rs| - 1];
        CellsCover(base, mid, rest);
      }
      assert base[start..] == base[start..mid] + base[mid..];
    }
  }

  /** Either validator accepts only payloads whose data region is the values in order,
      each followed by at most three octets. */
  lemma AcceptedIsCells(base: bytes, dataStart: u32, refs: seq<Ref>)
    requires |base| < TWO_32 && Tiles(base, dataStart, refs)
    requires var e := LastEnds(dataStart, Nonempty(refs)); |base| == e.payload || |base| == e.padded
    ensures Inside(base, Nonempty(refs)) && base[dataStart..] == CellsOf(base, Nonempty(refs))
    ensures forall j :: 0 <= j < |Nonempty(refs)| ==>
      var r := Nonempty(refs)[j]; InBase(r, base) && CellOf(base, r)[..r.size] == ValueOf(r, base)
  {
    NonemptyValid(base, dataStart, refs);
    var rs := Nonempty(refs);
    hide Nonempty, Consecutive;
    forall j | 0 <= j < |rs|
      ensures rs[j].offset + rs[j].size <= |base| && InBase(rs[j], base) && CellOf(base, rs[j])[..rs[j].size] == ValueOf(rs[j], base)
    {
      assert ValidateDataBuffer(rs[j], base, dataStart);
      CellStarts(base, dataStart, rs[j]);
    }
    hide CellOf, ValueOf, InBase;
    CellsCover(base, dataStart, rs);
  }

  lemma CellStarts(base: bytes, dataStart: u32, r: Ref)
    requires |base| < TWO_32 && ValidateDataBuffer(r, base, dataStart) && r.size != 0
    ensures r.offset + r.size <= |base| && InBase(r, base) && CellOf(base, r)[..r.size] == ValueOf(r, base)
  {
  }

  // ---- the reader ----

  /** The references of a table, without any check. */
  function TableRefs(data: bytes, at: nat, count: nat): (rs: seq<Ref>)
    requires at + 8 * count <= |data|
    ensures |rs| == count
  {
    seq(count, i requires 0 <= i < count => Ref(Get32(data, at + 8 * i), Get32(data, at + 8 * i + 4)))
  }

  ghost predicate Accepted(data: bytes, tableOffset: u32, count: u32)
    requires |data| < TWO_32
  {
    && tableOffset + 8 * count <= |data|
    && Tiles(data, tableOffset + 8 * count, TableRefs(data, tableOffset, count))
    && LastEnds(tableOffset + 8 * count, Nonempty(TableRefs(data, tableOffset, count))).padded == |data|
  }

  /** offsetSizeRefs; the uint32 additions are bounded by the first test. */
  method OffsetSizeRefs(data: bytes, tableOffset: u32, count: u32) returns (r: Option<seq<Ref>>)
    requires |data| < TWO_32
    ensures r.Some? <==> Accepted(data, tableOffset, count)
    ensures r.Some? ==> r.value == TableRefs(data, tableOffset, count)
  {
    if tableOffset > |data| || count > (|data| - tableOffset) / 8 { return None; }
    var dataStart: u32 := tableOffset + count * 8;
    var refs: seq<Ref> := [];
    for i := 0 to count
      invariant |refs| == i
      invariant forall j :: 0 <= j < i ==> refs[j] == TableRefs(data, tableOffset, count)[j]
    {
      var fieldOffset: u32 := tableOffset + i * 8;
      var ref := ReadOffsetSizeRef(data, fieldOffset);
      if ref == None { return None; }
      refs := refs + [ref.value];
    }
    assert refs == TableRefs(data, tableOffset, count);
    var ok := ValidateDataBufferRefs(data, dataStart, refs);
    if !ok { return None; }
    return Some(refs);
  }

  function Values(data: bytes, refs: seq<Ref>): (vs: seq<bytes>)
    requires |data| < TWO_32 && forall i :: 0 <= i < |refs| ==> InBase(refs[i], data)
    ensures |vs| == |refs|
  {
    seq(|refs|, i requires 0 <= i < |refs| => ValueOf(refs[i], data))
  }

  lemma TiledInBase(data: bytes, dataStart: u32, refs: seq<Ref>)
    requires |data| < TWO_32 && Tiles(data, dataStart, refs)
    ensures forall i :: 0 <= i < |refs| ==> InBase(refs[i], data)
  {
    forall i | 0 <= i < |refs| ensures InBase(refs[i], data) {
      assert ValidateDataBuffer(refs[i], data, dataStart);
    }
  }
}
