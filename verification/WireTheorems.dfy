/** Written tables are read back, and accepted tables are written back at the same length. */
module WireTheorems {
  import opened Bytes
  import opened Wire
  import opened WireRefs

  // ---- a written table is accepted and selects what was written ----

  lemma {:induction false} TableAt(rs: seq<Ref>, i: nat)
    requires i < |rs|
    ensures Table(rs)[8 * i..8 * i + 8] == RefOctets(rs[i])
    decreases i
  {
    if i > 0 {
      var rest := Table(rs[1..]);
      TableAt(rs[1..], i - 1);
      assert Table(rs)[8 * i..8 * i + 8] == rest[8 * i - 8..8 * i];
    }
  }

  lemma RefRead(data: bytes, at: nat, r: Ref)
    requires at + 8 <= |data| && data[at..at + 8] == RefOctets(r)
    ensures Get32(data, at) == r.offset && Get32(data, at + 4) == r.size
  {
    var field := data[at..at + 8];
    hide Get32, LE32;
    SubSlice(data, at, at + 8, 0, 4);
    SubSlice(data, at, at + 8, 4, 8);
    assert field[0..4] == LE32(r.offset) && field[4..8] == LE32(r.size);
    Get32AfterLE32(r.offset, data, at);
    Get32AfterLE32(r.size, data, at + 4);
  }

  lemma Mod4(a: nat, n: nat)
    ensures (a + 8 * n) % 4 == a % 4
  {
  }

  lemma TableReadAt(data: bytes, at: nat, rs: seq<Ref>, i: nat)
    requires at + 8 * |rs| <= |data| && data[at..at + 8 * |rs|] == Table(rs) && i < |rs|
    ensures Get32(data, at + 8 * i) == rs[i].offset && Get32(data, at + 8 * i + 4) == rs[i].size
  {
    hide Table, RefOctets, Get32;
    var p := at + 8 * i;
    assert data[p..p + 8] == RefOctets(rs[i]) by {
      TableAt(rs, i);
      SubSlice(data, at, at + 8 * |rs|, 8 * i, 8 * i + 8);
    }
    RefRead(data, p, rs[i]);
  }

  lemma TableRead(data: bytes, at: nat, rs: seq<Ref>)
    requires at + 8 * |rs| <= |data| && data[at..at + 8 * |rs|] == Table(rs)
    ensures TableRefs(data, at, |rs|) == rs
  {
    hide Table, Get32;
    forall i | 0 <= i < |rs| ensures TableRefs(data, at, |rs|)[i] == rs[i] {
      TableReadAt(data, at, rs, i);
    }
  }

  /** The references to a list of values appended at position at select those values and
      pass the validator's loop. */
  lemma {:induction false} RefsSelect(base: bytes, dataStart: u32, ends: Ends, values: seq<bytes>, blank: bool)
    requires |base| < TWO_32 && 0 < ends.padded && dataStart <= ends.padded && ends.padded % 4 == 0
    requires ends.padded <= |base| && base[ends.padded..] == Body(ends.padded, values)
    ensures var rs := Refs(ends.padded, values, blank);
      && (forall i :: 0 <= i < |rs| ==> InBase(rs[i], base) && ValueOf(rs[i], base) == values[i])
      && EndsFrom(base, dataStart, ends, rs).Some? && EndsFrom(base, dataStart, ends, rs).value.padded == |base|
    decreases |values|
  {
    hide Cell, RefTo;
    if values != [] {
      var at, x, rest := ends.padded, values[0], values[1..];
      var next := at + |Cell(at, x)|;
      var r, tail := RefTo(at, x, blank), Refs(next, rest, blank);
      HeadSelect(base, at, x, rest, blank);
      RefsSelect(base, dataStart, if |x| == 0 then ends else EndsOf(r), rest, blank);
      var rs := Refs(at, values, blank);
      assert rs == [r] + tail && rs[1..] == tail;
    }
  }

  lemma HeadSelect(base: bytes, at: nat, x: bytes, rest: seq<bytes>, blank: bool)
    requires |base| < TWO_32 && 0 < at && at % 4 == 0 && at <= |base| && base[at..] == Cell(at, x) + Body(at + |Cell(at, x)|, rest)
    ensures var r, next := RefTo(at, x, blank), at + |Cell(at, x)|;
      && InBase(r, base) && ValueOf(r, base) == x && r.size == |x| && r.offset % 4 == 0
      && next <= |base| && base[next..] == Body(next, rest) && next % 4 == 0
      && (|x| == 0 ==> next == at) && (|x| != 0 ==> r.offset == at && EndsOf(r).padded == next)
  {
    var next := at + |Cell(at, x)|;
    var tail := base[at..];
    assert |tail| == |base| - at;
    assert base[at..at + |x|] == tail[..|x|] == x;
    assert base[next..] == tail[|Cell(at, x)|..];
    PaddingAligns(at + |x|);
    assert at % TWO_32 == at && |x| % TWO_32 == |x|;
  }

  lemma LayoutParts(header: bytes, values: seq<bytes>, blank: bool)
    ensures var data, at := Layout(header, values, blank), |header| + 8 * |values|;
      && at <= |data| && data[..|header|] == header
      && data[|header|..at] == Table(Refs(at, values, blank)) && data[at..] == Body(at, values)
  {
    var at := |header| + 8 * |values|;
    var t, b := Table(Refs(at, values, blank)), Body(at, values);
    hide Table, Refs, Body;
    assert Layout(header, values, blank) == header + t + b;
  }

  ghost predicate ReadsAs(data: bytes, tableOffset: u32, values: seq<bytes>)
    requires |data| < TWO_32
  {
    && |values| < TWO_32 && Accepted(data, tableOffset, |values|)
    && forall i :: 0 <= i < |values| ==>
         var r := TableRefs(data, tableOffset, |values|)[i]; InBase(r, data) && ValueOf(r, data) == values[i]
  }

  lemma ListReadBack(data: bytes, at: u32, values: seq<bytes>, blank: bool)
    requires |data| < TWO_32 && at % 4 == 0 && (at == 0 ==> values == []) && at <= |data| && data[at..] == Body(at, values)
    ensures var rs := Refs(at, values, blank);
      && Tiles(data, at, rs) && LastEnds(at, Nonempty(rs)).padded == |data|
      && forall i :: 0 <= i < |values| ==> InBase(rs[i], data) && ValueOf(rs[i], data) == values[i]
  {
    var rs := Refs(at, values, blank);
    if values == [] {
      assert rs == [] && Body(at, values) == [] && |data| == at;
    } else {
      RefsSelect(data, at, Ends(at, at), values, blank);
      EndsFromIff(data, at, Ends(at, at), rs);
    }
  }

  /** A payload cut into a table of references to a list of values and their data
      buffer is accepted and read back as that list. */
  lemma RefsReadBack(data: bytes, tableOffset: u32, values: seq<bytes>, blank: bool)
    requires |data| < TWO_32 && tableOffset % 4 == 0
    requires var at := tableOffset + 8 * |values|;
      at <= |data| && TableRefs(data, tableOffset, |values|) == Refs(at, values, blank) && data[at..] == Body(at, values)
    ensures ReadsAs(data, tableOffset, values)
  {
    hide TableRefs, Refs, Body, Tiles, InBase, ValueOf, LastEnds;
    var at: u32 := tableOffset + 8 * |values|;
    Mod4(tableOffset, |values|);
    ListReadBack(data, at, values, blank);
  }

  /** For every aligned header and every list of values, what any of the table writers
      lays out is accepted and read back as that list. */
  lemma LayoutReadsBack(header: bytes, values: seq<bytes>, blank: bool)
    requires |header| % 4 == 0 && |Layout(header, values, blank)| < TWO_32
    ensures |header| <= |Layout(header, values, blank)| && ReadsAs(Layout(header, values, blank), |header|, values)
  {
    var data, at := Layout(header, values, blank), |header| + 8 * |values|;
    LayoutParts(header, values, blank);
    hide Layout, ReadsAs, TableRefs, Refs, Table, Body;
    TableRead(data, |header|, Refs(at, values, blank));
    RefsReadBack(data, |header|, values, blank);
  }

  // ---- an accepted table is written back at the same length ----

  /** The data buffer of the accepted values has the length of the accepted region. */
  lemma {:induction false} BodyLength(base: bytes, dataStart: u32, ends: Ends, refs: seq<Ref>, values: seq<bytes>)
    requires |base| < TWO_32 && EndsFrom(base, dataStart, ends, refs).Some? && ends.padded % 4 == 0
    requires |values| == |refs| && forall i :: 0 <= i < |refs| ==> |values[i]| == refs[i].size
    ensures EndsFrom(base, dataStart, ends, refs).value.padded == ends.padded + |Body(ends.padded, values)|
    decreases |refs|
  {
    if refs != [] {
      var at, x := ends.padded, values[0];
      PaddingAligns(at + |x|);
      BodyLength(base, dataStart, if refs[0].size == 0 then ends else EndsOf(refs[0]), refs[1..], values[1..]);
    }
  }

  lemma {:induction false} EmptyBody(at: nat, values: seq<bytes>)
    requires forall i :: 0 <= i < |values| ==> |values[i]| == 0
    ensures |Body(at, values)| == if values == [] then 0 else Padding(at)
    ensures at % 4 != 0 ==> Padding(at) != 0
    decreases |values|
  {
    if values != [] {
      PaddingAligns(at);
      EmptyBody(at + Padding(at), values[1..]);
    }
  }

  lemma AcceptedLength(base: bytes, dataStart: u32, refs: seq<Ref>, values: seq<bytes>)
    requires |base| < TWO_32 && Tiles(base, dataStart, refs) && dataStart % 4 == 0
    requires LastEnds(dataStart, Nonempty(refs)).padded == |base|
    requires |values| == |refs| && forall i :: 0 <= i < |refs| ==> |values[i]| == refs[i].size
    ensures dataStart + |Body(dataStart, values)| == |base|
  {
    EndsFromIff(base, dataStart, Ends(dataStart, dataStart), refs);
    BodyLength(base, dataStart, Ends(dataStart, dataStart), refs, values);
  }

  /** A data region that starts off alignment can only be empty. */
  lemma UnalignedIsEmpty(base: bytes, dataStart: u32, refs: seq<Ref>)
    requires |base| < TWO_32 && Tiles(base, dataStart, refs) && dataStart % 4 != 0
    requires LastEnds(dataStart, Nonempty(refs)).padded == |base|
    ensures |base| == dataStart && forall i :: 0 <= i < |refs| ==> refs[i].size == 0
  {
    NonemptyValid(base, dataStart, refs);
    assert Nonempty(refs) != [] ==> ValidateDataBuffer(Nonempty(refs)[0], base, dataStart);
    NoneNonempty(refs);
  }

  lemma {:induction false} NoneNonempty(refs: seq<Ref>)
    requires Nonempty(refs) == []
    ensures forall i :: 0 <= i < |refs| ==> refs[i].size == 0
    decreases |refs|
  {
    if refs != [] { NoneNonempty(refs[1..]); }
  }

  lemma ReadSizes(data: bytes, tableOffset: u32, values: seq<bytes>)
    requires |data| < TWO_32 && ReadsAs(data, tableOffset, values)
    ensures tableOffset + 8 * |values| <= |data|
    ensures var at, refs := tableOffset + 8 * |values|, TableRefs(data, tableOffset, |values|);
      && Tiles(data, at, refs) && LastEnds(at, Nonempty(refs)).padded == |data|
      && forall i :: 0 <= i < |values| ==> |values[i]| == refs[i].size
  {
    assert tableOffset + 8 * |values| <= |data|;
    hide TableRefs, Accepted;
    forall i | 0 <= i < |values| ensures |values[i]| == TableRefs(data, tableOffset, |values|)[i].size {
      var r := TableRefs(data, tableOffset, |values|)[i];
      assert InBase(r, data);
    }
  }

  lemma LayoutLength(header: bytes, values: seq<bytes>, blank: bool)
    ensures var at := |header| + 8 * |values|; |Layout(header, values, blank)| == at + |Body(at, values)|
  {
    hide Table, Refs, Body;
  }

  /** Re-encoding the values of an accepted payload behind the same header gives the same
      length exactly when the table starts at a multiple of four or is empty. */
  lemma ReencodedLength(data: bytes, tableOffset: u32, values: seq<bytes>, blank: bool)
    requires |data| < TWO_32 && ReadsAs(data, tableOffset, values)
    ensures tableOffset <= |data|
    ensures |Layout(data[..tableOffset], values, blank)| == |data| <==> tableOffset % 4 == 0 || values == []
  {
    var header := data[..tableOffset];
    assert |header| == tableOffset;
    ReencodedBody(data, tableOffset, values);
    LayoutLength(header, values, blank);
    hide Layout, ReadsAs, Body;
  }

  lemma ReencodedBody(data: bytes, tableOffset: u32, values: seq<bytes>)
    requires |data| < TWO_32 && ReadsAs(data, tableOffset, values)
    ensures var at := tableOffset + 8 * |values|;
      at + |Body(at, values)| == |data| <==> tableOffset % 4 == 0 || values == []
  {
    hide TableRefs, Tiles, LastEnds, Body, InBase, ValueOf, ReadsAs, Padding, Nonempty;
    ReadSizes(data, tableOffset, values);
    Mod4(tableOffset, |values|);
    RegionLength(data, tableOffset + 8 * |values|, TableRefs(data, tableOffset, |values|), values);
  }

  lemma RegionLength(base: bytes, dataStart: u32, refs: seq<Ref>, values: seq<bytes>)
    requires |base| < TWO_32 && Tiles(base, dataStart, refs) && LastEnds(dataStart, Nonempty(refs)).padded == |base|
    requires |values| == |refs| && forall i :: 0 <= i < |refs| ==> |values[i]| == refs[i].size
    ensures dataStart + |Body(dataStart, values)| == |base| <==> dataStart % 4 == 0 || values == []
  {
    hide Tiles, LastEnds, Body, Padding, Nonempty;
    if dataStart % 4 == 0 {
      AcceptedLength(base, dataStart, refs, values);
    } else {
      UnalignedIsEmpty(base, dataStart, refs);
      EmptyBody(dataStart, values);
    }
  }

  /** The failing side is real: behind a header of one octet a table with one empty value
      is accepted, and re-encoding it makes twelve octets of nine. */
  lemma UnalignedTableGrows()
    ensures var data := [7] + Zeros(8);
      && |data| == 9 && ReadsAs(data, 1, [[]]) && data[..1] == [7]
      && |Layout([7], [[]], true)| == 12 && |Layout([7], [[]], false)| == 12
  {
    hide ReadsAs, Layout, Body, Zeros;
    UnalignedAccepted();
    var header: bytes, values: seq<bytes> := [7], [[]];
    LayoutLength(header, values, true);
    LayoutLength(header, values, false);
    EmptyBody(9, values);
    assert Padding(9) == 3;
  }

  lemma UnalignedAccepted()
    ensures ReadsAs([7] + Zeros(8), 1, [[]])
  {
    var data: bytes := [7] + Zeros(8);
    var refs := TableRefs(data, 1, 1);
    assert refs[0] == NO_REF by {
      assert data[1] == 0 && data[2] == 0 && data[3] == 0 && data[4] == 0;
      assert data[5] == 0 && data[6] == 0 && data[7] == 0 && data[8] == 0;
    }
    hide TableRefs, Get32;
    assert refs[1..] == [] && Nonempty([]) == [];
    assert Nonempty(refs) == [];
    assert ValidateDataBuffer(refs[0], data, 9);
  }

  // ---- records ----

  /** The two values of a record, spelled out. */
  lemma TwoValues(at: nat, x: bytes, y: bytes)
    ensures var next := at + |Cell(at, x)|;
      && Refs(at, [x, y], true) == [RefTo(at, x, true), RefTo(next, y, true)]
      && Body(at, [x, y]) == Cell(at, x) + Cell(next, y)
  {
    var next := at + |Cell(at, x)|;
    assert [x, y][1..] == [y] && [y][1..] == [];
    assert Body(next + |Cell(next, y)|, []) == [] && Cell(next, y) + [] == Cell(next, y);
  }

  /** A value read from a payload is shorter than the payload's bound. */
  lemma RecordFits(data: bytes, tableOffset: u32, records: seq<bytes>, i: nat)
    requires |data| < TWO_32 && ReadsAs(data, tableOffset, records) && i < |records|
    ensures |records[i]| < TWO_32 && |records| < TWO_32
  {
    var r := TableRefs(data, tableOffset, |records|)[i];
    hide TableRefs, Accepted;
    assert InBase(r, data) && ValueOf(r, data) == records[i];
  }
}
