/** Offset/size tables: the writers that lay out a table and its data buffer, the
    validator of a received table, and the reader built on it. */
module Wire {
  import opened Bytes

  /** valueRef: the value is size octets long and starts offset octets into its buffer. */
  datatype Ref = Ref(offset: u32, size: u32)

  const NO_REF: Ref := Ref(0, 0)

  // ---- layout ----

  /** What the octets of a value are followed by when it is appended at position at. */
  function Cell(at: nat, x: bytes): (c: bytes)
    ensures |c| == |x| + Padding(at + |x|)
  {
    x + Zeros(Padding(at + |x|))
  }

  /** The data buffer of a list of values that starts at position at. */
  function Body(at: nat, values: seq<bytes>): bytes
    decreases |values|
  {
    if values == [] then []
    else Cell(at, values[0]) + Body(at + |Cell(at, values[0])|, values[1..])
  }

  /** uint32(n). */
  function U32(n: nat): u32 { n % TWO_32 }

  /** The reference to a value appended at position at; some writers blank the reference
      of an empty value. */
  function RefTo(at: nat, x: bytes, blank: bool): Ref {
    if blank && |x| == 0 then NO_REF else Ref(U32(at), U32(|x|))
  }

  function Refs(at: nat, values: seq<bytes>, blank: bool): (rs: seq<Ref>)
    ensures |rs| == |values|
    decreases |values|
  {
    if values == [] then []
    else [RefTo(at, values[0], blank)] + Refs(at + |Cell(at, values[0])|, values[1..], blank)
  }

  function RefOctets(r: Ref): (s: bytes)
    ensures |s| == 8
  {
    LE32(r.offset) + LE32(r.size)
  }

  function Table(rs: seq<Ref>): (s: bytes)
    ensures |s| == 8 * |rs|
  {
    if rs == [] then [] else RefOctets(rs[0]) + Table(rs[1..])
  }

  /** A header, the table of references and the data buffer. */
  function Layout(header: bytes, values: seq<bytes>, blank: bool): bytes {
    var at := |header| + 8 * |values|;
    header + Table(Refs(at, values, blank)) + Body(at, values)
  }

  // ---- lists grow at the end ----

  lemma {:induction false} BodySnoc(at: nat, values: seq<bytes>, x: bytes)
    ensures Body(at, values + [x]) == Body(at, values) + Cell(at + |Body(at, values)|, x)
    decreases |values|
  {
    if values == [] {
      assert [x][1..] == [];
    } else {
      assert (values + [x])[1..] == values[1..] + [x];
      BodySnoc(at + |Cell(at, values[0])|, values[1..], x);
    }
  }

  lemma {:induction false} RefsSnoc(at: nat, values: seq<bytes>, x: bytes, blank: bool)
    ensures Refs(at, values + [x], blank) == Refs(at, values, blank) + [RefTo(at + |Body(at, values)|, x, blank)]
    decreases |values|
  {
    if values == [] {
      assert [x][1..] == [];
    } else {
      assert (values + [x])[1..] == values[1..] + [x];
      RefsSnoc(at + |Cell(at, values[0])|, values[1..], x, blank);
    }
  }

  lemma {:induction false} TableSnoc(rs: seq<Ref>, r: Ref)
    ensures Table(rs + [r]) == Table(rs) + RefOctets(r)
  {
    if rs == [] {
      assert [r][1..] == [];
    } else {
      assert (rs + [r])[1..] == rs[1..] + [r];
      TableSnoc(rs[1..], r);
    }
  }

  lemma Take1(values: seq<bytes>, i: nat)
    requires i < |values|
    ensures values[..i + 1] == values[..i] + [values[i]]
  {
  }

  // ---- writers ----

  /** for len(data)%4 != 0 { data = append(data, 0) } */
  method Pad4(data: bytes) returns (r: bytes)
    ensures r == data + Zeros(Padding(|data|))
  {
    hide Padding;
    r := data;
    ghost var k := 0;
    PadReached(|data|, 0);
    while |r| % 4 != 0
      invariant k <= Padding(|data|) && r == data + Zeros(k)
      invariant |r| % 4 == 0 <==> k == Padding(|data|)
      decreases Padding(|data|) - k
    {
      r := r + [0];
      k := k + 1;
      assert Zeros(k) == Zeros(k - 1) + [0];
      PadReached(|data|, k);
    }
  }

  lemma PadReached(n: nat, k: nat)
    requires k <= Padding(n)
    ensures (n + k) % 4 == 0 <==> k == Padding(n)
  {
  }

  lemma PutRef(head: bytes, k: nat, tail: bytes, r: Ref)
    ensures var s := head + Zeros(8 * (k + 1)) + tail;
      Put32(Put32(s, |head|, r.offset), |head| + 4, r.size) == head + RefOctets(r) + Zeros(8 * k) + tail
  {
    assert Zeros(8 * (k + 1)) == Zeros(8) + Zeros(8 * k);
  }

  lemma PutZeros(head: bytes, k: nat, tail: bytes)
    ensures head + Zeros(8 * (k + 1)) + tail == head + RefOctets(NO_REF) + Zeros(8 * k) + tail
  {
    assert RefOctets(NO_REF) == Zeros(8);
    assert Zeros(8 * (k + 1)) == Zeros(8) + Zeros(8 * k);
  }

  function WithRef(data: bytes, at: nat, r: Ref): (d: bytes)
    requires at + 8 <= |data|
    ensures |d| == |data|
  {
    Put32(Put32(data, at, r.offset), at + 4, r.size)
  }

  /** A table cut at one of its references: what stands before it, the reference, the
      blank references after it, the data so far. */
  function TableCut(h: bytes, field: bytes, k: nat, b: bytes): (s: bytes)
    ensures |s| == |h| + |field| + 8 * k + |b|
  {
    h + field + Zeros(8 * k) + b
  }

  lemma TableCutRef(h: bytes, k: nat, b: bytes, r: Ref)
    ensures WithRef(TableCut(h, Zeros(8), k, b), |h|, r) == TableCut(h, RefOctets(r), k, b)
    ensures TableCut(h, Zeros(8), k, b) == TableCut(h, RefOctets(NO_REF), k, b)
  {
    assert Zeros(8 * (k + 1)) == Zeros(8) + Zeros(8 * k);
    PutRef(h, k, b, r);
    PutZeros(h, k, b);
    hide RefOctets, Zeros, Put32;
    Assoc(h, Zeros(8), Zeros(8 * k));
  }

  /** The state of appendOffsetSizeElements with the values done written and room for
      k more references. */
  function Partial(header: bytes, at: nat, done: seq<bytes>, k: nat): (s: bytes)
    ensures |s| == |header| + 8 * (|done| + k) + |Body(at, done)|
  {
    header + Table(Refs(at, done, true)) + Zeros(8 * k) + Body(at, done)
  }

  lemma PartialBefore(header: bytes, at: nat, done: seq<bytes>, k: nat)
    ensures Partial(header, at, done, k + 1) == TableCut(header + Table(Refs(at, done, true)), Zeros(8), k, Body(at, done))
  {
    assert Zeros(8 * (k + 1)) == Zeros(8) + Zeros(8 * k);
    hide Body, Refs, Table, Zeros;
    Assoc(header + Table(Refs(at, done, true)), Zeros(8), Zeros(8 * k));
  }

  lemma Regroup(h: bytes, t: bytes, f: bytes, z: bytes, b: bytes, c: bytes)
    ensures h + (t + f) + z + (b + c) == (h + t) + f + z + b + c
  {
    Assoc(h, t, f);
    Assoc((h + t) + f + z, b, c);
  }

  lemma PartialAfter(header: bytes, at: nat, done: seq<bytes>, k: nat, x: bytes)
    ensures var n := at + |Body(at, done)|;
      Partial(header, at, done + [x], k) ==
        TableCut(header + Table(Refs(at, done, true)), RefOctets(RefTo(n, x, true)), k, Body(at, done)) + Cell(n, x)
  {
    hide Body, Refs, Table, Cell, RefOctets, RefTo, Zeros;
    var n := at + |Body(at, done)|;
    var r := RefTo(n, x, true);
    var t, f, b, c := Table(Refs(at, done, true)), RefOctets(r), Body(at, done), Cell(n, x);
    assert Table(Refs(at, done + [x], true)) == t + f by {
      RefsSnoc(at, done, x, true);
      TableSnoc(Refs(at, done, true), r);
    }
    assert Body(at, done + [x]) == b + c by { BodySnoc(at, done, x); }
    Regroup(header, t, f, Zeros(8 * k), b, c);
  }

  /** The buffer once the reference of a value about to be appended is filled in. */
  function Placed(d: bytes, at: nat, x: bytes): (r: bytes)
    requires at + 8 <= |d|
    ensures |r| == |d|
  {
    if |x| == 0 then d else WithRef(d, at, Ref(U32(|d|), U32(|x|)))
  }

  lemma PlacedFrame(h: bytes, k: nat, b: bytes, x: bytes, n: nat)
    requires n == |h| + 8 + 8 * k + |b|
    ensures Placed(TableCut(h, Zeros(8), k, b), |h|, x) == TableCut(h, RefOctets(RefTo(n, x, true)), k, b)
  {
    TableCutRef(h, k, b, Ref(U32(n), U32(|x|)));
    hide TableCut, RefOctets, Zeros, U32, WithRef;
  }

  lemma PlacedStep(h: bytes, k: nat, b: bytes, x: bytes)
    ensures var d := TableCut(h, Zeros(8), k, b);
      TableCut(h, RefOctets(RefTo(|d|, x, true)), k, b) + Cell(|d|, x) == Placed(d, |h|, x) + x + Zeros(Padding(|d| + |x|))
  {
    hide TableCut, RefOctets, Zeros, RefTo, Placed, Padding;
    var d := TableCut(h, Zeros(8), k, b);
    PlacedFrame(h, k, b, x, |d|);
    Assoc(Placed(d, |h|, x), x, Zeros(Padding(|d| + |x|)));
  }

  /** One round of the loop of appendOffsetSizeElements. */
  lemma PartialStep(header: bytes, at: nat, done: seq<bytes>, k: nat, x: bytes)
    requires at == |header| + 8 * (|done| + k + 1)
    ensures var d := Partial(header, at, done, k + 1);
      Partial(header, at, done + [x], k) == Placed(d, |header| + 8 * |done|, x) + x + Zeros(Padding(|d| + |x|))
  {
    hide Partial, Body, TableCut, Refs, Table, RefOctets, Zeros, RefTo, Placed, Padding, Cell;
    var h, d, b := header + Table(Refs(at, done, true)), Partial(header, at, done, k + 1), Body(at, done);
    assert |d| == at + |b| && |h| == |header| + 8 * |done|;
    PartialBefore(header, at, done, k);
    PartialAfter(header, at, done, k, x);
    PlacedStep(h, k, b, x);
  }

  lemma PartialEnds(header: bytes, values: seq<bytes>)
    ensures var at := |header| + 8 * |values|;
      Partial(header, at, [], |values|) == header + Zeros(8 * |values|) && Partial(header, at, values, 0) == Layout(header, values, true)
  {
    assert Zeros(8 * 0) == [];
  }

  /** The body of the loop: the reference, the value and its padding. */
  method AppendElement(data: bytes, entryOffset: nat, element: bytes) returns (r: bytes)
    requires entryOffset + 8 <= |data|
    ensures r == Placed(data, entryOffset, element) + element + Zeros(Padding(|data| + |element|))
  {
    hide WithRef, Zeros, U32, Padding;
    r := data;
    if |element| != 0 {
      r := WithRef(r, entryOffset, Ref(U32(|r|), U32(|element|)));
    }
    r := Pad4(r + element);
  }

  /** The first i elements are in place. */
  ghost predicate Progressed(data: bytes, header: bytes, elements: seq<bytes>, i: nat) {
    i <= |elements| && data == Partial(header, |header| + 8 * |elements|, elements[..i], |elements| - i)
  }

  lemma ProgressStarts(header: bytes, elements: seq<bytes>)
    ensures Progressed(header + Zeros(8 * |elements|), header, elements, 0)
  {
    PartialEnds(header, elements);
    hide Partial;
  }

  lemma ProgressEnds(data: bytes, header: bytes, elements: seq<bytes>)
    requires Progressed(data, header, elements, |elements|)
    ensures data == Layout(header, elements, true)
  {
    PartialEnds(header, elements);
    hide Partial, Layout;
    assert elements[..|elements|] == elements;
  }

  lemma ProgressLength(data: bytes, header: bytes, elements: seq<bytes>, i: nat)
    requires Progressed(data, header, elements, i)
    ensures |header| + 8 * |elements| <= |data|
  {
  }

  lemma ProgressStep(data: bytes, next: bytes, header: bytes, elements: seq<bytes>, i: nat)
    requires Progressed(data, header, elements, i) && i < |elements| && |header| + 8 * |elements| <= |data|
    requires next == Placed(data, |header| + 8 * i, elements[i]) + elements[i] + Zeros(Padding(|data| + |elements[i]|))
    ensures Progressed(next, header, elements, i + 1)
  {
    hide Partial, Placed, Zeros, Padding;
    Take1(elements, i);
    PartialStep(header, |header| + 8 * |elements|, elements[..i], |elements| - i - 1, elements[i]);
  }

  method AppendOffsetSizeElements(header: bytes, elements: seq<bytes>) returns (data: bytes)
    ensures data == Layout(header, elements, true)
  {
    hide Progressed, Layout, Placed, Zeros, Padding;
    data := header;
    var tableOffset := |data|;
    data := data + Zeros(8 * |elements|);
    ProgressStarts(header, elements);
    for i := 0 to |elements|
      invariant Progressed(data, header, elements, i)
    {
      ghost var was := data;
      ProgressLength(data, header, elements, i);
      data := AppendElement(data, tableOffset + i * 8, elements[i]);
      ProgressStep(was, data, header, elements, i);
    }
    ProgressEnds(data, header, elements);
  }

  /** appendRefValue: one reference and its value, in place. */
  method AppendRefValue(data: bytes, fieldOffset: nat, value: bytes) returns (r: bytes)
    requires fieldOffset + 8 <= |data|
    ensures r == if |value| == 0 then data else WithRef(data, fieldOffset, Ref(U32(|data|), U32(|value|))) + Cell(|data|, value)
  {
    if |value| == 0 { return data; }
    r := WithRef(data, fieldOffset, Ref(U32(|data|), U32(|value|)));
    r := Pad4(r + value);
  }

  /** The first loop of the writers that run over the values twice. */
  method AppendTable(data: bytes, baseOffset: nat, values: seq<bytes>) returns (r: bytes)
    ensures r == data + Table(Refs(baseOffset, values, false))
  {
    r := data;
    var offset := baseOffset;
    for i := 0 to |values|
      invariant r == data + Table(Refs(baseOffset, values[..i], false))
      invariant offset == baseOffset + |Body(baseOffset, values[..i])|
    {
      Take1(values, i);
      BodySnoc(baseOffset, values[..i], values[i]);
      RefsSnoc(baseOffset, values[..i], values[i], false);
      TableSnoc(Refs(baseOffset, values[..i], false), RefTo(offset, values[i], false));
      r := r + LE32(offset);
      r := r + LE32(|values[i]|);
      LE32Wraps(offset);
      LE32Wraps(|values[i]|);
      offset := Align4(offset + |values[i]|);
    }
    assert values[..|values|] == values;
  }

  lemma LE32Wraps(n: nat)
    ensures LE32(n) == LE32(U32(n))
  {
  }

  /** The second loop, padding on the length of the whole payload. */
  method AppendValues(data: bytes, values: seq<bytes>) returns (r: bytes)
    ensures r == data + Body(|data|, values)
  {
    r := data;
    for i := 0 to |values|
      invariant r == data + Body(|data|, values[..i])
    {
      Take1(values, i);
      BodySnoc(|data|, values[..i], values[i]);
      r := Pad4(r + values[i]);
    }
    assert values[..|values|] == values;
  }

  method TerminalCapabilityData(capabilities: seq<bytes>) returns (data: bytes)
    ensures data == Layout(LE32(|capabilities|), capabilities, false)
  {
    data := LE32(|capabilities|);
    data := AppendTable(data, 4 + |capabilities| * 8, capabilities);
    data := AppendValues(data, capabilities);
  }

  method TerminalCapabilityDataEx4(slotID: u32, capabilities: seq<bytes>) returns (data: bytes)
    ensures data == Layout(LE32(slotID) + LE32(|capabilities|), capabilities, false)
  {
    data := LE32(slotID);
    data := data + LE32(|capabilities|);
    data := AppendTable(data, 8 + |capabilities| * 8, capabilities);
    data := AppendValues(data, capabilities);
  }

  method RefHeader(baseOffset: nat, refs: seq<bytes>) returns (data: bytes)
    ensures data == LE32(1) + Table(Refs(baseOffset, refs, false))
  {
    data := AppendTable(LE32(1), baseOffset, refs);
  }

  /** The padding loop of appendRefs, which counts on the position of the value. */
  method PadAt(data: bytes, baseOffset: nat, length: nat) returns (r: bytes, next: nat)
    ensures r == data + Zeros(Padding(baseOffset + length))
    ensures next == baseOffset + Padding(baseOffset + length)
  {
    r, next := data, baseOffset;
    ghost var k := 0;
    while (next + length) % 4 != 0
      invariant next == baseOffset + k && k <= Padding(baseOffset + length) && r == data + Zeros(k)
      decreases Padding(baseOffset + length) - k
    {
      r := r + [0];
      next := next + 1;
      k := k + 1;
      assert Zeros(k) == Zeros(k - 1) + [0];
    }
  }

  method AppendRefs(data: bytes, base: nat, refs: seq<bytes>) returns (r: bytes)
    ensures r == data + Body(base, refs)
  {
    r := data;
    var baseOffset := base;
    for i := 0 to |refs|
      invariant r == data + Body(base, refs[..i]) && baseOffset == base + |Body(base, refs[..i])|
    {
      Take1(refs, i);
      BodySnoc(base, refs[..i], refs[i]);
      hide Body, Zeros, Padding;
      ghost var b, z := Body(base, refs[..i]), Zeros(Padding(baseOffset + |refs[i]|));
      Assoc(data + b, refs[i], z);
      Assoc(data, b, refs[i] + z);
      r, baseOffset := PadAt(r + refs[i], baseOffset, |refs[i]|);
      baseOffset := baseOffset + |refs[i]|;
    }
    assert refs[..|refs|] == refs;
  }

  /** The payload of FileStatusRequest. */
  method FileStatusData(applicationID: bytes, filePath: bytes) returns (data: bytes)
    ensures data == Layout(LE32(1), [applicationID, filePath], false)
  {
    data := RefHeader(20, [applicationID, filePath]);
    data := AppendRefs(data, 20, [applicationID, filePath]);
  }

  /** The fields of n references are still zero. */
  ghost predicate Blank(data: bytes, n: nat) {
    8 + 8 * n <= |data| && data[8..8 + 8 * n] == Zeros(8 * n)
  }

  /** The state of writeConnectStringRefs once it has written the references rs. */
  function Patched(data: bytes, rs: seq<Ref>): (s: bytes)
    requires 8 + 8 * |rs| <= |data|
    ensures |s| == |data|
  {
    data[..8] + Table(rs) + data[8 + 8 * |rs|..]
  }

  lemma PatchedSnoc(data: bytes, rs: seq<Ref>, r: Ref)
    requires 16 + 8 * |rs| <= |data| && data[8 + 8 * |rs|..16 + 8 * |rs|] == Zeros(8)
    ensures Patched(data, rs + [r]) == WithRef(Patched(data, rs), 8 + 8 * |rs|, r)
    ensures r == NO_REF ==> Patched(data, rs + [r]) == Patched(data, rs)
  {
    var head, tail := data[..8] + Table(rs), data[16 + 8 * |rs|..];
    TableSnoc(rs, r);
    PutRef(head, 0, tail, r);
    PutZeros(head, 0, tail);
    hide Table, RefOctets, Put32, Zeros, WithRef;
    assert data[8 + 8 * |rs|..] == Zeros(8) + tail;
    Assoc(head, Zeros(8), tail);
    Assoc(data[..8], Table(rs), RefOctets(r));
    assert Zeros(8 * 0) == [];
    assert head + RefOctets(r) + Zeros(8 * 0) == head + RefOctets(r);
  }

  method WriteConnectStringRefs(data: bytes, baseOffset: nat, values: seq<bytes>) returns (r: bytes)
    requires Blank(data, |values|)
    ensures 8 + 8 * |values| <= |data| && r == Patched(data, Refs(baseOffset, values, true))
  {
    assert 8 + 8 * |values| <= |data|;
    r := data;
    var offset := baseOffset;
    ghost var done := [];
    PatchedNone(data);
    hide Patched, WithRef, U32, Blank, Padding;
    for i := 0 to |values|
      invariant |done| == i && done <= values && r == Patched(data, Refs(baseOffset, done, true))
      invariant offset == baseOffset + |Body(baseOffset, done)|
    {
      NextOffset(baseOffset, done, values[i]);
      PatchedStep(data, |values|, baseOffset, done, values[i]);
      hide Refs, Body;
      if |values[i]| != 0 {
        r := WithRef(r, 8 + i * 8, Ref(U32(offset), U32(|values[i]|)));
      }
      offset := Align4(offset + |values[i]|);
      done := done + [values[i]];
    }
    assert done == values;
  }

  lemma NextOffset(at: nat, done: seq<bytes>, x: bytes)
    ensures at + |Body(at, done + [x])| == Align4(at + |Body(at, done)| + |x|)
  {
    BodySnoc(at, done, x);
    hide Body;
  }

  lemma PatchedStep(data: bytes, n: nat, baseOffset: nat, done: seq<bytes>, x: bytes)
    requires Blank(data, n) && |done| < n
    ensures var rs, offset := Refs(baseOffset, done, true), baseOffset + |Body(baseOffset, done)|;
      && 16 + 8 * |done| <= |data|
      && Patched(data, Refs(baseOffset, done + [x], true)) ==
           if |x| == 0 then Patched(data, rs) else WithRef(Patched(data, rs), 8 + 8 * |done|, Ref(U32(offset), U32(|x|)))
  {
    var offset := baseOffset + |Body(baseOffset, done)|;
    RefsSnoc(baseOffset, done, x, true);
    BlankField(data, n, |done|);
    hide Patched, Zeros, WithRef, Blank;
    PatchedSnoc(data, Refs(baseOffset, done, true), RefTo(offset, x, true));
  }

  lemma PatchedNone(data: bytes)
    requires 8 <= |data|
    ensures Patched(data, []) == data
  {
  }

  lemma BlankField(data: bytes, n: nat, i: nat)
    requires i < n && Blank(data, n)
    ensures data[8 + 8 * i..16 + 8 * i] == Zeros(8)
  {
    SubSlice(data, 8, 8 + 8 * n, 8 * i, 8 * i + 8);
    var z := Zeros(8 * n);
    assert z[8 * i..8 * i + 8] == Zeros(8);
  }

  lemma EmptyCell(at: nat)
    requires at % 4 == 0
    ensures Cell(at, []) == []
  {
    assert Padding(at) == 0;
  }

  /** One string behind an aligned payload. */
  method AppendString(data: bytes, value: bytes) returns (r: bytes)
    requires |data| % 4 == 0
    ensures r == data + Cell(|data|, value) && |r| % 4 == 0
  {
    if |value| == 0 {
      EmptyCell(|data|);
      assert value == [] && data + [] == data;
      return data;
    }
    PaddingAligns(|data| + |value|);
    hide Padding;
    Assoc(data, value, Zeros(Padding(|data| + |value|)));
    r := Pad4(data + value);
  }

  method AppendConnectStrings(data: bytes, values: seq<bytes>) returns (r: bytes)
    requires |data| % 4 == 0
    ensures r == data + Body(|data|, values)
  {
    r := data;
    ghost var done := [];
    assert Body(|data|, []) == [];
    hide Body, Cell;
    for i := 0 to |values|
      invariant |done| == i && done <= values && r == data + Body(|data|, done) && |r| % 4 == 0
    {
      BodySnoc(|data|, done, values[i]);
      Assoc(data, Body(|data|, done), Cell(|r|, values[i]));
      r := AppendString(r, values[i]);
      done := done + [values[i]];
    }
    assert done == values;
  }
}
