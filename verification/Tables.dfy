/** The payloads built on offset/size tables: terminal capabilities, slot mappings, file
    status requests and the strings of a connect request. */
module Tables {
  import opened Bytes
  import opened Wire
  import opened WireRefs
  import opened WireTheorems

  /** The values a table yields, if the reader accepts it. */
  ghost function Decoded(data: bytes, tableOffset: u32, count: u32): Option<seq<bytes>>
    requires |data| < TWO_32
  {
    if Accepted(data, tableOffset, count) then
      TiledInBase(data, tableOffset + 8 * count, TableRefs(data, tableOffset, count));
      Some(Values(data, TableRefs(data, tableOffset, count)))
    else None
  }

  lemma DecodedIs(data: bytes, tableOffset: u32, values: seq<bytes>)
    requires |data| < TWO_32 && ReadsAs(data, tableOffset, values)
    ensures Decoded(data, tableOffset, |values|) == Some(values)
  {
    var refs := TableRefs(data, tableOffset, |values|);
    TiledInBase(data, tableOffset + 8 * |values|, refs);
    hide TableRefs, Tiles, LastEnds;
    var vs := Values(data, refs);
    forall i | 0 <= i < |values| ensures vs[i] == values[i] {
    }
    assert vs == values;
  }

  // ---- terminal capabilities ----

  ghost function DecodedCapabilities(data: bytes): Option<seq<bytes>>
    requires |data| < TWO_32
  {
    if |data| < 4 then None else Decoded(data, 4, Get32(data, 0))
  }

  /** UICCTerminalCapabilityResponse.UnmarshalBinary. */
  method UnmarshalTerminalCapability(data: bytes) returns (r: Option<seq<bytes>>)
    requires |data| < TWO_32
    ensures r == DecodedCapabilities(data)
  {
    if |data| < 4 { return None; }
    var capabilityCount := Get32(data, 0);
    var refs := OffsetSizeRefs(data, 4, capabilityCount);
    if refs == None { return None; }
    TiledInBase(data, 4 + 8 * capabilityCount, refs.value);
    var capabilities: seq<bytes> := [];
    for i := 0 to |refs.value|
      invariant |capabilities| == i
      invariant forall j :: 0 <= j < i ==> capabilities[j] == ValueOf(refs.value[j], data)
    {
      capabilities := capabilities + [ValueOf(refs.value[i], data)];
    }
    assert capabilities == Values(data, refs.value);
    return Some(capabilities);
  }

  lemma CountRead(n: nat, data: bytes, header: bytes)
    requires n < TWO_32 && |data| >= 4 && header == LE32(n) && data[..4] == header
    ensures Get32(data, 0) == n
  {
    assert data[0..4] == data[..4];
    Get32AfterLE32(n, data, 0);
  }

  /** What terminalCapabilityData writes, its own decoder reads back, empty capabilities
      included. */
  lemma TerminalCapabilityRoundTrip(capabilities: seq<bytes>)
    requires |Layout(LE32(|capabilities|), capabilities, false)| < TWO_32
    ensures DecodedCapabilities(Layout(LE32(|capabilities|), capabilities, false)) == Some(capabilities)
  {
    var header := LE32(|capabilities|);
    var data := Layout(header, capabilities, false);
    LayoutReadsBack(header, capabilities, false);
    LayoutParts(header, capabilities, false);
    assert |capabilities| < TWO_32;
    hide Layout, Table, Refs, Body, Decoded, LE32, Get32;
    CountRead(|capabilities|, data, header);
    DecodedIs(data, 4, capabilities);
  }

  // ---- slot mappings ----

  function SlotValues(slots: seq<u32>): (vs: seq<bytes>)
    ensures |vs| == |slots| && forall i :: 0 <= i < |vs| ==> vs[i] == LE32(slots[i])
  {
    seq(|slots|, i requires 0 <= i < |slots| => LE32(slots[i]))
  }

  /** Values of four octets need no padding. */
  lemma {:induction false} FixedBody(at: nat, values: seq<bytes>)
    requires at % 4 == 0 && forall i :: 0 <= i < |values| ==> |values[i]| == 4
    ensures |Body(at, values)| == 4 * |values|
    decreases |values|
  {
    if values != [] {
      assert Padding(at + 4) == 0;
      FixedBody(at + 4, values[1..]);
    }
  }

  lemma SlotSnoc(done: seq<u32>, slot: u32)
    ensures SlotValues(done + [slot]) == SlotValues(done) + [LE32(slot)]
  {
    hide LE32;
  }

  lemma SlotRef(at: nat, n: nat, x: bytes)
    requires at + 4 * n < TWO_32 && |x| == 4
    ensures RefTo(at + 4 * n, x, false) == Ref(at + 4 * n, 4)
  {
  }

  lemma SlotTableStep(at: nat, done: seq<u32>, slot: u32)
    requires at % 4 == 0 && at + 4 * |done| < TWO_32
    ensures Table(Refs(at, SlotValues(done + [slot]), false)) ==
            Table(Refs(at, SlotValues(done), false)) + RefOctets(Ref(at + 4 * |done|, 4))
  {
    var vs, x := SlotValues(done), LE32(slot);
    SlotSnoc(done, slot);
    FixedBody(at, vs);
    SlotRef(at, |done|, x);
    hide SlotValues, Body, Table, LE32;
    RefsSnoc(at, vs, x, false);
    TableSnoc(Refs(at, vs, false), Ref(at + 4 * |done|, 4));
    hide Refs, RefOctets, RefTo;
  }

  lemma FixedCell(at: nat, x: bytes)
    requires at % 4 == 0 && |x| == 4
    ensures Cell(at, x) == x
  {
    assert Padding(at + 4) == 0;
  }

  lemma SlotBodyStep(at: nat, done: seq<u32>, slot: u32)
    requires at % 4 == 0
    ensures Body(at, SlotValues(done + [slot])) == Body(at, SlotValues(done)) + LE32(slot)
  {
    var vs, x := SlotValues(done), LE32(slot);
    SlotSnoc(done, slot);
    FixedBody(at, vs);
    hide SlotValues, Body, LE32;
    FixedCell(at + |Body(at, vs)|, x);
    BodySnoc(at, vs, x);
    hide Cell;
  }

  method AppendSlotTable(data: bytes, dataOffset: u32, slots: seq<u32>) returns (r: bytes)
    requires dataOffset % 4 == 0 && dataOffset + 4 * |slots| < TWO_32
    ensures r == data + Table(Refs(dataOffset, SlotValues(slots), false))
  {
    r := data;
    ghost var done: seq<u32> := [];
    assert SlotValues([]) == [];
    hide SlotValues, RefOctets, LE32;
    for i := 0 to |slots|
      invariant |done| == i && done <= slots && r == data + Table(Refs(dataOffset, SlotValues(done), false))
    {
      SlotTableStep(dataOffset, done, slots[i]);
      hide Table, Refs;
      var offset: u32 := dataOffset + i * 4;
      Assoc(data, Table(Refs(dataOffset, SlotValues(done), false)), RefOctets(Ref(offset, 4)));
      r := r + RefOctets(Ref(offset, 4));
      done := done + [slots[i]];
    }
    assert done == slots;
  }

  method AppendSlots(data: bytes, slots: seq<u32>) returns (r: bytes)
    requires |data| % 4 == 0
    ensures r == data + Body(|data|, SlotValues(slots))
  {
    r := data;
    ghost var done: seq<u32> := [];
    assert SlotValues([]) == [];
    hide SlotValues, LE32;
    for i := 0 to |slots|
      invariant |done| == i && done <= slots && r == data + Body(|data|, SlotValues(done))
    {
      SlotBodyStep(|data|, done, slots[i]);
      hide Body;
      Assoc(data, Body(|data|, SlotValues(done)), LE32(slots[i]));
      r := r + LE32(slots[i]);
      done := done + [slots[i]];
    }
    assert done == slots;
  }

  /** The payload of DeviceSlotMappingsSetRequest: the offsets are computed in uint32
      from the index, the slots appended afterwards. */
  method SlotMappingsData(slots: seq<u32>) returns (data: bytes)
    requires 4 + 12 * |slots| < TWO_32
    ensures data == Layout(LE32(|slots|), SlotValues(slots), false)
  {
    var mapCount: u32 := |slots|;
    data := LE32(mapCount);
    hide SlotValues, LE32;
    if mapCount > 0 {
      var dataOffset: u32 := 4 + mapCount * 8;
      Mod4(4, mapCount);
      data := AppendSlotTable(data, dataOffset, slots);
      hide Refs, Table;
      data := AppendSlots(data, slots);
    } else {
      assert SlotValues(slots) == [];
    }
  }

  ghost predicate FourEach(values: seq<bytes>) {
    forall i :: 0 <= i < |values| ==> |values[i]| == 4
  }

  function SlotsOf(values: seq<bytes>): (slots: seq<u32>)
    requires FourEach(values)
    ensures |slots| == |values|
  {
    seq(|values|, i requires 0 <= i < |values| => Get32(values[i], 0))
  }

  ghost function DecodedSlots(data: bytes): Option<seq<u32>>
    requires |data| < TWO_32
  {
    match DecodedCapabilities(data)
    case Some(values) => if FourEach(values) then Some(SlotsOf(values)) else None
    case None => None
  }

  /** DeviceSlotMappingsResponse.UnmarshalBinary. */
  method UnmarshalSlotMappings(data: bytes) returns (r: Option<seq<u32>>)
    requires |data| < TWO_32
    ensures r == DecodedSlots(data)
  {
    if |data| < 4 { return None; }
    var mapCount := Get32(data, 0);
    var refs := OffsetSizeRefs(data, 4, mapCount);
    if refs == None { return None; }
    TiledInBase(data, 4 + 8 * mapCount, refs.value);
    assert DecodedCapabilities(data) == Some(Values(data, refs.value));
    hide DecodedCapabilities, TableRefs, Accepted;
    r := SlotsAt(data, refs.value);
  }

  /** The decoder's loop over accepted references. */
  method SlotsAt(data: bytes, refs: seq<Ref>) returns (r: Option<seq<u32>>)
    requires |data| < TWO_32 && forall i :: 0 <= i < |refs| ==> InBase(refs[i], data)
    ensures var values := Values(data, refs); r == if FourEach(values) then Some(SlotsOf(values)) else None
  {
    ghost var values := Values(data, refs);
    hide Get32, InBase;
    var mappings: seq<u32> := [];
    for i := 0 to |refs|
      invariant |mappings| == i
      invariant forall j :: 0 <= j < i ==> |values[j]| == 4 && mappings[j] == Get32(values[j], 0)
    {
      assert values[i] == ValueOf(refs[i], data);
      if refs[i].size != 4 {
        assert |values[i]| != 4;
        return None;
      }
      mappings := mappings + [Get32(ValueOf(refs[i], data), 0)];
    }
    assert mappings == SlotsOf(values);
    return Some(mappings);
  }

  lemma SlotsRead(slots: seq<u32>, i: nat)
    requires i < |slots|
    ensures Get32(LE32(slots[i]), 0) == slots[i]
  {
    var x := LE32(slots[i]);
    assert x[0..4] == x;
    hide LE32, Get32;
    Get32AfterLE32(slots[i], x, 0);
  }

  lemma SlotLayoutLength(slots: seq<u32>)
    ensures |Layout(LE32(|slots|), SlotValues(slots), false)| == 4 + 12 * |slots|
  {
    hide LE32, Layout;
    Mod4(4, |slots|);
    FixedBody(4 + 8 * |slots|, SlotValues(slots));
    hide SlotValues;
    LayoutLength(LE32(|slots|), SlotValues(slots), false);
  }

  lemma SlotMappingsRoundTrip(slots: seq<u32>)
    requires 4 + 12 * |slots| < TWO_32
    ensures |Layout(LE32(|slots|), SlotValues(slots), false)| < TWO_32
    ensures DecodedSlots(Layout(LE32(|slots|), SlotValues(slots), false)) == Some(slots)
  {
    var values := SlotValues(slots);
    SlotLayoutLength(slots);
    hide Layout, DecodedCapabilities, LE32, Get32;
    TerminalCapabilityRoundTrip(values);
    forall i | 0 <= i < |slots| ensures Get32(values[i], 0) == slots[i] {
      SlotsRead(slots, i);
    }
    assert SlotsOf(values) == slots;
  }

  // ---- connect strings ----

  /** The fixed part of a connect request before the string references are filled in. */
  function ConnectHead(session: u32, activation: u32): (h: bytes)
    ensures |h| == 60 && Blank(h, 3)
  {
    LE32(session) + LE32(activation) + Zeros(52)
  }

  /** connectSetDataV1: the references are computed before the strings are appended. */
  method ConnectSetData(
      session: u32, activation: u32, compression: u32, auth: u32, ipType: u32, contextType: bytes,
      accessString: bytes, userName: bytes, password: bytes) returns (data: bytes)
    requires |contextType| == 16
    ensures var values := [accessString, userName, password];
      data == LE32(session) + LE32(activation) + Table(Refs(60, values, true))
            + (LE32(compression) + LE32(auth) + LE32(ipType) + contextType) + Body(60, values)
  {
    var values := [accessString, userName, password];
    data := Zeros(60);
    data := Put32(data, 0, session);
    data := Put32(data, 4, activation);
    ConnectStart(session, activation);
    data := WriteConnectStringRefs(data, 60, values);
    ghost var t := Table(Refs(60, values, true));
    ConnectRefs(session, activation, Refs(60, values, true));
    hide Table, Refs, Body, LE32, Put32;
    data := Put32(data, 32, compression);
    data := Put32(data, 36, auth);
    data := Put32(data, 40, ipType);
    data := data[..44] + contextType;
    ConnectFields(LE32(session) + LE32(activation) + t, compression, auth, ipType, contextType);
    data := AppendConnectStrings(data, values);
  }

  lemma ConnectStart(session: u32, activation: u32)
    ensures Put32(Put32(Zeros(60), 0, session), 4, activation) == ConnectHead(session, activation)
  {
    hide LE32;
  }

  lemma ConnectRefs(session: u32, activation: u32, rs: seq<Ref>)
    requires |rs| == 3
    ensures Patched(ConnectHead(session, activation), rs) == LE32(session) + LE32(activation) + Table(rs) + Zeros(28)
  {
    hide LE32, Table;
    var h := ConnectHead(session, activation);
    assert h[..8] == LE32(session) + LE32(activation);
    assert h[32..] == Zeros(28);
  }

  lemma ConnectFields(head: bytes, compression: u32, auth: u32, ipType: u32, contextType: bytes)
    requires |head| == 32 && |contextType| == 16
    ensures var d := Put32(Put32(Put32(head + Zeros(28), 32, compression), 36, auth), 40, ipType);
      d[..44] + contextType == head + (LE32(compression) + LE32(auth) + LE32(ipType) + contextType)
  {
    hide LE32;
  }

  /** The three references of a connect request select exactly the strings behind it, and
      no octet of the payload lies outside the fixed part and the strings' cells. */
  lemma ConnectStringsSelected(head: bytes, fields: bytes, values: seq<bytes>, data: bytes)
    requires |head| == 8 && |fields| == 28 && |values| == 3
    requires data == head + Table(Refs(60, values, true)) + fields + Body(60, values) && |data| < TWO_32
    ensures var rs := TableRefs(data, 8, 3);
      && Tiles(data, 60, rs) && LastEnds(60, Nonempty(rs)).padded == |data|
      && forall i :: 0 <= i < 3 ==> InBase(rs[i], data) && ValueOf(rs[i], data) == values[i]
  {
    hide Table, Refs, Body, TableRefs, Tiles, LastEnds, InBase, ValueOf;
    ConnectParts(head, Table(Refs(60, values, true)), fields, Body(60, values));
    ConnectSelected(data, values);
  }

  lemma ConnectSelected(data: bytes, values: seq<bytes>)
    requires |values| == 3 && 60 <= |data| < TWO_32
    requires data[8..32] == Table(Refs(60, values, true)) && data[60..] == Body(60, values)
    ensures var rs := TableRefs(data, 8, 3);
      && Tiles(data, 60, rs) && LastEnds(60, Nonempty(rs)).padded == |data|
      && forall i :: 0 <= i < 3 ==> InBase(rs[i], data) && ValueOf(rs[i], data) == values[i]
  {
    hide Table, Refs, Body, TableRefs, Tiles, LastEnds, InBase, ValueOf;
    TableRead(data, 8, Refs(60, values, true));
    ListReadBack(data, 60, values, true);
  }

  lemma ConnectParts(head: bytes, t: bytes, fields: bytes, b: bytes)
    requires |head| == 8 && |t| == 24 && |fields| == 28
    ensures var data := head + t + fields + b; data[8..32] == t && data[60..] == b
  {
    assert (head + t)[8..32] == t;
    assert (head + t + fields)[8..32] == (head + t)[8..32];
  }
}
