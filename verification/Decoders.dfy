/** What a payload looks like that a table decoder accepts: nothing is read from outside
    the payload, nothing in it is left over, and the values are where it says. */
module Decoders {
  import opened Bytes
  import opened Wire
  import W = WireRefs
  import Tables
  import Utf16
  import F = PacketFilters
  import P = Providers

  /** The octets a reference in the payload selects. */
  ghost predicate Selects(data: bytes, offset: int, size: int, x: bytes) {
    0 <= offset && 0 <= size && offset + size <= |data| && x == data[offset..offset + size]
  }

  lemma ValueSelected(r: Ref, data: bytes)
    requires |data| < TWO_32 && W.InBase(r, data)
    ensures Selects(data, r.offset, r.size, W.ValueOf(r, data))
  {
  }

  /** From start on the payload is these values in order and nothing else: each begins at a
      multiple of four, and at most three octets of padding follow it. */
  ghost predicate Filled(data: bytes, start: int, refs: seq<Ref>) {
    var rs := W.Nonempty(refs);
    && 0 <= start <= |data| && W.Inside(data, rs) && data[start..] == W.CellsOf(data, rs)
    && forall j :: 0 <= j < |rs| ==> rs[j].offset % 4 == 0
  }

  lemma TilesFill(data: bytes, start: u32, refs: seq<Ref>)
    requires |data| < TWO_32 && W.Tiles(data, start, refs)
    requires var e := W.LastEnds(start, W.Nonempty(refs)); |data| == e.payload || |data| == e.padded
    ensures Filled(data, start, refs)
  {
    W.AcceptedIsCells(data, start, refs);
    W.NonemptyValid(data, start, refs);
    var rs := W.Nonempty(refs);
    forall j | 0 <= j < |rs| ensures rs[j].offset % 4 == 0 {
      assert W.ValidateDataBuffer(rs[j], data, start);
    }
    hide W.CellsOf, W.Nonempty, W.Inside;
  }

  /** A decoded table: as many values as it counts, each selected by its own reference, and
      together filling the payload behind the table. */
  lemma TableIsRead(data: bytes, tableOffset: u32, count: u32)
    requires |data| < TWO_32 && Tables.Decoded(data, tableOffset, count).Some?
    ensures var values := Tables.Decoded(data, tableOffset, count).value;
      && |values| == count && tableOffset + 8 * count <= |data|
      && (forall i :: 0 <= i < count ==>
            Selects(data, Get32(data, tableOffset + 8 * i), Get32(data, tableOffset + 8 * i + 4), values[i]))
      && Filled(data, tableOffset + 8 * count, W.TableRefs(data, tableOffset, count))
  {
    hide Get32, Filled, W.Tiles, W.LastEnds, Selects, W.TableRefs, W.Nonempty;
    TableFills(data, tableOffset, count);
    hide W.Accepted;
    forall i | 0 <= i < count
      ensures Selects(data, Get32(data, tableOffset + 8 * i), Get32(data, tableOffset + 8 * i + 4), Tables.Decoded(data, tableOffset, count).value[i])
    {
      EachSelected(data, tableOffset, count, i);
    }
  }

  lemma TableFills(data: bytes, tableOffset: u32, count: u32)
    requires |data| < TWO_32 && W.Accepted(data, tableOffset, count)
    ensures Filled(data, tableOffset + 8 * count, W.TableRefs(data, tableOffset, count))
  {
    hide Filled, W.Tiles, W.LastEnds, W.TableRefs, W.Nonempty;
    TilesFill(data, tableOffset + 8 * count, W.TableRefs(data, tableOffset, count));
  }

  lemma EachSelected(data: bytes, tableOffset: u32, count: u32, i: nat)
    requires |data| < TWO_32 && Tables.Decoded(data, tableOffset, count).Some? && i < count
    ensures tableOffset + 8 * count <= |data| && |Tables.Decoded(data, tableOffset, count).value| == count
    ensures Selects(data, Get32(data, tableOffset + 8 * i), Get32(data, tableOffset + 8 * i + 4), Tables.Decoded(data, tableOffset, count).value[i])
  {
    var refs := W.TableRefs(data, tableOffset, count);
    W.TiledInBase(data, tableOffset + 8 * count, refs);
    assert refs[i] == Ref(Get32(data, tableOffset + 8 * i), Get32(data, tableOffset + 8 * i + 4));
    hide Get32, W.Tiles, W.LastEnds, Selects, W.InBase, W.ValueOf, W.TableRefs, W.Nonempty;
    ValueSelected(refs[i], data);
  }

  /** Terminal capabilities and slot mappings: the count is the first field and the table
      follows it; slots are tables of four-octet values. */
  lemma CapabilitiesAreRead(data: bytes)
    requires |data| < TWO_32 && Tables.DecodedCapabilities(data).Some?
    ensures |data| >= 4 && Tables.Decoded(data, 4, Get32(data, 0)) == Tables.DecodedCapabilities(data)
    ensures Tables.DecodedSlots(data).Some? <==> forall i :: 0 <= i < |Tables.DecodedCapabilities(data).value| ==> |Tables.DecodedCapabilities(data).value[i]| == 4
    ensures Tables.DecodedSlots(data).Some? ==>
      var values, slots := Tables.DecodedCapabilities(data).value, Tables.DecodedSlots(data).value;
      |slots| == |values| && forall i :: 0 <= i < |values| ==> LE32(slots[i]) == values[i]
  {
    var values := Tables.DecodedCapabilities(data).value;
    hide Tables.Decoded;
    if Tables.FourEach(values) {
      forall i | 0 <= i < |values| ensures LE32(Tables.SlotsOf(values)[i]) == values[i] {
        LE32AfterGet32(values[i], 0);
        assert values[i][0..4] == values[i];
      }
    }
  }

  // ---- packet filters ----

  /** An accepted record: filter and mask are both as long as the size says and lie where
      their offsets say, the identifier is read from version 3.0 on, and nothing else is in
      the record. */
  lemma FilterIsRead(version: nat, record: bytes)
    requires |record| < TWO_32 && F.DecodeRecord(version, record).Some?
    ensures var f, fixed := F.DecodeRecord(version, record).value, if version >= 0x300 then 16 else 12;
      && |record| >= fixed
      && Selects(record, Get32(record, 4), Get32(record, 0), f.filter) && Selects(record, Get32(record, 8), Get32(record, 0), f.mask)
      && f.id == (if version >= 0x300 then Get32(record, 12) else 0)
      && Filled(record, fixed, [Ref(Get32(record, 4), Get32(record, 0)), Ref(Get32(record, 8), Get32(record, 0))])
  {
    F.RecordInBase(version, record);
    hide Get32, Filled, W.Tiles, W.LastEnds, W.InBase, W.ValueOf, Selects, W.Nonempty;
    ValueSelected(F.FilterRef(record), record);
    ValueSelected(F.MaskRef(record), record);
    TilesFill(record, F.Fixed(version), [F.FilterRef(record), F.MaskRef(record)]);
  }

  lemma {:induction false} EachRecord(version: nat, records: seq<bytes>, i: nat)
    requires F.DecodeRecords(version, records).Some? && i < |records|
    ensures |F.DecodeRecords(version, records).value| == |records| && |records[i]| < TWO_32
    ensures F.DecodeRecord(version, records[i]) == Some(F.DecodeRecords(version, records).value[i])
    decreases |records|
  {
    hide F.DecodeRecord;
    var rest := records[1..];
    if i > 0 {
      EachRecord(version, rest, i - 1);
    } else if rest != [] {
      EachRecord(version, rest, 0);
    } else {
      assert F.DecodeRecords(version, []) == Some([]);
    }
  }

  /** Accepted filters: the session first, then a table of accepted records in order, with
      masks as long as their filters and, from version 3.0 on, distinct identifiers. */
  lemma FiltersAreRead(version: nat, data: bytes)
    requires |data| < TWO_32 && F.DecodeFilters(version, data).Some?
    ensures |data| >= 8 && Tables.Decoded(data, 8, Get32(data, 4)).Some?
    ensures var (session, fs) := F.DecodeFilters(version, data).value;
      var records := Tables.Decoded(data, 8, Get32(data, 4)).value;
      && session == Get32(data, 0) && |fs| == |records| == Get32(data, 4)
      && (forall i :: 0 <= i < |fs| ==> |records[i]| < TWO_32 && F.DecodeRecord(version, records[i]) == Some(fs[i]))
      && (forall i :: 0 <= i < |fs| ==> |fs[i].mask| == |fs[i].filter|)
      && (version >= 0x300 ==> forall i, j :: 0 <= i < j < |fs| ==> fs[i].id != fs[j].id)
  {
    var records := Tables.Decoded(data, 8, Get32(data, 4)).value;
    TableIsRead(data, 8, Get32(data, 4));
    hide Get32, Tables.Decoded, F.DecodeRecord, Filled, Selects;
    var fs := F.DecodeRecords(version, records).value;
    if records != [] { EachRecord(version, records, 0); }
    hide F.DecodeRecords;
    forall i | 0 <= i < |records| ensures |records[i]| < TWO_32 && F.DecodeRecord(version, records[i]) == Some(fs[i]) {
      EachRecord(version, records, i);
    }
  }

  // ---- providers ----

  /** An accepted record: the two texts are decoded from where their references say, the
      other fields are read from their places, the provider is valid, and the strings fill
      the record up to its end, in a list perhaps without the last padding. */
  lemma ProviderIsRead(nested: bool, data: bytes)
    requires |data| < TWO_32 && P.DecodeProvider(nested, data).Some?
    ensures var p := P.DecodeProvider(nested, data).value;
      && |data| >= 32 && P.ValidProvider(p)
      && (exists id :: Selects(data, Get32(data, 0), Get32(data, 4), id) && Utf16.Decode(id) == Some(p.id) && |id| <= 12)
      && (exists name :: Selects(data, Get32(data, 12), Get32(data, 16), name) && Utf16.Decode(name) == Some(p.name) && |name| <= 40)
      && p.state == Get32(data, 8) && p.cellularClass == Get32(data, 20) && p.rssi == Get32(data, 24) && p.errorRate == Get32(data, 28)
      && Filled(data, 32, [Ref(Get32(data, 0), Get32(data, 4)), Ref(Get32(data, 12), Get32(data, 16))])
      && (!nested ==> |data| % 4 == 0)
  {
    P.RefsInBase(nested, data);
    hide Get32, Filled, W.InBase, W.ValueOf, Selects, Utf16.Decode, P.ValidProvider, W.Tiles, W.Nonempty, P.Utf16Refs;
    var r, t := P.IDRef(data), P.NameRef(data);
    TextSelected(r, data);
    TextSelected(t, data);
    TilesFill(data, 32, [r, t]);
    if !nested { PaddedEnd(32, W.Nonempty([r, t])); }
  }

  lemma PaddedEnd(start: nat, rs: seq<Ref>)
    requires start % 4 == 0
    ensures W.LastEnds(start, rs).padded % 4 == 0
  {
  }

  lemma TextSelected(r: Ref, data: bytes)
    requires |data| < TWO_32 && W.InBase(r, data) && P.TextOf(r, data).Some?
    ensures exists x :: Selects(data, r.offset, r.size, x) && Utf16.Decode(x) == Some(P.TextOf(r, data).value) && |x| == r.size
  {
    ValueSelected(r, data);
    var x := W.ValueOf(r, data);
    assert |x| == 0 ==> x == [];
    assert Utf16.Decode([]) == Some([]);
  }

  lemma {:induction false} EachProvider(records: seq<bytes>, i: nat)
    requires P.DecodeRecords(records).Some? && i < |records|
    ensures |P.DecodeRecords(records).value| == |records| && |records[i]| < TWO_32
    ensures P.DecodeProvider(true, records[i]) == Some(P.DecodeRecords(records).value[i])
    decreases |records|
  {
    hide P.DecodeProvider;
    var rest := records[1..];
    if i > 0 {
      EachProvider(rest, i - 1);
    } else if rest != [] {
      EachProvider(rest, 0);
    } else {
      assert P.DecodeRecords([]) == Some([]);
    }
  }

  /** Accepted providers: the count, then a table of accepted records in order. */
  lemma ProvidersAreRead(data: bytes)
    requires |data| < TWO_32 && P.DecodeProviders(data).Some?
    ensures |data| >= 4 && Tables.Decoded(data, 4, Get32(data, 0)).Some?
    ensures var ps, records := P.DecodeProviders(data).value, Tables.Decoded(data, 4, Get32(data, 0)).value;
      && |ps| == |records| == Get32(data, 0)
      && forall i :: 0 <= i < |ps| ==> |records[i]| < TWO_32 && P.DecodeProvider(true, records[i]) == Some(ps[i])
  {
    var records := Tables.Decoded(data, 4, Get32(data, 0)).value;
    TableIsRead(data, 4, Get32(data, 0));
    hide Get32, Tables.Decoded, P.DecodeProvider, Filled, Selects;
    var ps := P.DecodeRecords(records).value;
    if records != [] { EachProvider(records, 0); }
    hide P.DecodeRecords;
    forall i | 0 <= i < |records| ensures |records[i]| < TWO_32 && P.DecodeProvider(true, records[i]) == Some(ps[i]) {
      EachProvider(records, i);
    }
  }
}
