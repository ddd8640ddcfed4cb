/** Local-area data networks: a name and its tracking-area lists, one entry after the
    other, with nothing that delimits the lists of one entry from the next entry. */
module Ladn {
  import opened Bytes
  import opened Codec
  import T = Tlv
  import Tai
  import Utf16

  const MIN_DNN := 3
  const MAX_DNN := 102
  const TYPE_WCHAR_STRING: u16 := 10

  /** The name is octets in the version 3 layout, Unicode text in the version 4 layout. */
  datatype LADN<Name> = LADN(dnn: Name, lists: seq<Tai.TAIList>)

  // ---- the run of tracking-area lists behind a name ----

  /** What may follow an entry: the end, or an octet that is no list type. */
  predicate Ends(rest: bytes) { rest == [] || rest[0] > 2 }

  /** The loop of unmarshalLADNPrefix. */
  function Lists(b: bytes): Option<Taken<seq<Tai.TAIList>>>
    decreases |b|
  {
    if Ends(b) then Some(Taken([], 0))
    else
      match Tai.Decode(b)
      case None => None
      case Some(t) =>
        if t.used == 0 || t.used > |b| then None
        else Joined([t.value], t.used, Lists(b[t.used..]))
  }

  /** Lists found already, and what the octets behind them hold. */
  function Joined(ls: seq<Tai.TAIList>, used: nat, r: Option<Taken<seq<Tai.TAIList>>>): Option<Taken<seq<Tai.TAIList>>> {
    match r
    case None => None
    case Some(u) => Some(Taken(ls + u.value, used + u.used))
  }

  lemma {:induction false} ListsEncoded(ls: seq<Tai.TAIList>, rest: bytes)
    requires AllValid(Tai.ValidList, ls) && Ends(rest)
    ensures Lists(EncodeAll(Tai.Encode, ls) + rest) == Some(Taken(ls, |EncodeAll(Tai.Encode, ls)|))
    decreases |ls|
  {
    hide Tai.Encode, Tai.Decode, Tai.ValidList;
    if ls == [] {
      assert [] + rest == rest;
    } else {
      var x, tail := Tai.Encode(ls[0]), EncodeAll(Tai.Encode, ls[1..]);
      var b := x + tail + rest;
      ListsEncoded(ls[1..], rest);
      Assoc(x, tail, rest);
      Tai.DecodeEncoded(ls[0], tail + rest);
      assert b[|x|..] == tail + rest;
      TypeOf(ls[0]);
      assert [ls[0]] + ls[1..] == ls;
    }
  }

  lemma TypeOf(l: Tai.TAIList)
    requires Tai.ValidList(l)
    ensures Tai.Encode(l) != [] && Tai.Encode(l)[0] <= 2
  {
  }

  lemma {:induction false} ListsDecoded(b: bytes)
    requires Lists(b).Some?
    ensures var u := Lists(b).value;
      u.used <= |b| && AllValid(Tai.ValidList, u.value) && b[..u.used] == EncodeAll(Tai.Encode, u.value) && Ends(b[u.used..])
    decreases |b|
  {
    hide Tai.Encode, Tai.Decode, Tai.ValidList;
    if !Ends(b) {
      Tai.EncodeDecoded(b);
      var t := Tai.Decode(b).value;
      var rest := b[t.used..];
      ListsDecoded(rest);
      var u := Lists(rest).value;
      assert b[..t.used + u.used] == b[..t.used] + rest[..u.used];
      assert b[t.used + u.used..] == rest[u.used..];
      assert ([t.value] + u.value)[1..] == u.value;
    } else {
      assert b[0..] == b;
    }
  }

  // ---- version 3 layout ----

  type Name3 = bytes

  predicate Valid3(l: LADN<Name3>) {
    MIN_DNN <= |l.dnn| <= MAX_DNN && l.lists != [] && AllValid(Tai.ValidList, l.lists)
  }

  function Encode3(l: LADN<Name3>): bytes {
    [|l.dnn| % 256] + l.dnn + EncodeAll(Tai.Encode, l.lists)
  }

  function Decode3(b: bytes): Option<Taken<LADN<Name3>>> {
    if |b| < 1 || b[0] < MIN_DNN || b[0] > MAX_DNN || |b| < b[0] as nat + 1 then None
    else
      match Lists(b[b[0] as nat + 1..])
      case None => None
      case Some(u) =>
        if u.value == [] then None else Some(Taken(LADN(b[1..b[0] as nat + 1], u.value), b[0] as nat + 1 + u.used))
  }

  lemma Parts3(n: byte, dnn: bytes, e: bytes, rest: bytes)
    requires n as nat == |dnn|
    ensures var b := [n] + dnn + e + rest; b[0] == n && b[1..|dnn| + 1] == dnn && b[|dnn| + 1..] == e + rest
  {
    var b := [n] + dnn + e + rest;
    assert b[1..|dnn| + 1] == dnn;
    assert b[|dnn| + 1..] == e + rest;
  }

  lemma Decode3Encoded(l: LADN<Name3>, rest: bytes)
    requires Valid3(l) && Ends(rest)
    ensures Decode3(Encode3(l) + rest) == Some(Taken(l, |Encode3(l)|))
  {
    var n, e := |l.dnn|, EncodeAll(Tai.Encode, l.lists);
    hide Lists, EncodeAll, Ends, Tai.Encode, Tai.ValidList;
    assert n % 256 == n;
    Parts3(n, l.dnn, e, rest);
    ListsEncoded(l.lists, rest);
  }

  lemma Join3(b: bytes, n: nat, k: nat)
    requires n + 1 + k <= |b|
    ensures b[..n + 1 + k] == [b[0]] + b[1..n + 1] + b[n + 1..][..k]
  {
    assert b[n + 1..][..k] == b[n + 1..n + 1 + k];
  }

  lemma Write3(b: bytes, n: nat, ls: seq<Tai.TAIList>)
    requires 0 < |b| && n == b[0] as nat < |b|
    ensures Encode3(LADN(b[1..n + 1], ls)) == [b[0]] + b[1..n + 1] + EncodeAll(Tai.Encode, ls)
  {
    hide EncodeAll;
    assert n % 256 == n;
  }

  lemma Encode3Decoded(b: bytes)
    requires Decode3(b).Some?
    ensures var t := Decode3(b).value; Valid3(t.value) && 0 < t.used <= |b| && b[..t.used] == Encode3(t.value)
  {
    hide Lists, EncodeAll, Ends, Encode3, Tai.Encode, Tai.ValidList;
    var n, t := b[0] as nat, Decode3(b).value;
    var tail := b[n + 1..];
    ListsDecoded(tail);
    var u := Lists(tail).value;
    assert t == Taken(LADN(b[1..n + 1], u.value), n + 1 + u.used) && MIN_DNN <= n <= MAX_DNN && u.value != [];
    hide Decode3;
    assert |tail| == |b| - n - 1;
    Join3(b, n, u.used);
    Write3(b, n, u.value);
  }

  lemma Codec3()
    ensures Reads(Encode3, Decode3, Valid3, Ends) && Exact(Encode3, Decode3, Valid3) && Progress(Decode3)
  {
    hide Encode3, Decode3, Valid3;
    forall l: LADN<Name3>, rest: bytes | Valid3(l) && Ends(rest)
      ensures Decode3(Encode3(l) + rest) == Some(Taken(l, |Encode3(l)|))
    {
      Decode3Encoded(l, rest);
    }
    forall b: bytes | Decode3(b).Some?
      ensures var t := Decode3(b).value; Valid3(t.value) && 0 < t.used <= |b| && b[..t.used] == Encode3(t.value)
    {
      Encode3Decoded(b);
    }
    forall l: LADN<Name3>, rest: bytes | Valid3(l) ensures Ends(Encode3(l) + rest) && Encode3(l) != [] {
      Starts3(l, rest);
    }
    hide Encode3, Decode3, Valid3;
  }

  /** An entry starts with an octet of at least three, which is no list type. */
  lemma Starts3(l: LADN<Name3>, rest: bytes)
    requires Valid3(l)
    ensures Ends(Encode3(l) + rest) && Encode3(l) != []
  {
    var b := Encode3(l) + rest;
    hide EncodeAll;
    assert b[0] == |l.dnn|;
  }

  /** Version 3 lists are uniquely decodable, and every accepted string is the encoding of
      what it decodes to. */
  lemma LADNList3Bijection(ls: seq<LADN<Name3>>, b: bytes)
    ensures AllValid(Valid3, ls) && EncodeAll(Encode3, ls) == b <==> DecodeAll(Decode3, b) == Some(ls)
  {
    Codec3();
    Bijection(Encode3, Decode3, Valid3, Ends, ls, b);
  }

  // ---- version 4 layout ----

  type Name4 = seq<Utf16.Scalar>

  predicate Valid4(l: LADN<Name4>) {
    |Utf16.Encode(l.dnn)| < TWO_32 && l.lists != [] && AllValid(Tai.ValidList, l.lists)
  }

  function NameRecord(dnn: Name4): T.TLV { T.TLV(TYPE_WCHAR_STRING, Utf16.Encode(dnn)) }

  function Encode4(l: LADN<Name4>): bytes {
    T.Encode(NameRecord(l.dnn)) + EncodeAll(Tai.Encode, l.lists)
  }

  function Decode4(b: bytes): Option<Taken<LADN<Name4>>> {
    match T.Decode(b)
    case None => None
    case Some(t) =>
      if t.value.typ != TYPE_WCHAR_STRING || t.used > |b| then None
      else
        match Utf16.Decode(t.value.data)
        case None => None
        case Some(dnn) =>
          match Lists(b[t.used..])
          case None => None
          case Some(u) => if u.value == [] then None else Some(Taken(LADN(dnn, u.value), t.used + u.used))
  }

  lemma Decode4Encoded(l: LADN<Name4>, rest: bytes)
    requires Valid4(l) && Ends(rest)
    ensures Decode4(Encode4(l) + rest) == Some(Taken(l, |Encode4(l)|))
  {
    var e, x := EncodeAll(Tai.Encode, l.lists), T.Encode(NameRecord(l.dnn));
    var b := Encode4(l) + rest;
    hide Lists, EncodeAll, Ends, T.Encode, T.Decode, Utf16.Encode, Utf16.Decode;
    ListsEncoded(l.lists, rest);
    Assoc(x, e, rest);
    T.DecodeEncoded(NameRecord(l.dnn), e + rest);
    Utf16.RoundTrip(l.dnn);
    assert b[|x|..] == e + rest;
  }

  lemma RecordStart(t: T.TLV, rest: bytes)
    requires t.typ == TYPE_WCHAR_STRING
    ensures T.Encode(t) + rest != [] && (T.Encode(t) + rest)[0] == 10
  {
    hide LE32, Padding;
    assert LE16(10)[0] == 10;
  }

  lemma Codec4()
    ensures Reads(Encode4, Decode4, Valid4, Ends)
  {
    forall l: LADN<Name4>, rest: bytes | Valid4(l) && Ends(rest)
      ensures Decode4(Encode4(l) + rest) == Some(Taken(l, |Encode4(l)|))
    {
      Decode4Encoded(l, rest);
    }
    forall l: LADN<Name4>, rest: bytes | Valid4(l) ensures Ends(Encode4(l) + rest) && Encode4(l) != [] {
      RecordStart(NameRecord(l.dnn), EncodeAll(Tai.Encode, l.lists) + rest);
      RecordStart(NameRecord(l.dnn), EncodeAll(Tai.Encode, l.lists));
      Assoc(T.Encode(NameRecord(l.dnn)), EncodeAll(Tai.Encode, l.lists), rest);
    }
    hide Encode4, Decode4, Valid4;
  }

  /** Version 4 lists are uniquely decodable. */
  lemma LADNList4RoundTrip(ls: seq<LADN<Name4>>)
    requires AllValid(Valid4, ls)
    ensures DecodeAll(Decode4, EncodeAll(Encode4, ls)) == Some(ls)
  {
    Codec4();
    ListRoundTrip(Encode4, Decode4, Valid4, Ends, ls);
  }

  /** An accepted version 4 entry is the encoding of its value exactly when its name was
      well-formed UTF-16. */
  lemma Encode4DecodedIff(b: bytes)
    requires Decode4(b).Some?
    ensures var t := Decode4(b).value;
      && Valid4Lists(t.value) && 0 < t.used <= |b| && |T.Decode(b).value.value.data| % 2 == 0
      && (b[..t.used] == Encode4(t.value) <==> Utf16.WellFormed(Utf16.UnitsAt(T.Decode(b).value.value.data)))
  {
    hide Lists, EncodeAll, Ends, T.Decode, T.Encode, Utf16.Encode, Utf16.WellFormed, Utf16.UnitsAt, Tai.ValidList;
    T.EncodeDecoded(b);
    var t := T.Decode(b).value;
    var tail := b[t.used..];
    ListsDecoded(tail);
    var u, dnn := Lists(tail).value, Utf16.Decode(t.value.data).value;
    Utf16.ExactIff(t.value.data);
    assert b[..t.used + u.used] == b[..t.used] + tail[..u.used];
    if b[..t.used + u.used] == T.Encode(NameRecord(dnn)) + tail[..u.used] {
      SameRecords(t.value.data, Utf16.Encode(dnn), tail[..u.used]);
    }
  }

  /** An accepted entry and its re-encoding are equally long. */
  lemma Entry4Length(b: bytes)
    requires Decode4(b).Some?
    ensures var t := Decode4(b).value; 0 < t.used <= |b| && |Encode4(t.value)| == t.used
  {
    hide Lists, EncodeAll, Ends, T.Decode, T.Encode, Utf16.EncodeUnits, Utf16.DecodeUnits, Tai.ValidList;
    T.EncodeDecoded(b);
    var t := T.Decode(b).value;
    var tail := b[t.used..];
    ListsDecoded(tail);
    Utf16.SameLength(Utf16.UnitsAt(t.value.data));
  }

  /** Every name in an accepted list is well-formed UTF-16. */
  ghost predicate NamesWellFormed(b: bytes)
    decreases |b|
  {
    b == [] || Decode4(b) == None || (
      && NameWellFormed(b)
      && (0 < Decode4(b).value.used <= |b| ==> NamesWellFormed(b[Decode4(b).value.used..])))
  }

  ghost predicate NameWellFormed(b: bytes)
    requires Decode4(b).Some?
  {
    Utf16.WellFormed(Utf16.UnitsAt(T.Decode(b).value.value.data))
  }

  /** An accepted version 4 list is re-encoded unchanged exactly when every name in it is
      well-formed. */
  lemma {:induction false} LADNList4ExactIff(b: bytes)
    requires DecodeAll(Decode4, b).Some?
    ensures EncodeAll(Encode4, DecodeAll(Decode4, b).value) == b <==> NamesWellFormed(b)
    decreases |b|
  {
    hide Decode4, Encode4;
    if b != [] {
      var t := Decode4(b).value;
      var rest := b[t.used..];
      var xs := DecodeAll(Decode4, rest).value;
      LADNList4ExactIff(rest);
      Entry4Exact(b);
      var x, y := Encode4(t.value), EncodeAll(Encode4, xs);
      assert ([t.value] + xs)[1..] == xs;
      assert b == b[..t.used] + rest;
      SameParts(x, y, b[..t.used], rest);
    }
  }

  lemma Entry4Exact(b: bytes)
    requires Decode4(b).Some?
    ensures var t := Decode4(b).value;
      0 < t.used <= |b| && |Encode4(t.value)| == t.used && (b[..t.used] == Encode4(t.value) <==> NameWellFormed(b))
  {
    hide Decode4, Encode4;
    Entry4Length(b);
    Encode4DecodedIff(b);
  }

  lemma SameParts(a: bytes, b: bytes, c: bytes, d: bytes)
    requires |a| == |c|
    ensures a + b == c + d <==> a == c && b == d
  {
    if a + b == c + d {
      assert a == (a + b)[..|a|] && b == (a + b)[|a|..] && c == (c + d)[..|c|] && d == (c + d)[|c|..];
    }
  }

  const SAMPLE: Tai.TAIList := Tai.TAIList(0, Tai.PLMN(1, 1), [1], [])

  /** A name of one high surrogate, and a list behind it. */
  function UnpairedEntry(): bytes {
    T.Encode(T.TLV(TYPE_WCHAR_STRING, Utf16.Octets([0xD800]))) + EncodeAll(Tai.Encode, [SAMPLE])
  }

  lemma SampleIsValid()
    ensures Tai.ValidList(SAMPLE) && AllValid(Tai.ValidList, [SAMPLE])
  {
    assert Tai.Decimal(1, 3) by {
      assert Tai.Decimal(0, 2) by { assert Tai.Decimal(0, 1); }
    }
  }

  lemma UnpairedName()
    ensures var raw := Utf16.Octets([0xD800]);
      |raw| == 2 && Utf16.UnitsAt(raw) == [0xD800] && !Utf16.WellFormed(Utf16.UnitsAt(raw)) && Utf16.Decode(raw) == Some([0xFFFD])
  {
    Utf16.OctetsRoundTrip([0xD800]);
    var us: seq<u16> := [0xD800];
    assert us[1..] == [] && Utf16.DecodeUnits([]) == [];
    var one: seq<Utf16.Scalar> := [0xFFFD];
    assert Utf16.DecodeUnits(us) == [Utf16.REPLACEMENT] + [] == one;
    var raw := Utf16.Octets(us);
    assert Utf16.Decode(raw) == Some(Utf16.DecodeUnits(Utf16.UnitsAt(raw)));
  }

  /** The failing side is real: an accepted entry whose name is an unpaired surrogate
      decodes to U+FFFD and does not encode back to itself. */
  lemma UnpairedNameChanges()
    ensures var b := UnpairedEntry();
      && Decode4(b) == Some(Taken(LADN([0xFFFD], [SAMPLE]), |b|))
      && Encode4(Decode4(b).value.value) != b
  {
    var raw, b := Utf16.Octets([0xD800]), UnpairedEntry();
    UnpairedName();
    hide T.Encode, T.Decode, Utf16.Decode, Utf16.Octets, Utf16.UnitsAt, Utf16.WellFormed, Decode4, Encode4, EncodeAll;
    NamedSample(raw, [0xFFFD]);
    Encode4DecodedIff(b);
    assert b[..|b|] == b;
  }

  /** An entry of a name and the sample list decodes to the text of the name. */
  lemma NamedSample(raw: bytes, text: Name4)
    requires |raw| < TWO_32 && Utf16.Decode(raw) == Some(text)
    ensures var t := T.TLV(TYPE_WCHAR_STRING, raw);
      var b := T.Encode(t) + EncodeAll(Tai.Encode, [SAMPLE]);
      Decode4(b) == Some(Taken(LADN(text, [SAMPLE]), |b|)) && T.Decode(b).Some? && T.Decode(b).value.value == t
  {
    var t, tail := T.TLV(TYPE_WCHAR_STRING, raw), EncodeAll(Tai.Encode, [SAMPLE]);
    var b := T.Encode(t) + tail;
    SampleIsValid();
    hide Tai.ValidList, Tai.Encode, T.Encode, T.Decode, Utf16.Decode, Lists, EncodeAll, Ends;
    T.DecodeEncoded(t, tail);
    EndsAtEnd();
    ListsEncoded([SAMPLE], []);
    assert tail + [] == tail;
    assert b[|T.Encode(t)|..] == tail;
  }

  lemma EndsAtEnd()
    ensures Ends([])
  {
  }

  predicate Valid4Lists(l: LADN<Name4>) { l.lists != [] && AllValid(Tai.ValidList, l.lists) }

  /** Records that agree, whatever follows them, hold the same data. */
  lemma SameRecords(x: bytes, y: bytes, rest: bytes)
    requires T.Encode(T.TLV(TYPE_WCHAR_STRING, x)) + rest == T.Encode(T.TLV(TYPE_WCHAR_STRING, y)) + rest
    ensures x == y
  {
    var s, t := T.TLV(TYPE_WCHAR_STRING, x), T.TLV(TYPE_WCHAR_STRING, y);
    var b := T.Encode(s) + rest;
    T.EncodedParts(s, rest);
    T.EncodedParts(t, rest);
    PaddingOctet(b, TYPE_WCHAR_STRING, |x|);
    PaddingOctet(b, TYPE_WCHAR_STRING, |y|);
    assert |T.Encode(s)| == |T.Encode(t)|;
  }

  lemma PaddingOctet(b: bytes, typ: u16, n: nat)
    requires |b| >= 8 && b[..8] == T.Header(typ, n)
    ensures b[3] == Padding(n)
  {
    hide LE16, LE32, Padding;
    assert b[..8][3] == b[3];
  }

  // ---- the record and its version ----

  const TYPE_LADN: u16 := 8

  /** The entries, in the layout the negotiated version selects. */
  datatype Entries = V3(entries3: seq<LADN<Name3>>) | V4(entries4: seq<LADN<Name4>>)

  /** networkParametersVersion. */
  function Negotiated(version: u16): u16 { if version == 0 then VERSION_30 else version }

  function NewLADNTLV(values: Entries, version: u16): Option<T.TLV> {
    if Negotiated(version) < VERSION_30 then None
    else
      match values
      case V3(ls) =>
        if Negotiated(version) >= VERSION_40 || ls == [] || !AllValid(Valid3, ls) then None
        else Some(T.TLV(TYPE_LADN, EncodeAll(Encode3, ls)))
      case V4(ls) =>
        if Negotiated(version) < VERSION_40 || ls == [] || !AllValid(Valid4, ls) then None
        else Some(T.TLV(TYPE_LADN, EncodeAll(Encode4, ls)))
  }

  function UnmarshalTLV(tlv: T.TLV, version: u16): Option<Entries> {
    if Negotiated(version) < VERSION_30 || tlv.typ != TYPE_LADN || tlv.data == [] then None
    else if Negotiated(version) < VERSION_40 then
      match DecodeAll(Decode3, tlv.data)
      case None => None
      case Some(ls) => Some(V3(ls))
    else
      match DecodeAll(Decode4, tlv.data)
      case None => None
      case Some(ls) => Some(V4(ls))
  }

  lemma EncodedNonempty3(ls: seq<LADN<Name3>>)
    requires ls != []
    ensures EncodeAll(Encode3, ls) != []
  {
    assert |Encode3(ls[0])| > 0;
  }

  lemma EncodedNonempty4(ls: seq<LADN<Name4>>)
    requires ls != []
    ensures EncodeAll(Encode4, ls) != []
  {
    assert |Encode4(ls[0])| > 0;
  }

  /** Under every version, what can be encoded is decoded to itself. */
  lemma RecordRoundTrip(values: Entries, version: u16)
    requires NewLADNTLV(values, version).Some?
    ensures UnmarshalTLV(NewLADNTLV(values, version).value, version) == Some(values)
  {
    hide Encode3, Decode3, Encode4, Decode4, Valid3, Valid4, EncodeAll, DecodeAll;
    match values
    case V3(ls) =>
      EncodedNonempty3(ls);
      LADNList3Bijection(ls, EncodeAll(Encode3, ls));
    case V4(ls) =>
      EncodedNonempty4(ls);
      LADNList4RoundTrip(ls);
  }

  /** Before version 4, every accepted record is what its entries encode to. */
  lemma RecordExact(tlv: T.TLV, version: u16)
    requires Negotiated(version) < VERSION_40 && UnmarshalTLV(tlv, version).Some?
    ensures NewLADNTLV(UnmarshalTLV(tlv, version).value, version) == Some(tlv)
  {
    var ls := UnmarshalTLV(tlv, version).value.entries3;
    LADNList3Bijection(ls, tlv.data);
    assert EncodeAll(Encode3, []) == [];
    hide Encode3, Decode3, Valid3, DecodeAll;
  }

  // ---- the loops ----

  /** The loop of unmarshalLADNPrefix over the lists that start at offset. */
  method UnmarshalLists(data: bytes, start: nat) returns (r: Option<Taken<seq<Tai.TAIList>>>)
    requires start <= |data|
    ensures r == Lists(data[start..])
  {
    hide Tai.Decode, Tai.ValidList, Tai.Encode, Joined, Lists;
    var lists: seq<Tai.TAIList> := [];
    var offset := start;
    ghost var goal := Lists(data[start..]);
    OntoNothingTaken(goal);
    while offset < |data| && data[offset] <= 2
      invariant start <= offset <= |data|
      invariant Joined(lists, offset - start, Lists(data[offset..])) == goal
      decreases |data| - offset
    {
      var rest := data[offset..];
      var t := Tai.Decode(rest);
      if t == None {
        ListsStuck(rest);
        NothingJoined(lists, offset - start);
        return None;
      }
      Tai.EncodeDecoded(rest);
      JoinedStep(lists, offset - start, rest);
      assert rest[t.value.used..] == data[offset + t.value.used..];
      lists := lists + [t.value.value];
      offset := offset + t.value.used;
    }
    ListsEnd(data[offset..]);
    NothingJoined(lists, offset - start);
    return Some(Taken(lists, offset - start));
  }

  lemma ListsStuck(b: bytes)
    requires !Ends(b) && Tai.Decode(b) == None
    ensures Lists(b) == None
  {
  }

  lemma ListsEnd(b: bytes)
    requires Ends(b)
    ensures Lists(b) == Some(Taken([], 0))
  {
  }

  lemma NothingJoined(ls: seq<Tai.TAIList>, used: nat)
    ensures Joined(ls, used, None) == None && Joined(ls, used, Some(Taken([], 0))) == Some(Taken(ls, used))
  {
    assert ls + [] == ls;
  }

  lemma OntoNothingTaken(r: Option<Taken<seq<Tai.TAIList>>>)
    ensures Joined([], 0, r) == r
  {
    if r.Some? { assert [] + r.value.value == r.value.value; }
  }

  lemma JoinedTwice(ls: seq<Tai.TAIList>, used: nat, x: Tai.TAIList, n: nat, r: Option<Taken<seq<Tai.TAIList>>>)
    ensures Joined(ls, used, Joined([x], n, r)) == Joined(ls + [x], used + n, r)
  {
    if r.Some? { assert ls + ([x] + r.value.value) == (ls + [x]) + r.value.value; }
  }

  lemma JoinedStep(ls: seq<Tai.TAIList>, used: nat, b: bytes)
    requires !Ends(b) && Tai.Decode(b).Some? && 0 < Tai.Decode(b).value.used <= |b|
    ensures var t := Tai.Decode(b).value;
      Joined(ls, used, Lists(b)) == Joined(ls + [t.value], used + t.used, Lists(b[t.used..]))
  {
    hide Tai.Decode, Joined;
    var t := Tai.Decode(b).value;
    JoinedTwice(ls, used, t.value, t.used, Lists(b[t.used..]));
  }

  method UnmarshalLADNPrefix3(data: bytes) returns (r: Option<Taken<LADN<Name3>>>)
    ensures r == Decode3(data)
  {
    if |data| < 1 { return None; }
    var length: nat := data[0];
    if length < MIN_DNN || length > MAX_DNN { return None; }
    if |data| < length + 1 { return None; }
    var lists := UnmarshalLists(data, length + 1);
    hide Lists;
    if lists == None || lists.value.value == [] { return None; }
    return Some(Taken(LADN(data[1..length + 1], lists.value.value), length + 1 + lists.value.used));
  }

  method UnmarshalLADNPrefix4(data: bytes) returns (r: Option<Taken<LADN<Name4>>>)
    ensures r == Decode4(data)
  {
    hide T.Decode, T.Encode, Utf16.Decode, Lists;
    var dnnTLV := T.UnmarshalTLVPrefix(data);
    if dnnTLV == None { return None; }
    T.EncodeDecoded(data);
    if dnnTLV.value.value.typ != TYPE_WCHAR_STRING { return None; }
    var dnn := Utf16.Utf16RawString(dnnTLV.value.value.data);
    if dnn == None { return None; }
    var lists := UnmarshalLists(data, dnnTLV.value.used);
    if lists == None || lists.value.value == [] { return None; }
    return Some(Taken(LADN(dnn.value, lists.value.value), dnnTLV.value.used + lists.value.used));
  }
}
