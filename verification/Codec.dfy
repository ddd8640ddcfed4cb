/** Codecs whose values are encoded one after the other with nothing in between: a
    decoder takes a value off the front and says how many octets it used. */
module Codec {
  import opened Bytes

  datatype Taken<+T> = Taken(value: T, used: nat)

  type Decoder<!T> = bytes -> Option<Taken<T>>
  type Encoder<!T> = T -> bytes

  /** Every decode strictly consumes input. */
  ghost predicate Progress<T(!new)>(dec: Decoder<T>) {
    forall b {:trigger dec(b)} :: dec(b).Some? ==> 0 < dec(b).value.used <= |b|
  }

  /** Decoding what was encoded, whatever admissible octets follow, gives the value back;
      what may follow includes the end and any further encoding. */
  ghost predicate Reads<T(!new)>(enc: Encoder<T>, dec: Decoder<T>, valid: T -> bool, follow: bytes -> bool) {
    && follow([])
    && (forall x, rest :: valid(x) ==> follow(enc(x) + rest))
    && (forall x {:trigger enc(x)} :: valid(x) ==> enc(x) != [])
    && (forall x, rest :: valid(x) && follow(rest) ==> dec(enc(x) + rest) == Some(Taken(x, |enc(x)|)))
  }

  /** Whatever is decoded is valid and is the encoding of its value. */
  ghost predicate Exact<T(!new)>(enc: Encoder<T>, dec: Decoder<T>, valid: T -> bool) {
    forall b {:trigger dec(b)} :: dec(b).Some? ==>
      valid(dec(b).value.value) && dec(b).value.used <= |b| && b[..dec(b).value.used] == enc(dec(b).value.value)
  }

  /** Nothing restricts what follows a self-delimiting encoding. */
  predicate Anything(rest: bytes) { true }

  function EncodeAll<T>(enc: Encoder<T>, xs: seq<T>): bytes {
    if xs == [] then [] else enc(xs[0]) + EncodeAll(enc, xs[1..])
  }

  function DecodeAll<T>(dec: Decoder<T>, b: bytes): Option<seq<T>>
    decreases |b|
  {
    if b == [] then Some([])
    else
      match dec(b)
      case None => None
      case Some(t) =>
        if t.used == 0 || t.used > |b| then None
        else
          match DecodeAll(dec, b[t.used..])
          case None => None
          case Some(xs) => Some([t.value] + xs)
  }

  predicate AllValid<T>(valid: T -> bool, xs: seq<T>) {
    forall i :: 0 <= i < |xs| ==> valid(xs[i])
  }

  lemma ReadsOne<T(!new)>(enc: Encoder<T>, dec: Decoder<T>, valid: T -> bool, follow: bytes -> bool, x: T, rest: bytes)
    requires Reads(enc, dec, valid, follow) && valid(x) && follow(rest)
    ensures dec(enc(x) + rest) == Some(Taken(x, |enc(x)|)) && enc(x) != [] && follow(enc(x) + rest) && follow([])
  {
  }

  /** A list of valid values survives the round trip. */
  lemma {:induction false} ListRoundTrip<T(!new)>(
      enc: Encoder<T>, dec: Decoder<T>, valid: T -> bool, follow: bytes -> bool, xs: seq<T>)
    requires Reads(enc, dec, valid, follow) && AllValid(valid, xs)
    ensures DecodeAll(dec, EncodeAll(enc, xs)) == Some(xs) && follow(EncodeAll(enc, xs))
    decreases |xs|
  {
    assert follow([]);
    hide Reads;
    if xs != [] {
      var x, rest := xs[0], EncodeAll(enc, xs[1..]);
      ListRoundTrip(enc, dec, valid, follow, xs[1..]);
      var b := enc(x) + rest;
      ReadsOne(enc, dec, valid, follow, x, rest);
      assert b[|enc(x)|..] == rest;
      assert [x] + xs[1..] == xs;
    }
  }

  /** An accepted string is the encoding of the list of valid values it decodes to. */
  lemma {:induction false} ListExact<T(!new)>(enc: Encoder<T>, dec: Decoder<T>, valid: T -> bool, b: bytes)
    requires Exact(enc, dec, valid) && DecodeAll(dec, b).Some?
    ensures AllValid(valid, DecodeAll(dec, b).value) && EncodeAll(enc, DecodeAll(dec, b).value) == b
    decreases |b|
  {
    if b != [] {
      var t := dec(b).value;
      ListExact(enc, dec, valid, b[t.used..]);
      assert b == b[..t.used] + b[t.used..];
      var xs := DecodeAll(dec, b[t.used..]).value;
      assert ([t.value] + xs)[1..] == xs;
    }
  }

  /** Both directions at once: encoding and decoding are inverse bijections between the
      lists of valid values and the accepted strings. */
  lemma Bijection<T(!new)>(
      enc: Encoder<T>, dec: Decoder<T>, valid: T -> bool, follow: bytes -> bool, xs: seq<T>, b: bytes)
    requires Reads(enc, dec, valid, follow) && Exact(enc, dec, valid)
    ensures AllValid(valid, xs) && EncodeAll(enc, xs) == b <==> DecodeAll(dec, b) == Some(xs)
  {
    if AllValid(valid, xs) { ListRoundTrip(enc, dec, valid, follow, xs); }
    if DecodeAll(dec, b) == Some(xs) { ListExact(enc, dec, valid, b); }
  }

  /** What the rest of a loop over a shrinking slice adds to the values found so far. */
  function Onto<T>(xs: seq<T>, r: Option<seq<T>>): Option<seq<T>> {
    match r
    case None => None
    case Some(ys) => Some(xs + ys)
  }

  lemma OntoNothing<T>(xs: seq<T>, r: Option<seq<T>>)
    ensures Onto([], r) == r && Onto(xs, Some([])) == Some(xs)
  {
    if r.Some? { assert [] + r.value == r.value; }
    assert xs + [] == xs;
  }

  lemma OntoStep<T>(dec: Decoder<T>, xs: seq<T>, b: bytes)
    requires b != [] && dec(b).Some? && 0 < dec(b).value.used <= |b|
    ensures Onto(xs, DecodeAll(dec, b)) == Onto(xs + [dec(b).value.value], DecodeAll(dec, b[dec(b).value.used..]))
  {
    var t := dec(b).value;
    var r := DecodeAll(dec, b[t.used..]);
    if r.Some? { assert xs + ([t.value] + r.value) == (xs + [t.value]) + r.value; }
  }

  /** The loop the list decoders share: take values off the front until nothing is left. */
  method UnmarshalAll<T(!new)>(dec: Decoder<T>, data: bytes) returns (r: Option<seq<T>>)
    requires Progress(dec)
    ensures r == DecodeAll(dec, data)
  {
    var values: seq<T> := [];
    var rest := data;
    OntoNothing(values, DecodeAll(dec, data));
    while |rest| > 0
      invariant Onto(values, DecodeAll(dec, rest)) == DecodeAll(dec, data)
      decreases |rest|
    {
      var t := dec(rest);
      if t == None { return None; }
      OntoStep(dec, values, rest);
      values := values + [t.value.value];
      rest := rest[t.value.used..];
    }
    OntoNothing(values, None);
    return Some(values);
  }

  /** One round of a loop that appends the encodings of a list. */
  lemma EncodeAllStep<T>(enc: Encoder<T>, xs: seq<T>, i: nat, data: bytes)
    requires i < |xs|
    ensures data + EncodeAll(enc, xs[i..]) == (data + enc(xs[i])) + EncodeAll(enc, xs[i + 1..])
  {
    var rest := xs[i..];
    assert rest[0] == xs[i] && rest[1..] == xs[i + 1..];
    Assoc(data, enc(xs[i]), EncodeAll(enc, xs[i + 1..]));
  }
}
