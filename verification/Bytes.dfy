/** Octets and the little-endian integers of encoding/binary, shared by every codec. */
module Bytes {

  type byte = x: int | 0 <= x < 256

  type bytes = seq<byte>

  type u16 = x: int | 0 <= x < TWO_16

  type u32 = x: int | 0 <= x < TWO_32

  const TWO_16: int := 0x1_0000
  const TWO_32: int := 0x1_0000_0000

  /** The MBIM extension versions that change a layout. */
  const VERSION_30: u16 := 0x0300
  const VERSION_40: u16 := 0x0400

  function Min(a: nat, b: nat): nat { if a <= b then a else b }

  datatype Option<+T> = None | Some(value: T)

  /** The four octets of uint32(n): the conversion keeps n modulo 2^32. */
  function LE32(n: int): (s: bytes)
    ensures |s| == 4
  {
    var m := n % TWO_32;
    [m % 256, m / 256 % 256, m / 256 / 256 % 256, m / 256 / 256 / 256]
  }

  function LE16(n: int): (s: bytes)
    ensures |s| == 2
  {
    var m := n % TWO_16;
    [m % 256, m / 256]
  }

  function Get16(s: bytes, at: nat): (n: int)
    requires at + 2 <= |s|
    ensures 0 <= n < TWO_16
  {
    (s[at] as int) + 256 * (s[at + 1] as int)
  }

  function Join32(a: byte, b: byte, c: byte, d: byte): (n: int)
    ensures 0 <= n < TWO_32
  {
    (a as int) + 256 * ((b as int) + 256 * ((c as int) + 256 * (d as int)))
  }

  function Get32(s: bytes, at: nat): (n: int)
    requires at + 4 <= |s|
    ensures 0 <= n < TWO_32
  {
    Join32(s[at], s[at + 1], s[at + 2], s[at + 3])
  }

  /** Stores uint32(n) over the four octets at position at. */
  function Put32(s: bytes, at: nat, n: int): (r: bytes)
    requires at + 4 <= |s|
    ensures |r| == |s|
    ensures r[at..at + 4] == LE32(n)
    ensures r[..at] == s[..at] && r[at + 4..] == s[at + 4..]
  {
    s[..at] + LE32(n) + s[at + 4..]
  }

  function Zeros(n: nat): (s: bytes)
    ensures |s| == n && forall i :: 0 <= i < n ==> s[i] == 0
  {
    seq(n, _ => 0)
  }

  /** Number of zero octets that bring length n to a multiple of four. */
  function Padding(n: nat): (p: nat)
    ensures p < 4
  {
    (4 - n % 4) % 4
  }

  function Align4(n: nat): (m: nat)
    ensures m == n + Padding(n)
  {
    (n + 3) / 4 * 4
  }

  lemma PaddingAligns(n: nat)
    ensures (n + Padding(n)) % 4 == 0
  {
  }

  function Concat(parts: seq<bytes>): bytes
  {
    if parts == [] then [] else parts[0] + Concat(parts[1..])
  }

  lemma Get32AfterLE32(n: int, s: bytes, at: nat)
    requires at + 4 <= |s| && s[at..at + 4] == LE32(n)
    ensures Get32(s, at) == n % TWO_32
  {
    var m := n % TWO_32;
    var t := LE32(n);
    var u := s[at..at + 4];
    assert u[0] == s[at] && u[1] == s[at + 1] && u[2] == s[at + 2] && u[3] == s[at + 3];
  }

  lemma DivMod256(low: byte, high: int)
    ensures ((low as int) + 256 * high) % 256 == low && ((low as int) + 256 * high) / 256 == high
  {
  }

  lemma SplitJoin32(a: byte, b: byte, c: byte, d: byte)
    ensures LE32(Join32(a, b, c, d)) == [a, b, c, d]
  {
    var y := (c as int) + 256 * (d as int);
    var x := (b as int) + 256 * y;
    DivMod256(c, d);
    DivMod256(b, y);
    DivMod256(a, x);
  }

  lemma LE32AfterGet32(s: bytes, at: nat)
    requires at + 4 <= |s|
    ensures LE32(Get32(s, at)) == s[at..at + 4]
  {
    SplitJoin32(s[at], s[at + 1], s[at + 2], s[at + 3]);
    assert s[at..at + 4] == [s[at], s[at + 1], s[at + 2], s[at + 3]];
  }

  lemma Get16AfterLE16(n: int, s: bytes, at: nat)
    requires at + 2 <= |s| && s[at..at + 2] == LE16(n)
    ensures Get16(s, at) == n % TWO_16
  {
    assert s[at] == s[at..at + 2][0] && s[at + 1] == s[at..at + 2][1];
  }

  lemma LE16AfterGet16(s: bytes, at: nat)
    requires at + 2 <= |s|
    ensures LE16(Get16(s, at)) == s[at..at + 2]
  {
  }

  lemma Assoc(a: bytes, b: bytes, c: bytes)
    ensures (a + b) + c == a + (b + c)
  {
  }

  lemma {:induction false} ConcatAppend(a: seq<bytes>, b: seq<bytes>)
    ensures Concat(a + b) == Concat(a) + Concat(b)
  {
    if a == [] {
      assert a + b == b;
    } else {
      var c := a + b;
      assert c[0] == a[0] && c[1..] == a[1..] + b;
      ConcatAppend(a[1..], b);
      Assoc(a[0], Concat(a[1..]), Concat(b));
    }
  }

  lemma ConcatSnoc(a: seq<bytes>, x: bytes)
    ensures Concat(a + [x]) == Concat(a) + x
  {
    ConcatAppend(a, [x]);
    assert [x][1..] == [];
  }

  lemma SubSlice(data: bytes, a: nat, b: nat, c: nat, d: nat)
    requires a <= b <= |data| && c <= d <= b - a
    ensures data[a..b][c..d] == data[a + c..a + d]
  {
    var s := data[a..b];
    assert forall k :: c <= k < d ==> s[k] == data[a + k];
    var u, v := s[c..d], data[a + c..a + d];
    forall k | 0 <= k < d - c ensures u[k] == v[k] {
      assert u[k] == s[c + k];
    }
  }
}
