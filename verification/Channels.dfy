/** Buffered Go channels as values, with the history of what went through them. */
module Channels {
  import opened Bytes

  type ChanId = nat

  /** A client lease; None stands for a client that holds the connection itself. */
  type LeaseId = nat
  type Owner = Option<LeaseId>

  datatype Error =
    | LeaseClosed
    | ClientClosed
    | ConnNil
    | AlreadyPending
    | UnsupportedRequest
    | ReceiverStopped
    | Cancelled
    | Failure(code: int)

  /** sent lists every value ever put in, taken every value a receiver got; the
      values of sent that are in neither taken nor buf were discarded. */
  datatype Chan<T> = Chan(capacity: nat, buf: seq<T>, closed: bool, sent: seq<T>, taken: seq<T>)

  function Make<T>(capacity: nat): Chan<T> {
    Chan(capacity, [], false, [], [])
  }

  /** A send can go ahead now: the channel is open and its buffer has room. */
  predicate CanSend<T>(c: Chan<T>) {
    !c.closed && |c.buf| < c.capacity
  }

  function Send<T>(c: Chan<T>, v: T): Chan<T>
    requires CanSend(c)
  {
    c.(buf := c.buf + [v], sent := c.sent + [v])
  }

  function Take<T>(c: Chan<T>): Chan<T>
    requires c.buf != []
  {
    c.(buf := c.buf[1..], taken := c.taken + [c.buf[0]])
  }

  function Drop<T>(c: Chan<T>): Chan<T> {
    if c.buf == [] then c else c.(buf := c.buf[1..])
  }

  function Close<T>(c: Chan<T>): Chan<T> {
    c.(closed := true)
  }

  lemma {:induction false} LeastBelow(s: set<nat>, a: nat)
    requires a in s
    ensures exists x :: x in s && forall y :: y in s ==> x <= y
    decreases a
  {
    if b: nat :| b in s && b < a { LeastBelow(s, b); }
  }

  lemma HasLeast(s: set<nat>)
    requires s != {}
    ensures exists x :: x in s && forall y :: y in s ==> x <= y
  {
    var a: nat :| a in s;
    LeastBelow(s, a);
  }

  function Least(s: set<nat>): (m: nat)
    requires s != {}
    ensures m in s
  {
    HasLeast(s);
    var m :| m in s && forall y :: y in s ==> m <= y;
    m
  }

  /** The map that takes each of the numbers to the same value. */
  function Fill<T>(s: set<nat>, d: T): (m: map<nat, T>)
    ensures m.Keys == s && forall c :: c in s ==> m[c] == d
  {
    if s == {} then map[] else var c := Least(s); Fill(s - {c}, d)[c := d]
  }

  /** n receives in a row, as far as the buffer goes. */
  function TakeMany<T>(c: Chan<T>, n: nat): Chan<T>
    decreases n
  {
    if n == 0 || c.buf == [] then c else TakeMany(Take(c), n - 1)
  }

  /** a is b with some elements left out. */
  ghost predicate Subsequence<T(!new)>(a: seq<T>, b: seq<T>) {
    a == [] || (b != [] && (Subsequence(a, b[..|b| - 1])
                            || (a[|a| - 1] == b[|b| - 1] && Subsequence(a[..|a| - 1], b[..|b| - 1]))))
  }

  ghost predicate SuffixOf<T>(a: seq<T>, b: seq<T>) {
    |a| <= |b| && b[|b| - |a|..] == a
  }

  /** A channel whose oldest values may have been discarded: the buffer is the tail
      of what was sent, and nothing was received out of order or twice. */
  ghost predicate DropOldest<T(!new)>(c: Chan<T>) {
    && 1 <= c.capacity && |c.buf| <= c.capacity
    && SuffixOf(c.buf, c.sent)
    && Subsequence(c.taken + c.buf, c.sent)
  }

  lemma {:induction false} SubsequenceRefl<T(!new)>(a: seq<T>)
    ensures Subsequence(a, a)
  {
    if a != [] {
      SubsequenceRefl(a[..|a| - 1]);
    }
  }

  lemma SubsequenceSnoc<T(!new)>(a: seq<T>, b: seq<T>, v: T)
    requires Subsequence(a, b)
    ensures Subsequence(a + [v], b + [v])
  {
    assert (a + [v])[..|a|] == a && (b + [v])[..|b|] == b;
  }

  lemma {:induction false} SubsequenceDrop<T(!new)>(a: seq<T>, x: T, b: seq<T>, s: seq<T>)
    requires Subsequence(a + [x] + b, s)
    ensures Subsequence(a + b, s)
    decreases s
  {
    var l := a + [x] + b;
    var t := s[..|s| - 1];
    if Subsequence(l, t) {
      SubsequenceDrop(a, x, b, t);
    } else if b == [] {
      assert l[..|l| - 1] == a && a + b == a;
    } else {
      var c := b[..|b| - 1];
      assert l[..|l| - 1] == a + [x] + c;
      SubsequenceDrop(a, x, c, t);
      assert (a + b)[..|a + b| - 1] == a + c;
    }
  }

  lemma SendKeeps<T(!new)>(c: Chan<T>, v: T)
    requires DropOldest(c) && CanSend(c)
    ensures DropOldest(Send(c, v))
  {
    SubsequenceSnoc(c.taken + c.buf, c.sent, v);
    assert c.taken + (c.buf + [v]) == c.taken + c.buf + [v];
    assert SuffixOf(c.buf + [v], c.sent + [v]);
  }

  lemma TakeKeeps<T(!new)>(c: Chan<T>)
    requires DropOldest(c) && c.buf != []
    ensures DropOldest(Take(c))
    ensures Take(c).taken + Take(c).buf == c.taken + c.buf
  {
    assert c.taken + [c.buf[0]] + c.buf[1..] == c.taken + c.buf;
  }

  lemma DropKeeps<T(!new)>(c: Chan<T>)
    requires DropOldest(c)
    ensures DropOldest(Drop(c)) && |Drop(c).buf| < c.capacity
  {
    if c.buf != [] {
      assert c.taken + [c.buf[0]] + c.buf[1..] == c.taken + c.buf;
      SubsequenceDrop(c.taken, c.buf[0], c.buf[1..], c.sent);
    }
  }

  lemma {:induction false} TakeManyKeeps<T(!new)>(c: Chan<T>, n: nat)
    requires DropOldest(c)
    ensures DropOldest(TakeMany(c, n)) && |TakeMany(c, n).buf| <= |c.buf|
    ensures TakeMany(c, n).taken + TakeMany(c, n).buf == c.taken + c.buf
    ensures TakeMany(c, n) == c.(buf := TakeMany(c, n).buf, taken := TakeMany(c, n).taken)
    decreases n
  {
    if n != 0 && c.buf != [] {
      TakeKeeps(c);
      TakeManyKeeps(Take(c), n - 1);
    }
  }
}
