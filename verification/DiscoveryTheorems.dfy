/** What a watcher that replays the events sees. */
module DiscoveryTheorems {
  import opened Bytes
  import opened Discovery
  import Q = UeventQueue

  function Step(view: Snapshot, e: Event): Snapshot {
    match e
    case Removed(d) => view - {Key(d)}
    case Present(d) => view[Key(d) := d]
    case Added(d) => view[Key(d) := d]
    case Changed(d) => view[Key(d) := d]
  }

  /** Removed names a device that is there, Added one that is not, Changed one that is. */
  predicate LegalStep(view: Snapshot, e: Event) {
    match e
    case Removed(d) => Key(d) in view && view[Key(d)] == d
    case Added(d) => Key(d) !in view
    case Changed(d) => Key(d) in view && view[Key(d)] != d
    case Present(_) => true
  }

  function Replay(view: Snapshot, es: seq<Event>): Snapshot {
    if es == [] then view else Step(Replay(view, es[..|es| - 1]), es[|es| - 1])
  }

  ghost predicate Legal(view: Snapshot, es: seq<Event>) {
    es == [] || (Legal(view, es[..|es| - 1]) && LegalStep(Replay(view, es[..|es| - 1]), es[|es| - 1]))
  }

  lemma {:induction false} ReplayAppend(view: Snapshot, a: seq<Event>, b: seq<Event>)
    ensures Replay(view, a + b) == Replay(Replay(view, a), b)
    ensures Legal(view, a + b) <==> Legal(view, a) && Legal(Replay(view, a), b)
    decreases |b|
  {
    if b == [] {
      assert a + b == a;
    } else {
      var c := a + b;
      assert c[..|c| - 1] == a + b[..|b| - 1] && c[|c| - 1] == b[|b| - 1];
      ReplayAppend(view, a, b[..|b| - 1]);
    }
  }

  lemma ReplayOne(view: Snapshot, e: Event)
    ensures Replay(view, [e]) == Step(view, e) && (Legal(view, [e]) <==> LegalStep(view, e))
  {
    assert [e][..0] == [];
  }

  lemma ReplayTwo(view: Snapshot, e: Event, f: Event)
    ensures Replay(view, [e, f]) == Step(Step(view, e), f)
    ensures Legal(view, [e, f]) <==> LegalStep(view, e) && LegalStep(Step(view, e), f)
  {
    assert [e, f] == [e] + [f];
    ReplayAppend(view, [e], [f]);
    ReplayOne(view, e);
    ReplayOne(Step(view, e), f);
  }

  // ---- the difference of two snapshots ----

  /** The view agrees with next on the keys done and with current on the others. */
  ghost predicate Halfway(current: Snapshot, next: Snapshot, done: seq<string>, view: Snapshot) {
    && (forall k :: k in done ==> (k in view <==> k in next) && (k in next ==> view[k] == next[k]))
    && (forall k :: k !in done ==> (k in view <==> k in current) && (k in current ==> view[k] == current[k]))
  }

  lemma KeyStep(current: Snapshot, next: Snapshot, reconnected: set<string>, done: seq<string>, k: string, view: Snapshot)
    requires Keyed(current) && Keyed(next) && Halfway(current, next, done, view) && k !in done
    ensures var es := EventsFor(current, next, reconnected, k);
      Legal(view, es) && Halfway(current, next, done + [k], Replay(view, es))
  {
    var es := EventsFor(current, next, reconnected, k);
    if |es| == 1 {
      ReplayOne(view, es[0]);
    } else if |es| == 2 {
      ReplayTwo(view, es[0], es[1]);
    }
  }

  lemma {:induction false} DiffStep(current: Snapshot, next: Snapshot, reconnected: set<string>, keys: seq<string>)
    requires Keyed(current) && Keyed(next) && Ascending(keys)
    ensures var es := Diff(current, next, reconnected, keys);
      Legal(current, es) && Halfway(current, next, keys, Replay(current, es))
    decreases |keys|
  {
    if keys != [] {
      var n := |keys| - 1;
      var done := keys[..n];
      DiffStep(current, next, reconnected, done);
      AscendingDistinct(keys);
      assert keys == done + [keys[n]];
      var a, b := Diff(current, next, reconnected, done), EventsFor(current, next, reconnected, keys[n]);
      KeyStep(current, next, reconnected, done, keys[n], Replay(current, a));
      ReplayAppend(current, a, b);
    }
  }

  /** Replaying the difference on the old snapshot gives the new one, and every event is
      legal when it is replayed. */
  lemma DiffReplays(current: Snapshot, next: Snapshot, reconnected: set<string>, keys: seq<string>)
    requires Keyed(current) && Keyed(next) && Ascending(keys)
    requires forall k :: k in keys <==> k in current || k in next
    ensures var es := Diff(current, next, reconnected, keys); Legal(current, es) && Replay(current, es) == next
  {
    DiffStep(current, next, reconnected, keys);
    var view := Replay(current, Diff(current, next, reconnected, keys));
    assert forall k :: k in view <==> k in next;
    assert view == next;
  }

  /** A key emits nothing exactly when its device is untouched or nowhere. */
  lemma QuietIff(current: Snapshot, next: Snapshot, reconnected: set<string>, k: string)
    ensures EventsFor(current, next, reconnected, k) == [] <==>
      ((k in current <==> k in next) && (k in current && k in next ==> current[k] == next[k] && k !in reconnected))
  {
  }

  /** A key the difference covers contributes its events as one block. */
  lemma {:induction false} BlockOf(current: Snapshot, next: Snapshot, reconnected: set<string>, keys: seq<string>, k: string) returns (at: nat)
    requires k in keys
    ensures var es, block := Diff(current, next, reconnected, keys), EventsFor(current, next, reconnected, k);
      at + |block| <= |es| && es[at..at + |block|] == block
    decreases |keys|
  {
    hide EventsFor;
    var n := |keys| - 1;
    var a, b, block := Diff(current, next, reconnected, keys[..n]), EventsFor(current, next, reconnected, keys[n]), EventsFor(current, next, reconnected, k);
    if k == keys[n] {
      at := |a|;
      InMiddle(a, b, [], at);
    } else {
      at := BlockOf(current, next, reconnected, keys[..n], k);
      assert a == a[..at] + block + a[at + |block|..];
      InMiddle(a[..at], block, a[at + |block|..] + b, at);
      assert a + b == a[..at] + block + (a[at + |block|..] + b);
    }
  }

  lemma InMiddle(a: seq<Event>, b: seq<Event>, c: seq<Event>, at: nat)
    requires at == |a|
    ensures (a + b + c)[at..at + |b|] == b && (c == [] ==> a + b + c == a + b)
  {
  }

  // ---- a batch ----

  /** A re-created control node on a surviving device emits Removed, then Added. */
  lemma RecreatedReconnects(current: Snapshot, removals: seq<Uevent>, next: Snapshot, es: seq<Event>, k: string)
    requires Emits(current, removals, next, es) && AnyRecreated(current, next, removals, k)
    ensures k in current && k in next
    ensures exists at :: 0 <= at < |es| - 1 && es[at] == Removed(current[k]) && es[at + 1] == Added(next[k])
  {
    RecreatedSurvives(current, removals, next, k);
    hide AnyRecreated, Diff, Ascending, EventsFor;
    var reconnected: set<string> :| Marks(current, removals, next, reconnected) && DiffOf(current, next, reconnected, es);
    var keys: seq<string> :| Covers(current, next, keys) && es == Diff(current, next, reconnected, keys);
    assert k in reconnected && k in keys;
    hide Covers, Emits, Marks, DiffOf;
    ReconnectBlock(current, next, reconnected, k);
    var at := BlockOf(current, next, reconnected, keys, k);
    assert es[at] == es[at..at + 2][0] && es[at + 1] == es[at..at + 2][1];
  }

  lemma ReconnectBlock(current: Snapshot, next: Snapshot, reconnected: set<string>, k: string)
    requires k in current && k in next && k in reconnected
    ensures EventsFor(current, next, reconnected, k) == [Removed(current[k]), Added(next[k])]
  {
  }

  lemma RecreatedSurvives(current: Snapshot, removals: seq<Uevent>, next: Snapshot, k: string)
    requires AnyRecreated(current, next, removals, k)
    ensures k in current && k in next
  {
    hide ControlNodeName, HasControlNode, Named;
    var i :| 0 <= i < |removals| && Recreated(current, next, removals[i], k);
  }

  /** An unchanged device none of whose nodes was re-created is in no event. */
  lemma UntouchedIsSilent(current: Snapshot, removals: seq<Uevent>, next: Snapshot, es: seq<Event>, k: string)
    requires Keyed(current) && Keyed(next) && Emits(current, removals, next, es)
    requires k in current && k in next && current[k] == next[k] && !AnyRecreated(current, next, removals, k)
    ensures forall i :: 0 <= i < |es| ==> Key(es[i].device) != k
  {
    hide AnyRecreated, Diff, Ascending, Keyed;
    var reconnected: set<string> :| Marks(current, removals, next, reconnected) && DiffOf(current, next, reconnected, es);
    var keys: seq<string> :| Covers(current, next, keys) && es == Diff(current, next, reconnected, keys);
    SilentKey(current, next, reconnected, keys, k);
  }

  lemma {:induction false} SilentKey(current: Snapshot, next: Snapshot, reconnected: set<string>, keys: seq<string>, k: string)
    requires Keyed(current) && Keyed(next) && k in current && k in next && current[k] == next[k] && k !in reconnected
    ensures forall i :: 0 <= i < |Diff(current, next, reconnected, keys)| ==> Key(Diff(current, next, reconnected, keys)[i].device) != k
    decreases |keys|
  {
    if keys != [] {
      SilentKey(current, next, reconnected, keys[..|keys| - 1], k);
    }
  }

  // ---- the watcher ----

  /** One round of the watcher: what it took from the queue and what it then found. */
  datatype Round = Round(batch: Q.Batch, next: seq<Device>)

  function Presents(ds: seq<Device>): seq<Event> {
    if ds == [] then [] else Presents(ds[..|ds| - 1]) + [Present(ds[|ds| - 1])]
  }

  lemma {:induction false} PresentsReplay(ds: seq<Device>)
    ensures Replay(map[], Presents(ds)) == Indexed(ds) && Legal(map[], Presents(ds))
    decreases |ds|
  {
    if ds != [] {
      var n := |ds| - 1;
      PresentsReplay(ds[..n]);
      ReplayAppend(map[], Presents(ds[..n]), [Present(ds[n])]);
      ReplayOne(Indexed(ds[..n]), Present(ds[n]));
    }
  }

  /** The snapshot the program holds: a batch that asks for no rescan leaves it alone. */
  function Latest(initial: seq<Device>, rounds: seq<Round>): Snapshot {
    if rounds == [] then Indexed(initial)
    else
      var r := rounds[|rounds| - 1];
      if r.batch.rescan then Indexed(r.next) else Latest(initial, rounds[..|rounds| - 1])
  }

  /** What one round sends. */
  ghost predicate Sends(before: Snapshot, r: Round, es: seq<Event>) {
    if r.batch.rescan then Emits(before, r.batch.removals, Indexed(r.next), es) else es == []
  }

  /** es is the whole stream watchDevices sends for the initial snapshot and the rounds. */
  ghost predicate Stream(initial: seq<Device>, rounds: seq<Round>, es: seq<Event>)
    decreases |rounds|
  {
    if rounds == [] then es == Presents(initial)
    else
      var earlier := rounds[..|rounds| - 1];
      exists n :: 0 <= n <= |es| && Stream(initial, earlier, es[..n])
        && Sends(Latest(initial, earlier), rounds[|rounds| - 1], es[n..])
  }

  /** After every round the view of a watcher that replays the stream is the snapshot the
      program holds, and every event was legal. */
  lemma {:induction false} WatcherSeesCurrent(initial: seq<Device>, rounds: seq<Round>, es: seq<Event>)
    requires Stream(initial, rounds, es)
    ensures Replay(map[], es) == Latest(initial, rounds) && Legal(map[], es)
    decreases |rounds|
  {
    hide Indexed, Replay, Legal, Sends, Keyed;
    if rounds == [] {
      PresentsReplay(initial);
    } else {
      var m := |rounds| - 1;
      var r, earlier := rounds[m], rounds[..m];
      var before := Latest(initial, earlier);
      var n :| 0 <= n <= |es| && Stream(initial, earlier, es[..n]) && Sends(before, r, es[n..]);
      WatcherSeesCurrent(initial, earlier, es[..n]);
      LatestKeyed(initial, earlier);
      SendsReplays(before, r, es[n..]);
      assert es[..n] + es[n..] == es;
      ReplayAppend(map[], es[..n], es[n..]);
    }
  }

  lemma SendsReplays(before: Snapshot, r: Round, es: seq<Event>)
    requires Keyed(before) && Sends(before, r, es)
    ensures Legal(before, es) && Replay(before, es) == if r.batch.rescan then Indexed(r.next) else before
  {
    IndexedKeyed(r.next);
    if r.batch.rescan { EmitsReplays(before, r.batch.removals, Indexed(r.next), es); }
  }

  lemma {:induction false} LatestKeyed(initial: seq<Device>, rounds: seq<Round>)
    ensures Keyed(Latest(initial, rounds))
    decreases |rounds|
  {
    hide Keyed;
    IndexedKeyed(initial);
    if rounds != [] {
      IndexedKeyed(rounds[|rounds| - 1].next);
      LatestKeyed(initial, rounds[..|rounds| - 1]);
    }
  }

  lemma EmitsReplays(current: Snapshot, removals: seq<Uevent>, next: Snapshot, es: seq<Event>)
    requires Keyed(current) && Keyed(next) && Emits(current, removals, next, es)
    ensures Legal(current, es) && Replay(current, es) == next
  {
    hide Marks, Keyed, Replay, Legal, Diff, Ascending;
    var reconnected: set<string> :| Marks(current, removals, next, reconnected) && DiffOf(current, next, reconnected, es);
    var keys: seq<string> :| Covers(current, next, keys) && es == Diff(current, next, reconnected, keys);
    DiffReplays(current, next, reconnected, keys);
  }

  // ---- from the queue to the watcher ----

  /** es has Removed for the device directly followed by Added. */
  ghost predicate Reconnects(es: seq<Event>, before: Device, after: Device) {
    exists at :: 0 <= at < |es| - 1 && es[at] == Removed(before) && es[at + 1] == Added(after)
  }

  /** A name in the queue stands for a removal in the batch. */
  lemma QueuedNameRecreates(s: Q.State, name: string, current: Snapshot, next: Snapshot, k: string)
    requires Q.Inv(s) && name in s.pushed && k in current && k in next
    requires HasControlNode(current[k], name) && HasControlNode(next[k], name)
    ensures s.rescan && AnyRecreated(current, next, s.removals, k)
  {
    hide HasControlNode;
    var i :| 0 <= i < |s.removals| && Q.Reported(s.removals[i]) == Some(name);
    assert Recreated(current, next, s.removals[i], k);
  }

  /** A removal of a control node, pushed before the stop after any run of the queue: if
      a device has that node before and after the rescan of the next batch, whatever
      happened to the queue in between, that round sends Removed and then Added. */
  lemma PushedRemovalReconnects(before: seq<Q.Step>, t: Q.Thread, e: Uevent, after: seq<Q.Step>, current: Snapshot, next: seq<Device>, es: seq<Event>, k: string)
    requires !Q.After(before).stopped && t !in Q.After(before).owing && Q.Reported(e).Some?
    requires forall i :: 0 <= i < |after| ==> after[i] != Q.Take
    requires Q.After(before + [Q.Push(t, e)] + after).consumer == Q.Holding
    requires k in current && k in Indexed(next)
    requires HasControlNode(current[k], Q.Reported(e).value) && HasControlNode(Indexed(next)[k], Q.Reported(e).value)
    requires Sends(current, Round(Q.BatchOf(Q.After(before + [Q.Push(t, e)] + after)), next), es)
    ensures Reconnects(es, current[k], Indexed(next)[k])
  {
    hide Q.Reported, Q.Run, Q.Inv, HasControlNode, Emits, Indexed, AnyRecreated;
    var s := Q.After(before + [Q.Push(t, e)] + after);
    var name := Q.Reported(e).value;
    Q.Reached(before + [Q.Push(t, e)] + after);
    Remembered(before, t, e, after);
    QueuedNameRecreates(s, name, current, Indexed(next), k);
    RecreatedReconnects(current, s.removals, Indexed(next), es, k);
  }

  lemma Remembered(before: seq<Q.Step>, t: Q.Thread, e: Uevent, after: seq<Q.Step>)
    requires !Q.After(before).stopped && t !in Q.After(before).owing && Q.Reported(e).Some?
    requires forall i :: 0 <= i < |after| ==> after[i] != Q.Take
    ensures Q.Reported(e).value in Q.After(before + [Q.Push(t, e)] + after).pushed
  {
    hide Q.Reported;
    var s := Q.After(before);
    Q.RunAppend(Q.INIT, before + [Q.Push(t, e)], after);
    Q.RunAppend(Q.INIT, before, [Q.Push(t, e)]);
    assert [Q.Push(t, e)][1..] == [];
    assert Q.Run(s, [Q.Push(t, e)]) == Q.Apply(s, Q.Push(t, e));
    Q.PushRemembered(s, t, e);
    Q.RememberedUntilTaken(Q.Apply(s, Q.Push(t, e)), Q.Reported(e).value, after);
  }
}
