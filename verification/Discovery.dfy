/** Hot-plug discovery: the difference between two snapshots as a list of events. */
module Discovery {

  // ---- devices ----

  datatype PortKind = QMI | MBIM | OtherPort

  /** details stands for the fields of a port that only take part in comparison. */
  datatype Port = Port(kind: PortKind, name: string, path: string, sysPath: string, details: string)

  datatype Device = Device(physicalPath: string, bus: nat, usb: string, ports: seq<Port>)

  type Snapshot = map<string, Device>

  /** physicalDeviceKey. */
  function Key(d: Device): string {
    if d.physicalPath != "" then d.physicalPath else PortKey(d.ports)
  }

  function PortKey(ports: seq<Port>): string {
    if ports == [] then ""
    else if ports[0].sysPath != "" then ports[0].sysPath
    else if ports[0].path != "" then ports[0].path
    else PortKey(ports[1..])
  }

  /** sameDevice compares every field. */
  predicate SameDevice(a: Device, b: Device) {
    a.physicalPath == b.physicalPath && a.bus == b.bus && a.usb == b.usb && a.ports == b.ports
  }

  ghost predicate Keyed(m: Snapshot) { forall k :: k in m ==> Key(m[k]) == k }

  /** The snapshot a list of devices makes: a later device replaces an earlier one with
      the same key. */
  function Indexed(ds: seq<Device>): Snapshot {
    if ds == [] then map[] else Indexed(ds[..|ds| - 1])[Key(ds[|ds| - 1]) := ds[|ds| - 1]]
  }

  /** devicesByKey. */
  method DevicesByKey(ds: seq<Device>) returns (m: Snapshot)
    ensures m == Indexed(ds) && Keyed(m)
  {
    m := map[];
    for i := 0 to |ds|
      invariant m == Indexed(ds[..i]) && Keyed(m)
    {
      assert ds[..i + 1][..i] == ds[..i];
      m := m[Key(ds[i]) := ds[i]];
    }
    assert ds[..|ds|] == ds;
  }

  lemma {:induction false} IndexedKeyed(ds: seq<Device>)
    ensures Keyed(Indexed(ds))
    decreases |ds|
  {
    if ds != [] { IndexedKeyed(ds[..|ds| - 1]); }
  }

  // ---- control nodes ----

  predicate Space(c: char) {
    c in {' ', '\t', '\n', '\r', '\U{0B}', '\U{0C}', '\U{85}', '\U{A0}', '\U{1680}', '\U{2028}', '\U{2029}', '\U{202F}', '\U{205F}', '\U{3000}'}
    || '\U{2000}' <= c <= '\U{200A}'
  }

  function TrimLeft(s: string): string {
    if s != "" && Space(s[0]) then TrimLeft(s[1..]) else s
  }

  function TrimRight(s: string): string {
    if s != "" && Space(s[|s| - 1]) then TrimRight(s[..|s| - 1]) else s
  }

  function Trim(s: string): string { TrimRight(TrimLeft(s)) }

  function DropSlashes(s: string): string {
    if s != "" && s[|s| - 1] == '/' then DropSlashes(s[..|s| - 1]) else s
  }

  function LastPart(s: string): string {
    if s == "" then "" else if s[|s| - 1] == '/' then "" else LastPart(s[..|s| - 1]) + [s[|s| - 1]]
  }

  /** filepath.Base. */
  function Base(s: string): string {
    if s == "" then "." else if DropSlashes(s) == "" then "/" else LastPart(DropSlashes(s))
  }

  datatype Uevent = Uevent(action: string, subsystem: string, devName: string, devPath: string)

  predicate RemovesControlNode(e: Uevent) {
    e.action == "remove" && (e.subsystem == "wwan" || e.subsystem == "usbmisc" || e.subsystem == "rpmsg")
  }

  function ControlNodeName(e: Uevent): string {
    if Trim(e.devName) != "" then Base(Trim(e.devName)) else Base(Trim(e.devPath))
  }

  predicate Named(name: string) { name != "" && name != "." }

  predicate PortHasName(p: Port, name: string) {
    p.kind != OtherPort && (Trim(p.name) == name || Base(Trim(p.path)) == name || Base(Trim(p.sysPath)) == name)
  }

  ghost predicate HasControlNode(d: Device, name: string) {
    exists i :: 0 <= i < |d.ports| && PortHasName(d.ports[i], name)
  }

  /** deviceHasControlNode. */
  method DeviceHasControlNode(d: Device, name: string) returns (found: bool)
    ensures found <==> HasControlNode(d, name)
  {
    for i := 0 to |d.ports|
      invariant forall j :: 0 <= j < i ==> !PortHasName(d.ports[j], name)
    {
      if PortHasName(d.ports[i], name) { return true; }
    }
    return false;
  }

  /** The device of this key survives and one of its control nodes was re-created. */
  ghost predicate Recreated(current: Snapshot, next: Snapshot, e: Uevent, k: string) {
    var name := ControlNodeName(e);
    k in current && k in next && Named(name) && HasControlNode(current[k], name) && HasControlNode(next[k], name)
  }

  ghost predicate AnyRecreated(current: Snapshot, next: Snapshot, removals: seq<Uevent>, k: string) {
    exists i :: 0 <= i < |removals| && Recreated(current, next, removals[i], k)
  }

  // ---- events ----

  datatype Event = Present(device: Device) | Added(device: Device) | Removed(device: Device) | Changed(device: Device)

  /** What diffDevices emits for one key. */
  function EventsFor(current: Snapshot, next: Snapshot, reconnected: set<string>, k: string): seq<Event> {
    if k !in current && k in next then [Added(next[k])]
    else if k in current && k !in next then [Removed(current[k])]
    else if k in current && k in next && k in reconnected then [Removed(current[k]), Added(next[k])]
    else if k in current && k in next && !SameDevice(current[k], next[k]) then [Changed(next[k])]
    else []
  }

  function Diff(current: Snapshot, next: Snapshot, reconnected: set<string>, keys: seq<string>): seq<Event> {
    if keys == [] then []
    else Diff(current, next, reconnected, keys[..|keys| - 1]) + EventsFor(current, next, reconnected, keys[|keys| - 1])
  }

  // ---- sorted keys ----

  /** The order of strings by their characters. */
  predicate Less(a: string, b: string) {
    b != "" && (a == "" || a[0] < b[0] || (a[0] == b[0] && Less(a[1..], b[1..])))
  }

  lemma {:induction false} LessTotal(a: string, b: string)
    ensures a == b || Less(a, b) || Less(b, a)
  {
    if a != "" && b != "" && a[0] == b[0] {
      LessTotal(a[1..], b[1..]);
      assert a == [a[0]] + a[1..] && b == [b[0]] + b[1..];
    }
  }

  lemma {:induction false} LessTransitive(a: string, b: string, c: string)
    requires Less(a, b) && Less(b, c)
    ensures Less(a, c)
  {
    if a != "" && a[0] == b[0] && b[0] == c[0] { LessTransitive(a[1..], b[1..], c[1..]); }
  }

  ghost predicate Ascending(keys: seq<string>) {
    forall i, j :: 0 <= i < j < |keys| ==> Less(keys[i], keys[j])
  }

  /** The least key of a set. */
  method Least(s: set<string>) returns (m: string)
    requires s != {}
    ensures m in s && forall k :: k in s ==> k == m || Less(m, k)
  {
    m :| m in s;
    var rest := s - {m};
    while rest != {}
      invariant m in s && rest <= s
      invariant forall k :: k in s && k !in rest ==> k == m || Less(m, k)
      decreases |rest|
    {
      var k: string :| k in rest;
      LessTotal(k, m);
      if Less(k, m) {
        forall x | x in s && x !in rest ensures x == k || Less(k, x) {
          if x != m { LessTransitive(k, m, x); }
        }
        m := k;
      }
      rest := rest - {k};
    }
  }

  /** slices.Sorted(maps.Keys(seen)): every key once, in ascending order. */
  method SortedKeys(s: set<string>) returns (keys: seq<string>)
    ensures Ascending(keys) && (forall k :: k in s <==> k in keys)
  {
    keys := [];
    var rest := s;
    while rest != {}
      invariant rest <= s && Ascending(keys)
      invariant forall k :: k in s <==> k in keys || k in rest
      invariant forall k, i :: k in rest && 0 <= i < |keys| ==> Less(keys[i], k)
      decreases |rest|
    {
      var k := Least(rest);
      keys := keys + [k];
      rest := rest - {k};
    }
  }

  lemma {:induction false} LessIrreflexive(a: string)
    ensures !Less(a, a)
  {
    if a != "" { LessIrreflexive(a[1..]); }
  }

  lemma AscendingDistinct(keys: seq<string>)
    requires Ascending(keys)
    ensures forall i, j :: 0 <= i < j < |keys| ==> keys[i] != keys[j]
  {
    forall i, j | 0 <= i < j < |keys| ensures keys[i] != keys[j] {
      LessIrreflexive(keys[i]);
    }
  }

  // ---- the two functions ----

  /** Every key of either snapshot once, in ascending order. */
  ghost predicate Covers(current: Snapshot, next: Snapshot, keys: seq<string>) {
    Ascending(keys) && (forall k :: k in keys <==> k in current || k in next)
  }

  ghost predicate DiffOf(current: Snapshot, next: Snapshot, reconnected: set<string>, es: seq<Event>) {
    exists keys :: Covers(current, next, keys) && es == Diff(current, next, reconnected, keys)
  }

  /** The keys of the surviving devices with a re-created control node. */
  ghost predicate Marks(current: Snapshot, removals: seq<Uevent>, next: Snapshot, reconnected: set<string>) {
    forall k :: k in reconnected <==> AnyRecreated(current, next, removals, k)
  }

  /** es is what reconcileDeviceEvents emits. */
  ghost predicate Emits(current: Snapshot, removals: seq<Uevent>, next: Snapshot, es: seq<Event>) {
    exists reconnected :: Marks(current, removals, next, reconnected) && DiffOf(current, next, reconnected, es)
  }

  /** diffDevices. */
  method DiffDevices(current: Snapshot, next: Snapshot, reconnected: set<string>) returns (events: seq<Event>)
    ensures DiffOf(current, next, reconnected, events)
  {
    var seen := current.Keys + next.Keys;
    var sorted := SortedKeys(seen);
    events := [];
    for i := 0 to |sorted|
      invariant events == Diff(current, next, reconnected, sorted[..i])
    {
      var key := sorted[i];
      assert sorted[..i + 1][..i] == sorted[..i];
      if key !in current && key in next {
        events := events + [Added(next[key])];
      } else if key in current && key !in next {
        events := events + [Removed(current[key])];
      } else if key in current && key in next && key in reconnected {
        events := events + [Removed(current[key]), Added(next[key])];
      } else if key in current && key in next && !SameDevice(current[key], next[key]) {
        events := events + [Changed(next[key])];
      }
    }
    assert sorted[..|sorted|] == sorted;
    assert Covers(current, next, sorted);
  }

  /** The keys one removal marks. */
  method MarkReconnected(current: Snapshot, next: Snapshot, e: Uevent, reconnected: set<string>) returns (r: set<string>)
    ensures forall k :: k in r <==> k in reconnected || Recreated(current, next, e, k)
  {
    r := reconnected;
    var name := ControlNodeName(e);
    if name == "" || name == "." { return; }
    var rest := current.Keys;
    while rest != {}
      invariant rest <= current.Keys
      invariant forall k :: k in r <==> k in reconnected || (k !in rest && Recreated(current, next, e, k))
      decreases |rest|
    {
      var k: string :| k in rest;
      rest := rest - {k};
      if k !in next { continue; }
      var before := DeviceHasControlNode(current[k], name);
      var after := DeviceHasControlNode(next[k], name);
      if !before || !after { continue; }
      r := r + {k};
    }
  }

  /** reconcileDeviceEvents. */
  method ReconcileDeviceEvents(current: Snapshot, removals: seq<Uevent>, next: seq<Device>)
      returns (nextByKey: Snapshot, events: seq<Event>)
    ensures nextByKey == Indexed(next) && Keyed(nextByKey) && Emits(current, removals, nextByKey, events)
  {
    nextByKey := DevicesByKey(next);
    var marked: set<string> := {};
    for i := 0 to |removals|
      invariant forall k :: k in marked <==> AnyRecreated(current, nextByKey, removals[..i], k)
    {
      ghost var was := marked;
      marked := MarkReconnected(current, nextByKey, removals[i], marked);
      forall k ensures k in marked <==> AnyRecreated(current, nextByKey, removals[..i + 1], k) {
        AnyRecreatedSnoc(current, nextByKey, removals, i, k);
      }
    }
    assert removals[..|removals|] == removals;
    assert Marks(current, removals, nextByKey, marked);
    events := DiffDevices(current, nextByKey, marked);
  }

  lemma AnyRecreatedSnoc(current: Snapshot, next: Snapshot, removals: seq<Uevent>, i: nat, k: string)
    requires i < |removals|
    ensures AnyRecreated(current, next, removals[..i + 1], k) <==>
            AnyRecreated(current, next, removals[..i], k) || Recreated(current, next, removals[i], k)
  {
    hide Recreated;
    var a, b := removals[..i], removals[..i + 1];
    assert |a| == i && |b| == i + 1 && b[i] == removals[i] && forall j :: 0 <= j < i ==> a[j] == b[j];
    if AnyRecreated(current, next, a, k) {
      var j :| 0 <= j < |a| && Recreated(current, next, a[j], k);
      assert Recreated(current, next, b[j], k);
    }
    if AnyRecreated(current, next, b, k) {
      var j :| 0 <= j < |b| && Recreated(current, next, b[j], k);
      if j < i { assert Recreated(current, next, a[j], k); }
    }
  }
}
