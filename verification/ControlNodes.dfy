/** Which removals are reported under which name, which ports a name means, and which key a
    device has. */
module ControlNodes {
  import opened Bytes
  import opened Discovery
  import Q = UeventQueue

  ghost predicate Spaces(s: string) { forall i :: 0 <= i < |s| ==> Space(s[i]) }

  /** Neither end is a space. */
  ghost predicate Tight(s: string) { s == "" || (!Space(s[0]) && !Space(s[|s| - 1])) }

  lemma {:induction false} LeftTrimmed(s: string) returns (a: string)
    ensures Spaces(a) && s == a + TrimLeft(s) && (TrimLeft(s) == "" || !Space(TrimLeft(s)[0]))
  {
    hide Space;
    if s != "" && Space(s[0]) {
      var b := LeftTrimmed(s[1..]);
      a := [s[0]] + b;
      assert s == [s[0]] + s[1..];
    } else {
      a := "";
    }
  }

  lemma {:induction false} RightTrimmed(s: string) returns (b: string)
    ensures Spaces(b) && s == TrimRight(s) + b && (TrimRight(s) == "" || !Space(TrimRight(s)[|TrimRight(s)| - 1]))
  {
    hide Space;
    if s != "" && Space(s[|s| - 1]) {
      var n := |s| - 1;
      var a := RightTrimmed(s[..n]);
      b := a + [s[n]];
      assert s == s[..n] + [s[n]];
    } else {
      b := "";
    }
  }

  /** Trimming takes the spaces at both ends and nothing else. */
  lemma Trimmed(s: string) returns (a: string, b: string)
    ensures Spaces(a) && Spaces(b) && s == a + Trim(s) + b && Tight(Trim(s))
  {
    hide Space, TrimLeft, TrimRight;
    a := LeftTrimmed(s);
    b := RightTrimmed(TrimLeft(s));
    var l, t := TrimLeft(s), Trim(s);
    assert l == t + b;
    assert t != "" ==> t[0] == l[0];
  }

  lemma {:induction false} LeftUnpadded(a: string, s: string)
    requires Spaces(a) && (s == "" || !Space(s[0]))
    ensures TrimLeft(a + s) == s
    decreases |a|
  {
    hide Space;
    if a == "" {
      assert a + s == s;
    } else {
      assert (a + s)[1..] == a[1..] + s && (a + s)[0] == a[0];
      LeftUnpadded(a[1..], s);
    }
  }

  lemma {:induction false} RightUnpadded(s: string, b: string)
    requires Spaces(b) && (s == "" || !Space(s[|s| - 1]))
    ensures TrimRight(s + b) == s
    decreases |b|
  {
    hide Space;
    if b == "" {
      assert s + b == s;
    } else {
      var n := |b| - 1;
      assert (s + b)[..|s + b| - 1] == s + b[..n] && (s + b)[|s + b| - 1] == b[n];
      RightUnpadded(s, b[..n]);
    }
  }

  /** Whatever spaces surround it, a name without spaces at its ends is what is left. */
  lemma TrimUnpads(a: string, s: string, b: string)
    requires Spaces(a) && Spaces(b) && Tight(s)
    ensures Trim(a + s + b) == s
  {
    hide Space, TrimLeft, TrimRight;
    if s == "" {
      assert a + s + b == (a + b) + "" && Spaces(a + b);
      LeftUnpadded(a + b, "");
      RightUnpadded("", "");
      assert "" + "" == "";
    } else {
      assert a + s + b == a + (s + b) && (s + b)[0] == s[0];
      LeftUnpadded(a, s + b);
      RightUnpadded(s, b);
    }
  }

  // ---- the last component of a path ----

  /** A file name: not empty and without a slash. */
  ghost predicate Component(p: string) { p != "" && forall i :: 0 <= i < |p| ==> p[i] != '/' }

  /** Nothing, or a path that ends with a slash. */
  ghost predicate Directory(d: string) { d == "" || d[|d| - 1] == '/' }

  ghost predicate Slashes(s: string) { forall i :: 0 <= i < |s| ==> s[i] == '/' }

  lemma {:induction false} SlashesDropped(s: string, t: string)
    requires Slashes(t) && (s == "" || s[|s| - 1] != '/')
    ensures DropSlashes(s + t) == s
    decreases |t|
  {
    if t == "" {
      assert s + t == s;
    } else {
      var n := |t| - 1;
      assert (s + t)[..|s + t| - 1] == s + t[..n] && (s + t)[|s + t| - 1] == t[n];
      SlashesDropped(s, t[..n]);
    }
  }

  lemma {:induction false} LastPartIs(d: string, p: string)
    requires Directory(d) && forall i :: 0 <= i < |p| ==> p[i] != '/'
    ensures LastPart(d + p) == p
    decreases |p|
  {
    if p == "" {
      assert d + p == d;
    } else {
      var n := |p| - 1;
      assert (d + p)[..|d + p| - 1] == d + p[..n] && (d + p)[|d + p| - 1] == p[n];
      LastPartIs(d, p[..n]);
    }
  }

  /** The base of a path is its last component, trailing slashes aside. */
  lemma BaseIs(d: string, p: string, slashes: string)
    requires Directory(d) && Component(p) && Slashes(slashes)
    ensures Base(d + p + slashes) == p
  {
    assert (d + p)[|d + p| - 1] == p[|p| - 1];
    SlashesDropped(d + p, slashes);
    LastPartIs(d, p);
    hide DropSlashes, LastPart;
  }

  // ---- removals ----

  ghost predicate ControlSubsystem(s: string) { s == "usbmisc" || s == "wwan" || s == "rpmsg" }

  /** A name a control node can have: a file name other than the dot. */
  ghost predicate NodeName(n: string) { Component(n) && Tight(n) && n != "." }

  /** The field is this node, with or without a directory and surrounded by any spaces. */
  ghost predicate Names(field: string, n: string) {
    exists a, d, b :: Spaces(a) && Spaces(b) && Directory(d) && Tight(d + n) && field == a + (d + n) + b
  }

  lemma NamesBase(field: string, n: string)
    requires Names(field, n) && NodeName(n)
    ensures Trim(field) != "" && Base(Trim(field)) == n
  {
    var a, d, b :| Spaces(a) && Spaces(b) && Directory(d) && Tight(d + n) && field == a + (d + n) + b;
    TrimUnpads(a, d + n, b);
    BaseIs(d, n, "");
    assert d + n + "" == d + n;
  }

  /** The removal of a control node is reported under the name of the node: the name of the
      device node if the event has one, otherwise the end of its device path. */
  lemma RemovalIsReported(e: Uevent, n: string)
    requires e.action == "remove" && ControlSubsystem(e.subsystem) && NodeName(n)
    requires Names(e.devName, n) || (Spaces(e.devName) && Names(e.devPath, n))
    ensures Q.Reported(e) == Some(n)
  {
    if Names(e.devName, n) {
      NamesBase(e.devName, n);
    } else {
      NamesBase(e.devPath, n);
      TrimUnpads(e.devName, "", "");
      assert e.devName + "" + "" == e.devName;
    }
    hide Base, Trim;
  }

  /** Nothing else is: neither another action nor another subsystem. */
  lemma OnlyRemovalsAreReported(e: Uevent)
    ensures Q.Reported(e).Some? ==> e.action == "remove" && ControlSubsystem(e.subsystem) && Named(Q.Reported(e).value)
  {
    hide Base, Trim;
  }

  /** For one: the removal of cdc-wdm0, whether the kernel gives the name or the node. */
  lemma ControlNodeRemoved(devPath: string)
    ensures Q.Reported(Uevent("remove", "usbmisc", "cdc-wdm0", devPath)) == Some("cdc-wdm0")
    ensures Q.Reported(Uevent("remove", "usbmisc", "/dev/cdc-wdm0", devPath)) == Some("cdc-wdm0")
  {
    hide Base, Trim, Q.Reported;
    assert "" + ("" + "cdc-wdm0") + "" == "cdc-wdm0";
    assert Names("cdc-wdm0", "cdc-wdm0") by { assert Spaces("") && Directory("") && Tight("" + "cdc-wdm0"); }
    assert "" + ("/dev/" + "cdc-wdm0") + "" == "/dev/cdc-wdm0";
    assert Names("/dev/cdc-wdm0", "cdc-wdm0") by { assert Spaces("") && Directory("/dev/") && Tight("/dev/" + "cdc-wdm0"); }
    RemovalIsReported(Uevent("remove", "usbmisc", "cdc-wdm0", devPath), "cdc-wdm0");
    RemovalIsReported(Uevent("remove", "usbmisc", "/dev/cdc-wdm0", devPath), "cdc-wdm0");
  }

  // ---- ports ----

  /** A QMI or MBIM port is meant by its own name and by the ends of its node and sysfs
      paths; a port of another kind is never meant. */
  lemma PortIsMeant(p: Port, n: string)
    requires NodeName(n)
    ensures p.kind == OtherPort ==> !PortHasName(p, n)
    ensures (p.kind == QMI || p.kind == MBIM) && (Names(p.path, n) || Names(p.sysPath, n)) ==> PortHasName(p, n)
    ensures (p.kind == QMI || p.kind == MBIM) && (exists a, b :: Spaces(a) && Spaces(b) && p.name == a + n + b) ==> PortHasName(p, n)
  {
    if Names(p.path, n) { NamesBase(p.path, n); }
    if Names(p.sysPath, n) { NamesBase(p.sysPath, n); }
    if a, b :| Spaces(a) && Spaces(b) && p.name == a + n + b { TrimUnpads(a, n, b); }
    hide Base, Trim;
  }

  // ---- keys ----

  /** What can be the key of a device, in order of preference. */
  ghost function Places(ports: seq<Port>): seq<string> {
    if ports == [] then [] else [ports[0].sysPath, ports[0].path] + Places(ports[1..])
  }

  ghost predicate FirstNonempty(s: seq<string>, k: string) {
    if forall i :: 0 <= i < |s| ==> s[i] == "" then k == ""
    else exists i :: 0 <= i < |s| && s[i] == k != "" && forall j :: 0 <= j < i ==> s[j] == ""
  }

  lemma FirstOf(a: string, s: seq<string>, k: string)
    requires if a != "" then k == a else FirstNonempty(s, k)
    ensures FirstNonempty([a] + s, k)
  {
    var t := [a] + s;
    assert t[0] == a && forall i :: 0 <= i < |s| ==> t[i + 1] == s[i];
    if a == "" && !(forall i :: 0 <= i < |s| ==> s[i] == "") {
      var i :| 0 <= i < |s| && s[i] == k != "" && forall j :: 0 <= j < i ==> s[j] == "";
      forall j | 0 <= j < i + 1 ensures t[j] == "" {
        if j > 0 { assert t[j] == s[j - 1]; }
      }
      assert t[i + 1] == k;
    }
  }

  lemma {:induction false} PortKeyIs(ports: seq<Port>)
    ensures FirstNonempty(Places(ports), PortKey(ports))
    decreases |ports|
  {
    if ports != [] {
      var p, rest := ports[0], Places(ports[1..]);
      PortKeyIs(ports[1..]);
      if p.sysPath == "" { FirstOf(p.path, rest, PortKey(ports)); }
      FirstOf(p.sysPath, [p.path] + rest, PortKey(ports));
      assert [p.sysPath] + ([p.path] + rest) == Places(ports);
    }
  }

  /** The key of a device is the first nonempty among its physical path and, port by port,
      the sysfs path and the node path. */
  lemma KeyIsFirstNonempty(d: Device)
    ensures FirstNonempty([d.physicalPath] + Places(d.ports), Key(d))
  {
    PortKeyIs(d.ports);
    FirstOf(d.physicalPath, Places(d.ports), Key(d));
  }
}
