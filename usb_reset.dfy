/**
 * The pure helpers of scripts/usb_reset.py: the reset ioctl number, the
 * device-node path, the guest's uid/gid, the device-cgroup rule line, the
 * cgroup and chroot directories, and the default device whitelist.
 */
module UsbReset {
  import opened Options
  import opened Decimal

  /** `_IO(type, nr)` of Linux's ioctl.h (no direction, no size): type in bits 8-15, number in bits 0-7. */
  function Io(kind: bv8, nr: bv8): (request: bv16)
    ensures (request >> 8) as bv8 == kind
    ensures (request & 0xFF) as bv8 == nr
  {
    (kind as bv16 << 8) | nr as bv16
  }

  /** USBDEVFS_RESET is `_IO('U', 20)`; 85 is the code point of 'U'. */
  const UsbDevFsReset: bv16 := Io(85, 20)

  /** `/dev/bus/usb/<bus:03d>/<dev:03d>` */
  function DevPath(bus: int, dev: int): (p: string)
    ensures |p| >= |"/dev/bus/usb/000/000"|
    ensures p[..|"/dev/bus/usb/"|] == "/dev/bus/usb/"
  {
    Format03dWidth(bus);
    Format03dWidth(dev);
    "/dev/bus/usb/" + Format03d(bus) + "/" + Format03d(dev)
  }

  lemma Format03dWidth(n: int)
    ensures |Format03d(n)| >= 3
  {
  }

  /** The position of the first `c` in `s`, or `|s|` when there is none. */
  function IndexOf(s: string, c: char): (i: nat)
    ensures i <= |s|
    ensures i < |s| ==> s[i] == c
    ensures forall j :: 0 <= j < i ==> s[j] != c
  {
    if s == [] then 0 else if s[0] == c then 0 else 1 + IndexOf(s[1..], c)
  }

  lemma SeparatorAt(a: string, b: string, sep: char)
    requires sep !in a
    ensures IndexOf(a + [sep] + b, sep) == |a|
  {
    var x := a + [sep] + b;
    assert x[|a|] == sep;
    assert forall j :: 0 <= j < |a| ==> x[j] == a[j];
  }

  /** Splitting at the first separator is unambiguous when the left parts cannot hold it. */
  lemma SeparatorSplit(a: string, b: string, c: string, d: string, sep: char)
    requires sep !in a && sep !in c
    requires a + [sep] + b == c + [sep] + d
    ensures a == c && b == d
  {
    var x := a + [sep] + b;
    var y := c + [sep] + d;
    SeparatorAt(a, b, sep);
    SeparatorAt(c, d, sep);
    assert |a| == |c|;
    assert a == x[..|a|] && c == y[..|c|];
    assert b == x[|a| + 1..] && d == y[|c| + 1..];
  }

  lemma DigitsHaveNo(s: string, c: char)
    requires IsDigits(s) && !IsDigit(c)
    ensures c !in s
  {
  }

  lemma CommonPrefix(p: string, x: string, y: string)
    requires p + x == p + y
    ensures x == y
  {
    assert x == (p + x)[|p|..];
    assert y == (p + y)[|p|..];
  }

  lemma Format03dInjective(m: nat, n: nat)
    requires Format03d(m) == Format03d(n)
    ensures m == n
  {
    Format03dReadsBack(m);
    Format03dReadsBack(n);
  }

  /** A path `prefix + a + "/" + b` determines `a` and `b` when `a` holds no slash. */
  lemma SlashSplit(prefix: string, a: string, b: string, c: string, d: string)
    requires '/' !in a && '/' !in c
    requires prefix + a + "/" + b == prefix + c + "/" + d
    ensures a == c && b == d
  {
    assert prefix + a + "/" + b == prefix + (a + ['/'] + b);
    assert prefix + c + "/" + d == prefix + (c + ['/'] + d);
    CommonPrefix(prefix, a + ['/'] + b, c + ['/'] + d);
    SeparatorSplit(a, b, c, d, '/');
  }

  /** Distinct bus/device pairs name distinct device nodes. */
  lemma DevPathInjective(bus1: nat, dev1: nat, bus2: nat, dev2: nat)
    requires DevPath(bus1, dev1) == DevPath(bus2, dev2)
    ensures bus1 == bus2 && dev1 == dev2
  {
    Format03dReadsBack(bus1);
    Format03dReadsBack(bus2);
    DigitsHaveNo(Format03d(bus1), '/');
    DigitsHaveNo(Format03d(bus2), '/');
    SlashSplit("/dev/bus/usb/", Format03d(bus1), Format03d(dev1), Format03d(bus2), Format03d(dev2));
    Format03dInjective(bus1, bus2);
    Format03dInjective(dev1, dev2);
  }

  /** The shape of a device-node path: three-digit-minimum zero-padded numbers. */
  lemma DevPathLayout(bus: nat, dev: nat)
    ensures var b, d := NatToString(bus), NatToString(dev);
      DevPath(bus, dev) == "/dev/bus/usb/" + ZeroPad(b, 3) + "/" + ZeroPad(d, 3)
  {
    Format03dReadsBack(bus);
    Format03dReadsBack(dev);
  }

  datatype Ids = Ids(uid: int, gid: int)

  /** `domid_to_ids`: the `qemu_base` account's uid and gid, each offset by the domain id. */
  function DomIdToIds(base: Ids, domId: int): (ids: Ids)
    ensures ids.uid - base.uid == domId && ids.gid - base.gid == domId
    ensures ids.uid - ids.gid == base.uid - base.gid
  {
    Ids(base.uid + domId, base.gid + domId)
  }

  /** What `os.stat` reports about a path, as far as the script looks at it. */
  datatype Node = Missing | Blk(major: nat, minor: nat) | Chr(major: nat, minor: nat) | Other

  function Stat(nodes: map<string, Node>, path: string): Node {
    if path in nodes then nodes[path] else Missing
  }

  /** The `t` prefix of `get_dev_control`: block is checked before character. */
  function KindPrefix(st: Node): string {
    if st.Blk? then "b " else if st.Chr? then "c " else ""
  }

  /**
   * `get_dev_control`: the device-cgroup rule `"<b|c> <major>:<minor> <mode>"`
   * for a block or character device and mode "r" or "rw", otherwise None.
   */
  function DevControl(st: Node, mode: string): (rule: Option<string>)
    ensures rule.Some? <==> (st.Blk? || st.Chr?) && (mode == "r" || mode == "rw")
    ensures rule.Some? ==> |rule.value| > 2 + |mode| && rule.value[1] == ' '
    ensures rule.Some? ==> rule.value[0] == if st.Blk? then 'b' else 'c'
    ensures rule.Some? ==> rule.value[|rule.value| - |mode| - 1..] == " " + mode
  {
    var t := KindPrefix(st);
    if t != "" && (mode == "r" || mode == "rw") then
      Some(t + NatToString(st.major) + ":" + NatToString(st.minor) + " " + mode)
    else None
  }

  lemma RuleRegroup(t: string, x: string, y: string, m: string)
    ensures t + x + ":" + y + " " + m == t + (x + [':'] + (y + [' '] + m))
  {
  }

  lemma FieldsInjective(t1: string, x1: string, y1: string, m1: string, t2: string, x2: string, y2: string, m2: string)
    requires |t1| == |t2| && IsDigits(x1) && IsDigits(y1) && IsDigits(x2) && IsDigits(y2)
    requires t1 + (x1 + [':'] + (y1 + [' '] + m1)) == t2 + (x2 + [':'] + (y2 + [' '] + m2))
    ensures t1 == t2 && x1 == x2 && y1 == y2 && m1 == m2
  {
    var line := t1 + (x1 + [':'] + (y1 + [' '] + m1));
    assert t1 == line[..|t1|];
    assert t2 == (t2 + (x2 + [':'] + (y2 + [' '] + m2)))[..|t2|];
    CommonPrefix(t1, x1 + [':'] + (y1 + [' '] + m1), x2 + [':'] + (y2 + [' '] + m2));
    DigitsHaveNo(x1, ':');
    DigitsHaveNo(x2, ':');
    SeparatorSplit(x1, y1 + [' '] + m1, x2, y2 + [' '] + m2, ':');
    DigitsHaveNo(y1, ' ');
    DigitsHaveNo(y2, ' ');
    SeparatorSplit(y1, m1, y2, m2, ' ');
  }

  lemma RuleTextInjective(t1: string, a1: nat, b1: nat, m1: string, t2: string, a2: nat, b2: nat, m2: string)
    requires |t1| == |t2|
    requires t1 + NatToString(a1) + ":" + NatToString(b1) + " " + m1
          == t2 + NatToString(a2) + ":" + NatToString(b2) + " " + m2
    ensures t1 == t2 && a1 == a2 && b1 == b2 && m1 == m2
  {
    RuleRegroup(t1, NatToString(a1), NatToString(b1), m1);
    RuleRegroup(t2, NatToString(a2), NatToString(b2), m2);
    FieldsInjective(t1, NatToString(a1), NatToString(b1), m1, t2, NatToString(a2), NatToString(b2), m2);
    NatToStringInjective(a1, a2);
    NatToStringInjective(b1, b2);
  }

  /** A rule line determines the node it was built from and the mode. */
  lemma DevControlDetermines(st1: Node, mode1: string, st2: Node, mode2: string)
    requires DevControl(st1, mode1).Some?
    requires DevControl(st1, mode1) == DevControl(st2, mode2)
    ensures st1 == st2 && mode1 == mode2
  {
    RuleTextInjective(KindPrefix(st1), st1.major, st1.minor, mode1, KindPrefix(st2), st2.major, st2.minor, mode2);
  }

  /** Searching `a + [sep] + b` for `sep` stops right after `a` when `a` holds none. */
  lemma IndexOfSeparator(a: string, sep: char, b: string)
    requires sep !in a
    ensures IndexOf(a + [sep] + b, sep) == |a|
    ensures (a + [sep] + b)[..|a|] == a && (a + [sep] + b)[|a| + 1..] == b
  {
    var x := a + [sep] + b;
    SeparatorAt(a, b, sep);
    assert x[..|a|] == a;
  }

  /**
   * A rule line reads back: after the two-character kind prefix come the
   * decimal major up to the first ':', then the decimal minor up to the next
   * ' ', then the mode.
   */
  lemma DevControlReadsBack(st: Node, mode: string)
    requires DevControl(st, mode).Some?
    ensures var rule := DevControl(st, mode).value;
      var i := IndexOf(rule, ':');
      && 2 < i < |rule|
      && rule[..2] == (if st.Blk? then "b " else "c ")
      && IsDigits(rule[2..i]) && DigitsValue(rule[2..i]) == st.major
      && var rest := rule[i + 1..];
         var k := IndexOf(rest, ' ');
         && k < |rest|
         && IsDigits(rest[..k]) && DigitsValue(rest[..k]) == st.minor
         && rest[k + 1..] == mode
  {
    var rule := DevControl(st, mode).value;
    var t, x, y := KindPrefix(st), NatToString(st.major), NatToString(st.minor);
    var tail := y + [' '] + mode;
    RuleRegroup(t, x, y, mode);
    assert rule == (t + x) + [':'] + tail;
    DigitsHaveNo(x, ':');
    assert ':' !in t + x;
    IndexOfSeparator(t + x, ':', tail);
    assert rule[2..|t + x|] == x;
    DigitsHaveNo(y, ' ');
    IndexOfSeparator(y, ' ', mode);
  }

  /** How a domain id is rendered into a path: `str(dom_id)`, or "None" in `-i` mode. */
  function DomIdText(domId: Option<int>): (text: string)
    ensures |text| > 0
  {
    match domId
    case None => "None"
    case Some(d) => IntToString(d)
  }

  lemma DomIdTextInjective(a: Option<int>, b: Option<int>)
    requires DomIdText(a) == DomIdText(b)
    ensures a == b
  {
    if a.Some? {
      IntToStringAlphabet(a.value);
    }
    if b.Some? {
      IntToStringAlphabet(b.value);
    }
    if a.Some? && b.Some? {
      IntToStringInjective(a.value, b.value);
    }
  }

  /** `get_cg_dir`: the guest's device control group. */
  function CgDir(domId: Option<int>): (cg: string)
    ensures |cg| > |"/sys/fs/cgroup/devices/qemu-"| + 1
    ensures cg[..|"/sys/fs/cgroup/devices/qemu-"|] == "/sys/fs/cgroup/devices/qemu-" && cg[|cg| - 1] == '/'
  {
    "/sys/fs/cgroup/devices/qemu-" + DomIdText(domId) + "/"
  }

  /** The guest's chroot directory `/var/xen/qemu/<dom_id>/`. */
  function RootDir(domId: Option<int>): (root: string)
    ensures |root| > |"/var/xen/qemu/"| + 1
    ensures root[..|"/var/xen/qemu/"|] == "/var/xen/qemu/" && root[|root| - 1] == '/'
  {
    "/var/xen/qemu/" + DomIdText(domId) + "/"
  }

  lemma FramedInjective(prefix: string, a: string, b: string)
    requires prefix + a + "/" == prefix + b + "/"
    ensures a == b
  {
    var x := prefix + a + "/";
    assert x[|prefix|..|x| - 1] == a;
  }

  /** Distinct guests (including the "None" guest) get distinct control groups and roots. */
  lemma GuestDirsDistinct(a: Option<int>, b: Option<int>)
    requires a != b
    ensures CgDir(a) != CgDir(b) && RootDir(a) != RootDir(b)
  {
    if CgDir(a) == CgDir(b) {
      FramedInjective("/sys/fs/cgroup/devices/qemu-", DomIdText(a), DomIdText(b));
      DomIdTextInjective(a, b);
    }
    if RootDir(a) == RootDir(b) {
      FramedInjective("/var/xen/qemu/", DomIdText(a), DomIdText(b));
      DomIdTextInjective(a, b);
    }
  }

  /** The rule written to `devices.deny` when a control group is created: deny all. */
  const DenyAll := "a"

  /** The storage-backend rule: block major 254, all minors, read-write. */
  const SmBackendRule := "b 254:* rw"

  /** The default whitelist of `create_and_join_cgroup`, in order. */
  const Whitelist: seq<(string, string)> := [
    ("/dev/urandom", "r"),
    ("/dev/xen/privcmd", "rw"),
    ("/dev/net/tun", "rw"),
    ("/dev/xen/evtchn", "rw"),
    ("/dev/mem", "rw"),
    ("/dev/null", "r")
  ]

  /** The rule one whitelist entry contributes: none when `get_dev_control` gives None. */
  function EntryRules(nodes: map<string, Node>, entry: (string, string)): seq<string> {
    match DevControl(Stat(nodes, entry.0), entry.1)
    case Some(rule) => [rule]
    case None => []
  }

  /** The allow rules a whitelist produces, in list order, skipping entries with no rule. */
  function Rules(nodes: map<string, Node>, entries: seq<(string, string)>): seq<string>
    decreases |entries|
  {
    if entries == [] then []
    else Rules(nodes, entries[..|entries| - 1]) + EntryRules(nodes, entries[|entries| - 1])
  }

  /** Rules distributes over concatenation, so it keeps the list order. */
  lemma {:induction false} RulesAppend(nodes: map<string, Node>, xs: seq<(string, string)>, ys: seq<(string, string)>)
    ensures Rules(nodes, xs + ys) == Rules(nodes, xs) + Rules(nodes, ys)
    decreases |ys|
  {
    if ys == [] {
      assert xs + ys == xs;
    } else {
      var init, last := ys[..|ys| - 1], ys[|ys| - 1];
      var both := xs + ys;
      assert both[..|both| - 1] == xs + init;
      assert both[|both| - 1] == last;
      assert Rules(nodes, both) == Rules(nodes, xs + init) + EntryRules(nodes, last);
      assert Rules(nodes, ys) == Rules(nodes, init) + EntryRules(nodes, last);
      RulesAppend(nodes, xs, init);
    }
  }

  /** Every rule comes from some entry of the list. */
  lemma {:induction false} RulesSound(nodes: map<string, Node>, entries: seq<(string, string)>, r: string)
    requires r in Rules(nodes, entries)
    ensures exists k :: 0 <= k < |entries| && DevControl(Stat(nodes, entries[k].0), entries[k].1) == Some(r)
    decreases |entries|
  {
    var n := |entries| - 1;
    var init := entries[..n];
    if r in Rules(nodes, init) {
      RulesSound(nodes, init, r);
      var k :| 0 <= k < |init| && DevControl(Stat(nodes, init[k].0), init[k].1) == Some(r);
      assert entries[k] == init[k];
    } else {
      assert DevControl(Stat(nodes, entries[n].0), entries[n].1) == Some(r);
    }
  }

  /** Every entry that has a rule contributes it. */
  lemma {:induction false} RulesComplete(nodes: map<string, Node>, entries: seq<(string, string)>, k: nat)
    requires k < |entries|
    requires DevControl(Stat(nodes, entries[k].0), entries[k].1).Some?
    ensures DevControl(Stat(nodes, entries[k].0), entries[k].1).value in Rules(nodes, entries)
    decreases |entries|
  {
    var n := |entries| - 1;
    if k < n {
      var init := entries[..n];
      assert init[k] == entries[k];
      RulesComplete(nodes, init, k);
    }
  }

  /** At most one rule per entry, and exactly one each iff every entry yields a rule. */
  lemma {:induction false} RulesCount(nodes: map<string, Node>, entries: seq<(string, string)>)
    ensures |Rules(nodes, entries)| <= |entries|
    ensures |Rules(nodes, entries)| == |entries| <==>
      forall k :: 0 <= k < |entries| ==> DevControl(Stat(nodes, entries[k].0), entries[k].1).Some?
    decreases |entries|
  {
    if entries != [] {
      var init := entries[..|entries| - 1];
      RulesCount(nodes, init);
      assert forall k :: 0 <= k < |init| ==> init[k] == entries[k];
    }
  }

  /** Every whitelist mode is accepted, so an entry yields a rule exactly when its path is a device node. */
  lemma WhitelistRuleIffDevice(nodes: map<string, Node>, k: nat)
    requires k < |Whitelist|
    ensures EntryRules(nodes, Whitelist[k]) != [] <==>
      (Stat(nodes, Whitelist[k].0).Blk? || Stat(nodes, Whitelist[k].0).Chr?)
  {
  }

  /** The ioctl number of USBDEVFS_RESET. */
  lemma ExampleIoctl()
    ensures UsbDevFsReset == 0x5514
  {
  }

  /** The node of device 5 on bus 2. */
  lemma {:induction false} ExampleDevPath()
    ensures DevPath(2, 5) == "/dev/bus/usb/002/005"
  {
    assert Format03d(2) == "002" by {
      assert NatToString(2) == "2";
      assert Zeros(1) == "0";
    }
    assert Format03d(5) == "005" by {
      assert NatToString(5) == "5";
      assert Zeros(1) == "0";
    }
  }

  /** Guest 12's ids and control group, and the control group of a run with no guest. */
  lemma {:induction false} ExampleGuest()
    ensures DomIdToIds(Ids(1000, 1000), 12) == Ids(1012, 1012)
    ensures CgDir(Some(12)) == "/sys/fs/cgroup/devices/qemu-12/" && CgDir(None) == "/sys/fs/cgroup/devices/qemu-None/"
  {
    assert IntToString(12) == "12" by {
      assert NatToString(12) == "12";
    }
  }

  /** Concrete rules: a character device with mode "rw", and the cases that give no rule. */
  lemma {:induction false} ExampleRules()
    ensures DevControl(Chr(189, 4), "rw") == Some("c 189:4 rw")
    ensures DevControl(Other, "rw") == None && DevControl(Chr(189, 4), "w") == None
  {
    assert NatToString(189) == "189" by {
      assert NatToString(18) == "18";
    }
    assert NatToString(4) == "4";
    assert "c " + "189" + ":" + "4" + " " + "rw" == "c 189:4 rw";
  }
}
