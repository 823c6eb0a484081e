/**
 * What the script promises about its effects on the host, stated over the
 * specification functions of module Host: the order of the control-group writes, the
 * guarded create-if-absent steps of attach, what detach touches, the order
 * of read, reset and chown, and that attaching again only adds an allow rule.
 */
module Properties {
  import opened Options
  import opened Decimal
  import opened DeviceNames
  import opened UsbReset
  import opened Host

  /** The rule `allow_device` / `deny_device` write for a node: one line, or none. */
  function DeviceRule(o: Oracle, path: string): (rules: seq<string>)
    ensures |rules| <= 1
    ensures rules != [] <==> Stat(o.nodes, path).Blk? || Stat(o.nodes, path).Chr?
  {
    EntryRules(o.nodes, (path, "rw"))
  }

  /** `v` differs from `w` only by `lines` written to file `f`. */
  ghost predicate OnlyAppended(w: World, v: World, f: string, lines: seq<string>) {
    && v.Written(f) == w.Written(f) + lines
    && forall g :: g != f ==> v.Written(g) == w.Written(g)
  }

  function ResetCalls(a: Args, path: string): seq<Op> {
    if a.reset then [Ioctl(path, UsbDevFsReset)] else []
  }

  function ChownCalls(owner: Option<Ids>, path: string): seq<Op> {
    if owner.Some? then [Chown(path, owner.value)] else []
  }

  /** The three control files of a control group have distinct paths. */
  lemma ControlFilesDistinct(cg: string)
    ensures cg + "devices.deny" != cg + "devices.allow"
    ensures cg + "devices.deny" != cg + "tasks"
    ensures cg + "devices.allow" != cg + "tasks"
  {
    assert |cg + "devices.deny"| != |cg + "devices.allow"|;
    assert |cg + "tasks"| != |cg + "devices.allow"|;
    assert |cg + "tasks"| != |cg + "devices.deny"|;
  }

  /** What setting up control group `cg` leaves in file `f`. */
  function CgWritten(w: World, cg: string, rules: seq<string>, pid: int, f: string): seq<string> {
    if f == cg + "devices.deny" then w.Written(f) + [DenyAll]
    else if f == cg + "devices.allow" then w.Written(f) + ([SmBackendRule] + rules)
    else if f == cg + "tasks" then w.Written(f) + [IntToString(pid)]
    else w.Written(f)
  }

  /** The writes made when setting up control group `cg`, in order. */
  function CgWrites(cg: string, rules: seq<string>, pid: int): seq<Op> {
    [Write(cg + "devices.deny", DenyAll), Write(cg + "devices.allow", SmBackendRule)]
      + Writes(cg + "devices.allow", rules) + [Write(cg + "tasks", IntToString(pid))]
  }

  lemma WrittenAfterAppend(w: World, path: string, data: string, f: string)
    ensures w.Appended(path, data).Written(f) == if f == path then w.Written(f) + [data] else w.Written(f)
  {
  }

  lemma WrittenAfterAppendAll(w: World, path: string, lines: seq<string>, f: string)
    ensures w.AppendedAll(path, lines).Written(f) == if f == path then w.Written(f) + lines else w.Written(f)
  {
  }

  /** Each control file of a new control group gets its lines in order; no other file changes. */
  lemma SetUpCgroupWritten(w: World, cg: string, rules: seq<string>, pid: int, f: string)
    ensures SetUpCgroup(w, cg, rules, pid).Written(f) == CgWritten(w, cg, rules, pid, f)
  {
    ControlFilesDistinct(cg);
    WritesInOrder(w, cg + "devices.deny", cg + "devices.allow", cg + "tasks", rules, IntToString(pid), f);
  }

  /** The four write steps of a control-group set-up, on three distinct files. */
  lemma WritesInOrder(w: World, deny: string, allow: string, tasks: string, rules: seq<string>, line: string, f: string)
    requires deny != allow && allow != tasks && deny != tasks
    ensures w.Appended(deny, DenyAll).Appended(allow, SmBackendRule).AppendedAll(allow, rules).Appended(tasks, line).Written(f)
      == if f == deny then w.Written(f) + [DenyAll]
         else if f == allow then w.Written(f) + ([SmBackendRule] + rules)
         else if f == tasks then w.Written(f) + [line]
         else w.Written(f)
  {
    var w2 := w.Appended(deny, DenyAll);
    var w3 := w2.Appended(allow, SmBackendRule);
    var w4 := w3.AppendedAll(allow, rules);
    WrittenAfterAppend(w4, tasks, line, f);
    WrittenAfterAppendAll(w3, allow, rules, f);
    WrittenAfterAppend(w2, allow, SmBackendRule, f);
    WrittenAfterAppend(w, deny, DenyAll, f);
    if f == allow {
      assert w4.Written(f) == w.Written(f) + [SmBackendRule] + rules;
      assert w.Written(f) + [SmBackendRule] + rules == w.Written(f) + ([SmBackendRule] + rules);
    }
  }

  /** Setting up a control group only writes: the calls are its writes, in order. */
  lemma SetUpCgroupCalls(w: World, cg: string, rules: seq<string>, pid: int)
    ensures var r := SetUpCgroup(w, cg, rules, pid);
      && r.dirs == w.dirs && r.mounts == w.mounts && r.owners == w.owners
      && r.calls == w.calls + CgWrites(cg, rules, pid)
  {
    var deny, allow, tasks := cg + "devices.deny", cg + "devices.allow", cg + "tasks";
    var first := [Write(deny, DenyAll), Write(allow, SmBackendRule)];
    assert w.calls + [Write(deny, DenyAll)] + [Write(allow, SmBackendRule)] == w.calls + first;
    assert w.calls + first + Writes(allow, rules) + [Write(tasks, IntToString(pid))]
        == w.calls + (first + Writes(allow, rules) + [Write(tasks, IntToString(pid))]);
  }

  /**
   * `create_and_join_cgroup` either stops at a refused or repeated mkdir,
   * changing nothing, or creates the control-group directory and sets it up.
   */
  lemma CreateCgroupShape(o: Oracle, w: World, domId: Option<int>, pid: int)
    ensures var r, cg := CreateCgroup(o, w, domId, pid), CgDir(domId);
      r.Exit1? <==> cg in w.dirs || Mkdir(cg, DirMode) in o.refused
    ensures var r := CreateCgroup(o, w, domId, pid); r.Exit1? ==> r.world == w
    ensures var r, cg := CreateCgroup(o, w, domId, pid), CgDir(domId);
      r.Running? ==> r.world == SetUpCgroup(w.Apply(Mkdir(cg, DirMode)), cg, Rules(o.nodes, Whitelist), pid)
    ensures var r := CreateCgroup(o, w, domId, pid);
      r.Running? ==> r.world.dirs == w.dirs + {CgDir(domId)} && r.world.mounts == w.mounts && r.world.owners == w.owners
  {
    var cg := CgDir(domId);
    SetUpCgroupCalls(w.Apply(Mkdir(cg, DirMode)), cg, Rules(o.nodes, Whitelist), pid);
  }

  /**
   * `create_and_join_cgroup`, when it succeeds: every file ends as CgWritten
   * says, and the calls are the mkdir and then the writes in order.
   */
  lemma CreateCgroupWrites(o: Oracle, w: World, domId: Option<int>, pid: int)
    requires CreateCgroup(o, w, domId, pid).Running?
    ensures var r, cg := CreateCgroup(o, w, domId, pid).world, CgDir(domId);
      && (forall f :: r.Written(f) == CgWritten(w, cg, Rules(o.nodes, Whitelist), pid, f))
      && r.calls == w.calls + [Mkdir(cg, DirMode)] + CgWrites(cg, Rules(o.nodes, Whitelist), pid)
  {
    var cg := CgDir(domId);
    var rules := Rules(o.nodes, Whitelist);
    var w1 := w.Apply(Mkdir(cg, DirMode));
    CreateCgroupShape(o, w, domId, pid);
    SetUpCgroupCalls(w1, cg, rules, pid);
    var r := SetUpCgroup(w1, cg, rules, pid);
    assert w1.logs == w.logs;
    forall f ensures r.Written(f) == CgWritten(w, cg, rules, pid, f) {
      SetUpCgroupWritten(w1, cg, rules, pid, f);
      CgWrittenSameLogs(w1, w, cg, rules, pid, f);
    }
  }

  lemma CgWrittenSameLogs(w: World, v: World, cg: string, rules: seq<string>, pid: int, f: string)
    requires w.logs == v.logs
    ensures CgWritten(w, cg, rules, pid, f) == CgWritten(v, cg, rules, pid, f)
  {
  }

  /**
   * What a set-up control group holds: "a" is the one line added to
   * devices.deny, devices.allow gets the storage-backend rule and then the
   * rules in order, the pid is added to tasks, and no other file changes.
   */
  lemma CgWrittenFiles(w: World, cg: string, rules: seq<string>, pid: int)
    ensures var deny, allow, tasks := cg + "devices.deny", cg + "devices.allow", cg + "tasks";
      && CgWritten(w, cg, rules, pid, deny) == w.Written(deny) + [DenyAll]
      && CgWritten(w, cg, rules, pid, allow) == w.Written(allow) + [SmBackendRule] + rules
      && CgWritten(w, cg, rules, pid, tasks) == w.Written(tasks) + [IntToString(pid)]
      && forall f :: f != deny && f != allow && f != tasks ==> CgWritten(w, cg, rules, pid, f) == w.Written(f)
  {
    ControlFilesDistinct(cg);
    assert w.Written(cg + "devices.allow") + [SmBackendRule] + rules
        == w.Written(cg + "devices.allow") + ([SmBackendRule] + rules);
  }

  /**
   * `allow_device` and `deny_device`, when the control group exists: the one
   * file gets the node's "rw" rule, if any, and no other file changes.
   */
  lemma EditRuleEffect(o: Oracle, w: World, domId: Option<int>, file: string, path: string)
    ensures var r, f := EditRule(o, w, domId, file, path), CgDir(domId) + file;
      r.Running? ==>
        && OnlyAppended(w, r.world, f, DeviceRule(o, path))
        && r.world.calls == w.calls + Writes(f, DeviceRule(o, path))
  {
    var f := CgDir(domId) + file;
    if CgDir(domId) in w.dirs {
      match DevControl(Stat(o.nodes, path), "rw")
      case None =>
        assert DeviceRule(o, path) == [];
        assert w.Written(f) + [] == w.Written(f);
        assert Writes(f, []) == [];
        assert w.calls + [] == w.calls;
      case Some(rule) =>
        assert DeviceRule(o, path) == [rule];
        assert Writes(f, [rule]) == [Write(f, rule)];
        forall g | g != f ensures w.Appended(f, rule).Written(g) == w.Written(g) {
          WrittenAfterAppend(w, f, rule, g);
        }
    }
  }

  /** Reading the two bus files changes nothing but the record of reads. */
  lemma LocateEffect(o: Oracle, w: World, device: string)
    ensures var r := Locate(o, w, device);
      && r.world.dirs == w.dirs && r.world.mounts == w.mounts && r.world.logs == w.logs && r.world.owners == w.owners
      && (r.Exit1? ==> forall op :: op in r.world.calls ==> op in w.calls || op.ReadFile?)
      && (r.Running? ==> r.world.calls == w.calls + [ReadFile(BusFile(device, "busnum")), ReadFile(BusFile(device, "devnum"))])
  {
  }

  /** The reset is one ioctl on the node, or nothing; a refused reset changes nothing. */
  lemma ResetEffect(o: Oracle, w: World, a: Args, path: string)
    ensures var r := ResetNode(o, w, a, path);
      && (r.Exit1? <==> a.reset && Ioctl(path, UsbDevFsReset) in o.refused)
      && (r.Exit1? ==> r.world == w)
      && (r.Running? ==> r.world == w.(calls := w.calls + ResetCalls(a, path)))
  {
    if !a.reset {
      assert w.calls + [] == w.calls;
    }
  }

  /** The chown is one call giving the node to the owner, or nothing; a refused chown changes nothing. */
  lemma ChownEffect(o: Oracle, w: World, owner: Option<Ids>, path: string)
    ensures var r := ChownNode(o, w, owner, path);
      && (r.Exit1? <==> owner.Some? && Chown(path, owner.value) in o.refused)
      && (r.Exit1? ==> r.world == w)
      && (r.Running? ==> r.world == w.(calls := w.calls + ChownCalls(owner, path),
                                       owners := if owner.Some? then w.owners[path := owner.value] else w.owners))
  {
    if owner.None? {
      assert w.calls + [] == w.calls;
    }
  }

  /** The steps before the guest root is looked at change owners at most, and only by the chown. */
  lemma PrepareEffect(o: Oracle, w: World, a: Args, base: Ids)
    ensures var r := Prepare(o, w, a, base);
      r.world.dirs == w.dirs && r.world.mounts == w.mounts && r.world.logs == w.logs
    ensures var r := Prepare(o, w, a, base);
      r.Exit1? ==> r.world.owners == w.owners && forall op :: op in r.world.calls ==> op in w.calls || op.ReadFile? || op.Ioctl?
    ensures var r := Prepare(o, w, a, base);
      r.Running? ==>
        var path, owner := NodePath(o, a.device), ChownTarget(a, base);
        && r.world.calls == w.calls + [ReadFile(BusFile(a.device, "busnum")), ReadFile(BusFile(a.device, "devnum"))]
                            + ResetCalls(a, path) + ChownCalls(owner, path)
        && r.world.owners == if owner.Some? then w.owners[path := owner.value] else w.owners
  {
    if NameMatches(a.device) {
      LocateEffect(o, w, a.device);
      var l := Locate(o, w, a.device);
      if l.Running? {
        var path, owner := NodePath(o, a.device), ChownTarget(a, base);
        ResetEffect(o, l.world, a, path);
        var t := ResetNode(o, l.world, a, path);
        if t.Running? {
          ChownEffect(o, t.world, owner, path);
          assert Prepare(o, w, a, base) == ChownNode(o, t.world, owner, path);
          var r := ChownNode(o, t.world, owner, path);
          if r.Exit1? {
            forall op | op in r.world.calls ensures op in w.calls || op.ReadFile? || op.Ioctl? {
              assert op in l.world.calls + ResetCalls(a, path);
            }
          }
        } else {
          assert Prepare(o, w, a, base) == t;
        }
      } else {
        assert Prepare(o, w, a, base) == l;
      }
    }
  }

  /**
   * A name outside `\d+-\d+(\.\d+)*` ends the run with status 1 before any
   * file is read and before any reset, chown, mount or write.
   */
  lemma InvalidNameTouchesNothing(o: Oracle, w: World, a: Args, base: Ids)
    requires ArgsParsed(a)
    requires !MatchesPattern(a.device)
    ensures Execute(o, w, a, base) == Exit1(w)
  {
    NameMatchesPattern(a.device);
  }

  /** A missing or unparsable bus file, or a refused reset, stops the run before any chown. */
  lemma LocateOrResetFailureStops(o: Oracle, w: World, a: Args, base: Ids)
    requires ArgsParsed(a) && NameMatches(a.device)
    requires || IntOfFile(o, BusFile(a.device, "busnum")).None?
             || IntOfFile(o, BusFile(a.device, "devnum")).None?
             || (a.reset && Ioctl(NodePath(o, a.device), UsbDevFsReset) in o.refused)
    ensures var r := Execute(o, w, a, base);
      && r.Exit1?
      && r.world.owners == w.owners && r.world.dirs == w.dirs
      && r.world.mounts == w.mounts && r.world.logs == w.logs
      && forall op :: op in r.world.calls ==> op in w.calls || op.ReadFile?
  {
  }

  /** Only `-d` with a nonzero domain id chowns to the guest account; `-d 0` chowns to nobody. */
  lemma ChownTargetCases(a: Args, base: Ids)
    requires ArgsParsed(a)
    ensures a.domId.Some? && a.domId.value != 0 ==> ChownTarget(a, base) == Some(DomIdToIds(base, a.domId.value))
    ensures a.domId == Some(0) ==> ChownTarget(a, base) == None
    ensures a.domId.None? ==> ChownTarget(a, base) == a.ids
  {
  }

  /** A missing guest root or `dev/` exits 1 after the chown and before any mount or cgroup write. */
  lemma MissingRootStops(o: Oracle, w: World, a: Args, base: Ids)
    requires ArgsParsed(a)
    requires Prepare(o, w, a, base).Running?
    requires RootDir(a.domId) !in w.dirs || RootDir(a.domId) + "dev/" !in w.dirs
    ensures var r := Execute(o, w, a, base);
      r == Exit1(Prepare(o, w, a, base).world)
      && r.world.dirs == w.dirs && r.world.mounts == w.mounts && r.world.logs == w.logs
  {
    PrepareEffect(o, w, a, base);
  }

  /**
   * Detach (no pid, or pid 0): at most one rule is added to devices.deny and
   * no mount, directory or other write is made.
   */
  lemma DetachEffect(o: Oracle, w: World, a: Args, base: Ids)
    requires ArgsParsed(a) && !Truthy(a.pid)
    requires Prepare(o, w, a, base).Running?
    ensures var r, p := Execute(o, w, a, base), Prepare(o, w, a, base).world;
      var deny := CgDir(a.domId) + "devices.deny";
      r.world.dirs == w.dirs && r.world.mounts == w.mounts
      && (r.Running? ==>
            && OnlyAppended(w, r.world, deny, DeviceRule(o, NodePath(o, a.device)))
            && r.world.calls == p.calls + Writes(deny, DeviceRule(o, NodePath(o, a.device))))
      && (r.Exit1? ==> r.world == p)
  {
    PrepareEffect(o, w, a, base);
    EditRuleEffect(o, Prepare(o, w, a, base).world, a.domId, "devices.deny", NodePath(o, a.device));
  }

  /** The calls of attach's first guarded step: none, or the bind mount and then the control group's set-up. */
  function BusCalls(bus: bool, cg: string, root: string, rules: seq<string>, pid: int): seq<Op> {
    if bus then [] else [MountFs(Bind("/dev", root + "dev/")), Mkdir(cg, DirMode)] + CgWrites(cg, rules, pid)
  }

  /** The calls of attach's second guarded step: none, or `sys/` and the sysfs mount. */
  function SysCalls(sys: bool, root: string): seq<Op> {
    if sys then [] else [Mkdir(root + "sys/", DirMode), MountFs(Sysfs(root + "sys/"))]
  }

  lemma Chain<T>(c0: seq<T>, c1: seq<T>, c2: seq<T>, c3: seq<T>, a: seq<T>, b: seq<T>, c: seq<T>)
    requires c1 == c0 + a && c2 == c1 + b && c3 == c2 + c
    ensures c3 == c0 + a + b + c
  {
  }

  /**
   * The first guarded step of attach, when it succeeds: skipped when
   * `dev/bus/` is present, otherwise the bind mount and a new control group;
   * either way it does not change whether `sys/` exists.
   */
  lemma BusStepEffect(o: Oracle, w: World, domId: Option<int>, pid: int, root: string)
    requires root == RootDir(domId)
    requires BusStep(o, w, domId, pid, root).Running?
    ensures var r, bus := BusStep(o, w, domId, pid, root).world, root + "dev/bus/" in w.dirs;
      && (root + "sys/" in r.dirs <==> root + "sys/" in w.dirs)
      && r.mounts == w.mounts + (if bus then [] else [Bind("/dev", root + "dev/")])
      && r.calls == w.calls + BusCalls(bus, CgDir(domId), root, Rules(o.nodes, Whitelist), pid)
  {
    if root + "dev/bus/" !in w.dirs {
      FirstAttachEffect(o, w, domId, pid, root);
    } else {
      assert w.calls + [] == w.calls && w.mounts + [] == w.mounts;
    }
  }

  /** A successful first attach: the bind mount, then the new control group's calls; `sys/` is untouched. */
  lemma FirstAttachEffect(o: Oracle, w: World, domId: Option<int>, pid: int, root: string)
    requires root == RootDir(domId)
    requires FirstAttach(o, w, domId, pid, root).Running?
    ensures var r := FirstAttach(o, w, domId, pid, root).world;
      && (root + "sys/" in r.dirs <==> root + "sys/" in w.dirs)
      && r.mounts == w.mounts + [Bind("/dev", root + "dev/")]
      && r.calls == w.calls + BusCalls(false, CgDir(domId), root, Rules(o.nodes, Whitelist), pid)
  {
    FirstAttachSysDir(o, w, domId, pid, root);
    FirstAttachMounts(o, w, domId, pid, root);
    FirstAttachCalls(o, w, domId, pid, root);
  }

  lemma FirstAttachSysDir(o: Oracle, w: World, domId: Option<int>, pid: int, root: string)
    requires root == RootDir(domId)
    requires FirstAttach(o, w, domId, pid, root).Running?
    ensures root + "sys/" in FirstAttach(o, w, domId, pid, root).world.dirs <==> root + "sys/" in w.dirs
  {
    var bind := MountFs(Bind("/dev", root + "dev/"));
    assert bind !in o.refused;
    FirstAttachUnfold(o, w, domId, pid, root);
    BindMountScope(w, domId, root);
    SysIsNotCgroup(domId, root);
  }

  lemma FirstAttachMounts(o: Oracle, w: World, domId: Option<int>, pid: int, root: string)
    requires FirstAttach(o, w, domId, pid, root).Running?
    ensures FirstAttach(o, w, domId, pid, root).world.mounts == w.mounts + [Bind("/dev", root + "dev/")]
  {
    var bind := MountFs(Bind("/dev", root + "dev/"));
    assert bind !in o.refused;
    FirstAttachUnfold(o, w, domId, pid, root);
    ApplyKeepsLogs(w, bind);
  }

  lemma FirstAttachCalls(o: Oracle, w: World, domId: Option<int>, pid: int, root: string)
    requires FirstAttach(o, w, domId, pid, root).Running?
    ensures FirstAttach(o, w, domId, pid, root).world.calls
         == w.calls + BusCalls(false, CgDir(domId), root, Rules(o.nodes, Whitelist), pid)
  {
    var bind := MountFs(Bind("/dev", root + "dev/"));
    var cg := CgDir(domId);
    var writes := CgWrites(cg, Rules(o.nodes, Whitelist), pid);
    assert bind !in o.refused;
    FirstAttachUnfold(o, w, domId, pid, root);
    var w1 := w.Apply(bind);
    ApplyKeepsLogs(w, bind);
    CreateCgroupCalls(o, w1, domId, pid);
    PairThen(w.calls, w1.calls, CreateCgroup(o, w1, domId, pid).world.calls, bind, Mkdir(cg, DirMode), writes);
  }

  lemma PairThen<T>(c0: seq<T>, c1: seq<T>, c2: seq<T>, x: T, y: T, rest: seq<T>)
    requires c1 == c0 + [x] && c2 == c1 + [y] + rest
    ensures c2 == c0 + ([x, y] + rest)
  {
    assert [x] + [y] + rest == [x, y] + rest;
  }

  /** The calls of a successful `create_and_join_cgroup`: the mkdir, then the writes. */
  lemma CreateCgroupCalls(o: Oracle, w: World, domId: Option<int>, pid: int)
    requires CreateCgroup(o, w, domId, pid).Running?
    ensures var r, cg := CreateCgroup(o, w, domId, pid).world, CgDir(domId);
      r.calls == w.calls + [Mkdir(cg, DirMode)] + CgWrites(cg, Rules(o.nodes, Whitelist), pid)
  {
    CreateCgroupWrites(o, w, domId, pid);
  }

  /** The second guarded step of attach, when it succeeds: skipped when `sys/` is present, otherwise `sys/` and sysfs. */
  lemma SysStepEffect(o: Oracle, w: World, root: string)
    requires SysStep(o, w, root).Running?
    ensures var r, sys := SysStep(o, w, root).world, root + "sys/" in w.dirs;
      && r.mounts == w.mounts + (if sys then [] else [Sysfs(root + "sys/")])
      && r.calls == w.calls + SysCalls(sys, root)
  {
    if root + "sys/" !in w.dirs {
      assert Mkdir(root + "sys/", DirMode) !in o.refused;
      assert MountFs(Sysfs(root + "sys/")) !in o.refused;
      MountSysFresh(o, w, root);
    } else {
      assert w.calls + [] == w.calls && w.mounts + [] == w.mounts;
    }
  }

  /** Attach unfolded into its three stages. */
  lemma AttachUnfold(o: Oracle, w: World, domId: Option<int>, pid: int, root: string, path: string)
    requires Attach(o, w, domId, pid, root, path).Running?
    ensures var b := BusStep(o, w, domId, pid, root);
      && b.Running? && SysStep(o, b.world, root).Running?
      && Attach(o, w, domId, pid, root, path) == EditRule(o, SysStep(o, b.world, root).world, domId, "devices.allow", path)
  {
  }

  /**
   * The guards of attach, in all four cases: the bind mount and the control
   * group are made only when `dev/bus/` is absent, `sys/` and sysfs only when
   * `sys/` is absent, and the device's allow rule is written last.
   */
  lemma AttachGuards(o: Oracle, w: World, domId: Option<int>, pid: int, root: string, path: string)
    requires root == RootDir(domId)
    requires Attach(o, w, domId, pid, root, path).Running?
    ensures var r, bus, sys := Attach(o, w, domId, pid, root, path).world, root + "dev/bus/" in w.dirs, root + "sys/" in w.dirs;
      && r.mounts == w.mounts + (if bus then [] else [Bind("/dev", root + "dev/")]) + (if sys then [] else [Sysfs(root + "sys/")])
      && r.calls == w.calls + BusCalls(bus, CgDir(domId), root, Rules(o.nodes, Whitelist), pid) + SysCalls(sys, root)
                    + Writes(CgDir(domId) + "devices.allow", DeviceRule(o, path))
      && |w.calls| <= |r.calls|
      && (Mkdir(CgDir(domId), DirMode) in r.calls[|w.calls|..] <==> !bus)
  {
    var cg := CgDir(domId);
    var r := Attach(o, w, domId, pid, root, path).world;
    AttachStageWorlds(o, w, domId, pid, root, path);
    SysIsNotCgroup(domId, root);
    WritesAreWrites(cg + "devices.allow", DeviceRule(o, path));
    NewCgroupMkdir(root + "dev/bus/" in w.dirs, root + "sys/" in w.dirs, cg, root, Rules(o.nodes, Whitelist), pid,
      Writes(cg + "devices.allow", DeviceRule(o, path)), w.calls, r.calls);
  }

  lemma WritesAreWrites(path: string, lines: seq<string>)
    ensures forall op :: op in Writes(path, lines) ==> op.Write?
  {
  }

  /** The mounts and calls of a successful attach, stage by stage. */
  lemma AttachStageWorlds(o: Oracle, w: World, domId: Option<int>, pid: int, root: string, path: string)
    requires root == RootDir(domId)
    requires Attach(o, w, domId, pid, root, path).Running?
    ensures var r, bus, sys := Attach(o, w, domId, pid, root, path).world, root + "dev/bus/" in w.dirs, root + "sys/" in w.dirs;
      && r.mounts == w.mounts + (if bus then [] else [Bind("/dev", root + "dev/")]) + (if sys then [] else [Sysfs(root + "sys/")])
      && r.calls == w.calls + BusCalls(bus, CgDir(domId), root, Rules(o.nodes, Whitelist), pid) + SysCalls(sys, root)
                    + Writes(CgDir(domId) + "devices.allow", DeviceRule(o, path))
  {
    var cg := CgDir(domId);
    var bus, sys := root + "dev/bus/" in w.dirs, root + "sys/" in w.dirs;
    AttachUnfold(o, w, domId, pid, root, path);
    var b := BusStep(o, w, domId, pid, root).world;
    BusStepEffect(o, w, domId, pid, root);
    var s := SysStep(o, b, root).world;
    SysStepEffect(o, b, root);
    EditRuleEffect(o, s, domId, "devices.allow", path);
    var r := EditRule(o, s, domId, "devices.allow", path).world;
    Chain(w.calls, b.calls, s.calls, r.calls,
      BusCalls(bus, cg, root, Rules(o.nodes, Whitelist), pid), SysCalls(sys, root), Writes(cg + "devices.allow", DeviceRule(o, path)));
    Chain(w.mounts, b.mounts, s.mounts, r.mounts,
      if bus then [] else [Bind("/dev", root + "dev/")], if sys then [] else [Sysfs(root + "sys/")], []);
  }

  /** Among the calls of an attach, the control group's mkdir appears exactly when the first step ran. */
  lemma NewCgroupMkdir(bus: bool, sys: bool, cg: string, root: string, rules: seq<string>, pid: int, rule: seq<Op>,
                       before: seq<Op>, after: seq<Op>)
    requires root + "sys/" != cg
    requires forall op :: op in rule ==> op.Write?
    requires after == before + BusCalls(bus, cg, root, rules, pid) + SysCalls(sys, root) + rule
    ensures |before| <= |after| && (Mkdir(cg, DirMode) in after[|before|..] <==> !bus)
  {
    var m := Mkdir(cg, DirMode);
    var added := BusCalls(bus, cg, root, rules, pid) + SysCalls(sys, root) + rule;
    assert after[|before|..] == added;
    if bus {
      assert m !in SysCalls(sys, root);
      assert added == SysCalls(sys, root) + rule;
    } else {
      assert added[1] == m;
    }
  }

  /** Attach with `dev/bus/` and `sys/` already present is just `allow_device`. */
  lemma AttachWhenSetUp(o: Oracle, w: World, domId: Option<int>, pid: int, root: string, path: string)
    requires root + "dev/bus/" in w.dirs && root + "sys/" in w.dirs
    ensures Attach(o, w, domId, pid, root, path) == EditRule(o, w, domId, "devices.allow", path)
  {
  }

  /**
   * Attaching to a guest whose root, `dev/bus/`, `sys/` and control group
   * all exist succeeds, mounts nothing, creates nothing and adds only the
   * device's allow rule.
   */
  lemma AttachSetUpGuest(o: Oracle, w: World, a: Args, base: Ids)
    requires ArgsParsed(a) && Truthy(a.pid)
    requires Prepare(o, w, a, base).Running?
    requires var root := RootDir(a.domId);
      && root in w.dirs && root + "dev/" in w.dirs && root + "dev/bus/" in w.dirs
      && root + "sys/" in w.dirs && CgDir(a.domId) in w.dirs
    ensures var r, p := Execute(o, w, a, base), Prepare(o, w, a, base).world;
      var allow := CgDir(a.domId) + "devices.allow";
      && r.Running?
      && r.world.dirs == w.dirs && r.world.mounts == w.mounts
      && OnlyAppended(w, r.world, allow, DeviceRule(o, NodePath(o, a.device)))
      && r.world.calls == p.calls + Writes(allow, DeviceRule(o, NodePath(o, a.device)))
  {
    var p := Prepare(o, w, a, base).world;
    PrepareEffect(o, w, a, base);
    AttachWhenSetUp(o, p, a.domId, a.pid.value, RootDir(a.domId), NodePath(o, a.device));
    EditRuleEffect(o, p, a.domId, "devices.allow", NodePath(o, a.device));
  }

  /** Every directory a bind mount shows lies under its target. */
  lemma MountedDirsUnder(dirs: set<string>, m: Mount)
    requires m.Bind?
    ensures forall d :: d in MountedDirs(dirs, m) ==> StartsWith(d, m.target)
  {
    forall d | d in MountedDirs(dirs, m) ensures StartsWith(d, m.target) {
      var e :| e in dirs && StartsWith(e, m.source + "/") && d == m.target + e[|m.source| + 1..];
      assert d[..|m.target|] == m.target;
    }
  }

  lemma DiffersAt(d: string, t: string, i: nat)
    requires i < |d| && i < |t| && d[i] != t[i]
    ensures !StartsWith(d, t)
  {
    if |t| <= |d| {
      assert d[..|t|][i] == d[i];
    }
  }

  /** Bind-mounting the host's /dev shows its `bus/` directory in the guest's `dev/`. */
  lemma BindShowsBus(dirs: set<string>, root: string)
    requires "/dev/bus/" in dirs
    ensures root + "dev/bus/" in MountedDirs(dirs, Bind("/dev", root + "dev/"))
  {
    var d := "/dev/bus/";
    assert StartsWith(d, "/dev" + "/");
    assert (root + "dev/") + d[|"/dev"| + 1..] == root + "dev/bus/";
  }

  /** After a successful attach the guest is set up: `dev/bus/`, `sys/` and the control group exist. */
  lemma AttachLeavesSetUp(o: Oracle, w: World, domId: Option<int>, pid: int, root: string, path: string)
    requires "/dev/bus/" in w.dirs
    requires Attach(o, w, domId, pid, root, path).Running?
    ensures var d := Attach(o, w, domId, pid, root, path).world.dirs;
      w.dirs <= d && root + "dev/bus/" in d && root + "sys/" in d && CgDir(domId) in d
  {
    AttachUnfold(o, w, domId, pid, root, path);
    BusStepDirs(o, w, domId, pid, root);
  }

  /** The first guarded step only adds directories and, when it succeeds, leaves `dev/bus/` in place. */
  lemma BusStepDirs(o: Oracle, w: World, domId: Option<int>, pid: int, root: string)
    requires "/dev/bus/" in w.dirs
    ensures var r := BusStep(o, w, domId, pid, root);
      w.dirs <= r.world.dirs && (r.Running? ==> root + "dev/bus/" in r.world.dirs)
  {
    if root + "dev/bus/" !in w.dirs {
      var bind := MountFs(Bind("/dev", root + "dev/"));
      if bind !in o.refused {
        BindShowsBus(w.dirs, root);
        CreateCgroupShape(o, w.Apply(bind), domId, pid);
      }
    }
  }

  /**
   * The steps before the guest root is looked at succeed exactly when the
   * name matches, both bus files hold integers, and neither the reset (if
   * asked for) nor the chown (if any) is refused: on the host's answers
   * alone, whatever the state.
   */
  lemma PrepareSucceeds(o: Oracle, w: World, a: Args, base: Ids)
    ensures Prepare(o, w, a, base).Running? <==>
      && NameMatches(a.device)
      && IntOfFile(o, BusFile(a.device, "busnum")).Some?
      && IntOfFile(o, BusFile(a.device, "devnum")).Some?
      && !(a.reset && Ioctl(NodePath(o, a.device), UsbDevFsReset) in o.refused)
      && !(ChownTarget(a, base).Some? && Chown(NodePath(o, a.device), ChownTarget(a, base).value) in o.refused)
  {
    if NameMatches(a.device) {
      var l := Locate(o, w, a.device);
      if l.Running? {
        var path, owner := NodePath(o, a.device), ChownTarget(a, base);
        ResetEffect(o, l.world, a, path);
        var t := ResetNode(o, l.world, a, path);
        if t.Running? {
          ChownEffect(o, t.world, owner, path);
          assert Prepare(o, w, a, base) == ChownNode(o, t.world, owner, path);
        } else {
          assert Prepare(o, w, a, base) == t;
        }
      } else {
        assert Prepare(o, w, a, base) == l;
      }
    }
  }

  /**
   * Idempotence of attach: after one successful attach (on a host that has
   * /dev/bus/), the same attach again succeeds, mounts nothing, creates no
   * directory or control group, and adds only the device's allow rule.
   */
  lemma SecondAttachOnlyAllows(o: Oracle, w: World, a: Args, base: Ids)
    requires ArgsParsed(a) && Truthy(a.pid) && "/dev/bus/" in w.dirs
    requires Execute(o, w, a, base).Running?
    ensures var w1 := Execute(o, w, a, base).world;
      var r := Execute(o, w1, a, base);
      var allow := CgDir(a.domId) + "devices.allow";
      && r.Running?
      && r.world.dirs == w1.dirs && r.world.mounts == w1.mounts
      && OnlyAppended(w1, r.world, allow, DeviceRule(o, NodePath(o, a.device)))
  {
    var root := RootDir(a.domId);
    var p := Prepare(o, w, a, base).world;
    PrepareEffect(o, w, a, base);
    AttachLeavesSetUp(o, p, a.domId, a.pid.value, root, NodePath(o, a.device));
    var w1 := Execute(o, w, a, base).world;
    PrepareSucceeds(o, w, a, base);
    PrepareSucceeds(o, w1, a, base);
    AttachSetUpGuest(o, w1, a, base);
  }

  /** A bind mount of the host's /dev onto a guest's `dev/` shows nothing outside that `dev/`. */
  lemma BindMountScope(p: World, domId: Option<int>, root: string)
    requires root == RootDir(domId)
    ensures CgDir(domId) !in MountedDirs(p.dirs, Bind("/dev", root + "dev/"))
    ensures root + "sys/" !in MountedDirs(p.dirs, Bind("/dev", root + "dev/"))
  {
    var bind := Bind("/dev", root + "dev/");
    MountedDirsUnder(p.dirs, bind);
    DiffersAt(CgDir(domId), root + "dev/", 1);
    DiffersAt(root + "sys/", root + "dev/", |root|);
  }

  /** A call other than a write leaves the control files alone; only a mount adds to the mount table. */
  lemma ApplyKeepsLogs(w: World, op: Op)
    requires !op.Write?
    ensures w.Apply(op).logs == w.logs && w.Apply(op).calls == w.calls + [op]
    ensures w.Apply(op).mounts == if op.MountFs? then w.mounts + [op.entry] else w.mounts
  {
  }

  /** The bind mount of `dev/` on a fresh guest shows `dev/bus/` and neither `sys/` nor the control group. */
  lemma BindOnFreshGuest(p: World, domId: Option<int>, root: string)
    requires root == RootDir(domId) && "/dev/bus/" in p.dirs
    requires root + "sys/" !in p.dirs && CgDir(domId) !in p.dirs
    ensures var d := p.Apply(MountFs(Bind("/dev", root + "dev/"))).dirs;
      root + "dev/bus/" in d && root + "sys/" !in d && CgDir(domId) !in d
  {
    BindMountScope(p, domId, root);
    BindShowsBus(p.dirs, root);
  }

  lemma FirstAttachUnfold(o: Oracle, p: World, domId: Option<int>, pid: int, root: string)
    requires MountFs(Bind("/dev", root + "dev/")) !in o.refused
    ensures FirstAttach(o, p, domId, pid, root) == CreateCgroup(o, p.Apply(MountFs(Bind("/dev", root + "dev/"))), domId, pid)
  {
  }

  /** The first-attach branch on a fresh guest: bind mount, then the control group. */
  lemma FreshFirstAttach(o: Oracle, p: World, domId: Option<int>, pid: int, root: string)
    requires root == RootDir(domId) && "/dev/bus/" in p.dirs
    requires root + "sys/" !in p.dirs && CgDir(domId) !in p.dirs
    requires MountFs(Bind("/dev", root + "dev/")) !in o.refused
    requires Mkdir(CgDir(domId), DirMode) !in o.refused
    ensures var r := FirstAttach(o, p, domId, pid, root);
      && r == CreateCgroup(o, p.Apply(MountFs(Bind("/dev", root + "dev/"))), domId, pid)
      && r.Running?
      && root + "dev/bus/" in r.world.dirs && root + "sys/" !in r.world.dirs && CgDir(domId) in r.world.dirs
      && r.world.mounts == p.mounts + [Bind("/dev", root + "dev/")]
  {
    var w1 := p.Apply(MountFs(Bind("/dev", root + "dev/")));
    FirstAttachUnfold(o, p, domId, pid, root);
    BindOnFreshGuest(p, domId, root);
    CreateCgroupShape(o, w1, domId, pid);
    SysIsNotCgroup(domId, root);
  }

  lemma SysIsNotCgroup(domId: Option<int>, root: string)
    requires root == RootDir(domId)
    ensures root + "sys/" != CgDir(domId)
  {
    assert (root + "sys/")[1] != CgDir(domId)[1];
  }

  /** The worlds a first attach to a fresh guest passes through: bind mount, control group, sysfs. */
  lemma FreshAttachStages(o: Oracle, p: World, domId: Option<int>, pid: int, root: string, path: string)
    requires root == RootDir(domId) && "/dev/bus/" in p.dirs
    requires root + "dev/bus/" !in p.dirs && root + "sys/" !in p.dirs && CgDir(domId) !in p.dirs
    requires MountFs(Bind("/dev", root + "dev/")) !in o.refused
    requires Mkdir(CgDir(domId), DirMode) !in o.refused
    requires Mkdir(root + "sys/", DirMode) !in o.refused
    requires MountFs(Sysfs(root + "sys/")) !in o.refused
    ensures var w1 := p.Apply(MountFs(Bind("/dev", root + "dev/")));
      var w2 := CreateCgroup(o, w1, domId, pid);
      && w2.Running? && root + "sys/" !in w2.world.dirs && CgDir(domId) in w2.world.dirs
      && MountSys(o, w2.world, root).Running?
      && Attach(o, p, domId, pid, root, path) == EditRule(o, MountSys(o, w2.world, root).world, domId, "devices.allow", path)
  {
    var w1 := p.Apply(MountFs(Bind("/dev", root + "dev/")));
    FreshFirstAttach(o, p, domId, pid, root);
    var w2 := CreateCgroup(o, w1, domId, pid).world;
    MountSysFresh(o, w2, root);
    AttachFreshUnfold(o, p, domId, pid, root, path);
  }

  /**
   * The first device of a fresh guest: the bind mount, the control group's
   * mkdir and writes, then `sys/` and the sysfs mount, then the device's allow
   * rule, in that order; the two mounts are the only ones added.
   */
  lemma FreshAttachOrder(o: Oracle, p: World, domId: Option<int>, pid: int, root: string, path: string)
    requires root == RootDir(domId) && "/dev/bus/" in p.dirs
    requires root + "dev/bus/" !in p.dirs && root + "sys/" !in p.dirs && CgDir(domId) !in p.dirs
    requires MountFs(Bind("/dev", root + "dev/")) !in o.refused
    requires Mkdir(CgDir(domId), DirMode) !in o.refused
    requires Mkdir(root + "sys/", DirMode) !in o.refused
    requires MountFs(Sysfs(root + "sys/")) !in o.refused
    ensures var r, cg := Attach(o, p, domId, pid, root, path), CgDir(domId);
      && r.Running?
      && r.world.mounts == p.mounts + [Bind("/dev", root + "dev/"), Sysfs(root + "sys/")]
      && r.world.calls == p.calls
           + [MountFs(Bind("/dev", root + "dev/")), Mkdir(cg, DirMode)] + CgWrites(cg, Rules(o.nodes, Whitelist), pid)
           + [Mkdir(root + "sys/", DirMode), MountFs(Sysfs(root + "sys/"))] + Writes(cg + "devices.allow", DeviceRule(o, path))
  {
    var cg := CgDir(domId);
    var rules := Rules(o.nodes, Whitelist);
    var bind := MountFs(Bind("/dev", root + "dev/"));
    var w1 := p.Apply(bind);
    ApplyKeepsLogs(p, bind);
    FreshAttachStages(o, p, domId, pid, root, path);
    CreateCgroupWrites(o, w1, domId, pid);
    var w2 := CreateCgroup(o, w1, domId, pid).world;
    MountSysFresh(o, w2, root);
    var w3 := MountSys(o, w2, root).world;
    EditRuleEffect(o, w3, domId, "devices.allow", path);
    var r := EditRule(o, w3, domId, "devices.allow", path).world;
    CallsThroughStages(p.calls, w1.calls, w2.calls, w3.calls, r.calls, bind, Mkdir(cg, DirMode), CgWrites(cg, rules, pid),
      [Mkdir(root + "sys/", DirMode), MountFs(Sysfs(root + "sys/"))], Writes(cg + "devices.allow", DeviceRule(o, path)));
    CreateCgroupShape(o, w1, domId, pid);
    MountsThroughStages(p.mounts, w1.mounts, w2.mounts, w3.mounts, r.mounts, Bind("/dev", root + "dev/"), Sysfs(root + "sys/"));
  }

  lemma MountsThroughStages(m0: seq<Mount>, m1: seq<Mount>, m2: seq<Mount>, m3: seq<Mount>, m4: seq<Mount>, bind: Mount, sys: Mount)
    requires m1 == m0 + [bind] && m2 == m1 && m3 == m2 + [sys] && m4 == m3
    ensures m4 == m0 + [bind, sys]
  {
    assert m0 + [bind] + [sys] == m0 + [bind, sys];
  }

  /** The calls of the stages of a first attach, put together. */
  lemma CallsThroughStages(c0: seq<Op>, c1: seq<Op>, c2: seq<Op>, c3: seq<Op>, c4: seq<Op>,
                           bind: Op, mkdir: Op, setup: seq<Op>, sys: seq<Op>, rule: seq<Op>)
    requires c1 == c0 + [bind] && c2 == c1 + [mkdir] + setup && c3 == c2 + sys && c4 == c3 + rule
    ensures c4 == c0 + [bind, mkdir] + setup + sys + rule
  {
    assert c0 + [bind] + [mkdir] == c0 + [bind, mkdir];
  }

  /**
   * What the first device of a fresh guest leaves in its control group:
   * devices.deny gets "a", devices.allow the storage-backend rule, the
   * whitelist's rules and the device's rule, and tasks the pid.
   */
  lemma FreshAttachWrites(o: Oracle, p: World, domId: Option<int>, pid: int, root: string, path: string)
    requires root == RootDir(domId) && "/dev/bus/" in p.dirs
    requires root + "dev/bus/" !in p.dirs && root + "sys/" !in p.dirs && CgDir(domId) !in p.dirs
    requires MountFs(Bind("/dev", root + "dev/")) !in o.refused
    requires Mkdir(CgDir(domId), DirMode) !in o.refused
    requires Mkdir(root + "sys/", DirMode) !in o.refused
    requires MountFs(Sysfs(root + "sys/")) !in o.refused
    ensures var r, cg := Attach(o, p, domId, pid, root, path).world, CgDir(domId);
      && r.Written(cg + "devices.deny") == p.Written(cg + "devices.deny") + [DenyAll]
      && r.Written(cg + "devices.allow")
         == p.Written(cg + "devices.allow") + [SmBackendRule] + Rules(o.nodes, Whitelist) + DeviceRule(o, path)
      && r.Written(cg + "tasks") == p.Written(cg + "tasks") + [IntToString(pid)]
  {
    var cg := CgDir(domId);
    var rules := Rules(o.nodes, Whitelist);
    var deny, allow, tasks := cg + "devices.deny", cg + "devices.allow", cg + "tasks";
    FreshAttachWritten(o, p, domId, pid, root, path, deny);
    FreshAttachWritten(o, p, domId, pid, root, path, allow);
    FreshAttachWritten(o, p, domId, pid, root, path, tasks);
    CgWrittenFiles(p, cg, rules, pid);
    ControlFilesDistinct(cg);
    assert p.Written(deny) + [DenyAll] + [] == p.Written(deny) + [DenyAll];
    assert p.Written(tasks) + [IntToString(pid)] + [] == p.Written(tasks) + [IntToString(pid)];
  }

  /** One file after a first attach on a fresh guest: its control-group set-up, then the device rule. */
  lemma FreshAttachWritten(o: Oracle, p: World, domId: Option<int>, pid: int, root: string, path: string, f: string)
    requires root == RootDir(domId) && "/dev/bus/" in p.dirs
    requires root + "dev/bus/" !in p.dirs && root + "sys/" !in p.dirs && CgDir(domId) !in p.dirs
    requires MountFs(Bind("/dev", root + "dev/")) !in o.refused
    requires Mkdir(CgDir(domId), DirMode) !in o.refused
    requires Mkdir(root + "sys/", DirMode) !in o.refused
    requires MountFs(Sysfs(root + "sys/")) !in o.refused
    ensures var cg := CgDir(domId);
      Attach(o, p, domId, pid, root, path).world.Written(f)
      == CgWritten(p, cg, Rules(o.nodes, Whitelist), pid, f) + (if f == cg + "devices.allow" then DeviceRule(o, path) else [])
  {
    var cg := CgDir(domId);
    var rules := Rules(o.nodes, Whitelist);
    var w1 := p.Apply(MountFs(Bind("/dev", root + "dev/")));
    FreshAttachStages(o, p, domId, pid, root, path);
    CreateCgroupShape(o, w1, domId, pid);
    var w2 := CreateCgroup(o, w1, domId, pid).world;
    MountSysFresh(o, w2, root);
    var w3 := MountSys(o, w2, root).world;
    EditRuleEffect(o, w3, domId, "devices.allow", path);
    var made := w1.Apply(Mkdir(cg, DirMode));
    ApplyKeepsLogs(p, MountFs(Bind("/dev", root + "dev/")));
    ApplyKeepsLogs(w1, Mkdir(cg, DirMode));
    SetUpCgroupWritten(made, cg, rules, pid, f);
    CgWrittenSameLogs(made, p, cg, rules, pid, f);
    assert w3.Written(f) == CgWritten(p, cg, rules, pid, f);
    if f != cg + "devices.allow" {
      assert CgWritten(p, cg, rules, pid, f) + [] == CgWritten(p, cg, rules, pid, f);
    }
  }

  /** `sys/` is created and sysfs mounted there when `sys/` is absent and neither call is refused. */
  lemma MountSysFresh(o: Oracle, w: World, root: string)
    requires root + "sys/" !in w.dirs
    requires Mkdir(root + "sys/", DirMode) !in o.refused
    requires MountFs(Sysfs(root + "sys/")) !in o.refused
    ensures var r := MountSys(o, w, root);
      && r.Running?
      && r.world.logs == w.logs && w.dirs <= r.world.dirs
      && r.world.mounts == w.mounts + [Sysfs(root + "sys/")]
      && r.world.calls == w.calls + [Mkdir(root + "sys/", DirMode), MountFs(Sysfs(root + "sys/"))]
  {
  }

  /** Attach on a guest without `dev/bus/` runs the first-attach branch and, without `sys/`, the sysfs mount. */
  lemma AttachFreshUnfold(o: Oracle, p: World, domId: Option<int>, pid: int, root: string, path: string)
    requires root + "dev/bus/" !in p.dirs
    requires FirstAttach(o, p, domId, pid, root).Running?
    requires root + "sys/" !in FirstAttach(o, p, domId, pid, root).world.dirs
    requires MountSys(o, FirstAttach(o, p, domId, pid, root).world, root).Running?
    ensures Attach(o, p, domId, pid, root, path)
         == EditRule(o, MountSys(o, FirstAttach(o, p, domId, pid, root).world, root).world, domId, "devices.allow", path)
  {
  }

  /** The end-to-end attach of a device to a fresh guest, from the command line on. */
  lemma FirstAttachOrder(o: Oracle, w: World, a: Args, base: Ids)
    requires ArgsParsed(a) && Truthy(a.pid) && "/dev/bus/" in w.dirs
    requires Prepare(o, w, a, base).Running?
    requires var root := RootDir(a.domId);
      && root in w.dirs && root + "dev/" in w.dirs
      && root + "dev/bus/" !in w.dirs && root + "sys/" !in w.dirs && CgDir(a.domId) !in w.dirs
      && MountFs(Bind("/dev", root + "dev/")) !in o.refused
      && Mkdir(CgDir(a.domId), DirMode) !in o.refused
      && Mkdir(root + "sys/", DirMode) !in o.refused
      && MountFs(Sysfs(root + "sys/")) !in o.refused
    ensures var r, p := Execute(o, w, a, base), Prepare(o, w, a, base).world;
      r == Attach(o, p, a.domId, a.pid.value, RootDir(a.domId), NodePath(o, a.device))
      && r.Running? && r.world.mounts == w.mounts + [Bind("/dev", RootDir(a.domId) + "dev/"), Sysfs(RootDir(a.domId) + "sys/")]
  {
    PrepareEffect(o, w, a, base);
    var p := Prepare(o, w, a, base).world;
    FreshAttachOrder(o, p, a.domId, a.pid.value, RootDir(a.domId), NodePath(o, a.device));
  }
}
